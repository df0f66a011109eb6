/**
 * The featured-listing card (src/components/FeaturedProperty.tsx): the image-list normaliser
 * that accepts both the array column and the older comma-separated text, the price formatter,
 * and the per-row mapping that adds both results to every fetched row. `parseFloat` and the
 * Brazilian-real currency formatter are parameters.
 */
module FeaturedProperty {
  import Js
  import opened Wrappers
  import opened Text
  import opened Seqs

  // ---------------------------------------------------------------------------------------------
  // processImages

  /** The filter test of `processImages`: only non-empty texts are kept. */
  function NonEmpty(img: string): bool {
    |img| > 0
  }

  /** `typeof img === "string" ? img.trim() : ""`. */
  function ImageText(v: Js.Value): string {
    if v.Str? then Trim(v.s) else ""
  }

  /** The `map` step over an array column. */
  function ImageTexts(items: seq<Js.Value>): seq<string> {
    seq(|items|, i requires 0 <= i < |items| => ImageText(items[i]))
  }

  /** The `map(img => img.trim())` step over the comma-separated pieces. */
  function TrimmedPieces(pieces: seq<string>): seq<string> {
    seq(|pieces|, i requires 0 <= i < |pieces| => Trim(pieces[i]))
  }

  /** `processImages(imagesField)`: the list of image URLs held by the column, whatever its form. */
  function ProcessImages(field: Js.Value): seq<string> {
    match field
    case Array(items) => Filter(ImageTexts(items), NonEmpty)
    case Str(s) => Filter(TrimmedPieces(Split(s, ',')), NonEmpty)
    case _ => []
  }

  /** Every URL returned is non-empty and has no surrounding white space. */
  lemma ProcessImagesClean(field: Js.Value)
    ensures forall i :: 0 <= i < |ProcessImages(field)| ==>
      ProcessImages(field)[i] != "" && IsTrimmed(ProcessImages(field)[i])
  {
    var texts := match field
      case Array(items) => ImageTexts(items)
      case Str(s) => TrimmedPieces(Split(s, ','))
      case _ => [];
    forall i | 0 <= i < |texts| ensures IsTrimmed(texts[i]) {
      match field
      case Array(items) => TrimSpec(if items[i].Str? then items[i].s else "");
      case Str(s) => TrimSpec(Split(s, ',')[i]);
      case _ =>
    }
    var r := ProcessImages(field);
    forall i | 0 <= i < |r| ensures r[i] != "" && IsTrimmed(r[i]) {
      assert r[i] in texts;
    }
  }

  /**
   * For an array column: at most one URL per element, in element order; every string element
   * that is not blank contributes its trimmed text, and nothing else contributes.
   */
  lemma ArrayImagesSpec(items: seq<Js.Value>)
    ensures |ProcessImages(Js.Array(items))| <= |items|
    ensures IsSubsequence(ProcessImages(Js.Array(items)), ImageTexts(items))
    ensures forall i :: 0 <= i < |items| && items[i].Str? && Trim(items[i].s) != "" ==>
      Trim(items[i].s) in ProcessImages(Js.Array(items))
    ensures forall img :: img in ProcessImages(Js.Array(items)) ==>
      exists i :: 0 <= i < |items| && items[i].Str? && Trim(items[i].s) == img
  {
    var texts := ImageTexts(items);
    var r := ProcessImages(Js.Array(items));
    FilterIsSubsequence(texts, NonEmpty);
    forall i | 0 <= i < |items| && items[i].Str? && Trim(items[i].s) != ""
      ensures Trim(items[i].s) in r
    {
      assert texts[i] == Trim(items[i].s) && NonEmpty(texts[i]);
    }
    forall img | img in r ensures exists i :: 0 <= i < |items| && items[i].Str? && Trim(items[i].s) == img {
      var k :| 0 <= k < |r| && r[k] == img;
      var i :| 0 <= i < |texts| && texts[i] == img;
      assert items[i].Str?;
    }
  }

  /**
   * For a text column: every URL is a trimmed comma-separated piece, so it holds no comma, and
   * every piece that is not blank contributes its trimmed text, in order.
   */
  lemma TextImagesSpec(s: string)
    ensures IsSubsequence(ProcessImages(Js.Str(s)), TrimmedPieces(Split(s, ',')))
    ensures forall img :: img in ProcessImages(Js.Str(s)) ==> ',' !in img
    ensures forall i :: 0 <= i < |Split(s, ',')| && Trim(Split(s, ',')[i]) != "" ==>
      Trim(Split(s, ',')[i]) in ProcessImages(Js.Str(s))
  {
    var pieces := Split(s, ',');
    var texts := TrimmedPieces(pieces);
    var r := ProcessImages(Js.Str(s));
    FilterIsSubsequence(texts, NonEmpty);
    SplitPiecesLackSeparator(s, ',');
    forall img | img in r ensures ',' !in img {
      var k :| 0 <= k < |r| && r[k] == img;
      var i :| 0 <= i < |texts| && texts[i] == img;
      TrimSpec(pieces[i]);
      assert pieces[i] in pieces;
    }
    forall i | 0 <= i < |pieces| && Trim(pieces[i]) != "" ensures Trim(pieces[i]) in r {
      assert texts[i] == Trim(pieces[i]) && NonEmpty(texts[i]);
    }
  }

  /**
   * The text form is the array form joined with commas: a list of clean URLs (non-empty,
   * trimmed, without commas) is read back unchanged from either form.
   */
  lemma ImagesRoundTrip(urls: seq<string>)
    requires |urls| >= 1
    requires forall i :: 0 <= i < |urls| ==> urls[i] != "" && IsTrimmed(urls[i]) && ',' !in urls[i]
    ensures ProcessImages(Js.Str(Join(urls, ','))) == urls
    ensures ProcessImages(Js.Array(seq(|urls|, i requires 0 <= i < |urls| => Js.Str(urls[i])))) == urls
  {
    SplitJoin(urls, ',');
    forall i | 0 <= i < |urls| ensures Trim(urls[i]) == urls[i] {
      TrimStartOfTrimmed(urls[i]);
    }
    assert TrimmedPieces(urls) == urls;
    FilterKeepsAll(urls, NonEmpty);
    var items := seq(|urls|, i requires 0 <= i < |urls| => Js.Str(urls[i]));
    assert ImageTexts(items) == urls;
  }

  /** A column that is neither an array nor a text yields no images. */
  lemma OtherColumnsYieldNothing(field: Js.Value)
    requires !field.Array? && !field.Str?
    ensures ProcessImages(field) == []
  {
  }

  // ---------------------------------------------------------------------------------------------
  // formatPrice

  const AskForPrice := "Consulte o preço"
  const CurrencySign := "R$"

  /** The characters `/[^\d,.-]/g` leaves in place. */
  predicate IsPriceChar(c: char) {
    ('0' <= c <= '9') || c == ',' || c == '.' || c == '-'
  }

  /** `s.replace(/[^\d,.-]/g, "")`. */
  function KeepPriceChars(s: string): (r: string)
    ensures forall i :: 0 <= i < |r| ==> IsPriceChar(r[i])
    ensures IsSubsequence(r, s)
  {
    if s == [] then []
    else if IsPriceChar(s[0]) then [s[0]] + KeepPriceChars(s[1..])
    else
      var rest := KeepPriceChars(s[1..]);
      SubsequenceSkip(rest, s);
      rest
  }

  /** Dropping the first element of the longer sequence keeps a subsequence. */
  lemma SubsequenceSkip(r: seq<char>, s: seq<char>)
    requires s != [] && IsSubsequence(r, s[1..])
    ensures IsSubsequence(r, s)
  {
  }

  /** `s.replace(",", ".")`: only the first comma becomes a point. */
  function ReplaceFirstComma(s: string): (r: string)
    ensures |r| == |s|
    ensures forall i :: 0 <= i < |s| ==> r[i] == (if s[i] == ',' && ',' !in s[..i] then '.' else s[i])
  {
    if s == [] then []
    else if s[0] == ',' then
      var r := "." + s[1..];
      assert forall i :: 0 <= i < |s| ==> r[i] == (if s[i] == ',' && ',' !in s[..i] then '.' else s[i]) by {
        forall i | 0 <= i < |s| ensures r[i] == (if s[i] == ',' && ',' !in s[..i] then '.' else s[i]) {
          if i > 0 { assert s[..i][0] == ','; }
        }
      }
      r
    else
      var rest := ReplaceFirstComma(s[1..]);
      var r := [s[0]] + rest;
      assert forall i :: 0 <= i < |s| ==> r[i] == (if s[i] == ',' && ',' !in s[..i] then '.' else s[i]) by {
        forall i | 0 <= i < |s| ensures r[i] == (if s[i] == ',' && ',' !in s[..i] then '.' else s[i]) {
          if i > 0 {
            assert s[..i] == [s[0]] + s[1..][..i - 1];
            assert r[i] == rest[i - 1] && s[i] == s[1..][i - 1];
          }
        }
      }
      r
  }

  /** The text handed to `parseFloat`. */
  function CleanedPrice(price: string): string {
    ReplaceFirstComma(KeepPriceChars(price))
  }

  /**
   * `formatPrice(price)`: the fixed invitation for a missing or empty price, the text itself when
   * it already shows the currency sign, the formatted number when the cleaned text parses, and
   * the text itself otherwise.
   */
  function FormatPrice(price: Option<string>, parse: string -> Js.Number, currency: real -> string): (text: string)
    ensures price.None? || price == Some("") ==> text == AskForPrice
    ensures price.Some? && price.value != "" && Contains(price.value, CurrencySign) ==> text == price.value
    ensures price.Some? && price.value != "" && !Contains(price.value, CurrencySign) ==>
      (&& (parse(CleanedPrice(price.value)).NaN? ==> text == price.value)
       && (parse(CleanedPrice(price.value)).Finite? ==> text == currency(parse(CleanedPrice(price.value)).x)))
  {
    if price.None? || price.value == "" then AskForPrice
    else if Contains(price.value, CurrencySign) then price.value
    else
      var n := parse(CleanedPrice(price.value));
      if n.Finite? then currency(n.x) else price.value
  }

  /** The text `parseFloat` sees holds only digits, points, commas and minus signs. */
  lemma CleanedPriceChars(price: string)
    ensures forall i :: 0 <= i < |CleanedPrice(price)| ==> IsPriceChar(CleanedPrice(price)[i])
    ensures |CleanedPrice(price)| <= |price|
  {
    var kept := KeepPriceChars(price);
    var r := ReplaceFirstComma(kept);
    SubsequenceLength(kept, price);
  }

  lemma {:induction false} SubsequenceLength(r: seq<char>, s: seq<char>)
    requires IsSubsequence(r, s)
    ensures |r| <= |s|
    decreases |s|
  {
    if r != [] {
      if r[0] == s[0] && IsSubsequence(r[1..], s[1..]) {
        SubsequenceLength(r[1..], s[1..]);
      } else {
        SubsequenceLength(r, s[1..]);
      }
    }
  }

  /**
   * A price written only in words (no digit, point, comma or minus sign) is shown as written,
   * since the cleaned text is empty and `parseFloat("")` is NaN.
   */
  lemma WordsOnlyPriceKept(price: string, parse: string -> Js.Number, currency: real -> string)
    requires price != "" && !Contains(price, CurrencySign)
    requires forall i :: 0 <= i < |price| ==> !IsPriceChar(price[i])
    requires parse("") == Js.NaN
    ensures FormatPrice(Some(price), parse, currency) == price
  {
    NoPriceCharsCleanEmpty(price);
  }

  lemma {:induction false} NoPriceCharsCleanEmpty(s: string)
    requires forall i :: 0 <= i < |s| ==> !IsPriceChar(s[i])
    ensures KeepPriceChars(s) == ""
  {
    if s != [] {
      NoPriceCharsCleanEmpty(s[1..]);
    }
  }

  // ---------------------------------------------------------------------------------------------
  // processedData

  const ImagesKey := "processedImages"
  const PriceKey := "formattedPrice"
  const LoadError := "Erro ao carregar propriedades em destaque"

  /**
   * `formatPrice(property.price)` on the untyped column: None when the call throws, which happens
   * for a truthy value that is not a text (it has no `includes`).
   */
  function PriceColumnText(v: Js.Value, parse: string -> Js.Number, currency: real -> string): Option<string> {
    if !Js.Truthy(v) then Some(AskForPrice)
    else if v.Str? then Some(FormatPrice(Some(v.s), parse, currency))
    else None
  }

  /** One element of `processedData`: the row with the two derived columns added; None when it throws. */
  function ProcessRow(row: Js.Row, parse: string -> Js.Number, currency: real -> string): Option<Js.Row> {
    var price := PriceColumnText(Js.Get(row, "price"), parse, currency);
    if price.None? then None
    else
      var images := ProcessImages(Js.Get(row, "images"));
      Some(row[ImagesKey := Js.Array(seq(|images|, i requires 0 <= i < |images| => Js.Str(images[i])))]
              [PriceKey := Js.Str(price.value)])
  }

  /**
   * `data?.map(...) || []`: the processed rows, an empty list for a missing result, or the error
   * banner when any row throws.
   */
  function ProcessRows(data: Option<seq<Js.Row>>, parse: string -> Js.Number, currency: real -> string)
    : (r: Result<seq<Js.Row>, string>)
    ensures data.None? ==> r == Success([])
    ensures data.Some? ==> (r.Success? <==> forall i :: 0 <= i < |data.value| ==> ProcessRow(data.value[i], parse, currency).Some?)
    ensures data.Some? && r.Success? ==>
      (&& |r.value| == |data.value|
       && forall i :: 0 <= i < |data.value| ==> r.value[i] == ProcessRow(data.value[i], parse, currency).value)
    ensures r.Failure? ==> r.error == LoadError
  {
    if data.None? then Success([])
    else ProcessRowList(data.value, parse, currency)
  }

  function ProcessRowList(rows: seq<Js.Row>, parse: string -> Js.Number, currency: real -> string)
    : (r: Result<seq<Js.Row>, string>)
    ensures r.Success? <==> forall i :: 0 <= i < |rows| ==> ProcessRow(rows[i], parse, currency).Some?
    ensures r.Success? ==>
      (&& |r.value| == |rows|
       && forall i :: 0 <= i < |rows| ==> r.value[i] == ProcessRow(rows[i], parse, currency).value)
    ensures r.Failure? ==> r.error == LoadError
  {
    if rows == [] then Success([])
    else
      var first := ProcessRow(rows[0], parse, currency);
      var rest := ProcessRowList(rows[1..], parse, currency);
      if first.None? then Failure(LoadError)
      else if rest.Failure? then
        assert exists i :: 1 <= i < |rows| && ProcessRow(rows[i], parse, currency).None? by {
          var j :| 0 <= j < |rows| - 1 && ProcessRow(rows[1..][j], parse, currency).None?;
          assert rows[1..][j] == rows[j + 1];
        }
        Failure(LoadError)
      else
        var r := [first.value] + rest.value;
        assert forall i :: 0 <= i < |rows| ==> r[i] == ProcessRow(rows[i], parse, currency).value by {
          forall i | 0 <= i < |rows| ensures r[i] == ProcessRow(rows[i], parse, currency).value {
            if i > 0 { assert rows[i] == rows[1..][i - 1] && r[i] == rest.value[i - 1]; }
          }
        }
        assert forall i :: 0 <= i < |rows| ==> ProcessRow(rows[i], parse, currency).Some? by {
          forall i | 0 <= i < |rows| ensures ProcessRow(rows[i], parse, currency).Some? {
            if i > 0 { assert rows[i] == rows[1..][i - 1]; }
          }
        }
        Success(r)
  }

  /**
   * A processed row keeps every column it had, with the same value, except the two derived ones,
   * which it always has: the image list and the shown price.
   */
  lemma ProcessRowKeepsColumns(row: Js.Row, parse: string -> Js.Number, currency: real -> string)
    requires ProcessRow(row, parse, currency).Some?
    ensures var r := ProcessRow(row, parse, currency).value;
      && r.Keys == row.Keys + {ImagesKey, PriceKey}
      && (forall k :: k in row && k != ImagesKey && k != PriceKey ==> r[k] == row[k])
      && r[PriceKey] == Js.Str(PriceColumnText(Js.Get(row, "price"), parse, currency).value)
      && var imgs := ProcessImages(Js.Get(row, "images"));
         && r[ImagesKey].Array? && |r[ImagesKey].items| == |imgs|
         && forall i :: 0 <= i < |imgs| ==> r[ImagesKey].items[i] == Js.Str(imgs[i])
  {
  }

  /** URLs as the image column stores them: non-empty, trimmed and free of commas. */
  predicate CleanUrls(urls: seq<string>) {
    forall i :: 0 <= i < |urls| ==> urls[i] != "" && IsTrimmed(urls[i]) && ',' !in urls[i]
  }

  /** The image column holding `urls`, as comma-separated text or as an array. */
  function StoredImages(urls: seq<string>, asText: bool): Js.Value {
    if asText then Js.Str(Join(urls, ','))
    else Js.Array(seq(|urls|, i requires 0 <= i < |urls| => Js.Str(urls[i])))
  }

  /**
   * The card shows exactly the stored URLs when they are clean, whether the column holds them as
   * an array or as comma-separated text.
   */
  lemma ProcessRowShowsStoredImages(row: Js.Row, urls: seq<string>, asText: bool,
                                    parse: string -> Js.Number, currency: real -> string)
    requires |urls| >= 1 && CleanUrls(urls)
    requires Js.Get(row, "images") == StoredImages(urls, asText)
    ensures ProcessRow(row, parse, currency).Some? ==>
      var shown := ProcessRow(row, parse, currency).value[ImagesKey];
      && shown.Array? && |shown.items| == |urls|
      && forall i :: 0 <= i < |urls| ==> shown.items[i] == Js.Str(urls[i])
  {
    ImagesRoundTrip(urls);
    if ProcessRow(row, parse, currency).Some? {
      ProcessRowKeepsColumns(row, parse, currency);
    }
  }

  /** Rows whose price is missing, empty or a text are processed; the others make the fetch fail. */
  lemma ProcessRowThrowsOnlyOnOddPrices(row: Js.Row, parse: string -> Js.Number, currency: real -> string)
    ensures ProcessRow(row, parse, currency).None? <==>
      Js.Truthy(Js.Get(row, "price")) && !Js.Get(row, "price").Str?
  {
  }
}
