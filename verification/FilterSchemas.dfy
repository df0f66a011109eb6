/**
 * How the filter popup's record meets the readers of the `Filters` interface (the home page's
 * `hasActiveFilters` and filter switch, and the search box's `hasFilters`). The popup emits
 * `priceMin`, `priceMax`, `bairro`, `tipoImovel`, `tamanhoMin` and `tamanhoMax`; the readers
 * look for `priceRange`, `location`, `area`, `bedrooms`, `bathrooms`, `propertyType` and
 * `featured`. As written, nothing the popup emits is ever read. `PopupToFilters` is the
 * translation into the interface that the popup's labels call for.
 */
module FilterSchemas {
  import Js
  import opened Wrappers
  import opened Text
  import opened PropertyModel
  import opened FilterModel
  import opened Home
  import opened SearchBox
  import opened FiltersPopup

  // ---------------------------------------------------------------------------------------------
  // As written

  /**
   * Whatever the popup holds, applying it activates no filter on the page and lights no badge
   * in the search box, and the page selects exactly what it selects for a cleared popup: the
   * properties that match a non-blank search term, or none.
   */
  lemma PopupFiltersAreIgnored(rec: PopupFilters, p: Property, term: string, parse: string -> Js.Number)
    ensures !HasActiveFilters(AsFilters(rec)) && !HasFilters(AsFilters(rec))
    ensures Selected(p, term, AsFilters(rec), parse) <==> Trim(term) != "" && MatchesSearch(p, term)
    ensures Selected(p, term, AsFilters(rec), parse) == Selected(p, term, AsFilters(Cleared), parse)
  {
  }

  /**
   * A concrete instance: with the neighbourhood "Centro" chosen, a property that has no location
   * at all is still shown for any search term it matches.
   */
  lemma BairroDoesNotNarrow(p: Property, term: string, parse: string -> Js.Number)
    requires Trim(term) != "" && MatchesSearch(p, term) && p.location.None?
    ensures Selected(p, term, AsFilters(Cleared.(bairro := "Centro")), parse)
  {
  }

  /**
   * `featured` is typed `string[]` but compared through `Boolean(value)`: even the empty list
   * makes the page keep only featured properties, while the search box reports no filter.
   */
  lemma FeaturedEmptyListDisagreement(p: Property, parse: string -> Js.Number)
    ensures HasActiveFilters(InitialFilters.(featured := Is([])))
    ensures !HasFilters(InitialFilters.(featured := Is([])))
    ensures KeepsAll(p, InitialFilters.(featured := Is([])), parse) ==> p.featured == Some(true)
  {
  }

  // ---------------------------------------------------------------------------------------------
  // Corrected translation

  /** A bound typed into a text box: blank or not a number means no bound. */
  function BoundFromText(text: string, parse: string -> Js.Number): Field<real> {
    if text == "" then Undefined
    else match parse(text)
      case NaN => Undefined
      case Finite(x) => Is(x)
  }

  /** The popup's record in the `Filters` interface. */
  function PopupToFilters(rec: PopupFilters, parse: string -> Js.Number): (f: Filters)
    ensures HasActiveFilters(f) <==>
              rec.bairro != ""
              || BoundFromText(rec.priceMin, parse).Is? || BoundFromText(rec.priceMax, parse).Is?
              || BoundFromText(rec.tamanhoMin, parse).Is? || BoundFromText(rec.tamanhoMax, parse).Is?
    ensures HasFilters(f) <==> HasActiveFilters(f) || rec.tipoImovel != ""
  {
    Filters(
      Is(Range(BoundFromText(rec.priceMin, parse), BoundFromText(rec.priceMax, parse))),
      if rec.tipoImovel == "" then Undefined else Is(OneType(rec.tipoImovel)),
      Undefined,
      Undefined,
      if rec.bairro == "" then Undefined else Is(rec.bairro),
      Is(Range(BoundFromText(rec.tamanhoMin, parse), BoundFromText(rec.tamanhoMax, parse))),
      Undefined,
      [])
  }

  /** `n` is not below the number typed as a minimum (a blank or unparsable minimum allows all). */
  predicate NotBelowText(n: Js.Number, text: string, parse: string -> Js.Number) {
    text == "" || parse(text).NaN? || !Js.Below(n, parse(text).x)
  }

  /** `n` is not above the number typed as a maximum (a blank or unparsable maximum allows all). */
  predicate NotAboveText(n: Js.Number, text: string, parse: string -> Js.Number) {
    text == "" || parse(text).NaN? || !Js.Above(n, parse(text).x)
  }

  /**
   * What the popup's labels promise: the chosen neighbourhood occurs in the location, the price
   * lies within the typed price range and the area within the typed size range.
   */
  predicate MatchesPopup(p: Property, rec: PopupFilters, parse: string -> Js.Number) {
    (rec.bairro == "" || TextMatches(p.location, ToLower(rec.bairro)))
    && NotBelowText(PriceNumber(p, parse), rec.priceMin, parse)
    && NotAboveText(PriceNumber(p, parse), rec.priceMax, parse)
    && NotBelowText(Js.Finite(AreaNumber(p)), rec.tamanhoMin, parse)
    && NotAboveText(Js.Finite(AreaNumber(p)), rec.tamanhoMax, parse)
  }

  /**
   * The translated record keeps exactly the properties the popup describes, and choosing a
   * neighbourhood both activates the page's filtering and lights the search box's badge, so the
   * page then shows only properties in that neighbourhood.
   */
  lemma CorrectedPopupFilters(p: Property, rec: PopupFilters, term: string, parse: string -> Js.Number)
    ensures KeepsAll(p, PopupToFilters(rec, parse), parse) <==> MatchesPopup(p, rec, parse)
    ensures rec.bairro != "" ==> HasActiveFilters(PopupToFilters(rec, parse)) && HasFilters(PopupToFilters(rec, parse))
    ensures rec.bairro != "" && Selected(p, term, PopupToFilters(rec, parse), parse) ==>
              TextMatches(p.location, ToLower(rec.bairro))
  {
  }
}
