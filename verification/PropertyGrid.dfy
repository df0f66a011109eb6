/**
 * The listing grid (src/components/PropertyGrid.tsx): every fetched row is normalised with
 * `??` defaults before it is shown. The rows arrive untyped, so the columns stay JavaScript
 * values; only the image list is guaranteed to be an array.
 */
module PropertyGrid {
  import Js
  import opened Wrappers

  /** The object the grid builds from one row; the description column is not carried over. */
  datatype GridRow = GridRow(
    id: Js.Value,
    title: Js.Value,
    location: Js.Value,
    price: Js.Value,
    bedrooms: Js.Value,
    bathrooms: Js.Value,
    area: Js.Value,
    images: seq<Js.Value>,
    featured: Js.Value)

  const NoTitle := "Título indisponível"
  const NoLocation := "Local não informado"
  const NoPrice := "Preço sob consulta"

  /** The mapping applied to one fetched row. */
  function NormalizeRow(p: Js.Row): GridRow {
    var images := Js.Get(p, "images");
    GridRow(
      Js.Get(p, "id"),
      Js.Coalesce(Js.Get(p, "title"), Js.Str(NoTitle)),
      Js.Coalesce(Js.Get(p, "location"), Js.Str(NoLocation)),
      Js.Coalesce(Js.Get(p, "price"), Js.Str(NoPrice)),
      Js.Coalesce(Js.Get(p, "bedrooms"), Js.Num(0.0)),
      Js.Coalesce(Js.Get(p, "bathrooms"), Js.Num(0.0)),
      Js.Coalesce(Js.Get(p, "area"), Js.Num(0.0)),
      if images.Array? then images.items else [],
      Js.Coalesce(Js.Get(p, "featured"), Js.Bool(false)))
  }

  /** `(data || []).map(...)`: one grid row per fetched row, in the same order. */
  function NormalizeRows(data: Option<seq<Js.Row>>): (r: seq<GridRow>)
    ensures data.None? ==> r == []
    ensures data.Some? ==> |r| == |data.value| && forall i :: 0 <= i < |r| ==> r[i] == NormalizeRow(data.value[i])
  {
    if data.None? then [] else NormalizeList(data.value)
  }

  function NormalizeList(rows: seq<Js.Row>): (r: seq<GridRow>)
    ensures |r| == |rows|
    ensures forall i :: 0 <= i < |rows| ==> r[i] == NormalizeRow(rows[i])
  {
    if rows == [] then [] else [NormalizeRow(rows[0])] + NormalizeList(rows[1..])
  }

  /**
   * Only a null or missing text column takes its placeholder; every other value, the empty
   * text included, is kept as it came.
   */
  lemma TextDefaults(p: Js.Row)
    ensures var g := NormalizeRow(p);
      && (Js.IsNullish(Js.Get(p, "title")) ==> g.title == Js.Str(NoTitle))
      && (!Js.IsNullish(Js.Get(p, "title")) ==> g.title == Js.Get(p, "title"))
      && (Js.IsNullish(Js.Get(p, "location")) ==> g.location == Js.Str(NoLocation))
      && (!Js.IsNullish(Js.Get(p, "location")) ==> g.location == Js.Get(p, "location"))
      && (Js.IsNullish(Js.Get(p, "price")) ==> g.price == Js.Str(NoPrice))
      && (!Js.IsNullish(Js.Get(p, "price")) ==> g.price == Js.Get(p, "price"))
      && (Js.Get(p, "title") == Js.Str("") ==> g.title == Js.Str(""))
  {
  }

  /** A null or missing count or area becomes 0, while a stored 0 stays 0 and any value is kept. */
  lemma NumberDefaults(p: Js.Row)
    ensures var g := NormalizeRow(p);
      && (Js.IsNullish(Js.Get(p, "bedrooms")) ==> g.bedrooms == Js.Num(0.0))
      && (!Js.IsNullish(Js.Get(p, "bedrooms")) ==> g.bedrooms == Js.Get(p, "bedrooms"))
      && (Js.IsNullish(Js.Get(p, "bathrooms")) ==> g.bathrooms == Js.Num(0.0))
      && (!Js.IsNullish(Js.Get(p, "bathrooms")) ==> g.bathrooms == Js.Get(p, "bathrooms"))
      && (Js.IsNullish(Js.Get(p, "area")) ==> g.area == Js.Num(0.0))
      && (!Js.IsNullish(Js.Get(p, "area")) ==> g.area == Js.Get(p, "area"))
      && (Js.IsNullish(Js.Get(p, "featured")) ==> g.featured == Js.Bool(false))
      && (!Js.IsNullish(Js.Get(p, "featured")) ==> g.featured == Js.Get(p, "featured"))
  {
  }

  /** The image column always ends up a list: an array passes through, anything else becomes empty. */
  lemma ImagesAlwaysList(p: Js.Row)
    ensures Js.Get(p, "images").Array? ==> NormalizeRow(p).images == Js.Get(p, "images").items
    ensures !Js.Get(p, "images").Array? ==> NormalizeRow(p).images == []
  {
  }

  /** No shown column is ever null or undefined, except the id, which is copied as it came. */
  lemma NoNullishColumns(p: Js.Row)
    ensures var g := NormalizeRow(p);
      && !Js.IsNullish(g.title) && !Js.IsNullish(g.location) && !Js.IsNullish(g.price)
      && !Js.IsNullish(g.bedrooms) && !Js.IsNullish(g.bathrooms) && !Js.IsNullish(g.area)
      && !Js.IsNullish(g.featured) && g.id == Js.Get(p, "id")
  {
  }

  /** Normalising is idempotent on the columns it defaults: a second pass changes nothing. */
  lemma NormalizeTwice(p: Js.Row)
    ensures var g := NormalizeRow(p);
      var again := NormalizeRow(map[
        "id" := g.id, "title" := g.title, "location" := g.location, "price" := g.price,
        "bedrooms" := g.bedrooms, "bathrooms" := g.bathrooms, "area" := g.area,
        "images" := Js.Array(g.images), "featured" := g.featured]);
      again == g
  {
  }
}
