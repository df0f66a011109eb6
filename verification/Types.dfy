/**
 * A row of the `properties` table as the pages receive it. Every column the backend may leave
 * empty is optional: `None` stands for both `null` and `undefined`, which `?.`, `??` and `||`
 * treat alike.
 */
module PropertyModel {
  import opened Wrappers

  datatype Property = Property(
    id: int,
    title: Option<string>,
    location: Option<string>,
    price: Option<string>,
    bedrooms: Option<real>,
    bathrooms: Option<real>,
    area: Option<real>,
    images: Option<seq<string>>,
    featured: Option<bool>,
    description: Option<string>)
}

/**
 * The filter object of the listing search. A property of the object that is absent reads as
 * `undefined`, so each field distinguishes undefined, null and a value.
 */
module FilterModel {
  import Js

  datatype Field<+T> = Undefined | Null | Is(value: T)

  /** `{ min?: number; max?: number }`. */
  datatype Range = Range(min: Field<real>, max: Field<real>)

  /** `string | string[]`. */
  datatype TypeChoice = OneType(name: string) | AnyOfTypes(names: seq<string>)

  /**
   * The `Filters` interface. `others` holds, in order, the properties of the object whose keys
   * are outside the interface; the object that the filter popup emits has only such keys.
   */
  datatype Filters = Filters(
    priceRange: Field<Range>,
    propertyType: Field<TypeChoice>,
    bedrooms: Field<real>,
    bathrooms: Field<real>,
    location: Field<string>,
    area: Field<Range>,
    featured: Field<seq<string>>,
    others: seq<(string, Js.Value)>)

  /** `v !== undefined && v !== null`. */
  predicate IsSet<T>(v: Field<T>) {
    v.Is?
  }

  /** `range?.min`. */
  function MinOf(range: Field<Range>): Field<real> {
    if range.Is? then range.value.min else Undefined
  }

  /** `range?.max`. */
  function MaxOf(range: Field<Range>): Field<real> {
    if range.Is? then range.value.max else Undefined
  }

  /** The object both the home page and the search box start from (and the page resets to). */
  const InitialFilters: Filters := Filters(
    Is(Range(Undefined, Undefined)), Undefined, Undefined, Undefined,
    Is(""), Is(Range(Undefined, Undefined)), Undefined, [])
}
