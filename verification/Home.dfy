/**
 * The home page's listing search (src/app/page.tsx): whether a search is active, the free-text
 * match on title, location and description, and the per-key filter of the `Filters` object.
 */
module Home {
  import opened Wrappers
  import Js
  import opened Text
  import opened Seqs
  import opened PropertyModel
  import opened FilterModel

  /** `hasActiveFilters()`: a set range bound, featured, bedrooms or bathrooms, or a location other than "" and undefined. */
  predicate HasActiveFilters(f: Filters) {
    IsSet(MinOf(f.priceRange)) || IsSet(MaxOf(f.priceRange))
    || IsSet(MinOf(f.area)) || IsSet(MaxOf(f.area))
    || IsSet(f.featured) || IsSet(f.bedrooms) || IsSet(f.bathrooms)
    || (f.location != Is("") && f.location != Undefined)
  }

  /** `showSearchResults`: a search term with some non-blank character, or an active filter. */
  predicate ShowSearchResults(term: string, f: Filters) {
    Trim(term) != "" || HasActiveFilters(f)
  }

  /** The free-text stage: the lower-cased (untrimmed) term occurs in title, location or description. */
  predicate MatchesSearch(p: Property, term: string) {
    var lower := ToLower(term);
    TextMatches(p.title, lower) || TextMatches(p.location, lower) || TextMatches(p.description, lower)
  }

  /** `parseFloat(property.price || "0")`. */
  function PriceNumber(p: Property, parse: string -> Js.Number): Js.Number {
    parse(if p.price.None? || p.price.value == "" then "0" else p.price.value)
  }

  /** `Number(property.area || 0)`. */
  function AreaNumber(p: Property): real {
    if p.area.Some? then p.area.value else 0.0
  }

  /**
   * The range test of the `priceRange` and `area` cases: a bound excludes only when it is not
   * undefined and `n` lies strictly beyond it. A null bound compares as 0.
   */
  predicate WithinRange(n: Js.Number, r: Range) {
    (match r.min
     case Undefined => true
     case Null => !Js.Below(n, 0.0)
     case Is(lo) => !Js.Below(n, lo))
    &&
    (match r.max
     case Undefined => true
     case Null => !Js.Above(n, 0.0)
     case Is(hi) => !Js.Above(n, hi))
  }

  /** The `priceRange` case. */
  predicate PriceKeeps(p: Property, f: Field<Range>, parse: string -> Js.Number) {
    !f.Is? || WithinRange(PriceNumber(p, parse), f.value)
  }

  /** The `area` case. */
  predicate AreaKeeps(p: Property, f: Field<Range>) {
    !f.Is? || WithinRange(Js.Finite(AreaNumber(p)), f.value)
  }

  /** The `bedrooms` and `bathrooms` cases: `(count ?? 0) >= value`. */
  predicate AtLeast(count: Option<real>, f: Field<real>) {
    !f.Is? || count.GetOr(0.0) >= f.value
  }

  /** The `location` case. */
  predicate LocationKeeps(p: Property, f: Field<string>) {
    !f.Is? || TextMatches(p.location, ToLower(f.value))
  }

  /** The `featured` case: `Boolean(value)` of an array is always true. */
  predicate FeaturedKeeps(p: Property, f: Field<seq<string>>) {
    !f.Is? || p.featured == Some(true)
  }

  /**
   * `Object.entries(filters).every(...)`: undefined and null values pass, and so do the keys the
   * switch does not name (`propertyType` and everything in `others`).
   */
  predicate KeepsAll(p: Property, f: Filters, parse: string -> Js.Number) {
    PriceKeeps(p, f.priceRange, parse)
    && AtLeast(p.bedrooms, f.bedrooms)
    && AtLeast(p.bathrooms, f.bathrooms)
    && AreaKeeps(p, f.area)
    && LocationKeeps(p, f.location)
    && FeaturedKeeps(p, f.featured)
  }

  /** Whether `filteredProperties` keeps `p`. */
  predicate Selected(p: Property, term: string, f: Filters, parse: string -> Js.Number) {
    ShowSearchResults(term, f)
    && (Trim(term) != "" ==> MatchesSearch(p, term))
    && (HasActiveFilters(f) ==> KeepsAll(p, f, parse))
  }

  // ---------------------------------------------------------------------------------------------
  // Properties of the predicate

  /** Keys outside the switch never matter, and a filter object with no set value keeps everything. */
  lemma UnsetValuesImposeNothing(p: Property, f: Filters, o: seq<(string, Js.Value)>, parse: string -> Js.Number)
    ensures KeepsAll(p, f.(others := o), parse) == KeepsAll(p, f, parse)
    ensures KeepsAll(p, f.(propertyType := Null), parse) == KeepsAll(p, f, parse)
    ensures (!IsSet(f.priceRange) && !IsSet(f.bedrooms) && !IsSet(f.bathrooms) && !IsSet(f.area)
             && !IsSet(f.location) && !IsSet(f.featured)) ==> KeepsAll(p, f, parse)
  {
  }

  /** Bedrooms and bathrooms: a missing count behaves as 0. */
  lemma MissingCountIsZero(count: Option<real>, threshold: real)
    ensures AtLeast(count, Is(threshold)) <==> (if count.Some? then count.value else 0.0) >= threshold
    ensures AtLeast(None, Is(threshold)) <==> threshold <= 0.0
  {
  }

  /** Area is an inclusive range, a missing area counts as 0, and only defined bounds are checked. */
  lemma AreaInclusive(p: Property, lo: real, hi: real)
    ensures AreaKeeps(p, Is(Range(Is(lo), Is(hi)))) <==> lo <= AreaNumber(p) <= hi
    ensures AreaKeeps(p, Is(Range(Is(lo), Undefined))) <==> lo <= AreaNumber(p)
    ensures AreaKeeps(p, Is(Range(Undefined, Is(hi)))) <==> AreaNumber(p) <= hi
    ensures p.area.None? ==> AreaNumber(p) == 0.0
  {
  }

  /** The price range excludes only a parsed price strictly outside a defined bound; NaN always passes. */
  lemma PriceExcludesOnlyOutside(p: Property, r: Range, parse: string -> Js.Number)
    ensures PriceNumber(p, parse).NaN? ==> PriceKeeps(p, Is(r), parse)
    ensures !PriceKeeps(p, Is(r), parse) ==>
              PriceNumber(p, parse).Finite?
              && ((r.min.Is? && PriceNumber(p, parse).x < r.min.value)
                  || (r.max.Is? && PriceNumber(p, parse).x > r.max.value)
                  || (r.min.Null? && PriceNumber(p, parse).x < 0.0)
                  || (r.max.Null? && PriceNumber(p, parse).x > 0.0))
    ensures p.price.None? ==> PriceNumber(p, parse) == parse("0")
  {
  }

  /**
   * The page's initial location "" is not undefined, so whenever another filter is active it
   * still runs the substring test: it keeps every property with a location and drops every
   * property without one.
   */
  lemma EmptyLocationDropsUnlocated(p: Property)
    ensures LocationKeeps(p, Is("")) <==> p.location.Some?
  {
    if p.location.Some? {
      assert OccursAt(ToLower(p.location.value), ToLower(""), 0);
    }
  }

  /** A lower-cased needle occurs in the lower-cased text wherever the original needle occurs. */
  lemma {:induction false} LowerKeepsOccurrence(hay: string, needle: string, i: int)
    requires OccursAt(hay, needle, i)
    ensures OccursAt(ToLower(hay), ToLower(needle), i)
  {
    var h, n := ToLower(hay), ToLower(needle);
    forall k | 0 <= k < |needle| ensures h[i + k] == n[k] {
      assert hay[i + k] == needle[k];
    }
    assert h[i..i + |n|] == n;
  }

  /**
   * The free-text search is case-insensitive: the term "praia" finds every property whose
   * location contains "Praia".
   */
  lemma SearchIsCaseInsensitive(p: Property, i: int)
    requires p.location.Some? && OccursAt(p.location.value, "Praia", i)
    ensures MatchesSearch(p, "praia")
  {
    LowerKeepsOccurrence(p.location.value, "Praia", i);
    assert ToLower("Praia") == ToLower("praia");
  }

  /** With neither a non-blank term nor an active filter, nothing is selected, not everything. */
  lemma NothingShownWithoutSearch(p: Property, term: string, f: Filters, parse: string -> Js.Number)
    requires forall i :: 0 <= i < |term| ==> IsSpace(term[i])
    requires !HasActiveFilters(f)
    ensures !Selected(p, term, f, parse)
  {
    TrimEmptyIff(term);
  }

  /** The cleared state shows no results: the initial filters are inactive and the term is empty. */
  lemma ClearedStateShowsNothing()
    ensures !HasActiveFilters(InitialFilters)
    ensures !ShowSearchResults("", InitialFilters)
  {
  }

  /** A bedroom minimum of 2 keeps a three-bedroom property; a minimum of 4 drops it. */
  lemma BedroomThresholdExample(p: Property, parse: string -> Js.Number)
    requires p.bedrooms == Some(3.0) && p.location.Some?
    ensures KeepsAll(p, InitialFilters.(bedrooms := Is(2.0)), parse)
    ensures !KeepsAll(p, InitialFilters.(bedrooms := Is(4.0)), parse)
  {
    EmptyLocationDropsUnlocated(p);
  }

  // ---------------------------------------------------------------------------------------------
  // The page's state

  class HomePage {
    var properties: seq<Property>
    var searchTerm: string
    var filters: Filters

    constructor ()
      ensures properties == [] && searchTerm == "" && filters == InitialFilters
    {
      properties := [];
      searchTerm := "";
      filters := InitialFilters;
    }

    /** The load effect: the rows on success; on a failed query the list stays as it was. */
    method LoadProperties(fetched: Result<seq<Property>, string>)
      modifies this
      ensures fetched.Success? ==> properties == fetched.value
      ensures fetched.Failure? ==> properties == old(properties)
      ensures searchTerm == old(searchTerm) && filters == old(filters)
    {
      if fetched.Success? {
        properties := fetched.value;
      }
    }

    /** `onSearchChange`, as handed to the search box. */
    method OnSearchChange(term: string)
      modifies this
      ensures searchTerm == term && properties == old(properties) && filters == old(filters)
    {
      searchTerm := term;
    }

    /** `onFiltersChange`, as handed to the search box: the object replaces the filters wholesale. */
    method OnFiltersChange(f: Filters)
      modifies this
      ensures filters == f && properties == old(properties) && searchTerm == old(searchTerm)
    {
      filters := f;
    }

    /**
     * `filteredProperties`: empty unless a search is shown; otherwise the properties, first
     * narrowed by the search term when it is not blank, then by the filters when one is active.
     * The result keeps the order of `properties` and adds nothing.
     */
    method FilteredProperties(parse: string -> Js.Number) returns (r: seq<Property>)
      ensures IsSubsequence(r, properties)
      ensures !ShowSearchResults(searchTerm, filters) ==> r == []
      ensures forall p :: p in r <==> p in properties && Selected(p, searchTerm, filters, parse)
      ensures forall p :: multiset(r)[p] == (if Selected(p, searchTerm, filters, parse) then multiset(properties)[p] else 0)
    {
      var term, f := searchTerm, filters;
      if !ShowSearchResults(term, f) {
        return [];
      }
      var filtered := properties;
      SubsequenceReflexive(properties);
      if Trim(term) != "" {
        filtered := Filter(filtered, p => MatchesSearch(p, term));
        FilterIsSubsequence(properties, p => MatchesSearch(p, term));
        FilterMultiplicity(properties, p => MatchesSearch(p, term));
      }
      assert forall p ::
        multiset(filtered)[p] == (if Trim(term) != "" ==> MatchesSearch(p, term) then multiset(properties)[p] else 0);
      if HasActiveFilters(f) {
        var before := filtered;
        filtered := Filter(before, p => KeepsAll(p, f, parse));
        FilterIsSubsequence(before, p => KeepsAll(p, f, parse));
        FilterMultiplicity(before, p => KeepsAll(p, f, parse));
        SubsequenceTransitive(filtered, before, properties);
      }
      r := filtered;
    }

    /** `handleClearSearchAndFilters`: back to the empty term and the initial filter object. */
    method HandleClearSearchAndFilters()
      modifies this
      ensures searchTerm == "" && filters == InitialFilters && properties == old(properties)
      ensures !HasActiveFilters(filters) && !ShowSearchResults(searchTerm, filters)
    {
      searchTerm := "";
      filters := InitialFilters;
    }
  }
}
