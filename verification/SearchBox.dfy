/**
 * The search box (src/components/Search.tsx): a local copy of the search term propagated after
 * a pause, the filter object last applied from the popup, and whether the popup is open.
 */
module SearchBox {
  import opened Wrappers
  import opened FilterModel
  import opened FiltersPopup

  /**
   * `hasFilters()`: a set range bound, a non-empty featured list, a property type other than
   * undefined and "", a set bedrooms or bathrooms value, or a location other than "" and undefined.
   */
  predicate HasFilters(f: Filters) {
    IsSet(MinOf(f.priceRange)) || IsSet(MaxOf(f.priceRange))
    || IsSet(MinOf(f.area)) || IsSet(MaxOf(f.area))
    || (f.featured.Is? && |f.featured.value| > 0)
    || (f.propertyType != Undefined && f.propertyType != Is(OneType("")))
    || IsSet(f.bedrooms) || IsSet(f.bathrooms)
    || (f.location != Is("") && f.location != Undefined)
  }

  /** The initial filter object shows no filter badge. */
  lemma InitialHasNoFilters()
    ensures !HasFilters(InitialFilters)
  {
  }

  /** Each of these alone turns the badge on. */
  lemma EachSettingCounts(f: Filters, t: string, n: real, b: Field<real>)
    requires t != ""
    ensures HasFilters(f.(propertyType := Is(OneType(t))))
    ensures HasFilters(f.(bedrooms := Is(n))) && HasFilters(f.(bathrooms := Is(n)))
    ensures HasFilters(f.(priceRange := Is(Range(Is(n), b))))
    ensures HasFilters(f.(priceRange := Is(Range(b, Is(n)))))
    ensures HasFilters(f.(area := Is(Range(Is(n), b))))
    ensures HasFilters(f.(area := Is(Range(b, Is(n)))))
    ensures HasFilters(f.(location := Is(t)))
  {
  }

  /** `featured` counts only as a non-empty list; `location` only when it is neither undefined nor "". */
  lemma FeaturedAndLocationRules(f: Filters)
    ensures f.featured == Is([]) ==> HasFilters(f) == HasFilters(f.(featured := Undefined))
    ensures f.location == Is("") ==> HasFilters(f) == HasFilters(f.(location := Undefined))
  {
  }

  class SearchBox {
    var filtersOpen: bool
    var localSearch: string
    var activeFilters: Filters
    /** The `searchTerm` prop. */
    var searchTerm: string
    /** The popup this box renders; its `isOpen` prop is `filtersOpen`. */
    const popup: FiltersPopup

    constructor (searchTerm: string)
      ensures !filtersOpen && localSearch == searchTerm && this.searchTerm == searchTerm
      ensures activeFilters == InitialFilters && fresh(popup) && popup.filters == Cleared
    {
      filtersOpen := false;
      localSearch := searchTerm;
      activeFilters := InitialFilters;
      this.searchTerm := searchTerm;
      popup := new FiltersPopup();
    }

    /** The effect on `searchTerm`: a new prop value overwrites the local copy. */
    method SyncSearchTerm(term: string)
      modifies this
      ensures searchTerm == term && localSearch == term
      ensures filtersOpen == old(filtersOpen) && activeFilters == old(activeFilters)
    {
      searchTerm := term;
      localSearch := term;
    }

    /** `handleSearchChange`: typing changes only the local copy. */
    method HandleSearchChange(value: string)
      modifies this
      ensures localSearch == value && searchTerm == old(searchTerm)
      ensures filtersOpen == old(filtersOpen) && activeFilters == old(activeFilters)
    {
      localSearch := value;
    }

    /**
     * The debounced callback once the pause has elapsed: `onSearchChange(localSearch)` is called
     * exactly when a listener is present and the local copy differs from the prop.
     */
    method DebounceElapsed(hasListener: bool) returns (propagated: Option<string>)
      ensures propagated.Some? <==> hasListener && localSearch != searchTerm
      ensures propagated.Some? ==> propagated.value == localSearch
    {
      if hasListener && localSearch != searchTerm {
        propagated := Some(localSearch);
      } else {
        propagated := None;
      }
    }

    /** The filter button: opens the popup. */
    method OpenFilters()
      modifies this
      ensures filtersOpen && activeFilters == old(activeFilters)
      ensures localSearch == old(localSearch) && searchTerm == old(searchTerm)
    {
      filtersOpen := true;
    }

    /** The popup's `onClose`. */
    method CloseFilters()
      modifies this
      ensures !filtersOpen && activeFilters == old(activeFilters)
      ensures localSearch == old(localSearch) && searchTerm == old(searchTerm)
    {
      filtersOpen := false;
    }

    /**
     * `handleApplyFilters(filters)`: stores the object, forwards the same object to
     * `onFiltersChange` when a listener is present, and closes the popup.
     */
    method HandleApplyFilters(filters: Filters, hasListener: bool) returns (forwarded: Option<Filters>)
      modifies this
      ensures activeFilters == filters && !filtersOpen
      ensures forwarded == (if hasListener then Some(filters) else None)
      ensures localSearch == old(localSearch) && searchTerm == old(searchTerm)
    {
      activeFilters := filters;
      forwarded := if hasListener then Some(filters) else None;
      filtersOpen := false;
    }

    /**
     * The popup's "Aplicar Filtros": its record goes through `onApplyFilters`, which is
     * `handleApplyFilters` above, and then `onClose` runs.
     */
    method ApplyFromPopup(hasListener: bool) returns (forwarded: Option<Filters>)
      modifies this
      ensures activeFilters == AsFilters(popup.filters) && !filtersOpen
      ensures forwarded == (if hasListener then Some(AsFilters(popup.filters)) else None)
      ensures localSearch == old(localSearch) && searchTerm == old(searchTerm)
    {
      var applied := popup.HandleApplyFilters();
      forwarded := HandleApplyFilters(AsFilters(applied), hasListener);
      CloseFilters();
    }
  }
}
