/**
 * The filter popup (src/components/FiltersPopup.tsx): a six-field record of text inputs and
 * selects, changed one key at a time, cleared, and handed to the caller on "Aplicar Filtros".
 */
module FiltersPopup {
  import Js
  import opened FilterModel

  datatype PopupKey = PriceMin | PriceMax | Bairro | TipoImovel | TamanhoMin | TamanhoMax

  datatype PopupFilters = PopupFilters(
    priceMin: string,
    priceMax: string,
    bairro: string,
    tipoImovel: string,
    tamanhoMin: string,
    tamanhoMax: string)

  /** The initial and the cleared record: every field "". */
  const Cleared: PopupFilters := PopupFilters("", "", "", "", "", "")

  /** `filters[key]`. */
  function Get(f: PopupFilters, key: PopupKey): string {
    match key
    case PriceMin => f.priceMin
    case PriceMax => f.priceMax
    case Bairro => f.bairro
    case TipoImovel => f.tipoImovel
    case TamanhoMin => f.tamanhoMin
    case TamanhoMax => f.tamanhoMax
  }

  /** `{ ...prev, [key]: value }`: field `key` becomes `value`, the other five stay. */
  function With(f: PopupFilters, key: PopupKey, value: string): (r: PopupFilters)
    ensures Get(r, key) == value
    ensures forall other :: other != key ==> Get(r, other) == Get(f, other)
  {
    match key
    case PriceMin => f.(priceMin := value)
    case PriceMax => f.(priceMax := value)
    case Bairro => f.(bairro := value)
    case TipoImovel => f.(tipoImovel := value)
    case TamanhoMin => f.(tamanhoMin := value)
    case TamanhoMax => f.(tamanhoMax := value)
  }

  /** The cleared record reads "" under every key. */
  lemma ClearedIsBlank()
    ensures forall key :: Get(Cleared, key) == ""
  {
  }

  /** Two records that agree under every key are equal, so a record is fully described by `Get`. */
  lemma {:induction false} RecordsAgreeOnKeys(a: PopupFilters, b: PopupFilters)
    requires forall key :: Get(a, key) == Get(b, key)
    ensures a == b
  {
    assert Get(a, PriceMin) == Get(b, PriceMin) && Get(a, PriceMax) == Get(b, PriceMax);
    assert Get(a, Bairro) == Get(b, Bairro) && Get(a, TipoImovel) == Get(b, TipoImovel);
    assert Get(a, TamanhoMin) == Get(b, TamanhoMin) && Get(a, TamanhoMax) == Get(b, TamanhoMax);
  }

  /** Setting a key back to the value it had changes nothing; setting it twice keeps the last value. */
  lemma WithLaws(f: PopupFilters, key: PopupKey, v: string, w: string)
    ensures With(f, key, Get(f, key)) == f
    ensures With(With(f, key, v), key, w) == With(f, key, w)
  {
    RecordsAgreeOnKeys(With(f, key, Get(f, key)), f);
    RecordsAgreeOnKeys(With(With(f, key, v), key, w), With(f, key, w));
  }

  /** The keys the `Filters` interface declares. */
  const InterfaceKeys: set<string> :=
    {"priceRange", "propertyType", "bedrooms", "bathrooms", "location", "area", "featured"}

  /** The text of each key as the popup's object carries it. */
  function KeyName(key: PopupKey): string {
    match key
    case PriceMin => "priceMin"
    case PriceMax => "priceMax"
    case Bairro => "bairro"
    case TipoImovel => "tipoImovel"
    case TamanhoMin => "tamanhoMin"
    case TamanhoMax => "tamanhoMax"
  }

  /**
   * The record as the readers of the `Filters` interface see it: none of its six keys belongs to
   * that interface, so every interface field reads undefined and the six pairs are extra keys.
   */
  function AsFilters(f: PopupFilters): (r: Filters)
    ensures && r.priceRange.Undefined? && r.propertyType.Undefined? && r.bedrooms.Undefined?
            && r.bathrooms.Undefined? && r.location.Undefined? && r.area.Undefined? && r.featured.Undefined?
    ensures |r.others| == 6
    ensures forall i :: 0 <= i < 6 ==>
      var key := [PriceMin, PriceMax, Bairro, TipoImovel, TamanhoMin, TamanhoMax][i];
      r.others[i] == (KeyName(key), Js.Str(Get(f, key)))
    ensures forall i :: 0 <= i < 6 ==> r.others[i].0 !in InterfaceKeys
  {
    Filters(Undefined, Undefined, Undefined, Undefined, Undefined, Undefined, Undefined,
            [(KeyName(PriceMin), Js.Str(f.priceMin)), (KeyName(PriceMax), Js.Str(f.priceMax)),
             (KeyName(Bairro), Js.Str(f.bairro)), (KeyName(TipoImovel), Js.Str(f.tipoImovel)),
             (KeyName(TamanhoMin), Js.Str(f.tamanhoMin)), (KeyName(TamanhoMax), Js.Str(f.tamanhoMax))])
  }

  class FiltersPopup {
    var filters: PopupFilters

    constructor ()
      ensures filters == Cleared
    {
      filters := Cleared;
    }

    /** `handleFilterChange(key, value)`. */
    method HandleFilterChange(key: PopupKey, value: string)
      modifies this
      ensures filters == With(old(filters), key, value)
    {
      filters := With(filters, key, value);
    }

    /** `clearFilters`. */
    method ClearFilters()
      modifies this
      ensures filters == Cleared
    {
      filters := Cleared;
    }

    /**
     * `handleApplyFilters`: the current record, unchanged, is what `onApplyFilters` receives;
     * the closing that follows belongs to the owner of the `isOpen` flag.
     */
    method HandleApplyFilters() returns (applied: PopupFilters)
      ensures applied == filters
      ensures forall key :: Get(applied, key) == Get(filters, key)
    {
      applied := filters;
    }
  }
}
