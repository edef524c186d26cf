/**
 The dashboard's filter state, its update on a dropdown change, and the
 facet predicate that selects the filtered view.
 */
module Filters {

  import opened Records

  /** The nine filter facets, in the order of the dashboard's dropdowns. */
  datatype Facet =
    | ByEndYear | ByTopic | BySector | ByRegion | ByPest | BySource | BySwot | ByCountry | ByCity
  {
    /** The facet's key in the filter state (the dropdown's `name`). */
    function Key(): string {
      match this
      case ByEndYear => "endYear"
      case ByTopic => "topic"
      case BySector => "sector"
      case ByRegion => "region"
      case ByPest => "pest"
      case BySource => "source"
      case BySwot => "swot"
      case ByCountry => "country"
      case ByCity => "city"
    }

    /** The record attribute the facet is compared with: `endYear` reads
        `end_year` and `pest` reads `pestle`, the others their namesakes. */
    function Attribute(): Attr {
      match this
      case ByEndYear => EndYear
      case ByTopic => Topic
      case BySector => Sector
      case ByRegion => Region
      case ByPest => Pestle
      case BySource => Source
      case BySwot => Swot
      case ByCountry => Country
      case ByCity => City
    }
  }

  const Facets: seq<Facet> :=
    [ByEndYear, ByTopic, BySector, ByRegion, ByPest, BySource, BySwot, ByCountry, ByCity]

  /** The keys of the nine facets. */
  const FacetKeys: set<string> :=
    {"endYear", "topic", "sector", "region", "pest", "source", "swot", "country", "city"}

  /** The filter state: a JavaScript object from dropdown names to the
      selected option's value; the empty string means "no filter". */
  type FilterState = map<string, string>

  /** The initial state: all nine facets present and empty. */
  const Initial: FilterState := map key | key in FacetKeys :: ""

  /** Every facet's key is one of the nine. */
  lemma KeyInFacetKeys(k: Facet)
    ensures k.Key() in FacetKeys
  {
    match k
    case ByEndYear =>
    case ByTopic =>
    case BySector =>
    case ByRegion =>
    case ByPest =>
    case BySource =>
    case BySwot =>
    case ByCountry =>
    case ByCity =>
  }

  /** A state holding exactly the nine facet keys. */
  predicate HasNineKeys(f: FilterState) {
    f.Keys == FacetKeys
  }

  /** `filters.<key>`: the selected value of facet `k`. A missing key reads as
      `undefined`, which is falsy like the empty string, so it reads as "". */
  function Selected(f: FilterState, k: Facet): string {
    if k.Key() in f then f[k.Key()] else ""
  }

  /** Facet `k` lets `item` through: it is not set, or the record's attribute
      is strictly equal (`===`) to the selected string. A number or an absent
      field is never `===` to a string. */
  predicate Admits(f: FilterState, k: Facet, item: Record) {
    Selected(f, k) == "" || item.Field(k.Attribute()) == Str(Selected(f, k))
  }

  /** The predicate passed to `data.filter`, one conditional per facet:
      `filters.k ? item.field === filters.k : true`. */
  predicate Passes(f: FilterState, item: Record) {
    && (if Selected(f, ByEndYear) != "" then item.endYear == Str(Selected(f, ByEndYear)) else true)
    && (if Selected(f, ByTopic) != "" then item.topic == Str(Selected(f, ByTopic)) else true)
    && (if Selected(f, BySector) != "" then item.sector == Str(Selected(f, BySector)) else true)
    && (if Selected(f, ByRegion) != "" then item.region == Str(Selected(f, ByRegion)) else true)
    && (if Selected(f, ByPest) != "" then item.pestle == Str(Selected(f, ByPest)) else true)
    && (if Selected(f, BySource) != "" then item.source == Str(Selected(f, BySource)) else true)
    && (if Selected(f, BySwot) != "" then item.swot == Str(Selected(f, BySwot)) else true)
    && (if Selected(f, ByCountry) != "" then item.country == Str(Selected(f, ByCountry)) else true)
    && (if Selected(f, ByCity) != "" then item.city == Str(Selected(f, ByCity)) else true)
  }

  /** A record passes exactly when every one of the nine facets admits it. */
  lemma PassesIffAllFacetsAdmit(f: FilterState, item: Record)
    ensures Passes(f, item) <==> forall k: Facet :: Admits(f, k, item)
  {
    if Passes(f, item) {
      forall k: Facet ensures Admits(f, k, item) {
        match k
        case ByEndYear =>
        case ByTopic =>
        case BySector =>
        case ByRegion =>
        case ByPest =>
        case BySource =>
        case BySwot =>
        case ByCountry =>
        case ByCity =>
      }
    }
    if forall k: Facet :: Admits(f, k, item) {
      assert Admits(f, ByEndYear, item) && Admits(f, ByTopic, item) && Admits(f, BySector, item);
      assert Admits(f, ByRegion, item) && Admits(f, ByPest, item) && Admits(f, BySource, item);
      assert Admits(f, BySwot, item) && Admits(f, ByCountry, item) && Admits(f, ByCity, item);
    }
  }

  /** `filteredData`: `data.filter(item => Passes(filters, item))`. A record
      is in the view exactly when it is in `data` and passes. */
  function Filtered(data: seq<Record>, f: FilterState): (r: seq<Record>)
    ensures |r| <= |data|
    ensures forall x :: x in r <==> x in data && Passes(f, x)
  {
    FilterBy(data, item => Passes(f, item))
  }

  /** The filtered view has one entry per passing record of `data`. */
  lemma FilteredLength(data: seq<Record>, f: FilterState)
    ensures |Filtered(data, f)| == KeptBefore(data, item => Passes(f, item), |data|)
  {
    FilterByLength(data, item => Passes(f, item));
  }

  /** The filtered view is the order-preserving subsequence of the passing
      records: it is as long as the number of passing records, and the
      passing record at position `i` of `data` sits at position
      `KeptBefore(data, _, i)` of the view, after exactly the passing records
      before it. */
  lemma FilteredIsPassingSubsequence(data: seq<Record>, f: FilterState, i: nat)
    requires i < |data| && Passes(f, data[i])
    ensures |Filtered(data, f)| == KeptBefore(data, item => Passes(f, item), |data|)
    ensures KeptBefore(data, item => Passes(f, item), i) < |Filtered(data, f)|
    ensures Filtered(data, f)[KeptBefore(data, item => Passes(f, item), i)] == data[i]
  {
    FilteredLength(data, f);
    FilterByPlacesKept(data, item => Passes(f, item), i);
  }

  /** With no facet set, the filtered view is the whole dataset. */
  lemma NoFilterKeepsAll(data: seq<Record>, f: FilterState)
    requires forall k: Facet :: Selected(f, k) == ""
    ensures Filtered(data, f) == data
  {
    assert Selected(f, ByEndYear) == "" && Selected(f, ByTopic) == "" && Selected(f, BySector) == "";
    assert Selected(f, ByRegion) == "" && Selected(f, ByPest) == "" && Selected(f, BySource) == "";
    assert Selected(f, BySwot) == "" && Selected(f, ByCountry) == "" && Selected(f, ByCity) == "";
    FilterByKeepingAll(data, item => Passes(f, item));
  }

  /** The initial state has the nine keys and sets no facet, so the first
      render shows every record. */
  lemma InitialShowsAll(data: seq<Record>)
    ensures HasNineKeys(Initial)
    ensures forall k: Facet :: Selected(Initial, k) == ""
    ensures Filtered(data, Initial) == data
  {
    forall k: Facet ensures Selected(Initial, k) == "" {
      KeyInFacetKeys(k);
    }
    NoFilterKeepsAll(data, Initial);
  }

  /** `handleFilterChange`: `{ ...filters, [name]: value }`, a fresh state in
      which `name` maps to `value` and every other key keeps its entry. */
  function HandleFilterChange(f: FilterState, name: string, value: string): (r: FilterState)
    ensures r.Keys == f.Keys + {name}
    ensures r[name] == value
    ensures forall key :: key in f && key != name ==> r[key] == f[key]
  {
    f[name := value]
  }

  /** Different facets have different keys. */
  lemma KeysDistinct(k: Facet, k': Facet)
    requires k != k'
    ensures k.Key() != k'.Key()
  {
  }

  /** Changing one facet's dropdown sets exactly that facet and leaves the
      other eight as they were. */
  lemma ChangeSetsOneFacet(f: FilterState, k: Facet, value: string, k': Facet)
    ensures Selected(HandleFilterChange(f, k.Key(), value), k') ==
            (if k' == k then value else Selected(f, k'))
  {
    if k' != k {
      KeysDistinct(k, k');
    }
  }

  /** Changing a facet keeps the state's nine-key shape. */
  lemma ChangeKeepsNineKeys(f: FilterState, k: Facet, value: string)
    requires HasNineKeys(f)
    ensures HasNineKeys(HandleFilterChange(f, k.Key(), value))
  {
    KeyInFacetKeys(k);
  }

  /** A change under a name that is no facet key adds a key the predicate
      never reads, so the filtered view stays as it was. */
  lemma ForeignKeyChangesNothing(data: seq<Record>, f: FilterState, name: string, value: string)
    requires name !in FacetKeys
    ensures Filtered(data, HandleFilterChange(f, name, value)) == Filtered(data, f)
  {
    var g := HandleFilterChange(f, name, value);
    assert forall k: Facet :: Selected(g, k) == Selected(f, k) by {
      forall k: Facet ensures Selected(g, k) == Selected(f, k) {
        KeyInFacetKeys(k);
      }
    }
    SameSelectionSameView(data, f, g);
  }

  /** Two states that select the same value for every facet give the same
      filtered view. */
  lemma SameSelectionSameView(data: seq<Record>, f: FilterState, g: FilterState)
    requires forall k: Facet :: Selected(f, k) == Selected(g, k)
    ensures Filtered(data, f) == Filtered(data, g)
  {
    assert Selected(f, ByEndYear) == Selected(g, ByEndYear) && Selected(f, ByTopic) == Selected(g, ByTopic);
    assert Selected(f, BySector) == Selected(g, BySector) && Selected(f, ByRegion) == Selected(g, ByRegion);
    assert Selected(f, ByPest) == Selected(g, ByPest) && Selected(f, BySource) == Selected(g, BySource);
    assert Selected(f, BySwot) == Selected(g, BySwot) && Selected(f, ByCountry) == Selected(g, ByCountry);
    assert Selected(f, ByCity) == Selected(g, ByCity);
    FilterByAgreeing(data, item => Passes(f, item), item => Passes(g, item));
  }

  /** Setting a facet that was unset narrows the state: the new view is the
      old view filtered once more by the new state. */
  lemma SettingAFacetNarrows(data: seq<Record>, f: FilterState, k: Facet, value: string)
    requires Selected(f, k) == ""
    ensures var g := HandleFilterChange(f, k.Key(), value);
      Filtered(data, g) == Filtered(Filtered(data, f), g)
  {
    var g := HandleFilterChange(f, k.Key(), value);
    forall x | x in data && Passes(g, x) ensures Passes(f, x) {
      PassesIffAllFacetsAdmit(g, x);
      PassesIffAllFacetsAdmit(f, x);
      forall k': Facet ensures Admits(f, k', x) {
        ChangeSetsOneFacet(f, k, value, k');
        assert Admits(g, k', x);
      }
    }
    FilterByNarrowing(data, item => Passes(f, item), item => Passes(g, item));
  }

  /** Strict equality: while the `endYear` facet is set, a record whose
      `end_year` is a number (or absent) is never in the view, since the
      selected value is always a string. */
  lemma NumericEndYearNeverPasses(f: FilterState, item: Record)
    requires Selected(f, ByEndYear) != ""
    requires !item.endYear.Str?
    ensures !Passes(f, item)
  {
  }
}
