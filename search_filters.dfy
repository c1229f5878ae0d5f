/**
 * The search-filter panel: its criteria record, `updateFilter` (copy the record,
 * replace one field) and the records each control hands to `onFiltersChange`.
 */
module SearchFilters {

  /** `SearchFiltersType`; the slider values are plain numbers. */
  datatype Filters = Filters(
    search: string, city: string, state: string, collegeType: string,
    minFees: real, maxFees: real, minRating: real, minPackage: real)

  datatype Key = Search | City | State | CollegeType | MinFees | MaxFees | MinRating | MinPackage

  /** A value handed to `updateFilter`: text for the search box and selects, a number for the sliders. */
  datatype Value = Text(text: string) | Number(number: real)

  predicate IsTextKey(k: Key) {
    k == Search || k == City || k == State || k == CollegeType
  }

  /** The value has the type the record declares for that field. */
  predicate Fits(k: Key, v: Value) {
    IsTextKey(k) <==> v.Text?
  }

  /** `filters[key]` */
  function Get(f: Filters, k: Key): (v: Value)
    ensures Fits(k, v)
  {
    match k
    case Search => Text(f.search)
    case City => Text(f.city)
    case State => Text(f.state)
    case CollegeType => Text(f.collegeType)
    case MinFees => Number(f.minFees)
    case MaxFees => Number(f.maxFees)
    case MinRating => Number(f.minRating)
    case MinPackage => Number(f.minPackage)
  }

  /** `{ ...filters, [key]: value }`: a new record equal to `filters` except that field `key` is `value`. */
  function UpdateFilter(f: Filters, k: Key, v: Value): (r: Filters)
    requires Fits(k, v)
    ensures Get(r, k) == v
    ensures forall k' :: k' != k ==> Get(r, k') == Get(f, k')
  {
    match k
    case Search => f.(search := v.text)
    case City => f.(city := v.text)
    case State => f.(state := v.text)
    case CollegeType => f.(collegeType := v.text)
    case MinFees => f.(minFees := v.number)
    case MaxFees => f.(maxFees := v.number)
    case MinRating => f.(minRating := v.number)
    case MinPackage => f.(minPackage := v.number)
  }

  /** Two records that agree on every key are the same record. */
  lemma FiltersExtensional(f: Filters, g: Filters)
    requires forall k :: Get(f, k) == Get(g, k)
    ensures f == g
  {
    assert Get(f, Search) == Get(g, Search) && Get(f, City) == Get(g, City);
    assert Get(f, State) == Get(g, State) && Get(f, CollegeType) == Get(g, CollegeType);
    assert Get(f, MinFees) == Get(g, MinFees) && Get(f, MaxFees) == Get(g, MaxFees);
    assert Get(f, MinRating) == Get(g, MinRating) && Get(f, MinPackage) == Get(g, MinPackage);
  }

  /** Setting a field to the value it already has gives back the same record. */
  lemma UpdateToCurrentValue(f: Filters, k: Key)
    ensures UpdateFilter(f, k, Get(f, k)) == f
  {
    FiltersExtensional(UpdateFilter(f, k, Get(f, k)), f);
  }

  /** Of two updates of the same field, the later one wins. */
  lemma UpdateSameKeyTwice(f: Filters, k: Key, v: Value, w: Value)
    requires Fits(k, v) && Fits(k, w)
    ensures UpdateFilter(UpdateFilter(f, k, v), k, w) == UpdateFilter(f, k, w)
  {
    FiltersExtensional(UpdateFilter(UpdateFilter(f, k, v), k, w), UpdateFilter(f, k, w));
  }

  /** Updates of two different fields commute. */
  lemma UpdatesCommute(f: Filters, k: Key, v: Value, k': Key, w: Value)
    requires Fits(k, v) && Fits(k', w) && k != k'
    ensures UpdateFilter(UpdateFilter(f, k, v), k', w) == UpdateFilter(UpdateFilter(f, k', w), k, v)
  {
    FiltersExtensional(UpdateFilter(UpdateFilter(f, k, v), k', w), UpdateFilter(UpdateFilter(f, k', w), k, v));
  }

  /** A user action on the panel. */
  datatype Event =
    | SearchInput(text: string)
    | CitySelected(text: string)
    | StateSelected(text: string)
    | TypeSelected(text: string)
    | FeesSlid(low: real, high: real)
    | RatingSlid(number: real)
    | PackageSlid(number: real)
    | ResetClicked

  /** What the panel hands its parent for one event: the records passed to `onFiltersChange`, and the `onReset` calls. */
  datatype Emitted = Emitted(changes: seq<Filters>, resetCalls: nat)

  /** The panel's event handlers, each computed from the `filters` the panel was rendered with. */
  function Handle(f: Filters, e: Event): Emitted {
    match e
    case SearchInput(s) => Emitted([UpdateFilter(f, Search, Text(s))], 0)
    case CitySelected(s) => Emitted([UpdateFilter(f, City, Text(s))], 0)
    case StateSelected(s) => Emitted([UpdateFilter(f, State, Text(s))], 0)
    case TypeSelected(s) => Emitted([UpdateFilter(f, CollegeType, Text(s))], 0)
    case FeesSlid(low, high) =>
      Emitted([UpdateFilter(f, MinFees, Number(low)), UpdateFilter(f, MaxFees, Number(high))], 0)
    case RatingSlid(x) => Emitted([UpdateFilter(f, MinRating, Number(x))], 0)
    case PackageSlid(x) => Emitted([UpdateFilter(f, MinPackage, Number(x))], 0)
    case ResetClicked => Emitted([], 1)
  }

  /** The one field a single-field control writes, and the value it writes. */
  function EventKey(e: Event): Key
    requires !e.FeesSlid? && !e.ResetClicked?
  {
    match e
    case SearchInput(_) => Search
    case CitySelected(_) => City
    case StateSelected(_) => State
    case TypeSelected(_) => CollegeType
    case RatingSlid(_) => MinRating
    case PackageSlid(_) => MinPackage
  }

  function EventValue(e: Event): Value
    requires !e.FeesSlid? && !e.ResetClicked?
  {
    if e.RatingSlid? || e.PackageSlid? then Number(e.number) else Text(e.text)
  }

  /** Every control other than the fee slider and Reset emits exactly one record, differing from `filters` in its own field only. */
  lemma SingleFieldControls(f: Filters, e: Event)
    requires !e.FeesSlid? && !e.ResetClicked?
    ensures |Handle(f, e).changes| == 1 && Handle(f, e).resetCalls == 0
    ensures forall k :: Get(Handle(f, e).changes[0], k) == if k == EventKey(e) then EventValue(e) else Get(f, k)
  {
  }

  /** Reset only calls `onReset`; it emits no criteria record. */
  lemma ResetEmitsNothing(f: Filters)
    ensures Handle(f, ResetClicked).changes == [] && Handle(f, ResetClicked).resetCalls == 1
  {
  }

  /**
   * The fee slider emits two records, both built from the same `filters`: the second
   * one changes `maxFees` only, so it still carries the old `minFees`. A parent that
   * keeps the last record it was given therefore loses a moved lower bound.
   */
  lemma FeeSliderLastRecordIsStale(f: Filters, low: real, high: real)
    ensures |Handle(f, FeesSlid(low, high)).changes| == 2
    ensures Handle(f, FeesSlid(low, high)).changes[0] == f.(minFees := low)
    ensures Handle(f, FeesSlid(low, high)).changes[1] == f.(maxFees := high)
    ensures low != f.minFees ==> Handle(f, FeesSlid(low, high)).changes[1].minFees != low
  {
  }

  /** The evidently intended fee-slider update: one record carrying both new bounds. */
  function FeeRangeUpdate(f: Filters, low: real, high: real): (r: Filters)
    ensures Get(r, MinFees) == Number(low) && Get(r, MaxFees) == Number(high)
    ensures forall k :: k != MinFees && k != MaxFees ==> Get(r, k) == Get(f, k)
  {
    UpdateFilter(UpdateFilter(f, MinFees, Number(low)), MaxFees, Number(high))
  }
}
