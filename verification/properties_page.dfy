/** The property listing page: its filter state, the handlers that edit it,
    the guards on the price inputs, the dropdown selectors, and the effect
    that re-filters the fetched listings whenever the filters change. */
module PropertiesPage {
  import opened Js
  import opened Seqs
  import opened Records

  /** The text of a price input: "" (unset) or the digits of a whole number.
      A digit string is truthy even when it reads "0". */
  datatype PriceField = Unset | Digits(n: nat)

  datatype PriceRange = PriceRange(min: PriceField, max: PriceField, unit: string)

  /** The page's filter state. Every criterion other than the price range is
      an id string, "" meaning "no constraint". */
  datatype Filters = Filters(
    priceRange: PriceRange,
    category: string,
    subcategory: string,
    city: string,
    locality: string,
    builder: string,
    propertyType: string)

  const Lakh: nat := 100000
  const Crore: nat := 10000000

  /** The filter state the page starts with and `clearFilters` restores. */
  const Cleared := Filters(PriceRange(Unset, Unset, "lakhs"), "", "", "", "", "", "")

  // ---------------------------------------------------------------------------
  // The six stages

  function Multiplier(unit: string): nat {
    if unit == "crores" then Crore else Lakh
  }

  predicate PriceActive(r: PriceRange) {
    r.min.Digits? || r.max.Digits?
  }

  /** The lower bound in rupees: 0 when the min input is unset. */
  function EffectiveMin(r: PriceRange): nat {
    if r.min.Digits? then r.min.n * Multiplier(r.unit) else 0
  }

  /** The upper bound in rupees: `None` (unbounded) when the max input is unset. */
  function EffectiveMax(r: PriceRange): Option<nat> {
    if r.max.Digits? then Some(r.max.n * Multiplier(r.unit)) else None
  }

  /** `minPrice || maxPrice || 0` for a builder project, `price || 0` otherwise:
      the first positive price field, or 0 when there is none. */
  function ComparisonPrice(p: Property): (price: nat)
    ensures IsBuilderProject(p) && Positive(p.minPrice) ==> price == p.minPrice.value
    ensures IsBuilderProject(p) && !Positive(p.minPrice) && Positive(p.maxPrice) ==> price == p.maxPrice.value
    ensures IsBuilderProject(p) && !Positive(p.minPrice) && !Positive(p.maxPrice) ==> price == 0
    ensures !IsBuilderProject(p) ==> price == if Positive(p.price) then p.price.value else 0
  {
    if IsBuilderProject(p) then OrNum(p.minPrice, OrNum(p.maxPrice, 0)) else OrNum(p.price, 0)
  }

  /** The price test: the compared price lies between the set ends of the
      range, each scaled by the unit; an unset end does not constrain. */
  predicate PriceKeeps(r: PriceRange, p: Property)
    ensures PriceKeeps(r, p) <==>
      && (r.min.Digits? ==> r.min.n * Multiplier(r.unit) <= ComparisonPrice(p))
      && (r.max.Digits? ==> ComparisonPrice(p) <= r.max.n * Multiplier(r.unit))
  {
    var price := ComparisonPrice(p);
    EffectiveMin(r) <= price && (EffectiveMax(r).None? || price <= EffectiveMax(r).value)
  }

  /** `ref && (typeof ref === 'object' ? ref._id === v : ref === v)`. */
  predicate RefIs(r: Ref, v: string)
    ensures r == Undefined || r == Null || r == Id("") ==> !RefIs(r, v)
    ensures v != "" ==> (RefIs(r, v) <==> r == Id(v) || (r.Embedded? && r.id == Some(v)))
  {
    match r
    case Undefined => false
    case Null => false
    case Id(s) => s != "" && s == v
    case Embedded(id, _, _) => id == Some(v)
  }

  /** The subcategory test: the id string, the `subcategoryName`, or the
      embedded object's `_id` equals `v`. A `null` subcategory fails the test
      (see `SubcategoryTestAsWritten` for what the page does with it). */
  predicate SubcategoryKeeps(p: Property, v: string)
    ensures p.subcategory == Null ==> (SubcategoryKeeps(p, v) <==> p.subcategoryName == Some(v))
    ensures p.subcategory == Undefined ==> (SubcategoryKeeps(p, v) <==> p.subcategoryName == Some(v))
  {
    || p.subcategory == Id(v)
    || p.subcategoryName == Some(v)
    || (p.subcategory.Embedded? && p.subcategory.id == Some(v))
  }

  datatype Outcome = Value(b: bool) | TypeError

  /** The subcategory test exactly as the page evaluates it: when neither of
      the first two comparisons holds, `typeof null === 'object'` lets a `null`
      subcategory reach `null._id`, which throws. */
  function SubcategoryTestAsWritten(p: Property, v: string): (r: Outcome)
    ensures r.TypeError? <==> p.subcategory == Null && p.subcategoryName != Some(v)
    ensures r.Value? ==> r.b == SubcategoryKeeps(p, v)
  {
    if p.subcategory == Id(v) || p.subcategoryName == Some(v) then Value(true)
    else match p.subcategory
      case Null => TypeError
      case Embedded(id, _, _) => Value(id == Some(v))
      case _ => Value(false)
  }

  datatype Stage = PriceStage | CategoryStage | SubcategoryStage | CityStage | BuilderStage | TypeStage

  /** Whether a stage runs at all: the price stage when min or max is set, the
      others when their criterion is not "". */
  predicate Active(st: Stage, f: Filters) {
    match st
    case PriceStage => PriceActive(f.priceRange)
    case CategoryStage => f.category != ""
    case SubcategoryStage => f.subcategory != ""
    case CityStage => f.city != ""
    case BuilderStage => f.builder != ""
    case TypeStage => f.propertyType != ""
  }

  /** Whether a running stage keeps the record. */
  predicate Keeps(st: Stage, f: Filters, p: Property) {
    match st
    case PriceStage => PriceKeeps(f.priceRange, p)
    case CategoryStage => RefIs(p.category, f.category)
    case SubcategoryStage => SubcategoryKeeps(p, f.subcategory)
    case CityStage => RefIs(p.city, f.city)
    case BuilderStage => RefIs(p.builder, f.builder)
    case TypeStage => p.kind == Some(f.propertyType)
  }

  function StagePred(st: Stage, f: Filters): Property -> bool {
    p => Keeps(st, f, p)
  }

  /** A stage seen as a filter that every record passes when the stage does not run. */
  function Gate(st: Stage, f: Filters): Property -> bool {
    p => !Active(st, f) || Keeps(st, f, p)
  }

  /** The reference definition: a record is shown iff it passes every active criterion. */
  predicate Matches(f: Filters, p: Property) {
    && (PriceActive(f.priceRange) ==> PriceKeeps(f.priceRange, p))
    && (f.category != "" ==> RefIs(p.category, f.category))
    && (f.subcategory != "" ==> SubcategoryKeeps(p, f.subcategory))
    && (f.city != "" ==> RefIs(p.city, f.city))
    && (f.builder != "" ==> RefIs(p.builder, f.builder))
    && (f.propertyType != "" ==> p.kind == Some(f.propertyType))
  }

  function MatchPred(f: Filters): Property -> bool {
    p => Matches(f, p)
  }

  /** The listings the page shows for the given filters. */
  function Select(properties: seq<Property>, f: Filters): seq<Property> {
    Filter(properties, MatchPred(f))
  }

  // ---------------------------------------------------------------------------
  // The filter effect

  /** Running a stage only when it is active is filtering by its gate. */
  lemma StageStep(s: seq<Property>, st: Stage, f: Filters)
    ensures (if Active(st, f) then Filter(s, StagePred(st, f)) else s) == Filter(s, Gate(st, f))
  {
    if Active(st, f) {
      FilterAgree(s, StagePred(st, f), Gate(st, f));
    } else {
      FilterKeepsAll(s, Gate(st, f));
    }
  }

  const StageCount := 6

  /** The stages in the order the effect runs them. */
  function StageAt(k: nat): Stage
    requires k < StageCount
  {
    match k
    case 0 => PriceStage
    case 1 => CategoryStage
    case 2 => SubcategoryStage
    case 3 => CityStage
    case 4 => BuilderStage
    case _ => TypeStage
  }

  /** Passing the gates of the first `k` stages in the order of `StageAt`. */
  predicate PassesFirst(k: nat, f: Filters, p: Property)
    requires k <= StageCount
  {
    k == 0 || (PassesFirst(k - 1, f, p) && Gate(StageAt(k - 1), f)(p))
  }

  function FirstStages(k: nat, f: Filters): Property -> bool
    requires k <= StageCount
  {
    p => PassesFirst(k, f, p)
  }

  /** Filtering what passed the first `k` stages by the gate of stage `k` is
      filtering by the first `k + 1` stages. */
  lemma StageComposes(s: seq<Property>, k: nat, f: Filters)
    requires k < StageCount
    ensures Filter(Filter(s, FirstStages(k, f)), Gate(StageAt(k), f)) == Filter(s, FirstStages(k + 1, f))
  {
    FilterThenFilter(s, FirstStages(k, f), Gate(StageAt(k), f), FirstStages(k + 1, f));
  }

  /** Passing all six gates is matching the filters. */
  lemma AllStagesAreMatches(s: seq<Property>, f: Filters)
    ensures Filter(s, FirstStages(StageCount, f)) == Select(s, f)
  {
    forall i | 0 <= i < |s| ensures FirstStages(StageCount, f)(s[i]) == MatchPred(f)(s[i]) {
      var p := s[i];
      assert PassesFirst(1, f, p) == Gate(PriceStage, f)(p);
      assert PassesFirst(2, f, p) == (PassesFirst(1, f, p) && Gate(CategoryStage, f)(p));
      assert PassesFirst(3, f, p) == (PassesFirst(2, f, p) && Gate(SubcategoryStage, f)(p));
      assert PassesFirst(4, f, p) == (PassesFirst(3, f, p) && Gate(CityStage, f)(p));
      assert PassesFirst(5, f, p) == (PassesFirst(4, f, p) && Gate(BuilderStage, f)(p));
      assert PassesFirst(6, f, p) == (PassesFirst(5, f, p) && Gate(TypeStage, f)(p));
    }
    FilterAgree(s, FirstStages(StageCount, f), MatchPred(f));
  }

  /** One stage of the effect: `if (criterion) filtered = filtered.filter(stage)`.
      It keeps exactly the records that pass the stage's gate, in order. */
  method RunStage(filtered: seq<Property>, st: Stage, f: Filters) returns (out: seq<Property>)
    ensures out == Filter(filtered, Gate(st, f))
  {
    out := filtered;
    if Active(st, f) {
      out := Filter(out, StagePred(st, f));
    }
    StageStep(filtered, st, f);
  }

  /** How the effect ends: it stores a list with `setFilteredProperties`, or
      the subcategory stage throws a TypeError. The error is not caught: it
      escapes the effect, and the stored list stays as it was. */
  datatype Effect = Stored(shown: seq<Property>) | Threw

  /** The records the subcategory stage sees: those passing the price and category stages. */
  predicate ReachesSubcategoryStage(f: Filters, p: Property) {
    && (PriceActive(f.priceRange) ==> PriceKeeps(f.priceRange, p))
    && (f.category != "" ==> RefIs(p.category, f.category))
  }

  /** The page's subcategory test throws on `p`. */
  predicate Throws(f: Filters, p: Property) {
    f.subcategory != "" && SubcategoryTestAsWritten(p, f.subcategory).TypeError?
  }

  /** `filtered.filter(test)` with the page's subcategory test: a TypeError on
      any element escapes the `filter`; otherwise the result is the stage's filter. */
  function SubcategoryStageAsWritten(s: seq<Property>, f: Filters): (r: Option<seq<Property>>)
    ensures r.None? <==> exists p :: p in s && SubcategoryTestAsWritten(p, f.subcategory).TypeError?
    ensures r.Some? ==> r.value == Filter(s, StagePred(SubcategoryStage, f))
  {
    if |s| == 0 then Some([])
    else
      var last := s[|s| - 1];
      assert s == s[..|s| - 1] + [last];
      match SubcategoryStageAsWritten(s[..|s| - 1], f)
      case None => None
      case Some(init) =>
        match SubcategoryTestAsWritten(last, f.subcategory)
        case TypeError => None
        case Value(b) => Some(if b then init + [last] else init)
  }

  /** The subcategory stage as the page runs it: `None` when the test throws. */
  method RunSubcategoryStage(filtered: seq<Property>, f: Filters) returns (out: Option<seq<Property>>)
    ensures out.None? <==> exists p :: p in filtered && Throws(f, p)
    ensures out.Some? ==> out.value == Filter(filtered, Gate(SubcategoryStage, f))
  {
    out := Some(filtered);
    if f.subcategory != "" {
      out := SubcategoryStageAsWritten(filtered, f);
    }
    StageStep(filtered, SubcategoryStage, f);
  }

  /** A record that throws is among those passing the first two stages iff it
      is a loaded record that reaches the subcategory stage. */
  lemma ThrowingRecords(properties: seq<Property>, f: Filters)
    ensures (exists p :: p in Filter(properties, FirstStages(2, f)) && Throws(f, p)) <==>
            (exists p :: p in properties && ReachesSubcategoryStage(f, p) && Throws(f, p))
  {
    FilterMembers(properties, FirstStages(2, f));
    forall p ensures FirstStages(2, f)(p) == ReachesSubcategoryStage(f, p) {
      assert PassesFirst(1, f, p) == Gate(PriceStage, f)(p);
    }
  }

  /** The effect: copy the list, then run the six stages in the page's order,
      each replacing `filtered` by its filtered copy, and store the result with
      `setFilteredProperties`. The subcategory stage runs the page's own test,
      so a record reaching it with a `null` subcategory and another
      subcategory name throws, and nothing is stored. */
  method ApplyFilters(properties: seq<Property>, filters: Filters) returns (effect: Effect)
    ensures effect.Threw? <==> exists p :: p in properties && ReachesSubcategoryStage(filters, p) && Throws(filters, p)
    ensures effect.Stored? ==> effect.shown == Select(properties, filters)
  {
    var filtered := properties;
    FilterKeepsAll(properties, FirstStages(0, filters));
    assert filtered == Filter(properties, FirstStages(0, filters));
    filtered := RunStage(filtered, PriceStage, filters);
    StageComposes(properties, 0, filters);
    assert filtered == Filter(properties, FirstStages(1, filters));
    filtered := RunStage(filtered, CategoryStage, filters);
    StageComposes(properties, 1, filters);
    assert filtered == Filter(properties, FirstStages(2, filters));
    ThrowingRecords(properties, filters);
    var staged := RunSubcategoryStage(filtered, filters);
    if staged.None? {
      effect := Threw;
      return;
    }
    filtered := staged.value;
    StageComposes(properties, 2, filters);
    assert filtered == Filter(properties, FirstStages(3, filters));
    filtered := RunStage(filtered, CityStage, filters);
    StageComposes(properties, 3, filters);
    assert filtered == Filter(properties, FirstStages(4, filters));
    filtered := RunStage(filtered, BuilderStage, filters);
    StageComposes(properties, 4, filters);
    assert filtered == Filter(properties, FirstStages(5, filters));
    filtered := RunStage(filtered, TypeStage, filters);
    StageComposes(properties, 5, filters);
    assert filtered == Filter(properties, FirstStages(6, filters));
    AllStagesAreMatches(properties, filters);
    effect := Stored(filtered);
  }

  // ---------------------------------------------------------------------------
  // Properties of the effect

  /** The shown listings keep their order and are drawn from the fetched ones;
      a record is shown exactly when it matches every active criterion. */
  lemma SelectIsSubsequence(properties: seq<Property>, f: Filters)
    ensures IsSubsequence(Select(properties, f), properties)
    ensures forall p :: p in Select(properties, f) <==> p in properties && Matches(f, p)
  {
    FilterIsSubsequence(properties, MatchPred(f));
  }

  /** With every criterion at its reset value nothing is filtered out. */
  lemma ClearedShowsEverything(properties: seq<Property>)
    ensures Select(properties, Cleared) == properties
  {
    FilterKeepsAll(properties, MatchPred(Cleared));
  }

  /** Any two stages can run in either order. */
  lemma StagesCommute(s: seq<Property>, a: Stage, b: Stage, f: Filters)
    ensures Filter(Filter(s, Gate(a, f)), Gate(b, f)) == Filter(Filter(s, Gate(b, f)), Gate(a, f))
  {
    FilterCommutes(s, Gate(a, f), Gate(b, f));
  }

  /** The locality criterion is never consulted. */
  lemma LocalityIsIgnored(properties: seq<Property>, f: Filters, locality: string)
    ensures Select(properties, f.(locality := locality)) == Select(properties, f)
  {
    FilterAgree(properties, MatchPred(f.(locality := locality)), MatchPred(f));
  }

  /** A min of "0" shows the same listings as an empty min, although only the
      former switches the price stage on. */
  lemma MinZeroIsUnset(properties: seq<Property>, f: Filters)
    ensures Select(properties, f.(priceRange := f.priceRange.(min := Digits(0))))
         == Select(properties, f.(priceRange := f.priceRange.(min := Unset)))
  {
    var zero := f.(priceRange := f.priceRange.(min := Digits(0)));
    var unset := f.(priceRange := f.priceRange.(min := Unset));
    FilterAgree(properties, MatchPred(zero), MatchPred(unset));
  }

  /** A range in crores keeps exactly what the same range, scaled by 100, keeps in lakhs. */
  lemma CroreIsHundredLakhs(r: PriceRange, p: Property)
    requires r.unit == "crores"
    ensures PriceKeeps(r, p) == PriceKeeps(PriceRange(Scale(r.min), Scale(r.max), "lakhs"), p)
  {
  }

  function Scale(x: PriceField): PriceField {
    if x.Digits? then Digits(100 * x.n) else Unset
  }

  /** The compared price is 0 exactly when every price field it reads is missing or 0. */
  lemma ComparisonPriceZero(p: Property)
    ensures ComparisonPrice(p) == 0 <==>
      if IsBuilderProject(p) then !Positive(p.minPrice) && !Positive(p.maxPrice) else !Positive(p.price)
  {
  }

  predicate Positive(x: Option<nat>) {
    x.Some? && x.value != 0
  }

  /** So a record without a price passes any range whose min is empty. */
  lemma UnpricedPassesOpenMin(r: PriceRange, p: Property)
    requires r.min.Unset?
    requires IsBuilderProject(p) ==> !Positive(p.minPrice) && !Positive(p.maxPrice)
    requires !IsBuilderProject(p) ==> !Positive(p.price)
    ensures PriceKeeps(r, p)
  {
  }

  /** A builder project whose `minPrice` is 0 is compared by its `maxPrice`. */
  lemma BuilderZeroMinFallsThrough(p: Property, m: nat)
    requires IsBuilderProject(p) && p.minPrice == Some(0) && p.maxPrice == Some(m)
    ensures ComparisonPrice(p) == m
  {
  }

  /** The category, city and builder stages drop a record whose field is
      missing, `null` or "", and compare the bare-id and embedded forms by id. */
  lemma RefStageForms(properties: seq<Property>, f: Filters, p: Property)
    requires p in properties && f.category != ""
    ensures p.category in {Undefined, Null, Id("")} ==> p !in Select(properties, f)
    ensures p.category.Id? && p.category.s != f.category ==> p !in Select(properties, f)
    ensures p.category.Embedded? && p.category.id != Some(f.category) ==> p !in Select(properties, f)
    ensures Matches(f, p) ==> p in Select(properties, f)
  {
    FilterMembers(properties, MatchPred(f));
  }

  /** With only a subcategory selected, a record with a `null` subcategory
      reaches the subcategory stage and makes it throw, so `ApplyFilters`
      stores nothing for any list holding it. */
  lemma NullSubcategoryThrows(v: string)
    requires v != ""
    ensures SubcategoryTestAsWritten(EmptyRecord.(subcategory := Null), v) == TypeError
    ensures !SubcategoryKeeps(EmptyRecord.(subcategory := Null), v)
    ensures ReachesSubcategoryStage(Cleared.(subcategory := v), EmptyRecord.(subcategory := Null))
    ensures Throws(Cleared.(subcategory := v), EmptyRecord.(subcategory := Null))
  {
  }

  // ---------------------------------------------------------------------------
  // Handlers

  /** The top-level keys `handleFilterChange` is called with. */
  datatype FilterKey = CategoryKey | SubcategoryKey | CityKey | LocalityKey | BuilderKey | PropertyTypeKey

  function Get(f: Filters, k: FilterKey): string {
    match k
    case CategoryKey => f.category
    case SubcategoryKey => f.subcategory
    case CityKey => f.city
    case LocalityKey => f.locality
    case BuilderKey => f.builder
    case PropertyTypeKey => f.propertyType
  }

  /** `{...prev, [k]: v}`: key `k` becomes `v`, every other key and the price range stay. */
  function HandleFilterChange(f: Filters, k: FilterKey, v: string): (g: Filters)
    ensures Get(g, k) == v
    ensures forall j :: j != k ==> Get(g, j) == Get(f, j)
    ensures g.priceRange == f.priceRange
  {
    match k
    case CategoryKey => f.(category := v)
    case SubcategoryKey => f.(subcategory := v)
    case CityKey => f.(city := v)
    case LocalityKey => f.(locality := v)
    case BuilderKey => f.(builder := v)
    case PropertyTypeKey => f.(propertyType := v)
  }

  /** A filter state is determined by its price range and its six keys. */
  lemma FiltersExtensional(f: Filters, g: Filters)
    requires f.priceRange == g.priceRange
    requires forall k :: Get(f, k) == Get(g, k)
    ensures f == g
  {
    assert Get(f, CategoryKey) == Get(g, CategoryKey) && Get(f, SubcategoryKey) == Get(g, SubcategoryKey);
    assert Get(f, CityKey) == Get(g, CityKey) && Get(f, LocalityKey) == Get(g, LocalityKey);
    assert Get(f, BuilderKey) == Get(g, BuilderKey) && Get(f, PropertyTypeKey) == Get(g, PropertyTypeKey);
  }

  /** Writing a key's current value changes nothing; of two writes to one key the last wins. */
  lemma HandleFilterChangeLaws(f: Filters, k: FilterKey, v: string, w: string)
    ensures HandleFilterChange(f, k, Get(f, k)) == f
    ensures HandleFilterChange(HandleFilterChange(f, k, v), k, w) == HandleFilterChange(f, k, w)
  {
    FiltersExtensional(HandleFilterChange(f, k, Get(f, k)), f);
    FiltersExtensional(HandleFilterChange(HandleFilterChange(f, k, v), k, w), HandleFilterChange(f, k, w));
  }

  /** The category dropdown: set the category, then clear the subcategory. */
  function SelectCategory(f: Filters, v: string): (g: Filters)
    ensures g.category == v && g.subcategory == ""
    ensures !Active(SubcategoryStage, g)
    ensures forall j :: j != CategoryKey && j != SubcategoryKey ==> Get(g, j) == Get(f, j)
    ensures g.priceRange == f.priceRange
  {
    HandleFilterChange(HandleFilterChange(f, CategoryKey, v), SubcategoryKey, "")
  }

  /** The calls `handlePriceRangeChange` receives: a new min, max or unit. */
  datatype PriceEdit = SetMin(min: PriceField) | SetMax(max: PriceField) | SetUnit(unit: string)

  /** `{...prev, priceRange: {...prev.priceRange, [type]: value}}`. */
  function HandlePriceRangeChange(f: Filters, e: PriceEdit): (g: Filters)
    ensures g.priceRange.min == (if e.SetMin? then e.min else f.priceRange.min)
    ensures g.priceRange.max == (if e.SetMax? then e.max else f.priceRange.max)
    ensures g.priceRange.unit == (if e.SetUnit? then e.unit else f.priceRange.unit)
    ensures forall k :: Get(g, k) == Get(f, k)
  {
    var r := f.priceRange;
    match e
    case SetMin(v) => f.(priceRange := r.(min := v))
    case SetMax(v) => f.(priceRange := r.(max := v))
    case SetUnit(v) => f.(priceRange := r.(unit := v))
  }

  // ---------------------------------------------------------------------------
  // Price input guards

  /** The range the guards mean to keep: when both ends are set, min <= max. */
  predicate Ordered(r: PriceRange) {
    r.min.Digits? && r.max.Digits? ==> r.min.n <= r.max.n
  }

  /** `parseInt(min) || 0`: the max guards' reading of the min field. */
  function MinLimit(min: PriceField): nat {
    if min.Digits? then min.n else 0
  }

  /** `parseInt(max) || 100`: the min guards' reading of the max field as
      written, where an empty field (NaN) and a "0" field (0) both read as 100. */
  function MaxLimitAsWritten(max: PriceField): nat {
    if max.Digits? && max.n != 0 then max.n else 100
  }

  /** The reading the min guards need: the max when it is set, 100 when it is empty. */
  function MaxLimit(max: PriceField): nat {
    if max.Digits? then max.n else 100
  }

  /** The sliders store their end stops as "": 0 for the min slider, 100 for the max slider. */
  function SliderMin(v: nat): PriceField {
    if v == 0 then Unset else Digits(v)
  }

  function SliderMax(v: nat): PriceField {
    if v == 100 then Unset else Digits(v)
  }

  /** The min slider as written: accept `v` when it is at most `MaxLimitAsWritten`. */
  function SlideMinAsWritten(f: Filters, v: nat): (g: Filters)
    ensures v <= MaxLimitAsWritten(f.priceRange.max) ==> g.priceRange.min == SliderMin(v)
    ensures v > MaxLimitAsWritten(f.priceRange.max) ==> g == f
    ensures g == f.(priceRange := f.priceRange.(min := g.priceRange.min))
  {
    if v <= MaxLimitAsWritten(f.priceRange.max) then HandlePriceRangeChange(f, SetMin(SliderMin(v))) else f
  }

  /** The min number input as written: accept an empty value, or one at most `MaxLimitAsWritten`. */
  function TypeMinAsWritten(f: Filters, t: PriceField): (g: Filters)
    ensures (t.Unset? || t.n <= MaxLimitAsWritten(f.priceRange.max)) ==> g.priceRange.min == t
    ensures !(t.Unset? || t.n <= MaxLimitAsWritten(f.priceRange.max)) ==> g == f
    ensures g == f.(priceRange := f.priceRange.(min := g.priceRange.min))
  {
    if t.Unset? || t.n <= MaxLimitAsWritten(f.priceRange.max) then HandlePriceRangeChange(f, SetMin(t)) else f
  }

  /** The min slider with the max read by `MaxLimit`. */
  function SlideMin(f: Filters, v: nat): (g: Filters)
    ensures v <= MaxLimit(f.priceRange.max) ==> g.priceRange.min == SliderMin(v)
    ensures v > MaxLimit(f.priceRange.max) ==> g == f
    ensures g == f.(priceRange := f.priceRange.(min := g.priceRange.min))
  {
    if v <= MaxLimit(f.priceRange.max) then HandlePriceRangeChange(f, SetMin(SliderMin(v))) else f
  }

  /** The min number input with the max read by `MaxLimit`. */
  function TypeMin(f: Filters, t: PriceField): (g: Filters)
    ensures (t.Unset? || t.n <= MaxLimit(f.priceRange.max)) ==> g.priceRange.min == t
    ensures !(t.Unset? || t.n <= MaxLimit(f.priceRange.max)) ==> g == f
    ensures g == f.(priceRange := f.priceRange.(min := g.priceRange.min))
  {
    if t.Unset? || t.n <= MaxLimit(f.priceRange.max) then HandlePriceRangeChange(f, SetMin(t)) else f
  }

  /** The max slider: accept `v` when it is at least `MinLimit`. */
  function SlideMax(f: Filters, v: nat): (g: Filters)
    ensures v >= MinLimit(f.priceRange.min) ==> g.priceRange.max == SliderMax(v)
    ensures v < MinLimit(f.priceRange.min) ==> g == f
    ensures g == f.(priceRange := f.priceRange.(max := g.priceRange.max))
  {
    if v >= MinLimit(f.priceRange.min) then HandlePriceRangeChange(f, SetMax(SliderMax(v))) else f
  }

  /** The max number input: accept an empty value, or one at least `MinLimit`. */
  function TypeMax(f: Filters, t: PriceField): (g: Filters)
    ensures (t.Unset? || t.n >= MinLimit(f.priceRange.min)) ==> g.priceRange.max == t
    ensures !(t.Unset? || t.n >= MinLimit(f.priceRange.min)) ==> g == f
    ensures g == f.(priceRange := f.priceRange.(max := g.priceRange.max))
  {
    if t.Unset? || t.n >= MinLimit(f.priceRange.min) then HandlePriceRangeChange(f, SetMax(t)) else f
  }

  /** Every guarded edit keeps an ordered range ordered. */
  lemma GuardsKeepOrdered(f: Filters, v: nat, t: PriceField)
    requires Ordered(f.priceRange)
    ensures Ordered(SlideMin(f, v).priceRange) && Ordered(TypeMin(f, t).priceRange)
    ensures Ordered(SlideMax(f, v).priceRange) && Ordered(TypeMax(f, t).priceRange)
  {
  }

  /** The as-written min guards differ from the intended ones only when the max reads "0". */
  lemma MinGuardsAgreeUnlessMaxZero(f: Filters, v: nat, t: PriceField)
    requires f.priceRange.max != Digits(0)
    ensures SlideMinAsWritten(f, v) == SlideMin(f, v)
    ensures TypeMinAsWritten(f, t) == TypeMin(f, t)
  {
  }

  /** From the reset state, typing max "0" and then min "50" is accepted as
      written, leaving min above max, and the page then shows nothing; the
      intended guard refuses the second edit. */
  lemma MinGuardAcceptsInvertedRange(properties: seq<Property>)
    ensures TypeMax(Cleared, Digits(0)).priceRange == PriceRange(Unset, Digits(0), "lakhs")
    ensures !Ordered(TypeMinAsWritten(TypeMax(Cleared, Digits(0)), Digits(50)).priceRange)
    ensures Select(properties, TypeMinAsWritten(TypeMax(Cleared, Digits(0)), Digits(50))) == []
    ensures TypeMin(TypeMax(Cleared, Digits(0)), Digits(50)) == TypeMax(Cleared, Digits(0))
  {
    var f := TypeMinAsWritten(TypeMax(Cleared, Digits(0)), Digits(50));
    assert f.priceRange == PriceRange(Digits(50), Digits(0), "lakhs");
    FilterKeepsNone(properties, MatchPred(f));
  }

  // ---------------------------------------------------------------------------
  // Dropdown selectors

  /** A dropdown option: an `_id` and a `name`. */
  datatype Entry = Entry(id: string, name: string)

  datatype Category = Category(id: string, name: string, deepSubcategories: Option<seq<Entry>>)

  datatype City = City(id: string, name: string, localities: Option<seq<Entry>>)

  function OrEmpty(x: Option<seq<Entry>>): seq<Entry> {
    if x.Some? then x.value else []
  }

  function CategoryIs(v: string): Category -> bool {
    (c: Category) => c.id == v
  }

  function CityIs(v: string): City -> bool {
    (c: City) => c.id == v
  }

  /** The subcategory options: none when no category is selected, otherwise
      those of the first category with the selected id, or none when there is
      no such category or it has no `deepSubcategories`. */
  function GetSubcategories(categories: seq<Category>, f: Filters): (r: seq<Entry>)
    ensures f.category == "" ==> r == []
    ensures (forall i :: 0 <= i < |categories| ==> categories[i].id != f.category) ==> r == []
    ensures forall i :: f.category != "" && IsFirst(categories, i, CategoryIs(f.category)) ==>
              r == OrEmpty(categories[i].deepSubcategories)
  {
    if f.category == "" then []
    else match FindFirst(categories, CategoryIs(f.category))
      case None => []
      case Some(i) => OrEmpty(categories[i].deepSubcategories)
  }

  /** The locality options, chosen from the cities as `GetSubcategories` chooses from the categories. */
  function GetLocalities(cities: seq<City>, f: Filters): (r: seq<Entry>)
    ensures f.city == "" ==> r == []
    ensures (forall i :: 0 <= i < |cities| ==> cities[i].id != f.city) ==> r == []
    ensures forall i :: f.city != "" && IsFirst(cities, i, CityIs(f.city)) ==>
              r == OrEmpty(cities[i].localities)
  {
    if f.city == "" then []
    else match FindFirst(cities, CityIs(f.city))
      case None => []
      case Some(i) => OrEmpty(cities[i].localities)
  }
}
