/**
 * The catalog engine of `CatalogGrid`: the filter bounds derived from the
 * motorcycle list, the filter state and its updates, the visible list, and
 * the brand list of the sidebar.
 */
module Catalog {
  import opened Wrappers
  import opened Collections
  import opened Strings
  import opened Slider

  /** A motorcycle as the grid receives it. An absent `isUsed` reads as false. */
  datatype Item = Item(
    id: string,
    title: string,
    brand: string,
    year: int,
    price: int,
    displacement: Option<int>,
    description: Option<string>,
    isUsed: bool)

  datatype Bounds = Bounds(year: Range, price: Range, displacement: Range)

  /** The user's filter selections (the `filters` state record). */
  datatype Filters = Filters(
    yearRange: Range,
    priceRange: Range,
    displacementRange: Range,
    selectedBrands: seq<string>)

  /**
   * What the hosting page fixes: a brand (the empty string when the page
   * passes none, both being falsy) and whether this is the used-bikes page.
   */
  datatype Context = Context(brand: string, isUsed: bool)

  /** The keys `handleFilterChange` is called with. */
  datatype RangeKey = YearRange | PriceRange | DisplacementRange

  const FallbackYearMin: int := 2000
  const FallbackPrice: Range := Range(0, 50000)
  const EmptyDisplacement: Range := Range(50, 2000)
  const FallbackDisplacementMin: int := 50
  const FallbackDisplacementMax: int := 1200
  const YearWidening: int := 1
  const PriceWidening: int := 1000
  const DisplacementWidening: int := 100

  /** `m.displacement || 0`: an absent displacement reads as 0. */
  function Disp(m: Item): int {
    m.displacement.GetOr(0)
  }

  function Years(items: seq<Item>): seq<int> {
    seq(|items|, i requires 0 <= i < |items| => items[i].year)
  }

  function Prices(items: seq<Item>): seq<int> {
    seq(|items|, i requires 0 <= i < |items| => items[i].price)
  }

  /** The displacements that count for the bounds: those above zero, in list order. */
  function Displacements(items: seq<Item>): seq<int> {
    Filter(d => d > 0, seq(|items|, i requires 0 <= i < |items| => Disp(items[i])))
  }

  /**
   * `r` is the span of the non-empty `vs`: `r.lo` is the least value, and
   * `r.hi` is the greatest, except that when all values coincide it is
   * `r.lo + widen`.
   */
  predicate Spans(r: Range, vs: seq<int>, widen: int) {
    && r.lo in vs
    && (forall v :: v in vs ==> r.lo <= v)
    && if forall v :: v in vs ==> v == r.lo then r.hi == r.lo + widen
       else r.hi in vs && forall v :: v in vs ==> v <= r.hi
  }

  /** `max === min ? min + widen : max`. */
  function Widen(lo: int, hi: int, widen: int): Range {
    Range(lo, if hi == lo then lo + widen else hi)
  }

  /** The span of `vs`, widened when degenerate, is a proper interval covering `vs`. */
  lemma WidenSpans(vs: seq<int>, widen: int)
    requires |vs| > 0 && widen > 0
    ensures var r := Widen(MinOf(vs), MaxOf(vs), widen);
      && Spans(r, vs, widen)
      && r.lo < r.hi
      && forall v :: v in vs ==> r.lo <= v <= r.hi
  {
    var r := Widen(MinOf(vs), MaxOf(vs), widen);
    if forall v :: v in vs ==> v == r.lo {
      assert MaxOf(vs) == r.lo;
    } else {
      var w :| w in vs && w != r.lo;
      assert MaxOf(vs) >= w > r.lo;
    }
  }

  /** `bounds.year`. */
  function YearBounds(items: seq<Item>, currentYear: int): (r: Range)
    ensures |items| == 0 ==> r == Range(FallbackYearMin, currentYear)
    ensures |items| > 0 ==> Spans(r, Years(items), YearWidening) && r.lo < r.hi
    ensures forall m :: m in items ==> r.lo <= m.year <= r.hi
  {
    if |items| == 0 then Range(FallbackYearMin, currentYear)
    else
      var ys := Years(items);
      WidenSpans(ys, YearWidening);
      assert forall m :: m in items ==> m.year in ys by {
        forall m | m in items ensures m.year in ys {
          var i :| 0 <= i < |items| && items[i] == m;
          assert ys[i] == m.year;
        }
      }
      Widen(MinOf(ys), MaxOf(ys), YearWidening)
  }

  /** `bounds.price`. */
  function PriceBounds(items: seq<Item>): (r: Range)
    ensures |items| == 0 ==> r == FallbackPrice
    ensures |items| > 0 ==> Spans(r, Prices(items), PriceWidening) && r.lo < r.hi
    ensures forall m :: m in items ==> r.lo <= m.price <= r.hi
  {
    if |items| == 0 then FallbackPrice
    else
      var ps := Prices(items);
      WidenSpans(ps, PriceWidening);
      assert forall m :: m in items ==> m.price in ps by {
        forall m | m in items ensures m.price in ps {
          var i :| 0 <= i < |items| && items[i] == m;
          assert ps[i] == m.price;
        }
      }
      Widen(MinOf(ps), MaxOf(ps), PriceWidening)
  }

  /**
   * `bounds.displacement`: only displacements above zero count; with none the
   * fallback is (50, 1200), and (50, 2000) for an empty list.
   */
  function DisplacementBounds(items: seq<Item>): (r: Range)
    ensures |items| == 0 ==> r == EmptyDisplacement
    ensures |items| > 0 && |Displacements(items)| == 0 ==>
      r == Range(FallbackDisplacementMin, FallbackDisplacementMax)
    ensures |Displacements(items)| > 0 ==>
      Spans(r, Displacements(items), DisplacementWidening) && r.lo < r.hi
    ensures forall m :: m in items && Disp(m) > 0 ==> r.lo <= Disp(m) <= r.hi
  {
    if |items| == 0 then EmptyDisplacement
    else
      var ds := Displacements(items);
      var all := seq(|items|, i requires 0 <= i < |items| => Disp(items[i]));
      assert forall m :: m in items && Disp(m) > 0 ==> Disp(m) in ds by {
        forall m | m in items && Disp(m) > 0 ensures Disp(m) in ds {
          var i :| 0 <= i < |items| && items[i] == m;
          assert all[i] == Disp(m);
        }
      }
      if |ds| > 0 then
        WidenSpans(ds, DisplacementWidening);
        Widen(MinOf(ds), MaxOf(ds), DisplacementWidening)
      else
        Widen(FallbackDisplacementMin, FallbackDisplacementMax, DisplacementWidening)
  }

  /** The `bounds` memo. */
  function ComputeBounds(items: seq<Item>, currentYear: int): Bounds {
    Bounds(YearBounds(items, currentYear), PriceBounds(items), DisplacementBounds(items))
  }

  /** The filter state the grid starts with and `clearFilters` restores. */
  function ResetFilters(b: Bounds): Filters {
    Filters(b.year, b.price, b.displacement, [])
  }

  /**
   * The condition under which the sidebar offers its Reset button: exactly
   * when the filter record differs from the one `clearFilters` installs. The
   * search text plays no part.
   */
  predicate ResetOffered(f: Filters, b: Bounds)
    ensures ResetOffered(f, b) <==> f != ResetFilters(b)
  {
    f.yearRange != b.year || f.priceRange != b.price
    || f.displacementRange != b.displacement || |f.selectedBrands| > 0
  }

  predicate InRange(v: int, r: Range) {
    r.lo <= v <= r.hi
  }

  /** The page-level checks: the fixed brand (ignoring case) and new/used scoping. */
  predicate PassesPage(m: Item, ctx: Context) {
    && (ctx.brand != "" ==> Lower(m.brand) == Lower(ctx.brand))
    && (ctx.brand != "" && !ctx.isUsed ==> !m.isUsed)
    && (ctx.isUsed ==> m.isUsed)
  }

  /** The lower-cased query occurs in the lower-cased title, brand or description. */
  predicate MatchesSearch(m: Item, query: string) {
    var q := Lower(query);
    || Contains(Lower(m.title), q)
    || Contains(Lower(m.brand), q)
    || (m.description.Some? && Contains(Lower(m.description.value), q))
  }

  /** The sidebar brand selection, which only applies off brand pages. */
  predicate PassesBrandSelection(m: Item, ctx: Context, selected: seq<string>) {
    ctx.brand == "" && |selected| > 0 ==> m.brand in selected
  }

  /** A displacement of zero or less (or none) is never excluded. */
  predicate PassesDisplacement(m: Item, r: Range) {
    Disp(m) > 0 ==> InRange(Disp(m), r)
  }

  /** The predicate `filteredMotorcycles` applies to each motorcycle. */
  predicate Keep(m: Item, ctx: Context, f: Filters, query: string) {
    && PassesPage(m, ctx)
    && MatchesSearch(m, query)
    && PassesBrandSelection(m, ctx, f.selectedBrands)
    && InRange(m.year, f.yearRange)
    && InRange(m.price, f.priceRange)
    && PassesDisplacement(m, f.displacementRange)
  }

  /** `filteredMotorcycles`. */
  function VisibleItems(items: seq<Item>, ctx: Context, f: Filters, query: string): (r: seq<Item>)
    ensures forall m :: m in r ==> m in items && Keep(m, ctx, f, query)
    ensures forall m :: m in items && Keep(m, ctx, f, query) ==> m in r
    ensures ctx.brand != "" ==> forall m :: m in r ==> Lower(m.brand) == Lower(ctx.brand)
    ensures ctx.brand != "" && !ctx.isUsed ==> forall m :: m in r ==> !m.isUsed
    ensures ctx.isUsed ==> forall m :: m in r ==> m.isUsed
    ensures forall m :: m in r ==>
      && f.yearRange.lo <= m.year <= f.yearRange.hi
      && f.priceRange.lo <= m.price <= f.priceRange.hi
      && (Disp(m) > 0 ==> f.displacementRange.lo <= Disp(m) <= f.displacementRange.hi)
    ensures ctx.brand == "" && |f.selectedBrands| > 0 ==> forall m :: m in r ==> m.brand in f.selectedBrands
  {
    Filter(m => Keep(m, ctx, f, query), items)
  }

  /** The motorcycles the page context admits, before any user filter. */
  function PageItems(items: seq<Item>, ctx: Context): seq<Item> {
    Filter(m => PassesPage(m, ctx), items)
  }

  /** The visible list keeps the catalog's order. */
  lemma VisibleInOrder(items: seq<Item>, ctx: Context, f: Filters, query: string)
    ensures IsSubsequence(VisibleItems(items, ctx, f, query), items)
    ensures forall m ::
      multiset(VisibleItems(items, ctx, f, query))[m] == (if Keep(m, ctx, f, query) then multiset(items)[m] else 0)
  {
    FilterIsSubsequence(m => Keep(m, ctx, f, query), items);
    forall m {
      FilterCounts(m => Keep(m, ctx, f, query), items, m);
    }
  }

  /** An empty search matches every motorcycle. */
  lemma EmptySearchMatches(m: Item)
    ensures MatchesSearch(m, "")
  {
    assert Lower("") == "";
  }

  /**
   * With the ranges at the bounds, no brand selected and no search, every
   * motorcycle the page admits is visible, in catalog order.
   */
  lemma ResetShowsPage(items: seq<Item>, ctx: Context, currentYear: int)
    ensures VisibleItems(items, ctx, ResetFilters(ComputeBounds(items, currentYear)), "") ==
      PageItems(items, ctx)
  {
    var f := ResetFilters(ComputeBounds(items, currentYear));
    forall m | m in items ensures Keep(m, ctx, f, "") == PassesPage(m, ctx) {
      EmptySearchMatches(m);
    }
    FilterCongruent(m => Keep(m, ctx, f, ""), m => PassesPage(m, ctx), items);
  }

  /** A motorcycle without a positive displacement is kept or dropped regardless of the displacement range. */
  lemma DisplacementNotApplicable(items: seq<Item>, ctx: Context, f: Filters, query: string, r: Range, m: Item)
    requires Disp(m) <= 0
    ensures m in VisibleItems(items, ctx, f, query) <==>
      m in VisibleItems(items, ctx, f.(displacementRange := r), query)
  {
  }

  /** On a brand page the sidebar brand selection has no effect. */
  lemma BrandPageIgnoresSelection(items: seq<Item>, ctx: Context, f: Filters, query: string, selected: seq<string>)
    requires ctx.brand != ""
    ensures VisibleItems(items, ctx, f, query) == VisibleItems(items, ctx, f.(selectedBrands := selected), query)
  {
    var g := f.(selectedBrands := selected);
    forall m | m in items ensures Keep(m, ctx, f, query) == Keep(m, ctx, g, query) {
      assert PassesBrandSelection(m, ctx, f.selectedBrands) && PassesBrandSelection(m, ctx, g.selectedBrands);
    }
    FilterCongruent(m => Keep(m, ctx, f, query), m => Keep(m, ctx, g, query), items);
  }

  /** The search is case-insensitive: a query and its lower-cased form show the same list. */
  lemma SearchIgnoresCase(items: seq<Item>, ctx: Context, f: Filters, query: string)
    ensures VisibleItems(items, ctx, f, query) == VisibleItems(items, ctx, f, Lower(query))
  {
    LowerIdempotent(query);
    FilterCongruent(m => Keep(m, ctx, f, query), m => Keep(m, ctx, f, Lower(query)), items);
  }

  function RangeOf(f: Filters, key: RangeKey): Range {
    match key
    case YearRange => f.yearRange
    case PriceRange => f.priceRange
    case DisplacementRange => f.displacementRange
  }

  /** The bound a range filter is kept inside: the track of its slider. */
  function BoundOf(b: Bounds, key: RangeKey): Range {
    match key
    case YearRange => b.year
    case PriceRange => b.price
    case DisplacementRange => b.displacement
  }

  /** `r` is in order and inside `bound`. */
  predicate Within(r: Range, bound: Range) {
    bound.lo <= r.lo <= r.hi <= bound.hi
  }

  /** Every range of `f` is in order and inside its bound. */
  predicate RangesWithin(f: Filters, b: Bounds) {
    && Within(f.yearRange, b.year)
    && Within(f.priceRange, b.price)
    && Within(f.displacementRange, b.displacement)
  }

  /**
   * The price and displacement bounds are always proper intervals, and so is
   * the year bound of a non-empty list. The year bound of an empty list runs
   * from 2000 to the current year, so it is an interval only from 2000 on,
   * and a proper one only after 2000.
   */
  lemma BoundsProper(items: seq<Item>, currentYear: int)
    ensures var b := ComputeBounds(items, currentYear);
      && b.price.lo < b.price.hi
      && b.displacement.lo < b.displacement.hi
      && (|items| > 0 ==> b.year.lo < b.year.hi)
      && (|items| == 0 ==> (b.year.lo <= b.year.hi <==> currentYear >= FallbackYearMin))
      && (|items| == 0 ==> (b.year.lo < b.year.hi <==> currentYear > FallbackYearMin))
  {
    if |items| > 0 && |Displacements(items)| > 0 {
      assert DisplacementBounds(items).lo < DisplacementBounds(items).hi;
    }
  }

  /** Proper bounds contain the filter record `clearFilters` installs. */
  lemma ResetWithin(items: seq<Item>, currentYear: int)
    requires |items| > 0 || currentYear >= FallbackYearMin
    ensures var b := ComputeBounds(items, currentYear);
      RangesWithin(ResetFilters(b), b)
  {
    BoundsProper(items, currentYear);
  }

  /** Storing a range that lies inside its bound keeps every range inside its bound. */
  lemma SetRangeWithin(f: Filters, b: Bounds, key: RangeKey, value: Range)
    requires RangesWithin(f, b) && Within(value, BoundOf(b, key))
    ensures RangesWithin(SetRange(f, key, value), b)
  {
  }

  /** The updater of `handleFilterChange`: `{ ...prev, [key]: value }`. */
  function SetRange(f: Filters, key: RangeKey, value: Range): (r: Filters)
    ensures RangeOf(r, key) == value
    ensures forall k :: k != key ==> RangeOf(r, k) == RangeOf(f, k)
    ensures r.selectedBrands == f.selectedBrands
  {
    match key
    case YearRange => f.(yearRange := value)
    case PriceRange => f.(priceRange := value)
    case DisplacementRange => f.(displacementRange := value)
  }

  /** The updater of `toggleBrand`: drop `name` if selected, append it otherwise. */
  function Toggled(current: seq<string>, name: string): (r: seq<string>)
    ensures name in r <==> name !in current
    ensures forall b :: b != name ==> (b in r <==> b in current)
    ensures name !in current ==> r == current + [name]
  {
    if name in current then Filter(b => b != name, current) else current + [name]
  }

  /** Toggling twice restores membership, and restores the list itself when the brand was not selected. */
  lemma ToggleTwice(current: seq<string>, name: string)
    ensures forall b :: b in Toggled(Toggled(current, name), name) <==> b in current
    ensures name !in current ==> Toggled(Toggled(current, name), name) == current
  {
    if name !in current {
      FilterConcat(b => b != name, current, [name]);
      FilterAll(b => b != name, current);
      assert Filter(b => b != name, [name]) == [];
    }
  }

  function BrandsOf(items: seq<Item>): seq<string> {
    seq(|items|, i requires 0 <= i < |items| => items[i].brand)
  }

  /**
   * `availableBrands`: the distinct brands of the whole list, sorted. It
   * depends only on the list, not on the filter state.
   */
  function AvailableBrands(items: seq<Item>): (r: seq<string>)
    ensures Sorted(r) && NoDup(r)
    ensures forall b :: b in r ==> exists m :: m in items && m.brand == b
    ensures forall m :: m in items ==> m.brand in r
  {
    var all := BrandsOf(items);
    var d := Dedup(all);
    SortSorted(d);
    NoDupPermutation(d, Sort(d));
    assert forall b :: b in Sort(d) <==> b in d by {
      forall b ensures b in Sort(d) <==> b in d {
        assert b in Sort(d) <==> b in multiset(Sort(d));
        assert b in d <==> b in multiset(d);
      }
    }
    assert forall m :: m in items ==> m.brand in all by {
      forall m | m in items ensures m.brand in all {
        var i :| 0 <= i < |items| && items[i] == m;
        assert all[i] == m.brand;
      }
    }
    assert forall b :: b in all ==> exists m :: m in items && m.brand == b by {
      forall b | b in all ensures exists m :: m in items && m.brand == b {
        var i :| 0 <= i < |all| && all[i] == b;
        assert items[i] in items;
      }
    }
    Sort(d)
  }

  /**
   * The grid component's state: the motorcycle list it was given (and the
   * calendar year read when the bounds were last computed), the filter
   * record and the search text.
   */
  class CatalogGrid {
    const context: Context
    var motorcycles: seq<Item>
    var currentYear: int
    var filters: Filters
    var searchQuery: string

    function Bounds(): Bounds
      reads this
    {
      ComputeBounds(motorcycles, currentYear)
    }

    function Visible(): seq<Item>
      reads this
    {
      VisibleItems(motorcycles, context, filters, searchQuery)
    }

    function Brands(): seq<string>
      reads this
    {
      AvailableBrands(motorcycles)
    }

    predicate ShowsReset()
      reads this
    {
      ResetOffered(filters, Bounds())
    }

    /** Each range filter is in order and inside its slider's track. */
    predicate Valid()
      reads this
    {
      RangesWithin(filters, Bounds())
    }

    /** Mounting: the filters start at the bounds, nothing selected, no search. */
    constructor (items: seq<Item>, brand: string, isUsed: bool, currentYear: int)
      ensures context == Context(brand, isUsed)
      ensures motorcycles == items && this.currentYear == currentYear
      ensures filters == ResetFilters(Bounds()) && searchQuery == ""
      ensures Visible() == PageItems(items, context)
      ensures |items| > 0 || currentYear >= FallbackYearMin ==> Valid()
    {
      context := Context(brand, isUsed);
      motorcycles := items;
      this.currentYear := currentYear;
      filters := ResetFilters(ComputeBounds(items, currentYear));
      searchQuery := "";
      ResetShowsPage(items, Context(brand, isUsed), currentYear);
      if |items| > 0 || currentYear >= FallbackYearMin {
        ResetWithin(items, currentYear);
      }
    }

    /** Typing in the search box (or clearing it with its X button). */
    method SetSearchQuery(query: string)
      modifies this
      ensures searchQuery == query
      ensures filters == old(filters)
      ensures motorcycles == old(motorcycles) && currentYear == old(currentYear)
      ensures old(Valid()) ==> Valid()
    {
      searchQuery := query;
    }

    /** A range slider emitted a new pair for `key`. */
    method HandleFilterChange(key: RangeKey, value: Range)
      modifies this
      ensures filters == SetRange(old(filters), key, value)
      ensures searchQuery == old(searchQuery)
      ensures motorcycles == old(motorcycles) && currentYear == old(currentYear)
      ensures old(Valid()) && Within(value, BoundOf(Bounds(), key)) ==> Valid()
    {
      if Valid() && Within(value, BoundOf(Bounds(), key)) {
        SetRangeWithin(filters, Bounds(), key, value);
      }
      filters := SetRange(filters, key, value);
    }

    /**
     * A drag of the low handle of the slider for `key`, whose emitted pair
     * `handleFilterChange` stores. A slider in order whose track is the
     * bound, moved to a point on the track, keeps the grid `Valid()`.
     */
    method SlideLow(slider: Slider.RangeSlider, key: RangeKey, input: int)
      modifies this, slider
      ensures filters == SetRange(old(filters), key, Range(slider.minVal, slider.maxVal))
      ensures slider.minVal == (if input <= old(slider.maxVal) then input else old(slider.maxVal))
      ensures slider.maxVal == old(slider.maxVal)
      ensures slider.min == old(slider.min) && slider.max == old(slider.max)
      ensures slider.minValRef == slider.minVal && slider.maxValRef == old(slider.maxValRef)
      ensures old(slider.Valid()) && old(slider.min) <= input ==> slider.Valid()
      ensures searchQuery == old(searchQuery)
      ensures motorcycles == old(motorcycles) && currentYear == old(currentYear)
      ensures && old(Valid()) && old(slider.Valid())
              && old(slider.min) == BoundOf(Bounds(), key).lo
              && old(slider.max) == BoundOf(Bounds(), key).hi
              && old(slider.min) <= input
              ==> Valid()
    {
      var emitted := slider.MoveLow(input);
      HandleFilterChange(key, emitted);
    }

    /**
     * Two drags in a row on the same slider: since a drag keeps the slider
     * `Valid()` and its track at the bound, the grid stays `Valid()`.
     */
    method SlideTwice(slider: Slider.RangeSlider, key: RangeKey, first: int, second: int)
      requires Valid() && slider.Valid()
      requires slider.min == BoundOf(Bounds(), key).lo && slider.max == BoundOf(Bounds(), key).hi
      requires slider.min <= first && second <= slider.max
      modifies this, slider
      ensures Valid() && slider.Valid()
    {
      SlideLow(slider, key, first);
      SlideHigh(slider, key, second);
    }

    /** A drag of the high handle, as `SlideLow`; the point must not pass the track's top. */
    method SlideHigh(slider: Slider.RangeSlider, key: RangeKey, input: int)
      modifies this, slider
      ensures filters == SetRange(old(filters), key, Range(slider.minVal, slider.maxVal))
      ensures slider.maxVal == (if input >= old(slider.minVal) then input else old(slider.minVal))
      ensures slider.minVal == old(slider.minVal)
      ensures slider.min == old(slider.min) && slider.max == old(slider.max)
      ensures slider.maxValRef == slider.maxVal && slider.minValRef == old(slider.minValRef)
      ensures old(slider.Valid()) && input <= old(slider.max) ==> slider.Valid()
      ensures searchQuery == old(searchQuery)
      ensures motorcycles == old(motorcycles) && currentYear == old(currentYear)
      ensures && old(Valid()) && old(slider.Valid())
              && old(slider.min) == BoundOf(Bounds(), key).lo
              && old(slider.max) == BoundOf(Bounds(), key).hi
              && input <= old(slider.max)
              ==> Valid()
    {
      var emitted := slider.MoveHigh(input);
      HandleFilterChange(key, emitted);
    }

    method ToggleBrand(name: string)
      modifies this
      ensures filters == old(filters).(selectedBrands := Toggled(old(filters.selectedBrands), name))
      ensures name in filters.selectedBrands <==> name !in old(filters.selectedBrands)
      ensures searchQuery == old(searchQuery)
      ensures motorcycles == old(motorcycles) && currentYear == old(currentYear)
      ensures Brands() == old(Brands())
      ensures old(Valid()) ==> Valid()
    {
      filters := filters.(selectedBrands := Toggled(filters.selectedBrands, name));
    }

    /** `clearFilters`: back to the state the grid was mounted with. */
    method ClearFilters()
      modifies this
      ensures filters == ResetFilters(Bounds()) && searchQuery == ""
      ensures motorcycles == old(motorcycles) && currentYear == old(currentYear)
      ensures !ShowsReset()
      ensures Visible() == PageItems(motorcycles, context)
      ensures |motorcycles| > 0 || currentYear >= FallbackYearMin ==> Valid()
    {
      filters := ResetFilters(ComputeBounds(motorcycles, currentYear));
      searchQuery := "";
      ResetShowsPage(motorcycles, context, currentYear);
      if |motorcycles| > 0 || currentYear >= FallbackYearMin {
        ResetWithin(motorcycles, currentYear);
      }
    }

    /**
     * A new motorcycle list: the bounds are recomputed (reading the calendar
     * year again) and the effect resets the three ranges to them, keeping the
     * brand selection and the search text.
     */
    method ReceiveItems(items: seq<Item>, currentYear: int)
      modifies this
      ensures motorcycles == items && this.currentYear == currentYear
      ensures filters == old(filters).(yearRange := Bounds().year,
        priceRange := Bounds().price, displacementRange := Bounds().displacement)
      ensures searchQuery == old(searchQuery)
      ensures |items| > 0 || currentYear >= FallbackYearMin ==> Valid()
    {
      motorcycles := items;
      this.currentYear := currentYear;
      var b := ComputeBounds(items, currentYear);
      filters := filters.(yearRange := b.year, priceRange := b.price, displacementRange := b.displacement);
      if |items| > 0 || currentYear >= FallbackYearMin {
        ResetWithin(items, currentYear);
      }
    }
  }
}
