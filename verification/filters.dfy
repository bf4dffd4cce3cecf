/**
 * The range filters of `GET /products` (renart/backend/index.js lines
 * 130-134): up to four inclusive bounds, each applied as its own `filter`
 * step when its query parameter is present and not empty.
 */
module Filters {
  import opened Wrappers
  import opened JsNumber
  import opened Catalog
  import StringToNumber

  /** The query's `price_min`, `price_max`, `pop_min` and `pop_max`, as raw strings. */
  datatype Query = Query(priceMin: Option<string>, priceMax: Option<string>, popMin: Option<string>, popMax: Option<string>)

  const NoFilters: Query := Query(None, None, None, None)

  /** `if (param)`: a bound applies when the parameter is present and not empty. */
  predicate Given(b: Option<string>) {
    b.Some? && b.value != ""
  }

  /** `Number(param)`: NaN for text that is not a number. */
  function BoundValue(b: Option<string>): Num
    requires Given(b)
  {
    StringToNumber.ToNumber(b.value)
  }

  /** One filter step's test. */
  datatype Check = PriceAtLeast(bound: Num) | PriceAtMost(bound: Num) | RatingAtLeast(bound: Num) | RatingAtMost(bound: Num)

  /** The JavaScript comparison of a step: inclusive, and false whenever NaN is involved. */
  predicate Passes(x: EnrichedProduct, c: Check) {
    match c
    case PriceAtLeast(b) => AtMost(b, x.priceUsd)
    case PriceAtMost(b) => AtMost(x.priceUsd, b)
    case RatingAtLeast(b) => AtMost(b, x.popularityOutOf5)
    case RatingAtMost(b) => AtMost(x.popularityOutOf5, b)
  }

  /** `xs.filter(x => test)` for one step. */
  function FilterBy(xs: seq<EnrichedProduct>, c: Check): (r: seq<EnrichedProduct>)
    ensures |r| <= |xs|
    ensures forall x :: x in r <==> x in xs && Passes(x, c)
  {
    if xs == [] then []
    else if Passes(xs[0], c) then [xs[0]] + FilterBy(xs[1..], c)
    else FilterBy(xs[1..], c)
  }

  /** The handler's filter chain: the steps run in turn, each on the previous one's result. */
  function ApplyFilters(xs: seq<EnrichedProduct>, q: Query): (r: seq<EnrichedProduct>)
    ensures |r| <= |xs|
    ensures forall x :: x in r ==> x in xs
  {
    var afterPriceMin := if Given(q.priceMin) then FilterBy(xs, PriceAtLeast(BoundValue(q.priceMin))) else xs;
    var afterPriceMax := if Given(q.priceMax) then FilterBy(afterPriceMin, PriceAtMost(BoundValue(q.priceMax))) else afterPriceMin;
    var afterPopMin := if Given(q.popMin) then FilterBy(afterPriceMax, RatingAtLeast(BoundValue(q.popMin))) else afterPriceMax;
    if Given(q.popMax) then FilterBy(afterPopMin, RatingAtMost(BoundValue(q.popMax))) else afterPopMin
  }

  // ---- The reference definition: one pass, every bound at once ----

  /** A product is kept iff it meets every given bound, inclusively. */
  predicate Admits(q: Query, x: EnrichedProduct) {
    && (Given(q.priceMin) ==> AtMost(BoundValue(q.priceMin), x.priceUsd))
    && (Given(q.priceMax) ==> AtMost(x.priceUsd, BoundValue(q.priceMax)))
    && (Given(q.popMin) ==> AtMost(BoundValue(q.popMin), x.popularityOutOf5))
    && (Given(q.popMax) ==> AtMost(x.popularityOutOf5, BoundValue(q.popMax)))
  }

  function Select(xs: seq<EnrichedProduct>, q: Query): (r: seq<EnrichedProduct>)
    ensures |r| <= |xs|
    ensures forall x :: x in r ==> x in xs && Admits(q, x)
  {
    if xs == [] then []
    else (if Admits(q, xs[0]) then [xs[0]] else []) + Select(xs[1..], q)
  }

  /** `r` is `xs` with some elements dropped and the rest in their original order. */
  predicate SubsequenceOf(r: seq<EnrichedProduct>, xs: seq<EnrichedProduct>)
    decreases |xs|
  {
    if r == [] then true
    else if xs == [] then false
    else (r[0] == xs[0] && SubsequenceOf(r[1..], xs[1..])) || SubsequenceOf(r, xs[1..])
  }

  // ---- The chain of steps is the one-pass selection ----

  lemma {:induction false} FilterByAppend(ys: seq<EnrichedProduct>, zs: seq<EnrichedProduct>, c: Check)
    ensures FilterBy(ys + zs, c) == FilterBy(ys, c) + FilterBy(zs, c)
  {
    if ys != [] {
      assert (ys + zs)[0] == ys[0];
      assert (ys + zs)[1..] == ys[1..] + zs;
      FilterByAppend(ys[1..], zs, c);
    } else {
      assert ys + zs == zs;
    }
  }

  lemma ApplyFiltersAppend(ys: seq<EnrichedProduct>, zs: seq<EnrichedProduct>, q: Query)
    ensures ApplyFilters(ys + zs, q) == ApplyFilters(ys, q) + ApplyFilters(zs, q)
  {
    if Given(q.priceMin) { FilterByAppend(ys, zs, PriceAtLeast(BoundValue(q.priceMin))); }
    var a1 := if Given(q.priceMin) then FilterBy(ys, PriceAtLeast(BoundValue(q.priceMin))) else ys;
    var a2 := if Given(q.priceMin) then FilterBy(zs, PriceAtLeast(BoundValue(q.priceMin))) else zs;
    if Given(q.priceMax) { FilterByAppend(a1, a2, PriceAtMost(BoundValue(q.priceMax))); }
    var b1 := if Given(q.priceMax) then FilterBy(a1, PriceAtMost(BoundValue(q.priceMax))) else a1;
    var b2 := if Given(q.priceMax) then FilterBy(a2, PriceAtMost(BoundValue(q.priceMax))) else a2;
    if Given(q.popMin) { FilterByAppend(b1, b2, RatingAtLeast(BoundValue(q.popMin))); }
    var c1 := if Given(q.popMin) then FilterBy(b1, RatingAtLeast(BoundValue(q.popMin))) else b1;
    var c2 := if Given(q.popMin) then FilterBy(b2, RatingAtLeast(BoundValue(q.popMin))) else b2;
    if Given(q.popMax) { FilterByAppend(c1, c2, RatingAtMost(BoundValue(q.popMax))); }
  }

  lemma FilterBySingle(x: EnrichedProduct, c: Check)
    ensures FilterBy([x], c) == if Passes(x, c) then [x] else []
    ensures FilterBy([], c) == []
  {
    assert [x][1..] == [];
  }

  lemma ApplyFiltersSingle(x: EnrichedProduct, q: Query)
    ensures ApplyFilters([x], q) == if Admits(q, x) then [x] else []
  {
    if Given(q.priceMin) { FilterBySingle(x, PriceAtLeast(BoundValue(q.priceMin))); }
    if Given(q.priceMax) { FilterBySingle(x, PriceAtMost(BoundValue(q.priceMax))); }
    if Given(q.popMin) { FilterBySingle(x, RatingAtLeast(BoundValue(q.popMin))); }
    if Given(q.popMax) { FilterBySingle(x, RatingAtMost(BoundValue(q.popMax))); }
  }

  /** The four successive steps keep exactly what the one-pass selection keeps, in the same order. */
  lemma {:induction false} ApplyFiltersIsSelect(xs: seq<EnrichedProduct>, q: Query)
    ensures ApplyFilters(xs, q) == Select(xs, q)
  {
    if xs != [] {
      assert xs == [xs[0]] + xs[1..];
      ApplyFiltersAppend([xs[0]], xs[1..], q);
      ApplyFiltersSingle(xs[0], q);
      ApplyFiltersIsSelect(xs[1..], q);
    }
  }

  // ---- What the selection keeps ----

  /** The selection keeps the order of the list it filters. */
  lemma {:induction false} SelectIsSubsequence(xs: seq<EnrichedProduct>, q: Query)
    ensures SubsequenceOf(Select(xs, q), xs)
  {
    if xs != [] {
      SelectIsSubsequence(xs[1..], q);
      var r := Select(xs, q);
      if Admits(q, xs[0]) {
        assert r == [xs[0]] + Select(xs[1..], q);
        assert r[0] == xs[0] && r[1..] == Select(xs[1..], q);
      } else {
        assert r == Select(xs[1..], q);
      }
    }
  }

  /** Every copy of an admitted product is kept and every copy of any other product is dropped. */
  lemma {:induction false} SelectMultiplicity(xs: seq<EnrichedProduct>, q: Query, x: EnrichedProduct)
    ensures multiset(Select(xs, q))[x] == if Admits(q, x) then multiset(xs)[x] else 0
  {
    if xs != [] {
      SelectMultiplicity(xs[1..], q, x);
      assert xs == [xs[0]] + xs[1..];
    }
  }

  /** A product is in the result iff it is in the list and meets every given bound. */
  lemma SelectMembership(xs: seq<EnrichedProduct>, q: Query, x: EnrichedProduct)
    ensures x in Select(xs, q) <==> x in xs && Admits(q, x)
  {
    SelectMultiplicity(xs, q, x);
    assert x in Select(xs, q) <==> multiset(Select(xs, q))[x] > 0;
  }

  /** Absent or empty bounds remove nothing. */
  lemma NoBoundsKeepAll(xs: seq<EnrichedProduct>, q: Query)
    requires !Given(q.priceMin) && !Given(q.priceMax) && !Given(q.popMin) && !Given(q.popMax)
    ensures ApplyFilters(xs, q) == xs
  {
  }

  /** A given bound that is not a number removes every product. */
  lemma NaNBoundRemovesAll(xs: seq<EnrichedProduct>, q: Query)
    requires || (Given(q.priceMin) && BoundValue(q.priceMin) == NaN)
             || (Given(q.priceMax) && BoundValue(q.priceMax) == NaN)
             || (Given(q.popMin) && BoundValue(q.popMin) == NaN)
             || (Given(q.popMax) && BoundValue(q.popMax) == NaN)
    ensures ApplyFilters(xs, q) == []
  {
    ApplyFiltersIsSelect(xs, q);
    if Select(xs, q) != [] {
      var x := Select(xs, q)[0];
      SelectMembership(xs, q, x);
      AtMostNaN(x.priceUsd);
      AtMostNaN(x.popularityOutOf5);
    }
  }

  /**
   * Bounds are inclusive: `price_min` and `price_max` both set to the same
   * number keep exactly the products priced at that number.
   */
  lemma EqualPriceBoundsKeepThatPrice(xs: seq<EnrichedProduct>, s: string, v: real, x: EnrichedProduct)
    requires StringToNumber.ToNumber(s) == Finite(v) && s != ""
    ensures x in ApplyFilters(xs, Query(Some(s), Some(s), None, None)) <==> x in xs && x.priceUsd == Finite(v)
  {
    var q := Query(Some(s), Some(s), None, None);
    ApplyFiltersIsSelect(xs, q);
    SelectMembership(xs, q, x);
  }

  /** A `pop_min` bound drops every product rated below it. */
  lemma PopMinDropsLowerRatings(xs: seq<EnrichedProduct>, q: Query, x: EnrichedProduct)
    requires Given(q.popMin)
    requires Below(x.popularityOutOf5, BoundValue(q.popMin))
    ensures x !in ApplyFilters(xs, q)
  {
    ApplyFiltersIsSelect(xs, q);
    SelectMembership(xs, q, x);
  }
}
