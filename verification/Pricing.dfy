/** Server-side pricing in int64 UZS, and the split of a total over the legs of an order
    (internal/orders/pricing.go). */
module Pricing {
  import opened Models
  import opened GoInt
  import opened Legs

  type Tariffs = map<string, int64>
  type Prices = map<Leg, int64>

  function Tariff(t: Tariffs, key: string, fallback: int64): int64 {
    if key in t then t[key] else fallback
  }

  datatype EquipmentRequest = EquipmentRequest(kind: string, hours: int64)
  datatype LaborRequest = LaborRequest(workers: int64, hours: int64)

  /** `cargo` is the weight times the tariff per ton, already rounded to whole UZS. */
  datatype PriceInput = PriceInput(
    cargo: Option<int64>,
    equipment: Option<EquipmentRequest>,
    labor: Option<LaborRequest>)

  datatype Breakdown = Breakdown(transport: int64, equipment: int64, labor: int64) {
    function Sum(): int64 {
      Wrap(Wrap(transport + equipment) + labor)
    }

    function For(leg: Leg): int64 {
      match leg
      case Transport => transport
      case Equipment => equipment
      case Labor => labor
    }
  }

  function EquipmentRate(t: Tariffs, kind: string): int64 {
    Tariff(t, "equipment_hour_" + kind, 250_000)
  }

  function LaborRate(t: Tariffs): int64 {
    Tariff(t, "labor_hour_per_worker", 45_000)
  }

  function Estimate(t: Tariffs, input: PriceInput): Breakdown {
    Breakdown(
      match input.cargo case Some(rounded) => rounded case None => 0,
      match input.equipment
      case Some(e) => Mul(e.hours, EquipmentRate(t, e.kind))
      case None => 0,
      match input.labor
      case Some(l) => Mul(Mul(l.workers, l.hours), LaborRate(t))
      case None => 0)
  }

  function Total(t: Tariffs, b: Breakdown): int64 {
    var minimum := Tariff(t, "minimum_order", 100_000);
    if b.Sum() > minimum then b.Sum() else minimum
  }

  // ---- the split ----------------------------------------------------------

  ghost predicate Covers(m: Prices, legs: seq<Leg>) {
    forall i :: 0 <= i < |legs| ==> legs[i] in m
  }

  /** The exact, unwrapped sum of what `m` gives to the first n of a list of legs. */
  ghost function SumTo(m: Prices, legs: seq<Leg>, n: nat): int
    requires n <= |legs| && Covers(m, legs)
  {
    if n == 0 then 0 else SumTo(m, legs, n - 1) + m[legs[n - 1]]
  }

  ghost function SumOver(m: Prices, legs: seq<Leg>): int
    requires Covers(m, legs)
  {
    SumTo(m, legs, |legs|)
  }

  ghost function Weights(b: Breakdown, legs: seq<Leg>): (m: Prices)
    ensures Covers(m, legs)
  {
    map l | l in legs :: b.For(l)
  }

  ghost function WeightSum(b: Breakdown, legs: seq<Leg>): int64 {
    Wrap(SumOver(Weights(b, legs), legs))
  }

  /** The first of the first n legs that carries the most weight. */
  ghost predicate IsFirstLargest(b: Breakdown, legs: seq<Leg>, n: nat, i: nat)
    requires n <= |legs|
  {
    && i < n
    && (forall j :: 0 <= j < i ==> b.For(legs[j]) < b.For(legs[i]))
    && (forall j :: i <= j < n ==> b.For(legs[j]) <= b.For(legs[i]))
  }

  ghost function LargestAt(b: Breakdown, legs: seq<Leg>, n: nat): (i: nat)
    requires 0 < n <= |legs|
    ensures IsFirstLargest(b, legs, n, i)
  {
    if n == 1 then 0
    else
      var sofar := LargestAt(b, legs, n - 1);
      if b.For(legs[n - 1]) > b.For(legs[sofar]) then n - 1 else sofar
  }

  ghost function Largest(b: Breakdown, legs: seq<Leg>): Leg
    requires legs != []
  {
    legs[LargestAt(b, legs, |legs|)]
  }

  ghost function Part(b: Breakdown, total: int64, n: nat, weightSum: int64, leg: Leg): int64
    requires n > 0
  {
    if weightSum <= 0 then TruncDiv(total, n)
    else MulDiv(total, b.For(leg), weightSum)
  }

  function MulDiv(total: int64, weight: int64, weightSum: int64): int64
    requires weightSum > 0
  {
    TruncDiv(Mul(total, weight), weightSum)
  }

  /** Each leg's part before the remainder is handed out. */
  ghost function Parts(b: Breakdown, total: int64, legs: seq<Leg>): (m: Prices)
    requires legs != []
    ensures Covers(m, legs)
  {
    map l | l in legs :: Part(b, total, |legs|, WeightSum(b, legs), l)
  }

  ghost function WithRemainder(parts: Prices, total: int64, legs: seq<Leg>, big: Leg): Prices
    requires Covers(parts, legs) && big in legs
  {
    parts[big := Wrap(parts[big] + Wrap(total - SumOver(parts, legs)))]
  }

  ghost function Split(b: Breakdown, total: int64, legs: seq<Leg>): Prices
  {
    if legs == [] then map[]
    else WithRemainder(Parts(b, total, legs), total, legs, Largest(b, legs))
  }

  method LargestOf(b: Breakdown, weights: Prices, legs: seq<Leg>) returns (best: Leg)
    requires legs != [] && weights == Weights(b, legs)
    ensures best == Largest(b, legs)
  {
    best := legs[0];
    for i := 1 to |legs|
      invariant best == legs[LargestAt(b, legs, i)]
    {
      assert weights[legs[i]] == b.For(legs[i]) && weights[best] == b.For(best);
      if weights[legs[i]] > weights[best] {
        best := legs[i];
      }
    }
  }

  method SplitTotal(b: Breakdown, total: int64, legs: seq<Leg>) returns (out: Prices)
    ensures out == Split(b, total, legs)
  {
    if |legs| == 0 {
      return map[];
    }
    var weights, weightSum := WeighLegs(b, legs);
    var handedOut: int64;
    if weightSum <= 0 {
      out, handedOut := ShareEvenly(b, total, legs);
    } else {
      out, handedOut := ShareByWeight(b, total, legs, weights, weightSum);
    }
    var big := LargestOf(b, weights, legs);
    RemainderWraps(out, total, legs, handedOut, big);
    out := out[big := Wrap(out[big] + Wrap(total - handedOut))];
  }

  lemma RemainderWraps(parts: Prices, total: int64, legs: seq<Leg>, handedOut: int64, big: Leg)
    requires Covers(parts, legs) && handedOut == Wrap(SumOver(parts, legs)) && big in legs
    ensures parts[big := Wrap(parts[big] + Wrap(total - handedOut))] == WithRemainder(parts, total, legs, big)
  {
    WrapSub(total, SumOver(parts, legs));
  }

  method WeighLegs(b: Breakdown, legs: seq<Leg>) returns (weights: Prices, weightSum: int64)
    ensures weights == Weights(b, legs) && weightSum == WeightSum(b, legs)
  {
    weights := map[];
    weightSum := 0;
    ghost var w := Weights(b, legs);
    for i := 0 to |legs|
      invariant IsPrefixOf(weights, w, legs, i)
      invariant weightSum == Wrap(SumTo(w, legs, i))
    {
      AddPart(w, legs, i, weightSum, b.For(legs[i]));
      weights := weights[legs[i] := b.For(legs[i])];
      weightSum := Wrap(weightSum + b.For(legs[i]));
    }
    WholePrefix(weights, w, legs);
  }

  method ShareEvenly(b: Breakdown, total: int64, legs: seq<Leg>) returns (out: Prices, handedOut: int64)
    requires legs != [] && WeightSum(b, legs) <= 0
    ensures out == Parts(b, total, legs) && handedOut == Wrap(SumOver(out, legs))
  {
    out := map[];
    var share := TruncDiv(total, |legs|);
    ghost var parts := Parts(b, total, legs);
    for i := 0 to |legs|
      invariant IsPrefixOf(out, parts, legs, i)
    {
      out := out[legs[i] := share];
    }
    WholePrefix(out, parts, legs);
    SumOfEqualParts(parts, legs, |legs|, share);
    handedOut := Wrap(share * |legs|);
  }

  method ShareByWeight(b: Breakdown, total: int64, legs: seq<Leg>, weights: Prices, weightSum: int64)
    returns (out: Prices, handedOut: int64)
    requires legs != [] && weights == Weights(b, legs) && weightSum == WeightSum(b, legs) > 0
    ensures out == Parts(b, total, legs) && handedOut == Wrap(SumOver(out, legs))
  {
    out := map[];
    handedOut := 0;
    ghost var parts := Parts(b, total, legs);
    for i := 0 to |legs|
      invariant IsPrefixOf(out, parts, legs, i)
      invariant handedOut == Wrap(SumTo(parts, legs, i))
    {
      var part := MulDiv(total, weights[legs[i]], weightSum);
      AddPart(parts, legs, i, handedOut, part);
      ExtendPrefix(out, parts, legs, i);
      out := out[legs[i] := part];
      handedOut := Wrap(handedOut + part);
    }
    WholePrefix(out, parts, legs);
  }

  lemma AddPart(parts: Prices, legs: seq<Leg>, i: nat, sofar: int64, part: int64)
    requires i < |legs| && Covers(parts, legs) && part == parts[legs[i]]
    requires sofar == Wrap(SumTo(parts, legs, i))
    ensures Wrap(sofar + part) == Wrap(SumTo(parts, legs, i + 1))
  {
    WrapAdd(SumTo(parts, legs, i), part);
  }

  /** `some` is `all` restricted to the first n legs. */
  ghost predicate IsPrefixOf(some: Prices, all: Prices, legs: seq<Leg>, n: nat)
    requires n <= |legs|
  {
    && (forall l :: l in some ==> l in all && some[l] == all[l] && l in legs)
    && (forall i :: 0 <= i < n ==> legs[i] in some)
  }

  lemma ExtendPrefix(some: Prices, all: Prices, legs: seq<Leg>, i: nat)
    requires i < |legs| && IsPrefixOf(some, all, legs, i) && legs[i] in all
    ensures IsPrefixOf(some[legs[i] := all[legs[i]]], all, legs, i + 1)
  {
  }

  lemma WholePrefix(some: Prices, all: Prices, legs: seq<Leg>)
    requires IsPrefixOf(some, all, legs, |legs|)
    requires forall l :: l in all ==> l in legs
    ensures some == all
  {
  }

  lemma {:induction false} SumOfEqualParts(m: Prices, legs: seq<Leg>, n: nat, share: int64)
    requires n <= |legs| && Covers(m, legs)
    requires forall i :: 0 <= i < n ==> m[legs[i]] == share
    ensures SumTo(m, legs, n) == share * n
  {
    if n > 0 {
      SumOfEqualParts(m, legs, n - 1, share);
    }
  }

  // ---- the parts sum to the total, whatever the weights -------------------

  /** For distinct legs and ANY int64 weights and total, wrap-around included, the parts add up,
      as Go adds them, to exactly the total: both on the proportional and on the even branch. */
  lemma SplitIsExact(b: Breakdown, total: int64, legs: seq<Leg>)
    requires legs != [] && Distinct(legs)
    ensures Split(b, total, legs).Keys == set l | l in legs
    ensures Covers(Split(b, total, legs), legs)
    ensures Wrap(SumOver(Split(b, total, legs), legs)) == total
  {
    RemainderCloses(Parts(b, total, legs), total, legs, Largest(b, legs));
  }

  lemma RemainderCloses(parts: Prices, total: int64, legs: seq<Leg>, big: Leg)
    requires Distinct(legs) && Covers(parts, legs) && big in legs
    ensures Wrap(SumOver(WithRemainder(parts, total, legs, big), legs)) == total
  {
    var sum, p := SumOver(parts, legs), parts[big];
    var v := Wrap(p + Wrap(total - sum));
    SumAfterUpdate(parts, legs, |legs|, big, v);
    ClosingTheGap(sum, p, total);
  }

  lemma ClosingTheGap(sum: int, p: int, total: int64)
    ensures Wrap(sum + Wrap(p + Wrap(total - sum)) - p) == total
  {
    WrapAdd(total - sum, p);
    WrapAdd(p + total - sum, sum - p);
  }

  lemma {:induction false} SumAfterUpdate(m: Prices, legs: seq<Leg>, n: nat, at: Leg, v: int64)
    requires n <= |legs| && Distinct(legs) && Covers(m, legs) && at in legs
    ensures SumTo(m[at := v], legs, n)
         == SumTo(m, legs, n) + (if at in legs[..n] then v - m[at] else 0)
  {
    if n > 0 {
      SumAfterUpdate(m, legs, n - 1, at, v);
      assert legs[..n] == legs[..n - 1] + [legs[n - 1]];
    } else {
      assert legs[..n] == [];
    }
    assert n == |legs| ==> legs[..n] == legs;
  }

  /** Once the columns' range has accepted the prices and the total there is nothing left to wrap. */
  lemma StoredPartsSumExactly(prices: Prices, legs: seq<Leg>, total: int)
    requires |legs| <= 3 && Covers(prices, legs) && forall l <- legs :: FitsNumeric(prices[l])
    requires FitsNumeric(total) && Wrap(SumOver(prices, legs)) == total
    ensures SumOver(prices, legs) == total
  {
    SumInRange(prices, legs, |legs|);
  }

  lemma {:induction false} SumInRange(prices: Prices, legs: seq<Leg>, n: nat)
    requires n <= |legs| && Covers(prices, legs) && forall l <- legs :: FitsNumeric(prices[l])
    ensures -NUMERIC_LIMIT * n <= SumTo(prices, legs, n) <= NUMERIC_LIMIT * n
  {
    if n > 0 {
      SumInRange(prices, legs, n - 1);
    }
  }

  /** Distinctness is needed: the same leg twice is counted twice but paid once. */
  lemma RepeatedLegLosesMoney()
    ensures Split(Breakdown(5, 0, 0), 10, [Transport, Transport]) == map[Transport := 5]
  {
    var b, legs := Breakdown(5, 0, 0), [Transport, Transport];
    var w := Weights(b, legs);
    assert SumTo(w, legs, 1) == 5;
    assert SumTo(w, legs, 2) == 10;
    var parts := Parts(b, 10, legs);
    MulIsWrappedProduct(10, 5);
    QuotientIsFloor(50, 10);
    assert 10 * b.For(Transport) == 50;
    assert parts == map[Transport := 5];
    assert SumTo(parts, legs, 1) == 5;
    assert SumTo(parts, legs, 2) == 10;
    assert Largest(b, legs) == Transport;
  }

  // ---- fairness -----------------------------------------------------------

  /** Nothing in the computation leaves int64: the range the fairness promises are about. */
  ghost predicate NoOverflow(b: Breakdown, total: int64, legs: seq<Leg>) {
    && total >= 0
    && 0 < SumOver(Weights(b, legs), legs) <= MAX
    && forall l <- legs :: b.For(l) >= 0 && total * b.For(l) <= MAX
  }

  /** The proportional share of a leg, rounded down. */
  ghost predicate IsFloorShare(q: int, b: Breakdown, total: int64, legs: seq<Leg>, l: Leg) {
    IsFloor(q, total * b.For(l), SumOver(Weights(b, legs), legs))
  }

  /** Every leg but the largest gets its proportional share, rounded down; the largest gets at
      most one whole UZS per other leg on top of its own; nobody gets a negative amount. */
  lemma SplitIsFair(b: Breakdown, total: int64, legs: seq<Leg>, l: Leg)
    requires Distinct(legs) && NoOverflow(b, total, legs) && l in legs
    ensures Covers(Split(b, total, legs), legs) && Split(b, total, legs)[l] >= 0
    ensures l != Largest(b, legs) ==> IsFloorShare(Split(b, total, legs)[l], b, total, legs, l)
    ensures exists floor :: IsFloorShare(floor, b, total, legs, l)
                            && floor <= Split(b, total, legs)[l] < floor + |legs|
  {
    var parts := Parts(b, total, legs);
    PartIsFloor(b, total, legs, l);
    PartsNonNegative(b, total, legs);
    RemainderIsSmall(b, total, legs);
    RemainderFits(parts, total, legs, Largest(b, legs));
    assert IsFloorShare(parts[l], b, total, legs, l);
  }

  /** A strictly heavier leg never gets less. */
  lemma HeavierGetsNoLess(b: Breakdown, total: int64, legs: seq<Leg>, heavy: Leg, light: Leg)
    requires Distinct(legs) && NoOverflow(b, total, legs) && heavy in legs && light in legs
    requires b.For(heavy) > b.For(light)
    ensures Covers(Split(b, total, legs), legs)
    ensures Split(b, total, legs)[heavy] >= Split(b, total, legs)[light]
  {
    PartsNonNegative(b, total, legs);
    RemainderIsSmall(b, total, legs);
    RemainderFits(Parts(b, total, legs), total, legs, Largest(b, legs));
    HeavierPart(b, total, legs, heavy, light);
  }

  lemma HeavierPart(b: Breakdown, total: int64, legs: seq<Leg>, heavy: Leg, light: Leg)
    requires NoOverflow(b, total, legs) && heavy in legs && light in legs
    requires b.For(heavy) >= b.For(light)
    ensures Parts(b, total, legs)[heavy] >= Parts(b, total, legs)[light]
  {
    PartIsFloor(b, total, legs, heavy);
    PartIsFloor(b, total, legs, light);
    FloorMonotone(total, b.For(light), b.For(heavy), SumOver(Weights(b, legs), legs),
                  Parts(b, total, legs)[light], Parts(b, total, legs)[heavy]);
  }

  lemma PartsNonNegative(b: Breakdown, total: int64, legs: seq<Leg>)
    requires NoOverflow(b, total, legs)
    ensures forall l <- legs :: Parts(b, total, legs)[l] >= 0
  {
    forall l | l in legs
      ensures Parts(b, total, legs)[l] >= 0
    {
      PartIsFloor(b, total, legs, l);
    }
  }

  lemma RemainderFits(parts: Prices, total: int64, legs: seq<Leg>, big: Leg)
    requires Covers(parts, legs) && big in legs && forall l <- legs :: parts[l] >= 0
    requires 0 <= total - SumOver(parts, legs) < |legs|
    ensures var out := WithRemainder(parts, total, legs, big);
            && (forall l <- legs :: l != big ==> out[l] == parts[l])
            && out[big] == parts[big] + (total - SumOver(parts, legs))
  {
    PartFits(parts, legs, |legs|, big);
    assert legs[..|legs|] == legs;
  }

  lemma PartIsFloor(b: Breakdown, total: int64, legs: seq<Leg>, l: Leg)
    requires NoOverflow(b, total, legs) && l in legs
    ensures IsFloor(Parts(b, total, legs)[l], total * b.For(l), SumOver(Weights(b, legs), legs))
    ensures Parts(b, total, legs)[l] >= 0
  {
    ProductNonNegative(total, b.For(l));
    MulIsWrappedProduct(total, b.For(l));
    QuotientIsFloor(total * b.For(l), SumOver(Weights(b, legs), legs));
  }

  lemma ProductNonNegative(x: int, y: int)
    requires x >= 0 && y >= 0
    ensures x * y >= 0
  {
  }

  lemma FloorMonotone(total: int, v: int, w: int, W: int, p: int, q: int)
    requires total >= 0 && v <= w && W > 0
    requires IsFloor(p, total * v, W) && IsFloor(q, total * w, W)
    ensures p <= q
  {
    ProductNonNegative(total, w - v);
    assert total * (w - v) == total * w - total * v;
    ProductBounds(p - q - 1, W);
    assert (p - q - 1) * W == p * W - q * W - W;
  }

  /** Rounding n shares of `exact / W` down gives `rounded`, less than one whole UZS a share short. */
  ghost predicate ShortByLessThan(n: int, exact: int, rounded: int, W: int) {
    rounded * W <= exact <= (rounded + n) * W - n
  }

  lemma {:induction false} RoundingLoss(w: Prices, parts: Prices, total: int, W: int, legs: seq<Leg>, n: nat)
    requires n <= |legs| && Covers(w, legs) && Covers(parts, legs)
    requires forall i :: 0 <= i < n ==> IsFloor(parts[legs[i]], total * w[legs[i]], W)
    ensures ShortByLessThan(n, total * SumTo(w, legs, n), SumTo(parts, legs, n), W)
  {
    if n == 0 {
      NothingRounded(total, W);
    } else {
      RoundingLoss(w, parts, total, W, legs, n - 1);
      OneMoreFloor(total, SumTo(w, legs, n - 1), w[legs[n - 1]], W,
                   SumTo(parts, legs, n - 1), n - 1, parts[legs[n - 1]]);
    }
  }

  lemma NothingRounded(total: int, W: int)
    ensures ShortByLessThan(0, total * 0, 0, W)
  {
  }

  lemma OneMoreFloor(total: int, sum: int, w: int, W: int, rounded: int, n: int, q: int)
    requires ShortByLessThan(n, total * sum, rounded, W) && IsFloor(q, total * w, W)
    ensures ShortByLessThan(n + 1, total * (sum + w), rounded + q, W)
  {
    assert total * (sum + w) == total * sum + total * w;
    assert (rounded + q) * W == rounded * W + q * W;
    assert (rounded + q + n + 1) * W == (rounded + n) * W + q * W + W;
  }

  /** Over all the legs, whose weights sum to W, at most |legs| - 1 UZS are left over. */
  lemma RemainderIsSmall(b: Breakdown, total: int64, legs: seq<Leg>)
    requires NoOverflow(b, total, legs)
    ensures legs != []
    ensures 0 <= total - SumOver(Parts(b, total, legs), legs) <= |legs| - 1
  {
    var w, parts, W := Weights(b, legs), Parts(b, total, legs), SumOver(Weights(b, legs), legs);
    forall i | 0 <= i < |legs|
      ensures IsFloor(parts[legs[i]], total * w[legs[i]], W)
    {
      PartIsFloor(b, total, legs, legs[i]);
    }
    RoundingLoss(w, parts, total, W, legs, |legs|);
    CancelFactor(SumOver(Parts(b, total, legs), legs), total, |legs|, SumOver(Weights(b, legs), legs));
  }

  lemma CancelFactor(rounded: int, total: int, n: int, W: int)
    requires W > 0 && n > 0 && ShortByLessThan(n, total * W, rounded, W)
    ensures rounded <= total <= rounded + n - 1
  {
    ProductBounds(total - rounded, W);
    assert (total - rounded) * W == total * W - rounded * W;
    ProductBounds(rounded + n - total - 1, W);
    assert (rounded + n - total - 1) * W == (rounded + n) * W - total * W - W;
  }

  /** A part together with the remainder is at most the total, so adding it does not wrap. */
  lemma {:induction false} PartFits(parts: Prices, legs: seq<Leg>, n: nat, at: Leg)
    requires n <= |legs| && Covers(parts, legs) && forall l <- legs :: parts[l] >= 0
    ensures 0 <= SumTo(parts, legs, n)
    ensures at in legs[..n] ==> parts[at] <= SumTo(parts, legs, n)
  {
    if n > 0 {
      PartFits(parts, legs, n - 1, at);
      assert legs[..n] == legs[..n - 1] + [legs[n - 1]];
    }
  }

  /** An order priced at exactly its computed cost pays every leg exactly its own component,
      components below zero included. */
  lemma SplitOfOwnCostIsIdentity(b: Breakdown, legs: seq<Leg>)
    requires 0 < SumOver(Weights(b, legs), legs) <= MAX
    requires forall l <- legs :: -MAX <= SumOver(Weights(b, legs), legs) * b.For(l) <= MAX
    ensures Split(b, SumOver(Weights(b, legs), legs), legs) == Weights(b, legs)
  {
    var W: int64 := SumOver(Weights(b, legs), legs);
    forall l | l in legs
      ensures Parts(b, W, legs)[l] == b.For(l)
    {
      ExactShare(W, b.For(l));
    }
    assert Parts(b, W, legs) == Weights(b, legs);
    NothingLeft(Parts(b, W, legs), W, legs, Largest(b, legs));
  }

  lemma ExactShare(W: int64, w: int64)
    requires W > 0 && -MAX <= W * w <= MAX
    ensures MulDiv(W, w, W) == w
  {
    MulInRange(W, w);
    if w < 0 {
      assert W * -w == -(W * w);
      ExactQuotient(W, -w);
    } else {
      ExactQuotient(W, w);
    }
  }

  lemma ExactQuotient(W: int, w: int)
    requires W > 0 && w >= 0
    ensures W * w >= 0 && Quotient(W * w, W) == w
    ensures w > 0 ==> W * w > 0
  {
    ProductNonNegative(W, w);
    ProductBounds(w, W);
    QuotientIsFloor(W * w, W);
    FloorIsUnique(Quotient(W * w, W), w, W * w, W);
  }

  lemma NothingLeft(parts: Prices, total: int64, legs: seq<Leg>, big: Leg)
    requires Covers(parts, legs) && big in legs && SumOver(parts, legs) == total
    ensures WithRemainder(parts, total, legs, big) == parts
  {
  }
}
