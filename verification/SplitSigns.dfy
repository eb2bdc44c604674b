/** When the split of a total gives a leg a negative price (internal/orders/pricing.go): the test the
    create handler could make before it stores the order. */
module SplitSigns {
  import opened Models
  import opened GoInt
  import opened Legs
  import opened Pricing

  /** No sum and no product of the split leaves int64. */
  ghost predicate NoWrap(b: Breakdown, total: int64, legs: seq<Leg>) {
    && -MAX <= SumOver(Weights(b, legs), legs) <= MAX
    && forall l :: l in legs ==> -MAX <= total * b.For(l) <= MAX
  }

  ghost predicate AllNonNegative(prices: Prices) {
    forall l :: l in prices ==> prices[l] >= 0
  }

  /** What create would have to check: no negative total and, on the proportional branch, no leg whose
      share is a whole UZS or more below zero. */
  ghost predicate SafeWeights(b: Breakdown, total: int64, legs: seq<Leg>) {
    var W := SumOver(Weights(b, legs), legs);
    total >= 0 && (W <= 0 || forall l :: l in legs ==> total * b.For(l) > -W)
  }

  /** The split prices a leg below zero exactly if that check fails. */
  lemma SplitIsNonNegativeIff(b: Breakdown, total: int64, legs: seq<Leg>)
    requires legs != [] && Distinct(legs) && NoWrap(b, total, legs)
    ensures AllNonNegative(Split(b, total, legs)) <==> SafeWeights(b, total, legs)
  {
    var W := SumOver(Weights(b, legs), legs);
    if W <= 0 {
      EvenSplitSigns(b, total, legs);
    } else {
      WeighedSplitSigns(b, total, legs);
    }
  }

  // ---- sums over the three legs -----------------------------------------------------------

  ghost function At(m: Prices, legs: seq<Leg>, l: Leg): int {
    if l in legs && l in m then m[l] else 0
  }

  lemma SumByLeg(m: Prices, legs: seq<Leg>)
    requires legs != [] && Distinct(legs) && Covers(m, legs)
    ensures SumOver(m, legs) == At(m, legs, Transport) + At(m, legs, Equipment) + At(m, legs, Labor)
  {
    AtMostThree(legs);
    Members(legs, Transport);
    Members(legs, Equipment);
    Members(legs, Labor);
    assert SumTo(m, legs, 0) == 0;
    assert SumTo(m, legs, 1) == m[legs[0]];
    if |legs| >= 2 {
      assert SumTo(m, legs, 2) == SumTo(m, legs, 1) + m[legs[1]];
    }
    if |legs| >= 3 {
      assert SumTo(m, legs, 3) == SumTo(m, legs, 2) + m[legs[2]];
    }
  }

  lemma Members(legs: seq<Leg>, l: Leg)
    requires 1 <= |legs| <= 3
    ensures l in legs <==> legs[0] == l || (|legs| >= 2 && legs[1] == l) || (|legs| >= 3 && legs[2] == l)
  {
  }

  lemma AtMostThree(legs: seq<Leg>)
    requires Distinct(legs)
    ensures |legs| <= 3
  {
    if |legs| > 3 {
      FourLegs(legs[0], legs[1], legs[2], legs[3]);
    }
  }

  lemma FourLegs(a: Leg, b: Leg, c: Leg, d: Leg)
    ensures a == b || a == c || a == d || b == c || b == d || c == d
  {
  }

  // ---- the even branch -----------------------------------------------------------------------

  lemma EvenSplitSigns(b: Breakdown, total: int64, legs: seq<Leg>)
    requires legs != [] && Distinct(legs) && NoWrap(b, total, legs) && SumOver(Weights(b, legs), legs) <= 0
    ensures AllNonNegative(Split(b, total, legs)) <==> total >= 0
  {
    var parts, big, n := Parts(b, total, legs), Largest(b, legs), |legs|;
    var share := TruncDiv(total, n);
    AtMostThree(legs);
    TruncParts(total, n);
    SumOfEqualParts(parts, legs, n, share);
    assert SumOver(parts, legs) == share * n;
    var split := WithRemainder(parts, total, legs, big);
    assert split[big] == share + (total - share * n);
    assert forall l :: l in legs && l != big ==> split[l] == share;
  }

  /** Go's quotient: the remainder is smaller than the divisor and has the sign of the dividend. */
  ghost predicate IsTrunc(q: int, a: int, b: int) {
    && (a >= 0 ==> q >= 0 && q * b <= a < q * b + b)
    && (a < 0 ==> q <= 0 && q * b - b < a <= q * b)
  }

  lemma TruncParts(a: int64, b: int64)
    requires b > 0
    ensures IsTrunc(TruncDiv(a, b), a, b)
  {
    if a >= 0 {
      QuotientIsFloor(a, b);
    } else {
      var m: int := a;
      QuotientIsFloor(-m, b);
    }
  }

  // ---- the proportional branch -----------------------------------------------------------------

  lemma WeighedSplitSigns(b: Breakdown, total: int64, legs: seq<Leg>)
    requires legs != [] && Distinct(legs) && NoWrap(b, total, legs) && SumOver(Weights(b, legs), legs) > 0
    ensures AllNonNegative(Split(b, total, legs)) <==> SafeWeights(b, total, legs)
  {
    match Largest(b, legs) {
      case Transport => SignsAround(b, total, legs, Transport, Equipment, Labor);
      case Equipment => SignsAround(b, total, legs, Equipment, Transport, Labor);
      case Labor => SignsAround(b, total, legs, Labor, Transport, Equipment);
    }
  }

  /** The largest leg gets what the others leave of the total. */
  lemma SignsAround(b: Breakdown, total: int64, legs: seq<Leg>, big: Leg, x: Leg, y: Leg)
    requires legs != [] && Distinct(legs) && NoWrap(b, total, legs) && SumOver(Weights(b, legs), legs) > 0
    requires big == Largest(b, legs) && big != x && big != y && x != y
    ensures AllNonNegative(Split(b, total, legs)) <==> SafeWeights(b, total, legs)
  {
    var w, q, W := Weights(b, legs), Parts(b, total, legs), SumOver(Weights(b, legs), legs);
    var qx, qy := At(q, legs, x), At(q, legs, y);
    PartTruncates(b, total, legs, big);
    PartTruncates(b, total, legs, x);
    PartTruncates(b, total, legs, y);
    LargestIsPositive(b, legs, big, x, y);
    Leftover(total, W, At(w, legs, big), At(w, legs, x), At(w, legs, y), qx, qy);
    BigGetsTheRest(b, total, legs, big, x, y);
    NegativeQuotient(qx, total * At(w, legs, x), W);
    NegativeQuotient(qy, total * At(w, legs, y), W);
    SignsMatch(b, total, legs, Split(b, total, legs), big, x, y, W, qx, qy);
  }

  lemma BigGetsTheRest(b: Breakdown, total: int64, legs: seq<Leg>, big: Leg, x: Leg, y: Leg)
    requires legs != [] && Distinct(legs) && big == Largest(b, legs) && big in legs && big != x && big != y && x != y
    requires var q := Parts(b, total, legs); MIN <= total - At(q, legs, x) - At(q, legs, y) <= MAX
    ensures var q, split := Parts(b, total, legs), Split(b, total, legs);
            && split.Keys == (set l | l in legs)
            && split[big] == total - At(q, legs, x) - At(q, legs, y)
            && forall l :: l in legs && l != big ==> split[l] == q[l]
  {
    RemainderGoesTo(Parts(b, total, legs), total, legs, big, x, y);
  }

  lemma RemainderGoesTo(q: Prices, total: int64, legs: seq<Leg>, big: Leg, x: Leg, y: Leg)
    requires Distinct(legs) && Covers(q, legs) && q.Keys == (set l | l in legs)
    requires big in legs && big != x && big != y && x != y
    requires MIN <= total - At(q, legs, x) - At(q, legs, y) <= MAX
    ensures var out := WithRemainder(q, total, legs, big);
            && out.Keys == (set l | l in legs)
            && out[big] == total - At(q, legs, x) - At(q, legs, y)
            && forall l :: l in legs && l != big ==> out[l] == q[l]
  {
    SumByLeg(q, legs);
    PartsBy(q, legs, big, x, y);
    var rest := total - At(q, legs, x) - At(q, legs, y);
    Closing(q[big], SumOver(q, legs), total, rest);
    RestReplaces(q, total, legs, big, rest);
  }

  lemma RestReplaces(q: Prices, total: int64, legs: seq<Leg>, big: Leg, rest: int64)
    requires Covers(q, legs) && big in legs && q.Keys == (set l | l in legs)
    requires Wrap(q[big] + Wrap(total - SumOver(q, legs))) == rest
    ensures WithRemainder(q, total, legs, big) == q[big := rest] && q[big := rest].Keys == (set l | l in legs)
  {
  }

  lemma PartsBy(q: Prices, legs: seq<Leg>, big: Leg, x: Leg, y: Leg)
    requires big in legs && big in q && big != x && big != y && x != y
    ensures At(q, legs, Transport) + At(q, legs, Equipment) + At(q, legs, Labor)
         == q[big] + At(q, legs, x) + At(q, legs, y)
  {
  }

  lemma Closing(part: int, sum: int, total: int, rest: int)
    requires rest == total - (sum - part) && MIN <= rest <= MAX
    ensures Wrap(part + Wrap(total - sum)) == rest
  {
    WrapAdd(total - sum, part);
  }

  lemma PartTruncates(b: Breakdown, total: int64, legs: seq<Leg>, l: Leg)
    requires legs != [] && NoWrap(b, total, legs) && SumOver(Weights(b, legs), legs) > 0
    ensures var a := total * At(Weights(b, legs), legs, l);
            && IsTrunc(At(Parts(b, total, legs), legs, l), a, SumOver(Weights(b, legs), legs))
            && -MAX <= a <= MAX
  {
    if l in legs {
      MulInRange(total, b.For(l));
      TruncParts(Mul(total, b.For(l)), WeightSum(b, legs));
    }
  }

  lemma LargestIsPositive(b: Breakdown, legs: seq<Leg>, big: Leg, x: Leg, y: Leg)
    requires legs != [] && Distinct(legs) && SumOver(Weights(b, legs), legs) > 0
    requires big == Largest(b, legs) && big != x && big != y && x != y
    ensures var w := Weights(b, legs);
            && big in legs
            && At(w, legs, big) > 0
            && SumOver(w, legs) == At(w, legs, big) + At(w, legs, x) + At(w, legs, y)
  {
    var w := Weights(b, legs);
    SumByLeg(w, legs);
    var i := LargestAt(b, legs, |legs|);
    forall l | l in legs
      ensures b.For(l) <= b.For(big)
    {
      var j :| 0 <= j < |legs| && legs[j] == l;
      assert j < i ==> b.For(legs[j]) < b.For(legs[i]);
    }
  }

  lemma Leftover(total: int, W: int, w1: int, w2: int, w3: int, q2: int, q3: int)
    requires W == w1 + w2 + w3 > 0 && w1 > 0
    requires IsTrunc(q2, total * w2, W) && IsTrunc(q3, total * w3, W)
    requires -MAX <= total * w1 <= MAX
    ensures total >= 0 ==> total - q2 - q3 >= 0 && total * w1 >= 0
    ensures MIN <= total - q2 - q3 <= MAX
  {
    var v := total - q2 - q3;
    assert total * W == total * w1 + total * w2 + total * w3;
    assert v * W == total * W - q2 * W - q3 * W;
    LeftoverBounds(total, W, total * w1, total * w2, total * w3, total * W, q2 * W, q3 * W, v * W);
    if total >= 0 {
      assert total * w1 >= 0;
      assert total == 0 ==> total * w2 == 0 && total * w3 == 0;
      assert total >= 1 ==> total * W >= W;
      LeftoverSign(v, W);
    }
    LeftoverFits(v, W);
  }

  /** The same in products already multiplied out. */
  lemma LeftoverBounds(total: int, W: int, a1: int, a2: int, a3: int, all: int, p2: int, p3: int, vW: int)
    requires W > 0 && all == a1 + a2 + a3 && vW == all - p2 - p3
    requires (a2 >= 0 ==> p2 <= a2 < p2 + W) && (a2 < 0 ==> p2 - W < a2 <= p2)
    requires (a3 >= 0 ==> p3 <= a3 < p3 + W) && (a3 < 0 ==> p3 - W < a3 <= p3)
    requires -MAX <= a1 <= MAX
    ensures -MAX - 2 * W + 2 <= vW <= MAX + 2 * W - 2
    ensures a1 >= 0 && (a2 >= 0 || a3 >= 0) ==> vW > -W
    ensures a2 < 0 && a3 < 0 && all >= W ==> vW > -W
  {
  }

  lemma LeftoverSign(v: int, W: int)
    requires W > 0 && v * W > -W
    ensures v >= 0
  {
    Monotone(v, -1, W);
  }

  lemma Monotone(x: int, y: int, W: int)
    requires W > 0
    ensures x <= y ==> x * W <= y * W
    ensures x >= y ==> x * W >= y * W
  {
  }

  lemma LeftoverFits(v: int, W: int)
    requires W > 0 && -MAX - 2 * W + 2 <= v * W <= MAX + 2 * W - 2
    ensures MIN <= v <= MAX
  {
    Monotone(v, MAX + 1, W);
    Monotone(v, MIN - 1, W);
  }

  lemma NegativeQuotient(q: int, a: int, W: int)
    requires W > 0 && IsTrunc(q, a, W)
    ensures q < 0 <==> a <= -W
  {
    if q < 0 {
      assert q * W <= -W;
    } else {
      assert q * W >= 0;
    }
  }

  lemma SignsMatch(b: Breakdown, total: int64, legs: seq<Leg>, split: Prices, big: Leg, x: Leg, y: Leg, W: int,
                   qx: int, qy: int)
    requires big in legs && big != x && big != y && x != y && W == SumOver(Weights(b, legs), legs) > 0
    requires split.Keys == (set l | l in legs) && split[big] == total - qx - qy
    requires total >= 0 ==> total - qx - qy >= 0
    requires (x in legs ==> split[x] == qx && (qx < 0 <==> total * b.For(x) <= -W)) && (x !in legs ==> qx == 0)
    requires (y in legs ==> split[y] == qy && (qy < 0 <==> total * b.For(y) <= -W)) && (y !in legs ==> qy == 0)
    requires total >= 0 ==> total * b.For(big) >= 0
    ensures AllNonNegative(split) <==> SafeWeights(b, total, legs)
  {
    assert forall l: Leg :: l in legs ==> l == big || l == x || l == y;
  }

  // ---- every share --------------------------------------------------------------------------------

  /** Every leg but the first of the heaviest: a part of the total by weight, truncated; or, when the
      weights sum to nothing, one as large as the next. */
  lemma EveryShare(b: Breakdown, total: int64, legs: seq<Leg>, heaviest: nat, l: Leg)
    requires Distinct(legs) && IsFirstLargest(b, legs, |legs|, heaviest) && l in legs && l != legs[heaviest]
    ensures var split, W := Split(b, total, legs), Wrap(SumOver(Weights(b, legs), legs));
            && l in split
            && if W > 0 then IsTrunc(split[l], Wrap(total * b.For(l)), W) else IsTrunc(split[l], total, |legs|)
  {
    SameLargest(b, legs, heaviest);
    AtMostThree(legs);
    if WeightSum(b, legs) > 0 {
      MulIsWrappedProduct(total, b.For(l));
      TruncParts(Mul(total, b.For(l)), WeightSum(b, legs));
    } else {
      TruncParts(total, |legs|);
    }
  }

  lemma SameLargest(b: Breakdown, legs: seq<Leg>, i: nat)
    requires legs != [] && IsFirstLargest(b, legs, |legs|, i)
    ensures Largest(b, legs) == legs[i]
  {
    var j := LargestAt(b, legs, |legs|);
    assert j == i;
  }
}
