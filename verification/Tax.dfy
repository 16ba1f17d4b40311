/** The tax engine: which rule pack applies, and the progressive computation. */
module Tax {
  import opened Wrappers

  /** max None is the open top. */
  datatype Bracket = Bracket(min: real, max: Option<real>, rate: real)

  function Min(a: real, b: real): real { if a <= b then a else b }

  function Pos(a: real): real { if a > 0.0 then a else 0.0 }

  /** What one bracket takes of what remains. */
  function Taxed(b: Bracket, remaining: real): real
  {
    Pos(Min(remaining, if b.max.Some? then b.max.value - b.min else remaining))
  }

  /** What an amount inside a bracket is charged. */
  type Charge = (Bracket, real) -> real

  function AtRate(b: Bracket, amount: real): real { amount * b.rate }

  function Whole(b: Bracket, amount: real): real { amount }

  /** The brackets in order, stopping as soon as nothing remains. */
  function EarlyExit(bs: seq<Bracket>, remaining: real, charge: Charge): real
  {
    if bs == [] then 0.0
    else
      var taxed := Taxed(bs[0], remaining);
      charge(bs[0], taxed) + if remaining - taxed <= 0.0 then 0.0 else EarlyExit(bs[1..], remaining - taxed, charge)
  }

  function ProgressiveTax(bs: seq<Bracket>, gain: real): real { EarlyExit(bs, gain, AtRate) }

  lemma ExitStep(bs: seq<Bracket>, i: nat, remaining: real, charge: Charge)
    requires i < |bs|
    ensures var taxed := Taxed(bs[i], remaining);
      EarlyExit(bs[i..], remaining, charge)
      == charge(bs[i], taxed)
         + if remaining - taxed <= 0.0 then 0.0 else EarlyExit(bs[i + 1..], remaining - taxed, charge)
  {
    assert bs[i..][1..] == bs[i + 1..];
  }

  /** _calculate_progressive, before rounding */
  method Progressive(bs: seq<Bracket>, gain: real) returns (tax: real)
    ensures tax == ProgressiveTax(bs, gain)
  {
    var remaining := gain;
    tax := 0.0;
    var i := 0;
    assert bs[0..] == bs;
    while i < |bs|
      invariant 0 <= i <= |bs|
      invariant tax + EarlyExit(bs[i..], remaining, AtRate) == ProgressiveTax(bs, gain)
    {
      ExitStep(bs, i, remaining, AtRate);
      var width := if bs[i].max.Some? then bs[i].max.value - bs[i].min else remaining;
      var taxed := if remaining <= width then remaining else width;
      if taxed < 0.0 { taxed := 0.0; }
      assert taxed == Taxed(bs[i], remaining);
      tax := tax + AtRate(bs[i], taxed);
      remaining := remaining - taxed;
      if remaining <= 0.0 { return; }
      i := i + 1;
    }
  }

  // ------------------------------------------------------------ the closed form

  /** Brackets that start at zero, meet end to end and leave the top open. */
  ghost predicate Contiguous(bs: seq<Bracket>)
  {
    && bs != [] && bs[0].min == 0.0 && bs[|bs| - 1].max == None
    && forall i :: 0 <= i < |bs| - 1 ==> bs[i].max == Some(bs[i + 1].min) && bs[i].min <= bs[i + 1].min
  }

  /** The part of the gain that falls in a bracket. */
  function Slice(b: Bracket, gain: real): real
  {
    if b.max.None? then Pos(gain - b.min) else Pos(Min(gain - b.min, b.max.value - b.min))
  }

  function SliceTax(bs: seq<Bracket>, gain: real, charge: Charge): real
  {
    if bs == [] then 0.0
    else SliceTax(bs[..|bs| - 1], gain, charge) + charge(bs[|bs| - 1], Slice(bs[|bs| - 1], gain))
  }

  lemma {:induction false} NothingAbove(bs: seq<Bracket>, n: nat, m: nat, gain: real, charge: Charge)
    requires Contiguous(bs) && n <= m <= |bs| && (n < |bs| ==> gain <= bs[n].min)
    requires forall b :: charge(b, 0.0) == 0.0
    ensures SliceTax(bs[..m], gain, charge) == SliceTax(bs[..n], gain, charge)
    ensures m < |bs| ==> gain <= bs[m].min
    decreases m - n
  {
    if n < m {
      NothingAbove(bs, n, m - 1, gain, charge);
      assert bs[..m][..m - 1] == bs[..m - 1];
      assert Slice(bs[m - 1], gain) == 0.0;
    }
  }

  lemma TaxedIsSlice(bs: seq<Bracket>, n: nat, gain: real)
    requires Contiguous(bs) && n < |bs| && gain >= bs[n].min
    ensures Taxed(bs[n], gain - bs[n].min) == Slice(bs[n], gain)
    ensures gain - bs[n].min - Slice(bs[n], gain) <= 0.0 <==> n == |bs| - 1 || gain <= bs[n + 1].min
    ensures n < |bs| - 1 && gain > bs[n + 1].min ==> gain - bs[n].min - Slice(bs[n], gain) == gain - bs[n + 1].min
  {
  }

  lemma {:induction false} ExitFrom(bs: seq<Bracket>, n: nat, gain: real, charge: Charge)
    requires Contiguous(bs) && n < |bs| && gain >= bs[n].min
    requires forall b :: charge(b, 0.0) == 0.0
    ensures SliceTax(bs[..n], gain, charge) + EarlyExit(bs[n..], gain - bs[n].min, charge) == SliceTax(bs, gain, charge)
    decreases |bs| - n
  {
    TaxedIsSlice(bs, n, gain);
    ExitStep(bs, n, gain - bs[n].min, charge);
    assert SliceTax(bs[..n + 1], gain, charge) == SliceTax(bs[..n], gain, charge) + charge(bs[n], Slice(bs[n], gain))
    by {
      assert bs[..n + 1][..n] == bs[..n];
    }
    assert bs[..|bs|] == bs;
    if n == |bs| - 1 || gain <= bs[n + 1].min {
      NothingAbove(bs, n + 1, |bs|, gain, charge);
    } else {
      ExitFrom(bs, n + 1, gain, charge);
    }
  }

  /** The early-exit loop is the sum over all brackets of what the part of the
      gain inside the bracket is charged. */
  lemma LoopIsSliceTax(bs: seq<Bracket>, gain: real, charge: Charge)
    requires Contiguous(bs) && gain >= 0.0
    requires forall b :: charge(b, 0.0) == 0.0
    ensures EarlyExit(bs, gain, charge) == SliceTax(bs, gain, charge)
  {
    assert bs[0..] == bs && bs[..0] == [];
    ExitFrom(bs, 0, gain, charge);
  }

  lemma {:induction false} SlicesUpTo(bs: seq<Bracket>, n: nat, gain: real)
    requires Contiguous(bs) && 1 <= n <= |bs| && gain >= 0.0
    ensures SliceTax(bs[..n], gain, Whole) == if n < |bs| then Min(gain, bs[n].min) else gain
    ensures n < |bs| ==> bs[n].min >= 0.0
  {
    assert bs[..n][..n - 1] == bs[..n - 1];
    if n > 1 { SlicesUpTo(bs, n - 1, gain); }
  }

  /** Exactly the whole gain is taxed. */
  lemma WholeGainTaxed(bs: seq<Bracket>, gain: real)
    requires Contiguous(bs) && gain >= 0.0
    ensures EarlyExit(bs, gain, Whole) == gain
  {
    assert bs[..|bs|] == bs;
    SlicesUpTo(bs, |bs|, gain);
    LoopIsSliceTax(bs, gain, Whole);
  }

  lemma MultiplyMonotone(a: real, b: real, rate: real)
    requires a <= b && rate >= 0.0
    ensures a * rate <= b * rate && rate * a <= rate * b
  {
    assert (b - a) * rate >= 0.0;
  }

  ghost predicate ChargedAtMost(b: Bracket, g1: real, g2: real, c1: Charge, c2: Charge)
  {
    c1(b, Slice(b, g1)) <= c2(b, Slice(b, g2))
  }

  lemma {:induction false} ChargedLess(bs: seq<Bracket>, g1: real, g2: real, c1: Charge, c2: Charge)
    requires forall b :: b in bs ==> ChargedAtMost(b, g1, g2, c1, c2)
    ensures SliceTax(bs, g1, c1) <= SliceTax(bs, g2, c2)
  {
    if bs != [] {
      assert ChargedAtMost(bs[|bs| - 1], g1, g2, c1, c2);
      ChargedLess(bs[..|bs| - 1], g1, g2, c1, c2);
    }
  }

  function Flat(rate: real): Charge { (b: Bracket, amount: real) => amount * rate }

  lemma LessTimes(whole: real, part: real, rate: real, line: real)
    requires line == whole * rate
    ensures line - part * rate == (whole - part) * rate
  {
  }

  lemma NoneTimes(whole: real, rate: real, line: real)
    requires whole == 0.0 && line == whole * rate
    ensures line == 0.0
  {
  }

  lemma FlatCharge(rate: real, b: Bracket, amount: real)
    ensures Flat(rate)(b, amount) == amount * rate
  {
  }

  /** A flat charge is the rate times what is charged. */
  lemma {:induction false} FlatTax(bs: seq<Bracket>, gain: real, rate: real, whole: real, line: real)
    requires whole == SliceTax(bs, gain, Whole) && line == whole * rate
    ensures SliceTax(bs, gain, Flat(rate)) == line
  {
    if bs == [] {
      NoneTimes(whole, rate, line);
    } else {
      var init, last := bs[..|bs| - 1], bs[|bs| - 1];
      var x := Slice(last, gain);
      LessTimes(whole, x, rate, line);
      FlatCharge(rate, last, x);
      FlatTax(init, gain, rate, whole - x, line - x * rate);
    }
  }

  function Free(b: Bracket, amount: real): real { 0.0 }

  lemma {:induction false} FreeTax(bs: seq<Bracket>, gain: real)
    ensures SliceTax(bs, gain, Free) == 0.0
  {
    if bs != [] { FreeTax(bs[..|bs| - 1], gain); }
  }

  lemma SliceGrows(b: Bracket, g1: real, g2: real)
    requires g1 <= g2
    ensures 0.0 <= Slice(b, g1) <= Slice(b, g2)
  {
  }

  lemma ChargeBounds(b: Bracket, x1: real, x2: real, top: real)
    requires 0.0 <= x1 <= x2 && 0.0 <= b.rate <= top
    ensures 0.0 <= AtRate(b, x1) <= AtRate(b, x2) <= Flat(top)(b, x2)
  {
    MultiplyMonotone(0.0, b.rate, x1);
    MultiplyMonotone(x1, x2, b.rate);
    MultiplyMonotone(b.rate, top, x2);
    FlatCharge(top, b, x2);
  }

  lemma ChargesGrow(b: Bracket, g1: real, g2: real, top: real)
    requires g1 <= g2 && 0.0 <= b.rate <= top
    ensures ChargedAtMost(b, g1, g1, Free, AtRate)
    ensures ChargedAtMost(b, g1, g2, AtRate, AtRate)
    ensures ChargedAtMost(b, g2, g2, AtRate, Flat(top))
  {
    SliceGrows(b, g1, g2);
    ChargeBounds(b, Slice(b, g1), Slice(b, g2), top);
  }

  /** For any charge: bracket by bracket comparisons carry over to the tax. */
  lemma ComparedByBracket(bs: seq<Bracket>, g1: real, g2: real, c: Charge, flat: Charge, line: real)
    requires Contiguous(bs) && 0.0 <= g1 <= g2 && (forall b :: c(b, 0.0) == 0.0)
    requires forall b :: b in bs ==>
        ChargedAtMost(b, g1, g1, Free, c) && ChargedAtMost(b, g1, g2, c, c) && ChargedAtMost(b, g2, g2, c, flat)
    requires SliceTax(bs, g2, flat) == line
    ensures 0.0 <= EarlyExit(bs, g1, c) <= EarlyExit(bs, g2, c) <= line
  {
    FreeTax(bs, g1);
    ChargedLess(bs, g1, g1, Free, c);
    ChargedLess(bs, g1, g2, c, c);
    ChargedLess(bs, g2, g2, c, flat);
    LoopIsSliceTax(bs, g1, c);
    LoopIsSliceTax(bs, g2, c);
  }

  lemma FlatTaxOfWhole(bs: seq<Bracket>, gain: real, rate: real, line: real)
    requires Contiguous(bs) && gain >= 0.0 && line == gain * rate
    ensures SliceTax(bs, gain, Flat(rate)) == line
  {
    WholeGainTaxed(bs, gain);
    LoopIsSliceTax(bs, gain, Whole);
    FlatTax(bs, gain, rate, gain, line);
  }

  /** More gain never means less tax, and the top rate bounds it. */
  lemma TaxMonotoneAndBounded(bs: seq<Bracket>, g1: real, g2: real, top: real)
    requires Contiguous(bs) && 0.0 <= g1 <= g2 && forall b :: b in bs ==> 0.0 <= b.rate <= top
    ensures 0.0 <= ProgressiveTax(bs, g1) <= ProgressiveTax(bs, g2) <= g2 * top
  {
    var line := g2 * top;
    FlatTaxOfWhole(bs, g2, top, line);
    forall b | b in bs
      ensures ChargedAtMost(b, g1, g1, Free, AtRate) && ChargedAtMost(b, g1, g2, AtRate, AtRate)
          && ChargedAtMost(b, g2, g2, AtRate, Flat(top))
    {
      ChargesGrow(b, g1, g2, top);
    }
    ComparedByBracket(bs, g1, g2, AtRate, Flat(top), line);
  }

  // ------------------------------------------------------------ the effective rate

  /** The bracket a gain ends in. */
  function BracketOf(bs: seq<Bracket>, gain: real, k: nat): nat
    requires k < |bs|
    decreases |bs| - k
  {
    if k == |bs| - 1 || gain <= bs[k + 1].min then k else BracketOf(bs, gain, k + 1)
  }

  lemma {:induction false} BracketOfHolds(bs: seq<Bracket>, gain: real, k: nat)
    requires Contiguous(bs) && k < |bs| && gain >= bs[k].min
    ensures EndsIn(bs, gain, BracketOf(bs, gain, k))
    decreases |bs| - k
  {
    if k < |bs| - 1 && gain > bs[k + 1].min { BracketOfHolds(bs, gain, k + 1); }
  }

  lemma {:induction false} ThresholdsGrow(bs: seq<Bracket>, i: nat, j: nat)
    requires Contiguous(bs) && i <= j < |bs|
    ensures bs[i].min <= bs[j].min
    decreases j - i
  {
    if i < j { ThresholdsGrow(bs, i, j - 1); assert bs[j - 1].min <= bs[j - 1 + 1].min; }
  }

  ghost predicate RatesNeverFall(bs: seq<Bracket>)
  {
    forall j :: 0 <= j < |bs| - 1 ==> bs[j].rate <= bs[j + 1].rate
  }

  lemma {:induction false} RatesGrow(bs: seq<Bracket>, i: nat, j: nat)
    requires i <= j < |bs| && RatesNeverFall(bs)
    ensures bs[i].rate <= bs[j].rate
    decreases j - i
  {
    if i < j { RatesGrow(bs, i, j - 1); assert bs[j - 1].rate <= bs[j - 1 + 1].rate; }
  }

  ghost predicate EndsIn(bs: seq<Bracket>, gain: real, k: nat)
  {
    k < |bs| && bs[k].min <= gain && (k < |bs| - 1 ==> gain <= bs[k + 1].min)
  }

  /** Below the bracket the gain ends in slices are full, above it they are empty. */
  lemma SlicesAround(bs: seq<Bracket>, g1: real, g2: real, k: nat, i: nat)
    requires Contiguous(bs) && i < |bs| && g1 <= g2 && EndsIn(bs, g1, k)
    ensures i < k ==> Slice(bs[i], g1) == Slice(bs[i], g2)
    ensures i > k ==> Slice(bs[i], g1) == 0.0
  {
    if i < k { ThresholdsGrow(bs, i + 1, k); }
    if i > k { ThresholdsGrow(bs, k + 1, i); }
  }

  /** Charging g1 by c1 and g2 by c2 costs no more than the other way round. */
  ghost predicate PairCharged(b: Bracket, g1: real, g2: real, c1: Charge, c2: Charge)
  {
    c1(b, Slice(b, g1)) + c2(b, Slice(b, g2)) <= c1(b, Slice(b, g2)) + c2(b, Slice(b, g1))
  }

  lemma {:induction false} PairsCharged(bs: seq<Bracket>, g1: real, g2: real, c1: Charge, c2: Charge)
    requires forall i :: 0 <= i < |bs| ==> PairCharged(bs[i], g1, g2, c1, c2)
    ensures SliceTax(bs, g1, c1) + SliceTax(bs, g2, c2) <= SliceTax(bs, g2, c1) + SliceTax(bs, g1, c2)
  {
    if bs != [] {
      var init := bs[..|bs| - 1];
      assert forall i :: 0 <= i < |init| ==> init[i] == bs[i];
      PairsCharged(init, g1, g2, c1, c2);
    }
  }

  lemma Rearranged(x1: real, x2: real, rate: real, r: real)
    requires (rate >= r && x1 <= x2) || x1 == x2
    ensures x1 * rate + x2 * r <= x2 * rate + x1 * r
  {
    if x1 != x2 {
      MultiplyMonotone(x1, x2, rate - r);
      assert x1 * (rate - r) == x1 * rate - x1 * r;
      assert x2 * (rate - r) == x2 * rate - x2 * r;
    }
  }

  lemma RearrangedCharges(b: Bracket, x1: real, x2: real, r: real)
    requires (b.rate >= r && x1 <= x2) || x1 == x2
    ensures AtRate(b, x1) + Flat(r)(b, x2) <= AtRate(b, x2) + Flat(r)(b, x1)
  {
    Rearranged(x1, x2, b.rate, r);
    FlatCharge(r, b, x1);
    FlatCharge(r, b, x2);
  }

  lemma ChargeUnder(b: Bracket, x: real, r: real)
    requires (b.rate <= r && x >= 0.0) || x == 0.0
    ensures AtRate(b, x) <= Flat(r)(b, x)
  {
    if x != 0.0 { MultiplyMonotone(b.rate, r, x); }
    FlatCharge(r, b, x);
  }

  lemma ChargedUnderLine(bs: seq<Bracket>, gain: real, k: nat, i: nat)
    requires Contiguous(bs) && EndsIn(bs, gain, k) && i < |bs| && RatesNeverFall(bs)
    ensures ChargedAtMost(bs[i], gain, gain, AtRate, Flat(bs[k].rate))
  {
    SlicesAround(bs, gain, gain, k, i);
    SliceGrows(bs[i], gain, gain);
    if i <= k { RatesGrow(bs, i, k); }
    ChargeUnder(bs[i], Slice(bs[i], gain), bs[k].rate);
  }

  lemma RatesAndSlices(bs: seq<Bracket>, g1: real, g2: real, k: nat, i: nat)
    requires Contiguous(bs) && g1 <= g2 && EndsIn(bs, g1, k) && i < |bs| && RatesNeverFall(bs)
    ensures var x1, x2 := Slice(bs[i], g1), Slice(bs[i], g2); (bs[i].rate >= bs[k].rate && x1 <= x2) || x1 == x2
  {
    SlicesAround(bs, g1, g2, k, i);
    SliceGrows(bs[i], g1, g2);
    if i >= k { RatesGrow(bs, k, i); }
  }

  lemma ChargedAboveLine(bs: seq<Bracket>, g1: real, g2: real, k: nat, i: nat)
    requires Contiguous(bs) && g1 <= g2 && EndsIn(bs, g1, k) && i < |bs| && RatesNeverFall(bs)
    ensures PairCharged(bs[i], g1, g2, AtRate, Flat(bs[k].rate))
  {
    RatesAndSlices(bs, g1, g2, k, i);
    RearrangedCharges(bs[i], Slice(bs[i], g1), Slice(bs[i], g2), bs[k].rate);
  }

  lemma ChargedAroundLine(bs: seq<Bracket>, g1: real, g2: real, k: nat)
    requires Contiguous(bs) && g1 <= g2 && EndsIn(bs, g1, k) && RatesNeverFall(bs)
    ensures forall b :: b in bs ==> ChargedAtMost(b, g1, g1, AtRate, Flat(bs[k].rate))
    ensures forall i :: 0 <= i < |bs| ==> PairCharged(bs[i], g1, g2, AtRate, Flat(bs[k].rate))
  {
    forall b | b in bs ensures ChargedAtMost(b, g1, g1, AtRate, Flat(bs[k].rate)) {
      var i :| 0 <= i < |bs| && bs[i] == b;
      ChargedUnderLine(bs, g1, k, i);
    }
    forall i | 0 <= i < |bs| ensures PairCharged(bs[i], g1, g2, AtRate, Flat(bs[k].rate)) {
      ChargedAboveLine(bs, g1, g2, k, i);
    }
  }

  /** For any charge: a line that bounds the brackets' charges up to g1 and grows
      no faster than they do beyond it. */
  lemma LineByBracket(bs: seq<Bracket>, g1: real, g2: real, c: Charge, flat: Charge, line1: real, line2: real)
    requires Contiguous(bs) && 0.0 <= g1 <= g2 && (forall b :: c(b, 0.0) == 0.0)
    requires forall b :: b in bs ==> ChargedAtMost(b, g1, g1, c, flat)
    requires forall i :: 0 <= i < |bs| ==> PairCharged(bs[i], g1, g2, c, flat)
    requires SliceTax(bs, g1, flat) == line1 && SliceTax(bs, g2, flat) == line2
    ensures EarlyExit(bs, g1, c) <= line1
    ensures EarlyExit(bs, g1, c) + line2 <= EarlyExit(bs, g2, c) + line1
  {
    ChargedLess(bs, g1, g1, c, flat);
    PairsCharged(bs, g1, g2, c, flat);
    LoopIsSliceTax(bs, g1, c);
    LoopIsSliceTax(bs, g2, c);
  }

  /** With r the rate of the bracket g1 ends in, its tax is at most r * g1, and
      from there on the tax grows at least at rate r. */
  lemma TaxLine(bs: seq<Bracket>, g1: real, g2: real, k: nat, line1: real, line2: real)
    requires Contiguous(bs) && 0.0 <= g1 <= g2 && EndsIn(bs, g1, k) && RatesNeverFall(bs)
    requires line1 == g1 * bs[k].rate && line2 == g2 * bs[k].rate
    ensures ProgressiveTax(bs, g1) <= line1
    ensures ProgressiveTax(bs, g1) + line2 <= ProgressiveTax(bs, g2) + line1
  {
    var rate := bs[k].rate;
    FlatTaxOfWhole(bs, g1, rate, line1);
    FlatTaxOfWhole(bs, g2, rate, line2);
    ChargedAroundLine(bs, g1, g2, k);
    LineByBracket(bs, g1, g2, AtRate, Flat(rate), line1, line2);
  }

  lemma ChordRatio(t1: real, t2: real, r: real, g1: real, g2: real)
    requires 0.0 < g1 <= g2 && t1 <= g1 * r && t1 + g2 * r <= t2 + g1 * r
    ensures t1 / g1 <= t2 / g2
  {
    var d := g2 - g1;
    assert t1 + d * r <= t2;
    MultiplyMonotone(t1, g1 * r, d);
    MultiplyMonotone(t1 + d * r, t2, g1);
    assert t1 * g2 == t1 * g1 + t1 * d;
    assert (t1 + d * r) * g1 == t1 * g1 + (g1 * r) * d;
    CrossMultiply(t1, t2, g1, g2);
  }

  lemma CrossMultiply(a: real, b: real, g1: real, g2: real)
    requires g1 > 0.0 && g2 > 0.0 && a * g2 <= b * g1
    ensures a / g1 <= b / g2
  {
    assert a / g1 == (a * g2) / (g1 * g2);
    assert b / g2 == (b * g1) / (g1 * g2);
  }

  /** With rates that never fall, the unrounded effective rate never falls as the
      gain grows. */
  lemma EffectiveRateGrows(bs: seq<Bracket>, g1: real, g2: real)
    requires Contiguous(bs) && 0.0 < g1 <= g2 && RatesNeverFall(bs)
    ensures ProgressiveTax(bs, g1) / g1 <= ProgressiveTax(bs, g2) / g2
  {
    var k := BracketOf(bs, g1, 0);
    BracketOfHolds(bs, g1, 0);
    TaxLine(bs, g1, g2, k, g1 * bs[k].rate, g2 * bs[k].rate);
    ChordRatio(ProgressiveTax(bs, g1), ProgressiveTax(bs, g2), bs[k].rate, g1, g2);
  }

  // ------------------------------------------------------------ choosing the rule pack

  datatype Pack = Pack(
    country: string, grantType: string, start: int, rule: string, flatRate: Option<real>, brackets: seq<Bracket>)

  datatype Reason = NeverModeled | NoRuleEffective | NoDetailRows | InvalidMethod

  predicate Matches(p: Pack, country: string, grantType: string) { p.country == country && p.grantType == grantType }

  predicate Applies(p: Pack, country: string, grantType: string, day: int)
  {
    Matches(p, country, grantType) && p.start <= day
  }

  /** ORDER BY effective_start_date DESC, first row. */
  function Latest(packs: seq<Pack>, country: string, grantType: string, day: int): Option<Pack>
  {
    if packs == [] then None
    else
      var rest, last := Latest(packs[..|packs| - 1], country, grantType, day), packs[|packs| - 1];
      var better := Applies(last, country, grantType, day) && (rest.None? || last.start > rest.value.start);
      if better then Some(last) else rest
  }

  lemma {:induction false} LatestIsLatest(packs: seq<Pack>, country: string, grantType: string, day: int)
    ensures var r := Latest(packs, country, grantType, day);
      && (r.None? <==> forall p :: p in packs ==> !Applies(p, country, grantType, day))
      && (r.Some? ==> r.value in packs && Applies(r.value, country, grantType, day)
                      && forall p :: p in packs && Applies(p, country, grantType, day) ==> p.start <= r.value.start)
  {
    if packs != [] {
      assert packs == packs[..|packs| - 1] + [packs[|packs| - 1]];
      LatestIsLatest(packs[..|packs| - 1], country, grantType, day);
    }
  }

  ghost predicate UniqueStarts(packs: seq<Pack>, country: string, grantType: string)
  {
    forall p, q :: p in packs && q in packs ==>
      Matches(p, country, grantType) && Matches(q, country, grantType) && p.start == q.start ==> p == q
  }

  /** UNIQUE(country, grant type, start) leaves the database no choice. */
  lemma LatestIsDetermined(packs: seq<Pack>, others: seq<Pack>, country: string, grantType: string, day: int)
    requires multiset(packs) == multiset(others)
    requires UniqueStarts(packs, country, grantType)
    ensures Latest(packs, country, grantType, day) == Latest(others, country, grantType, day)
  {
    LatestIsLatest(packs, country, grantType, day);
    LatestIsLatest(others, country, grantType, day);
    forall p ensures p in packs <==> p in others {
      assert p in packs <==> p in multiset(packs);
    }
  }

  predicate EverModeled(packs: seq<Pack>, country: string, grantType: string)
  {
    exists p :: p in packs && Matches(p, country, grantType)
  }

  datatype Assessment = Assessment(exact: real, start: int)

  function Outcome(pack: Option<Pack>, ever: bool, gain: real): Result<Assessment, Reason>
  {
    if pack.None? then Err(if ever then NoRuleEffective else NeverModeled)
    else if pack.value.rule == "PROGRESSIVE_BRACKETS" then
      if pack.value.brackets == [] then Err(NoDetailRows)
      else Ok(Assessment(ProgressiveTax(pack.value.brackets, gain), pack.value.start))
    else if pack.value.rule == "FLAT_RATE" then
      if pack.value.flatRate.None? then Err(NoDetailRows)
      else Ok(Assessment(gain * pack.value.flatRate.value, pack.value.start))
    else Err(InvalidMethod)
  }

  /** calculate_tax, before rounding the amount. */
  function Assess(packs: seq<Pack>, country: string, grantType: string, day: int, gain: real)
    : Result<Assessment, Reason>
  {
    Outcome(Latest(packs, country, grantType, day), EverModeled(packs, country, grantType), gain)
  }

  /** A flat rate is one open bracket at that rate. */
  lemma OneBracketIsFlat(rate: real, gain: real)
    requires gain >= 0.0
    ensures ProgressiveTax([Bracket(0.0, None, rate)], gain) == gain * rate
  {
    var b := Bracket(0.0, None, rate);
    assert [b][1..] == [];
    assert Taxed(b, gain) == gain;
    assert AtRate(b, gain) == gain * rate;
  }

  lemma FlatOutcome(p: Pack, ever: bool, gain: real)
    requires gain >= 0.0 && p.rule == "FLAT_RATE" && p.flatRate.Some?
    ensures Outcome(Some(p), ever, gain)
         == Ok(Assessment(ProgressiveTax([Bracket(0.0, None, p.flatRate.value)], gain), p.start))
  {
    var rate := p.flatRate.value;
    OneBracketIsFlat(rate, gain);
    var r := Outcome(Some(p), ever, gain);
    assert r.value.exact == gain * rate;
    assert r.value == Assessment(ProgressiveTax([Bracket(0.0, None, rate)], gain), p.start);
  }

  /** Which amount is assessed, or why none is. Of the packs of the country and
      grant type that had started, p starts last. */
  lemma AssessedBy(packs: seq<Pack>, p: Pack, country: string, grantType: string, day: int, gain: real)
    requires UniqueStarts(packs, country, grantType) && gain >= 0.0
    requires p in packs && p.country == country && p.grantType == grantType && p.start <= day
    requires forall q :: q in packs && q.country == country && q.grantType == grantType && q.start <= day ==>
        q.start <= p.start
    ensures var r := Assess(packs, country, grantType, day, gain);
      && (p.rule == "PROGRESSIVE_BRACKETS" && p.brackets != [] ==>
            r == Ok(Assessment(ProgressiveTax(p.brackets, gain), p.start)))
      && (p.rule == "FLAT_RATE" && p.flatRate.Some? ==>
            r == Ok(Assessment(ProgressiveTax([Bracket(0.0, None, p.flatRate.value)], gain), p.start)))
      && (r == Err(NoDetailRows) <==>
          (p.rule == "PROGRESSIVE_BRACKETS" && p.brackets == []) || (p.rule == "FLAT_RATE" && p.flatRate.None?))
      && (r == Err(InvalidMethod) <==> p.rule != "PROGRESSIVE_BRACKETS" && p.rule != "FLAT_RATE")
  {
    LatestIsLatest(packs, country, grantType, day);
    assert Applies(p, country, grantType, day);
    assert Latest(packs, country, grantType, day) == Some(p);
    if p.rule == "FLAT_RATE" && p.flatRate.Some? {
      FlatOutcome(p, EverModeled(packs, country, grantType), gain);
    }
  }

  /** With no pack started nothing is assessed, and the reason says whether the
      track was ever modelled. */
  lemma NothingAssessed(packs: seq<Pack>, country: string, grantType: string, day: int, gain: real)
    requires forall q :: q in packs && q.country == country && q.grantType == grantType ==> q.start > day
    ensures Assess(packs, country, grantType, day, gain)
         == Err(if exists q :: q in packs && q.country == country && q.grantType == grantType
                then NoRuleEffective else NeverModeled)
  {
    LatestIsLatest(packs, country, grantType, day);
    if q :| q in packs && q.country == country && q.grantType == grantType { assert Matches(q, country, grantType); }
  }

  /** Publishing a pack that starts after the exercise never changes an amount;
      the outcome differs only when the track had no pack at all, and then only
      in the reason given. */
  lemma FuturePackIff(packs: seq<Pack>, pack: Pack, country: string, grantType: string, day: int, gain: real)
    requires pack.start > day
    ensures Assess(packs + [pack], country, grantType, day, gain) == Assess(packs, country, grantType, day, gain)
      <==> !(Matches(pack, country, grantType) && !EverModeled(packs, country, grantType))
    ensures Assess(packs + [pack], country, grantType, day, gain) != Assess(packs, country, grantType, day, gain) ==>
      Assess(packs, country, grantType, day, gain) == Err(NeverModeled)
      && Assess(packs + [pack], country, grantType, day, gain) == Err(NoRuleEffective)
  {
    assert (packs + [pack])[..|packs|] == packs;
    assert Latest(packs + [pack], country, grantType, day) == Latest(packs, country, grantType, day);
    EverModeledWith(packs, pack, country, grantType);
    LatestIsLatest(packs, country, grantType, day);
    var latest := Latest(packs, country, grantType, day);
    if latest.Some? {
      assert Matches(latest.value, country, grantType);
      assert EverModeled(packs, country, grantType);
    }
  }

  lemma EverModeledWith(packs: seq<Pack>, pack: Pack, country: string, grantType: string)
    ensures EverModeled(packs + [pack], country, grantType)
        <==> EverModeled(packs, country, grantType) || Matches(pack, country, grantType)
  {
    if p :| p in packs && Matches(p, country, grantType) { assert p in packs + [pack]; }
    assert pack in packs + [pack];
  }
}
