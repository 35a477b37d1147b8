/**
 * Spread arithmetic (internal/engine/spread.go).
 *
 * A decimal is modelled by its exact value. Add, Sub and Mul are exact; Div rounds the exact quotient
 * to 16 fractional digits, half away from zero.
 */
module Spread {
  import opened Common

  /** n units in the last place that a division keeps, the 16th fractional digit. */
  function Ulps(n: real): real { n / 10_000_000_000_000_000.0 }

  function InUlps(x: real): real { x * 10_000_000_000_000_000.0 }

  datatype SpreadBounds = SpreadBounds(min: real, max: real)

  const DEFAULT_SPREAD_BOUNDS := SpreadBounds(0.003, 0.010)

  datatype SpreadError = InvalidMidPrice | SpreadOutOfBounds

  datatype Quote = Quote(bid: real, ask: real)

  /** What a call of EffectiveSpread can do: the library's Div panics on a zero divisor. */
  datatype Effective = Spread(value: real) | Rejected(error: SpreadError) | DivisionByZero

  predicate IsInteger(x: real) { x == x.Floor as real }

  /** x has at most 16 fractional digits. */
  predicate Has16Digits(x: real) { IsInteger(InUlps(x)) }

  /** x has at most 15 fractional digits. */
  predicate Has15Digits(x: real) { IsInteger(InUlps(x) / 10.0) }

  function RoundHalfAway(x: real): int {
    if x >= 0.0 then (x + 0.5).Floor else -(0.5 - x).Floor
  }

  function Round16(x: real): real { Ulps(RoundHalfAway(InUlps(x)) as real) }

  function Div(a: real, b: real): real
    requires b != 0.0
  {
    Round16(a / b)
  }

  function Mul(a: real, b: real): real { a * b }

  function Prices(bounds: SpreadBounds, mid: real, target: real): Result<Quote, SpreadError> {
    if mid <= 0.0 then Err(InvalidMidPrice)
    else if target < bounds.min || target > bounds.max then Err(SpreadOutOfBounds)
    else
      var half := Div(target, 2.0);
      Ok(Quote(Mul(mid, 1.0 - half), Mul(mid, 1.0 + half)))
  }

  function EffectiveSpread(bid: real, ask: real): Effective {
    if ask <= 0.0 then Rejected(InvalidMidPrice)
    else
      var mid := Div(ask + bid, 2.0);
      if mid == 0.0 then DivisionByZero else Spread(Div(ask - bid, mid))
  }

  // ---- Rounding ----

  lemma RoundNearest(x: real)
    ensures -0.5 <= RoundHalfAway(x) as real - x <= 0.5
    ensures IsInteger(x) ==> RoundHalfAway(x) as real == x
  {
    if IsInteger(x) {
      var k := x.Floor;
      assert (k as real + 0.5).Floor == k;
      assert (0.5 - k as real).Floor == -k;
    }
  }

  lemma RoundMonotone(x: real, y: real)
    requires x <= y
    ensures RoundHalfAway(x) <= RoundHalfAway(y)
    ensures y - x >= 1.0 ==> RoundHalfAway(x) < RoundHalfAway(y)
  {
    if x < 0.0 <= y && y - x >= 1.0 {
      if (y + 0.5).Floor == 0 { assert x <= -0.5; }
    }
  }

  lemma Round16Facts(x: real)
    ensures Ulps(-0.5) <= Round16(x) - x <= Ulps(0.5)
    ensures Has16Digits(x) ==> Round16(x) == x
  {
    RoundNearest(InUlps(x));
    var r := RoundHalfAway(InUlps(x)) as real;
    assert InUlps(Round16(x)) == r;
  }

  lemma Round16Monotone(x: real, y: real)
    requires x <= y
    ensures Round16(x) <= Round16(y)
    ensures y - x >= Ulps(1.0) ==> Round16(x) < Round16(y)
  {
    RoundMonotone(InUlps(x), InUlps(y));
  }

  // ---- Products ----

  lemma MulGrows(a: real, b: real, c: real)
    requires a <= b && c >= 0.0
    ensures Mul(a, c) <= Mul(b, c)
    ensures a < b && c > 0.0 ==> Mul(a, c) < Mul(b, c)
  {
    var d := b - a;
    var growth := Mul(d, c);
    assert growth >= 0.0;
    assert Mul(b, c) == Mul(a, c) + growth;
    if a < b && c > 0.0 { assert growth > 0.0; }
  }

  lemma MulSplit(mid: real, half: real)
    ensures Mul(mid, 1.0 - half) == mid - Mul(mid, half)
    ensures Mul(mid, 1.0 + half) == mid + Mul(mid, half)
    ensures mid != 0.0 ==> 2.0 * Mul(mid, half) / mid == 2.0 * half
    ensures mid > 0.0 && half >= 0.0 ==> Mul(mid, half) >= 0.0
    ensures mid > 0.0 && half > 0.0 ==> Mul(mid, half) > 0.0
    ensures mid > 0.0 && half < 1.0 ==> Mul(mid, half) < mid
  {
    assert 2.0 * (mid * half) == (2.0 * half) * mid;
    if mid > 0.0 && half < 1.0 {
      MulGrows(half, 1.0, mid);
    }
  }

  // ---- Prices ----

  /** The two prices sit exactly symmetrically about mid, even when halving the target rounds. */
  lemma PricesSymmetric(bounds: SpreadBounds, mid: real, target: real)
    requires Prices(bounds, mid, target).Ok?
    ensures var q := Prices(bounds, mid, target).value;
            q.bid + q.ask == 2.0 * mid && mid - q.bid == q.ask - mid
  {
    MulSplit(mid, Div(target, 2.0));
  }

  /** For any bounds: which mids and targets are quoted, and which error a refusal gets, that of the mid first. */
  lemma PricesRefusedIff(bounds: SpreadBounds, mid: real, target: real)
    ensures var r := Prices(bounds, mid, target);
            && (r.Ok? <==> mid > 0.0 && bounds.min <= target <= bounds.max)
            && (r == Err(InvalidMidPrice) <==> mid <= 0.0)
            && (r == Err(SpreadOutOfBounds) <==> mid > 0.0 && !(bounds.min <= target <= bounds.max))
  {
  }

  lemma HalfInDefaultBounds(target: real)
    requires 0.003 <= target <= 0.010
    ensures 0.0014 < Div(target, 2.0) < 0.0051
  {
    Round16Facts(target / 2.0);
  }

  /** Under the default bounds exactly the positive mids with a target in [0.003, 0.010] are quoted, and then 0 < bid <
      mid < ask. */
  lemma PricesOrdered(mid: real, target: real)
    ensures var r := Prices(DEFAULT_SPREAD_BOUNDS, mid, target);
            && (r.Ok? <==> mid > 0.0 && 0.003 <= target <= 0.010)
            && (r.Ok? ==> 0.0 < r.value.bid < mid < r.value.ask)
  {
    if mid > 0.0 && 0.003 <= target <= 0.010 {
      HalfInDefaultBounds(target);
      MulSplit(mid, Div(target, 2.0));
    }
  }

  /** Both prices grow strictly with mid. */
  lemma PricesMonotoneInMid(mid: real, mid': real, target: real)
    requires 0.0 < mid < mid'
    requires 0.003 <= target <= 0.010
    ensures var q, q' := Prices(DEFAULT_SPREAD_BOUNDS, mid, target), Prices(DEFAULT_SPREAD_BOUNDS, mid', target);
            q.Ok? && q'.Ok? && q.value.bid < q'.value.bid && q.value.ask < q'.value.ask
  {
    HalfInDefaultBounds(target);
    MulGrows(mid, mid', 1.0 - Div(target, 2.0));
    MulGrows(mid, mid', 1.0 + Div(target, 2.0));
  }

  /** A wider target never narrows the quote, and widens both sides as soon as the targets are two last places apart. */
  lemma PricesMonotoneInTarget(mid: real, target: real, target': real)
    requires mid > 0.0
    requires 0.003 <= target <= target' <= 0.010
    ensures var q, q' := Prices(DEFAULT_SPREAD_BOUNDS, mid, target), Prices(DEFAULT_SPREAD_BOUNDS, mid, target');
            && q.Ok? && q'.Ok?
            && q'.value.bid <= q.value.bid && q.value.ask <= q'.value.ask
            && (target' - target >= Ulps(2.0) ==> q'.value.bid < q.value.bid && q.value.ask < q'.value.ask)
  {
    Round16Monotone(target / 2.0, target' / 2.0);
    MulSplit(mid, Div(target, 2.0));
    MulSplit(mid, Div(target', 2.0));
    MulGrows(Div(target, 2.0), Div(target', 2.0), mid);
    MulCommutes(mid, Div(target, 2.0));
    MulCommutes(mid, Div(target', 2.0));
  }

  lemma MulCommutes(a: real, b: real)
    ensures Mul(a, b) == Mul(b, a)
  {
  }

  // ---- Round trip ----

  /** The inner mid that EffectiveSpread recovers is mid rounded, and the numerator is 2 * mid * half. A quote whose
      half-spread is -1 or less, which bounds with a negative minimum allow, has no positive ask and is rejected. */
  lemma EffectiveOfPrices(bounds: SpreadBounds, mid: real, target: real)
    requires Prices(bounds, mid, target).Ok?
    ensures var q, half := Prices(bounds, mid, target).value, Div(target, 2.0);
            && mid > 0.0 && (q.ask > 0.0 <==> half > -1.0)
            && EffectiveSpread(q.bid, q.ask) ==
               if half <= -1.0 then Rejected(InvalidMidPrice)
               else if Round16(mid) == 0.0 then DivisionByZero
               else Spread(Round16(2.0 * Mul(mid, half) / Round16(mid)))
  {
    MulSplit(mid, Div(target, 2.0));
    MulSign(mid, 1.0 + Div(target, 2.0));
  }

  lemma MulSign(mid: real, x: real)
    requires mid > 0.0
    ensures Mul(mid, x) > 0.0 <==> x > 0.0
  {
    MulCommutes(mid, x);
    MulCommutes(mid, 0.0);
    if x > 0.0 { MulGrows(0.0, x, mid); } else { MulGrows(x, 0.0, mid); }
  }

  /** Round trip: on mids of at most 16 fractional digits the result is twice the rounded half-spread, unless there is
      no positive ask. */
  lemma RoundTrip(bounds: SpreadBounds, mid: real, target: real)
    requires Prices(bounds, mid, target).Ok? && Has16Digits(mid)
    ensures var q, half := Prices(bounds, mid, target).value, Div(target, 2.0);
            EffectiveSpread(q.bid, q.ask) == if half <= -1.0 then Rejected(InvalidMidPrice) else Spread(2.0 * half)
  {
    hide EffectiveSpread, Prices, RoundHalfAway, Mul;
    EffectiveOfPrices(bounds, mid, target);
    Round16Facts(mid);
    MulSplit(mid, Div(target, 2.0));
    DoubledRounding(target / 2.0);
  }

  lemma DoubledRounding(x: real)
    ensures Round16(2.0 * Round16(x)) == 2.0 * Round16(x)
  {
    var r := RoundHalfAway(InUlps(x));
    assert InUlps(2.0 * Round16(x)) == (2 * r) as real;
    Round16Facts(2.0 * Round16(x));
  }

  /** The round trip is rejected iff the half-spread is -1 or less. Otherwise it errs by at most one last place, is
      exact iff half the target has at most 16 digits, and errs by exactly one last place, away from zero, on every
      16-digit target whose last digit is odd. */
  lemma RoundTripError(bounds: SpreadBounds, mid: real, target: real)
    requires Prices(bounds, mid, target).Ok? && Has16Digits(mid)
    ensures var q := Prices(bounds, mid, target).value;
            var eff := EffectiveSpread(q.bid, q.ask);
            && (eff == Rejected(InvalidMidPrice) <==> Div(target, 2.0) <= -1.0)
            && (Div(target, 2.0) > -1.0 ==>
                  && eff.Spread?
                  && -0.0000000000000001 <= eff.value - target <= 0.0000000000000001
                  && (eff.value == target <==> Has16Digits(target / 2.0))
                  && (Has15Digits(target) ==> eff.value == target)
                  && (Has16Digits(target) && InUlps(target).Floor % 2 == 1 ==>
                        eff.value - target == if target >= 0.0 then Ulps(1.0) else Ulps(-1.0)))
  {
    RoundTrip(bounds, mid, target);
    HalvingError(target);
    hide EffectiveSpread, Prices, Div;
  }

  lemma HalvingError(target: real)
    ensures var value := 2.0 * Div(target, 2.0);
            && Ulps(-1.0) <= value - target <= Ulps(1.0)
            && (value == target <==> Has16Digits(target / 2.0))
            && (Has15Digits(target) ==> value == target)
            && (Has16Digits(target) && InUlps(target).Floor % 2 == 1 ==>
                  value - target == if target >= 0.0 then Ulps(1.0) else Ulps(-1.0))
  {
    Round16Facts(target / 2.0);
    var x := InUlps(target / 2.0);
    var r := RoundHalfAway(x);
    assert 2.0 * Div(target, 2.0) == Ulps((2 * r) as real);
    if Ulps((2 * r) as real) == target {
      assert x == r as real;
    }
    if Has15Digits(target) {
      var k := (InUlps(target) / 10.0).Floor;
      assert x == (5 * k) as real;
    }
    if Has16Digits(target) && InUlps(target).Floor % 2 == 1 {
      var k := InUlps(target).Floor;
      assert x == (k / 2) as real + 0.5;
      assert r == if target >= 0.0 then k / 2 + 1 else k / 2;
    }
  }

  function Abs(x: real): real { if x < 0.0 then -x else x }

  /** Every outcome of the round trip, for every mid: without a digit limit the error grows with
      the rounding of mid itself. */
  lemma RoundTripAnyMid(bounds: SpreadBounds, mid: real, target: real)
    requires Prices(bounds, mid, target).Ok?
    ensures var q, half, m := Prices(bounds, mid, target).value, Div(target, 2.0), Round16(mid);
            var eff := EffectiveSpread(q.bid, q.ask);
            && m >= 0.0
            && (eff == Rejected(InvalidMidPrice) <==> half <= -1.0)
            && (eff == DivisionByZero <==> half > -1.0 && m == 0.0)
            && (half > -1.0 && m > 0.0 ==>
                  && eff.Spread?
                  && var slack := Ulps(1.5 + Abs(half) / m);
                     -slack <= eff.value - target <= slack)
  {
    hide EffectiveSpread, Prices, RoundHalfAway, Mul;
    EffectiveOfPrices(bounds, mid, target);
    Round16Monotone(0.0, mid);
    Round16Facts(0.0);
    if Div(target, 2.0) > -1.0 && Round16(mid) > 0.0 {
      Round16Facts(target / 2.0);
      Round16Facts(mid);
      QuotientSlack(mid, Round16(mid), Div(target, 2.0));
      Round16Facts(2.0 * Mul(mid, Div(target, 2.0)) / Round16(mid));
    }
  }

  lemma QuotientSlack(mid: real, m: real, half: real)
    requires m > 0.0
    requires Ulps(-0.5) <= m - mid <= Ulps(0.5)
    ensures var d := 2.0 * Mul(mid, half) / m - 2.0 * half;
            Ulps(-(Abs(half) / m)) <= d <= Ulps(Abs(half) / m)
  {
    var d := 2.0 * Mul(mid, half) / m - 2.0 * half;
    var e := Ulps(Abs(half) / m);
    assert Mul(d, m) == 2.0 * half * (mid - m) by {
      assert 2.0 * (mid * half) / m * m == 2.0 * (mid * half);
    }
    assert Mul(e, m) == Ulps(Abs(half)) by {
      assert Abs(half) / m * m == Abs(half);
    }
    MulSigns(Abs(half), Ulps(0.5) - (mid - m));
    MulSigns(Abs(half), Ulps(0.5) + (mid - m));
    assert 2.0 * half * (mid - m) <= Ulps(Abs(half));
    assert -Ulps(Abs(half)) <= 2.0 * half * (mid - m);
    if d > e { MulGrows(e, d, m); }
    if d < -e { MulGrows(d, -e, m); }
  }

  lemma MulSigns(a: real, b: real)
    requires a >= 0.0 && b >= 0.0
    ensures a * b >= 0.0
  {
  }

  /** EffectiveSpread only guards ask; it divides by zero iff ask > 0 and the two prices sum
      to less than one last place. */
  lemma DivisionByZeroIff(bid: real, ask: real)
    ensures EffectiveSpread(bid, ask).DivisionByZero? <==>
            ask > 0.0 && -0.0000000000000001 < ask + bid < 0.0000000000000001
  {
    var x := InUlps((ask + bid) / 2.0);
    assert Div(ask + bid, 2.0) == Ulps(RoundHalfAway(x) as real);
    assert RoundHalfAway(x) == 0 <==> -0.5 < x < 0.5;
  }

  /** So a quote that Prices accepts makes EffectiveSpread panic iff its ask is positive and mid is below half a last
      place; 10^-17 is one such mid. */
  lemma AcceptedQuotePanicsIff(bounds: SpreadBounds, mid: real, target: real)
    requires Prices(bounds, mid, target).Ok?
    ensures var q := Prices(bounds, mid, target).value;
            EffectiveSpread(q.bid, q.ask).DivisionByZero? <==> Div(target, 2.0) > -1.0 && mid < 0.00000000000000005
    ensures Prices(DEFAULT_SPREAD_BOUNDS, Ulps(0.1), 0.005).Ok?
  {
    EffectiveOfPrices(bounds, mid, target);
    PricesSymmetric(bounds, mid, target);
    var q := Prices(bounds, mid, target).value;
    DivisionByZeroIff(q.bid, q.ask);
  }
}
