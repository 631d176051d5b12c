/** Fixed-price accounting: nano-dollars per million tokens, rounded up once per attempt. */
module Pricing {
  import opened Common

  const MILLION: int := 1_000_000

  datatype FixedPrice = FixedPrice(input: int, output: int, cacheRead: int, cacheWrite: int)
  {
    predicate Valid() { input >= 0 && output >= 0 && cacheRead >= 0 && cacheWrite >= 0 }
  }

  datatype Usage = Usage(input: int, output: int, cacheRead: int, cacheWrite: int, complete: bool)
  {
    predicate Billable() { complete && input >= 0 && output >= 0 && cacheRead >= 0 && cacheWrite >= 0 }
  }

  datatype CostError = NeedsReconciliation | CostOverflow

  /** The exact price in millionths of a nano-dollar, before any rounding. */
  function Exact(p: FixedPrice, u: Usage): int {
    p.input * u.input + p.output * u.output + p.cacheRead * u.cacheRead + p.cacheWrite * u.cacheWrite
  }

  /** The least whole number of nano-dollars that is not below the exact price. */
  ghost predicate IsRoundedUp(exact: int, nano: int) {
    (nano - 1) * MILLION < exact <= nano * MILLION
  }

  /** Accumulates the four token classes and rounds the total upward. */
  method Cost(p: FixedPrice, u: Usage) returns (r: Result<int, CostError>)
    ensures r == Err(NeedsReconciliation) <==> !(p.Valid() && u.Billable())
    ensures r == Err(CostOverflow) <==> p.Valid() && u.Billable() && Exact(p, u) > MAX_INT64 * MILLION
    ensures r.Ok? ==> 0 <= r.value <= MAX_INT64 && IsRoundedUp(Exact(p, u), r.value)
  {
    if !p.Valid() || !u.Billable() {
      return Err(NeedsReconciliation);
    }
    var rates := [p.input, p.output, p.cacheRead, p.cacheWrite];
    var tokens := [u.input, u.output, u.cacheRead, u.cacheWrite];
    var total := 0;
    for i := 0 to 4
      invariant i >= 0 && total == Dot(rates[..i], tokens[..i])
      invariant total >= 0
    {
      assert rates[..i + 1][..i] == rates[..i] && tokens[..i + 1][..i] == tokens[..i];
      ProductNonNegative(rates[i], tokens[i]);
      total := total + rates[i] * tokens[i];
    }
    assert rates[..4] == rates && tokens[..4] == tokens;
    DotOfFour(p, u);
    var quotient := total / MILLION;
    if total % MILLION > 0 {
      quotient := quotient + 1;
    }
    if quotient > MAX_INT64 {
      return Err(CostOverflow);
    }
    return Ok(quotient);
  }

  ghost function Dot(a: seq<int>, b: seq<int>): int
    requires |a| == |b|
  {
    if a == [] then 0 else Dot(a[..|a| - 1], b[..|b| - 1]) + a[|a| - 1] * b[|b| - 1]
  }

  lemma DotOfFour(p: FixedPrice, u: Usage)
    ensures Dot([p.input, p.output, p.cacheRead, p.cacheWrite], [u.input, u.output, u.cacheRead, u.cacheWrite])
         == Exact(p, u)
  {
    var a, b := [p.input, p.output, p.cacheRead, p.cacheWrite], [u.input, u.output, u.cacheRead, u.cacheWrite];
    assert a[..3] == [p.input, p.output, p.cacheRead] && b[..3] == [u.input, u.output, u.cacheRead];
    assert a[..3][..2] == [p.input, p.output] && b[..3][..2] == [u.input, u.output];
    assert a[..3][..2][..1] == [p.input] && b[..3][..2][..1] == [u.input];
    assert a[..3][..2][..1][..0] == [] && b[..3][..2][..1][..0] == [];
    assert Dot([p.input], [u.input]) == p.input * u.input;
    assert Dot([p.input, p.output], [u.input, u.output]) == p.input * u.input + p.output * u.output;
  }

  lemma ProductNonNegative(a: int, b: int)
    requires a >= 0 && b >= 0
    ensures a * b >= 0
  {}

  lemma ProductMonotone(a: int, b: int, m: int, n: int)
    requires 0 <= a <= m && 0 <= b <= n
    ensures a * b <= m * n
  {
    calc <= {
      a * b;
      { assert (m - a) * b >= 0; }
      m * b;
      { assert m * (n - b) >= 0; }
      m * n;
    }
  }

  // ---------------------------------------------------------------------------
  // The amount an attempt reserves before it is sent
  // ---------------------------------------------------------------------------

  /** The dearest of the three input-side classes stands in for all of them. */
  function Worst(p: FixedPrice): FixedPrice {
    p.(input := Max(p.input, Max(p.cacheRead, p.cacheWrite)))
  }

  /** The usage priced for a reservation: the window less the output limit, and the output limit. */
  function Ceiling(window: int, maxOutput: int): Usage {
    Usage(window - maxOutput, maxOutput, 0, 0, true)
  }

  /** A complete usage whose input-side tokens and output fit the request that was admitted. */
  predicate FitsRequest(u: Usage, window: int, maxOutput: int) {
    u.Billable() && u.input + u.cacheRead + u.cacheWrite <= window - maxOutput && u.output <= maxOutput
  }

  lemma ExactWithinCeiling(p: FixedPrice, u: Usage, window: int, maxOutput: int)
    requires p.Valid() && 0 < maxOutput < window && FitsRequest(u, window, maxOutput)
    ensures 0 <= Exact(p, u) <= Exact(Worst(p), Ceiling(window, maxOutput))
  {
    var w := Worst(p).input;
    ProductMonotone(p.input, u.input, w, u.input);
    ProductMonotone(p.cacheRead, u.cacheRead, w, u.cacheRead);
    ProductMonotone(p.cacheWrite, u.cacheWrite, w, u.cacheWrite);
    ProductMonotone(p.output, u.output, p.output, maxOutput);
    var tokens := u.input + u.cacheRead + u.cacheWrite;
    assert w * tokens == w * u.input + w * u.cacheRead + w * u.cacheWrite;
    ProductMonotone(w, tokens, w, window - maxOutput);
    ProductNonNegative(p.input, u.input);
    ProductNonNegative(p.output, u.output);
    ProductNonNegative(p.cacheRead, u.cacheRead);
    ProductNonNegative(p.cacheWrite, u.cacheWrite);
  }

  lemma RoundingIsMonotone(exact: int, nano: int, exact': int, nano': int)
    requires exact <= exact' && IsRoundedUp(exact, nano) && IsRoundedUp(exact', nano')
    ensures nano <= nano'
  {}

  /**
    What `Budgeted.run` reserves covers every usage the request admits: whenever the reservation can be
    priced, the settled cost can be priced too, exceeds the exact price by less than one nano-dollar and
    never exceeds the reservation.
   */
  lemma ReservationCoversUsage(p: FixedPrice, u: Usage, window: int, maxOutput: int, reserved: int)
    requires p.Valid() && 0 < maxOutput < window && FitsRequest(u, window, maxOutput)
    requires reserved <= MAX_INT64 && IsRoundedUp(Exact(Worst(p), Ceiling(window, maxOutput)), reserved)
    ensures Exact(p, u) <= MAX_INT64 * MILLION
    ensures forall cost :: IsRoundedUp(Exact(p, u), cost) ==> 0 <= cost <= reserved
    ensures forall cost :: IsRoundedUp(Exact(p, u), cost) ==> 0 <= cost * MILLION - Exact(p, u) < MILLION
  {
    ExactWithinCeiling(p, u, window, maxOutput);
    forall cost | IsRoundedUp(Exact(p, u), cost) ensures 0 <= cost <= reserved {
      RoundingIsMonotone(Exact(p, u), cost, Exact(Worst(p), Ceiling(window, maxOutput)), reserved);
    }
  }

  /** And it reserves no more than it must: some usage that the request admits costs exactly what is reserved. */
  lemma ReservationIsAttained(p: FixedPrice, window: int, maxOutput: int) returns (u: Usage)
    requires p.Valid() && 0 < maxOutput < window
    ensures FitsRequest(u, window, maxOutput) && Exact(p, u) == Exact(Worst(p), Ceiling(window, maxOutput))
  {
    var n := window - maxOutput;
    if p.input >= p.cacheRead && p.input >= p.cacheWrite {
      u := Usage(n, maxOutput, 0, 0, true);
    } else if p.cacheRead >= p.cacheWrite {
      u := Usage(0, maxOutput, n, 0, true);
    } else {
      u := Usage(0, maxOutput, 0, n, true);
    }
  }

  /** Pricing the request the way `Budgeted.run` does, or refusing an output limit that does not fit. */
  method Reservation(p: FixedPrice, window: int, maxConfigured: int, maxOutput: int)
    returns (r: Option<Result<int, CostError>>)
    requires p.Valid()
    ensures r.None? <==> maxOutput <= 0 || maxOutput > maxConfigured || maxOutput >= window
    ensures r.Some? && r.value.Ok? ==>
              forall u, cost :: FitsRequest(u, window, maxOutput) && IsRoundedUp(Exact(p, u), cost)
                                ==> 0 <= cost <= r.value.value
    ensures r.Some? && r.value.Ok? ==>
              IsRoundedUp(Exact(Worst(p), Ceiling(window, maxOutput)), r.value.value)
  {
    if maxOutput <= 0 || maxOutput > maxConfigured || maxOutput >= window {
      return None;
    }
    var amount := Cost(Worst(p), Ceiling(window, maxOutput));
    if amount.Ok? {
      forall u, cost | FitsRequest(u, window, maxOutput) && IsRoundedUp(Exact(p, u), cost)
        ensures 0 <= cost <= amount.value
      {
        ReservationCoversUsage(p, u, window, maxOutput, amount.value);
      }
    }
    return Some(amount);
  }
}
