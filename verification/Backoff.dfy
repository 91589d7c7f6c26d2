/** The reconnect delay: exponential, saturating, in whole seconds and nanoseconds. */
module Backoff {
  import opened Common

  const BILLION: nat := 1_000_000_000

  type u32 = n: int | 0 <= n < 0x1_0000_0000

  type Nanos = n: int | 0 <= n < BILLION

  datatype Duration = Duration(seconds: u64, nanos: Nanos)

  function InNanos(d: Duration): nat { d.seconds * BILLION + d.nanos }

  lemma NanosOrder(a: Duration, b: Duration)
    ensures InNanos(a) <= InNanos(b) <==> AtMost(a, b)
    ensures InNanos(a) == InNanos(b) <==> a == b
  {}

  /** Durations compare by seconds first. */
  predicate AtMost(a: Duration, b: Duration) { a.seconds < b.seconds || (a.seconds == b.seconds && a.nanos <= b.nanos) }

  function Lesser(a: Duration, b: Duration): Duration { if AtMost(a, b) then a else b }

  function SaturatingMul(d: Duration, multiplier: u32): Duration {
    var nanos := d.nanos * multiplier;
    Duration(Saturate(Saturate(d.seconds * multiplier) + nanos / BILLION), nanos % BILLION)
  }

  function AtLeastOne(multiplier: u32): u32 { if multiplier == 0 then 1 else multiplier }

  function Power(base: nat, n: nat): nat { if n == 0 then 1 else base * Power(base, n - 1) }

  /** The delay without any bound on the numbers. */
  function Ideal(initial: Duration, maximum: Duration, multiplier: u32, attempt: nat): nat {
    Min(InNanos(initial) * Power(AtLeastOne(multiplier), attempt), InNanos(maximum))
  }

  /** A maximum that a saturated product never falls short of. */
  predicate IsReachable(maximum: Duration) { maximum.seconds < U64_MAX || maximum.nanos == 0 }

  lemma PartsMultiply(s: nat, n: nat, m: nat)
    ensures (s * BILLION + n) * m == (s * m + n * m / BILLION) * BILLION + n * m % BILLION
  {
    assert n * m == n * m / BILLION * BILLION + n * m % BILLION;
  }

  /** The product is exact, or both it and its saturated form are beyond the maximum. */
  lemma ProductMeetsMaximum(d: Duration, m: u32, maximum: Duration)
    requires IsReachable(maximum)
    ensures Min(InNanos(SaturatingMul(d, m)), InNanos(maximum)) == Min(InNanos(d) * m, InNanos(maximum))
  {
    PartsMultiply(d.seconds, d.nanos, m);
    assert d.seconds * m >= 0 && d.nanos * m >= 0;
  }

  lemma {:induction false} PowerIsPositive(base: nat, n: nat)
    requires base >= 1
    ensures Power(base, n) >= 1
  {
    if n > 0 { PowerIsPositive(base, n - 1); }
  }

  lemma PowerGrows(base: nat, n: nat)
    requires base >= 1
    ensures Power(base, n + 1) >= Power(base, n)
  {
    PowerIsPositive(base, n);
  }

  lemma {:induction false} PowerIsMonotone(base: nat, a: nat, b: nat)
    requires base >= 1 && a <= b
    ensures Power(base, a) <= Power(base, b)
    decreases b
  {
    if a < b {
      PowerIsMonotone(base, a, b - 1);
      PowerGrows(base, b - 1);
    }
  }

  lemma ProductGrows(x: nat, y: nat, z: nat)
    requires y <= z
    ensures x * y <= x * z
  {}

  /** Multiplying a delay that was already cut off gives the same cut-off product. */
  lemma CutFirst(x: nat, m: nat, maximum: nat)
    requires m >= 1
    ensures Min(Min(x, maximum) * m, maximum) == Min(x * m, maximum)
  {
    if x > maximum {
      ProductGrows(maximum, 1, m);
      ProductGrows(m, maximum, x);
    }
  }

  lemma IdealNext(initial: Duration, maximum: Duration, multiplier: u32, n: nat)
    ensures Ideal(initial, maximum, multiplier, n + 1)
      == Min(Ideal(initial, maximum, multiplier, n) * AtLeastOne(multiplier), InNanos(maximum))
    ensures Ideal(initial, maximum, multiplier, n + 1)
      == Min(InNanos(initial) * Power(AtLeastOne(multiplier), n) * AtLeastOne(multiplier), InNanos(maximum))
  {
    var m := AtLeastOne(multiplier);
    var x, p := InNanos(initial), Power(m, n);
    assert x * (m * p) == x * p * m;
    CutFirst(x * p, m, InNanos(maximum));
  }

  /** Longer failures never wait less, and nobody waits longer than the maximum. */
  lemma DelayIsMonotone(initial: Duration, maximum: Duration, multiplier: u32, a: nat, b: nat)
    requires a <= b
    ensures Ideal(initial, maximum, multiplier, a) <= Ideal(initial, maximum, multiplier, b) <= InNanos(maximum)
  {
    PowerIsMonotone(AtLeastOne(multiplier), a, b);
    ProductGrows(InNanos(initial), Power(AtLeastOne(multiplier), a), Power(AtLeastOne(multiplier), b));
  }

  lemma ReachedStays(initial: Duration, maximum: Duration, multiplier: u32, a: nat, b: nat)
    requires a <= b && Ideal(initial, maximum, multiplier, a) == InNanos(maximum)
    ensures Ideal(initial, maximum, multiplier, b) == InNanos(maximum)
  {
    DelayIsMonotone(initial, maximum, multiplier, a, b);
  }

  /** Multiplies step by step and stops early at the maximum. */
  method DelayFor(initial: Duration, maximum: Duration, multiplier: u32, attempt: u32) returns (delay: Duration)
    ensures AtMost(delay, maximum)
    ensures IsReachable(maximum) ==> InNanos(delay) == Ideal(initial, maximum, multiplier, attempt)
  {
    delay := initial;
    var m := AtLeastOne(multiplier);
    var i: nat := 0;
    while i < attempt
      invariant i <= attempt
      invariant IsReachable(maximum) ==>
        if i == 0 then delay == initial else InNanos(delay) == Ideal(initial, maximum, multiplier, i)
    {
      ghost var before := delay;
      delay := Lesser(SaturatingMul(delay, m), maximum);
      i := i + 1;
      if IsReachable(maximum) { StepIsIdeal(initial, maximum, multiplier, before, i - 1); }
      if AtMost(maximum, delay) {
        if IsReachable(maximum) { ReachedStays(initial, maximum, multiplier, i, attempt); }
        break;
      }
    }
    delay := Lesser(delay, maximum);
    NanosOrder(delay, maximum);
  }

  lemma StepIsIdeal(initial: Duration, maximum: Duration, multiplier: u32, delay: Duration, i: nat)
    requires IsReachable(maximum)
    requires if i == 0 then delay == initial else InNanos(delay) == Ideal(initial, maximum, multiplier, i)
    ensures InNanos(Lesser(SaturatingMul(delay, AtLeastOne(multiplier)), maximum))
      == Ideal(initial, maximum, multiplier, i + 1)
  {
    var m := AtLeastOne(multiplier);
    var product := SaturatingMul(delay, m);
    NanosOrder(product, maximum);
    ProductMeetsMaximum(delay, m, maximum);
    IdealNext(initial, maximum, multiplier, i);
  }

  /** For every other maximum there is a delay that falls short of it: the condition is exact. */
  lemma UnreachableFallsShort(maximum: Duration)
    requires !IsReachable(maximum)
    ensures InNanos(Lesser(SaturatingMul(Duration(U64_MAX, 0), 2), maximum))
      < Ideal(Duration(U64_MAX, 0), maximum, 2, 1)
  {
    assert SaturatingMul(Duration(U64_MAX, 0), 2) == Duration(U64_MAX, 0);
    assert Power(2, 1) == 2 * Power(2, 0);
    assert Ideal(Duration(U64_MAX, 0), maximum, 2, 1) == InNanos(maximum);
  }
}
