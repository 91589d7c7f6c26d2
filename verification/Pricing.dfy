/** What a token count would cost at API prices, in integer micro-dollars.

    Input splits into cached, cache-written and other tokens; long contexts cost twice the input
    and one and a half times the output price.
 */
module Pricing {
  import opened Common
  import opened Strings
  import opened Usage

  const U128_MAX: nat := U64_MAX * 0x1_0000_0000_0000_0000 + U64_MAX

  const MILLION: nat := 1_000_000

  datatype Price =
    Price(model: string, input: u64, cached: u64, cacheWrite: Option<u64>, output: u64, threshold: Option<u64>)
  {
    function WriteRate(): u64 { if cacheWrite.Some? then cacheWrite.value else input }
  }

  const LONG := Some(272_000)

  /** Unknown models have no price. */
  function PriceOf(model: string): Option<Price> {
    var name := Lowered(Trim(model));
    if name == "gpt-5" || name == "gpt-5-chat-latest" then
      Some(Price("gpt-5", 1_250_000, 125_000, None, 10_000_000, None))
    else if name == "gpt-5-mini" then Some(Price("gpt-5-mini", 250_000, 25_000, None, 2_000_000, None))
    else if name == "gpt-5-nano" then Some(Price("gpt-5-nano", 50_000, 5_000, None, 400_000, None))
    else if name == "gpt-5.2" || name == "gpt-5.2-chat-latest" then
      Some(Price("gpt-5.2", 1_750_000, 175_000, None, 14_000_000, None))
    else if name == "gpt-5.3-codex" then Some(Price("gpt-5.3-codex", 1_750_000, 175_000, None, 14_000_000, None))
    else if name == "gpt-5.4" then Some(Price("gpt-5.4", 2_500_000, 250_000, None, 15_000_000, LONG))
    else if name == "gpt-5.4-mini" then Some(Price("gpt-5.4-mini", 750_000, 75_000, None, 4_500_000, None))
    else if name == "gpt-5.5" then Some(Price("gpt-5.5", 5_000_000, 500_000, None, 30_000_000, LONG))
    else if name == "gpt-5.6" || name == "gpt-5.6-sol" then
      Some(Price("gpt-5.6-sol", 4_000_000, 400_000, Some(5_000_000), 20_000_000, LONG))
    else if name == "gpt-5.6-terra" then
      Some(Price("gpt-5.6-terra", 2_000_000, 200_000, Some(2_500_000), 12_000_000, LONG))
    else if name == "gpt-5.6-luna" then Some(Price("gpt-5.6-luna", 200_000, 20_000, Some(250_000), 1_200_000, LONG))
    else None
  }

  /** What all listed prices have in common. */
  predicate IsListed(p: Price) {
    p.cached <= p.input <= 5_000_000 && p.cached <= p.WriteRate() <= 5_000_000 && p.output <= 30_000_000
  }

  lemma ListedPrices(model: string)
    requires PriceOf(model).Some?
    ensures IsListed(PriceOf(model).value)
  {}

  function Minus(a: nat, b: nat): nat { if a < b then 0 else a - b }

  /** The three parts of the input. */
  datatype Split = Split(cached: nat, written: nat, other: nat)

  function SplitOf(input: nat, cachedInput: nat, cacheWrite: nat): Split {
    var cached := Min(cachedInput, input);
    var written := Min(cacheWrite, Minus(input, cached));
    Split(cached, written, Minus(Minus(input, cached), written))
  }

  /** Every input token is billed in exactly one part, no part exceeds what was reported, and cached tokens come
      before written ones and written ones before the others. */
  lemma SplitIsDisjoint(input: nat, cachedInput: nat, cacheWrite: nat)
    ensures var s := SplitOf(input, cachedInput, cacheWrite);
      && s.cached + s.written + s.other == input && s.cached <= cachedInput && s.written <= cacheWrite
      && (s.cached < cachedInput ==> s.cached == input) && (s.written < cacheWrite ==> s.other == 0)
  {}

  predicate IsLong(p: Price, input: nat) { p.threshold.Some? && input > p.threshold.value }

  function BaseCost(p: Price, s: Split): nat { s.other * p.input + s.cached * p.cached + s.written * p.WriteRate() }

  function InputCost(p: Price, s: Split, long: bool): nat { BaseCost(p, s) * if long then 2 else 1 }

  function OutputCost(p: Price, output: nat, long: bool): nat { output * p.output * (if long then 3 else 2) / 2 }

  function Amount(p: Price, input: nat, cachedInput: nat, cacheWrite: nat, output: nat): nat {
    var long := IsLong(p, input);
    (InputCost(p, SplitOf(input, cachedInput, cacheWrite), long) + OutputCost(p, output, long)) / MILLION
  }

  /** The amount and the model's name; nothing when a count or the price is missing or it does not
      fit 64 bits. */
  function CostMicroUsd(counts: TokenCounts, model: Option<string>): Option<(u64, string)> {
    if model.None? || PriceOf(model.value).None? || counts.input.None? || counts.cachedInput.None?
      || counts.output.None? then None
    else
      var p := PriceOf(model.value).value;
      var amount := Amount(p, counts.input.value, counts.cachedInput.value, Or0(counts.cacheWriteInput),
        counts.output.value);
      if amount <= U64_MAX then Some((amount, p.model)) else None
  }

  // ---------------------------------------------------------------- the price list

  datatype Family = Short | Long | Writing

  /** A price of a million input tokens, in hundredths of a dollar, and how many times that output costs. */
  datatype Listing = Listing(cents: nat, factor: nat, family: Family)

  function ListingOf(name: string): Option<Listing> {
    if name == "gpt-5" then Some(Listing(125, 8, Short))
    else if name == "gpt-5-mini" then Some(Listing(25, 8, Short))
    else if name == "gpt-5-nano" then Some(Listing(5, 8, Short))
    else if name == "gpt-5.2" || name == "gpt-5.3-codex" then Some(Listing(175, 8, Short))
    else if name == "gpt-5.4" then Some(Listing(250, 6, Long))
    else if name == "gpt-5.4-mini" then Some(Listing(75, 6, Short))
    else if name == "gpt-5.5" then Some(Listing(500, 6, Long))
    else if name == "gpt-5.6-sol" then Some(Listing(400, 5, Writing))
    else if name == "gpt-5.6-terra" then Some(Listing(200, 6, Writing))
    else if name == "gpt-5.6-luna" then Some(Listing(20, 6, Writing))
    else None
  }

  /** Three models have a second name. */
  function CanonicalName(model: string): string {
    var name := Lowered(Trim(model));
    if name == "gpt-5-chat-latest" then "gpt-5"
    else if name == "gpt-5.2-chat-latest" then "gpt-5.2"
    else if name == "gpt-5.6" then "gpt-5.6-sol"
    else name
  }

  /** The price a listing stands for: cached input costs a tenth of the input price and written input, where it
      is billed apart, a quarter more; only some models have a price for long contexts. */
  predicate IsPriced(p: Price, name: string, l: Listing) {
    && p.model == name && p.input == l.cents * 10_000
    && p.cached * 10 == p.input && p.output == p.input * l.factor
    && p.WriteRate() * 4 == p.input * (if l.family.Writing? then 5 else 4)
    && p.threshold == if l.family.Short? then None else Some(272_000)
  }

  /** A model has a price exactly if it is listed under its canonical name, and that price. */
  lemma PriceIsListed(model: string)
    ensures var name := CanonicalName(model);
      && (PriceOf(model).Some? <==> ListingOf(name).Some?)
      && (PriceOf(model).Some? ==> IsPriced(PriceOf(model).value, name, ListingOf(name).value))
  {}

  // ---------------------------------------------------------------- rounded once

  /** The cost in millionths of a micro-dollar, without rounding. */
  function ExactCost(p: Price, s: Split, output: nat, long: bool): real {
    var input := s.cached as real * p.cached as real + s.written as real * p.WriteRate() as real
      + s.other as real * p.input as real;
    (if long then 2.0 else 1.0) * input + (if long then 1.5 else 1.0) * (output as real * p.output as real)
  }

  lemma QuotientInTwo(a: nat, b: nat)
    ensures (2 * a + b) / (2 * MILLION) == (a + b / 2) / MILLION
  {
    var q := (a + b / 2) / MILLION;
    assert q * MILLION <= a + b / 2 < (q + 1) * MILLION;
    assert 2 * q * MILLION <= 2 * a + b < 2 * (q + 1) * MILLION;
  }

  lemma ExactIsHalves(p: Price, s: Split, output: nat, long: bool)
    ensures 2.0 * ExactCost(p, s, output, long)
      == (2 * InputCost(p, s, long) + output * p.output * if long then 3 else 2) as real
  {
    Products(s.cached, p.cached);
    Products(s.written, p.WriteRate());
    Products(s.other, p.input);
    Products(output, p.output);
    assert BaseCost(p, s) as real
      == s.cached as real * p.cached as real + s.written as real * p.WriteRate() as real
         + s.other as real * p.input as real;
  }

  lemma Products(x: nat, y: nat)
    ensures (x * y) as real == x as real * y as real
  {}

  /** Halving the long output price and dividing by a million round down one after the other; the amount is
      the exact cost rounded down once. */
  lemma AmountIsRoundedOnce(p: Price, input: nat, cachedInput: nat, cacheWrite: nat, output: nat)
    ensures var long := p.threshold.Some? && p.threshold.value < input;
      var exact := ExactCost(p, SplitOf(input, cachedInput, cacheWrite), output, long);
      Amount(p, input, cachedInput, cacheWrite, output) == (exact / 1_000_000.0).Floor
  {
    var long := IsLong(p, input);
    var s := SplitOf(input, cachedInput, cacheWrite);
    var a, b := InputCost(p, s, long), output * p.output * if long then 3 else 2;
    ExactIsHalves(p, s, output, long);
    QuotientInTwo(a, b);
    FloorIsQuotient(ExactCost(p, s, output, long), 2 * a + b);
  }

  lemma FloorIsQuotient(exact: real, halves: nat)
    requires 2.0 * exact == halves as real
    ensures (exact / 1_000_000.0).Floor == halves / (2 * MILLION)
  {
    var q := halves / (2 * MILLION);
    assert q * (2 * MILLION) <= halves < (q + 1) * (2 * MILLION);
    assert (q * (2 * MILLION)) as real <= 2.0 * exact < ((q + 1) * (2 * MILLION)) as real;
    assert q as real <= exact / 1_000_000.0 < (q + 1) as real;
  }

  /** A cost is given exactly for a listed model and known counts, if it fits 64 bits: the exact cost rounded
      down, under the model's canonical name. */
  lemma CostIff(counts: TokenCounts, model: Option<string>)
    ensures var known := model.Some? && ListingOf(CanonicalName(model.value)).Some?
        && counts.input.Some? && counts.cachedInput.Some? && counts.output.Some?;
      && (CostMicroUsd(counts, model).Some? ==> known)
      && (known ==>
            var p, input := PriceOf(model.value).value, counts.input.value;
            var s := SplitOf(input, counts.cachedInput.value, Or0(counts.cacheWriteInput));
            var long := !ListingOf(CanonicalName(model.value)).value.family.Short? && input > 272_000;
            var cost := (ExactCost(p, s, counts.output.value, long) / 1_000_000.0).Floor;
            CostMicroUsd(counts, model)
              == if 0 <= cost <= U64_MAX then Some((cost, CanonicalName(model.value))) else None)
  {
    if model.Some? {
      PriceIsListed(model.value);
      if PriceOf(model.value).Some? && counts.input.Some? && counts.cachedInput.Some? && counts.output.Some? {
        AmountIsRoundedOnce(PriceOf(model.value).value, counts.input.value, counts.cachedInput.value,
                            Or0(counts.cacheWriteInput), counts.output.value);
      }
    }
  }

  // ---------------------------------------------------------------- no overflow

  lemma Bounded(x: nat, y: nat, a: nat, b: nat)
    requires x <= a && y <= b
    ensures x * y <= a * b
  {
    assert x * y <= a * y;
    assert a * y <= a * b;
  }

  /** No step of the 128-bit arithmetic can overflow. */
  lemma NeverOverflows(model: string, input: u64, cachedInput: u64, cacheWrite: u64, output: u64)
    requires PriceOf(model).Some?
    ensures var p, s := PriceOf(model).value, SplitOf(input, cachedInput, cacheWrite);
      && s.other * p.input <= U128_MAX && s.cached * p.cached <= U128_MAX && s.written * p.WriteRate() <= U128_MAX
      && BaseCost(p, s) <= U128_MAX && BaseCost(p, s) * 2 <= U128_MAX
      && output * p.output <= U128_MAX && output * p.output * 3 <= U128_MAX
      && InputCost(p, s, true) + OutputCost(p, output, true) <= U128_MAX
  {
    var p, s := PriceOf(model).value, SplitOf(input, cachedInput, cacheWrite);
    ListedPrices(model);
    Bounded(s.other, p.input, U64_MAX, 5_000_000);
    Bounded(s.cached, p.cached, U64_MAX, 5_000_000);
    Bounded(s.written, p.WriteRate(), U64_MAX, 5_000_000);
    Bounded(output, p.output, U64_MAX, 30_000_000);
  }

  // ---------------------------------------------------------------- monotone

  lemma MoreInputMoreOfEach(x: nat, y: nat, cachedInput: nat, cacheWrite: nat)
    requires x <= y
    ensures var s, t := SplitOf(x, cachedInput, cacheWrite), SplitOf(y, cachedInput, cacheWrite);
      s.cached <= t.cached && s.written <= t.written && s.other <= t.other
  {}

  lemma BaseGrows(p: Price, s: Split, t: Split)
    requires s.cached <= t.cached && s.written <= t.written && s.other <= t.other
    ensures BaseCost(p, s) <= BaseCost(p, t)
  {
    Bounded(s.other, p.input, t.other, p.input);
    Bounded(s.cached, p.cached, t.cached, p.cached);
    Bounded(s.written, p.WriteRate(), t.written, p.WriteRate());
  }

  lemma OutputGrows(p: Price, x: nat, y: nat, long: bool, longer: bool)
    requires x <= y && (long ==> longer)
    ensures OutputCost(p, x, long) <= OutputCost(p, y, longer)
  {
    Bounded(x, p.output, y, p.output);
    var a, b := x * p.output, y * p.output;
    assert a * (if long then 3 else 2) <= b * (if longer then 3 else 2);
  }

  /** More input or more output never costs less, also across the long-context threshold. */
  lemma AmountIsMonotone(p: Price, input: nat, more: nat, cachedInput: nat, cacheWrite: nat, output: nat, longer: nat)
    requires input <= more && output <= longer
    ensures Amount(p, input, cachedInput, cacheWrite, output) <= Amount(p, more, cachedInput, cacheWrite, longer)
  {
    var s, t := SplitOf(input, cachedInput, cacheWrite), SplitOf(more, cachedInput, cacheWrite);
    MoreInputMoreOfEach(input, more, cachedInput, cacheWrite);
    BaseGrows(p, s, t);
    OutputGrows(p, output, longer, IsLong(p, input), IsLong(p, more));
    assert InputCost(p, s, IsLong(p, input)) <= InputCost(p, t, IsLong(p, more));
    QuotientGrows(InputCost(p, s, IsLong(p, input)) + OutputCost(p, output, IsLong(p, input)),
                  InputCost(p, t, IsLong(p, more)) + OutputCost(p, longer, IsLong(p, more)));
  }

  lemma QuotientGrows(x: nat, y: nat)
    requires x <= y
    ensures x / MILLION <= y / MILLION
  {}

  /** So a larger count is priced whenever it is priced at all at no less. */
  lemma CostIsMonotone(counts: TokenCounts, larger: TokenCounts, model: Option<string>)
    requires counts.cachedInput == larger.cachedInput && counts.cacheWriteInput == larger.cacheWriteInput
    requires counts.input.Some? && larger.input.Some? && counts.input.value <= larger.input.value
    requires counts.output.Some? && larger.output.Some? && counts.output.value <= larger.output.value
    requires CostMicroUsd(larger, model).Some?
    ensures CostMicroUsd(counts, model).Some?
    ensures CostMicroUsd(counts, model).value.0 <= CostMicroUsd(larger, model).value.0
    ensures CostMicroUsd(counts, model).value.1 == CostMicroUsd(larger, model).value.1
  {
    AmountIsMonotone(PriceOf(model.value).value, counts.input.value, larger.input.value, counts.cachedInput.value,
                     Or0(counts.cacheWriteInput), counts.output.value, larger.output.value);
  }

  // ---------------------------------------------------------------- caching saves

  lemma CachingShifts(p: Price, s: Split, t: Split)
    requires IsListed(p) && s.cached <= t.cached && t.written <= s.written && t.other <= s.other
    requires s.cached + s.written + s.other == t.cached + t.written + t.other
    ensures BaseCost(p, t) <= BaseCost(p, s)
  {
    var written, other := s.written - t.written, s.other - t.other;
    assert t.cached * p.cached == s.cached * p.cached + written * p.cached + other * p.cached;
    Bounded(written, p.cached, written, p.WriteRate());
    Bounded(other, p.cached, other, p.input);
    assert s.written * p.WriteRate() == t.written * p.WriteRate() + written * p.WriteRate();
    assert s.other * p.input == t.other * p.input + other * p.input;
  }

  /** Of the same input, the more is cached the less it costs: nothing is billed twice. */
  lemma CachingNeverCostsMore(model: string, input: nat, cachedInput: nat, more: nat, cacheWrite: nat, output: nat)
    requires PriceOf(model).Some? && cachedInput <= more
    ensures var p := PriceOf(model).value;
      Amount(p, input, more, cacheWrite, output) <= Amount(p, input, cachedInput, cacheWrite, output)
  {
    var p := PriceOf(model).value;
    var s, t := SplitOf(input, cachedInput, cacheWrite), SplitOf(input, more, cacheWrite);
    ListedPrices(model);
    SplitIsDisjoint(input, cachedInput, cacheWrite);
    SplitIsDisjoint(input, more, cacheWrite);
    CachingShifts(p, s, t);
    var long := IsLong(p, input);
    assert InputCost(p, t, long) <= InputCost(p, s, long);
    QuotientGrows(InputCost(p, t, long) + OutputCost(p, output, long),
                  InputCost(p, s, long) + OutputCost(p, output, long));
  }
}
