/** Saving and loading the ledger: as a list of days, and as rows of two tables.

    Loading repairs totals that once counted cached tokens twice. The round trips are proved
    together with the exact days on which they fail.
 */
module LedgerStore {
  import opened Common
  import opened Days
  import opened Usage
  import opened Ledger
  import opened LedgerJournal

  const VERSION: nat := 3

  // ---------------------------------------------------------------- repair

  predicate HasDetail(t: Tally) { t.input > 0 || t.output > 0 }

  function Repaired(t: Tally): Tally { if HasDetail(t) then t.(total := Saturate(t.input + t.output)) else t }

  predicate Canonical(t: Tally) { HasDetail(t) ==> t.total == Saturate(t.input + t.output) }

  function RepairedDay(day: UsageDay): UsageDay {
    UsageDay(Repaired(day.sum), seq(24, h requires 0 <= h < 24 => Repaired(day.hours[h])))
  }

  ghost predicate CanonicalDay(day: UsageDay) {
    Canonical(day.sum) && forall h :: 0 <= h < 24 ==> Canonical(day.hours[h])
  }

  lemma RepairChangesOnlyTheRest(day: UsageDay)
    ensures CanonicalDay(RepairedDay(day))
    ensures RepairedDay(day) == day <==> CanonicalDay(day)
  {
    var repaired := RepairedDay(day);
    forall h | 0 <= h < 24
      ensures Canonical(repaired.hours[h]) && (repaired.hours[h] == day.hours[h] <==> Canonical(day.hours[h]))
    {}
    if CanonicalDay(day) { assert repaired.hours == day.hours; }
  }

  // ---------------------------------------------------------------- the list of days

  datatype PersistedLedger = PersistedLedger(version: nat, days: seq<PersistedUsageDay>)

  /** The days of a listing by key; of two entries with one key the later wins. */
  function Collected(listing: seq<PersistedUsageDay>): map<i32, UsageDay> {
    if listing == [] then map[]
    else
      var last := listing[|listing| - 1];
      Collected(listing[..|listing| - 1])[last.key := RepairedDay(last.day)]
  }

  ghost function Restored(listing: seq<PersistedUsageDay>): LedgerState {
    LedgerState(map[], Newest(Collected(listing), MAX_RETAINED_DAYS), false, 90)
  }

  ghost function Listing(days: map<i32, UsageDay>): seq<PersistedUsageDay> {
    ListedIsAscending(days.Keys);
    seq(|days|, i requires 0 <= i < |days| =>
      PersistedUsageDay(Listed(days.Keys)[i], DayAt(days, Listed(days.Keys)[i])))
  }

  method FromPersisted(persisted: PersistedLedger) returns (ledger: LocalUsageLedger)
    ensures fresh(ledger) && ledger.State() == Restored(persisted.days)
  {
    var days: map<i32, UsageDay> := map[];
    for i := 0 to |persisted.days|
      invariant days == Collected(persisted.days[..i])
    {
      assert persisted.days[..i + 1][..i] == persisted.days[..i];
      days := days[persisted.days[i].key := RepairedDay(persisted.days[i].day)];
    }
    assert persisted.days[..|persisted.days|] == persisted.days;
    ledger := new LocalUsageLedger();
    ledger.days, ledger.retainedDays := days, MAX_RETAINED_DAYS;
    ledger.PruneDays();
    ledger.retainedDays := 90;
  }

  method Persisted(ledger: LocalUsageLedger) returns (persisted: PersistedLedger)
    ensures persisted.version == VERSION && persisted.days == Listing(ledger.days)
  {
    var keys: seq<i32> := [];
    var rest := ledger.days.Keys;
    while rest != {}
      invariant keys + Listed(rest) == Listed(ledger.days.Keys) && rest <= ledger.days.Keys
      invariant forall k :: k in keys ==> k in ledger.days
      decreases |rest|
    {
      HasOldest(rest);
      var first :| first in rest && forall k :: k in rest ==> first <= k;
      assert first == Oldest(rest);
      keys, rest := keys + [first], rest - {first};
    }
    assert keys + [] == keys;
    ListedIsAscending(ledger.days.Keys);
    var days := ledger.days;
    persisted := PersistedLedger(VERSION,
      seq(|keys|, i requires 0 <= i < |keys| => PersistedUsageDay(keys[i], DayAt(days, keys[i]))));
  }

  ghost predicate HoldsOneOf(listing: seq<PersistedUsageDay>, days: map<i32, UsageDay>) {
    forall i :: 0 <= i < |listing| ==> listing[i].key in days && listing[i].day == days[listing[i].key]
  }

  lemma {:induction false} CollectedHolds(listing: seq<PersistedUsageDay>, days: map<i32, UsageDay>)
    requires HoldsOneOf(listing, days)
    ensures Collected(listing).Keys == Members(KeysOf(listing))
    ensures forall k :: k in Collected(listing) ==> k in days && Collected(listing)[k] == RepairedDay(days[k])
  {
    if listing != [] {
      var init, last := listing[..|listing| - 1], listing[|listing| - 1];
      CollectedHolds(init, days);
      assert KeysOf(listing) == KeysOf(init) + [last.key];
    }
  }

  function RepairedDays(days: map<i32, UsageDay>): map<i32, UsageDay> { map k | k in days :: RepairedDay(days[k]) }

  lemma ListingHolds(days: map<i32, UsageDay>)
    ensures HoldsOneOf(Listing(days), days) && KeysOf(Listing(days)) == Listed(days.Keys)
  {
    ListedIsAscending(days.Keys);
    assert forall i :: 0 <= i < |days| ==> Listed(days.Keys)[i] in Listed(days.Keys);
  }

  lemma CollectedListing(days: map<i32, UsageDay>)
    ensures Collected(Listing(days)) == RepairedDays(days)
  {
    ListingHolds(days);
    CollectedHolds(Listing(days), days);
    ListedIsAscending(days.Keys);
    assert Members(Listed(days.Keys)) == days.Keys;
  }

  ghost predicate AllCanonical(days: map<i32, UsageDay>) { forall k :: k in days ==> CanonicalDay(days[k]) }

  lemma RepairedDaysSame(days: map<i32, UsageDay>)
    ensures RepairedDays(days) == days <==> AllCanonical(days)
    ensures AllCanonical(RepairedDays(days)) && |RepairedDays(days)| == |days|
  {
    assert RepairedDays(days).Keys == days.Keys;
    forall k | k in days
      ensures CanonicalDay(RepairedDay(days[k])) && (RepairedDay(days[k]) == days[k] <==> CanonicalDay(days[k]))
    {
      RepairChangesOnlyTheRest(days[k]);
    }
    if RepairedDays(days) == days { assert forall k :: k in days ==> RepairedDays(days)[k] == days[k]; }
  }

  /** Saving and loading is the identity exactly on at most 365 days whose totals equal input plus
      output wherever there is detail. */
  lemma PersistingKeepsIff(days: map<i32, UsageDay>)
    ensures Restored(Listing(days)).days == days <==> |days| <= MAX_RETAINED_DAYS && AllCanonical(days)
  {
    CollectedListing(days);
    RepairedDaysSame(days);
    NewestSize(RepairedDays(days), MAX_RETAINED_DAYS);
  }

  lemma {:induction false} CollectedIsCanonical(listing: seq<PersistedUsageDay>)
    ensures AllCanonical(Collected(listing))
  {
    if listing != [] {
      CollectedIsCanonical(listing[..|listing| - 1]);
      RepairChangesOnlyTheRest(listing[|listing| - 1].day);
    }
  }

  /** Whatever was loaded, even duplicate or damaged days, survives any later save and load. */
  lemma RestoringTwice(listing: seq<PersistedUsageDay>)
    ensures Restored(Listing(Restored(listing).days)) == Restored(listing)
  {
    var days := Restored(listing).days;
    CollectedIsCanonical(listing);
    NewestContents(Collected(listing), MAX_RETAINED_DAYS);
    NewestSize(Collected(listing), MAX_RETAINED_DAYS);
    PersistingKeepsIff(days);
  }

  // ---------------------------------------------------------------- days with and without detail

  /** The part of the totals that no input or output accounts for. */
  function Loose(entries: seq<Entry>): int {
    if entries == [] then 0
    else
      var amount := entries[|entries| - 1].amount;
      Loose(entries[..|entries| - 1]) + (amount.total - amount.input - amount.output)
  }

  lemma {:induction false} LooseIsTheDifference(entries: seq<Entry>)
    ensures Loose(entries) == Sum(entries).total - Sum(entries).input - Sum(entries).output
  {
    if entries != [] { LooseIsTheDifference(entries[..|entries| - 1]); }
  }

  /** Without detail, or with totals that equal input plus output as far as 64 bits can tell. */
  predicate IsBalanced(a: Exact) { a.input + a.output == 0 || Saturate(a.total) == Saturate(a.input + a.output) }

  lemma CutIsCanonicalIff(a: Exact)
    ensures Canonical(Cut(a)) <==> IsBalanced(a)
  {}

  lemma HourIsCanonicalIff(entries: seq<Entry>, h: nat)
    requires h < 24
    ensures Canonical(Summary(entries).hours[h]) <==> IsBalanced(SumAt(entries, h))
  {
    SummaryHour(entries, h);
    CutIsCanonicalIff(SumAt(entries, h));
  }

  ghost predicate AllBalanced(entries: seq<Entry>) {
    IsBalanced(Sum(entries)) && forall h :: 0 <= h < 24 ==> IsBalanced(SumAt(entries, h))
  }

  /** A day survives exactly if its sum is balanced and the sum of each of its hours is. */
  lemma MixedDayIff(entries: seq<Entry>)
    ensures CanonicalDay(Summary(entries)) <==> AllBalanced(entries)
  {
    CutIsCanonicalIff(Sum(entries));
    var day := Summary(entries);
    if CanonicalDay(day) {
      forall h | 0 <= h < 24 ensures IsBalanced(SumAt(entries, h)) {
        HourIsCanonicalIff(entries, h);
        assert Canonical(day.hours[h]);
      }
    }
    if AllBalanced(entries) {
      forall h | 0 <= h < 24 ensures Canonical(day.hours[h]) {
        HourIsCanonicalIff(entries, h);
        assert IsBalanced(SumAt(entries, h));
      }
    }
  }

  /** Below the 64-bit limit a sum with detail is balanced exactly if the plain parts cancel out. */
  lemma LooseIff(entries: seq<Entry>)
    requires var sum := Sum(entries); sum.total <= U64_MAX && sum.input + sum.output <= U64_MAX
    ensures IsBalanced(Sum(entries)) <==> Sum(entries).input + Sum(entries).output == 0 || Loose(entries) == 0
  {
    LooseIsTheDifference(entries);
  }

  lemma OneDayKept(day: UsageDay, days: map<i32, UsageDay>, key: i32)
    requires days.Keys <= {key}
    ensures Newest(days[key := day], 90) == map[key := day]
  {
    assert days[key := day] == map[key := day];
    NewestSize(map[key := day], 90);
  }

  lemma SingleDayRestored(key: i32, day: UsageDay)
    ensures Restored(Listing(map[key := day])).days == map[key := RepairedDay(day)]
  {
    CollectedListing(map[key := day]);
    assert RepairedDays(map[key := day]) == map[key := RepairedDay(day)];
    NewestSize(RepairedDays(map[key := day]), MAX_RETAINED_DAYS);
  }

  lemma RunOfTwo(first: Operation, second: Operation)
    ensures Run([first, second]) == Next(Next(DEFAULT, first), second)
  {
    assert [first, second][..1] == [first] && [first][..0] == [];
    assert Run([first]) == Next(Run([]), first);
  }

  function CountedDay(hour: Hour, gain: nat): UsageDay {
    AddCounts(EmptyDay(), hour, Tally(Saturate(gain), 0, 0, 0, 0))
  }

  /** The day after a gain of the counters and one detailed event. */
  function MixedDay(hour: Hour, gain: nat, input: u64, output: u64): UsageDay {
    AddCounts(CountedDay(hour, gain), hour, Amounts(Turn(input, output), None))
  }

  lemma MixedSums(hour: Hour, gain: nat, input: u64, output: u64)
    requires gain > 0 && input + output > 0 && gain + input + output <= U64_MAX
    ensures MixedDay(hour, gain, input, output).sum.total == gain + input + output
    ensures RepairedDay(MixedDay(hour, gain, input, output)).sum.total == input + output
  {}

  lemma FirstGain(s: LedgerState, clock: Clock, counters: seq<ThreadTokenCounter>)
    requires s.days == map[] && s.retained == 90 && Gain(s.baselines, counters) > 0
    ensures Observed(s, clock, counters).retained == 90
    ensures Observed(s, clock, counters).days
      == map[clock.day := CountedDay(HourOf(clock.hour), Gain(s.baselines, counters))]
  {
    OneDayKept(CountedDay(HourOf(clock.hour), Gain(s.baselines, counters)), s.days, clock.day);
  }

  lemma ThenDetail(s: LedgerState, clock: Clock, gain: nat, input: u64, output: u64)
    requires s.days == map[clock.day := CountedDay(HourOf(clock.hour), gain)] && s.retained == 90 && input + output > 0
    ensures Recorded(s, clock, Turn(input, output), None).days
      == map[clock.day := MixedDay(HourOf(clock.hour), gain, input, output)]
  {
    OneDayKept(MixedDay(HourOf(clock.hour), gain, input, output), s.days, clock.day);
  }

  lemma MixedRun(clock: Clock, counters: seq<ThreadTokenCounter>, input: u64, output: u64)
    requires Gain(map[], counters) > 0 && input + output > 0
    ensures Run([Observe(clock, counters), Record(clock, Turn(input, output), None)]).days
      == map[clock.day := MixedDay(HourOf(clock.hour), Gain(map[], counters), input, output)]
  {
    RunOfTwo(Observe(clock, counters), Record(clock, Turn(input, output), None));
    FirstGain(DEFAULT, clock, counters);
    ThenDetail(Observed(DEFAULT, clock, counters), clock, Gain(map[], counters), input, output);
  }

  /** A gain seen only by the counters and a detailed event on one day: the gain is gone once the
      ledger has been saved and loaded. */
  lemma MixedDayShrinks(clock: Clock, counters: seq<ThreadTokenCounter>, input: u64, output: u64)
    requires var gain := Gain(map[], counters); gain > 0 && input + output > 0 && gain + input + output <= U64_MAX
    ensures var s := Run([Observe(clock, counters), Record(clock, Turn(input, output), None)]);
      var restored := Restored(Listing(s.days));
      && clock.day in s.days && s.days[clock.day].sum.total == Gain(map[], counters) + input + output
      && clock.day in restored.days && restored.days[clock.day].sum.total == input + output
  {
    var day := MixedDay(HourOf(clock.hour), Gain(map[], counters), input, output);
    MixedRun(clock, counters, input, output);
    MixedSums(HourOf(clock.hour), Gain(map[], counters), input, output);
    SingleDayRestored(clock.day, day);
  }
}
