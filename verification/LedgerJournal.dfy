/** Conservation: the ledger is a journal of exact entries, summed and cut off at 64 bits.

    The journal keeps every reading since the last clear and, for each retained day, the list of
    unbounded amounts booked on it. It knows neither baselines nor saturation.
 */
module LedgerJournal {
  import opened Common
  import opened Days
  import opened Usage
  import opened Ledger
  import opened LedgerTheorems

  // ---------------------------------------------------------------- exact sums

  datatype Exact = Exact(total: nat, input: nat, cached: nat, output: nat, cost: nat)

  function Zero(): Exact { Exact(0, 0, 0, 0, 0) }

  function Plus(a: Exact, b: Exact): Exact {
    Exact(a.total + b.total, a.input + b.input, a.cached + b.cached, a.output + b.output, a.cost + b.cost)
  }

  function Cut(a: Exact): Tally {
    Tally(Saturate(a.total), Saturate(a.input), Saturate(a.cached), Saturate(a.output), Saturate(a.cost))
  }

  datatype Entry = Entry(hour: Hour, amount: Exact)

  function Sum(entries: seq<Entry>): Exact {
    if entries == [] then Zero() else Plus(Sum(entries[..|entries| - 1]), entries[|entries| - 1].amount)
  }

  function SumAt(entries: seq<Entry>, hour: nat): Exact {
    if entries == [] then Zero()
    else
      var last := entries[|entries| - 1];
      Plus(SumAt(entries[..|entries| - 1], hour), if last.hour == hour then last.amount else Zero())
  }

  /** The sum of the sums of the first `n` hours. */
  function SumOfHours(entries: seq<Entry>, n: nat): Exact {
    if n == 0 then Zero() else Plus(SumOfHours(entries, n - 1), SumAt(entries, n - 1))
  }

  lemma SumAtPushed(entries: seq<Entry>, entry: Entry, hour: nat)
    ensures SumAt(entries + [entry], hour) == Plus(SumAt(entries, hour), ShareAt(entry, hour))
  {
    assert (entries + [entry])[..|entries|] == entries;
  }

  lemma PlusZero(a: Exact)
    ensures Plus(a, Zero()) == a == Plus(Zero(), a)
  {}

  lemma PlusCrossed(a: Exact, b: Exact, c: Exact, d: Exact)
    ensures Plus(Plus(a, b), Plus(c, d)) == Plus(Plus(a, c), Plus(b, d))
  {}

  /** What an entry contributes to the first `n` hours. */
  function Share(entry: Entry, n: nat): Exact { if entry.hour < n then entry.amount else Zero() }

  function ShareAt(entry: Entry, hour: nat): Exact { if entry.hour == hour then entry.amount else Zero() }

  lemma ShareGrows(entry: Entry, n: nat)
    ensures Share(entry, n + 1) == Plus(Share(entry, n), ShareAt(entry, n))
  {
    if entry.hour < n {} else if entry.hour == n { PlusZero(entry.amount); } else {}
  }

  lemma {:induction false} EntryInOneHour(entries: seq<Entry>, entry: Entry, n: nat)
    ensures SumOfHours(entries + [entry], n) == Plus(SumOfHours(entries, n), Share(entry, n))
  {
    if n == 0 {
      PlusZero(Zero());
    } else {
      EntryInOneHour(entries, entry, n - 1);
      SumAtPushed(entries, entry, n - 1);
      PlusCrossed(SumOfHours(entries, n - 1), Share(entry, n - 1), SumAt(entries, n - 1), ShareAt(entry, n - 1));
      ShareGrows(entry, n - 1);
    }
  }

  lemma {:induction false} NoEntriesNoHours(n: nat)
    ensures SumOfHours([], n) == Zero()
  {
    if n > 0 { NoEntriesNoHours(n - 1); }
  }

  /** The exact sums of the 24 hours add up to the exact sum of the day. */
  lemma {:induction false} HoursAddUp(entries: seq<Entry>)
    ensures SumOfHours(entries, 24) == Sum(entries)
  {
    if entries == [] {
      NoEntriesNoHours(24);
    } else {
      var init, last := entries[..|entries| - 1], entries[|entries| - 1];
      HoursAddUp(init);
      EntryInOneHour(init, last, 24);
      assert entries == init + [last];
    }
  }

  /** The bucket a list of entries amounts to. */
  function Summary(entries: seq<Entry>): UsageDay {
    UsageDay(Cut(Sum(entries)), seq(24, h requires 0 <= h < 24 => Cut(SumAt(entries, h))))
  }

  lemma SummaryOfNothing()
    ensures Summary([]) == EmptyDay()
  {
    assert Summary([]).hours == NoHours();
  }

  lemma CutOfSum(a: Exact, b: Exact)
    ensures Cut(Plus(a, b)) == Increase(Cut(a), Cut(b))
  {}

  lemma SummaryHour(entries: seq<Entry>, hour: Hour)
    ensures Summary(entries).hours[hour] == Cut(SumAt(entries, hour))
  {}

  /** One hour before and after an entry, as exact sums. */
  lemma CutPushed(before: Exact, after: Exact, entry: Entry, hour: nat)
    requires after == Plus(before, ShareAt(entry, hour))
    ensures Cut(after) == if entry.hour == hour then Increase(Cut(before), Cut(entry.amount)) else Cut(before)
  {
    if entry.hour == hour { CutOfSum(before, entry.amount); } else { PlusZero(before); }
  }

  lemma HourPushed(entries: seq<Entry>, entry: Entry, hour: Hour)
    ensures Summary(entries + [entry]).hours[hour]
      == AddCounts(Summary(entries), entry.hour, Cut(entry.amount)).hours[hour]
  {
    SumAtPushed(entries, entry, hour);
    SummaryHour(entries, hour);
    SummaryHour(entries + [entry], hour);
    CutPushed(SumAt(entries, hour), SumAt(entries + [entry], hour), entry, hour);
  }

  lemma SummaryPushed(entries: seq<Entry>, entry: Entry)
    ensures Summary(entries + [entry]) == AddCounts(Summary(entries), entry.hour, Cut(entry.amount))
  {
    assert (entries + [entry])[..|entries|] == entries;
    CutOfSum(Sum(entries), entry.amount);
    forall h: Hour { HourPushed(entries, entry, h); }
    SameHours(Summary(entries + [entry]).hours, AddCounts(Summary(entries), entry.hour, Cut(entry.amount)).hours);
  }

  lemma SameHours(a: Hours, b: Hours)
    requires forall h: Hour :: a[h] == b[h]
    ensures a == b
  {
    assert forall i :: 0 <= i < 24 ==> a[i] == b[i] by {
      forall i | 0 <= i < 24 ensures a[i] == b[i] { var h: Hour := i; assert a[h] == b[h]; }
    }
  }

  // ---------------------------------------------------------------- runs

  datatype Operation =
    | Observe(clock: Clock, counters: seq<ThreadTokenCounter>)
    | Record(clock: Clock, counts: TokenCounts, cost: Option<u64>)
    | Replace(key: i32, events: seq<SessionEvent>)
    | Clear
    | Retain(days: nat)
    | MarkPersisted

  ghost function Next(s: LedgerState, op: Operation): LedgerState {
    match op
    case Observe(clock, counters) => Observed(s, clock, counters)
    case Record(clock, counts, cost) => Recorded(s, clock, counts, cost)
    case Replace(key, events) => Replaced(s, key, events)
    case Clear => Cleared(s)
    case Retain(days) => Retained(s, days)
    case MarkPersisted => s.(dirty := false)
  }

  ghost function Run(ops: seq<Operation>): LedgerState {
    if ops == [] then DEFAULT else Next(Run(ops[..|ops| - 1]), ops[|ops| - 1])
  }

  // ---------------------------------------------------------------- the journal

  datatype Journal = Journal(readings: seq<ThreadTokenCounter>, days: map<i32, seq<Entry>>, retained: nat)

  function EntriesAt(days: map<i32, seq<Entry>>, key: i32): seq<Entry> { if key in days then days[key] else [] }

  ghost function Entered(j: Journal, key: i32, entries: seq<Entry>): Journal {
    j.(days := Newest(j.days[key := entries], j.retained))
  }

  /** The slot of a day that an hour is filed under: anything past the last slot belongs to the last. */
  function Slot(hour: u64): Hour { if hour > 23 then 23 else hour }

  /** The number of days kept for a request: at least one, at most a year. */
  function Kept(days: nat): (kept: nat)
    ensures 1 <= kept <= 365
  {
    if days == 0 then 1 else if days > 365 then 365 else days
  }

  /** Input plus output where both are known, without any cut-off. */
  function ExactAmounts(counts: TokenCounts, cost: Option<u64>): Exact {
    var total := if counts.input.Some? && counts.output.Some? then counts.input.value + counts.output.value
      else Or0(counts.total);
    Exact(total, Or0(counts.input), Or0(counts.cachedInput), Or0(counts.output), Or0(cost))
  }

  function EntryOf(hour: u64, counts: TokenCounts, cost: Option<u64>): Entry {
    Entry(Slot(hour), ExactAmounts(counts, cost))
  }

  function EntriesOf(events: seq<SessionEvent>): seq<Entry> {
    seq(|events|, i requires 0 <= i < |events| => EntryOf(events[i].hour, events[i].counts, events[i].cost))
  }

  /** A gain is an entry without details. */
  ghost function WithGain(days: map<i32, seq<Entry>>, clock: Clock, gain: nat, limit: nat): map<i32, seq<Entry>> {
    if gain == 0 then days
    else
      var entry := Entry(Slot(clock.hour), Exact(gain, 0, 0, 0, 0));
      Newest(days[clock.day := EntriesAt(days, clock.day) + [entry]], limit)
  }

  ghost function Noted(j: Journal, op: Operation): Journal {
    match op
    case Observe(clock, counters) =>
      var readings := j.readings + counters;
      Journal(readings, WithGain(j.days, clock, Steps(readings, |j.readings|, |readings|), j.retained), j.retained)
    case Record(clock, counts, cost) =>
      if ExactAmounts(counts, cost).total == 0 then j
      else Entered(j, clock.day, EntriesAt(j.days, clock.day) + [EntryOf(clock.hour, counts, cost)])
    case Replace(key, events) => Entered(j, key, EntriesOf(events))
    case Clear => Journal([], map[], j.retained)
    case Retain(days) => j.(days := Newest(j.days, Kept(days)), retained := Kept(days))
    case MarkPersisted => j
  }

  ghost function Chronicle(ops: seq<Operation>): Journal {
    if ops == [] then Journal([], map[], 90) else Noted(Chronicle(ops[..|ops| - 1]), ops[|ops| - 1])
  }

  function Summaries(days: map<i32, seq<Entry>>): map<i32, UsageDay> { map k | k in days :: Summary(days[k]) }

  /** The ledger is what the journal amounts to. */
  ghost predicate Agrees(s: LedgerState, j: Journal) {
    && AreLatest(s.baselines, j.readings)
    && s.days == Summaries(j.days)
    && s.retained == j.retained && 1 <= s.retained <= MAX_RETAINED_DAYS && |s.days| <= s.retained
  }

  lemma SummariesTrimmed(days: map<i32, seq<Entry>>, limit: nat)
    ensures Newest(Summaries(days), limit) == Summaries(Newest(days, limit))
  {
    assert Summaries(days).Keys == days.Keys;
    NewestContents(days, limit);
    NewestContents(Summaries(days), limit);
  }

  lemma EnteringAgrees(days: map<i32, seq<Entry>>, key: i32, entries: seq<Entry>, limit: nat)
    ensures Newest(Summaries(days)[key := Summary(entries)], limit) == Summaries(Newest(days[key := entries], limit))
    ensures |Summaries(Newest(days[key := entries], limit))| <= limit
  {
    SummariesEntered(days, key, entries);
    SummariesTrimmed(days[key := entries], limit);
    NewestSize(Summaries(days[key := entries]), limit);
  }

  lemma SummariesEntered(days: map<i32, seq<Entry>>, key: i32, entries: seq<Entry>)
    ensures Summaries(days)[key := Summary(entries)] == Summaries(days[key := entries])
  {}

  /** One more entry on a day, in the ledger and in the journal. */
  lemma AppendingAgrees(days: map<i32, seq<Entry>>, key: i32, entry: Entry, limit: nat)
    ensures var summaries := Summaries(days);
      Newest(summaries[key := AddCounts(DayAt(summaries, key), entry.hour, Cut(entry.amount))], limit)
        == Summaries(Newest(days[key := EntriesAt(days, key) + [entry]], limit))
    ensures |Summaries(Newest(days[key := EntriesAt(days, key) + [entry]], limit))| <= limit
  {
    SummaryOfNothing();
    SummaryPushed(EntriesAt(days, key), entry);
    EnteringAgrees(days, key, EntriesAt(days, key) + [entry], limit);
  }

  lemma {:induction false} ReplacementIsSummary(events: seq<SessionEvent>)
    ensures Replacement(events) == Summary(EntriesOf(events))
  {
    if events == [] {
      SummaryOfNothing();
    } else {
      var init, last := events[..|events| - 1], events[|events| - 1];
      ReplacementIsSummary(init);
      SummaryPushed(EntriesOf(init), EntryOf(last.hour, last.counts, last.cost));
      assert EntriesOf(events) == EntriesOf(init) + [EntryOf(last.hour, last.counts, last.cost)];
    }
  }

  lemma GrowingAgrees(days: map<i32, seq<Entry>>, clock: Clock, gain: nat, limit: nat)
    ensures var grown := Summaries(WithGain(days, clock, gain, limit));
      Grown(Summaries(days), clock, gain, limit) == grown && (|Summaries(days)| <= limit ==> |grown| <= limit)
  {
    if gain > 0 {
      var entry := Entry(Slot(clock.hour), Exact(gain, 0, 0, 0, 0));
      assert entry.hour == HourOf(clock.hour) && Cut(entry.amount) == Tally(Saturate(gain), 0, 0, 0, 0);
      AppendingAgrees(days, clock.day, entry, limit);
    }
  }

  lemma ObservingAgrees(s: LedgerState, j: Journal, clock: Clock, counters: seq<ThreadTokenCounter>)
    requires Agrees(s, j)
    ensures Agrees(Observed(s, clock, counters), Noted(j, Observe(clock, counters)))
  {
    var gain := Gain(s.baselines, counters);
    var readings := j.readings + counters;
    GrowingAgrees(j.days, clock, gain, j.retained);
    assert AreLatest(Rebased(s.baselines, counters), readings) && Steps(readings, |j.readings|, |readings|) == gain by {
      GainIsSteps(s.baselines, j.readings, counters);
    }
    assert Noted(j, Observe(clock, counters))
      == Journal(readings, WithGain(j.days, clock, gain, j.retained), j.retained);
  }

  lemma RecordingAgrees(s: LedgerState, j: Journal, clock: Clock, counts: TokenCounts, cost: Option<u64>)
    requires Agrees(s, j)
    ensures Agrees(Recorded(s, clock, counts, cost), Noted(j, Record(clock, counts, cost)))
  {
    AppendingAgrees(j.days, clock.day, EntryOf(clock.hour, counts, cost), j.retained);
  }

  lemma ReplacingAgrees(s: LedgerState, j: Journal, key: i32, events: seq<SessionEvent>)
    requires Agrees(s, j)
    ensures Agrees(Replaced(s, key, events), Noted(j, Replace(key, events)))
  {
    ReplacementIsSummary(events);
    EnteringAgrees(j.days, key, EntriesOf(events), j.retained);
    if key in s.days && s.days[key] == Replacement(events) {
      assert s.days[key := Replacement(events)] == s.days;
      NewestSize(s.days, s.retained);
    }
  }

  lemma RetainingAgrees(s: LedgerState, j: Journal, days: nat)
    requires Agrees(s, j)
    ensures Agrees(Retained(s, days), Noted(j, Retain(days)))
  {
    SummariesTrimmed(j.days, Kept(days));
    NewestSize(s.days, Kept(days));
  }

  lemma NotingAgrees(s: LedgerState, j: Journal, op: Operation)
    requires Agrees(s, j)
    ensures Agrees(Next(s, op), Noted(j, op))
  {
    match op
    case Observe(clock, counters) => ObservingAgrees(s, j, clock, counters);
    case Record(clock, counts, cost) => RecordingAgrees(s, j, clock, counts, cost);
    case Replace(key, events) => ReplacingAgrees(s, j, key, events);
    case Retain(days) => RetainingAgrees(s, j, days);
    case _ =>
  }

  /** Over every run: each counter of each retained day and hour is the least of the 64-bit limit
      and the exact sum of its journal entries, and no more days are kept than asked for. */
  lemma {:induction false} LedgerIsItsJournal(ops: seq<Operation>)
    ensures Agrees(Run(ops), Chronicle(ops))
  {
    if ops != [] {
      LedgerIsItsJournal(ops[..|ops| - 1]);
      NotingAgrees(Run(ops[..|ops| - 1]), Chronicle(ops[..|ops| - 1]), ops[|ops| - 1]);
    }
  }
}
