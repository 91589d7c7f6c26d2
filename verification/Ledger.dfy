/** The local token ledger: per-thread baselines and day buckets of 24 hours.

    The class updates its fields in place; each method equals a function of the old state. What
    the ledger is worth is proved in LedgerTheorems about runs of those functions.
 */
module Ledger {
  import opened Common
  import opened Days
  import opened Usage

  const MAX_RETAINED_DAYS := 365

  datatype ThreadTokenCounter = ThreadTokenCounter(thread: string, tokens: u64)

  datatype Clock = Clock(day: i32, hour: u64)

  /** The five counters kept for a day and for each of its hours. */
  datatype Tally = Tally(total: u64, input: u64, cached: u64, output: u64, cost: u64)

  function Nothing(): Tally { Tally(0, 0, 0, 0, 0) }

  type Hour = h: nat | h < 24

  type Hours = hours: seq<Tally> | |hours| == 24 witness seq(24, i => Nothing())

  function NoHours(): Hours { seq(24, i => Nothing()) }

  datatype UsageDay = UsageDay(sum: Tally, hours: Hours)

  function EmptyDay(): UsageDay { UsageDay(Nothing(), NoHours()) }

  datatype PersistedUsageDay = PersistedUsageDay(key: i32, day: UsageDay)

  function KeysOf(listing: seq<PersistedUsageDay>): seq<i32> {
    seq(|listing|, i requires 0 <= i < |listing| => listing[i].key)
  }

  function Amounts(counts: TokenCounts, cost: Option<u64>): Tally {
    Tally(Or0(DisplayTotal(counts)), Or0(counts.input), Or0(counts.cachedInput), Or0(counts.output), Or0(cost))
  }

  function HourOf(hour: u64): Hour { if hour < 23 then hour else 23 }

  function Increase(t: Tally, more: Tally): Tally {
    Tally(Saturate(t.total + more.total), Saturate(t.input + more.input), Saturate(t.cached + more.cached),
          Saturate(t.output + more.output), Saturate(t.cost + more.cost))
  }

  function AddCounts(day: UsageDay, hour: Hour, more: Tally): UsageDay {
    UsageDay(Increase(day.sum, more), day.hours[hour := Increase(day.hours[hour], more)])
  }

  // ---------------------------------------------------------------- the ledger as a value

  datatype LedgerState = LedgerState(baselines: map<string, u64>, days: map<i32, UsageDay>, dirty: bool, retained: nat)

  const DEFAULT := LedgerState(map[], map[], false, 90)

  function DayAt(days: map<i32, UsageDay>, key: i32): UsageDay { if key in days then days[key] else EmptyDay() }

  /** How far a thread's counter rose above its baseline; nothing on first sight or after a drop. */
  function Rise(baselines: map<string, u64>, c: ThreadTokenCounter): u64 {
    if c.thread in baselines && c.tokens > baselines[c.thread] then c.tokens - baselines[c.thread] else 0
  }

  function Rebased(baselines: map<string, u64>, counters: seq<ThreadTokenCounter>): map<string, u64> {
    if counters == [] then baselines
    else
      var last := counters[|counters| - 1];
      Rebased(baselines, counters[..|counters| - 1])[last.thread := last.tokens]
  }

  /** The exact sum of the rises while the counters are taken in one by one. */
  function Gain(baselines: map<string, u64>, counters: seq<ThreadTokenCounter>): nat {
    if counters == [] then 0
    else
      var init := counters[..|counters| - 1];
      Gain(baselines, init) + Rise(Rebased(baselines, init), counters[|counters| - 1])
  }

  /** A day's bucket is replaced, and the oldest days beyond the retained ones are dropped. */
  ghost function Booked(s: LedgerState, key: i32, day: UsageDay): LedgerState {
    s.(days := Newest(s.days[key := day], s.retained), dirty := true)
  }

  /** A gain goes to the total of its day and hour. */
  ghost function Grown(days: map<i32, UsageDay>, clock: Clock, gain: nat, limit: nat): map<i32, UsageDay> {
    if gain == 0 then days
    else
      var more := Tally(Saturate(gain), 0, 0, 0, 0);
      Newest(days[clock.day := AddCounts(DayAt(days, clock.day), HourOf(clock.hour), more)], limit)
  }

  ghost function Observed(s: LedgerState, clock: Clock, counters: seq<ThreadTokenCounter>): LedgerState {
    var gain := Gain(s.baselines, counters);
    LedgerState(Rebased(s.baselines, counters), Grown(s.days, clock, gain, s.retained), s.dirty || gain > 0, s.retained)
  }

  ghost function Recorded(s: LedgerState, clock: Clock, counts: TokenCounts, cost: Option<u64>): LedgerState {
    if Or0(DisplayTotal(counts)) == 0 then s
    else Booked(s, clock.day, AddCounts(DayAt(s.days, clock.day), HourOf(clock.hour), Amounts(counts, cost)))
  }

  datatype SessionEvent = SessionEvent(hour: u64, counts: TokenCounts, cost: Option<u64>)

  function Replacement(events: seq<SessionEvent>): UsageDay {
    if events == [] then EmptyDay()
    else
      var last := events[|events| - 1];
      AddCounts(Replacement(events[..|events| - 1]), HourOf(last.hour), Amounts(last.counts, last.cost))
  }

  ghost function Replaced(s: LedgerState, key: i32, events: seq<SessionEvent>): LedgerState {
    if key in s.days && s.days[key] == Replacement(events) then s else Booked(s, key, Replacement(events))
  }

  function Cleared(s: LedgerState): LedgerState { LedgerState(map[], map[], true, s.retained) }

  function Clamped(days: nat): nat { if days < 1 then 1 else Min(days, MAX_RETAINED_DAYS) }

  ghost function Retained(s: LedgerState, days: nat): LedgerState {
    var kept := Newest(s.days, Clamped(days));
    s.(days := kept, retained := Clamped(days), dirty := s.dirty || |kept| != |s.days|)
  }

  // ---------------------------------------------------------------- the ledger as an object

  class LocalUsageLedger {
    var baselines: map<string, u64>
    var days: map<i32, UsageDay>
    var dirty: bool
    var retainedDays: nat

    ghost function State(): LedgerState reads this { LedgerState(baselines, days, dirty, retainedDays) }

    constructor ()
      ensures State() == DEFAULT
    {
      baselines, days, dirty, retainedDays := map[], map[], false, 90;
    }

    method Clear()
      modifies this
      ensures State() == Cleared(old(State()))
    {
      baselines, days, dirty := map[], map[], true;
    }

    /** Takes in one frame of counters; true when the local statistics grew. */
    method Observe(clock: Clock, counters: seq<ThreadTokenCounter>) returns (grew: bool)
      modifies this
      ensures State() == Observed(old(State()), clock, counters)
      ensures grew <==> Gain(old(baselines), counters) > 0
    {
      var hour := HourOf(clock.hour);
      var delta: u64 := 0;
      for i := 0 to |counters|
        invariant baselines == Rebased(old(baselines), counters[..i])
        invariant delta == Saturate(Gain(old(baselines), counters[..i]))
        invariant days == old(days) && dirty == old(dirty) && retainedDays == old(retainedDays)
      {
        assert counters[..i + 1][..i] == counters[..i];
        var c := counters[i];
        if c.thread in baselines && c.tokens > baselines[c.thread] {
          delta := Saturate(delta + (c.tokens - baselines[c.thread]));
        }
        baselines := baselines[c.thread := c.tokens];
      }
      assert counters[..|counters|] == counters;
      if delta == 0 { return false; }
      days := days[clock.day := AddCounts(DayAt(days, clock.day), hour, Tally(delta, 0, 0, 0, 0))];
      PruneDays();
      dirty := true;
      grew := true;
    }

    /** Replaces one day by a full scan of its events, so that a rescan counts nothing twice. */
    method ReplaceSessionDay(key: i32, events: seq<SessionEvent>) returns (changed: bool)
      modifies this
      ensures State() == Replaced(old(State()), key, events)
      ensures changed <==> !(key in old(days) && old(days)[key] == Replacement(events))
    {
      var replacement := EmptyDay();
      for i := 0 to |events|
        invariant replacement == Replacement(events[..i])
        invariant State() == old(State())
      {
        assert events[..i + 1][..i] == events[..i];
        replacement := AddCounts(replacement, HourOf(events[i].hour), Amounts(events[i].counts, events[i].cost));
      }
      assert events[..|events|] == events;
      if key in days && days[key] == replacement { return false; }
      days := days[key := replacement];
      PruneDays();
      dirty := true;
      changed := true;
    }

    method ObserveSessionEvent(clock: Clock, counts: TokenCounts, cost: Option<u64>) returns (recorded: bool)
      modifies this
      ensures State() == Recorded(old(State()), clock, counts, cost)
      ensures recorded <==> Or0(DisplayTotal(counts)) > 0
    {
      if Or0(DisplayTotal(counts)) == 0 { return false; }
      days := days[clock.day := AddCounts(DayAt(days, clock.day), HourOf(clock.hour), Amounts(counts, cost))];
      PruneDays();
      dirty := true;
      recorded := true;
    }

    method MarkPersisted()
      modifies this
      ensures State() == old(State()).(dirty := false)
    {
      dirty := false;
    }

    method SetRetentionDays(requested: nat)
      modifies this
      ensures State() == Retained(old(State()), requested)
    {
      retainedDays := Clamped(requested);
      var before := |days|;
      PruneDays();
      dirty := dirty || |days| != before;
    }

    /** Drops the oldest day until at most `retainedDays` are left. */
    method PruneDays()
      modifies this
      ensures KeepsNewest(days, old(days), retainedDays)
      ensures State() == old(State()).(days := Newest(old(days), old(retainedDays)))
    {
      while |days| > retainedDays
        invariant NewestKeys(days.Keys, retainedDays) == NewestKeys(old(days).Keys, retainedDays)
        invariant days.Keys <= old(days).Keys && forall k :: k in days ==> days[k] == old(days)[k]
        invariant baselines == old(baselines) && dirty == old(dirty) && retainedDays == old(retainedDays)
        decreases |days|
      {
        ghost var keys := days.Keys;
        HasOldest(keys);
        var first :| first in days && forall k :: k in days ==> first <= k;
        days := days - {first};
        assert first == Oldest(keys) && days.Keys == keys - {first};
      }
      NewestContents(old(days), retainedDays);
      assert days == Newest(old(days), retainedDays);
      KeepingNewest(days, old(days), retainedDays);
    }

    /** The newest `limit` days, oldest first. */
    method RecentDays(limit: nat) returns (recent: seq<PersistedUsageDay>)
      ensures Ascending(KeysOf(recent)) && AreNewest(Members(KeysOf(recent)), days.Keys, limit)
      ensures forall r :: r in recent ==> r.key in days && r.day == days[r.key]
    {
      var keys := NewestListing(days.Keys, limit);
      var bucket := days;
      recent := seq(|keys|, i requires 0 <= i < |keys| && keys[i] in bucket =>
        PersistedUsageDay(keys[i], bucket[keys[i]]));
      assert KeysOf(recent) == keys;
    }
  }

  method NewestListing(all: set<i32>, limit: nat) returns (keys: seq<i32>)
    ensures Ascending(keys) && AreNewest(Members(keys), all, limit)
  {
    keys := [];
    var rest := all;
    SplitsNone(all);
    while |keys| < limit && rest != {}
      invariant |keys| <= limit && Splits(keys, rest, all)
      decreases |rest|
    {
      HasLatest(rest);
      var last: i32 :| last in rest && forall k :: k in rest ==> k <= last;
      assert IsLatest(rest, last);
      SplitsNext(keys, rest, all, last);
      keys, rest := [last] + keys, rest - {last};
    }
    SplitIsNewest(keys, rest, all, limit);
  }
}
