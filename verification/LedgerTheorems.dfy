/** What the ledger is worth over whole runs.

    Batching frames differently changes nothing, and every counter is the exact sum of what a
    journal of unbounded entries says was added, cut off at the largest 64-bit value.
 */
module LedgerTheorems {
  import opened Common
  import opened Days
  import opened Ledger

  // ---------------------------------------------------------------- batching

  lemma {:induction false} GainOfBatches(base: map<string, u64>, a: seq<ThreadTokenCounter>, b: seq<ThreadTokenCounter>)
    ensures Rebased(base, a + b) == Rebased(Rebased(base, a), b)
    ensures Gain(base, a + b) == Gain(base, a) + Gain(Rebased(base, a), b)
  {
    if b == [] {
      assert a + b == a;
    } else {
      GainOfBatches(base, a, b[..|b| - 1]);
      assert (a + b)[..|a + b| - 1] == a + b[..|b| - 1];
    }
  }

  function OnlyTotal(gain: nat): Tally { Tally(Saturate(gain), 0, 0, 0, 0) }

  lemma AddingTwice(day: UsageDay, hour: Hour, x: nat, y: nat)
    ensures AddCounts(AddCounts(day, hour, OnlyTotal(x)), hour, OnlyTotal(y)) == AddCounts(day, hour, OnlyTotal(x + y))
  {
    var twice := AddCounts(AddCounts(day, hour, OnlyTotal(x)), hour, OnlyTotal(y));
    assert twice.hours == AddCounts(day, hour, OnlyTotal(x + y)).hours;
  }

  /** Two positive gains booked one after the other, even when the day is dropped at once. */
  lemma BookingTwice(days: map<i32, UsageDay>, key: i32, hour: Hour, x: nat, y: nat, limit: nat)
    ensures var once := Newest(days[key := AddCounts(DayAt(days, key), hour, OnlyTotal(x))], limit);
      Newest(once[key := AddCounts(DayAt(once, key), hour, OnlyTotal(y))], limit)
        == Newest(days[key := AddCounts(DayAt(days, key), hour, OnlyTotal(x + y))], limit)
  {
    var first, joint := AddCounts(DayAt(days, key), hour, OnlyTotal(x)),
      AddCounts(DayAt(days, key), hour, OnlyTotal(x + y));
    var once := Newest(days[key := first], limit);
    var second := AddCounts(DayAt(once, key), hour, OnlyTotal(y));
    EnteringTwice(days, key, first, second, limit);
    if key in once {
      NewestContents(days[key := first], limit);
      AddingTwice(DayAt(days, key), hour, x, y);
    } else {
      EnteringInVain(days, key, first, second, limit);
      EnteringInVain(days, key, first, joint, limit);
    }
  }

  lemma GrowingTwice(days: map<i32, UsageDay>, clock: Clock, x: nat, y: nat, limit: nat)
    ensures Grown(Grown(days, clock, x, limit), clock, y, limit) == Grown(days, clock, x + y, limit)
  {
    if x > 0 && y > 0 { BookingTwice(days, clock.day, HourOf(clock.hour), x, y, limit); }
  }

  /** One frame or two at the same clock: the same ledger, with repeats, saturation and pruning. */
  lemma ObservingInBatches(s: LedgerState, clock: Clock, a: seq<ThreadTokenCounter>, b: seq<ThreadTokenCounter>)
    ensures Observed(Observed(s, clock, a), clock, b) == Observed(s, clock, a + b)
  {
    GainOfBatches(s.baselines, a, b);
    GrowingTwice(s.days, clock, Gain(s.baselines, a), Gain(Rebased(s.baselines, a), b), s.retained);
  }

  // ---------------------------------------------------------------- readings since the last clear

  /** The last reading of a thread among the first `n`. */
  function Previous(log: seq<ThreadTokenCounter>, thread: string, n: nat): Option<u64>
    requires n <= |log|
  {
    if n == 0 then None
    else if log[n - 1].thread == thread then Some(log[n - 1].tokens)
    else Previous(log, thread, n - 1)
  }

  /** How far reading `i` lies above the reading of the same thread before it. */
  function Step(log: seq<ThreadTokenCounter>, i: nat): u64
    requires i < |log|
  {
    var previous := Previous(log, log[i].thread, i);
    if previous.Some? && log[i].tokens > previous.value then log[i].tokens - previous.value else 0
  }

  function Steps(log: seq<ThreadTokenCounter>, from: nat, to: nat): nat
    requires from <= to <= |log|
  {
    if from == to then 0 else Steps(log, from, to - 1) + Step(log, to - 1)
  }

  lemma {:induction false} PreviousInPrefix(log: seq<ThreadTokenCounter>, more: seq<ThreadTokenCounter>,
                                            thread: string, n: nat)
    requires n <= |log|
    ensures Previous(log + more, thread, n) == Previous(log, thread, n)
  {
    if n > 0 { PreviousInPrefix(log, more, thread, n - 1); }
  }

  lemma {:induction false} StepsInPrefix(log: seq<ThreadTokenCounter>, more: seq<ThreadTokenCounter>,
                                         from: nat, to: nat)
    requires from <= to <= |log|
    ensures Steps(log + more, from, to) == Steps(log, from, to)
  {
    if from < to {
      StepsInPrefix(log, more, from, to - 1);
      PreviousInPrefix(log, more, log[to - 1].thread, to - 1);
    }
  }

  /** The baselines are the last readings of every thread seen. */
  ghost predicate AreLatest(base: map<string, u64>, log: seq<ThreadTokenCounter>) {
    forall t :: Previous(log, t, |log|) == if t in base then Some(base[t]) else None
  }

  lemma RebasedIsLatest(base: map<string, u64>, log: seq<ThreadTokenCounter>, c: ThreadTokenCounter)
    requires AreLatest(base, log)
    ensures AreLatest(base[c.thread := c.tokens], log + [c])
  {
    forall t { PreviousInPrefix(log, [c], t, |log|); }
  }

  /** The map of baselines and the whole log of readings agree on what a frame adds. */
  lemma {:induction false} GainIsSteps(base: map<string, u64>, log: seq<ThreadTokenCounter>,
                                       counters: seq<ThreadTokenCounter>)
    requires AreLatest(base, log)
    ensures AreLatest(Rebased(base, counters), log + counters)
    ensures Gain(base, counters) == Steps(log + counters, |log|, |log| + |counters|)
  {
    if counters == [] {
      assert log + counters == log;
    } else {
      var init, last := counters[..|counters| - 1], counters[|counters| - 1];
      GainIsSteps(base, log, init);
      assert log + counters == log + init + [last];
      RebasedIsLatest(Rebased(base, init), log + init, last);
      StepsInPrefix(log + init, [last], |log|, |log| + |init|);
      PreviousInPrefix(log + init, [last], last.thread, |log + init|);
    }
  }

  // ---------------------------------------------------------------- thread by thread

  /** The readings of one thread, in order. */
  function Only(log: seq<ThreadTokenCounter>, thread: string): seq<u64> {
    if log == [] then []
    else
      var rest := Only(log[..|log| - 1], thread);
      if log[|log| - 1].thread == thread then rest + [log[|log| - 1].tokens] else rest
  }

  /** The sum of the positive differences of neighbouring readings. */
  function Climb(readings: seq<u64>): nat {
    if |readings| < 2 then 0
    else
      var previous, last := readings[|readings| - 2], readings[|readings| - 1];
      Climb(readings[..|readings| - 1]) + (if last > previous then last - previous else 0)
  }

  lemma {:induction false} LastOfOnly(log: seq<ThreadTokenCounter>, thread: string)
    ensures var only := Only(log, thread);
      Previous(log, thread, |log|) == if only == [] then None else Some(only[|only| - 1])
  {
    if log != [] {
      var init, last := log[..|log| - 1], log[|log| - 1];
      LastOfOnly(init, thread);
      assert log == init + [last];
      PreviousInPrefix(init, [last], thread, |init|);
    }
  }

  lemma ReadingAddsToItsThread(log: seq<ThreadTokenCounter>, thread: string)
    requires log != []
    ensures var init, last := log[..|log| - 1], |log| - 1;
      Climb(Only(log, thread)) == Climb(Only(init, thread)) + if log[last].thread == thread then Step(log, last) else 0
  {
    var init, last := log[..|log| - 1], log[|log| - 1];
    assert log == init + [last];
    var before, after := Only(init, thread), Only(log, thread);
    if last.thread == thread {
      assert after[..|after| - 1] == before;
      LastOfOnly(init, thread);
      PreviousInPrefix(init, [last], thread, |init|);
    }
  }

  function ClimbOfAll(log: seq<ThreadTokenCounter>, threads: seq<string>): nat {
    if threads == [] then 0 else ClimbOfAll(log, threads[..|threads| - 1]) + Climb(Only(log, threads[|threads| - 1]))
  }

  ghost predicate Distinct(threads: seq<string>) {
    forall i, j :: 0 <= i < j < |threads| ==> threads[i] != threads[j]
  }

  lemma {:induction false} ReadingAddsOnce(log: seq<ThreadTokenCounter>, threads: seq<string>)
    requires log != [] && Distinct(threads)
    ensures var init, last := log[..|log| - 1], |log| - 1;
      ClimbOfAll(log, threads) == ClimbOfAll(init, threads) + if log[last].thread in threads then Step(log, last) else 0
  {
    if threads != [] {
      ReadingAddsOnce(log, threads[..|threads| - 1]);
      ReadingAddsToItsThread(log, threads[|threads| - 1]);
      assert threads == threads[..|threads| - 1] + [threads[|threads| - 1]];
    }
  }

  lemma {:induction false} NothingReadNothingClimbed(threads: seq<string>)
    ensures ClimbOfAll([], threads) == 0
  {
    if threads != [] { NothingReadNothingClimbed(threads[..|threads| - 1]); }
  }

  /** All that was ever gained since the last clear is the sum, over the threads, of the positive
      steps of each thread after its first sighting. */
  lemma {:induction false} StepsByThread(log: seq<ThreadTokenCounter>, threads: seq<string>)
    requires Distinct(threads) && forall c :: c in log ==> c.thread in threads
    ensures Steps(log, 0, |log|) == ClimbOfAll(log, threads)
  {
    if log == [] {
      NothingReadNothingClimbed(threads);
    } else {
      var init, last := log[..|log| - 1], log[|log| - 1];
      assert log == init + [last];
      StepsByThread(init, threads);
      StepsInPrefix(init, [last], 0, |init|);
      ReadingAddsOnce(log, threads);
    }
  }
}
