/** From the transport's events to what the monitor shows. */
module PipelineTheorems {
  import opened Common
  import opened Json
  import opened AppServerState
  import opened Monitor
  import opened Session
  import opened SessionTheorems
  import opened MonitorTheorems

  // ---------------------------------------------------------------- only one account at a time

  /** The monitor receives the session's updates one by one in order, any time after they were
      published, between local steps. */
  datatype Input = Received(at: int, now: int) | Local(step: LocalStep)

  function ReceivedIn(inputs: seq<Input>): nat {
    if inputs == [] then 0 else ReceivedIn(inputs[..|inputs| - 1]) + if inputs[|inputs| - 1].Received? then 1 else 0
  }

  /** The monitor after these inputs, on the updates published for these events. */
  ghost function Fed(events: seq<Event>, inputs: seq<Input>): Picture
    requires ReceivedIn(inputs) <= |events|
  {
    if inputs == [] then BLANK
    else
      var init := inputs[..|inputs| - 1];
      match inputs[|inputs| - 1]
      case Received(at, now) =>
        TakenAll(Fed(events, init), StepsOf(UpdateAt(OPENED, events, ReceivedIn(init)), at, now))
      case Local(step) => Taken(Fed(events, init), step)
  }

  predicate Carries(u: SessionUpdate, item: Item) {
    match item
    case QuotaItem(v) => u.limits.fiveHour == Some(v) || u.limits.weekly == Some(v)
    case CountItem(c) =>
      u.tokens.Some? && Some(c) in {u.tokens.value.currentThread, u.tokens.value.lastTurn, u.tokens.value.today}
    case DetailItem(d) => u.official.details == d
  }

  lemma UpdateHolds(p: Picture, u: SessionUpdate, at: int, now: int, item: Item)
    requires Holds(TakenAll(p, StepsOf(u, at, now)), item)
    ensures Carries(u, item) || (Holds(p, item) && !u.reset)
  {
    var steps := StepsOf(u, at, now);
    StepsHold(p, steps, item);
    if u.reset { assert steps[0] == Told(Reset); }
    forall i | 0 <= i < |steps| && Brings(steps[i], item) ensures Carries(u, item) {
      StepCarried(u, at, now, steps[i], item);
    }
  }

  lemma StepCarried(u: SessionUpdate, at: int, now: int, step: Step, item: Item)
    requires step in StepsOf(u, at, now) && Brings(step, item)
    ensures Carries(u, item)
  {}

  /** Held before the last input, brought by it, or carried by the update it received. */
  lemma HeldOneInput(events: seq<Event>, inputs: seq<Input>, item: Item)
    requires inputs != [] && ReceivedIn(inputs) <= |events| && Holds(Fed(events, inputs), item)
    ensures var init, last := inputs[..|inputs| - 1], inputs[|inputs| - 1];
      match last
      case Local(step) => Brings(step, item) || Holds(Fed(events, init), item)
      case Received(_, _) =>
        var u := UpdateAt(OPENED, events, ReceivedIn(init));
        Carries(u, item) || (Holds(Fed(events, init), item) && !u.reset)
  {
    var init, last := inputs[..|inputs| - 1], inputs[|inputs| - 1];
    match last
    case Local(step) => StepHolds(Fed(events, init), step, item);
    case Received(at, now) => UpdateHolds(Fed(events, init), UpdateAt(OPENED, events, ReceivedIn(init)), at, now, item);
  }

  /** Input i brought it locally, after the update at `from` had been received. */
  predicate BroughtAt(inputs: seq<Input>, from: nat, item: Item, i: nat) {
    i < |inputs| && inputs[i].Local? && ReceivedIn(inputs[..i]) > from && Brings(inputs[i].step, item)
  }

  ghost predicate CarriedAt(events: seq<Event>, item: Item, i: nat)
    requires i < |events|
  {
    Carries(UpdateAt(OPENED, events, i), item)
  }

  /** A local step brought it after the update at `from` had been received. */
  ghost predicate BroughtLocally(inputs: seq<Input>, from: nat, item: Item) {
    exists i :: BroughtAt(inputs, from, item, i)
  }

  /** A session that sees only the events from `from` on would publish it with one of them before `to`. */
  ghost predicate CarriedAfresh(events: seq<Event>, from: nat, to: nat, item: Item)
    requires from <= to <= |events|
  {
    exists j | 0 <= j < to - from :: CarriedAt(events[from..], item, j)
  }

  /** Input i brought it locally after the update at `from`, or the i-th update received carries it. */
  ghost predicate IsSource(events: seq<Event>, inputs: seq<Input>, from: nat, item: Item, local: bool, i: nat)
    requires ReceivedIn(inputs) <= |events|
  {
    if local then BroughtAt(inputs, from, item, i) else from <= i < ReceivedIn(inputs) && CarriedAt(events, item, i)
  }

  lemma BroughtStays(inputs: seq<Input>, from: nat, item: Item, i: nat)
    requires inputs != [] && BroughtAt(inputs[..|inputs| - 1], from, item, i)
    ensures BroughtAt(inputs, from, item, i)
  {
    assert inputs[..|inputs| - 1][..i] == inputs[..i];
  }

  /** The last input either brings or carries the item, or leaves it to the inputs before. */
  lemma LastIsSource(events: seq<Event>, inputs: seq<Input>, from: nat, item: Item)
    requires from < ReceivedIn(inputs) <= |events| && UpdateAt(OPENED, events, from).reset
    requires Holds(Fed(events, inputs), item)
    ensures var init := inputs[..|inputs| - 1];
      || IsSource(events, inputs, from, item, true, |init|)
      || IsSource(events, inputs, from, item, false, ReceivedIn(init))
      || (Holds(Fed(events, init), item) && from < ReceivedIn(init))
  {
    HeldOneInput(events, inputs, item);
  }

  /** Since an update asked for a reset, all that is held came with it or after it. */
  lemma {:induction false} HeldSinceReset(events: seq<Event>, inputs: seq<Input>, from: nat, item: Item)
    returns (local: bool, i: nat)
    requires from < ReceivedIn(inputs) <= |events| && UpdateAt(OPENED, events, from).reset
    requires Holds(Fed(events, inputs), item)
    ensures IsSource(events, inputs, from, item, local, i)
  {
    var init := inputs[..|inputs| - 1];
    LastIsSource(events, inputs, from, item);
    if IsSource(events, inputs, from, item, true, |init|) {
      local, i := true, |init|;
    } else if IsSource(events, inputs, from, item, false, ReceivedIn(init)) {
      local, i := false, ReceivedIn(init);
    } else {
      local, i := HeldSinceReset(events, init, from, item);
      if local { BroughtStays(inputs, from, item, i); }
    }
  }

  lemma CarriesUnnumbered(u: SessionUpdate, v: SessionUpdate, item: Item)
    requires Unnumbered(u) == Unnumbered(v)
    ensures Carries(u, item) == Carries(v, item)
  {}

  /** What is published after an account change, a session that saw nothing before would publish. */
  lemma PublishedAfresh(before: seq<Event>, after: seq<Event>, j: nat, item: Item)
    requires j < |after| && IsAccountChange(after[0])
    ensures CarriedAt(before + after, item, |before| + j) == CarriedAt(after, item, j)
  {
    var middle := RunFrom(OPENED, before);
    LaterUpdate(OPENED, before, after, j);
    NothingCrossesAccounts(middle, OPENED, after, j);
    CarriesUnnumbered(UpdateAt(middle, after, j), UpdateAt(OPENED, after, j), item);
  }

  lemma CarriedThere(events: seq<Event>, from: nat, j: nat, to: nat, item: Item)
    requires from + j < to <= |events| && CarriedAt(events[from..], item, j)
    ensures CarriedAfresh(events, from, to, item)
  {}

  lemma CarriedLater(events: seq<Event>, from: nat, i: nat, j: nat, item: Item)
    requires from + j == i < |events| && IsAccountChange(events[from]) && CarriedAt(events, item, i)
    ensures CarriedAt(events[from..], item, j)
  {
    assert events == events[..from] + events[from..];
    PublishedAfresh(events[..from], events[from..], j, item);
  }

  lemma CarriedFrom(events: seq<Event>, from: nat, i: nat, to: nat, item: Item)
    requires from <= i < to <= |events| && IsAccountChange(events[from]) && CarriedAt(events, item, i)
    ensures CarriedAfresh(events, from, to, item)
  {
    CarriedLater(events, from, i, i - from, item);
    CarriedThere(events, from, i - from, to, item);
  }

  lemma BroughtThere(inputs: seq<Input>, from: nat, i: nat, item: Item)
    requires BroughtAt(inputs, from, item, i)
    ensures BroughtLocally(inputs, from, item)
  {}

  lemma SourceAfresh(events: seq<Event>, n: nat, inputs: seq<Input>, item: Item, local: bool, i: nat)
    requires n < ReceivedIn(inputs) <= |events| && IsAccountChange(events[n])
    requires IsSource(events, inputs, n, item, local, i)
    ensures BroughtLocally(inputs, n, item) || CarriedAfresh(events, n, ReceivedIn(inputs), item)
  {
    if local {
      BroughtThere(inputs, n, i, item);
    } else {
      CarriedFrom(events, n, i, ReceivedIn(inputs), item);
    }
  }

  /** Once the monitor has taken in the first update after an account change, every account value
      it holds was brought by a local step after that, or is one that a session which had seen
      nothing before that account change would publish too. */
  lemma MonitorHoldsOneAccount(events: seq<Event>, n: nat, inputs: seq<Input>, item: Item)
    requires n < ReceivedIn(inputs) <= |events| && IsAccountChange(events[n])
    requires Holds(Fed(events, inputs), item)
    ensures BroughtLocally(inputs, n, item) || CarriedAfresh(events, n, ReceivedIn(inputs), item)
  {
    ResetIsFirst(OPENED, events, n);
    ChangeIsFirst(events, n);
    var local, i := HeldSinceReset(events, inputs, n, item);
    SourceAfresh(events, n, inputs, item, local, i);
  }

  // ---------------------------------------------------------------- snapshots within one run

  lemma RevisionNeverFalls(s: SessionState, event: Event)
    ensures After(s, event).revision >= s.revision
  {}

  lemma TakenIf(p: Picture, condition: bool, step: Step)
    ensures TakenAll(p, If(condition, step)) == if condition then Taken(p, step) else p
  {
    TakenOne(p, step);
  }

  function AfterHead(p: Picture, u: SessionUpdate): Picture {
    var a := (if u.reset then WithReset(p) else p).(official := Some(u.official));
    if u.official.quota.freshness.Live? then WithRateLimits(a, u.limits) else a
  }

  function AfterTail(p: Picture, u: SessionUpdate, at: int, now: int): Picture {
    var c := if IsConcrete(u.activity) then WithActivity(p, [u.activity.value], at) else p;
    var d := if u.tokens.Some? then WithTokenUsage(c, u.tokens.value) else c;
    if IsHealthy(u) then d else WithAuthoritativeUnavailable(d, now)
  }

  /** One update taken in, in one expression. */
  function AfterUpdate(p: Picture, u: SessionUpdate, at: int, now: int): Picture {
    AfterTail(AfterHead(p, u), u, at, now)
  }

  lemma HeadInOne(p: Picture, u: SessionUpdate)
    ensures TakenAll(p, HeadOf(u)) == AfterHead(p, u)
  {
    var reset, official := If(u.reset, Told(Reset)), [Told(Official(u.official))];
    var limits := If(u.official.quota.freshness.Live?, Told(Limits(u.limits)));
    TakenInTwo(p, reset + official, limits);
    TakenInTwo(p, reset, official);
    TakenIf(p, u.reset, Told(Reset));
    var a := TakenAll(p, reset);
    TakenOne(a, Told(Official(u.official)));
    TakenIf(TakenAll(a, official), u.official.quota.freshness.Live?, Told(Limits(u.limits)));
  }

  lemma TakenSome(p: Picture, step: Option<Step>)
    ensures TakenAll(p, Some1(step)) == if step.Some? then Taken(p, step.value) else p
  {
    if step.Some? { TakenOne(p, step.value); }
  }

  lemma TailInOne(p: Picture, u: SessionUpdate, at: int, now: int)
    ensures TakenAll(p, TailOf(u, at, now)) == AfterTail(p, u, at, now)
  {
    var activity, tokens := Some1(ActivityStep(u, at)), Some1(TokenStep(u));
    TakenInTwo(p, activity + tokens, If(!IsHealthy(u), Told(AuthoritativeUnavailable(now))));
    TakenInTwo(p, activity, tokens);
    TakenSome(p, ActivityStep(u, at));
    var c := TakenAll(p, activity);
    TakenSome(c, TokenStep(u));
    TakenIf(TakenAll(c, tokens), !IsHealthy(u), Told(AuthoritativeUnavailable(now)));
  }

  lemma UpdateInOne(p: Picture, u: SessionUpdate, at: int, now: int)
    ensures TakenAll(p, StepsOf(u, at, now)) == AfterUpdate(p, u, at, now)
  {
    TakenInTwo(p, HeadOf(u), TailOf(u, at, now));
    HeadInOne(p, u);
    TailInOne(AfterHead(p, u), u, at, now);
  }

  /** What taking in one update does to the order marks and the windows of the monitor. */
  lemma UpdateTaken(p: Picture, u: SessionUpdate, at: int, now: int)
    ensures var q := TakenAll(p, StepsOf(u, at, now));
      && q.revision
           == (if u.official.quota.freshness.Live? && Accepts(p, u.limits) then u.limits.revision else p.revision)
      && (q.observedAt == p.observedAt || q.observedAt == u.limits.observedAt || q.observedAt == now)
      && (u.official.quota.freshness.Live? && Accepts(p, u.limits) && IsHealthy(u) ==>
            Reports(q.fiveHour, u.limits.fiveHour) && Reports(q.weekly, u.limits.weekly))
  {
    UpdateInOne(p, u, at, now);
  }

  /** The revisions of one run never fall from update to update. */
  lemma RevisionsGrow(events: seq<Event>, k: nat)
    requires 0 < k < |events|
    ensures UpdateAt(OPENED, events, k - 1).limits.revision <= UpdateAt(OPENED, events, k).limits.revision
  {
    assert events[..k][..k - 1] == events[..k - 1];
    RevisionNeverFalls(RunFrom(OPENED, events[..k]), events[k]);
  }

  /** The revision of the last update received, or zero. */
  ghost function LastRevision(events: seq<Event>, received: nat): nat
    requires received <= |events|
  {
    if received == 0 then 0 else UpdateAt(OPENED, events, received - 1).limits.revision
  }

  /** However far the monitor lags behind, and whatever the clocks say, it is never ahead of what it
      has received. */
  lemma {:induction false} NeverAhead(events: seq<Event>, inputs: seq<Input>)
    requires ReceivedIn(inputs) <= |events|
    ensures Fed(events, inputs).revision <= LastRevision(events, ReceivedIn(inputs))
  {
    if inputs != [] {
      var init, last := inputs[..|inputs| - 1], inputs[|inputs| - 1];
      var k := ReceivedIn(init);
      NeverAhead(events, init);
      match last
      case Local(step) => LocalKeepsMarks(Fed(events, init), step);
      case Received(at, now) =>
        UpdateTaken(Fed(events, init), UpdateAt(OPENED, events, k), at, now);
        if k > 0 { RevisionsGrow(events, k); }
    }
  }

  /** So an update that brings new data is never refused, however late it is received: its live quota
      is accepted, and shown while the session is healthy. */
  lemma NewDataIsShown(events: seq<Event>, inputs: seq<Input>, at: int, now: int)
    requires var k := ReceivedIn(inputs);
      k < |events| && UpdateAt(OPENED, events, k).limits.revision > LastRevision(events, k)
    ensures var p, u := Fed(events, inputs), UpdateAt(OPENED, events, ReceivedIn(inputs));
      var q := TakenAll(p, StepsOf(u, at, now));
      u.official.quota.freshness.Live? ==>
        && Accepts(p, u.limits) && q.revision == u.limits.revision
        && (IsHealthy(u) ==> Reports(q.fiveHour, u.limits.fiveHour) && Reports(q.weekly, u.limits.weekly))
  {
    NeverAhead(events, inputs);
    UpdateTaken(Fed(events, inputs), UpdateAt(OPENED, events, ReceivedIn(inputs)), at, now);
  }

  // ---------------------------------------------------------------- a prompt monitor

  /** The wall clock never runs back from one update to the next. */
  predicate ClockRuns(events: seq<Event>) {
    && (forall i :: 0 <= i < |events| ==> events[i].when.now >= 0)
    && (forall i, j :: 0 <= i < j < |events| ==> events[i].when.now <= events[j].when.now)
  }

  /** Each update is received before the next one is published. */
  predicate IsPrompt(events: seq<Event>, inputs: seq<Input>) {
    inputs == []
    || (var init, last := inputs[..|inputs| - 1], inputs[|inputs| - 1];
        && IsPrompt(events, init)
        && (last.Received? && ReceivedIn(init) + 1 < |events| ==> last.now <= events[ReceivedIn(init) + 1].when.now))
  }

  /** Then the monitor's time is never ahead of the next update either. */
  lemma {:induction false} NeverLater(events: seq<Event>, inputs: seq<Input>)
    requires ReceivedIn(inputs) <= |events| && ClockRuns(events) && IsPrompt(events, inputs)
    ensures ReceivedIn(inputs) < |events| ==> Fed(events, inputs).observedAt <= events[ReceivedIn(inputs)].when.now
  {
    if inputs != [] {
      var init, last := inputs[..|inputs| - 1], inputs[|inputs| - 1];
      NeverLater(events, init);
      match last
      case Local(step) => LocalKeepsMarks(Fed(events, init), step);
      case Received(at, now) => UpdateTaken(Fed(events, init), UpdateAt(OPENED, events, ReceivedIn(init)), at, now);
    }
  }

  /** And every quota published live is accepted, also one that brings no new data. */
  lemma LiveQuotaIsShown(events: seq<Event>, inputs: seq<Input>, at: int, now: int)
    requires ReceivedIn(inputs) < |events| && ClockRuns(events) && IsPrompt(events, inputs)
    ensures var p, u := Fed(events, inputs), UpdateAt(OPENED, events, ReceivedIn(inputs));
      var q := TakenAll(p, StepsOf(u, at, now));
      u.official.quota.freshness.Live? ==>
        && Accepts(p, u.limits) && q.revision == u.limits.revision
        && (IsHealthy(u) ==> Reports(q.fiveHour, u.limits.fiveHour) && Reports(q.weekly, u.limits.weekly))
  {
    var k := ReceivedIn(inputs);
    NeverAhead(events, inputs);
    NeverLater(events, inputs);
    if k > 0 { RevisionsGrow(events, k); }
    UpdateTaken(Fed(events, inputs), UpdateAt(OPENED, events, k), at, now);
  }

  // ---------------------------------------------------------------- snapshots after a reconnect

  /** A new run counts its revisions from zero while the monitor keeps the old one: its first live
      quota is taken over exactly if its own count has caught up. */
  lemma ReconnectIff(p: Picture, events: seq<Event>, at: int, now: int)
    requires events != []
    ensures var u := UpdateAt(OPENED, events, |events| - 1);
      var q := TakenAll(p, StepsOf(u, at, now));
      u.official.quota.freshness.Live? && !u.reset && IsHealthy(u) ==>
        if Accepts(p, u.limits) then Reports(q.fiveHour, u.limits.fiveHour) && Reports(q.weekly, u.limits.weekly)
        else q.fiveHour == p.fiveHour && q.weekly == p.weekly && q.revision == p.revision
  {
    var u := UpdateAt(OPENED, events, |events| - 1);
    UpdateTaken(p, u, at, now);
    if !u.reset && IsHealthy(u) && u.official.quota.freshness.Live? && !Accepts(p, u.limits) {
      RefusedLeaves(p, u, at, now);
    }
  }

  lemma RefusedLeaves(p: Picture, u: SessionUpdate, at: int, now: int)
    requires !u.reset && IsHealthy(u) && u.official.quota.freshness.Live? && !Accepts(p, u.limits)
    ensures var q := TakenAll(p, StepsOf(u, at, now));
      q.fiveHour == p.fiveHour && q.weekly == p.weekly && q.revision == p.revision
  {
    UpdateInOne(p, u, at, now);
  }

  /** An unhealthy update without a live quota blanks both windows. */
  lemma UnhealthyBlanks(p: Picture, u: SessionUpdate, at: int, now: int)
    requires !IsHealthy(u) && !u.official.quota.freshness.Live? && !u.reset && now >= p.observedAt
    ensures var q := TakenAll(p, StepsOf(u, at, now));
      q.fiveHour.presence.Unknown? && q.weekly.presence.Unknown? && q.revision == p.revision
  {
    UpdateInOne(p, u, at, now);
  }

  ghost predicate AllSucceed(r: Replies) { forall e: Endpoint :: Succeeds(e, r.To(e)) }

  lemma FirstReads(r: Replies, when: Moment)
    requires when.now >= 0 && AllSucceed(r)
    ensures var p := TakenAll(BLANK, StepsOf(Published(OPENED, Refreshed(r, when)), when.now, when.now));
      p.revision == 3 && p.observedAt <= when.now
  {
    assert Succeeds(AccountEndpoint, r.To(AccountEndpoint)) && Succeeds(QuotaEndpoint, r.To(QuotaEndpoint))
           && Succeeds(UsageEndpoint, r.To(UsageEndpoint));
    UpdateTaken(BLANK, Published(OPENED, Refreshed(r, when)), when.now, when.now);
  }

  lemma EndIsUnhealthy(s: SessionState, stopped: bool, when: Moment)
    ensures var u := Published(s, Ended(stopped, when)); !IsHealthy(u) && !u.official.quota.freshness.Live? && !u.reset
  {}

  /** The monitor after a run in which all three reads succeed once and which then ends. */
  lemma AfterOneRun(r: Replies, start: Moment, end: Moment)
    requires 0 <= start.now <= end.now && AllSucceed(r)
    ensures var first, second := Refreshed(r, start), Ended(false, end);
      var p := TakenAll(BLANK, StepsOf(Published(OPENED, first), start.now, start.now));
      var q := TakenAll(p, StepsOf(Published(After(OPENED, first), second), end.now, end.now));
      q.fiveHour.presence.Unknown? && q.weekly.presence.Unknown? && q.revision == 3
  {
    var s := After(OPENED, Refreshed(r, start));
    FirstReads(r, start);
    EndIsUnhealthy(s, false, end);
    UnhealthyBlanks(TakenAll(BLANK, StepsOf(Published(OPENED, Refreshed(r, start)), start.now, start.now)),
                    Published(s, Ended(false, end)), end.now, end.now);
  }

  /** If in the next run only the quota read succeeds at first, the quota is live on the official
      card and missing from the windows: its revision is 1 and the monitor still holds 3. */
  lemma ReconnectHidesQuota(p: Picture, again: Replies, when: Moment)
    requires p.fiveHour.presence.Unknown? && p.weekly.presence.Unknown? && p.revision == 3
    requires Succeeds(QuotaEndpoint, again.quota) && again.account.NotSent? && again.usage.NotSent?
    ensures var u := Published(OPENED, Refreshed(again, when));
      var q := TakenAll(p, StepsOf(u, when.now, when.now));
      && u.official.quota.freshness.Live? && IsHealthy(u) && !Accepts(p, u.limits)
      && q.fiveHour.presence.Unknown? && q.weekly.presence.Unknown?
  {
    RefusedLeaves(p, Published(OPENED, Refreshed(again, when)), when.now, when.now);
  }
}
