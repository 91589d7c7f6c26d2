/** What the monitor shows in every reachable state, and what reaches it through the session. */
module MonitorTheorems {
  import opened Common
  import opened Usage
  import opened Activity
  import opened AppServerState
  import opened Monitor
  import opened Session
  import opened SessionTheorems

  /** One change of the monitor: a telemetry update, or a fallback read from a session file. */
  datatype Step = Told(update: Update) | FellBack(fiveHour: Option<QuotaValue>, weekly: Option<QuotaValue>)

  /** What the program does besides forwarding session updates: token counts from session logs and
      SQLite, the local count of today, activity read from history, and quota fallbacks. */
  predicate IsLocal(step: Step) {
    match step
    case FellBack(_, _) => true
    case Told(Tokens(t)) => !t.source.FromAppServer?
    case Told(LocalToday(_, _)) => true
    case Told(Activity(_, _)) => true
    case _ => false
  }

  type LocalStep = step: Step | IsLocal(step) witness FellBack(None, None)

  /** No local step touches the marks by which snapshots are ordered. */
  lemma LocalKeepsMarks(p: Picture, step: LocalStep)
    ensures Taken(p, step).revision == p.revision && Taken(p, step).observedAt == p.observedAt
  {}

  function Taken(p: Picture, step: Step): Picture {
    match step
    case Told(update) => Applied(p, update)
    case FellBack(fiveHour, weekly) => WithFallback(p, fiveHour, weekly)
  }

  function TakenAll(p: Picture, steps: seq<Step>): Picture {
    if steps == [] then p else Taken(TakenAll(p, steps[..|steps| - 1]), steps[|steps| - 1])
  }

  function Shown(steps: seq<Step>): Picture { TakenAll(BLANK, steps) }

  // ---------------------------------------------------------------- invariants of every state

  predicate WindowIsSane(w: QuotaWindow) {
    && (w.presence.Present? <==> w.value.Some?)
    && (w.freshness.Fresh? <==> w.source == QuotaSource.AppServer)
    && (w.presence.Unknown? <==> w.source.NoSource?)
    && (w.presence.Absent? ==> w.freshness.Fresh?)
    && (w.value.Some? ==> w.lastKnown == w.value)
  }

  predicate UsageIsSane(u: TokenUsage) {
    && (u.isFresh <==> u.source.IsRealtime())
    && (u.todayIsPartial ==> u.todaySource.FromSqlite?)
    && (u.currentThread.Some? ==> u.lastKnown == u.currentThread)
  }

  predicate IsSane(p: Picture) { WindowIsSane(p.fiveHour) && WindowIsSane(p.weekly) && UsageIsSane(p.usage) }

  /** In every reachable state a window is present iff it has a value and fresh iff it comes from
      the App Server; token usage is fresh iff its source is a live one. */
  lemma {:induction false} ShownIsSane(steps: seq<Step>)
    ensures IsSane(Shown(steps))
  {
    if steps != [] { ShownIsSane(steps[..|steps| - 1]); }
  }

  /** (revision, time of observation), compared lexicographically. */
  predicate NotOlder(p: Picture, q: Picture) {
    q.revision > p.revision || (q.revision == p.revision && q.observedAt >= p.observedAt)
  }

  /** No step ever takes the monitor back. */
  lemma {:induction false} NeverBack(p: Picture, steps: seq<Step>)
    ensures NotOlder(p, TakenAll(p, steps))
  {
    if steps != [] { NeverBack(p, steps[..|steps| - 1]); }
  }

  // ---------------------------------------------------------------- the standing snapshot

  /** The last accepted authoritative snapshot, unless it was revoked since. */
  function Standing(steps: seq<Step>): Option<RateLimits> {
    if steps == [] then None
    else
      var before, last := Shown(steps[..|steps| - 1]), steps[|steps| - 1];
      var earlier := Standing(steps[..|steps| - 1]);
      match last
      case FellBack(_, _) => earlier
      case Told(update) =>
        match update
        case Limits(snapshot) => if Accepts(before, snapshot) then Some(snapshot) else earlier
        case Reset | LimitsUnavailable => None
        case AuthoritativeUnavailable(at) => if at >= before.observedAt then None else earlier
        case _ => earlier
  }

  /** A window shows a snapshot: its value with full authority, or its absence. */
  predicate Reports(w: QuotaWindow, value: Option<QuotaValue>) {
    w.presence == (if value.Some? then Present else Absent) && w.freshness.Fresh? && w.value == value
  }

  predicate IsPlaceholder(w: QuotaWindow) { !w.presence.Absent? && w.freshness.Stale? }

  /** Over every run both windows report the standing snapshot, atomically; without one they hold
      at most a fallback. So a taskbar value is always that of the last accepted snapshot, and an
      absence stands until the next authoritative word, whatever the fallbacks say. */
  lemma {:induction false} WindowsReportStanding(steps: seq<Step>)
    ensures var p, standing := Shown(steps), Standing(steps);
      if standing.Some? then Reports(p.fiveHour, standing.value.fiveHour) && Reports(p.weekly, standing.value.weekly)
      else IsPlaceholder(p.fiveHour) && IsPlaceholder(p.weekly)
  {
    if steps != [] { WindowsReportStanding(steps[..|steps| - 1]); }
  }

  lemma VisibleIffStanding(steps: seq<Step>)
    ensures var p, standing := Shown(steps), Standing(steps);
      && (IsTaskbarVisible(p.fiveHour) <==> standing.Some? && standing.value.fiveHour.Some?)
      && (IsTaskbarVisible(p.fiveHour) ==> p.fiveHour.value == standing.value.fiveHour)
      && (IsTaskbarVisible(p.weekly) <==> standing.Some? && standing.value.weekly.Some?)
      && (IsTaskbarVisible(p.weekly) ==> p.weekly.value == standing.value.weekly)
  {
    WindowsReportStanding(steps);
  }

  /** Any number of fallbacks leaves a window with authority exactly as it is. */
  lemma {:induction false} FallbacksNeverOverride(p: Picture, steps: seq<Step>)
    requires forall step :: step in steps ==> step.FellBack?
    ensures !p.fiveHour.presence.Unknown? ==> TakenAll(p, steps).fiveHour == p.fiveHour
    ensures !p.weekly.presence.Unknown? ==> TakenAll(p, steps).weekly == p.weekly
  {
    if steps != [] {
      FallbacksNeverOverride(p, steps[..|steps| - 1]);
      assert steps[|steps| - 1] in steps;
    }
  }

  // ---------------------------------------------------------------- values of one account

  /** Something that belongs to an account. */
  datatype Item = QuotaItem(quota: QuotaValue) | CountItem(counts: TokenCounts) | DetailItem(details: OfficialDetails)

  predicate WindowHolds(w: QuotaWindow, v: QuotaValue) { w.value == Some(v) || w.lastKnown == Some(v) }

  predicate Holds(p: Picture, item: Item) {
    match item
    case QuotaItem(v) => WindowHolds(p.fiveHour, v) || WindowHolds(p.weekly, v)
    case CountItem(c) =>
      Some(c) in {p.usage.currentThread, p.usage.lastTurn, p.usage.today, p.usage.lastKnown}
    case DetailItem(d) => p.official.Some? && p.official.value.details == d
  }

  predicate Brings(step: Step, item: Item) {
    match step
    case FellBack(fiveHour, weekly) => item.QuotaItem? && (fiveHour == Some(item.quota) || weekly == Some(item.quota))
    case Told(Limits(r)) => item.QuotaItem? && (r.fiveHour == Some(item.quota) || r.weekly == Some(item.quota))
    case Told(Tokens(t)) => item.CountItem? && Some(item.counts) in {t.currentThread, t.lastTurn, t.today}
    case Told(LocalToday(counts, _)) => item.CountItem? && counts == Some(item.counts)
    case Told(Official(o)) => item.DetailItem? && o.details == item.details
    case _ => false
  }

  lemma StepHolds(p: Picture, step: Step, item: Item)
    requires Holds(Taken(p, step), item)
    ensures Brings(step, item) || (Holds(p, item) && step != Told(Reset))
  {}

  lemma {:induction false} StepsHold(p: Picture, steps: seq<Step>, item: Item)
    requires Holds(TakenAll(p, steps), item)
    ensures (exists i :: 0 <= i < |steps| && Brings(steps[i], item)) || (Holds(p, item) && Told(Reset) !in steps)
  {
    if steps != [] {
      var init, last := steps[..|steps| - 1], steps[|steps| - 1];
      StepHolds(TakenAll(p, init), last, item);
      if Brings(last, item) {
        assert Brings(steps[|steps| - 1], item);
      } else {
        StepsHold(p, init, item);
        if i :| 0 <= i < |init| && Brings(init[i], item) { assert Brings(steps[i], item); }
      }
    }
  }

  // ---------------------------------------------------------------- from the session to the monitor

  predicate IsHealthy(u: SessionUpdate) { (u.health.Healthy? || u.health.Degraded?) && u.age.FreshData? }

  function If<T>(condition: bool, item: T): seq<T> { if condition then [item] else [] }

  predicate IsConcrete(activity: Option<ActivityState>) { activity.Some? && !activity.value.UnknownActivity? }

  function Some1<T>(option: Option<T>): seq<T> { if option.Some? then [option.value] else [] }

  /** What one session update tells the monitor first: the account and the quota. */
  function HeadOf(u: SessionUpdate): seq<Step> {
    If(u.reset, Told(Reset)) + [Told(Official(u.official))]
      + If(u.official.quota.freshness.Live?, Told(Limits(u.limits)))
  }

  function ActivityStep(u: SessionUpdate, at: int): Option<Step> {
    if IsConcrete(u.activity) then Some(Told(Activity([u.activity.value], at))) else None
  }

  function TokenStep(u: SessionUpdate): Option<Step> {
    if u.tokens.Some? then Some(Told(Tokens(u.tokens.value))) else None
  }

  /** And then: activity, token usage, and that the source is not healthy. */
  function TailOf(u: SessionUpdate, at: int, now: int): seq<Step> {
    Some1(ActivityStep(u, at)) + Some1(TokenStep(u)) + If(!IsHealthy(u), Told(AuthoritativeUnavailable(now)))
  }

  /** The whole, in order; `at` and `now` are the clock when the activity and the end are told. */
  function StepsOf(u: SessionUpdate, at: int, now: int): seq<Step> { HeadOf(u) + TailOf(u, at, now) }

  lemma {:induction false} TakenInTwo(p: Picture, first: seq<Step>, second: seq<Step>)
    ensures TakenAll(p, first + second) == TakenAll(TakenAll(p, first), second)
  {
    if second == [] {
      assert first + second == first;
    } else {
      TakenInTwo(p, first, second[..|second| - 1]);
      assert (first + second)[..|first + second| - 1] == first + second[..|second| - 1];
    }
  }

  lemma TakenOne(p: Picture, step: Step)
    ensures TakenAll(p, [step]) == Taken(p, step)
  {
    assert [step][..0] == [];
    assert TakenAll(p, []) == p;
  }

  method Tell(coordinator: MonitorCoordinator, update: Update, ghost start: Picture, ghost done: seq<Step>)
    requires coordinator.state.View() == TakenAll(start, done)
    modifies coordinator.state
    ensures coordinator.state.View() == TakenAll(start, done + [Told(update)])
  {
    TakenInTwo(start, done, [Told(update)]);
    TakenOne(TakenAll(start, done), Told(update));
    var _ := coordinator.Apply(update);
  }

  method TellHead(coordinator: MonitorCoordinator, u: SessionUpdate)
    modifies coordinator.state
    ensures coordinator.state.View() == TakenAll(old(coordinator.state.View()), HeadOf(u))
  {
    ghost var start := coordinator.state.View();
    ghost var done := If(u.reset, Told(Reset));
    assert [] + [Told(Reset)] == [Told(Reset)];
    if u.reset { Tell(coordinator, Reset, start, []); }
    Tell(coordinator, Official(u.official), start, done);
    done := done + [Told(Official(u.official))];
    if u.official.quota.freshness.Live? { Tell(coordinator, Limits(u.limits), start, done); }
    else { assert done + [] == done; }
  }

  method TellTail(coordinator: MonitorCoordinator, u: SessionUpdate, at: int, now: int)
    modifies coordinator.state
    ensures coordinator.state.View() == TakenAll(old(coordinator.state.View()), TailOf(u, at, now))
  {
    ghost var start := coordinator.state.View();
    ghost var done := Some1(ActivityStep(u, at));
    assert [] + done == done;
    if IsConcrete(u.activity) { Tell(coordinator, Activity([u.activity.value], at), start, []); }
    if u.tokens.Some? { Tell(coordinator, Tokens(u.tokens.value), start, done); }
    done := done + Some1(TokenStep(u));
    assert u.tokens.None? ==> done == Some1(ActivityStep(u, at));
    if !IsHealthy(u) { Tell(coordinator, AuthoritativeUnavailable(now), start, done); }
    else { assert done + [] == done; }
  }

  method ApplySessionUpdate(coordinator: MonitorCoordinator, u: SessionUpdate, at: int, now: int)
    returns (healthy: bool)
    modifies coordinator.state
    ensures coordinator.state.View() == TakenAll(old(coordinator.state.View()), StepsOf(u, at, now))
    ensures healthy <==> IsHealthy(u)
  {
    ghost var start := coordinator.state.View();
    healthy := (u.health.Healthy? || u.health.Degraded?) && u.age.FreshData?;
    TellHead(coordinator, u);
    TellTail(coordinator, u, at, now);
    TakenInTwo(start, HeadOf(u), TailOf(u, at, now));
  }
}
