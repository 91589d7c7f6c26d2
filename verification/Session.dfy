/** One transport run of the session: events update the adapter's state and publish snapshots.

    Every event of the loop publishes exactly one update. Clocks, replies and time limits are
    inputs of the event.
 */
module Session {
  import opened Common
  import opened Usage
  import opened Activity
  import opened Json
  import opened AppServerState
  import opened Monitor

  datatype Health = Starting | Healthy | Degraded | Disconnected | Stopped

  datatype DataAge = FreshData | StaleData | NoData

  // ---------------------------------------------------------------- endpoints

  datatype Endpoint = AccountEndpoint | QuotaEndpoint | UsageEndpoint

  datatype Tracker = Tracker(account: EndpointStatus, quota: EndpointStatus, usage: EndpointStatus) {
    function Status(e: Endpoint): EndpointStatus {
      match e
      case AccountEndpoint => account
      case QuotaEndpoint => quota
      case UsageEndpoint => usage
    }

    function With(e: Endpoint, status: EndpointStatus): Tracker {
      match e
      case AccountEndpoint => this.(account := status)
      case QuotaEndpoint => this.(quota := status)
      case UsageEndpoint => this.(usage := status)
    }

    function AllCached(): Tracker { Tracker(account.AsCached(), quota.AsCached(), usage.AsCached()) }
  }

  const UNTRIED := Tracker(NO_STATUS, NO_STATUS, NO_STATUS)

  // ---------------------------------------------------------------- the state as a value

  datatype SessionState = SessionState(
    server: ServerView,
    tracker: Tracker,
    health: Health,
    age: DataAge,
    hasData: bool,
    revision: u64)

  const OPENED := SessionState(NOTHING_KNOWN, UNTRIED, Starting, NoData, false, 0)

  /** A request that could not be sent, was not answered in time, or was answered; an error reply
      has no result. */
  datatype Reply = NotSent | NoAnswer | Answered(result: Option<Value>, at: int)

  datatype Replies = Replies(account: Reply, quota: Reply, usage: Reply) {
    function To(e: Endpoint): Reply {
      match e
      case AccountEndpoint => account
      case QuotaEndpoint => quota
      case UsageEndpoint => usage
    }
  }

  /** The clocks when an update is published: whether the last data is older than the session's limit,
      how old it is, and the time of day. */
  datatype Moment = Moment(expired: bool, age: nat, now: int)

  /** `stopped` is a close that the user asked for. */
  datatype Event =
    | Refreshed(replies: Replies, when: Moment)
    | Notice(notification: Notification, ready: bool, replies: Replies, when: Moment)
    | Trouble(when: Moment)
    | NotReady(when: Moment)
    | Ended(stopped: bool, when: Moment)
    | Cancelled(when: Moment)

  predicate IsAccountChange(event: Event) { event.Notice? && event.notification.Topic().AboutAccount? }

  function AgeOf(hasData: bool, expired: bool): DataAge {
    if !hasData then NoData else if expired then StaleData else FreshData
  }

  ghost predicate Valid(e: Endpoint, result: Value) {
    match e
    case AccountEndpoint => IsAccount(result)
    case QuotaEndpoint => ReadLimits(result).Some?
    case UsageEndpoint => IsUsage(result)
  }

  ghost predicate Succeeds(e: Endpoint, reply: Reply) {
    reply.Answered? && reply.result.Some? && Valid(e, reply.result.value)
  }

  function Count(b: bool): nat { if b then 1 else 0 }

  /** Full reads replace what they cover; an endpoint that fails keeps its data and its last success. */
  ghost function AfterRefresh(s: SessionState, r: Replies, expired: bool): SessionState {
    var a, q, u := Succeeds(AccountEndpoint, r.account), Succeeds(QuotaEndpoint, r.quota),
      Succeeds(UsageEndpoint, r.usage);
    SessionState(
      ServerView(if a then ReadAccount(r.account.result.value) else s.server.account,
                 if q then ReadLimits(r.quota.result.value).value else s.server.limits,
                 s.server.tokens,
                 if u then r.usage.result else s.server.usage,
                 s.server.last,
                 s.server.threads),
      Tracker(if a then LiveAt(r.account.at) else s.tracker.account.AsCached(),
              if q then LiveAt(r.quota.at) else s.tracker.quota.AsCached(),
              if u then LiveAt(r.usage.at) else s.tracker.usage.AsCached()),
      if a && q && u then Healthy else Degraded,
      if a || q || u then FreshData else AgeOf(s.hasData, expired),
      s.hasData || a || q || u,
      Saturate(s.revision + Count(a) + Count(q) + Count(u)))
  }

  function Stamped(tokens: Option<TokenState>, topic: Topic, at: int): Option<TokenState> {
    if tokens.Some? && topic.AboutTokens? then Some(tokens.value.(observedAt := Some(at))) else tokens
  }

  function AfterNotice(s: SessionState, n: Notification): SessionState {
    var reset := n.Topic().AboutAccount?;
    var server := Notified(if reset then NOTHING_KNOWN else s.server, n);
    var tracker := if reset then UNTRIED else s.tracker;
    SessionState(
      server.(tokens := Stamped(server.tokens, n.Topic(), n.at)),
      if n.Topic().AboutLimits? then tracker.(quota := LiveAt(n.at)) else tracker,
      Healthy, FreshData, true, Saturate(s.revision + 1))
  }

  ghost function After(s: SessionState, event: Event): SessionState {
    match event
    case Refreshed(replies, when) => AfterRefresh(s, replies, when.expired)
    case Notice(n, ready, replies, when) =>
      var noticed := AfterNotice(s, n);
      if IsAccountChange(event) && ready then AfterRefresh(noticed, replies, when.expired) else noticed
    case Trouble(when) => s.(health := Degraded, age := AgeOf(s.hasData, when.expired))
    case NotReady(when) => s.(age := AgeOf(s.hasData, when.expired))
    case Ended(stopped, when) =>
      s.(health := if stopped then Stopped else Disconnected,
         age := AgeOf(s.hasData, when.expired),
         tracker := s.tracker.AllCached())
    case Cancelled(_) => s.(tracker := s.tracker.AllCached())
  }

  // ---------------------------------------------------------------- what is published

  function QuotaOf(w: Window): QuotaValue {
    var used := if w.usedPercent < 0.0 then 0.0 else if w.usedPercent > 100.0 then 100.0 else w.usedPercent;
    QuotaValue(used, 100.0 - used, Some(w.minutes), w.resetsAt)
  }

  /** The first of the two windows that has this length. */
  function WindowOf(limits: RateLimitsState, minutes: nat): Option<QuotaValue> {
    if limits.primary.Some? && limits.primary.value.minutes == minutes then Some(QuotaOf(limits.primary.value))
    else if limits.secondary.Some? && limits.secondary.value.minutes == minutes then
      Some(QuotaOf(limits.secondary.value))
    else None
  }

  function LimitsOf(limits: RateLimitsState, now: int, revision: u64): RateLimits {
    RateLimits(WindowOf(limits, 300), WindowOf(limits, 10080), now, revision)
  }

  /** The stored windows, the primary one first. */
  function Stored(limits: RateLimitsState): seq<Window> {
    (if limits.primary.Some? then [limits.primary.value] else [])
    + if limits.secondary.Some? then [limits.secondary.value] else []
  }

  /** The value of the first of these windows that has this length. */
  function FirstOf(windows: seq<Window>, minutes: nat): Option<QuotaValue> {
    if windows == [] then None
    else
      var earlier, last := FirstOf(windows[..|windows| - 1], minutes), windows[|windows| - 1];
      if earlier.Some? then earlier else if last.minutes == minutes then Some(QuotaOf(last)) else None
  }

  lemma FirstOfStored(limits: RateLimitsState, minutes: nat)
    ensures FirstOf(Stored(limits), minutes) == WindowOf(limits, minutes)
  {
    var windows := Stored(limits);
    if |windows| == 1 { assert windows[..0] == [] && FirstOf(windows[..0], minutes) == None; }
    if |windows| == 2 {
      var first := windows[..1];
      assert first == [windows[0]] && first[..0] == [] && FirstOf(first[..0], minutes) == None;
    }
  }

  /** Sorts the stored windows by their length; the first of a length counts, any other length is passed over. */
  method TakeSnapshot(limits: RateLimitsState, now: int, revision: u64) returns (snapshot: RateLimits)
    ensures snapshot == LimitsOf(limits, now, revision)
  {
    var windows := Stored(limits);
    var fiveHour: Option<QuotaValue>, weekly: Option<QuotaValue> := None, None;
    for i := 0 to |windows|
      invariant fiveHour == FirstOf(windows[..i], 300) && weekly == FirstOf(windows[..i], 10080)
    {
      assert windows[..i + 1][..i] == windows[..i];
      if windows[i].minutes == 300 && fiveHour.None? { fiveHour := Some(QuotaOf(windows[i])); }
      if windows[i].minutes == 10080 && weekly.None? { weekly := Some(QuotaOf(windows[i])); }
    }
    assert windows[..|windows|] == windows;
    FirstOfStored(limits, 300);
    FirstOfStored(limits, 10080);
    snapshot := RateLimits(fiveHour, weekly, now, revision);
  }

  predicate IsCredits(v: Value) {
    v.Object? && var has := Field(v.members, ["hasCredits", "has_credits"]); has.Some? && has.value.Bool?
  }

  predicate IsResetCredits(v: Value) {
    v.Object? && var count := Field(v.members, ["availableCount", "available_count"]);
    count.Some? && AsU64(count.value).Some?
  }

  function DetailsOf(v: ServerView): OfficialDetails {
    var raw := v.limits.raw;
    var credits, limit := Entry(raw, "credits"), Entry(raw, "individualLimit");
    var reached := Field(raw, ["spendControlReached", "spend_control_reached"]);
    var resets := v.limits.resetCredits;
    OfficialDetails(
      if v.account.fields != map[] || v.account.requiresOpenaiAuth.Some? then Some(v.account) else None,
      if credits.Some? && IsCredits(credits.value) then credits else None,
      if limit.Some? && limit.value.Object? then limit else None,
      if reached.Some? then AsBool(reached.value) else None,
      if resets.Some? && IsResetCredits(resets.value) then resets else None,
      v.usage,
      TextField(raw, ["limitName", "limit_name"]),
      TextField(raw, ["rateLimitReachedType", "rate_limit_reached_type"]))
  }

  /** The most conservative reading of the three endpoints. */
  function AggregateFreshness(t: Tracker): OfficialFreshness {
    if t.account.freshness.Live? && t.quota.freshness.Live? && t.usage.freshness.Live? then Live
    else if t.account.freshness.Missing? && t.quota.freshness.Missing? && t.usage.freshness.Missing? then Missing
    else Cached
  }

  function Later(a: Option<int>, b: Option<int>): Option<int> {
    if a.None? then b else if b.None? || a.value >= b.value then a else b
  }

  function OfficialOf(v: ServerView, t: Tracker): OfficialSnapshot {
    var latest := Later(Later(t.account.observedAt, t.quota.observedAt), t.usage.observedAt);
    OfficialSnapshot(DetailsOf(v), t.account, t.quota, t.usage, AggregateFreshness(t),
                     if latest.Some? then latest.value else 0)
  }

  function TokensOf(tokens: Option<TokenState>, now: int): Option<TokenUsageSnapshot> {
    if tokens.None? then None
    else
      var t := tokens.value;
      Some(TokenUsageSnapshot(Some(t.counts), t.last, t.contextWindow, None,
                              if t.observedAt.Some? then t.observedAt.value else now, FromAppServer))
  }

  datatype SessionUpdate = SessionUpdate(
    limits: RateLimits,
    official: OfficialSnapshot,
    tokens: Option<TokenUsageSnapshot>,
    activity: Option<ActivityState>,
    age: DataAge,
    health: Health,
    observedAt: Option<int>,
    elapsed: Option<nat>,
    reset: bool)

  function Snapshot(s: SessionState, health: Health, reset: bool, when: Moment): SessionUpdate {
    SessionUpdate(
      LimitsOf(s.server.limits, when.now, s.revision),
      OfficialOf(s.server, s.tracker),
      TokensOf(s.server.tokens, when.now),
      AggregatedActivity(s.server.last, s.server.threads, when.now),
      s.age,
      health,
      if s.hasData then Some(when.now) else None,
      if s.hasData then Some(when.age) else None,
      reset)
  }

  /** The one update an event publishes. */
  ghost function Published(s: SessionState, event: Event): SessionUpdate {
    var after := After(s, event);
    Snapshot(after, if event.Cancelled? then Stopped else after.health, IsAccountChange(event), event.when)
  }

  // ---------------------------------------------------------------- the session as an object

  class CodexSession {
    const server: AppServer
    var tracker: Tracker
    var health: Health
    var age: DataAge
    var hasData: bool
    var revision: u64

    ghost function State(): SessionState
      reads this, server
    {
      SessionState(server.View(), tracker, health, age, hasData, revision)
    }

    constructor ()
      ensures State() == OPENED && fresh(server)
    {
      server := new AppServer();
      tracker, health, age, hasData, revision := UNTRIED, Starting, NoData, false, 0;
    }

    method Emit(reset: bool, shown: Health, when: Moment) returns (update: SessionUpdate)
      ensures update == Snapshot(State(), shown, reset, when)
    {
      var view := ServerView(server.account, server.limits, server.tokens, server.usage, server.last, server.threads);
      var limits := TakeSnapshot(server.limits, when.now, revision);
      update := SessionUpdate(
        limits,
        OfficialOf(view, tracker),
        TokensOf(server.tokens, when.now),
        AggregatedActivity(server.last, server.threads, when.now),
        age,
        shown,
        if hasData then Some(when.now) else None,
        if hasData then Some(when.age) else None,
        reset);
    }

    method ApplyResponse(e: Endpoint, result: Value) returns (valid: bool)
      modifies server
      ensures valid <==> Valid(e, result)
      ensures server.View() ==
        var v := old(server.View());
        if !valid then v
        else match e
             case AccountEndpoint => v.(account := ReadAccount(result))
             case QuotaEndpoint => v.(limits := ReadLimits(result).value)
             case UsageEndpoint => v.(usage := Some(result))
    {
      match e
      case AccountEndpoint => valid := server.ReplaceAccount(result);
      case QuotaEndpoint => valid := server.ReplaceRateLimits(result);
      case UsageEndpoint => valid := server.ReplaceAccountUsage(result);
    }

    /** Takes over one reply; a reply that cannot be used degrades its endpoint only. */
    method Complete(e: Endpoint, reply: Reply) returns (succeeded: bool)
      modifies this, server
      ensures succeeded <==> Succeeds(e, reply)
      ensures tracker == old(tracker).With(e, if succeeded then LiveAt(reply.at) else old(tracker).Status(e).AsCached())
      ensures server.View() ==
        var v := old(server.View());
        if !succeeded then v
        else match e
             case AccountEndpoint => v.(account := ReadAccount(reply.result.value))
             case QuotaEndpoint => v.(limits := ReadLimits(reply.result.value).value)
             case UsageEndpoint => v.(usage := Some(reply.result.value))
      ensures revision == Saturate(old(revision) + Count(succeeded)) && hasData == (old(hasData) || succeeded)
      ensures health == old(health) && age == old(age)
    {
      succeeded := false;
      if reply.Answered? && reply.result.Some? { succeeded := ApplyResponse(e, reply.result.value); }
      if succeeded {
        tracker := tracker.With(e, LiveAt(reply.at));
        revision, hasData := Saturate(revision + 1), true;
      } else {
        tracker := tracker.With(e, tracker.Status(e).AsCached());
      }
    }

    method Refresh(r: Replies, reset: bool, when: Moment) returns (update: SessionUpdate)
      modifies this, server
      ensures State() == AfterRefresh(old(State()), r, when.expired)
      ensures update == Snapshot(State(), health, reset, when)
    {
      var a := Complete(AccountEndpoint, r.account);
      var q := Complete(QuotaEndpoint, r.quota);
      var u := Complete(UsageEndpoint, r.usage);
      health := if a && q && u then Healthy else Degraded;
      age := if a || q || u then FreshData else AgeOf(hasData, when.expired);
      update := Emit(reset, health, when);
    }

    method Note(n: Notification)
      modifies this, server
      ensures State() == AfterNotice(old(State()), n)
    {
      if n.Topic().AboutAccount? {
        server.Forget();
        tracker := UNTRIED;
      }
      server.ApplyNotification(n);
      if n.Topic().AboutTokens? && server.tokens.Some? {
        server.tokens := Some(server.tokens.value.(observedAt := Some(n.at)));
      }
      revision := Saturate(revision + 1);
      hasData, health, age := true, Healthy, FreshData;
      if n.Topic().AboutLimits? { tracker := tracker.(quota := LiveAt(n.at)); }
    }

    /** One turn of the event loop. */
    method Handle(event: Event) returns (update: SessionUpdate)
      modifies this, server
      ensures State() == After(old(State()), event)
      ensures update == Published(old(State()), event)
    {
      match event
      case Refreshed(replies, when) => update := Refresh(replies, false, when);
      case Notice(n, ready, replies, when) =>
        Note(n);
        var changed := n.Topic().AboutAccount?;
        if changed && ready { update := Refresh(replies, true, when); } else { update := Emit(changed, health, when); }
      case Trouble(when) =>
        health, age := Degraded, AgeOf(hasData, when.expired);
        update := Emit(false, health, when);
      case NotReady(when) =>
        age := AgeOf(hasData, when.expired);
        update := Emit(false, health, when);
      case Ended(stopped, when) =>
        health := if stopped then Stopped else Disconnected;
        age, tracker := AgeOf(hasData, when.expired), tracker.AllCached();
        update := Emit(false, health, when);
      case Cancelled(when) =>
        tracker := tracker.AllCached();
        update := Emit(false, Stopped, when);
    }
  }
}
