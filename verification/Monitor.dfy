/** The monitor: one state for the UI, arbitrated between authoritative snapshots and fallbacks. */
module Monitor {
  import opened Common
  import opened Usage
  import opened Activity
  import opened Json
  import opened AppServerState

  // ---------------------------------------------------------------- quota windows

  datatype QuotaPresence = Present | Absent | Unknown

  datatype Freshness = Fresh | Stale

  datatype QuotaSource = AppServer | SessionFallback | NoSource

  datatype QuotaValue =
    QuotaValue(usedPercent: real, remainingPercent: real, windowMinutes: Option<nat>, resetsAt: Option<int>)

  datatype QuotaWindow = QuotaWindow(
    presence: QuotaPresence,
    freshness: Freshness,
    source: QuotaSource,
    value: Option<QuotaValue>,
    lastKnown: Option<QuotaValue>)

  const UNKNOWN_WINDOW := QuotaWindow(Unknown, Stale, NoSource, None, None)

  function FromAuthoritative(value: Option<QuotaValue>, previous: QuotaWindow): QuotaWindow {
    if value.Some? then QuotaWindow(Present, Fresh, QuotaSource.AppServer, value, value)
    else QuotaWindow(Absent, Fresh, QuotaSource.AppServer, None, previous.lastKnown)
  }

  function Unavailable(previous: QuotaWindow): QuotaWindow {
    QuotaWindow(Unknown, Stale, NoSource, None, if previous.value.Some? then previous.value else previous.lastKnown)
  }

  function WithSessionFallback(w: QuotaWindow, value: Option<QuotaValue>): QuotaWindow {
    if w.presence != Unknown || value.None? then w
    else QuotaWindow(Present, Stale, QuotaSource.SessionFallback, value, value)
  }

  predicate IsTaskbarVisible(w: QuotaWindow) { w.presence == Present && w.freshness == Fresh && w.value.Some? }

  // ---------------------------------------------------------------- token usage

  datatype UsageSource = FromAppServer | FromSessionLog | FromSqlite | NoUsage {
    predicate IsRealtime() { FromAppServer? || FromSessionLog? }
  }

  datatype TokenUsageSnapshot = TokenUsageSnapshot(
    currentThread: Option<TokenCounts>,
    lastTurn: Option<TokenCounts>,
    contextWindow: Option<u64>,
    today: Option<TokenCounts>,
    observedAt: int,
    source: UsageSource)

  datatype TokenUsage = TokenUsage(
    currentThread: Option<TokenCounts>,
    lastTurn: Option<TokenCounts>,
    lastTurnSource: UsageSource,
    contextWindow: Option<u64>,
    today: Option<TokenCounts>,
    todaySource: UsageSource,
    todayIsPartial: bool,
    source: UsageSource,
    isFresh: bool,
    observedAt: int,
    lastKnown: Option<TokenCounts>)

  const NO_USAGE := TokenUsage(None, None, NoUsage, None, None, NoUsage, false, NoUsage, false, 0, None)

  function MarkUnavailable(u: TokenUsage): TokenUsage {
    var keepTurn := u.lastTurnSource.FromSessionLog?;
    var keepToday := u.todaySource.FromSqlite? || u.todaySource.FromSessionLog?;
    TokenUsage(
      None,
      if keepTurn then u.lastTurn else None,
      if keepTurn then u.lastTurnSource else NoUsage,
      None,
      if keepToday then u.today else None,
      if keepToday then u.todaySource else NoUsage,
      keepToday && u.todayIsPartial,
      NoUsage,
      false,
      u.observedAt,
      if u.currentThread.Some? then u.currentThread else u.lastKnown)
  }

  function WithSnapshot(u: TokenUsage, s: TokenUsageSnapshot): TokenUsage {
    var turns := s.lastTurn.Some?;
    var days := s.today.Some? || !u.todaySource.FromSqlite?;
    TokenUsage(
      s.currentThread,
      if turns then s.lastTurn else u.lastTurn,
      if turns then s.source else u.lastTurnSource,
      s.contextWindow,
      if days then s.today else u.today,
      if days then s.source else u.todaySource,
      !days && u.todayIsPartial,
      s.source,
      s.source.IsRealtime(),
      s.observedAt,
      if s.currentThread.Some? then s.currentThread else u.lastKnown)
  }

  /** Whether a local count of today may replace what is shown, and would change anything. */
  predicate TakesLocalToday(u: TokenUsage, counts: Option<TokenCounts>) {
    && !(u.today.Some? && u.todaySource.FromAppServer? && u.isFresh)
    && !(u.today == counts && u.todaySource.FromSqlite? && u.todayIsPartial)
  }

  function WithLocalToday(u: TokenUsage, counts: Option<TokenCounts>, at: int): TokenUsage {
    u.(today := counts, todaySource := FromSqlite, todayIsPartial := true,
       observedAt := if at > u.observedAt then at else u.observedAt)
  }

  // ---------------------------------------------------------------- official endpoints

  datatype OfficialFreshness = Live | Cached | Missing

  datatype EndpointStatus = EndpointStatus(freshness: OfficialFreshness, observedAt: Option<int>) {
    /** A failure degrades an earlier success; an endpoint that never succeeded stays unavailable. */
    function AsCached(): EndpointStatus {
      if observedAt.Some? then EndpointStatus(Cached, observedAt) else NO_STATUS
    }
  }

  const NO_STATUS := EndpointStatus(Missing, None)

  function LiveAt(at: int): EndpointStatus { EndpointStatus(Live, Some(at)) }

  /** Account details, each as the JSON it is read from. */
  datatype OfficialDetails = OfficialDetails(
    account: Option<Account>,
    credits: Option<Value>,
    individualLimit: Option<Value>,
    spendControlReached: Option<bool>,
    resetCredits: Option<Value>,
    accountUsage: Option<Value>,
    rateLimitName: Option<string>,
    rateLimitReachedType: Option<string>)
  {
    predicate HasAny() {
      account.Some? || credits.Some? || individualLimit.Some? || spendControlReached.Some? || resetCredits.Some?
      || accountUsage.Some? || rateLimitName.Some? || rateLimitReachedType.Some?
    }
  }

  datatype OfficialSnapshot = OfficialSnapshot(
    details: OfficialDetails,
    account: EndpointStatus,
    quota: EndpointStatus,
    usage: EndpointStatus,
    freshness: OfficialFreshness,
    observedAt: int)
  {
    function AsCached(): OfficialSnapshot {
      OfficialSnapshot(details, account.AsCached(), quota.AsCached(), usage.AsCached(),
                       if details.HasAny() then Cached else Missing, observedAt)
    }
  }

  // ---------------------------------------------------------------- the state as a value

  datatype RateLimits =
    RateLimits(fiveHour: Option<QuotaValue>, weekly: Option<QuotaValue>, observedAt: int, revision: u64)

  datatype Picture = Picture(
    fiveHour: QuotaWindow,
    weekly: QuotaWindow,
    activity: ActivityState,
    activityEnteredAt: int,
    usage: TokenUsage,
    official: Option<OfficialSnapshot>,
    observedAt: int,
    revision: u64)

  const BLANK := Picture(UNKNOWN_WINDOW, UNKNOWN_WINDOW, UnknownActivity, 0, NO_USAGE, None, 0, 0)

  function WithReset(p: Picture): Picture {
    p.(fiveHour := UNKNOWN_WINDOW, weekly := UNKNOWN_WINDOW, usage := NO_USAGE, official := None)
  }

  /** A snapshot is refused when it is older: by revision, and within one revision by time. */
  predicate Accepts(p: Picture, snapshot: RateLimits) {
    snapshot.revision > p.revision || (snapshot.revision == p.revision && snapshot.observedAt >= p.observedAt)
  }

  function WithRateLimits(p: Picture, snapshot: RateLimits): Picture {
    if !Accepts(p, snapshot) then p
    else p.(fiveHour := FromAuthoritative(snapshot.fiveHour, p.fiveHour),
            weekly := FromAuthoritative(snapshot.weekly, p.weekly),
            observedAt := snapshot.observedAt, revision := snapshot.revision)
  }

  function WithRateLimitsUnavailable(p: Picture): Picture {
    p.(fiveHour := Unavailable(p.fiveHour), weekly := Unavailable(p.weekly))
  }

  function WithFallback(p: Picture, fiveHour: Option<QuotaValue>, weekly: Option<QuotaValue>): Picture {
    p.(fiveHour := WithSessionFallback(p.fiveHour, fiveHour), weekly := WithSessionFallback(p.weekly, weekly))
  }

  function WithActivity(p: Picture, states: seq<ActivityState>, at: int): Picture {
    if Aggregate(states) == p.activity then p else p.(activity := Aggregate(states), activityEnteredAt := at)
  }

  function WithTokenUsage(p: Picture, snapshot: TokenUsageSnapshot): Picture {
    if snapshot.observedAt < p.usage.observedAt then p else p.(usage := WithSnapshot(p.usage, snapshot))
  }

  function WithToday(p: Picture, counts: Option<TokenCounts>, at: int): Picture {
    if TakesLocalToday(p.usage, counts) then p.(usage := WithLocalToday(p.usage, counts, at)) else p
  }

  function WithOfficialCached(p: Picture): Picture {
    p.(official := if p.official.Some? then Some(p.official.value.AsCached()) else None)
  }

  function WithAuthoritativeUnavailable(p: Picture, at: int): Picture {
    if at < p.observedAt then p
    else WithOfficialCached(WithRateLimitsUnavailable(p).(usage := MarkUnavailable(p.usage))).(observedAt := at)
  }

  datatype Update =
    | Reset
    | Limits(snapshot: RateLimits)
    | Activity(states: seq<ActivityState>, at: int)
    | Tokens(tokens: TokenUsageSnapshot)
    | LocalToday(counts: Option<TokenCounts>, at: int)
    | Official(official: OfficialSnapshot)
    | LimitsUnavailable
    | AuthoritativeUnavailable(at: int)

  function Applied(p: Picture, update: Update): Picture {
    match update
    case Reset => WithReset(p)
    case Limits(snapshot) => WithRateLimits(p, snapshot)
    case Activity(states, at) => WithActivity(p, states, at)
    case Tokens(tokens) => WithTokenUsage(p, tokens)
    case LocalToday(counts, at) => WithToday(p, counts, at)
    case Official(official) => p.(official := Some(official))
    case LimitsUnavailable => WithRateLimitsUnavailable(p)
    case AuthoritativeUnavailable(at) => WithAuthoritativeUnavailable(p, at)
  }

  /** Whether the event was accepted or changed what it is about. */
  predicate Takes(p: Picture, update: Update) {
    match update
    case Limits(snapshot) => Accepts(p, snapshot)
    case Activity(states, _) => Aggregate(states) != p.activity
    case Tokens(tokens) => tokens.observedAt >= p.usage.observedAt
    case LocalToday(counts, _) => TakesLocalToday(p.usage, counts)
    case AuthoritativeUnavailable(at) => at >= p.observedAt
    case _ => true
  }

  // ---------------------------------------------------------------- the state as an object

  class MonitorState {
    var fiveHour: QuotaWindow
    var weekly: QuotaWindow
    var activity: ActivityState
    var activityEnteredAt: int
    var usage: TokenUsage
    var official: Option<OfficialSnapshot>
    var observedAt: int
    var revision: u64

    function View(): Picture reads this {
      Picture(fiveHour, weekly, activity, activityEnteredAt, usage, official, observedAt, revision)
    }

    constructor ()
      ensures View() == BLANK
    {
      fiveHour, weekly, activity, activityEnteredAt := UNKNOWN_WINDOW, UNKNOWN_WINDOW, UnknownActivity, 0;
      usage, official, observedAt, revision := NO_USAGE, None, 0, 0;
    }

    method ResetAccountScopedState()
      modifies this
      ensures View() == WithReset(old(View()))
    {
      fiveHour, weekly := UNKNOWN_WINDOW, UNKNOWN_WINDOW;
      usage := NO_USAGE;
      official := None;
    }

    method ApplyAuthoritative(snapshot: RateLimits) returns (accepted: bool)
      modifies this
      ensures View() == WithRateLimits(old(View()), snapshot)
      ensures accepted <==> Accepts(old(View()), snapshot)
    {
      if snapshot.revision < revision || (snapshot.revision == revision && snapshot.observedAt < observedAt) {
        return false;
      }
      var newFiveHour := FromAuthoritative(snapshot.fiveHour, fiveHour);
      var newWeekly := FromAuthoritative(snapshot.weekly, weekly);
      fiveHour, weekly := newFiveHour, newWeekly;
      observedAt, revision := snapshot.observedAt, snapshot.revision;
      accepted := true;
    }

    method MarkRateLimitsUnavailable()
      modifies this
      ensures View() == WithRateLimitsUnavailable(old(View()))
    {
      fiveHour := Unavailable(fiveHour);
      weekly := Unavailable(weekly);
    }

    method ApplySessionFallback(newFiveHour: Option<QuotaValue>, newWeekly: Option<QuotaValue>)
      modifies this
      ensures View() == WithFallback(old(View()), newFiveHour, newWeekly)
    {
      fiveHour := WithSessionFallback(fiveHour, newFiveHour);
      weekly := WithSessionFallback(weekly, newWeekly);
    }

    method UpdateActivityAt(states: seq<ActivityState>, at: int)
      modifies this
      ensures View() == WithActivity(old(View()), states, at)
    {
      var top := Aggregate(states);
      if top != activity { activity, activityEnteredAt := top, at; }
    }

    method ApplyTokenUsage(snapshot: TokenUsageSnapshot) returns (accepted: bool)
      modifies this
      ensures View() == WithTokenUsage(old(View()), snapshot)
      ensures accepted <==> snapshot.observedAt >= old(usage).observedAt
    {
      if snapshot.observedAt < usage.observedAt { return false; }
      usage := usage.(currentThread := snapshot.currentThread);
      if snapshot.lastTurn.Some? { usage := usage.(lastTurn := snapshot.lastTurn, lastTurnSource := snapshot.source); }
      usage := usage.(contextWindow := snapshot.contextWindow);
      if snapshot.today.Some? || !usage.todaySource.FromSqlite? {
        usage := usage.(today := snapshot.today, todaySource := snapshot.source, todayIsPartial := false);
      }
      usage := usage.(source := snapshot.source, isFresh := snapshot.source.IsRealtime(),
        observedAt := snapshot.observedAt);
      if usage.currentThread.Some? { usage := usage.(lastKnown := usage.currentThread); }
      accepted := true;
    }

    method ApplyLocalTodayUsage(counts: Option<TokenCounts>, at: int) returns (changed: bool)
      modifies this
      ensures View() == WithToday(old(View()), counts, at)
      ensures changed <==> TakesLocalToday(old(usage), counts)
    {
      if usage.today.Some? && usage.todaySource.FromAppServer? && usage.isFresh { return false; }
      if usage.today == counts && usage.todaySource.FromSqlite? && usage.todayIsPartial { return false; }
      usage := usage.(today := counts, todaySource := FromSqlite, todayIsPartial := true);
      if at > usage.observedAt { usage := usage.(observedAt := at); }
      changed := true;
    }

    method MarkTokenUsageUnavailable()
      modifies this
      ensures View() == old(View()).(usage := MarkUnavailable(old(usage)))
    {
      usage := MarkUnavailable(usage);
    }

    method ApplyOfficial(snapshot: OfficialSnapshot)
      modifies this
      ensures View() == old(View()).(official := Some(snapshot))
    {
      official := Some(snapshot);
    }

    method MarkOfficialCached()
      modifies this
      ensures View() == WithOfficialCached(old(View()))
    {
      if official.Some? { official := Some(official.value.AsCached()); }
    }
  }

  class MonitorCoordinator {
    const state: MonitorState

    constructor (initial: MonitorState)
      ensures state == initial
    {
      state := initial;
    }

    method Apply(update: Update) returns (changed: bool)
      modifies state
      ensures state.View() == Applied(old(state.View()), update)
      ensures changed <==> Takes(old(state.View()), update)
    {
      changed := true;
      match update
      case Reset => state.ResetAccountScopedState();
      case Limits(snapshot) => changed := state.ApplyAuthoritative(snapshot);
      case Activity(states, at) =>
        var before := state.activity;
        state.UpdateActivityAt(states, at);
        changed := state.activity != before;
      case Tokens(tokens) => changed := state.ApplyTokenUsage(tokens);
      case LocalToday(counts, at) => changed := state.ApplyLocalTodayUsage(counts, at);
      case Official(official) => state.ApplyOfficial(official);
      case LimitsUnavailable => state.MarkRateLimitsUnavailable();
      case AuthoritativeUnavailable(at) =>
        if at < state.observedAt { return false; }
        state.MarkRateLimitsUnavailable();
        state.MarkTokenUsageUnavailable();
        state.MarkOfficialCached();
        state.observedAt := at;
    }
  }
}
