/** What one transport run publishes: endpoint freshness, resets, and isolation of accounts. */
module SessionTheorems {
  import opened Common
  import opened Json
  import opened AppServerState
  import opened Monitor
  import opened Session

  ghost function RunFrom(s: SessionState, events: seq<Event>): SessionState {
    if events == [] then s else After(RunFrom(s, events[..|events| - 1]), events[|events| - 1])
  }

  /** The update published for event `i`, on the state the events before it have led to. */
  ghost function UpdateAt(s: SessionState, events: seq<Event>, i: nat): SessionUpdate
    requires i < |events|
  {
    Published(RunFrom(s, events[..i]), events[i])
  }

  // ---------------------------------------------------------------- endpoint freshness

  /** What an event says about one endpoint. */
  datatype Word = Nothing | Success(at: int) | Failure | Hangup

  ghost function RefreshWord(r: Replies, e: Endpoint): Word {
    if Succeeds(e, r.To(e)) then Success(r.To(e).at) else Failure
  }

  ghost function WordOf(event: Event, e: Endpoint): Word {
    match event
    case Refreshed(replies, _) => RefreshWord(replies, e)
    case Notice(n, ready, replies, _) =>
      if IsAccountChange(event) && ready then RefreshWord(replies, e)
      else if n.Topic().AboutLimits? && e.QuotaEndpoint? then Success(n.at)
      else Nothing
    case Trouble(_) | NotReady(_) => Nothing
    case Ended(_, _) | Cancelled(_) => Hangup
  }

  /** The last success of this account generation. */
  ghost function LastSuccess(events: seq<Event>, e: Endpoint): Option<int> {
    if events == [] then None
    else
      var word := WordOf(events[|events| - 1], e);
      if word.Success? then Some(word.at)
      else if IsAccountChange(events[|events| - 1]) then None
      else LastSuccess(events[..|events| - 1], e)
  }

  /** The last thing said about the endpoint in this generation was a success. */
  ghost predicate EndsInSuccess(events: seq<Event>, e: Endpoint) {
    events != []
    && var word := WordOf(events[|events| - 1], e);
    (word.Success?
     || (word.Nothing? && !IsAccountChange(events[|events| - 1]) && EndsInSuccess(events[..|events| - 1], e)))
  }

  /** The status an endpoint deserves, read off the whole history. */
  ghost function Deserved(events: seq<Event>, e: Endpoint): EndpointStatus {
    var success := LastSuccess(events, e);
    if success.None? then EndpointStatus(Missing, None)
    else EndpointStatus(if EndsInSuccess(events, e) then Live else Cached, success)
  }

  lemma {:induction false} CurrentImpliesSuccess(events: seq<Event>, e: Endpoint)
    requires EndsInSuccess(events, e)
    ensures LastSuccess(events, e).Some?
  {
    if !WordOf(events[|events| - 1], e).Success? { CurrentImpliesSuccess(events[..|events| - 1], e); }
  }

  lemma StatusAfter(s: SessionState, event: Event, e: Endpoint)
    ensures var before, word := if IsAccountChange(event) then NO_STATUS else s.tracker.Status(e), WordOf(event, e);
      After(s, event).tracker.Status(e)
        == match word
           case Nothing => before
           case Success(at) => LiveAt(at)
           case Failure | Hangup => before.AsCached()
  {}

  /** In every run: an endpoint is unavailable iff it never succeeded in this generation, live iff
      its latest outcome was a success with no disconnect since, cached otherwise; and it keeps the
      time of its own last success. */
  lemma {:induction false} EndpointsAsDeserved(events: seq<Event>, e: Endpoint)
    ensures RunFrom(OPENED, events).tracker.Status(e) == Deserved(events, e)
  {
    if events != [] {
      var init, last := events[..|events| - 1], events[|events| - 1];
      EndpointsAsDeserved(init, e);
      StatusAfter(RunFrom(OPENED, init), last, e);
      if EndsInSuccess(init, e) { CurrentImpliesSuccess(init, e); }
    }
  }

  lemma TrackerAsDeserved(events: seq<Event>)
    ensures RunFrom(OPENED, events).tracker
      == Tracker(Deserved(events, AccountEndpoint), Deserved(events, QuotaEndpoint), Deserved(events, UsageEndpoint))
  {
    EndpointsAsDeserved(events, AccountEndpoint);
    EndpointsAsDeserved(events, QuotaEndpoint);
    EndpointsAsDeserved(events, UsageEndpoint);
  }

  lemma DeservedFreshness(events: seq<Event>, e: Endpoint)
    ensures Deserved(events, e).freshness.Live? <==> EndsInSuccess(events, e)
    ensures Deserved(events, e).freshness.Missing? <==> LastSuccess(events, e).None?
    ensures Deserved(events, e).observedAt == LastSuccess(events, e)
  {
    if EndsInSuccess(events, e) { CurrentImpliesSuccess(events, e); }
  }

  lemma AggregateOf(v: ServerView, t: Tracker)
    ensures OfficialOf(v, t).freshness.Live? <==>
      t.account.freshness.Live? && t.quota.freshness.Live? && t.usage.freshness.Live?
    ensures OfficialOf(v, t).freshness.Missing? <==>
      t.account.freshness.Missing? && t.quota.freshness.Missing? && t.usage.freshness.Missing?
  {}

  /** The card as a whole is live iff all three endpoints are, and unavailable iff all three are. */
  lemma AggregateAsDeserved(events: seq<Event>)
    ensures var s := RunFrom(OPENED, events); var official := OfficialOf(s.server, s.tracker);
      && (official.freshness.Live? <==>
            EndsInSuccess(events, AccountEndpoint) && EndsInSuccess(events, QuotaEndpoint)
              && EndsInSuccess(events, UsageEndpoint))
      && (official.freshness.Missing? <==>
            LastSuccess(events, AccountEndpoint).None? && LastSuccess(events, QuotaEndpoint).None?
            && LastSuccess(events, UsageEndpoint).None?)
  {
    TrackerAsDeserved(events);
    AggregateOf(RunFrom(OPENED, events).server, RunFrom(OPENED, events).tracker);
    DeservedFreshness(events, AccountEndpoint);
    DeservedFreshness(events, QuotaEndpoint);
    DeservedFreshness(events, UsageEndpoint);
  }

  /** Replies that differ only for one endpoint lead to the same data and status for the others. */
  lemma FailuresAreIsolated(s: SessionState, r: Replies, other: Replies, e: Endpoint, expired: bool)
    requires r.To(e) == other.To(e)
    ensures var one, two := AfterRefresh(s, r, expired), AfterRefresh(s, other, expired);
      && one.tracker.Status(e) == two.tracker.Status(e)
      && (e.AccountEndpoint? ==> one.server.account == two.server.account)
      && (e.QuotaEndpoint? ==> one.server.limits == two.server.limits)
      && (e.UsageEndpoint? ==> one.server.usage == two.server.usage)
  {}

  // ---------------------------------------------------------------- resets

  /** How often the account changed among the first `n` events. */
  function Changes(events: seq<Event>, n: nat): nat
    requires n <= |events|
  {
    if n == 0 then 0 else Changes(events, n - 1) + Count(IsAccountChange(events[n - 1]))
  }

  /** The account generation an update belongs to; the run opens in generation 0. */
  function Generation(events: seq<Event>, i: nat): nat
    requires i < |events|
  {
    Changes(events, i + 1)
  }

  lemma {:induction false} ChangesGrow(events: seq<Event>, m: nat, n: nat)
    requires m <= n <= |events|
    ensures Changes(events, m) <= Changes(events, n)
  {
    if m < n { ChangesGrow(events, m, n - 1); }
  }

  /** The first event of its generation, which is not the opening one. */
  predicate IsFirstOfChanged(events: seq<Event>, i: nat)
    requires i < |events|
  {
    Generation(events, i) > 0 && forall j :: 0 <= j < i ==> Generation(events, j) < Generation(events, i)
  }

  lemma EarlierGeneration(events: seq<Event>, j: nat, i: nat)
    requires j < i <= |events|
    ensures Generation(events, j) <= Changes(events, i)
  {
    ChangesGrow(events, j + 1, i);
  }

  lemma ChangeIsFirst(events: seq<Event>, i: nat)
    requires i < |events|
    ensures IsAccountChange(events[i]) <==> IsFirstOfChanged(events, i)
  {
    forall j | 0 <= j < i ensures Generation(events, j) <= Changes(events, i) { EarlierGeneration(events, j, i); }
    assert Generation(events, i) == Changes(events, i) + Count(IsAccountChange(events[i]));
    if i == 0 { assert Changes(events, 0) == 0; } else { assert Generation(events, i - 1) == Changes(events, i); }
  }

  /** An update tells the monitor to reset exactly if it is the first one published in its generation
      and that generation is not the opening one. */
  lemma ResetIsFirst(s: SessionState, events: seq<Event>, i: nat)
    requires i < |events|
    ensures UpdateAt(s, events, i).reset <==> IsFirstOfChanged(events, i)
  {
    ChangeIsFirst(events, i);
  }

  /** Update `i` opens generation `g`: it belongs to it, none before it does, and it alone says reset. */
  ghost predicate Opens(s: SessionState, events: seq<Event>, g: nat, i: nat) {
    && i < |events| && Generation(events, i) == g && UpdateAt(s, events, i).reset
    && forall j :: 0 <= j < |events| && Generation(events, j) == g ==>
         i <= j && (UpdateAt(s, events, j).reset ==> j == i)
  }

  /** Each generation after an account change has exactly one update with the flag, its first. */
  lemma ResetOncePerGeneration(s: SessionState, events: seq<Event>, g: nat)
    requires 1 <= g <= Changes(events, |events|)
    ensures exists i :: Opens(s, events, g, i)
  {
    var i := ChangeNumber(events, |events|, g);
    ResetIsFirst(s, events, i);
    ChangeIsFirst(events, i);
    forall j | 0 <= j < i ensures Generation(events, j) < g { EarlierGeneration(events, j, i); }
    forall j | 0 <= j < |events| && Generation(events, j) == g ensures UpdateAt(s, events, j).reset ==> j == i {
      ResetIsFirst(s, events, j);
    }
    assert Opens(s, events, g, i);
  }

  /** The event of the `g`-th account change. */
  lemma {:induction false} ChangeNumber(events: seq<Event>, n: nat, g: nat) returns (i: nat)
    requires n <= |events| && 1 <= g <= Changes(events, n)
    ensures i < n && Generation(events, i) == g && IsAccountChange(events[i]) && Changes(events, i) < g
    decreases n
  {
    if g <= Changes(events, n - 1) { i := ChangeNumber(events, n - 1, g); } else { i := n - 1; }
  }

  /** The opening generation has none. */
  lemma NoResetAtFirst(s: SessionState, events: seq<Event>, i: nat)
    requires i < |events| && Generation(events, i) == 0
    ensures !UpdateAt(s, events, i).reset
  {
    ResetIsFirst(s, events, i);
  }

  // ---------------------------------------------------------------- isolation of accounts

  /** Two sessions that differ in nothing but the revision counter. */
  ghost predicate SameButRevision(a: SessionState, b: SessionState) { a.(revision := 0) == b.(revision := 0) }

  function Unnumbered(u: SessionUpdate): SessionUpdate { u.(limits := u.limits.(revision := 0)) }

  /** Whatever was known before an account change, nothing of it is left after. */
  lemma AccountChangeForgets(a: SessionState, b: SessionState, event: Event)
    requires IsAccountChange(event)
    ensures SameButRevision(After(a, event), After(b, event))
    ensures Unnumbered(Published(a, event)) == Unnumbered(Published(b, event))
  {}

  lemma SameStaysSame(a: SessionState, b: SessionState, event: Event)
    requires SameButRevision(a, b)
    ensures SameButRevision(After(a, event), After(b, event))
    ensures Unnumbered(Published(a, event)) == Unnumbered(Published(b, event))
  {}

  lemma {:induction false} StatesAlike(a: SessionState, b: SessionState, events: seq<Event>)
    requires events != [] && IsAccountChange(events[0])
    ensures SameButRevision(RunFrom(a, events), RunFrom(b, events))
  {
    var init, last := events[..|events| - 1], events[|events| - 1];
    if init == [] {
      AccountChangeForgets(a, b, last);
    } else {
      StatesAlike(a, b, init);
      SameStaysSame(RunFrom(a, init), RunFrom(b, init), last);
    }
  }

  /** After an account change, everything published in the rest of the run is the same whatever
      went before: no account, limit, usage or token value of an earlier account can be in it. */
  lemma NothingCrossesAccounts(a: SessionState, b: SessionState, events: seq<Event>, i: nat)
    requires i < |events| && IsAccountChange(events[0])
    ensures Unnumbered(UpdateAt(a, events, i)) == Unnumbered(UpdateAt(b, events, i))
  {
    if i == 0 {
      AccountChangeForgets(RunFrom(a, events[..0]), RunFrom(b, events[..0]), events[0]);
    } else {
      StatesAlike(a, b, events[..i]);
      SameStaysSame(RunFrom(a, events[..i]), RunFrom(b, events[..i]), events[i]);
    }
  }

  lemma {:induction false} RunsCompose(s: SessionState, first: seq<Event>, second: seq<Event>)
    ensures RunFrom(s, first + second) == RunFrom(RunFrom(s, first), second)
  {
    if second == [] {
      assert first + second == first;
    } else {
      RunsCompose(s, first, second[..|second| - 1]);
      assert (first + second)[..|first + second| - 1] == first + second[..|second| - 1];
    }
  }

  lemma LaterState(s: SessionState, first: seq<Event>, second: seq<Event>, j: nat)
    requires j < |second|
    ensures RunFrom(s, (first + second)[..|first| + j]) == RunFrom(RunFrom(s, first), second[..j])
    ensures (first + second)[|first| + j] == second[j]
  {
    RunsCompose(s, first, second[..j]);
    assert (first + second)[..|first| + j] == first + second[..j];
  }

  /** What is published late in a run is what the rest of the run publishes on its own. */
  lemma LaterUpdate(s: SessionState, first: seq<Event>, second: seq<Event>, j: nat)
    requires j < |second|
    ensures UpdateAt(s, first + second, |first| + j) == UpdateAt(RunFrom(s, first), second, j)
  {
    LaterState(s, first, second, j);
  }

  // ---------------------------------------------------------------- notifications without content

  /** What a notification gives for a window. */
  function GivenFor(message: Value, name: string): Option<Value> {
    var patch := LimitsPatch(message);
    if patch.Some? then Entry(patch.value, name) else None
  }

  const USED_KEYS := ["usedPercent", "used_percent"]

  const MINUTES_KEYS := ["windowDurationMins", "window_duration_mins"]

  const RESET_KEYS := ["resetsAt", "resets_at", "resetsAtUnix", "resets_at_unix"]

  predicate Differs<T(==)>(given: Option<T>, known: T) { given.Some? && given.value != known }

  /** The patch brings news about a window: it opens it, or one of its readable fields differs. */
  predicate BringsNews(known: Option<Window>, given: Option<Value>) {
    given.Some? && given.value.Object?
    && (known.None?
        || Differs(RealField(given.value.members, USED_KEYS), known.value.usedPercent)
        || Differs(U32Field(given.value.members, MINUTES_KEYS), known.value.minutes)
        || (I64Field(given.value.members, RESET_KEYS).Some?
             && I64Field(given.value.members, RESET_KEYS) != known.value.resetsAt))
  }

  /** The length a window has after a patch, if it is known at all. */
  function LengthAfter(known: Option<Window>, given: Option<Value>): Option<nat> {
    if given.None? || !given.value.Object? then (if known.Some? then Some(known.value.minutes) else None)
    else Some(Else(U32Field(given.value.members, MINUTES_KEYS), if known.Some? then known.value.minutes else 0))
  }

  predicate IsShown(length: Option<nat>) { length == Some(300) || length == Some(10080) }

  lemma NewsIff(known: Option<Window>, given: Option<Value>)
    ensures MergedWindow(known, given) != known <==> BringsNews(known, given)
  {}

  lemma LengthIs(known: Option<Window>, given: Option<Value>)
    ensures var w := MergedWindow(known, given);
      LengthAfter(known, given) == if w.Some? then Some(w.value.minutes) else None
  {}

  /** For every state and every rate-limit notification: the quota's success time moves, whatever the
      notification carries; a window changes exactly if the patch brings news about one; and both
      windows are published as absent, with a live quota, exactly if neither is left with a length
      that is shown. */
  lemma QuotaNoticeIff(s: SessionState, n: Notification, ready: bool, r: Replies, when: Moment)
    requires n.Topic().AboutLimits?
    ensures var before, after := s.server.limits, After(s, Notice(n, ready, r, when)).server.limits;
      var one, two := GivenFor(n.message, "primary"), GivenFor(n.message, "secondary");
      var u := Published(s, Notice(n, ready, r, when));
      && u.official.quota == LiveAt(n.at)
      && (after.primary == before.primary && after.secondary == before.secondary
          <==> !BringsNews(before.primary, one) && !BringsNews(before.secondary, two))
      && (u.limits.fiveHour.None? && u.limits.weekly.None?
          <==> !IsShown(LengthAfter(before.primary, one)) && !IsShown(LengthAfter(before.secondary, two)))
  {
    var before, after := s.server.limits, After(s, Notice(n, ready, r, when)).server.limits;
    var one, two := GivenFor(n.message, "primary"), GivenFor(n.message, "secondary");
    assert after.primary == MergedWindow(before.primary, one) && after.secondary == MergedWindow(before.secondary, two);
    NewsIff(before.primary, one);
    NewsIff(before.secondary, two);
    LengthIs(before.primary, one);
    LengthIs(before.secondary, two);
  }

  /** So a notification that carries no window object makes any session that knows no shown window
      report both as absent with full authority. */
  lemma EmptyPatchLooksLive(s: SessionState, n: Notification, ready: bool, r: Replies, when: Moment)
    requires n.Topic().AboutLimits? && OmitsWindow(n.message, "primary") && OmitsWindow(n.message, "secondary")
    requires var l := s.server.limits;
      !IsShown(LengthAfter(l.primary, None)) && !IsShown(LengthAfter(l.secondary, None))
    ensures var u := Published(s, Notice(n, ready, r, when));
      u.official.quota == LiveAt(n.at) && u.limits.fiveHour.None? && u.limits.weekly.None? && u.health.Healthy?
  {
    QuotaNoticeIff(s, n, ready, r, when);
  }
}
