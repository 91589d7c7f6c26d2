/** What the session publishes of quota and tokens, field by field, and what of it the taskbar shows. */
module PublishedFigures {
  import opened Common
  import opened Usage
  import opened Activity
  import opened Strings
  import opened Json
  import opened AppServerState
  import opened TokenFigures
  import opened Monitor
  import opened Session
  import opened SessionTheorems
  import opened MonitorTheorems
  import opened PipelineTheorems

  // ---------------------------------------------------------------- windows that are stored

  datatype WindowField = Used | Minutes | Resets

  /** Under the first of the keys that is there, whatever it holds. */
  function Under(entries: Members, keys: seq<string>): Option<Value> {
    if keys == [] then None
    else if keys[0] in entries then Some(entries[keys[0]])
    else Under(entries, keys[1..])
  }

  function UsedIn(given: Members): Option<Value> { Under(given, ["usedPercent", "used_percent"]) }

  function MinutesIn(given: Members): Option<Value> { Under(given, ["windowDurationMins", "window_duration_mins"]) }

  function ResetsIn(given: Members): Option<Value> {
    Under(given, ["resetsAt", "resets_at", "resetsAtUnix", "resets_at_unix"])
  }

  /** A number in JSON, as a percentage. */
  predicate IsPercent(v: Option<Value>, used: real) {
    v.Some? && ((v.value.Integer? && used == v.value.number as real) || (v.value.Fraction? && used == v.value.amount))
  }

  predicate IsNumber(v: Option<Value>) { v.Some? && (v.value.Integer? || v.value.Fraction?) }

  /** A whole number of minutes of 32 bits, and a signed one of 64. */
  predicate IsMinutes(v: Option<Value>) { v.Some? && v.value.Integer? && 0 <= v.value.number < 0x1_0000_0000 }

  predicate IsTime(v: Option<Value>) {
    v.Some? && v.value.Integer? && -0x8000_0000_0000_0000 <= v.value.number < 0x8000_0000_0000_0000
  }

  /** What an object says of a window it leaves behind `after`: each readable field as given, each other as
      it was, and for a window first heard of: nothing used, no length, no reset time. */
  predicate FollowsObject(before: Option<Window>, given: Members, after: Window) {
    && (if IsNumber(UsedIn(given)) then IsPercent(UsedIn(given), after.usedPercent)
        else after.usedPercent == if before.Some? then before.value.usedPercent else 0.0)
    && (if IsMinutes(MinutesIn(given)) then after.minutes == MinutesIn(given).value.number
        else after.minutes == if before.Some? then before.value.minutes else 0)
    && (if IsTime(ResetsIn(given)) then after.resetsAt == Some(ResetsIn(given).value.number)
        else after.resetsAt == if before.Some? then before.value.resetsAt else None)
  }

  lemma {:induction false} UnderIsField(entries: Members, keys: seq<string>)
    ensures Field(entries, keys) == Under(entries, keys)
  {
    if keys != [] { UnderIsField(entries, keys[1..]); }
  }

  lemma WindowFollows(before: Option<Window>, given: Option<Value>)
    ensures var after := MergedWindow(before, given);
      if given.Some? && given.value.Object? then after.Some? && FollowsObject(before, given.value.members, after.value)
      else after == before
  {
    if given.Some? && given.value.Object? {
      UnderIsField(given.value.members, ["usedPercent", "used_percent"]);
      UnderIsField(given.value.members, ["windowDurationMins", "window_duration_mins"]);
      UnderIsField(given.value.members, ["resetsAt", "resets_at", "resetsAtUnix", "resets_at_unix"]);
    }
  }

  /** A window after a patch, or in a full read, which starts from nothing. */
  ghost predicate Follows(before: Option<Window>, given: Members, name: string, after: Option<Window>) {
    if name in given && given[name].Object? then after.Some? && FollowsObject(before, given[name].members, after.value)
    else after == before
  }

  /** A notification patches each window by the object under its own name; a full read starts from nothing. */
  lemma LimitsFollow(before: RateLimitsState, update: Value)
    ensures LimitsPatch(update).Some? ==>
      var given, after := LimitsPatch(update).value, MergedLimits(before, update);
      && Follows(before.primary, given, "primary", after.primary)
      && Follows(before.secondary, given, "secondary", after.secondary)
    ensures ReadLimits(update).Some? ==>
      var given, after := PreferredLimits(update).value, ReadLimits(update).value;
      Follows(None, given, "primary", after.primary) && Follows(None, given, "secondary", after.secondary)
  {
    if LimitsPatch(update).Some? {
      var given := LimitsPatch(update).value;
      WindowFollows(before.primary, Entry(given, "primary"));
      WindowFollows(before.secondary, Entry(given, "secondary"));
    }
    if ReadLimits(update).Some? {
      var given := PreferredLimits(update).value;
      WindowFollows(None, Entry(given, "primary"));
      WindowFollows(None, Entry(given, "secondary"));
    }
  }

  // ---------------------------------------------------------------- windows that are published

  const FIVE_HOURS: nat := 300

  const ONE_WEEK: nat := 10080

  /** A percentage, moved to the nearest one from 0 to 100. */
  predicate IsCut(used: real, raw: real) {
    && 0.0 <= used <= 100.0
    && (raw <= 0.0 ==> used == 0.0) && (raw >= 100.0 ==> used == 100.0) && (0.0 <= raw <= 100.0 ==> used == raw)
  }

  /** A value tells of the window at `i`: the first stored one of this length. */
  predicate TellsOf(v: QuotaValue, windows: seq<Window>, minutes: nat, i: nat) {
    && i < |windows| && windows[i].minutes == minutes && (forall k :: 0 <= k < i ==> windows[k].minutes != minutes)
    && v.windowMinutes == Some(minutes) && v.resetsAt == windows[i].resetsAt
    && IsCut(v.usedPercent, windows[i].usedPercent) && v.usedPercent + v.remainingPercent == 100.0
  }

  /** A published value tells of the first window of its length, and is missing exactly if none has it. */
  ghost predicate TellsOfFirst(published: Option<QuotaValue>, windows: seq<Window>, minutes: nat) {
    if published.Some? then exists i :: TellsOf(published.value, windows, minutes, i)
    else forall k :: 0 <= k < |windows| ==> windows[k].minutes != minutes
  }

  lemma WindowTells(limits: RateLimitsState, minutes: nat)
    ensures TellsOfFirst(WindowOf(limits, minutes), Stored(limits), minutes)
  {
    var windows, v := Stored(limits), WindowOf(limits, minutes);
    if v.Some? {
      if windows[0].minutes == minutes { assert TellsOf(v.value, windows, minutes, 0); }
      else { assert TellsOf(v.value, windows, minutes, 1); }
    }
  }

  /** Of every update of every session: the five-hour value tells of the first stored window of 300 minutes,
      the weekly one of the first of 10080. */
  lemma QuotaIsPublished(s: SessionState, event: Event)
    ensures var u, windows := Published(s, event), Stored(After(s, event).server.limits);
      && TellsOfFirst(u.limits.fiveHour, windows, FIVE_HOURS) && TellsOfFirst(u.limits.weekly, windows, ONE_WEEK)
      && u.limits.revision == After(s, event).revision && u.limits.observedAt == event.when.now
  {
    var limits := After(s, event).server.limits;
    WindowTells(limits, FIVE_HOURS);
    WindowTells(limits, ONE_WEEK);
  }

  /** Of every update of every session: the token counts are those held, in their own places. */
  lemma TokensArePublished(s: SessionState, event: Event, counter: Counter)
    ensures var u, held := Published(s, event), After(s, event).server.tokens;
      && (u.tokens.Some? <==> held.Some?)
      && (held.Some? ==>
            var t := u.tokens.value;
            && t.currentThread.Some? && CountOf(t.currentThread.value, counter) == Held(held, Running(counter))
            && (t.lastTurn.Some? <==> held.value.last.Some?)
            && (t.lastTurn.Some? ==> CountOf(t.lastTurn.value, counter) == Held(held, OfLastTurn(counter)))
            && t.contextWindow == Held(held, ContextWindow)
            && t.today.None? && t.source.FromAppServer?
            && t.observedAt == if held.value.observedAt.Some? then held.value.observedAt.value else event.when.now)
  {}

  // ---------------------------------------------------------------- statuses that are published

  /** The latest of three times, or zero when there is none. */
  predicate IsLatestOf(at: int, a: Option<int>, b: Option<int>, c: Option<int>) {
    if a.None? && b.None? && c.None? then at == 0
    else
      && Some(at) in {a, b, c}
      && (a.Some? ==> a.value <= at) && (b.Some? ==> b.value <= at) && (c.Some? ==> c.value <= at)
  }

  /** Each endpoint's published status is the one its history deserves, in its own place. */
  lemma StatusesArePublished(events: seq<Event>, i: nat)
    requires i < |events|
    ensures var o, so := UpdateAt(OPENED, events, i).official, events[..i + 1];
      && o.account == Deserved(so, AccountEndpoint) && o.quota == Deserved(so, QuotaEndpoint)
      && o.usage == Deserved(so, UsageEndpoint)
      && IsLatestOf(o.observedAt, LastSuccess(so, AccountEndpoint), LastSuccess(so, QuotaEndpoint),
                    LastSuccess(so, UsageEndpoint))
  {
    var so := events[..i + 1];
    assert so[..i] == events[..i];
    TrackerAsDeserved(so);
    DeservedFreshness(so, AccountEndpoint);
    DeservedFreshness(so, QuotaEndpoint);
    DeservedFreshness(so, UsageEndpoint);
  }

  /** Whether this event makes a round of the three reads. */
  ghost predicate Rereads(event: Event) { event.Refreshed? || (IsAccountChange(event) && event.ready) }

  ghost function Successes(event: Event): nat {
    if !Rereads(event) then 0
    else
      Count(Succeeds(AccountEndpoint, event.replies.account)) + Count(Succeeds(QuotaEndpoint, event.replies.quota))
      + Count(Succeeds(UsageEndpoint, event.replies.usage))
  }

  /** Every successful read and every notification is new data. */
  ghost function NewData(events: seq<Event>): nat {
    if events == [] then 0
    else
      var last := events[|events| - 1];
      NewData(events[..|events| - 1]) + Successes(last) + Count(last.Notice?)
  }

  /** The last word on the health of the session: a round of reads that all succeeded or did not, a
      notification, trouble on the stream, or its end. */
  ghost function DeservedHealth(events: seq<Event>): Health {
    if events == [] then Starting
    else
      var last := events[|events| - 1];
      if Rereads(last) then (if Successes(last) == 3 then Healthy else Degraded)
      else if last.Notice? then Healthy
      else if last.Trouble? then Degraded
      else if last.Ended? then (if last.stopped then Stopped else Disconnected)
      else DeservedHealth(events[..|events| - 1])
  }

  /** New data is fresh; otherwise the age of the last data decides, where there is any. */
  ghost function DeservedAge(events: seq<Event>): DataAge {
    if events == [] then NoData
    else
      var last := events[|events| - 1];
      if Successes(last) > 0 || (last.Notice? && !Rereads(last)) then FreshData
      else if last.Cancelled? then DeservedAge(events[..|events| - 1])
      else if NewData(events) == 0 then NoData
      else if last.when.expired then StaleData
      else FreshData
  }

  lemma OneEventMore(s: SessionState, event: Event)
    ensures var t := After(s, event);
      && t.revision == Saturate(s.revision + Successes(event) + Count(event.Notice?))
      && t.hasData == (s.hasData || Successes(event) > 0 || event.Notice?)
  {}

  /** Over every run: the revision counts the new data, the health is the last word on it, and the age is
      that of the last data. */
  lemma {:induction false} HealthAsDeserved(events: seq<Event>)
    ensures var s := RunFrom(OPENED, events);
      && s.revision == Saturate(NewData(events)) && (s.hasData <==> NewData(events) > 0)
      && s.health == DeservedHealth(events) && s.age == DeservedAge(events)
  {
    if events != [] {
      HealthAsDeserved(events[..|events| - 1]);
      OneEventMore(RunFrom(OPENED, events[..|events| - 1]), events[|events| - 1]);
    }
  }

  // ---------------------------------------------------------------- activity

  ghost predicate TellsActivity(event: Event) {
    event.Notice? && event.notification.Topic().AboutActivity? && event.notification.activity.Some?
  }

  /** The last word about a thread since the account changed, with its time. */
  ghost function LastFrom(events: seq<Event>, thread: string): Option<ActivityRecord> {
    if events == [] || IsAccountChange(events[|events| - 1]) then None
    else
      var last := events[|events| - 1];
      if TellsActivity(last) && last.notification.activity.value.thread == Some(thread) then
        Some(ActivityRecord(last.notification.activity.value, last.notification.at))
      else LastFrom(events[..|events| - 1], thread)
  }

  /** The last word about any thread or none. */
  ghost function LastHeard(events: seq<Event>): Option<ActivityEvent> {
    if events == [] || IsAccountChange(events[|events| - 1]) then None
    else if TellsActivity(events[|events| - 1]) then events[|events| - 1].notification.activity
    else LastHeard(events[..|events| - 1])
  }

  lemma ServerAfter(s: SessionState, event: Event)
    ensures var before, after := s.server, After(s, event).server;
      && after.last == (if IsAccountChange(event) then None
                        else if TellsActivity(event) then event.notification.activity else before.last)
      && after.threads == if IsAccountChange(event) then map[]
                          else if TellsActivity(event) then
                            Heard(before.threads, event.notification.activity.value, event.notification.at)
                          else before.threads
  {}

  lemma {:induction false} ThreadsAsHeard(events: seq<Event>, thread: string)
    ensures var server := RunFrom(OPENED, events).server;
      && server.last == LastHeard(events)
      && LastFrom(events, thread) == if thread in server.threads then Some(server.threads[thread]) else None
  {
    if events != [] {
      ThreadsAsHeard(events[..|events| - 1], thread);
      ServerAfter(RunFrom(OPENED, events[..|events| - 1]), events[|events| - 1]);
    }
  }

  /** A thread matters while it is at work, and for ten seconds after it has come to rest. */
  ghost predicate Matters(events: seq<Event>, thread: string, now: int) {
    var heard := LastFrom(events, thread);
    heard.Some? && (heard.value.event.state in {Idle, Completed, Failed} ==> now <= heard.value.observedAt + 10_000)
  }

  /** The state of some thread that matters, and of none that matters more urgent. */
  ghost predicate IsMostUrgent(events: seq<Event>, now: int, state: ActivityState) {
    && (exists t :: Matters(events, t, now) && LastFrom(events, t).value.event.state == state)
    && forall t :: Matters(events, t, now) ==> Priority(LastFrom(events, t).value.event.state) <= Priority(state)
  }

  lemma CountedIsMatter(events: seq<Event>, now: int, thread: string)
    ensures var threads := RunFrom(OPENED, events).server.threads;
      && (Matters(events, thread, now) <==> thread in threads && StillCounts(threads[thread], now))
      && (Matters(events, thread, now) ==> LastFrom(events, thread).value.event.state in CountedStates(threads, now))
  {
    ThreadsAsHeard(events, thread);
  }

  lemma StatesOfThoseThatMatter(events: seq<Event>, now: int)
    ensures var states := CountedStates(RunFrom(OPENED, events).server.threads, now);
      && (forall t :: Matters(events, t, now) ==> LastFrom(events, t).value.event.state in states)
      && forall state :: state in states ==>
           exists t :: Matters(events, t, now) && LastFrom(events, t).value.event.state == state
  {
    var threads := RunFrom(OPENED, events).server.threads;
    forall t | Matters(events, t, now)
      ensures LastFrom(events, t).value.event.state in CountedStates(threads, now)
    {
      CountedIsMatter(events, now, t);
    }
    forall state | state in CountedStates(threads, now)
      ensures exists t :: Matters(events, t, now) && LastFrom(events, t).value.event.state == state
    {
      var t :| t in threads && StillCounts(threads[t], now) && threads[t].event.state == state;
      CountedIsMatter(events, now, t);
      ThreadsAsHeard(events, t);
      assert Matters(events, t, now);
    }
  }

  /** Every update shows the most urgent of the threads that matter; without any, the last word. */
  lemma ActivityIsPublished(events: seq<Event>)
    requires events != []
    ensures var now := events[|events| - 1].when.now;
      var shown := UpdateAt(OPENED, events, |events| - 1).activity;
      if exists t :: Matters(events, t, now) then shown.Some? && IsMostUrgent(events, now, shown.value)
      else shown == if LastHeard(events).Some? then Some(LastHeard(events).value.state) else None
  {
    var now, server := events[|events| - 1].when.now, RunFrom(OPENED, events).server;
    assert UpdateAt(OPENED, events, |events| - 1).activity
      == AggregatedActivity(server.last, server.threads, now);
    StatesOfThoseThatMatter(events, now);
    ThreadsAsHeard(events, "");
  }

  // ---------------------------------------------------------------- details that are published

  /** Each detail is read from its own place, where it has the right kind. */
  lemma DetailsAreRead(v: ServerView, name: string, value: Value)
    requires name in v.limits.raw && v.limits.raw[name] == value
    ensures var d := DetailsOf(v);
      && (name == "limitName" && value.Text? && !IsBlank(value.text) ==> d.rateLimitName == Some(value.text))
      && (name == "rateLimitReachedType" && value.Text? && !IsBlank(value.text) ==>
            d.rateLimitReachedType == Some(value.text))
      && (name == "spendControlReached" && value.Bool? ==> d.spendControlReached == Some(value.bit))
      && (name == "individualLimit" && value.Object? ==> d.individualLimit == Some(value))
      && (name == "credits" && IsCredits(value) ==> d.credits == Some(value))
      && d.accountUsage == v.usage
      && (v.account != NO_ACCOUNT ==> d.account == Some(v.account))
  {}

  // ---------------------------------------------------------------- what the taskbar shows

  /** Update `i` published this value, live, as the five-hour or the weekly one. */
  ghost predicate PublishedAt(events: seq<Event>, i: nat, value: Option<QuotaValue>, weekly: bool) {
    && i < |events|
    && var u := UpdateAt(OPENED, events, i);
    && u.official.quota.freshness.Live? && value == if weekly then u.limits.weekly else u.limits.fiveHour
  }

  function WindowShown(p: Picture, weekly: bool): QuotaWindow { if weekly then p.weekly else p.fiveHour }

  /** A local step makes no quota visible and changes none that is. */
  lemma LocalShowsNothing(p: Picture, step: LocalStep, weekly: bool)
    requires IsTaskbarVisible(WindowShown(Taken(p, step), weekly))
    ensures IsTaskbarVisible(WindowShown(p, weekly))
    ensures WindowShown(Taken(p, step), weekly).value == WindowShown(p, weekly).value
  {}

  /** An update shows its own live quota, or leaves what was shown. */
  lemma UpdateShows(p: Picture, u: SessionUpdate, at: int, now: int, weekly: bool)
    requires IsTaskbarVisible(WindowShown(TakenAll(p, StepsOf(u, at, now)), weekly))
    ensures var value := WindowShown(TakenAll(p, StepsOf(u, at, now)), weekly).value;
      || (u.official.quota.freshness.Live? && value == if weekly then u.limits.weekly else u.limits.fiveHour)
      || (IsTaskbarVisible(WindowShown(p, weekly)) && value == WindowShown(p, weekly).value)
  {
    UpdateInOne(p, u, at, now);
  }

  /** Whatever the monitor has received and in whatever order local steps came between: a quota on the taskbar
      was published, live and in that place, by one of the updates received. */
  lemma {:induction false} TaskbarShowsPublished(events: seq<Event>, inputs: seq<Input>, weekly: bool) returns (i: nat)
    requires ReceivedIn(inputs) <= |events| && IsTaskbarVisible(WindowShown(Fed(events, inputs), weekly))
    ensures i < ReceivedIn(inputs) && PublishedAt(events, i, WindowShown(Fed(events, inputs), weekly).value, weekly)
  {
    var init, last := inputs[..|inputs| - 1], inputs[|inputs| - 1];
    var p, k := Fed(events, init), ReceivedIn(init);
    match last
    case Local(step) =>
      LocalShowsNothing(p, step, weekly);
      i := TaskbarShowsPublished(events, init, weekly);
    case Received(at, now) =>
      UpdateShows(p, UpdateAt(OPENED, events, k), at, now, weekly);
      if PublishedAt(events, k, WindowShown(Fed(events, inputs), weekly).value, weekly) { i := k; }
      else { i := TaskbarShowsPublished(events, init, weekly); }
  }

  /** So it tells of the first window of its length that the session stored when it published that update:
      300 minutes in the five-hour place, 10080 in the weekly one. */
  lemma TaskbarTellsTruth(events: seq<Event>, inputs: seq<Input>, weekly: bool) returns (i: nat)
    requires ReceivedIn(inputs) <= |events| && IsTaskbarVisible(WindowShown(Fed(events, inputs), weekly))
    ensures i < ReceivedIn(inputs)
    ensures TellsOfFirst(WindowShown(Fed(events, inputs), weekly).value,
                         Stored(RunFrom(OPENED, events[..i + 1]).server.limits),
                         if weekly then ONE_WEEK else FIVE_HOURS)
  {
    i := TaskbarShowsPublished(events, inputs, weekly);
    QuotaIsPublished(RunFrom(OPENED, events[..i]), events[i]);
    assert events[..i + 1][..i] == events[..i];
  }
}
