/** Which word stands for each part of the picture: who said it, and whether it was taken back since.

    The words are the steps of the run themselves; only whether a step was accepted is asked of the picture
    it met.
 */
module MonitorStanding {
  import opened Common
  import opened Usage
  import opened Activity
  import opened Monitor
  import opened MonitorTheorems

  /** The source is gone for this picture; an older notice of that is ignored. */
  predicate IsLost(p: Picture, step: Step) {
    step.Told? && step.update.AuthoritativeUnavailable? && step.update.at >= p.observedAt
  }

  predicate IsReset(step: Step) { step.Told? && step.update.Reset? }

  /** A token report that is not older than what is shown. */
  predicate IsReport(p: Picture, step: Step) {
    step.Told? && step.update.Tokens? && step.update.tokens.observedAt >= p.usage.observedAt
  }

  predicate IsLocalCount(step: Step) { step.Told? && step.update.LocalToday? }

  /** An authoritative snapshot that is not older than what is shown. */
  predicate IsAccepted(p: Picture, step: Step) {
    step.Told? && step.update.Limits? && NotOlder(p, p.(revision := step.update.snapshot.revision,
                                                        observedAt := step.update.snapshot.observedAt))
  }

  // ---------------------------------------------------------------- quota windows

  /** What was last said about a window: by the App Server, which may say that there is none, or by a
      session file. */
  datatype QuotaWord = NotTold | Authoritative(value: Option<QuotaValue>) | Fallback(found: QuotaValue)

  function Part(snapshot: RateLimits, weekly: bool): Option<QuotaValue> {
    if weekly then snapshot.weekly else snapshot.fiveHour
  }

  function PartOf(step: Step, weekly: bool): Option<QuotaValue>
    requires step.FellBack?
  {
    if weekly then step.weekly else step.fiveHour
  }

  /** An accepted snapshot always stands; a session file is heard only while nothing else is; losing the limits
      takes back either. */
  function StandingQuota(steps: seq<Step>, weekly: bool): QuotaWord {
    if steps == [] then NotTold
    else
      var init, last := steps[..|steps| - 1], steps[|steps| - 1];
      var earlier := StandingQuota(init, weekly);
      if last.FellBack? then
        if earlier.NotTold? && PartOf(last, weekly).Some? then Fallback(PartOf(last, weekly).value) else earlier
      else if IsAccepted(Shown(init), last) then Authoritative(Part(last.update.snapshot, weekly))
      else if IsReset(last) || IsLost(Shown(init), last) || last.update.LimitsUnavailable? then NotTold
      else earlier
  }

  function Spoken(word: QuotaWord): Option<QuotaValue> {
    match word
    case NotTold => None
    case Authoritative(value) => value
    case Fallback(found) => Some(found)
  }

  /** The last value that stood since the account was reset. */
  function LastQuota(steps: seq<Step>, weekly: bool): Option<QuotaValue> {
    if steps == [] then None
    else if IsReset(steps[|steps| - 1]) then None
    else if Spoken(StandingQuota(steps, weekly)).Some? then Spoken(StandingQuota(steps, weekly))
    else LastQuota(steps[..|steps| - 1], weekly)
  }

  predicate ShowsQuota(w: QuotaWindow, word: QuotaWord, last: Option<QuotaValue>) {
    && w.value == Spoken(word) && w.lastKnown == last
    && (w.presence.Unknown? <==> word.NotTold?) && (w.presence.Present? <==> Spoken(word).Some?)
    && (w.freshness.Fresh? <==> word.Authoritative?)
    && w.source == if word.NotTold? then NoSource else if word.Fallback? then QuotaSource.SessionFallback
                   else QuotaSource.AppServer
  }

  function WindowIn(p: Picture, weekly: bool): QuotaWindow { if weekly then p.weekly else p.fiveHour }

  /** Over every run each window shows the word that stands for it, in every field. */
  lemma {:induction false} WindowShowsStanding(steps: seq<Step>, weekly: bool)
    ensures ShowsQuota(WindowIn(Shown(steps), weekly), StandingQuota(steps, weekly), LastQuota(steps, weekly))
  {
    if steps != [] {
      WindowShowsStanding(steps[..|steps| - 1], weekly);
      LastSpoken(steps[..|steps| - 1], weekly);
    }
  }

  lemma LastSpoken(steps: seq<Step>, weekly: bool)
    ensures Spoken(StandingQuota(steps, weekly)).Some? ==>
      LastQuota(steps, weekly) == Spoken(StandingQuota(steps, weekly))
  {}

  /** The marks by which snapshots are ordered: of the last accepted snapshot, or the time of a later loss. */
  function StandingMarks(steps: seq<Step>): (u64, int) {
    if steps == [] then (0, 0)
    else
      var init, last := steps[..|steps| - 1], steps[|steps| - 1];
      if IsAccepted(Shown(init), last) then (last.update.snapshot.revision, last.update.snapshot.observedAt)
      else if IsLost(Shown(init), last) then (StandingMarks(init).0, last.update.at)
      else StandingMarks(init)
  }

  lemma {:induction false} MarksStand(steps: seq<Step>)
    ensures (Shown(steps).revision, Shown(steps).observedAt) == StandingMarks(steps)
  {
    if steps != [] { MarksStand(steps[..|steps| - 1]); }
  }

  // ---------------------------------------------------------------- token usage

  /** The last accepted report, unless the source was lost since. */
  function StandingReport(steps: seq<Step>): Option<TokenUsageSnapshot> {
    if steps == [] then None
    else
      var init, last := steps[..|steps| - 1], steps[|steps| - 1];
      if IsReport(Shown(init), last) then Some(last.update.tokens)
      else if IsReset(last) || IsLost(Shown(init), last) then None
      else StandingReport(init)
  }

  /** The last accepted report with a last turn; losing the source revokes it unless it was read from a
      session log. */
  function StandingTurn(steps: seq<Step>): Option<TokenUsageSnapshot> {
    if steps == [] then None
    else
      var init, last := steps[..|steps| - 1], steps[|steps| - 1];
      var earlier := StandingTurn(init);
      if IsReport(Shown(init), last) && last.update.tokens.lastTurn.Some? then Some(last.update.tokens)
      else if IsReset(last) then None
      else if IsLost(Shown(init), last) && earlier.Some? && !earlier.value.source.FromSessionLog? then None
      else earlier
  }

  /** The last accepted report with a current thread since the account was reset. */
  function LastThread(steps: seq<Step>): Option<TokenCounts> {
    if steps == [] then None
    else
      var init, last := steps[..|steps| - 1], steps[|steps| - 1];
      if IsReport(Shown(init), last) && last.update.tokens.currentThread.Some? then last.update.tokens.currentThread
      else if IsReset(last) then None
      else LastThread(init)
  }

  /** What was last said about today: by a report, or by counting locally. */
  datatype DayWord = NoWord | Reported(counts: Option<TokenCounts>, source: UsageSource)
    | CountedHere(counts: Option<TokenCounts>)
  {
    function Counts(): Option<TokenCounts> { if NoWord? then None else counts }

    function Source(): UsageSource {
      if NoWord? then NoUsage else if Reported? then source else FromSqlite
    }
  }

  /** A local count yields to the day of the App Server while a report stands. A report without a day leaves
      a count from the database standing. Losing the source revokes what neither the database nor a session
      log has told. */
  function StandingDay(steps: seq<Step>): DayWord {
    if steps == [] then NoWord
    else
      var init, last := steps[..|steps| - 1], steps[|steps| - 1];
      var earlier, report := StandingDay(init), StandingReport(init);
      if IsLocalCount(last) then
        if earlier.Reported? && earlier.counts.Some? && earlier.source.FromAppServer?
          && report.Some? && !report.value.source.FromSqlite? && !report.value.source.NoUsage? then earlier
        else CountedHere(last.update.counts)
      else if IsReport(Shown(init), last) then
        if last.update.tokens.today.None? && earlier.Source().FromSqlite? then earlier
        else Reported(last.update.tokens.today, last.update.tokens.source)
      else if IsReset(last) then NoWord
      else if IsLost(Shown(init), last) && (earlier.Source().FromAppServer? || earlier.Source().NoUsage?) then NoWord
      else earlier
  }

  predicate ShowsReport(u: TokenUsage, report: Option<TokenUsageSnapshot>) {
    && u.currentThread == (if report.Some? then report.value.currentThread else None)
    && u.contextWindow == (if report.Some? then report.value.contextWindow else None)
    && u.source == (if report.Some? then report.value.source else NoUsage)
    && u.isFresh == (report.Some? && !report.value.source.FromSqlite? && !report.value.source.NoUsage?)
  }

  predicate ShowsTurn(u: TokenUsage, turn: Option<TokenUsageSnapshot>) {
    && u.lastTurn == (if turn.Some? then turn.value.lastTurn else None)
    && u.lastTurnSource == (if turn.Some? then turn.value.source else NoUsage)
  }

  predicate ShowsDay(u: TokenUsage, day: DayWord) {
    u.today == day.Counts() && u.todaySource == day.Source() && u.todayIsPartial == day.CountedHere?
  }

  lemma {:induction false} ReportIsShown(steps: seq<Step>)
    ensures ShowsReport(Shown(steps).usage, StandingReport(steps))
    ensures Shown(steps).usage.lastKnown == LastThread(steps)
  {
    if steps != [] {
      ReportIsShown(steps[..|steps| - 1]);
      ShownIsSane(steps[..|steps| - 1]);
    }
  }

  lemma {:induction false} TurnIsShown(steps: seq<Step>)
    ensures ShowsTurn(Shown(steps).usage, StandingTurn(steps))
  {
    if steps != [] { TurnIsShown(steps[..|steps| - 1]); }
  }

  lemma {:induction false} DayIsShown(steps: seq<Step>)
    ensures ShowsDay(Shown(steps).usage, StandingDay(steps))
  {
    if steps != [] {
      DayIsShown(steps[..|steps| - 1]);
      ReportIsShown(steps[..|steps| - 1]);
    }
  }

  /** Over every run each part of the token usage shows the word that stands for it, with its source. */
  lemma UsageShowsStanding(steps: seq<Step>)
    ensures var u := Shown(steps).usage;
      && ShowsReport(u, StandingReport(steps)) && ShowsTurn(u, StandingTurn(steps))
      && ShowsDay(u, StandingDay(steps)) && u.lastKnown == LastThread(steps)
  {
    ReportIsShown(steps);
    TurnIsShown(steps);
    DayIsShown(steps);
  }

  // ---------------------------------------------------------------- activity and account details

  /** The states told last, with the time of the first telling since which their top has been the same. */
  function StandingActivity(steps: seq<Step>): (ActivityState, int) {
    if steps == [] then (UnknownActivity, 0)
    else
      var earlier, last := StandingActivity(steps[..|steps| - 1]), steps[|steps| - 1];
      if last.Told? && last.update.Activity? && Aggregate(last.update.states) != earlier.0 then
        (Aggregate(last.update.states), last.update.at)
      else earlier
  }

  /** The details told last since the account was reset, and whether the source was lost after that. */
  function StandingDetails(steps: seq<Step>): Option<(OfficialSnapshot, bool)> {
    if steps == [] then None
    else
      var init, last := steps[..|steps| - 1], steps[|steps| - 1];
      var earlier := StandingDetails(init);
      if last.Told? && last.update.Official? then Some((last.update.official, false))
      else if IsReset(last) then None
      else if IsLost(Shown(init), last) && earlier.Some? then Some((earlier.value.0, true))
      else earlier
  }

  /** An endpoint of details after the source was lost: what had succeeded is kept as old. */
  predicate IsAged(now: EndpointStatus, told: EndpointStatus) {
    if told.observedAt.Some? then now.freshness.Cached? && now.observedAt == told.observedAt
    else now.freshness.Missing? && now.observedAt.None?
  }

  predicate ShowsDetails(shown: Option<OfficialSnapshot>, standing: Option<(OfficialSnapshot, bool)>) {
    && (shown.Some? <==> standing.Some?)
    && (standing.Some? ==>
          var told := standing.value.0;
          if !standing.value.1 then shown.value == told
          else
            && shown.value.details == told.details && shown.value.observedAt == told.observedAt
            && IsAged(shown.value.account, told.account) && IsAged(shown.value.quota, told.quota)
            && IsAged(shown.value.usage, told.usage)
            && shown.value.freshness == if told.details.HasAny() then Cached else Missing)
  }

  /** Over every run the lamp and the details show what was told last, the details as old once the source
      is lost. */
  lemma {:induction false} RestShowsStanding(steps: seq<Step>)
    ensures var p := Shown(steps);
      && (p.activity, p.activityEnteredAt) == StandingActivity(steps)
      && ShowsDetails(p.official, StandingDetails(steps))
  {
    if steps != [] {
      RestShowsStanding(steps[..|steps| - 1]);
    }
  }
}
