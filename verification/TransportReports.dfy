/** What the caller of the transport gets to see: every response that finds its request arrives, and
    every event is reported as it occurs.
 */
module TransportReports {
  import opened Common
  import opened Transport
  import opened ReplyDesk
  import opened TransportSafety
  import opened TransportLogs
  import opened TransportTheorems
  import opened TransportOrigins

  // ---------------------------------------------------------------- every response arrives

  function ReplyOf(id: nat, success: bool): Reply { if success then Ok(id) else Err(Rpc) }

  ghost predicate IsOnItsWay(s: State, w: Waiter, id: nat, reply: Reply) {
    reply in Got(s, w) || s.reader == Delivering(w, id, reply)
  }

  ghost predicate OnlyGrows(before: Table<seq<Reply>>, after: Table<seq<Reply>>) {
    forall w, reply :: reply in Lookup(before, w) ==> reply in Lookup(after, w)
  }

  lemma GivingGrows(answers: Table<seq<Reply>>, w: Waiter, reply: Reply)
    ensures OnlyGrows(answers, Give(answers, w, reply))
  {}

  lemma GivingAllGrows(answers: Table<seq<Reply>>, waiters: set<Waiter>, reply: Reply)
    ensures OnlyGrows(answers, GiveAll(answers, waiters, reply))
  {}

  lemma ReaderGrows(s: State, input: Input)
    ensures OnlyGrows(s.answers, ReaderAction(s, input).answers)
  {
    if s.reader.Delivering? { GivingGrows(s.answers, s.reader.waiter, s.reader.reply); }
  }

  lemma TimerGrows(s: State, overdue: seq<nat>)
    ensures OnlyGrows(s.answers, TimerAction(s, overdue).answers)
  {
    if s.timer.Expiring? && s.timer.entries != [] {
      GivingGrows(s.answers, s.timer.entries[0].1, Err(Timeout(s.timer.entries[0].0)));
    }
  }

  lemma TerminationGrows(s: State)
    ensures OnlyGrows(s.answers, TerminateStep(s).answers)
  {
    if s.life.Draining? { GivingAllGrows(s.answers, s.pending.entries.Values, Err(s.life.error)); }
  }

  lemma FailingGrows(s: State, id: nat, e: Error)
    ensures OnlyGrows(s.answers, FailPending(s, id, e).answers)
  {
    if s.pending.Has(id) { GivingGrows(s.answers, s.pending.At(id), Err(e)); }
  }

  lemma SupervisorGrows(s: State, a: Action)
    requires a.SupervisorMoves?
    ensures OnlyGrows(s.answers, Step(s, a).answers)
  {
    if s.supervisor.FailInitialize? { FailingGrows(s, INITIALIZE_ID, s.supervisor.error); }
    else if s.supervisor.FailOne? { FailingGrows(s, s.supervisor.id, s.supervisor.error); }
    else if s.supervisor.Hold? || s.supervisor.Drain? { RefusingGrows(s, a); }
    else { OthersGive(s, a); }
  }

  lemma RefusingGrows(s: State, a: Action)
    requires a.SupervisorMoves? && (s.supervisor.Hold? || s.supervisor.Drain?)
    ensures OnlyGrows(s.answers, Step(s, a).answers)
  {
    if s.supervisor.Hold? { GivingGrows(s.answers, s.supervisor.waiter, Err(Error.Closed)); }
    else if s.queue != [] && s.queue[0].Request? { GivingGrows(s.answers, s.queue[0].waiter, Err(Error.Closed)); }
  }

  lemma StepGrows(s: State, a: Action)
    ensures OnlyGrows(s.answers, Step(s, a).answers)
  {
    if a.ReaderMoves? { ReaderGrows(s, a.input); }
    else if a.TimerMoves? { TimerGrows(s, a.overdue); }
    else if a.TerminationMoves? { TerminationGrows(s); }
    else if a.SupervisorMoves? { SupervisorGrows(s, a); }
    else { OthersGive(s, a); }
  }

  lemma StaysOnItsWay(s: State, a: Action, w: Waiter, id: nat, reply: Reply)
    requires IsOnItsWay(s, w, id, reply)
    ensures IsOnItsWay(Step(s, a), w, id, reply)
  {
    StepGrows(s, a);
    if reply !in Got(s, w) {
      if a.ReaderMoves? { assert ReaderAction(s, a.input).answers == Give(s.answers, w, reply); }
      else { ReaderRests(s, a); }
    }
  }

  lemma ComesOnItsWay(s: State, a: Action, w: Waiter, id: nat, success: bool)
    requires Causes(s, a, Answered(id, w, success))
    ensures IsOnItsWay(Step(s, a), w, id, ReplyOf(id, success))
  {}

  lemma HappenedBefore(init: seq<Action>, last: Action, c: Cause)
    requires Happened(init + [last], c)
    ensures Happened(init, c) || Causes(Run(init), last, c)
  {
    var all := init + [last];
    var i :| 0 <= i < |all| && Causes(Run(all[..i]), all[i], c);
    assert all[..i] == if i < |init| then init[..i] else init;
  }

  /** The other way round: whatever response finds its request filed is what that waiter gets, or is
      in the reader's hand on the way to it. */
  lemma {:induction false} ResponsesArrive(actions: seq<Action>, id: nat, w: Waiter, success: bool)
    requires Happened(actions, Answered(id, w, success))
    ensures IsOnItsWay(Run(actions), w, id, ReplyOf(id, success))
  {
    var init, last := actions[..|actions| - 1], actions[|actions| - 1];
    assert actions == init + [last];
    HappenedBefore(init, last, Answered(id, w, success));
    if Happened(init, Answered(id, w, success)) {
      ResponsesArrive(init, id, w, success);
      StaysOnItsWay(Run(init), last, w, id, ReplyOf(id, success));
    } else {
      ComesOnItsWay(Run(init), last, w, id, success);
    }
  }

  // ---------------------------------------------------------------- events

  /** What the events about the life of the transport go back to. */
  ghost predicate EventFrom(known: iset<Cause>, e: Event) {
    match e
    case Ready => Answered(INITIALIZE_ID, INITIALIZE, true) in known
    case StartupFailed(error) => ErrorFrom(known, error)
    case ClosedEvent => CloseAsked in known
    case EofEvent => StreamEnded in known
    case IoErrorEvent => ReadFailed in known || WriteFailed in known
    case _ => true
  }

  ghost predicate EventsFrom(known: iset<Cause>, events: seq<Event>) { forall e :: e in events ==> EventFrom(known, e) }

  /** What the events about single frames should be, read off one action. */
  function Reported(s: State, a: Action): seq<Event> {
    if Reads(s, a, Notice) then [Notification]
    else if a.ReaderMoves? && s.reader.ReadingFrames? && a.input.Garbled? then [ProtocolError(a.input.error)]
    else if a.ReaderMoves? && s.reader.ReadingFrames? && a.input.Response? && !s.pending.Has(a.input.id) then
      [UnexpectedResponse(a.input.id)]
    else if a.SupervisorMoves? && s.supervisor.FailOne? && !s.supervisor.fatal then [ProtocolError(LineTooLong)]
    else []
  }

  function AllReported(actions: seq<Action>): seq<Event> {
    if actions == [] then []
    else
      var init, last := actions[..|actions| - 1], actions[|actions| - 1];
      AllReported(init) + Reported(Run(init), last)
  }

  predicate IsReport(e: Event) { e.Notification? || e.UnexpectedResponse? || e.ProtocolError? }

  function Reports(events: seq<Event>): seq<Event> {
    if events == [] then []
    else
      var last := events[|events| - 1];
      Reports(events[..|events| - 1]) + if IsReport(last) then [last] else []
  }

  /** One step adds these reports and at most one other event, which has an origin. */
  ghost predicate Says(s: State, a: Action, t: State, known: iset<Cause>) {
    t.events == s.events + Reported(s, a)
    || (Reported(s, a) == [] && exists e :: t.events == s.events + [e] && !IsReport(e) && EventFrom(known, e))
  }

  lemma SayingKeeps(s: State, a: Action, t: State, before: iset<Cause>, after: iset<Cause>)
    requires Says(s, a, t, after) && before <= after && EventsFrom(before, s.events)
    ensures EventsFrom(after, t.events) && Reports(t.events) == Reports(s.events) + Reported(s, a)
  {
    forall e | e in s.events ensures EventFrom(after, e) { EventStays(before, after, e); }
    if t.events != s.events {
      assert |t.events| == |s.events| + 1 && t.events[..|s.events|] == s.events;
    }
  }

  lemma EventStays(before: iset<Cause>, after: iset<Cause>, e: Event)
    requires before <= after && EventFrom(before, e)
    ensures EventFrom(after, e)
  {
    if e.StartupFailed? { ReplyStays(before, after, INITIALIZE, Err(e.error)); }
  }

  lemma ReaderSays(s: State, a: Action, before: iset<Cause>, after: iset<Cause>)
    requires a.ReaderMoves? && ReaderFrom(before, s.reader) && before <= after
    ensures Says(s, a, ReaderAction(s, a.input), after)
  {
    if s.reader.ReaderWinning? && s.life.Dead? {
      var e := if s.reader.error == Eof then EofEvent else IoErrorEvent;
      assert ReaderAction(s, a.input).events == s.events + [e] && EventFrom(after, e);
    }
  }

  lemma WriterSays(s: State, a: Action, before: iset<Cause>, after: iset<Cause>)
    requires a.WriterMoves? && (WriteFailing(s.writer) ==> WriteFailed in before) && before <= after
    ensures Says(s, a, WriterAction(s, a.fails), after)
  {
    if s.writer.WriterWinning? && s.life.Dead? { assert EventFrom(after, IoErrorEvent); }
  }

  lemma CloserSays(s: State, a: Action, before: iset<Cause>, after: iset<Cause>)
    requires a.CloserMoves? && Learns(s, a, before, after)
    ensures Says(s, a, CloserAction(s, a.c), after)
  {
    assert Causes(s, a, CloseAsked);
    assert EventFrom(after, ClosedEvent);
  }

  lemma StartSays(s: State, a: Action, known: iset<Cause>)
    requires a.SupervisorMoves? && BeforeServing(s.supervisor) && SupervisorFrom(known, s.supervisor)
    requires s.supervisor.Start? ==> !s.pending.Has(INITIALIZE_ID)
    requires s.supervisor.EmitReady? ==> Answered(INITIALIZE_ID, INITIALIZE, true) in known
    ensures Says(s, a, HandshakeAction(s, a.encodeFails, a.timedOut), known)
  {
    if s.supervisor.ReportFailure? { assert EventFrom(known, StartupFailed(s.supervisor.error)); }
    if s.supervisor.EmitReady? { assert EventFrom(known, Ready); }
  }

  lemma ServingSays(s: State, a: Action, known: iset<Cause>)
    requires a.SupervisorMoves? && !BeforeServing(s.supervisor) && SupervisorFrom(known, s.supervisor)
    requires !s.supervisor.Terminating? && !IsLeaving(s.supervisor)
    requires s.supervisor.Insert? ==> !s.pending.Has(s.supervisor.id)
    ensures Says(s, a, ServeAction(s, a.encodeFails), known)
  {}

  lemma StoppingSays(s: State, a: Action, known: iset<Cause>)
    requires a.SupervisorMoves? && (s.supervisor.Terminating? || IsLeaving(s.supervisor))
    requires SupervisorFrom(known, s.supervisor)
    ensures Says(s, a, ShutdownAction(s), known)
  {
    if s.supervisor.SendClosed? { assert EventFrom(known, ClosedEvent); }
  }

  lemma SupervisorSays(s: State, a: Action, known: iset<Cause>)
    requires a.SupervisorMoves? && SupervisorFrom(known, s.supervisor)
    requires s.supervisor.Start? ==> !s.pending.Has(INITIALIZE_ID)
    requires s.supervisor.Insert? ==> !s.pending.Has(s.supervisor.id)
    requires s.supervisor.EmitReady? ==> Answered(INITIALIZE_ID, INITIALIZE, true) in known
    ensures Says(s, a, SupervisorAction(s, a.encodeFails, a.timedOut), known)
  {
    if BeforeServing(s.supervisor) { StartSays(s, a, known); }
    else if s.supervisor.Terminating? || IsLeaving(s.supervisor) { StoppingSays(s, a, known); }
    else { ServingSays(s, a, known); }
  }

  lemma OthersSay(s: State, a: Action)
    requires !a.ReaderMoves? && !a.WriterMoves? && !a.CloserMoves? && !a.SupervisorMoves?
    ensures Step(s, a).events == s.events && Reported(s, a) == []
  {}

  lemma StepSays(s: State, a: Action, before: iset<Cause>, after: iset<Cause>)
    requires Sourced(s, before) && Learns(s, a, before, after)
    requires s.supervisor.Start? ==> !s.pending.Has(INITIALIZE_ID)
    requires s.supervisor.Insert? ==> !s.pending.Has(s.supervisor.id)
    requires s.supervisor.EmitReady? ==> Answered(INITIALIZE_ID, INITIALIZE, true) in before
    ensures Says(s, a, Step(s, a), after)
  {
    if a.ReaderMoves? { ReaderSays(s, a, before, after); }
    else if a.WriterMoves? { WriterSays(s, a, before, after); }
    else if a.CloserMoves? { CloserSays(s, a, before, after); }
    else if a.SupervisorMoves? {
      SupervisorStays(before, after, s.supervisor);
      SupervisorSays(s, a, after);
    } else {
      OthersSay(s, a);
      assert s.events + [] == s.events;
    }
  }

  lemma ReadyIsKnown(actions: seq<Action>)
    requires Run(actions).supervisor.EmitReady?
    ensures Answered(INITIALIZE_ID, INITIALIZE, true) in Known(actions)
  {
    RunIsSafe(actions);
    assert LogOf(Run(actions));
    WireNeedsAnswer(actions, 1);
  }

  /** In every interleaving: notifications, unexpected responses and protocol errors are reported exactly
      as they occur, in order, none lost and none made up; and each event about the life of the transport
      goes back to what it names. */
  lemma {:induction false} EventsHaveOrigins(actions: seq<Action>)
    ensures Reports(Run(actions).events) == AllReported(actions)
    ensures EventsFrom(Known(actions), Run(actions).events)
  {
    if actions != [] {
      var init, last := actions[..|actions| - 1], actions[|actions| - 1];
      EventsHaveOrigins(init);
      assert actions == init + [last];
      OneMoreReport(init, last);
    }
  }

  lemma OneMoreReport(init: seq<Action>, last: Action)
    requires EventsFrom(Known(init), Run(init).events)
    ensures var s, t := Run(init), Run(init + [last]);
      && Reports(t.events) == Reports(s.events) + Reported(s, last)
      && EventsFrom(Known(init + [last]), t.events)
  {
    var s, before, after := Run(init), Known(init), Known(init + [last]);
    RunPushed(init, last);
    StepSaysSo(init, last);
    LearnsNext(init, last);
    SayingKeeps(s, last, Step(s, last), before, after);
  }

  lemma StepSaysSo(init: seq<Action>, last: Action)
    ensures var s := Run(init); Says(s, last, Step(s, last), Known(init + [last]))
  {
    RunIsSourced(init);
    LearnsNext(init, last);
    NoDuplicateIds(init);
    if Run(init).supervisor.EmitReady? { ReadyIsKnown(init); }
    StepSays(Run(init), last, Known(init), Known(init + [last]));
  }
}
