/** What the ready flag vouches for, and what is left when the threads have gone. */
module TransportShutdown {
  import opened Common
  import opened Transport
  import opened ReplyDesk
  import opened TransportSafety
  import opened TransportLogs

  predicate HasLeft(p: Supervisor) { p.Discard? || p.Gone? }

  /** The command channel closes when the supervisor leaves and is empty when it is gone; the ready
      flag is set only on an accepted handshake; the writer is never ahead of what was sent. */
  ghost predicate Tidy(s: State) {
    && (s.receiverOpen <==> !HasLeft(s.supervisor))
    && (s.supervisor.Gone? ==> s.queue == [])
    && (s.ready ==> Opened(s.outbound) && Accepted(s))
    && s.written <= |s.outbound|
  }

  /** The ready flag has been cleared by the thread that ended the transport. */
  predicate IsEnding(life: Life) { life.Draining? || life.Dead? }

  /** The supervisor has stored the ready flag or never will. */
  predicate IsPastReady(p: Supervisor) {
    p.EmitReady? || p.Loop? || p.Receive? || p.Hold? || p.Insert? || p.Encode? || p.FailOne? || p.Terminating?
      || p.Winning?
    || p.EmitClosed? || p.SendClosed? || p.Drain? || p.CloseReceiver? || p.Discard? || p.Gone?
  }

  /** A step of another thread: it sets no ready flag and puts nothing into a closed channel. */
  ghost predicate Aside(s: State, t: State) {
    && t.receiverOpen == s.receiverOpen && (t.ready ==> s.ready)
    && (!s.receiverOpen ==> t.queue == s.queue)
    && (s.written <= |s.outbound| ==> t.written <= |s.outbound|)
    && (IsEnding(s.life) ==> IsEnding(t.life))
  }

  lemma AsideKeepsTidy(s: State, t: State)
    requires Tidy(s) && Bystander(s, t) && Aside(s, t)
    ensures Tidy(t)
  {}

  /** A step of the supervisor: at most one more frame, and the flag only after the handshake. */
  ghost predicate Proceeds(s: State, t: State) {
    && t.written == s.written && (t.ready ==> s.ready || s.supervisor.MarkReady?)
    && (Accepted(s) ==> Accepted(t))
    && (t.outbound == s.outbound || (|t.outbound| == |s.outbound| + 1 && t.outbound[..|s.outbound|] == s.outbound))
    && (t.receiverOpen <==> s.receiverOpen && !s.supervisor.CloseReceiver?)
    && (HasLeft(t.supervisor) <==> s.supervisor.CloseReceiver? || HasLeft(s.supervisor))
    && (t.supervisor.Gone? ==> t.queue == [])
    && (IsEnding(s.life) ==> IsEnding(t.life)) && (IsPastReady(s.supervisor) ==> IsPastReady(t.supervisor))
  }

  /** What was opened stays opened: the log is only appended to, and by nothing but requests. */
  lemma ProceedingKeepsTidy(s: State, t: State)
    requires Tidy(s) && LogOf(s) && LogOf(t) && Proceeds(s, t)
    ensures Tidy(t)
  {
    if t.ready {
      assert Opened(s.outbound) && Accepted(s);
      assert forall i :: 0 <= i < |s.outbound| ==> t.outbound[i] == s.outbound[i];
    }
  }

  lemma StartProceeds(s: State, encodeFails: bool, timedOut: bool)
    requires s.supervisor.Start? || s.supervisor.Register? || s.supervisor.SendInitialize?
      || s.supervisor.AwaitInitialize?
    ensures Proceeds(s, HandshakeAction(s, encodeFails, timedOut))
  {}

  lemma FailureProceeds(s: State, encodeFails: bool, timedOut: bool)
    requires s.supervisor.FailInitialize? || s.supervisor.ReportFailure?
    ensures Proceeds(s, HandshakeAction(s, encodeFails, timedOut))
  {}

  lemma ReadyProceeds(s: State, encodeFails: bool, timedOut: bool)
    requires s.supervisor.SendInitialized? || s.supervisor.MarkReady? || s.supervisor.EmitReady?
    ensures Proceeds(s, HandshakeAction(s, encodeFails, timedOut))
  {}

  lemma ReceiveProceeds(s: State, encodeFails: bool)
    requires s.supervisor.Loop? || s.supervisor.Receive? || s.supervisor.Hold?
    ensures Proceeds(s, ServeAction(s, encodeFails))
  {}

  lemma FileProceeds(s: State, encodeFails: bool)
    requires s.supervisor.Insert? || s.supervisor.Encode? || s.supervisor.FailOne?
    ensures Proceeds(s, ServeAction(s, encodeFails))
  {}

  lemma EndProceeds(s: State)
    requires s.supervisor.Terminating? || s.supervisor.Winning?
    ensures Proceeds(s, ShutdownAction(s))
  {}

  lemma CloseProceeds(s: State)
    requires s.supervisor.EmitClosed? || s.supervisor.SendClosed?
    ensures Proceeds(s, ShutdownAction(s))
  {}

  lemma DrainProceeds(s: State)
    requires s.supervisor.Drain? || s.supervisor.CloseReceiver?
    ensures Proceeds(s, ShutdownAction(s))
  {}

  lemma DiscardProceeds(s: State)
    requires s.supervisor.Discard? || (s.supervisor.Gone? && s.queue == [])
    ensures Proceeds(s, ShutdownAction(s))
  {}

  lemma SupervisorProceeds(s: State, encodeFails: bool, timedOut: bool)
    requires Tidy(s)
    ensures Proceeds(s, SupervisorAction(s, encodeFails, timedOut))
  {
    match s.supervisor
    case Start | Register | SendInitialize | AwaitInitialize => StartProceeds(s, encodeFails, timedOut);
    case FailInitialize(_, _) | ReportFailure(_, _) => FailureProceeds(s, encodeFails, timedOut);
    case SendInitialized | MarkReady | EmitReady => ReadyProceeds(s, encodeFails, timedOut);
    case Loop | Receive | Hold(_, _) => ReceiveProceeds(s, encodeFails);
    case Insert(_, _) | Encode(_, _) | FailOne(_, _, _) => FileProceeds(s, encodeFails);
    case Drain | CloseReceiver => DrainProceeds(s);
    case Discard | Gone => DiscardProceeds(s);
    case Terminating(_, _) | Winning(_) => EndProceeds(s);
    case EmitClosed | SendClosed => CloseProceeds(s);
  }

  lemma ReadingAside(s: State, input: Input)
    requires s.reader.ReadingFrames?
    ensures Bystander(s, ReaderAction(s, input)) && Aside(s, ReaderAction(s, input))
  {
    ReadingStandsBy(s, input);
  }

  lemma DeliveringAside(s: State, input: Input)
    requires s.reader.Delivering?
    ensures Bystander(s, ReaderAction(s, input)) && Aside(s, ReaderAction(s, input))
  {
    DeliveringStandsBy(s, input);
  }

  lemma ReaderAside(s: State, input: Input)
    ensures Bystander(s, ReaderAction(s, input)) && Aside(s, ReaderAction(s, input))
  {
    if s.reader.ReadingFrames? { ReadingAside(s, input); }
    else if s.reader.Delivering? { DeliveringAside(s, input); }
    else { ReaderStandsBy(s, input); }
  }

  lemma ClientAside(s: State, w: Waiter, step: ClientStep)
    ensures Aside(s, ClientAction(s, w, step))
  {}

  lemma CloserAside(s: State, c: nat)
    ensures Aside(s, CloserAction(s, c))
  {}

  lemma DropAside(s: State)
    ensures Aside(s, DropHandle(s))
  {}

  lemma WriterAside(s: State, fails: bool)
    ensures Aside(s, WriterAction(s, fails))
  {}

  lemma TimerAside(s: State, overdue: seq<nat>)
    ensures Aside(s, TimerAction(s, overdue))
  {}

  lemma TerminationAside(s: State)
    ensures Aside(s, TerminateStep(s))
  {}

  lemma StepKeepsTidy(s: State, action: Action)
    requires Tidy(s) && LogOf(s)
    ensures Tidy(Step(s, action))
  {
    var t := Step(s, action);
    StepKeepsLog(s, action);
    match action
    case SupervisorMoves(e, o) => SupervisorProceeds(s, e, o); ProceedingKeepsTidy(s, t);
    case ReaderMoves(input) => ReaderAside(s, input); AsideKeepsTidy(s, t);
    case ClientMoves(w, step) => ClientStandsBy(s, w, step); ClientAside(s, w, step); AsideKeepsTidy(s, t);
    case CloserMoves(c) => CloserStandsBy(s, c); CloserAside(s, c); AsideKeepsTidy(s, t);
    case HandleDrops => DropStandsBy(s); DropAside(s); AsideKeepsTidy(s, t);
    case WriterMoves(fails) => WriterStandsBy(s, fails); WriterAside(s, fails); AsideKeepsTidy(s, t);
    case TimerMoves(overdue) => TimerStandsBy(s, overdue); TimerAside(s, overdue); AsideKeepsTidy(s, t);
    case TerminationMoves => TerminationStandsBy(s); TerminationAside(s); AsideKeepsTidy(s, t);
  }

  // ---------------------------------------------------------------- before the handshake

  predicate IsEarly(p: Supervisor) { p.Start? || p.Register? }

  /** Before the handshake is registered nothing can end the transport; after it the reader may run
      and the timeouts do. */
  ghost predicate Early(s: State) {
    && (IsEarly(s.supervisor) ==>
          && s.life.Alive? && !s.registered && s.outbound == [] && s.receiverOpen && s.writer.WritingFrames?
          && (s.reader.Waiting? || s.reader.Unregistered?)
          && (forall c :: c in s.closers.entries ==>
               !s.closers.entries[c].CloserTerminating? && !s.closers.entries[c].CloserWinning?))
    && (!IsEarly(s.supervisor) ==> s.registered)
    && (!s.supervisor.Start? ==> !s.timer.NotStarted?)
  }

  /** What a thread other than the supervisor leaves alone early on. */
  ghost predicate Waits(s: State, t: State) {
    && t.supervisor == s.supervisor && t.registered == s.registered && t.outbound == s.outbound
    && t.receiverOpen == s.receiverOpen
    && (!s.timer.NotStarted? ==> !t.timer.NotStarted?)
  }

  /** A supervisor past registration never goes back and leaves the timeouts alone. */
  ghost predicate Stays(s: State, t: State) {
    t.registered == s.registered && t.timer == s.timer && !IsEarly(t.supervisor)
  }

  lemma SendStays(s: State, encodeFails: bool, timedOut: bool)
    requires s.supervisor.SendInitialize? || s.supervisor.AwaitInitialize? || s.supervisor.SendInitialized?
    ensures Stays(s, HandshakeAction(s, encodeFails, timedOut))
  {}

  lemma FailureStays(s: State, encodeFails: bool, timedOut: bool)
    requires s.supervisor.FailInitialize? || s.supervisor.ReportFailure?
    ensures Stays(s, HandshakeAction(s, encodeFails, timedOut))
  {}

  lemma ReadyStays(s: State, encodeFails: bool, timedOut: bool)
    requires s.supervisor.MarkReady? || s.supervisor.EmitReady?
    ensures Stays(s, HandshakeAction(s, encodeFails, timedOut))
  {}

  lemma ReceiveStays(s: State, encodeFails: bool)
    requires s.supervisor.Loop? || s.supervisor.Receive? || s.supervisor.Hold?
    ensures Stays(s, ServeAction(s, encodeFails))
  {}

  lemma FileStays(s: State, encodeFails: bool)
    requires s.supervisor.Insert? || s.supervisor.Encode? || s.supervisor.FailOne?
    ensures Stays(s, ServeAction(s, encodeFails))
  {}

  lemma EndStays(s: State)
    requires s.supervisor.Terminating? || s.supervisor.Winning?
    ensures Stays(s, ShutdownAction(s))
  {}

  lemma CloseStays(s: State)
    requires s.supervisor.EmitClosed? || s.supervisor.SendClosed?
    ensures Stays(s, ShutdownAction(s))
  {}

  lemma DrainStays(s: State)
    requires s.supervisor.Drain? || s.supervisor.CloseReceiver?
    ensures Stays(s, ShutdownAction(s))
  {}

  lemma DiscardStays(s: State)
    requires s.supervisor.Discard? || s.supervisor.Gone?
    ensures Stays(s, ShutdownAction(s))
  {}

  lemma SupervisorStays(s: State, encodeFails: bool, timedOut: bool)
    requires !IsEarly(s.supervisor)
    ensures Stays(s, SupervisorAction(s, encodeFails, timedOut))
  {
    match s.supervisor
    case SendInitialize | AwaitInitialize | SendInitialized => SendStays(s, encodeFails, timedOut);
    case FailInitialize(_, _) | ReportFailure(_, _) => FailureStays(s, encodeFails, timedOut);
    case MarkReady | EmitReady => ReadyStays(s, encodeFails, timedOut);
    case Loop | Receive | Hold(_, _) => ReceiveStays(s, encodeFails);
    case Insert(_, _) | Encode(_, _) | FailOne(_, _, _) => FileStays(s, encodeFails);
    case Terminating(_, _) | Winning(_) => EndStays(s);
    case EmitClosed | SendClosed => CloseStays(s);
    case Drain | CloseReceiver => DrainStays(s);
    case Discard | Gone => DiscardStays(s);
  }

  lemma SupervisorKeepsEarly(s: State, encodeFails: bool, timedOut: bool)
    requires Early(s) && (s.supervisor.Start? ==> !s.pending.Has(INITIALIZE_ID))
    ensures Early(SupervisorAction(s, encodeFails, timedOut))
  {
    var t := SupervisorAction(s, encodeFails, timedOut);
    if s.supervisor.Start? { assert t.supervisor == Register; }
    else if s.supervisor.Register? { assert t.supervisor == SendInitialize; }
    else { SupervisorStays(s, encodeFails, timedOut); }
  }

  lemma ReaderKeepsEarly(s: State, input: Input)
    requires Early(s)
    ensures Early(ReaderAction(s, input))
  {
    var t := ReaderAction(s, input);
    assert Waits(s, t) && t.closers == s.closers && t.writer == s.writer;
  }

  lemma WriterKeepsEarly(s: State, fails: bool)
    requires Early(s)
    ensures Early(WriterAction(s, fails))
  {
    var t := WriterAction(s, fails);
    assert Waits(s, t) && t.closers == s.closers && t.reader == s.reader;
  }

  lemma CloserKeepsEarly(s: State, c: nat)
    requires Early(s)
    ensures Early(CloserAction(s, c))
  {
    var t := CloserAction(s, c);
    assert Waits(s, t) && t.writer == s.writer && t.reader == s.reader;
    assert t.closers == s.closers || t.closers == s.closers.Put(c, t.closers.At(c));
  }

  lemma TimerKeepsEarly(s: State, overdue: seq<nat>)
    requires Early(s)
    ensures Early(TimerAction(s, overdue))
  {
    var t := TimerAction(s, overdue);
    assert Waits(s, t) && t.closers == s.closers && t.writer == s.writer && t.reader == s.reader && t.life == s.life;
  }

  lemma ClientKeepsEarly(s: State, w: Waiter, step: ClientStep)
    requires Early(s)
    ensures Early(ClientAction(s, w, step)) && Early(DropHandle(s))
  {
    var t := ClientAction(s, w, step);
    assert Waits(s, t) && t.closers == s.closers && t.writer == s.writer && t.reader == s.reader && t.life == s.life;
  }

  lemma TerminationKeepsEarly(s: State)
    requires Early(s)
    ensures Early(TerminateStep(s))
  {
    var t := TerminateStep(s);
    assert Waits(s, t) && t.closers == s.closers && t.writer == s.writer && t.reader == s.reader;
  }

  lemma StepKeepsEarly(s: State, action: Action)
    requires Early(s) && Refines(s)
    ensures Early(Step(s, action))
  {
    match action
    case SupervisorMoves(e, o) =>
      if s.supervisor.Start? { StartIsClear(s); }
      SupervisorKeepsEarly(s, e, o);
    case ReaderMoves(input) => ReaderKeepsEarly(s, input);
    case ClientMoves(w, step) => ClientKeepsEarly(s, w, step);
    case CloserMoves(c) => CloserKeepsEarly(s, c);
    case HandleDrops => ClientKeepsEarly(s, INITIALIZE, Load);
    case WriterMoves(fails) => WriterKeepsEarly(s, fails);
    case TimerMoves(overdue) => TimerKeepsEarly(s, overdue);
    case TerminationMoves => TerminationKeepsEarly(s);
  }

  /** When the supervisor starts, the handshake's id is free. */
  lemma StartIsClear(s: State)
    requires Refines(s) && s.supervisor.Start?
    ensures !s.pending.Has(INITIALIZE_ID)
  {
    assert PendingFiled(DeskOf(s).ids, s.pending);
  }

  // ---------------------------------------------------------------- not ready any more

  /** The transport is ending, not ready, and the supervisor will not store the flag again. */
  predicate IsOver(s: State) { IsEnding(s.life) && !s.ready && IsPastReady(s.supervisor) }

  lemma StepKeepsOver(s: State, action: Action)
    requires IsOver(s) && Tidy(s)
    ensures IsOver(Step(s, action))
  {
    match action
    case SupervisorMoves(e, o) => SupervisorProceeds(s, e, o);
    case ReaderMoves(input) => ReaderAside(s, input);
    case ClientMoves(w, step) => ClientStandsBy(s, w, step); ClientAside(s, w, step);
    case CloserMoves(c) => CloserStandsBy(s, c); CloserAside(s, c);
    case HandleDrops => DropStandsBy(s); DropAside(s);
    case WriterMoves(fails) => WriterStandsBy(s, fails); WriterAside(s, fails);
    case TimerMoves(overdue) => TimerStandsBy(s, overdue); TimerAside(s, overdue);
    case TerminationMoves => TerminationStandsBy(s); TerminationAside(s);
  }

  /** The winner of the swap clears the flag before it touches the pending map. */
  lemma TerminationClearsReady(s: State)
    requires s.life.Clearing? && IsPastReady(s.supervisor)
    ensures IsOver(Step(s, TerminationMoves))
  {}
}
