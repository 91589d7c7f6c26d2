/** What every interleaving writes: the frames on the wire and the events reported. */
module TransportLogs {
  import opened Common
  import opened Transport
  import opened ReplyDesk

  // ---------------------------------------------------------------- counting events

  datatype Kind = IsReady | IsFailure | IsClosed | IsEnd | IsOther

  function KindOf(event: Event): Kind {
    match event
    case Ready => IsReady
    case StartupFailed(_) => IsFailure
    case ClosedEvent => IsClosed
    case EofEvent | IoErrorEvent => IsEnd
    case _ => IsOther
  }

  function Tally(events: seq<Event>, kind: Kind): nat {
    if events == [] then 0
    else Tally(events[..|events| - 1], kind) + B(KindOf(events[|events| - 1]) == kind)
  }

  lemma TallyPushed(events: seq<Event>, event: Event)
    ensures forall kind :: Tally(events + [event], kind) == Tally(events, kind) + B(KindOf(event) == kind)
  {
    assert (events + [event])[..|events|] == events;
  }

  /** At most one event was appended, and not one of this kind. */
  predicate Spares(before: seq<Event>, after: seq<Event>, kind: Kind) {
    after == before
    || (|after| == |before| + 1 && after == before + [after[|before|]] && KindOf(after[|before|]) != kind)
  }

  lemma SparedTally(before: seq<Event>, after: seq<Event>, kind: Kind)
    requires Spares(before, after, kind)
    ensures Tally(after, kind) == Tally(before, kind)
  {
    if after != before { TallyPushed(before, after[|before|]); }
  }

  // ---------------------------------------------------------------- the wire and the start-up verdict

  /** The handshake came first and everything after it is a request frame. */
  ghost predicate Opened(outbound: seq<Message>) {
    && |outbound| >= 2 && outbound[0] == Initialize && outbound[1] == Initialized
    && forall i :: 2 <= i < |outbound| ==> outbound[i].RequestFrame?
  }

  ghost predicate Wire(outbound: seq<Message>, accepted: bool) {
    outbound == [] || outbound == [Initialize] || (Opened(outbound) && accepted)
  }

  /** Whether the server answered `initialize` with a result. */
  predicate Accepted(s: State) { Got(s, INITIALIZE) != [] && Got(s, INITIALIZE)[0].Ok? }

  ghost predicate Log(p: Supervisor, outbound: seq<Message>, accepted: bool, ready: nat, failed: nat) {
    match p
    case Start | Register | SendInitialize => outbound == [] && ready == failed == 0
    case AwaitInitialize => outbound == [Initialize] && ready == failed == 0
    case FailInitialize(_, _) | ReportFailure(_, _) =>
      (outbound == [] || outbound == [Initialize]) && ready == failed == 0
    case SendInitialized => outbound == [Initialize] && accepted && ready == failed == 0
    case MarkReady | EmitReady => Opened(outbound) && accepted && ready == failed == 0
    case Loop | Receive | Hold(_, _) | Insert(_, _) | Encode(_, _) | FailOne(_, _, _) =>
      Opened(outbound) && accepted && ready == 1 && failed == 0
    case _ => Wire(outbound, accepted) && ready + failed <= 1
  }

  ghost predicate LogOf(s: State) {
    Log(s.supervisor, s.outbound, Accepted(s), Tally(s.events, IsReady), Tally(s.events, IsFailure))
  }

  /** A thread other than the supervisor leaves the start-up verdict alone. */
  ghost predicate Bystander(s: State, t: State) {
    && t.supervisor == s.supervisor && t.outbound == s.outbound
    && (Accepted(s) ==> Accepted(t))
    && Spares(s.events, t.events, IsReady) && Spares(s.events, t.events, IsFailure)
  }

  lemma BystanderKeepsLog(s: State, t: State)
    requires LogOf(s) && Bystander(s, t)
    ensures LogOf(t)
  {
    SparedTally(s.events, t.events, IsReady);
    SparedTally(s.events, t.events, IsFailure);
  }

  lemma HandshakeKeepsLog(s: State, encodeFails: bool, timedOut: bool)
    requires LogOf(s)
    requires s.supervisor.Start? || s.supervisor.Register? || s.supervisor.SendInitialize?
      || s.supervisor.AwaitInitialize?
    ensures LogOf(HandshakeAction(s, encodeFails, timedOut))
  {
    TallyPushed(s.events, StartupFailed(DuplicateId));
  }

  lemma FailureKeepsLog(s: State, encodeFails: bool, timedOut: bool)
    requires LogOf(s) && (s.supervisor.FailInitialize? || s.supervisor.ReportFailure?)
    ensures LogOf(HandshakeAction(s, encodeFails, timedOut))
  {
    if s.supervisor.ReportFailure? { TallyPushed(s.events, StartupFailed(s.supervisor.error)); }
  }

  lemma ReadyKeepsLog(s: State, encodeFails: bool, timedOut: bool)
    requires LogOf(s) && (s.supervisor.SendInitialized? || s.supervisor.MarkReady? || s.supervisor.EmitReady?)
    ensures LogOf(HandshakeAction(s, encodeFails, timedOut))
  {
    TallyPushed(s.events, Ready);
  }

  lemma ReceiveKeepsLog(s: State, encodeFails: bool)
    requires LogOf(s) && (s.supervisor.Loop? || s.supervisor.Receive? || s.supervisor.Hold?)
    ensures LogOf(ServeAction(s, encodeFails))
  {}

  lemma InsertKeepsLog(s: State, encodeFails: bool)
    requires LogOf(s) && s.supervisor.Insert?
    ensures LogOf(ServeAction(s, encodeFails))
  {
    TallyPushed(s.events, ProtocolError(DuplicateId));
  }

  lemma EncodeKeepsLog(s: State, encodeFails: bool)
    requires LogOf(s) && s.supervisor.Encode?
    ensures LogOf(ServeAction(s, encodeFails))
  {}

  lemma FailOneKeepsLog(s: State, encodeFails: bool)
    requires LogOf(s) && s.supervisor.FailOne?
    ensures LogOf(ServeAction(s, encodeFails))
  {
    TallyPushed(s.events, ProtocolError(s.supervisor.error));
  }

  lemma ShutdownKeepsLog(s: State)
    requires LogOf(s) && (s.supervisor.EmitClosed? || s.supervisor.CloseReceiver? || s.supervisor.Gone?)
    ensures LogOf(ShutdownAction(s))
  {}

  lemma SendClosedKeepsLog(s: State)
    requires LogOf(s) && s.supervisor.SendClosed?
    ensures LogOf(ShutdownAction(s))
  {
    TallyPushed(s.events, ClosedEvent);
  }

  lemma EndKeepsLog(s: State)
    requires LogOf(s) && (s.supervisor.Terminating? || s.supervisor.Winning?)
    ensures LogOf(ShutdownAction(s))
  {}

  lemma DrainKeepsLog(s: State)
    requires LogOf(s) && s.supervisor.Drain?
    ensures LogOf(ShutdownAction(s))
  {}

  lemma DiscardKeepsLog(s: State)
    requires LogOf(s) && s.supervisor.Discard?
    ensures LogOf(ShutdownAction(s))
  {}

  lemma ServingKeepsLog(s: State, encodeFails: bool)
    requires LogOf(s)
    ensures LogOf(ServeAction(s, encodeFails))
  {
    match s.supervisor
    case Loop | Receive | Hold(_, _) => ReceiveKeepsLog(s, encodeFails);
    case Insert(_, _) => InsertKeepsLog(s, encodeFails);
    case Encode(_, _) => EncodeKeepsLog(s, encodeFails);
    case FailOne(_, _, _) => FailOneKeepsLog(s, encodeFails);
    case _ =>
  }

  lemma StoppingKeepsLog(s: State)
    requires LogOf(s)
    ensures LogOf(ShutdownAction(s))
  {
    match s.supervisor
    case Drain => DrainKeepsLog(s);
    case Discard => DiscardKeepsLog(s);
    case Terminating(_, _) | Winning(_) => EndKeepsLog(s);
    case SendClosed => SendClosedKeepsLog(s);
    case EmitClosed | CloseReceiver | Gone => ShutdownKeepsLog(s);
    case _ =>
  }

  lemma StartingKeepsLog(s: State, encodeFails: bool, timedOut: bool)
    requires LogOf(s)
    ensures LogOf(HandshakeAction(s, encodeFails, timedOut))
  {
    match s.supervisor
    case Start | Register | SendInitialize | AwaitInitialize => HandshakeKeepsLog(s, encodeFails, timedOut);
    case FailInitialize(_, _) | ReportFailure(_, _) => FailureKeepsLog(s, encodeFails, timedOut);
    case SendInitialized | MarkReady | EmitReady => ReadyKeepsLog(s, encodeFails, timedOut);
    case _ =>
  }

  lemma SupervisorKeepsLog(s: State, encodeFails: bool, timedOut: bool)
    requires LogOf(s)
    ensures LogOf(SupervisorAction(s, encodeFails, timedOut))
  {
    match s.supervisor
    case Loop | Receive | Hold(_, _) | Insert(_, _) | Encode(_, _) | FailOne(_, _, _) =>
      ServingKeepsLog(s, encodeFails);
    case Terminating(_, _) | Winning(_) | EmitClosed | SendClosed | Drain | CloseReceiver | Discard | Gone =>
      StoppingKeepsLog(s);
    case _ => StartingKeepsLog(s, encodeFails, timedOut);
  }

  lemma ReadingStandsBy(s: State, input: Input)
    ensures Bystander(s, ReadAction(s, input))
  {}

  lemma DeliveringStandsBy(s: State, input: Input)
    requires s.reader.Delivering?
    ensures Bystander(s, ReaderAction(s, input))
  {}

  lemma ReaderStandsBy(s: State, input: Input)
    requires !s.reader.ReadingFrames? && !s.reader.Delivering?
    ensures Bystander(s, ReaderAction(s, input))
  {}

  lemma ClientStandsBy(s: State, w: Waiter, step: ClientStep)
    ensures Bystander(s, ClientAction(s, w, step))
  {}

  lemma DropStandsBy(s: State)
    ensures Bystander(s, DropHandle(s))
  {}

  lemma CloserStandsBy(s: State, c: nat)
    ensures Bystander(s, CloserAction(s, c))
  {}

  lemma WriterStandsBy(s: State, fails: bool)
    ensures Bystander(s, WriterAction(s, fails))
  {}

  lemma TimerStandsBy(s: State, overdue: seq<nat>)
    ensures Bystander(s, TimerAction(s, overdue))
  {}

  lemma TerminationStandsBy(s: State)
    ensures Bystander(s, TerminateStep(s))
  {}

  lemma StepKeepsLog(s: State, action: Action)
    requires LogOf(s)
    ensures LogOf(Step(s, action))
  {
    var t := Step(s, action);
    match action
    case SupervisorMoves(e, o) => SupervisorKeepsLog(s, e, o);
    case ReaderMoves(input) =>
      if s.reader.ReadingFrames? { ReadingStandsBy(s, input); }
      else if s.reader.Delivering? { DeliveringStandsBy(s, input); }
      else { ReaderStandsBy(s, input); }
      BystanderKeepsLog(s, t);
    case ClientMoves(w, step) => ClientStandsBy(s, w, step); BystanderKeepsLog(s, t);
    case CloserMoves(c) => CloserStandsBy(s, c); BystanderKeepsLog(s, t);
    case HandleDrops => DropStandsBy(s); BystanderKeepsLog(s, t);
    case WriterMoves(fails) => WriterStandsBy(s, fails); BystanderKeepsLog(s, t);
    case TimerMoves(overdue) => TimerStandsBy(s, overdue); BystanderKeepsLog(s, t);
    case TerminationMoves => TerminationStandsBy(s); BystanderKeepsLog(s, t);
  }

  // ---------------------------------------------------------------- closing and ending

  /** The caller that won the right to report the close has yet to do so. */
  predicate CloseOwed(s: State) {
    match s.closedBy
    case None => false
    case Some(winner) =>
      (winner.Supervising? && s.supervisor.SendClosed?)
      || (winner.Closing? && winner.caller in s.closers.entries && s.closers.entries[winner.caller].CloserSending?)
  }

  /** Only the winner of the swap ever holds the right to report, and it reports once. */
  ghost predicate CloseLog(s: State) {
    && (s.supervisor.SendClosed? ==> s.closedBy == Some(Supervising))
    && (forall c :: c in s.closers.entries && s.closers.entries[c].CloserSending? ==> s.closedBy == Some(Closing(c)))
    && Tally(s.events, IsClosed) == B(s.closedBy.Some? && !CloseOwed(s))
  }

  /** The thread that cleared `alive` on a stream failure has yet to report it. */
  predicate EndOwed(s: State) {
    !s.life.Alive?
      && ((s.life.winner.Reading? && s.reader.ReaderWinning?) || (s.life.winner.Writing? && s.writer.WriterWinning?))
  }

  ghost predicate EndLog(s: State) {
    && (s.reader.ReaderWinning? ==> !s.life.Alive? && s.life.winner.Reading?)
    && (s.writer.WriterWinning? ==> !s.life.Alive? && s.life.winner.Writing?)
    && Tally(s.events, IsEnd) == B(!s.life.Alive? && (s.life.winner.Reading? || s.life.winner.Writing?) && !EndOwed(s))
  }

  ghost predicate AtMostOne(pending: Table<Waiter>) {
    forall i, j :: i in pending.entries && j in pending.entries ==> i == j
  }

  /** Once the transport is dead the supervisor can still file the one request it had let in. */
  ghost predicate Stranding(s: State) {
    s.life.Dead? ==>
      && AtMostOne(s.pending)
      && (s.supervisor.Start? || s.supervisor.Receive? || s.supervisor.Hold? || s.supervisor.Insert? ==>
            s.pending.entries == map[])
  }

  /** A step that leaves the right to report the close, and its use, alone. */
  ghost predicate CloseApart(s: State, t: State) {
    && t.closedBy == s.closedBy && t.closers == s.closers
    && (t.supervisor.SendClosed? <==> s.supervisor.SendClosed?)
    && Spares(s.events, t.events, IsClosed)
  }

  /** A step that leaves the end of the transport, and its report, alone. */
  ghost predicate EndApart(s: State, t: State) {
    && t.life == s.life && t.writer == s.writer
    && (t.reader.ReaderWinning? <==> s.reader.ReaderWinning?)
    && Spares(s.events, t.events, IsEnd)
  }

  lemma CloseApartKeeps(s: State, t: State)
    requires CloseLog(s) && CloseApart(s, t)
    ensures CloseLog(t)
  {
    SparedTally(s.events, t.events, IsClosed);
  }

  lemma EndApartKeeps(s: State, t: State)
    requires EndLog(s) && EndApart(s, t)
    ensures EndLog(t)
  {
    SparedTally(s.events, t.events, IsEnd);
  }

  lemma SendApart(s: State, encodeFails: bool, timedOut: bool)
    requires s.supervisor.SendInitialize? || s.supervisor.SendInitialized? || s.supervisor.AwaitInitialize?
    ensures CloseApart(s, HandshakeAction(s, encodeFails, timedOut))
    ensures EndApart(s, HandshakeAction(s, encodeFails, timedOut))
  {}

  lemma HandshakeApart(s: State, encodeFails: bool, timedOut: bool)
    requires s.supervisor.Register? || s.supervisor.MarkReady? || s.supervisor.FailInitialize?
    ensures CloseApart(s, HandshakeAction(s, encodeFails, timedOut))
    ensures EndApart(s, HandshakeAction(s, encodeFails, timedOut))
  {}

  lemma VerdictApart(s: State, encodeFails: bool, timedOut: bool)
    requires s.supervisor.ReportFailure? || s.supervisor.EmitReady? || s.supervisor.Start?
    ensures CloseApart(s, HandshakeAction(s, encodeFails, timedOut))
    ensures EndApart(s, HandshakeAction(s, encodeFails, timedOut))
  {}

  lemma ReceiveApart(s: State, encodeFails: bool)
    requires s.supervisor.Loop? || s.supervisor.Receive? || s.supervisor.Hold?
    ensures CloseApart(s, ServeAction(s, encodeFails)) && EndApart(s, ServeAction(s, encodeFails))
  {}

  lemma FileApart(s: State, encodeFails: bool)
    requires s.supervisor.Insert? || s.supervisor.Encode? || s.supervisor.FailOne?
    ensures CloseApart(s, ServeAction(s, encodeFails)) && EndApart(s, ServeAction(s, encodeFails))
  {}

  lemma DrainApart(s: State)
    requires s.supervisor.Drain? || s.supervisor.Discard? || s.supervisor.CloseReceiver? || s.supervisor.Gone?
    ensures CloseApart(s, ShutdownAction(s)) && EndApart(s, ShutdownAction(s))
  {}

  lemma TerminatingKeepsEnd(s: State)
    requires EndLog(s) && (s.supervisor.Terminating? || s.supervisor.Winning?)
    ensures CloseApart(s, ShutdownAction(s)) && EndLog(ShutdownAction(s))
  {}

  lemma EmitClosedKeepsClose(s: State)
    requires CloseLog(s) && s.supervisor.EmitClosed?
    ensures CloseLog(ShutdownAction(s)) && EndApart(s, ShutdownAction(s))
  {}

  lemma SendClosedKeepsClose(s: State)
    requires CloseLog(s) && s.supervisor.SendClosed?
    ensures CloseLog(ShutdownAction(s)) && EndApart(s, ShutdownAction(s))
  {
    TallyPushed(s.events, ClosedEvent);
  }

  lemma SupervisorKeepsEnds(s: State, encodeFails: bool, timedOut: bool)
    requires CloseLog(s) && EndLog(s)
    ensures CloseLog(SupervisorAction(s, encodeFails, timedOut)) && EndLog(SupervisorAction(s, encodeFails, timedOut))
  {
    var t := SupervisorAction(s, encodeFails, timedOut);
    match s.supervisor {
      case SendInitialize | SendInitialized | AwaitInitialize => SendApart(s, encodeFails, timedOut);
      case Register | MarkReady | FailInitialize(_, _) => HandshakeApart(s, encodeFails, timedOut);
      case ReportFailure(_, _) | EmitReady | Start => VerdictApart(s, encodeFails, timedOut);
      case Loop | Receive | Hold(_, _) => ReceiveApart(s, encodeFails);
      case Insert(_, _) | Encode(_, _) | FailOne(_, _, _) => FileApart(s, encodeFails);
      case Drain | Discard | CloseReceiver | Gone => DrainApart(s);
      case Terminating(_, _) | Winning(_) => TerminatingKeepsEnd(s);
      case EmitClosed => EmitClosedKeepsClose(s);
      case SendClosed => SendClosedKeepsClose(s);
    }
    if CloseApart(s, t) { CloseApartKeeps(s, t); }
    if EndApart(s, t) { EndApartKeeps(s, t); }
  }

  lemma ReadingApart(s: State, input: Input)
    requires s.reader.ReadingFrames?
    ensures CloseApart(s, ReadAction(s, input)) && EndApart(s, ReadAction(s, input))
  {}

  lemma DeliveringApart(s: State, input: Input)
    requires s.reader.Delivering?
    ensures CloseApart(s, ReaderAction(s, input)) && EndApart(s, ReaderAction(s, input))
  {}

  lemma EndingApart(s: State, input: Input)
    requires !s.reader.ReadingFrames? && !s.reader.Delivering?
    ensures CloseApart(s, ReaderAction(s, input))
  {}

  lemma EndingKeepsEnd(s: State, input: Input)
    requires EndLog(s)
    requires s.reader.ReaderTerminating? || s.reader.Waiting? || s.reader.Unregistered? || s.reader.ReaderGone?
    ensures EndLog(ReaderAction(s, input))
  {}

  lemma ReportingKeepsEnd(s: State, input: Input)
    requires EndLog(s) && s.reader.ReaderWinning?
    ensures EndLog(ReaderAction(s, input))
  {
    TallyPushed(s.events, if s.reader.error == Eof then EofEvent else IoErrorEvent);
  }

  lemma WriterApart(s: State, fails: bool)
    ensures CloseApart(s, WriterAction(s, fails))
  {}

  lemma WriterKeepsEnd(s: State, fails: bool)
    requires EndLog(s)
    ensures EndLog(WriterAction(s, fails))
  {
    TallyPushed(s.events, IoErrorEvent);
  }

  /** A caller whose `close` moves on without touching the right to report. */
  lemma PassingKeepsClose(s: State, c: nat)
    requires CloseLog(s)
    requires s.closers.Has(c) ==> !s.closers.At(c).CloserEmitting? && !s.closers.At(c).CloserSending?
    ensures CloseLog(CloserAction(s, c))
  {
    var t := CloserAction(s, c);
    assert t.closers == s.closers
      || (t.closers == s.closers.Put(c, t.closers.At(c)) && !t.closers.At(c).CloserSending?);
  }

  lemma EmittingKeepsClose(s: State, c: nat)
    requires CloseLog(s) && s.closers.Has(c) && s.closers.At(c).CloserEmitting?
    ensures CloseLog(CloserAction(s, c))
  {}

  lemma SendingKeepsClose(s: State, c: nat)
    requires CloseLog(s) && s.closers.Has(c) && s.closers.At(c).CloserSending?
    ensures CloseLog(CloserAction(s, c))
  {
    TallyPushed(s.events, ClosedEvent);
  }

  lemma CloserSparesEnd(s: State, c: nat)
    ensures Spares(s.events, CloserAction(s, c).events, IsEnd)
    ensures var life := CloserAction(s, c).life;
      life == s.life || (s.life.Alive? && life.Clearing? && life.winner.Closing?)
    ensures CloserAction(s, c).reader == s.reader && CloserAction(s, c).writer == s.writer
  {}

  lemma CloserKeepsEnds(s: State, c: nat)
    requires CloseLog(s) && EndLog(s)
    ensures CloseLog(CloserAction(s, c)) && EndLog(CloserAction(s, c))
  {
    CloserSparesEnd(s, c);
    SparedTally(s.events, CloserAction(s, c).events, IsEnd);
    if s.closers.Has(c) && s.closers.At(c).CloserEmitting? { EmittingKeepsClose(s, c); }
    else if s.closers.Has(c) && s.closers.At(c).CloserSending? { SendingKeepsClose(s, c); }
    else { PassingKeepsClose(s, c); }
  }

  lemma TerminationApart(s: State)
    ensures CloseApart(s, TerminateStep(s))
  {}

  lemma TerminationKeepsEnd(s: State)
    requires EndLog(s)
    ensures EndLog(TerminateStep(s))
  {
    var t := TerminateStep(s);
    assert t.events == s.events && t.reader == s.reader && t.writer == s.writer;
  }

  lemma ClientApart(s: State, w: Waiter, step: ClientStep)
    ensures CloseApart(s, ClientAction(s, w, step)) && EndApart(s, ClientAction(s, w, step))
  {}

  lemma DropApart(s: State)
    ensures CloseApart(s, DropHandle(s)) && EndApart(s, DropHandle(s))
  {}

  lemma TimerApart(s: State, overdue: seq<nat>)
    ensures CloseApart(s, TimerAction(s, overdue)) && EndApart(s, TimerAction(s, overdue))
  {}

  lemma ReaderKeepsEnds(s: State, input: Input)
    requires CloseLog(s) && EndLog(s)
    ensures CloseLog(ReaderAction(s, input)) && EndLog(ReaderAction(s, input))
  {
    var t := ReaderAction(s, input);
    match s.reader {
      case ReadingFrames => ReadingApart(s, input); EndApartKeeps(s, t);
      case Delivering(_, _, _) => DeliveringApart(s, input); EndApartKeeps(s, t);
      case ReaderWinning(_) => EndingApart(s, input); ReportingKeepsEnd(s, input);
      case _ => EndingApart(s, input); EndingKeepsEnd(s, input);
    }
    CloseApartKeeps(s, t);
  }

  lemma StepKeepsEnds(s: State, action: Action)
    requires CloseLog(s) && EndLog(s)
    ensures CloseLog(Step(s, action)) && EndLog(Step(s, action))
  {
    var t := Step(s, action);
    match action
    case SupervisorMoves(e, o) => SupervisorKeepsEnds(s, e, o);
    case ReaderMoves(input) => ReaderKeepsEnds(s, input);
    case ClientMoves(w, step) => ClientApart(s, w, step); CloseApartKeeps(s, t); EndApartKeeps(s, t);
    case CloserMoves(c) => CloserKeepsEnds(s, c);
    case HandleDrops => DropApart(s); CloseApartKeeps(s, t); EndApartKeeps(s, t);
    case WriterMoves(fails) => WriterApart(s, fails); CloseApartKeeps(s, t); WriterKeepsEnd(s, fails);
    case TimerMoves(overdue) => TimerApart(s, overdue); CloseApartKeeps(s, t); EndApartKeeps(s, t);
    case TerminationMoves => TerminationApart(s); CloseApartKeeps(s, t); TerminationKeepsEnd(s);
  }

  // ---------------------------------------------------------------- stranding

  /** A step that neither files an entry nor lets the supervisor back to its queue. */
  ghost predicate FilesNothing(s: State, t: State) {
    && (t.life.Dead? ==> s.life.Dead?)
    && t.pending.entries.Keys <= s.pending.entries.Keys
    && (t.supervisor.Start? || t.supervisor.Receive? || t.supervisor.Hold? || t.supervisor.Insert? ==>
          t.supervisor == s.supervisor || s.supervisor.Receive? || s.life.Alive?)
  }

  lemma FilesNothingKeeps(s: State, t: State)
    requires Stranding(s) && FilesNothing(s, t)
    ensures Stranding(t)
  {}

  lemma StartStranding(s: State, encodeFails: bool, timedOut: bool)
    requires Stranding(s) && s.supervisor.Start?
    ensures Stranding(HandshakeAction(s, encodeFails, timedOut))
  {}

  lemma SendStranding(s: State, encodeFails: bool, timedOut: bool)
    requires s.supervisor.SendInitialize? || s.supervisor.SendInitialized? || s.supervisor.AwaitInitialize?
    ensures FilesNothing(s, HandshakeAction(s, encodeFails, timedOut))
  {}

  lemma VerdictStranding(s: State, encodeFails: bool, timedOut: bool)
    requires s.supervisor.Register? || s.supervisor.MarkReady? || s.supervisor.EmitReady? || s.supervisor.ReportFailure?
    ensures FilesNothing(s, HandshakeAction(s, encodeFails, timedOut))
  {}

  lemma FailStranding(s: State, encodeFails: bool, timedOut: bool)
    requires s.supervisor.FailInitialize?
    ensures FilesNothing(s, HandshakeAction(s, encodeFails, timedOut))
  {}

  lemma ReceiveStranding(s: State, encodeFails: bool)
    requires s.supervisor.Loop? || s.supervisor.Receive? || s.supervisor.Hold? || s.supervisor.Encode?
    ensures FilesNothing(s, ServeAction(s, encodeFails))
  {}

  lemma InsertStranding(s: State, encodeFails: bool)
    requires Stranding(s) && s.supervisor.Insert?
    ensures Stranding(ServeAction(s, encodeFails))
  {}

  lemma FailOneStranding(s: State, encodeFails: bool)
    requires s.supervisor.FailOne?
    ensures FilesNothing(s, ServeAction(s, encodeFails))
  {}

  lemma TerminatingStranding(s: State)
    requires s.supervisor.Terminating? || s.supervisor.Winning?
    ensures FilesNothing(s, ShutdownAction(s))
  {}

  lemma CloseStranding(s: State)
    requires s.supervisor.EmitClosed? || s.supervisor.SendClosed? || s.supervisor.CloseReceiver? || s.supervisor.Gone?
    ensures FilesNothing(s, ShutdownAction(s))
  {}

  lemma DrainStranding(s: State)
    requires s.supervisor.Drain? || s.supervisor.Discard?
    ensures FilesNothing(s, ShutdownAction(s))
  {}

  lemma SupervisorStranding(s: State, encodeFails: bool, timedOut: bool)
    requires Stranding(s)
    ensures Stranding(SupervisorAction(s, encodeFails, timedOut))
  {
    var t := SupervisorAction(s, encodeFails, timedOut);
    match s.supervisor
    case Start => StartStranding(s, encodeFails, timedOut);
    case SendInitialize | SendInitialized | AwaitInitialize =>
      SendStranding(s, encodeFails, timedOut);
      FilesNothingKeeps(s, t);
    case FailInitialize(_, _) => FailStranding(s, encodeFails, timedOut); FilesNothingKeeps(s, t);
    case Loop | Receive | Hold(_, _) | Encode(_, _) => ReceiveStranding(s, encodeFails); FilesNothingKeeps(s, t);
    case Insert(_, _) => InsertStranding(s, encodeFails);
    case FailOne(_, _, _) => FailOneStranding(s, encodeFails); FilesNothingKeeps(s, t);
    case Terminating(_, _) | Winning(_) => TerminatingStranding(s); FilesNothingKeeps(s, t);
    case Drain | Discard => DrainStranding(s); FilesNothingKeeps(s, t);
    case EmitClosed | SendClosed | CloseReceiver | Gone => CloseStranding(s); FilesNothingKeeps(s, t);
    case _ => VerdictStranding(s, encodeFails, timedOut); FilesNothingKeeps(s, t);
  }

  lemma ReadingStranding(s: State, input: Input)
    requires s.reader.ReadingFrames?
    ensures FilesNothing(s, ReadAction(s, input))
  {}

  lemma ReaderStranding(s: State, input: Input)
    requires !s.reader.ReadingFrames?
    ensures FilesNothing(s, ReaderAction(s, input))
  {}

  lemma TimerStranding(s: State, overdue: seq<nat>)
    ensures FilesNothing(s, TimerAction(s, overdue))
  {}

  lemma WriterStranding(s: State, fails: bool)
    ensures FilesNothing(s, WriterAction(s, fails))
  {}

  lemma ClientStranding(s: State, w: Waiter, step: ClientStep)
    ensures FilesNothing(s, ClientAction(s, w, step)) && FilesNothing(s, DropHandle(s))
  {}

  lemma CloserStranding(s: State, c: nat)
    ensures FilesNothing(s, CloserAction(s, c))
  {}

  lemma TerminationStranding(s: State)
    requires Stranding(s)
    ensures Stranding(TerminateStep(s))
  {}

  lemma StepKeepsStranding(s: State, action: Action)
    requires Stranding(s)
    ensures Stranding(Step(s, action))
  {
    var t := Step(s, action);
    match action
    case SupervisorMoves(e, o) => SupervisorStranding(s, e, o);
    case ReaderMoves(input) =>
      if s.reader.ReadingFrames? { ReadingStranding(s, input); } else { ReaderStranding(s, input); }
      FilesNothingKeeps(s, t);
    case ClientMoves(w, step) => ClientStranding(s, w, step); FilesNothingKeeps(s, t);
    case CloserMoves(c) => CloserStranding(s, c); FilesNothingKeeps(s, t);
    case HandleDrops => ClientStranding(s, INITIALIZE, Load); FilesNothingKeeps(s, t);
    case WriterMoves(fails) => WriterStranding(s, fails); FilesNothingKeeps(s, t);
    case TimerMoves(overdue) => TimerStranding(s, overdue); FilesNothingKeeps(s, t);
    case TerminationMoves => TerminationStranding(s);
  }
}
