/** Where every answer, every event and everything on the wire comes from.

    Each is traced back to an action of the run: to the response the reader took from the stream, to
    the timeout that fired, to the read or write that failed.
 */
module TransportOrigins {
  import opened Common
  import opened Transport
  import opened ReplyDesk
  import opened TransportSafety
  import opened TransportLogs
  import opened TransportShutdown
  import opened TransportTheorems

  // ---------------------------------------------------------------- what can happen in a step

  datatype Cause =
    | Answered(id: nat, waiter: Waiter, success: bool)
    | Overdue(id: nat, waiter: Waiter)
    | HandshakeOverdue
    | Unencodable
    | StreamEnded
    | ReadFailed
    | WriteFailed
    | Ending
    | CloseAsked

  /** The reader takes this from the stream. */
  predicate Reads(s: State, a: Action, input: Input) { a == ReaderMoves(input) && s.reader.ReadingFrames? }

  predicate Files(s: State, id: nat, w: Waiter) { s.pending.Has(id) && s.pending.At(id) == w }

  /** Taking action `a` in state `s` is an event of this kind. */
  predicate Causes(s: State, a: Action, c: Cause) {
    match c
    case Answered(id, w, success) => Reads(s, a, Response(id, success)) && Files(s, id, w)
    case Overdue(id, w) =>
      a.TimerMoves? && s.timer.Sleeping? && IsOverdue(s.pending, a.overdue) && id in a.overdue && Files(s, id, w)
    case HandshakeOverdue => a.SupervisorMoves? && a.timedOut && s.supervisor.AwaitInitialize?
    case Unencodable =>
      a.SupervisorMoves? && a.encodeFails
      && (s.supervisor.SendInitialize? || s.supervisor.SendInitialized? || s.supervisor.Encode?)
    case StreamEnded => Reads(s, a, EndOfStream)
    case ReadFailed => Reads(s, a, ReadFailure)
    case WriteFailed => a == WriterMoves(true) && s.writer.WritingFrames? && s.written < |s.outbound|
    case Ending => !s.life.Alive?
    case CloseAsked => a.CloserMoves? || a.HandleDrops?
  }

  /** It happened at some step of this run. */
  ghost predicate Happened(actions: seq<Action>, c: Cause) {
    exists i :: 0 <= i < |actions| && Causes(Run(actions[..i]), actions[i], c)
  }

  ghost function Known(actions: seq<Action>): iset<Cause> { iset c | Happened(actions, c) }

  lemma KnownGrows(actions: seq<Action>, last: Action, c: Cause)
    requires Happened(actions, c) || Causes(Run(actions), last, c)
    ensures Happened(actions + [last], c)
  {
    var all := actions + [last];
    if Happened(actions, c) {
      var i :| 0 <= i < |actions| && Causes(Run(actions[..i]), actions[i], c);
      assert all[..i] == actions[..i] && all[i] == actions[i];
    } else {
      assert all[..|actions|] == actions && all[|actions|] == last;
    }
  }

  // ---------------------------------------------------------------- what an answer goes back to

  ghost predicate ReplyFrom(known: iset<Cause>, w: Waiter, reply: Reply) {
    match reply
    case Ok(id) => Answered(id, w, true) in known
    case Err(error) =>
      match error
      case Rpc => exists id :: Answered(id, w, false) in known
      case Timeout(id) =>
        Overdue(id, w) in known || (w == INITIALIZE && id == INITIALIZE_ID && HandshakeOverdue in known)
      case Closed => Ending in known
      case Eof => StreamEnded in known
      case Io => ReadFailed in known || WriteFailed in known
      case LineTooLong => Unencodable in known
      case DuplicateId => false
  }

  /** Errors only the waiter itself can be told about. */
  predicate IsPersonal(e: Error) { e.Rpc? || e.Timeout? }

  ghost predicate AnswersFrom(known: iset<Cause>, answers: Table<seq<Reply>>) {
    forall w, reply :: reply in Lookup(answers, w) ==> ReplyFrom(known, w, reply)
  }

  ghost predicate ReaderErrorFrom(known: iset<Cause>, e: Error) {
    (e == Eof && StreamEnded in known) || (e == Io && ReadFailed in known)
  }

  ghost predicate ReaderFrom(known: iset<Cause>, r: Reader) {
    match r
    case Delivering(w, id, reply) =>
      (reply == Ok(id) && Answered(id, w, true) in known) || (reply == Err(Rpc) && Answered(id, w, false) in known)
    case ReaderTerminating(e) => ReaderErrorFrom(known, e)
    case ReaderWinning(e) => ReaderErrorFrom(known, e)
    case _ => true
  }

  ghost predicate TimerFrom(known: iset<Cause>, t: Timer) {
    t.Expiring? ==> forall k :: 0 <= k < |t.entries| ==> Overdue(t.entries[k].0, t.entries[k].1) in known
  }

  /** An error on the way to the handshake's waiter. */
  ghost predicate ErrorFrom(known: iset<Cause>, e: Error) { ReplyFrom(known, INITIALIZE, Err(e)) }

  /** An error that ends the transport. */
  ghost predicate EndFrom(known: iset<Cause>, e: Error) { e.Closed? || ErrorFrom(known, e) }

  ghost predicate SupervisorFrom(known: iset<Cause>, p: Supervisor) {
    match p
    case FailInitialize(e, _) => ErrorFrom(known, e)
    case ReportFailure(e, _) => ErrorFrom(known, e)
    case FailOne(_, e, fatal) => !IsPersonal(e) && ErrorFrom(known, e) && (!fatal ==> e == LineTooLong)
    case Terminating(e, after) => EndFrom(known, e) && (after.ThenEmitClosed? ==> CloseAsked in known)
    case Winning(after) => after.ThenEmitClosed? ==> CloseAsked in known
    case EmitClosed | SendClosed => CloseAsked in known
    case _ => true
  }

  ghost predicate LifeFrom(known: iset<Cause>, l: Life) { (l.Clearing? || l.Draining?) ==> EndFrom(known, l.error) }

  ghost predicate CloseFrom(known: iset<Cause>, s: State) {
    (Close in s.queue || s.handleDropped || s.closers.entries != map[]) ==> CloseAsked in known
  }

  ghost predicate InHandFrom(known: iset<Cause>, s: State) {
    && ReaderFrom(known, s.reader) && TimerFrom(known, s.timer)
    && SupervisorFrom(known, s.supervisor) && LifeFrom(known, s.life) && CloseFrom(known, s)
  }

  // ---------------------------------------------------------------- what is in the way of mix-ups

  predicate BeforeServing(p: Supervisor) {
    p.Start? || p.Register? || p.SendInitialize? || p.AwaitInitialize? || p.FailInitialize? || p.ReportFailure?
    || p.SendInitialized? || p.MarkReady? || p.EmitReady?
  }

  predicate IsLeaving(p: Supervisor) {
    p.Winning? || p.EmitClosed? || p.SendClosed? || p.Drain? || p.CloseReceiver? || p.Discard? || p.Gone?
  }

  ghost predicate NothingFiled(pending: Table<Waiter>) { forall id :: !pending.Has(id) }

  /** Until requests are served only the handshake is filed, and once it has failed nothing is. */
  ghost predicate FiledInTime(s: State) {
    && (BeforeServing(s.supervisor) ==>
          forall id :: s.pending.Has(id) ==> id == INITIALIZE_ID && s.pending.At(id) == INITIALIZE)
    && ((s.supervisor.ReportFailure? || s.supervisor.Terminating?) && IsPersonal(s.supervisor.error) ==>
          NothingFiled(s.pending))
    && ((s.life.Clearing? || s.life.Draining?) && IsPersonal(s.life.error) ==>
          IsLeaving(s.supervisor) && NothingFiled(s.pending))
    && (IsLeaving(s.supervisor) || s.writer.WriterGone? ==> !s.life.Alive?)
  }

  ghost predicate QueueApart(queue: seq<Command>) {
    forall i :: 0 <= i < |queue| && queue[i].Request? ==> queue[i].waiter != INITIALIZE
  }

  predicate HoldsOne(p: Supervisor) { p.Hold? || p.Insert? || p.Encode? }

  /** The handshake's reply sender never goes through the command channel and is never dropped. */
  ghost predicate HandshakeApart(s: State) {
    && QueueApart(s.queue) && (HoldsOne(s.supervisor) ==> s.supervisor.waiter != INITIALIZE)
    && !s.calls.Has(INITIALIZE) && s.dropped[INITIALIZE] == 0
  }

  /** A step of another thread. */
  ghost predicate Besides(s: State, t: State) {
    && t.supervisor == s.supervisor && t.dropped == s.dropped
    && (forall id :: t.pending.Has(id) ==> s.pending.Has(id) && t.pending.At(id) == s.pending.At(id))
    && (!s.life.Alive? ==> !t.life.Alive?)
    && ((t.life.Clearing? || t.life.Draining?) && IsPersonal(t.life.error) ==>
          (s.life.Clearing? || s.life.Draining?) && s.life.error == t.life.error)
    && (t.writer.WriterGone? ==> s.writer.WriterGone? || IsLeaving(s.supervisor) || !t.life.Alive?)
  }

  lemma BesidesKeepsFiled(s: State, t: State)
    requires FiledInTime(s) && Besides(s, t)
    ensures FiledInTime(t)
  {}

  lemma ReadingBesides(s: State, input: Input)
    requires s.reader.ReadingFrames?
    ensures Besides(s, ReaderAction(s, input))
  {}

  lemma ReaderBesides(s: State, input: Input)
    requires !s.reader.ReadingFrames? && (s.reader.ReaderTerminating? ==> !IsPersonal(s.reader.error))
    ensures Besides(s, ReaderAction(s, input))
  {}

  lemma TimerBesides(s: State, overdue: seq<nat>)
    ensures Besides(s, TimerAction(s, overdue))
  {}

  lemma WriterBesides(s: State, fails: bool)
    ensures Besides(s, WriterAction(s, fails))
  {}

  lemma CloserBesides(s: State, c: nat)
    ensures Besides(s, CloserAction(s, c))
  {}

  lemma ClientBesides(s: State, w: Waiter, step: ClientStep)
    ensures Besides(s, ClientAction(s, w, step)) && Besides(s, DropHandle(s))
  {}

  lemma TerminationBesides(s: State)
    ensures Besides(s, TerminateStep(s))
  {}

  lemma Entered<V>(table: Table<V>, key: nat, value: V)
    ensures forall id :: table.Put(key, value).Has(id) <==> id == key || table.Has(id)
    ensures forall id :: table.Put(key, value).Has(id) ==>
      table.Put(key, value).At(id) == if id == key then value else table.At(id)
  {}

  lemma Removed<V>(table: Table<V>, key: nat)
    ensures forall id :: table.Remove(key).Has(id) <==> table.Has(id) && id != key
  {}

  lemma OpeningFiles(s: State, encodeFails: bool, timedOut: bool)
    requires FiledInTime(s) && (s.supervisor.Start? || s.supervisor.Register? || s.supervisor.SendInitialize?)
    ensures FiledInTime(HandshakeAction(s, encodeFails, timedOut))
  {
    Entered(s.pending, INITIALIZE_ID, INITIALIZE);
  }

  lemma AwaitingFiles(s: State, encodeFails: bool, timedOut: bool)
    requires FiledInTime(s) && s.supervisor.AwaitInitialize?
    ensures FiledInTime(HandshakeAction(s, encodeFails, timedOut))
  {}

  lemma FailureFiles(s: State, encodeFails: bool, timedOut: bool)
    requires FiledInTime(s) && (s.supervisor.FailInitialize? || s.supervisor.ReportFailure?)
    ensures FiledInTime(HandshakeAction(s, encodeFails, timedOut))
  {
    Removed(s.pending, INITIALIZE_ID);
  }

  lemma ReadyFiles(s: State, encodeFails: bool, timedOut: bool)
    requires FiledInTime(s) && (s.supervisor.SendInitialized? || s.supervisor.MarkReady? || s.supervisor.EmitReady?)
    ensures FiledInTime(HandshakeAction(s, encodeFails, timedOut))
  {}

  lemma ReceivingFiles(s: State, encodeFails: bool)
    requires FiledInTime(s) && (s.supervisor.Loop? || s.supervisor.Receive? || s.supervisor.Hold?)
    ensures FiledInTime(ServeAction(s, encodeFails))
  {}

  lemma InsertingFiles(s: State, encodeFails: bool)
    requires FiledInTime(s) && (s.supervisor.Insert? || s.supervisor.Encode?)
    ensures FiledInTime(ServeAction(s, encodeFails))
  {}

  lemma FailOneFiles(s: State, encodeFails: bool)
    requires FiledInTime(s) && s.supervisor.FailOne? && !IsPersonal(s.supervisor.error)
    ensures FiledInTime(ServeAction(s, encodeFails))
  {}

  lemma EndingFiles(s: State)
    requires FiledInTime(s) && (s.supervisor.Terminating? || s.supervisor.Winning?)
    ensures FiledInTime(ShutdownAction(s))
  {}

  lemma ClosingFiles(s: State)
    requires FiledInTime(s) && (s.supervisor.EmitClosed? || s.supervisor.SendClosed? || s.supervisor.CloseReceiver?)
    ensures FiledInTime(ShutdownAction(s))
  {}

  lemma LeavingFiles(s: State)
    requires FiledInTime(s) && (s.supervisor.Drain? || s.supervisor.Discard? || s.supervisor.Gone?)
    ensures FiledInTime(ShutdownAction(s))
  {}

  lemma SupervisorFiles(s: State, encodeFails: bool, timedOut: bool)
    requires FiledInTime(s) && (s.supervisor.FailOne? ==> !IsPersonal(s.supervisor.error))
    ensures FiledInTime(SupervisorAction(s, encodeFails, timedOut))
  {
    match s.supervisor
    case Start | Register | SendInitialize => OpeningFiles(s, encodeFails, timedOut);
    case AwaitInitialize => AwaitingFiles(s, encodeFails, timedOut);
    case FailInitialize(_, _) | ReportFailure(_, _) => FailureFiles(s, encodeFails, timedOut);
    case SendInitialized | MarkReady | EmitReady => ReadyFiles(s, encodeFails, timedOut);
    case Loop | Receive | Hold(_, _) => ReceivingFiles(s, encodeFails);
    case Insert(_, _) | Encode(_, _) => InsertingFiles(s, encodeFails);
    case FailOne(_, _, _) => FailOneFiles(s, encodeFails);
    case Terminating(_, _) | Winning(_) => EndingFiles(s);
    case EmitClosed | SendClosed | CloseReceiver => ClosingFiles(s);
    case Drain | Discard | Gone => LeavingFiles(s);
  }

  lemma StepKeepsFiled(s: State, known: iset<Cause>, action: Action)
    requires FiledInTime(s) && InHandFrom(known, s)
    ensures FiledInTime(Step(s, action))
  {
    var t := Step(s, action);
    match action
    case SupervisorMoves(e, o) => SupervisorFiles(s, e, o);
    case ReaderMoves(input) =>
      if s.reader.ReadingFrames? { ReadingBesides(s, input); } else { ReaderBesides(s, input); }
      BesidesKeepsFiled(s, t);
    case ClientMoves(w, step) => ClientBesides(s, w, step); BesidesKeepsFiled(s, t);
    case CloserMoves(c) => CloserBesides(s, c); BesidesKeepsFiled(s, t);
    case HandleDrops => ClientBesides(s, INITIALIZE, Load); BesidesKeepsFiled(s, t);
    case WriterMoves(fails) => WriterBesides(s, fails); BesidesKeepsFiled(s, t);
    case TimerMoves(overdue) => TimerBesides(s, overdue); BesidesKeepsFiled(s, t);
    case TerminationMoves => TerminationBesides(s); BesidesKeepsFiled(s, t);
  }

  /** A step of another thread: at most one command more. */
  ghost predicate ApartFrom(s: State, t: State) {
    && (t.queue == s.queue || exists c :: t.queue == s.queue + [c] && (c.Request? ==> c.waiter != INITIALIZE))
    && (t.calls.Has(INITIALIZE) ==> s.calls.Has(INITIALIZE))
    && t.dropped == s.dropped && t.supervisor == s.supervisor
  }

  lemma ClientApart(s: State, w: Waiter, step: ClientStep)
    requires !s.calls.Has(INITIALIZE)
    ensures ApartFrom(s, ClientAction(s, w, step))
  {}

  lemma CloserApart(s: State, c: nat)
    ensures ApartFrom(s, CloserAction(s, c))
  {}

  lemma DropApart(s: State)
    ensures ApartFrom(s, DropHandle(s))
  {}

  lemma ReaderApart(s: State, input: Input)
    ensures ApartFrom(s, ReaderAction(s, input))
  {}

  lemma WriterApart(s: State, fails: bool)
    ensures ApartFrom(s, WriterAction(s, fails))
  {}

  lemma TimerApart(s: State, overdue: seq<nat>)
    ensures ApartFrom(s, TimerAction(s, overdue))
  {}

  lemma TerminationApart(s: State)
    ensures ApartFrom(s, TerminateStep(s))
  {}

  lemma ApartStays(s: State, t: State)
    requires HandshakeApart(s) && ApartFrom(s, t)
    ensures HandshakeApart(t)
  {}

  predicate IsHead(queue: seq<Command>, w: Waiter) { queue != [] && queue[0].Request? && queue[0].waiter == w }

  /** A step of the supervisor: it takes at most the first command, and drops only what it holds or takes. */
  ghost predicate TakesFrom(s: State, t: State) {
    && t.calls == s.calls && (t.queue == s.queue || t.queue == Rest(s.queue))
    && (HoldsOne(t.supervisor) ==> IsHead(s.queue, t.supervisor.waiter)
                                   || (HoldsOne(s.supervisor) && s.supervisor.waiter == t.supervisor.waiter))
    && (t.dropped == s.dropped
        || exists w :: t.dropped == s.dropped + multiset{w}
                       && (IsHead(s.queue, w) || (HoldsOne(s.supervisor) && s.supervisor.waiter == w)))
  }

  lemma TakingStaysApart(s: State, t: State)
    requires HandshakeApart(s) && TakesFrom(s, t)
    ensures HandshakeApart(t)
  {}

  lemma StartTakes(s: State, encodeFails: bool, timedOut: bool)
    requires BeforeServing(s.supervisor)
    ensures TakesFrom(s, HandshakeAction(s, encodeFails, timedOut))
  {}

  lemma ReceiveTakes(s: State, encodeFails: bool)
    requires s.supervisor.Loop? || s.supervisor.Receive? || s.supervisor.Hold?
    ensures TakesFrom(s, ServeAction(s, encodeFails))
  {}

  lemma InsertTakes(s: State, encodeFails: bool)
    requires s.supervisor.Insert? || s.supervisor.Encode? || s.supervisor.FailOne?
    ensures TakesFrom(s, ServeAction(s, encodeFails))
  {}

  lemma DiscardTakes(s: State)
    requires s.supervisor.Discard?
    ensures TakesFrom(s, ShutdownAction(s))
  {}

  lemma DrainTakes(s: State)
    requires s.supervisor.Drain?
    ensures TakesFrom(s, ShutdownAction(s))
  {}

  lemma StopTakes(s: State)
    requires s.supervisor.Terminating? || IsLeaving(s.supervisor)
    requires !s.supervisor.Discard? && !s.supervisor.Drain?
    ensures TakesFrom(s, ShutdownAction(s))
  {}

  lemma SupervisorTakes(s: State, encodeFails: bool, timedOut: bool)
    ensures TakesFrom(s, SupervisorAction(s, encodeFails, timedOut))
  {
    if BeforeServing(s.supervisor) { StartTakes(s, encodeFails, timedOut); }
    else if s.supervisor.Discard? { DiscardTakes(s); }
    else if s.supervisor.Drain? { DrainTakes(s); }
    else if s.supervisor.Terminating? || IsLeaving(s.supervisor) { StopTakes(s); }
    else if s.supervisor.Loop? || s.supervisor.Receive? || s.supervisor.Hold? { ReceiveTakes(s, encodeFails); }
    else { InsertTakes(s, encodeFails); }
  }

  lemma StepKeepsApart(s: State, action: Action)
    requires HandshakeApart(s)
    ensures HandshakeApart(Step(s, action))
  {
    var t := Step(s, action);
    match action
    case SupervisorMoves(e, o) => SupervisorTakes(s, e, o); TakingStaysApart(s, t);
    case ReaderMoves(input) => ReaderApart(s, input); ApartStays(s, t);
    case ClientMoves(w, step) => ClientApart(s, w, step); ApartStays(s, t);
    case CloserMoves(c) => CloserApart(s, c); ApartStays(s, t);
    case HandleDrops => DropApart(s); ApartStays(s, t);
    case WriterMoves(fails) => WriterApart(s, fails); ApartStays(s, t);
    case TimerMoves(overdue) => TimerApart(s, overdue); ApartStays(s, t);
    case TerminationMoves => TerminationApart(s); ApartStays(s, t);
  }

  // ---------------------------------------------------------------- what a thread leaves alone

  lemma ClientLeaves(s: State, w: Waiter, step: ClientStep)
    ensures var t := ClientAction(s, w, step);
      && t.reader == s.reader && t.timer == s.timer && t.writer == s.writer && t.supervisor == s.supervisor
      && t.life == s.life && t.answers == s.answers && t.events == s.events
      && t.closers == s.closers && t.handleDropped == s.handleDropped
  {}

  lemma DropLeaves(s: State)
    ensures var t := DropHandle(s);
      && t.reader == s.reader && t.timer == s.timer && t.writer == s.writer && t.supervisor == s.supervisor
      && t.life == s.life && t.answers == s.answers && t.events == s.events
  {}

  lemma CloserLeaves(s: State, c: nat)
    ensures var t := CloserAction(s, c);
      && t.reader == s.reader && t.timer == s.timer && t.writer == s.writer && t.supervisor == s.supervisor
      && t.answers == s.answers
  {}

  /** What the reader leaves alone. */
  ghost predicate ReadOver(s: State, t: State) {
    && t.timer == s.timer && t.writer == s.writer && t.supervisor == s.supervisor
    && t.queue == s.queue && t.closers == s.closers && t.handleDropped == s.handleDropped
    && (s.reader.ReaderTerminating? || t.life == s.life)
  }

  lemma ReadingLeaves(s: State, input: Input)
    requires s.reader.ReadingFrames?
    ensures ReadOver(s, ReaderAction(s, input))
  {}

  lemma DeliveringLeaves(s: State, input: Input)
    requires s.reader.Delivering?
    ensures ReadOver(s, ReaderAction(s, input))
  {}

  lemma ReaderLeaves(s: State, input: Input)
    ensures ReadOver(s, ReaderAction(s, input))
  {
    if s.reader.ReadingFrames? { ReadingLeaves(s, input); }
    else if s.reader.Delivering? { DeliveringLeaves(s, input); }
    else {}
  }

  lemma WriterLeaves(s: State, fails: bool)
    ensures var t := WriterAction(s, fails);
      && t.reader == s.reader && t.timer == s.timer && t.supervisor == s.supervisor && t.answers == s.answers
      && t.queue == s.queue && t.closers == s.closers && t.handleDropped == s.handleDropped
  {}

  lemma TimerLeaves(s: State, overdue: seq<nat>)
    ensures var t := TimerAction(s, overdue);
      && t.reader == s.reader && t.writer == s.writer && t.supervisor == s.supervisor
      && t.life == s.life && t.events == s.events
      && t.queue == s.queue && t.closers == s.closers && t.handleDropped == s.handleDropped
  {}

  lemma TerminationLeaves(s: State)
    ensures var t := TerminateStep(s);
      && t.reader == s.reader && t.timer == s.timer && t.writer == s.writer && t.supervisor == s.supervisor
      && t.events == s.events && t.queue == s.queue && t.closers == s.closers && t.handleDropped == s.handleDropped
  {}

  /** What the supervisor leaves alone. */
  ghost predicate Supervised(s: State, t: State) {
    && t.reader == s.reader && t.writer == s.writer && (s.supervisor.Start? || t.timer == s.timer)
    && t.closers == s.closers && t.handleDropped == s.handleDropped && (s.supervisor.Terminating? || t.life == s.life)
  }

  lemma StartLeaves(s: State, encodeFails: bool, timedOut: bool)
    requires s.supervisor.Start? || s.supervisor.Register? || s.supervisor.SendInitialize?
             || s.supervisor.AwaitInitialize?
    ensures Supervised(s, HandshakeAction(s, encodeFails, timedOut))
  {}

  lemma VerdictLeaves(s: State, encodeFails: bool, timedOut: bool)
    requires BeforeServing(s.supervisor)
    requires !s.supervisor.Start? && !s.supervisor.Register? && !s.supervisor.SendInitialize?
             && !s.supervisor.AwaitInitialize?
    ensures Supervised(s, HandshakeAction(s, encodeFails, timedOut))
  {}

  lemma ServingLeaves(s: State, encodeFails: bool)
    requires !BeforeServing(s.supervisor) && !s.supervisor.Terminating? && !IsLeaving(s.supervisor)
    ensures Supervised(s, ServeAction(s, encodeFails))
  {}

  lemma StoppingLeaves(s: State)
    requires s.supervisor.Terminating? || IsLeaving(s.supervisor)
    ensures Supervised(s, ShutdownAction(s))
  {}

  lemma SupervisorLeaves(s: State, encodeFails: bool, timedOut: bool)
    ensures Supervised(s, SupervisorAction(s, encodeFails, timedOut))
  {
    match s.supervisor
    case Start | Register | SendInitialize | AwaitInitialize => StartLeaves(s, encodeFails, timedOut);
    case Loop | Receive | Hold(_, _) | Insert(_, _) | Encode(_, _) | FailOne(_, _, _) => ServingLeaves(s, encodeFails);
    case Terminating(_, _) | Winning(_) | EmitClosed | SendClosed | Drain | CloseReceiver | Discard | Gone =>
      StoppingLeaves(s);
    case _ => VerdictLeaves(s, encodeFails, timedOut);
  }

  // ---------------------------------------------------------------- answers

  /** Every new answer goes back to something known. */
  ghost predicate GivesFrom(known: iset<Cause>, before: Table<seq<Reply>>, after: Table<seq<Reply>>) {
    forall w, reply :: reply in Lookup(after, w) ==> reply in Lookup(before, w) || ReplyFrom(known, w, reply)
  }

  /** All that this step causes is known after it, and nothing is forgotten. */
  ghost predicate Learns(s: State, a: Action, before: iset<Cause>, after: iset<Cause>) {
    before <= after && forall c :: Causes(s, a, c) ==> c in after
  }

  lemma ReplyStays(before: iset<Cause>, after: iset<Cause>, w: Waiter, reply: Reply)
    requires before <= after && ReplyFrom(before, w, reply)
    ensures ReplyFrom(after, w, reply)
  {}

  lemma AnswersStay(before: iset<Cause>, after: iset<Cause>, s: State, t: State)
    requires before <= after && AnswersFrom(before, s.answers) && GivesFrom(after, s.answers, t.answers)
    ensures AnswersFrom(after, t.answers)
  {
    forall w, reply | reply in Lookup(t.answers, w) ensures ReplyFrom(after, w, reply) {
      if reply in Lookup(s.answers, w) { ReplyStays(before, after, w, reply); }
    }
  }

  lemma GivingOne(known: iset<Cause>, answers: Table<seq<Reply>>, w: Waiter, reply: Reply)
    requires ReplyFrom(known, w, reply)
    ensures GivesFrom(known, answers, Give(answers, w, reply))
  {}

  lemma GivingAll(known: iset<Cause>, answers: Table<seq<Reply>>, waiters: set<Waiter>, reply: Reply)
    requires forall w :: w in waiters ==> ReplyFrom(known, w, reply)
    ensures GivesFrom(known, answers, GiveAll(answers, waiters, reply))
  {}

  /** An error that is nobody's in particular goes to anyone. */
  lemma CommonError(known: iset<Cause>, v: Waiter, w: Waiter, e: Error)
    requires !IsPersonal(e) && ReplyFrom(known, v, Err(e))
    ensures ReplyFrom(known, w, Err(e))
  {}

  lemma FailingOne(known: iset<Cause>, s: State, id: nat, e: Error)
    requires s.pending.Has(id) ==> ReplyFrom(known, s.pending.At(id), Err(e))
    ensures GivesFrom(known, s.answers, FailPending(s, id, e).answers)
  {
    if s.pending.Has(id) { GivingOne(known, s.answers, s.pending.At(id), Err(e)); }
  }

  lemma ReaderGives(s: State, a: Action, before: iset<Cause>, after: iset<Cause>)
    requires a.ReaderMoves? && ReaderFrom(before, s.reader) && Learns(s, a, before, after)
    ensures GivesFrom(after, s.answers, ReaderAction(s, a.input).answers)
  {
    if s.reader.Delivering? { GivingOne(after, s.answers, s.reader.waiter, s.reader.reply); }
  }

  lemma TimerGives(s: State, a: Action, before: iset<Cause>, after: iset<Cause>)
    requires a.TimerMoves? && TimerFrom(before, s.timer) && Learns(s, a, before, after)
    ensures GivesFrom(after, s.answers, TimerAction(s, a.overdue).answers)
  {
    if s.timer.Expiring? && s.timer.entries != [] {
      var (id, w) := s.timer.entries[0];
      GivingOne(after, s.answers, w, Err(Timeout(id)));
    }
  }

  lemma TerminationGives(s: State, a: Action, before: iset<Cause>, after: iset<Cause>)
    requires a.TerminationMoves? && LifeFrom(before, s.life) && FiledInTime(s) && Learns(s, a, before, after)
    ensures GivesFrom(after, s.answers, TerminateStep(s).answers)
  {
    if s.life.Draining? {
      var e, waiters := s.life.error, s.pending.entries.Values;
      assert Causes(s, a, Ending);
      forall w | w in waiters ensures ReplyFrom(after, w, Err(e)) {
        var id :| id in s.pending.entries && s.pending.entries[id] == w;
        assert s.pending.Has(id);
        if !e.Closed? { ReplyStays(before, after, INITIALIZE, Err(e)); CommonError(after, INITIALIZE, w, e); }
      }
      GivingAll(after, s.answers, waiters, Err(e));
    }
  }

  lemma FailureGives(s: State, a: Action, before: iset<Cause>, after: iset<Cause>)
    requires a.SupervisorMoves? && s.supervisor.FailInitialize? && Learns(s, a, before, after)
    requires SupervisorFrom(before, s.supervisor) && FiledInTime(s)
    ensures GivesFrom(after, s.answers, HandshakeAction(s, a.encodeFails, a.timedOut).answers)
  {
    ReplyStays(before, after, INITIALIZE, Err(s.supervisor.error));
    FailingOne(after, s, INITIALIZE_ID, s.supervisor.error);
  }

  lemma FailOneGives(s: State, a: Action, before: iset<Cause>, after: iset<Cause>)
    requires a.SupervisorMoves? && s.supervisor.FailOne? && Learns(s, a, before, after)
    requires SupervisorFrom(before, s.supervisor)
    ensures GivesFrom(after, s.answers, ServeAction(s, a.encodeFails).answers)
  {
    var id, e := s.supervisor.id, s.supervisor.error;
    ReplyStays(before, after, INITIALIZE, Err(e));
    if s.pending.Has(id) { CommonError(after, INITIALIZE, s.pending.At(id), e); }
    FailingOne(after, s, id, e);
  }

  lemma RefusingGives(s: State, a: Action, before: iset<Cause>, after: iset<Cause>)
    requires a.SupervisorMoves? && (s.supervisor.Hold? || s.supervisor.Drain?) && Learns(s, a, before, after)
    requires FiledInTime(s)
    ensures GivesFrom(after, s.answers, SupervisorAction(s, a.encodeFails, a.timedOut).answers)
  {
    if !s.life.Alive? {
      assert Causes(s, a, Ending);
      if s.supervisor.Hold? { GivingOne(after, s.answers, s.supervisor.waiter, Err(Error.Closed)); }
      else if s.queue != [] && s.queue[0].Request? {
        GivingOne(after, s.answers, s.queue[0].waiter, Err(Error.Closed));
      }
    }
  }

  lemma StartAnswersNobody(s: State, encodeFails: bool, timedOut: bool)
    requires !s.supervisor.FailInitialize?
    ensures HandshakeAction(s, encodeFails, timedOut).answers == s.answers
  {}

  lemma ServingAnswersNobody(s: State, encodeFails: bool)
    requires !s.supervisor.FailOne? && !s.supervisor.Hold?
    ensures ServeAction(s, encodeFails).answers == s.answers
  {}

  lemma StoppingAnswersNobody(s: State)
    requires !s.supervisor.Drain?
    ensures ShutdownAction(s).answers == s.answers
  {}

  predicate IsAnswering(p: Supervisor) { p.FailInitialize? || p.FailOne? || p.Hold? || p.Drain? }

  lemma OthersGive(s: State, a: Action)
    requires (a.SupervisorMoves? ==> !IsAnswering(s.supervisor))
    requires !a.ReaderMoves? && !a.TimerMoves? && !a.TerminationMoves?
    ensures Step(s, a).answers == s.answers
  {
    match a
    case SupervisorMoves(e, o) => StartAnswersNobody(s, e, o); ServingAnswersNobody(s, e); StoppingAnswersNobody(s);
    case ClientMoves(w, step) => ClientLeaves(s, w, step);
    case CloserMoves(c) => CloserLeaves(s, c);
    case HandleDrops => DropLeaves(s);
    case WriterMoves(fails) => WriterLeaves(s, fails);
    case _ =>
  }

  lemma StepGives(s: State, a: Action, before: iset<Cause>, after: iset<Cause>)
    requires InHandFrom(before, s) && FiledInTime(s) && Learns(s, a, before, after)
    ensures GivesFrom(after, s.answers, Step(s, a).answers)
  {
    if a.ReaderMoves? { ReaderGives(s, a, before, after); }
    else if a.TimerMoves? { TimerGives(s, a, before, after); }
    else if a.TerminationMoves? { TerminationGives(s, a, before, after); }
    else if a.SupervisorMoves? && s.supervisor.FailInitialize? { FailureGives(s, a, before, after); }
    else if a.SupervisorMoves? && s.supervisor.FailOne? { FailOneGives(s, a, before, after); }
    else if a.SupervisorMoves? && (s.supervisor.Hold? || s.supervisor.Drain?) { RefusingGives(s, a, before, after); }
    else { OthersGive(s, a); }
  }

  // ---------------------------------------------------------------- what is in hand

  lemma ReaderStays(before: iset<Cause>, after: iset<Cause>, r: Reader)
    requires before <= after && ReaderFrom(before, r)
    ensures ReaderFrom(after, r)
  {}

  lemma ReadingLearns(s: State, a: Action, before: iset<Cause>, after: iset<Cause>)
    requires a.ReaderMoves? && s.reader.ReadingFrames? && Learns(s, a, before, after)
    ensures ReaderFrom(after, ReaderAction(s, a.input).reader)
  {
    match a.input
    case Response(id, success) => if s.pending.Has(id) { assert Causes(s, a, Answered(id, s.pending.At(id), success)); }
    case EndOfStream => assert Causes(s, a, StreamEnded);
    case ReadFailure => assert Causes(s, a, ReadFailed);
    case _ =>
  }

  lemma ReaderKnows(s: State, a: Action, before: iset<Cause>, after: iset<Cause>)
    requires ReaderFrom(before, s.reader) && Learns(s, a, before, after)
    ensures ReaderFrom(after, Step(s, a).reader)
  {
    ReaderStays(before, after, s.reader);
    if a.ReaderMoves? && s.reader.ReadingFrames? { ReadingLearns(s, a, before, after); }
    else if a.ReaderMoves? { ReaderMovesOn(s, a.input, after); }
    else { ReaderRests(s, a); }
  }

  lemma ReaderMovesOn(s: State, input: Input, known: iset<Cause>)
    requires !s.reader.ReadingFrames? && ReaderFrom(known, s.reader)
    ensures ReaderFrom(known, ReaderAction(s, input).reader)
  {}

  lemma ReaderRests(s: State, a: Action)
    requires !a.ReaderMoves?
    ensures Step(s, a).reader == s.reader
  {
    match a
    case SupervisorMoves(e, o) => SupervisorLeaves(s, e, o);
    case ClientMoves(w, step) => ClientLeaves(s, w, step);
    case CloserMoves(c) => CloserLeaves(s, c);
    case HandleDrops => DropLeaves(s);
    case WriterMoves(fails) => WriterLeaves(s, fails);
    case TimerMoves(overdue) => TimerLeaves(s, overdue);
    case TerminationMoves => TerminationLeaves(s);
    case _ =>
  }

  lemma TimerKnows(s: State, a: Action, before: iset<Cause>, after: iset<Cause>)
    requires TimerFrom(before, s.timer) && Learns(s, a, before, after)
    ensures TimerFrom(after, Step(s, a).timer)
  {
    if a.TimerMoves? { TimerLearns(s, a, before, after); }
    else if a.SupervisorMoves? && s.supervisor.Start? {} else { TimerRests(s, a); }
  }

  lemma TimerLearns(s: State, a: Action, before: iset<Cause>, after: iset<Cause>)
    requires a.TimerMoves? && TimerFrom(before, s.timer) && Learns(s, a, before, after)
    ensures TimerFrom(after, TimerAction(s, a.overdue).timer)
  {
    if s.timer.Sleeping? && IsOverdue(s.pending, a.overdue) {
      forall k | 0 <= k < |a.overdue| ensures Overdue(a.overdue[k], s.pending.At(a.overdue[k])) in after {
        assert Causes(s, a, Overdue(a.overdue[k], s.pending.At(a.overdue[k])));
      }
    }
  }

  lemma TimerRests(s: State, a: Action)
    requires !a.TimerMoves? && !(a.SupervisorMoves? && s.supervisor.Start?)
    ensures Step(s, a).timer == s.timer
  {
    match a
    case SupervisorMoves(e, o) => SupervisorLeaves(s, e, o);
    case ReaderMoves(input) => ReaderLeaves(s, input);
    case ClientMoves(w, step) => ClientLeaves(s, w, step);
    case CloserMoves(c) => CloserLeaves(s, c);
    case HandleDrops => DropLeaves(s);
    case WriterMoves(fails) => WriterLeaves(s, fails);
    case TerminationMoves => TerminationLeaves(s);
    case _ =>
  }

  lemma LifeKnows(s: State, a: Action, before: iset<Cause>, after: iset<Cause>)
    requires LifeFrom(before, s.life) && SupervisorFrom(before, s.supervisor) && ReaderFrom(before, s.reader)
    requires s.writer.WriterTerminating? ==> WriteFailed in before
    requires Learns(s, a, before, after)
    ensures LifeFrom(after, Step(s, a).life)
  {
    LifeStays(before, after, s.life);
    if a.SupervisorMoves? && s.supervisor.Terminating? {
      EndStays(before, after, s.supervisor.error);
    } else if a.ReaderMoves? && s.reader.ReaderTerminating? {
      assert EndFrom(after, s.reader.error);
    } else if a.WriterMoves? {
    } else if a.CloserMoves? {
    } else if a.TerminationMoves? {
    } else { LifeRests(s, a); }
  }

  lemma EndStays(before: iset<Cause>, after: iset<Cause>, e: Error)
    requires before <= after && EndFrom(before, e)
    ensures EndFrom(after, e)
  {
    if !e.Closed? { ReplyStays(before, after, INITIALIZE, Err(e)); }
  }

  lemma LifeStays(before: iset<Cause>, after: iset<Cause>, l: Life)
    requires before <= after && LifeFrom(before, l)
    ensures LifeFrom(after, l)
  {
    if l.Clearing? || l.Draining? { EndStays(before, after, l.error); }
  }

  lemma LifeRests(s: State, a: Action)
    requires !(a.SupervisorMoves? && s.supervisor.Terminating?) && !(a.ReaderMoves? && s.reader.ReaderTerminating?)
    requires !a.WriterMoves? && !a.CloserMoves? && !a.TerminationMoves?
    ensures Step(s, a).life == s.life
  {
    match a
    case SupervisorMoves(e, o) => SupervisorLeaves(s, e, o);
    case ReaderMoves(input) => ReaderLeaves(s, input);
    case ClientMoves(w, step) => ClientLeaves(s, w, step);
    case HandleDrops => DropLeaves(s);
    case TimerMoves(overdue) => TimerLeaves(s, overdue);
    case _ =>
  }

  lemma WriterKnows(s: State, a: Action, before: iset<Cause>, after: iset<Cause>)
    requires Learns(s, a, before, after)
    requires s.writer.WriterTerminating? || s.writer.WriterWinning? ==> WriteFailed in before
    ensures var w := Step(s, a).writer; w.WriterTerminating? || w.WriterWinning? ==> WriteFailed in after
  {
    if a.WriterMoves? {
      if a.fails { assert a == WriterMoves(true); }
      assert s.writer.WritingFrames? && a.fails && s.written < |s.outbound| ==> Causes(s, a, WriteFailed);
    } else { WriterRests(s, a); }
  }

  lemma WriterRests(s: State, a: Action)
    requires !a.WriterMoves?
    ensures Step(s, a).writer == s.writer
  {
    match a
    case SupervisorMoves(e, o) => SupervisorLeaves(s, e, o);
    case ReaderMoves(input) => ReaderLeaves(s, input);
    case ClientMoves(w, step) => ClientLeaves(s, w, step);
    case CloserMoves(c) => CloserLeaves(s, c);
    case HandleDrops => DropLeaves(s);
    case TimerMoves(overdue) => TimerLeaves(s, overdue);
    case TerminationMoves => TerminationLeaves(s);
    case _ =>
  }

  lemma CloseKnows(s: State, a: Action, before: iset<Cause>, after: iset<Cause>)
    requires CloseFrom(before, s) && Learns(s, a, before, after)
    ensures CloseFrom(after, Step(s, a))
  {
    if a.CloserMoves? || a.HandleDrops? { assert Causes(s, a, CloseAsked); }
    else if a.SupervisorMoves? { SupervisorClosesNothing(s, a); }
    else if a.ClientMoves? { ClientClosesNothing(s, a); }
    else { ClosesNothing(s, a); }
  }

  lemma ClientClosesNothing(s: State, a: Action)
    requires a.ClientMoves?
    ensures var t := Step(s, a);
      (Close in t.queue ==> Close in s.queue) && t.handleDropped == s.handleDropped && t.closers == s.closers
  {}

  lemma ClosesNothing(s: State, a: Action)
    requires !a.CloserMoves? && !a.HandleDrops? && !a.SupervisorMoves? && !a.ClientMoves?
    ensures var t := Step(s, a); t.queue == s.queue && t.handleDropped == s.handleDropped && t.closers == s.closers
  {
    match a
    case ReaderMoves(input) => ReaderLeaves(s, input);
    case WriterMoves(fails) => WriterLeaves(s, fails);
    case TimerMoves(overdue) => TimerLeaves(s, overdue);
    case TerminationMoves => TerminationLeaves(s);
    case _ =>
  }

  lemma SupervisorClosesNothing(s: State, a: Action)
    requires a.SupervisorMoves?
    ensures var t := Step(s, a);
      && (t.queue == s.queue || t.queue == Rest(s.queue))
      && t.handleDropped == s.handleDropped && t.closers == s.closers
  {
    SupervisorTakes(s, a.encodeFails, a.timedOut);
    SupervisorLeaves(s, a.encodeFails, a.timedOut);
  }

  lemma SupervisorStays(before: iset<Cause>, after: iset<Cause>, p: Supervisor)
    requires before <= after && SupervisorFrom(before, p)
    ensures SupervisorFrom(after, p)
  {
    match p
    case FailInitialize(e, _) => ReplyStays(before, after, INITIALIZE, Err(e));
    case ReportFailure(e, _) => ReplyStays(before, after, INITIALIZE, Err(e));
    case FailOne(_, e, _) => ReplyStays(before, after, INITIALIZE, Err(e));
    case Terminating(e, _) => EndStays(before, after, e);
    case _ =>
  }

  lemma SendingKnows(s: State, a: Action, before: iset<Cause>, after: iset<Cause>)
    requires a.SupervisorMoves? && (s.supervisor.SendInitialize? || s.supervisor.SendInitialized?)
    requires FiledInTime(s) && Learns(s, a, before, after)
    ensures SupervisorFrom(after, HandshakeAction(s, a.encodeFails, a.timedOut).supervisor)
  {
    if a.encodeFails { assert Causes(s, a, Unencodable); }
    if s.writer.WriterGone? { assert Causes(s, a, Ending); }
  }

  lemma AwaitingKnows(s: State, a: Action, before: iset<Cause>, after: iset<Cause>)
    requires a.SupervisorMoves? && s.supervisor.AwaitInitialize? && s.dropped[INITIALIZE] == 0
    requires AnswersFrom(before, s.answers) && Learns(s, a, before, after)
    ensures SupervisorFrom(after, HandshakeAction(s, a.encodeFails, a.timedOut).supervisor)
  {
    var got := Got(s, INITIALIZE);
    if got != [] {
      assert got[0] in Lookup(s.answers, INITIALIZE);
      ReplyStays(before, after, INITIALIZE, got[0]);
    } else if a.timedOut {
      assert Causes(s, a, HandshakeOverdue);
    }
  }

  lemma ReportingKnows(s: State, a: Action, known: iset<Cause>)
    requires a.SupervisorMoves? && BeforeServing(s.supervisor) && SupervisorFrom(known, s.supervisor)
    requires !s.supervisor.SendInitialize? && !s.supervisor.SendInitialized? && !s.supervisor.AwaitInitialize?
    ensures SupervisorFrom(known, HandshakeAction(s, a.encodeFails, a.timedOut).supervisor)
  {}

  lemma EncodingKnows(s: State, a: Action, before: iset<Cause>, after: iset<Cause>)
    requires a.SupervisorMoves? && s.supervisor.Encode? && FiledInTime(s) && Learns(s, a, before, after)
    ensures SupervisorFrom(after, ServeAction(s, a.encodeFails).supervisor)
  {
    if a.encodeFails { assert Causes(s, a, Unencodable); }
    if s.writer.WriterGone? { assert Causes(s, a, Ending); }
  }

  lemma ReceivingKnows(s: State, a: Action, known: iset<Cause>)
    requires a.SupervisorMoves? && CloseFrom(known, s) && SupervisorFrom(known, s.supervisor)
    requires s.supervisor.Loop? || s.supervisor.Receive? || s.supervisor.Hold? || s.supervisor.Insert?
             || s.supervisor.FailOne?
    ensures SupervisorFrom(known, ServeAction(s, a.encodeFails).supervisor)
  {
    if s.queue != [] { assert s.queue[0] in s.queue; }
  }

  lemma EndingKnows(s: State, known: iset<Cause>)
    requires (s.supervisor.Terminating? || s.supervisor.Winning?) && SupervisorFrom(known, s.supervisor)
    ensures SupervisorFrom(known, ShutdownAction(s).supervisor)
  {}

  lemma LeavingKnows(s: State, known: iset<Cause>)
    requires IsLeaving(s.supervisor) && !s.supervisor.Winning? && SupervisorFrom(known, s.supervisor)
    ensures SupervisorFrom(known, ShutdownAction(s).supervisor)
  {}

  lemma CloseStays(before: iset<Cause>, after: iset<Cause>, s: State)
    requires before <= after && CloseFrom(before, s)
    ensures CloseFrom(after, s)
  {}

  lemma SupervisorKnows(s: State, a: Action, before: iset<Cause>, after: iset<Cause>)
    requires InHandFrom(before, s) && AnswersFrom(before, s.answers) && FiledInTime(s) && s.dropped[INITIALIZE] == 0
    requires a.SupervisorMoves? && Learns(s, a, before, after)
    ensures SupervisorFrom(after, SupervisorAction(s, a.encodeFails, a.timedOut).supervisor)
  {
    SupervisorStays(before, after, s.supervisor);
    CloseStays(before, after, s);
    match s.supervisor
    case SendInitialize | SendInitialized => SendingKnows(s, a, before, after);
    case AwaitInitialize => AwaitingKnows(s, a, before, after);
    case Encode(_, _) => EncodingKnows(s, a, before, after);
    case Loop | Receive | Hold(_, _) | Insert(_, _) | FailOne(_, _, _) => ReceivingKnows(s, a, after);
    case Terminating(_, _) | Winning(_) => EndingKnows(s, after);
    case EmitClosed | SendClosed | Drain | CloseReceiver | Discard | Gone => LeavingKnows(s, after);
    case _ => ReportingKnows(s, a, after);
  }

  lemma SupervisorRests(s: State, a: Action)
    requires !a.SupervisorMoves?
    ensures Step(s, a).supervisor == s.supervisor
  {
    match a
    case ReaderMoves(input) => ReaderLeaves(s, input);
    case ClientMoves(w, step) => ClientLeaves(s, w, step);
    case CloserMoves(c) => CloserLeaves(s, c);
    case HandleDrops => DropLeaves(s);
    case WriterMoves(fails) => WriterLeaves(s, fails);
    case TimerMoves(overdue) => TimerLeaves(s, overdue);
    case TerminationMoves => TerminationLeaves(s);
    case _ =>
  }

  // ---------------------------------------------------------------- every run

  predicate WriteFailing(w: Writer) { w.WriterTerminating? || w.WriterWinning? }

  /** Everything said, and everything about to be said, goes back to something that happened. */
  ghost predicate Sourced(s: State, known: iset<Cause>) {
    && AnswersFrom(known, s.answers) && InHandFrom(known, s) && (WriteFailing(s.writer) ==> WriteFailed in known)
    && FiledInTime(s) && HandshakeApart(s)
  }

  lemma StepIsSourced(s: State, a: Action, before: iset<Cause>, after: iset<Cause>)
    requires Sourced(s, before) && Learns(s, a, before, after)
    ensures Sourced(Step(s, a), after)
  {
    var t := Step(s, a);
    StepGives(s, a, before, after);
    AnswersStay(before, after, s, t);
    ReaderKnows(s, a, before, after);
    TimerKnows(s, a, before, after);
    LifeKnows(s, a, before, after);
    WriterKnows(s, a, before, after);
    CloseKnows(s, a, before, after);
    if a.SupervisorMoves? {
      SupervisorKnows(s, a, before, after);
    } else {
      SupervisorRests(s, a);
      SupervisorStays(before, after, s.supervisor);
    }
    StepKeepsFiled(s, before, a);
    StepKeepsApart(s, a);
  }

  lemma LearnsNext(actions: seq<Action>, last: Action)
    ensures Learns(Run(actions), last, Known(actions), Known(actions + [last]))
  {
    forall c | c in Known(actions) || Causes(Run(actions), last, c) ensures c in Known(actions + [last]) {
      KnownGrows(actions, last, c);
    }
  }

  lemma {:induction false} RunIsSourced(actions: seq<Action>)
    ensures Sourced(Run(actions), Known(actions))
  {
    if actions != [] {
      var init, last := actions[..|actions| - 1], actions[|actions| - 1];
      RunIsSourced(init);
      LearnsNext(init, last);
      StepIsSourced(Run(init), last, Known(init), Known(init + [last]));
      assert actions == init + [last];
    }
  }

  /** In every interleaving each answer goes back to what happened before it: a result to the response
      with a result that found the request filed for this waiter, an RPC error to the response with an
      error that did, a timeout to this request's turn with the timeouts, anything else to the
      failure it names. */
  lemma AnswersHaveOrigins(actions: seq<Action>, w: Waiter, reply: Reply)
    requires reply in Got(Run(actions), w)
    ensures ReplyFrom(Known(actions), w, reply)
  {
    RunIsSourced(actions);
  }

  /** The wire carries `initialized` or a request only after a response with a result found the
      handshake filed. */
  lemma WireNeedsAnswer(actions: seq<Action>, i: nat)
    requires i < |Run(actions).outbound| && !Run(actions).outbound[i].Initialize?
    ensures Happened(actions, Answered(INITIALIZE_ID, INITIALIZE, true))
  {
    WireOrder(actions);
    var s := Run(actions);
    assert Wire(s.outbound, Accepted(s) && Got(s, INITIALIZE) == [Ok(INITIALIZE_ID)]);
    AnswersHaveOrigins(actions, INITIALIZE, Ok(INITIALIZE_ID));
  }

  /** And nobody sees the ready flag set before that. */
  lemma ReadyNeedsAnswer(actions: seq<Action>)
    requires Run(actions).ready
    ensures Happened(actions, Answered(INITIALIZE_ID, INITIALIZE, true))
  {
    ReadyMeansAccepted(actions);
    WireNeedsAnswer(actions, 1);
  }
}
