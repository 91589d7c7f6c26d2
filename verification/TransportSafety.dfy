/** Every interleaving of the transport's threads is safe.

    Custody of the reply senders is proved by refinement: each action of a thread is one
    operation of the abstract desk. The handshake, event and shutdown invariants are direct.
 */
module TransportSafety {
  import opened Common
  import opened Transport
  import opened ReplyDesk

  // ---------------------------------------------------------------- the transport as a desk

  ghost function Ids(calls: Table<Call>, started: bool): Table<nat> {
    var posted := map w | w in calls.entries && calls.entries[w].Sent? :: calls.entries[w].id;
    Table(if started then posted[INITIALIZE := INITIALIZE_ID] else posted)
  }

  function HandOf(p: Supervisor): Option<Entry> {
    if p.Hold? || p.Insert? then Some((p.id, p.waiter)) else None
  }

  function EncodingOf(p: Supervisor): Option<Entry> {
    if p.Encode? then Some((p.id, p.waiter)) else None
  }

  function DeliveringOf(p: Reader): Option<(Entry, Reply)> {
    if p.Delivering? then Some(((p.id, p.waiter), p.reply)) else None
  }

  function ExpiringOf(p: Timer): seq<Entry> { if p.Expiring? then p.entries else [] }

  ghost function DeskOf(s: State): Desk {
    Desk(Ids(s.calls, !s.supervisor.Start?), s.queue, HandOf(s.supervisor), EncodingOf(s.supervisor), s.pending,
         DeliveringOf(s.reader), ExpiringOf(s.timer), s.answers, s.dropped, s.outbound)
  }

  /** Ids come from the shared counter: at least 2, below it, and never handed out twice. */
  ghost predicate IdsFresh(calls: Table<Call>, nextId: nat) {
    && 2 <= nextId <= U64_MAX
    && INITIALIZE !in calls.entries
    && (forall w :: w in calls.entries && calls.entries[w].HasId() ==> 2 <= calls.entries[w].id < nextId)
    && (forall v, w :: v in calls.entries && w in calls.entries && v != w
                       && calls.entries[v].HasId() && calls.entries[w].HasId() ==>
          calls.entries[v].id != calls.entries[w].id)
  }

  ghost predicate Refines(s: State) {
    IdsFresh(s.calls, s.nextId) && Sound(DeskOf(s)) && (s.supervisor.Start? ==> s.timer.NotStarted?)
  }

  // ---------------------------------------------------------------- which operation an action is

  function FailPendingOp(s: State, id: nat, error: Error): Operation {
    if s.pending.Has(id) then AnswerPending(id, error) else Stay
  }

  function HeadOp(s: State, request: Operation): Operation {
    if s.queue == [] then Stay else if s.queue[0].Close? then SkipClose else request
  }

  function SupervisorOp(s: State, encodeFails: bool): Operation {
    var sends := !encodeFails && !s.writer.WriterGone?;
    match s.supervisor
    case Start => if s.pending.Has(INITIALIZE_ID) then Stay else OpenInitialize
    case SendInitialize => if sends then Announce(Initialize) else Stay
    case SendInitialized => if sends then Announce(Initialized) else Stay
    case FailInitialize(error, _) => FailPendingOp(s, INITIALIZE_ID, error)
    case Receive => HeadOp(s, TakeUp)
    case Hold(_, _) => if s.life.Alive? then Stay else AnswerHand(Error.Closed)
    case Insert(id, _) => if s.pending.Has(id) then DropHand else FileHand
    case Encode(_, _) => if sends then SendFrame else GiveUpFrame
    case FailOne(id, error, _) => FailPendingOp(s, id, error)
    case Drain => HeadOp(s, AnswerHead(Error.Closed))
    case Discard => HeadOp(s, DropHead)
    case _ => Stay
  }

  lemma SupervisorEnabled(s: State, encodeFails: bool)
    requires Refines(s)
    ensures Enabled(DeskOf(s), SupervisorOp(s, encodeFails))
  {
    if s.supervisor.Start? { assert PendingFiled(DeskOf(s).ids, s.pending); }
  }

  /** `t` is `s` after one enabled operation on its desk. */
  ghost predicate Moves(s: State, t: State, op: Operation) {
    Enabled(DeskOf(s), op) && DeskOf(t) == Apply(DeskOf(s), op)
  }

  /** The same, by a thread that takes no part in numbering calls or starting up. */
  ghost predicate Works(s: State, t: State, op: Operation) {
    && Moves(s, t, op)
    && t.calls == s.calls && t.nextId == s.nextId
    && (t.supervisor.Start? ==> s.supervisor.Start? && t.timer == s.timer)
  }

  lemma StartMoves(s: State, encodeFails: bool, timedOut: bool)
    requires s.supervisor.Start? && s.timer.NotStarted? && Enabled(DeskOf(s), OpenInitialize)
    ensures Works(s, HandshakeAction(s, encodeFails, timedOut), OpenInitialize)
  {
    assert Ids(s.calls, true) == Ids(s.calls, false).Put(INITIALIZE, INITIALIZE_ID);
  }

  lemma SendInitializeMoves(s: State, encodeFails: bool, timedOut: bool)
    requires s.supervisor.SendInitialize?
    ensures Works(s, HandshakeAction(s, encodeFails, timedOut), SupervisorOp(s, encodeFails))
  {}

  lemma AwaitMoves(s: State, encodeFails: bool, timedOut: bool)
    requires s.supervisor.AwaitInitialize?
    ensures Works(s, HandshakeAction(s, encodeFails, timedOut), SupervisorOp(s, encodeFails))
  {}

  lemma FailInitializeMoves(s: State, encodeFails: bool, timedOut: bool)
    requires s.supervisor.FailInitialize?
    ensures Works(s, HandshakeAction(s, encodeFails, timedOut), SupervisorOp(s, encodeFails))
  {}

  lemma ReportFailureMoves(s: State, encodeFails: bool, timedOut: bool)
    requires s.supervisor.ReportFailure?
    ensures Works(s, HandshakeAction(s, encodeFails, timedOut), SupervisorOp(s, encodeFails))
  {}

  lemma SendInitializedMoves(s: State, encodeFails: bool, timedOut: bool)
    requires s.supervisor.SendInitialized?
    ensures Works(s, HandshakeAction(s, encodeFails, timedOut), SupervisorOp(s, encodeFails))
  {}

  lemma ReadyMoves(s: State, encodeFails: bool, timedOut: bool)
    requires s.supervisor.Register? || s.supervisor.MarkReady? || s.supervisor.EmitReady?
    ensures Works(s, HandshakeAction(s, encodeFails, timedOut), SupervisorOp(s, encodeFails))
  {}

  lemma LoopMoves(s: State, encodeFails: bool)
    requires s.supervisor.Loop?
    ensures Works(s, ServeAction(s, encodeFails), SupervisorOp(s, encodeFails))
  {}

  lemma ReceiveMoves(s: State, encodeFails: bool)
    requires s.supervisor.Receive?
    ensures Works(s, ServeAction(s, encodeFails), SupervisorOp(s, encodeFails))
  {}

  lemma HoldMoves(s: State, encodeFails: bool)
    requires s.supervisor.Hold?
    ensures Works(s, ServeAction(s, encodeFails), SupervisorOp(s, encodeFails))
  {}

  lemma InsertMoves(s: State, encodeFails: bool)
    requires s.supervisor.Insert?
    ensures Works(s, ServeAction(s, encodeFails), SupervisorOp(s, encodeFails))
  {}

  lemma EncodeMoves(s: State, encodeFails: bool)
    requires s.supervisor.Encode?
    ensures Works(s, ServeAction(s, encodeFails), SupervisorOp(s, encodeFails))
  {}

  lemma FailOneMoves(s: State, encodeFails: bool)
    requires s.supervisor.FailOne?
    ensures Works(s, ServeAction(s, encodeFails), SupervisorOp(s, encodeFails))
  {}

  lemma TerminatingMoves(s: State, encodeFails: bool)
    requires s.supervisor.Terminating?
    ensures Works(s, ShutdownAction(s), SupervisorOp(s, encodeFails))
  {}

  lemma WinningMoves(s: State, encodeFails: bool)
    requires s.supervisor.Winning?
    ensures Works(s, ShutdownAction(s), SupervisorOp(s, encodeFails))
  {}

  lemma EmitClosedMoves(s: State, encodeFails: bool)
    requires s.supervisor.EmitClosed?
    ensures Works(s, ShutdownAction(s), SupervisorOp(s, encodeFails))
  {}

  lemma FinishMoves(s: State, encodeFails: bool)
    requires s.supervisor.SendClosed? || s.supervisor.CloseReceiver? || s.supervisor.Gone?
    ensures Works(s, ShutdownAction(s), SupervisorOp(s, encodeFails))
  {}

  lemma DrainMoves(s: State, encodeFails: bool)
    requires s.supervisor.Drain?
    ensures Works(s, ShutdownAction(s), SupervisorOp(s, encodeFails))
  {}

  lemma DiscardMoves(s: State, encodeFails: bool)
    requires s.supervisor.Discard?
    ensures Works(s, ShutdownAction(s), SupervisorOp(s, encodeFails))
  {}

  /** Each supervisor step is the desk operation chosen above. */
  lemma SupervisorWorks(s: State, encodeFails: bool, timedOut: bool)
    requires Refines(s)
    ensures Works(s, SupervisorAction(s, encodeFails, timedOut), SupervisorOp(s, encodeFails))
  {
    SupervisorEnabled(s, encodeFails);
    match s.supervisor
    case Start => StartMoves(s, encodeFails, timedOut);
    case SendInitialize => SendInitializeMoves(s, encodeFails, timedOut);
    case AwaitInitialize => AwaitMoves(s, encodeFails, timedOut);
    case FailInitialize(_, _) => FailInitializeMoves(s, encodeFails, timedOut);
    case ReportFailure(_, _) => ReportFailureMoves(s, encodeFails, timedOut);
    case SendInitialized => SendInitializedMoves(s, encodeFails, timedOut);
    case Register => ReadyMoves(s, encodeFails, timedOut);
    case MarkReady => ReadyMoves(s, encodeFails, timedOut);
    case EmitReady => ReadyMoves(s, encodeFails, timedOut);
    case Loop => LoopMoves(s, encodeFails);
    case Receive => ReceiveMoves(s, encodeFails);
    case Hold(_, _) => HoldMoves(s, encodeFails);
    case Insert(_, _) => InsertMoves(s, encodeFails);
    case Encode(_, _) => EncodeMoves(s, encodeFails);
    case FailOne(_, _, _) => FailOneMoves(s, encodeFails);
    case Terminating(_, _) => TerminatingMoves(s, encodeFails);
    case Winning(_) => WinningMoves(s, encodeFails);
    case EmitClosed => EmitClosedMoves(s, encodeFails);
    case SendClosed => FinishMoves(s, encodeFails);
    case CloseReceiver => FinishMoves(s, encodeFails);
    case Gone => FinishMoves(s, encodeFails);
    case Drain => DrainMoves(s, encodeFails);
    case Discard => DiscardMoves(s, encodeFails);
  }

  function ReaderOp(s: State, input: Input): Operation {
    match s.reader
    case ReadingFrames =>
      if input.Response? && s.pending.Has(input.id) then
        PickUp(input.id, if input.success then Ok(input.id) else Err(Rpc))
      else Stay
    case Delivering(_, _, _) => Deliver
    case _ => Stay
  }

  lemma PickingMoves(s: State, input: Input)
    requires s.reader.ReadingFrames? && input.Response? && s.pending.Has(input.id)
    ensures Works(s, ReaderAction(s, input), ReaderOp(s, input))
  {}

  lemma NotingMoves(s: State, input: Input)
    requires s.reader.ReadingFrames? && !(input.Response? && s.pending.Has(input.id))
    ensures Works(s, ReaderAction(s, input), Stay)
  {}

  lemma ReadingMoves(s: State, input: Input)
    requires s.reader.ReadingFrames?
    ensures Works(s, ReaderAction(s, input), ReaderOp(s, input))
  {
    if input.Response? && s.pending.Has(input.id) { PickingMoves(s, input); } else { NotingMoves(s, input); }
  }

  lemma DeliveringMoves(s: State, input: Input)
    requires s.reader.Delivering?
    ensures Works(s, ReaderAction(s, input), ReaderOp(s, input))
  {}

  lemma EndingMoves(s: State, input: Input)
    requires !s.reader.ReadingFrames? && !s.reader.Delivering?
    ensures Works(s, ReaderAction(s, input), ReaderOp(s, input))
  {}

  function TimerOp(s: State, overdue: seq<nat>): Operation {
    match s.timer
    case Sleeping =>
      if IsOverdue(s.pending, overdue) then Expire(overdue) else Stay
    case Expiring(entries) => if entries == [] then Stay else AnswerExpired
    case _ => Stay
  }

  lemma TimerSweeps(s: State, overdue: seq<nat>)
    requires !s.timer.Expiring? && (s.supervisor.Start? ==> s.timer.NotStarted?)
    ensures Works(s, TimerAction(s, overdue), TimerOp(s, overdue))
  {}

  lemma ExpiringMoves(s: State, overdue: seq<nat>)
    requires s.timer.Expiring? && !s.supervisor.Start?
    ensures Works(s, TimerAction(s, overdue), TimerOp(s, overdue))
  {}

  function ClientOp(s: State, w: Waiter, step: ClientStep): Operation {
    if s.calls.Has(w) && s.calls.At(w).Admitted? && step.Post? && s.receiverOpen then
      PostRequest(s.calls.At(w).id, w)
    else
      Stay
  }

  lemma ClientEnabled(s: State, w: Waiter, step: ClientStep)
    requires Refines(s)
    ensures Enabled(DeskOf(s), ClientOp(s, w, step))
  {}

  lemma PostMoves(s: State, w: Waiter)
    requires Enabled(DeskOf(s), ClientOp(s, w, Post)) && ClientOp(s, w, Post).PostRequest? && w != INITIALIZE
    ensures Moves(s, ClientAction(s, w, Post), ClientOp(s, w, Post))
  {
    var started := !s.supervisor.Start?;
    assert Ids(s.calls.Put(w, Sent(s.calls.At(w).id)), started) == Ids(s.calls, started).Put(w, s.calls.At(w).id);
  }

  lemma UnsentKept(calls: Table<Call>, w: Waiter, call: Call, started: bool)
    requires w in calls.entries && calls.entries[w].Sent? ==> call == calls.entries[w]
    requires call.Sent? ==> w in calls.entries && calls.entries[w] == call
    ensures Ids(calls.Put(w, call), started) == Ids(calls, started)
  {}

  lemma ClientWorks(s: State, w: Waiter, step: ClientStep)
    requires Enabled(DeskOf(s), ClientOp(s, w, step)) && !s.calls.Has(INITIALIZE)
    ensures Moves(s, ClientAction(s, w, step), ClientOp(s, w, step))
  {
    if ClientOp(s, w, step).PostRequest? {
      PostMoves(s, w);
    } else {
      var t := ClientAction(s, w, step);
      if t.calls.Has(w) { UnsentKept(s.calls, w, t.calls.At(w), !s.supervisor.Start?); }
      assert t.calls == s.calls || t.calls == s.calls.Put(w, t.calls.At(w));
    }
  }

  function CloserOp(s: State, c: nat): Operation {
    if s.closers.Has(c) && s.closers.At(c).Checked? && s.receiverOpen then PostClose else Stay
  }

  lemma CloserWorks(s: State, c: nat)
    ensures Works(s, CloserAction(s, c), CloserOp(s, c))
  {}

  lemma WriterWorks(s: State, fails: bool)
    ensures Works(s, WriterAction(s, fails), Stay)
  {}

  function TerminateOp(s: State): Operation {
    if s.life.Draining? then AnswerAllPending(s.life.error) else Stay
  }

  lemma TerminateMoves(s: State)
    ensures Works(s, TerminateStep(s), TerminateOp(s))
  {}

  lemma DropMoves(s: State)
    ensures Works(s, DropHandle(s), Stay)
  {}

  lemma PutKeepsIds(calls: Table<Call>, nextId: nat, w: Waiter, call: Call)
    requires IdsFresh(calls, nextId) && w != INITIALIZE
    requires call.HasId() ==> w in calls.entries && calls.entries[w].HasId() && calls.entries[w].id == call.id
    ensures IdsFresh(calls.Put(w, call), nextId)
  {}

  lemma NumberingKeepsIds(calls: Table<Call>, nextId: nat, w: Waiter)
    requires IdsFresh(calls, nextId) && w != INITIALIZE && nextId < U64_MAX
    ensures IdsFresh(calls.Put(w, Numbered(nextId)), nextId + 1)
  {}

  lemma LoadKeepsIds(s: State, w: Waiter)
    requires IdsFresh(s.calls, s.nextId)
    ensures IdsFresh(ClientAction(s, w, Load).calls, ClientAction(s, w, Load).nextId)
  {
    if w != INITIALIZE { PutKeepsIds(s.calls, s.nextId, w, Allocating(s.nextId)); }
  }

  lemma ExchangeKeepsIds(s: State, w: Waiter, spurious: bool)
    requires IdsFresh(s.calls, s.nextId) && s.calls.Has(w) && s.calls.At(w).Allocating?
    ensures var t := ClientAction(s, w, CompareExchange(spurious)); IdsFresh(t.calls, t.nextId)
  {
    var seen := s.calls.At(w).seen;
    if seen == U64_MAX { PutKeepsIds(s.calls, s.nextId, w, Refused); }
    else if seen == s.nextId && !spurious { NumberingKeepsIds(s.calls, s.nextId, w); }
    else { PutKeepsIds(s.calls, s.nextId, w, Allocating(s.nextId)); }
  }

  lemma NumberedKeepsIds(s: State, w: Waiter, step: ClientStep)
    requires IdsFresh(s.calls, s.nextId) && s.calls.Has(w) && !step.Load?
    requires !s.calls.At(w).Allocating? || !step.CompareExchange?
    ensures var t := ClientAction(s, w, step); IdsFresh(t.calls, t.nextId)
  {
    var t := ClientAction(s, w, step);
    assert t.nextId == s.nextId && t.calls == s.calls.Put(w, t.calls.At(w));
    PutKeepsIds(s.calls, s.nextId, w, t.calls.At(w));
  }

  lemma ClientKeepsIds(s: State, w: Waiter, step: ClientStep)
    requires IdsFresh(s.calls, s.nextId)
    ensures IdsFresh(ClientAction(s, w, step).calls, ClientAction(s, w, step).nextId)
  {
    if step.Load? { LoadKeepsIds(s, w); }
    else if s.calls.Has(w) {
      if s.calls.At(w).Allocating? && step.CompareExchange? { ExchangeKeepsIds(s, w, step.spurious); }
      else { NumberedKeepsIds(s, w, step); }
    }
  }

  lemma WorkKeepsRefinement(s: State, t: State, op: Operation)
    requires Refines(s) && Works(s, t, op)
    ensures Refines(t)
  {
    ApplyKeepsSound(DeskOf(s), op);
  }

  /** One action of any thread keeps the refinement. */
  lemma StepRefines(s: State, action: Action)
    requires Refines(s)
    ensures Refines(Step(s, action))
  {
    var t := Step(s, action);
    match action
    case ClientMoves(w, step) =>
      ClientKeepsIds(s, w, step);
      ClientEnabled(s, w, step);
      ClientWorks(s, w, step);
      ApplyKeepsSound(DeskOf(s), ClientOp(s, w, step));
    case CloserMoves(c) => CloserWorks(s, c); WorkKeepsRefinement(s, t, CloserOp(s, c));
    case HandleDrops => DropMoves(s); WorkKeepsRefinement(s, t, Stay);
    case SupervisorMoves(e, o) => SupervisorWorks(s, e, o); WorkKeepsRefinement(s, t, SupervisorOp(s, e));
    case ReaderMoves(input) => ReaderWorks(s, input); WorkKeepsRefinement(s, t, ReaderOp(s, input));
    case WriterMoves(fails) => WriterWorks(s, fails); WorkKeepsRefinement(s, t, Stay);
    case TimerMoves(overdue) => TimerWorks(s, overdue); WorkKeepsRefinement(s, t, TimerOp(s, overdue));
    case TerminationMoves => TerminateMoves(s); WorkKeepsRefinement(s, t, TerminateOp(s));
  }

  lemma ReaderWorks(s: State, input: Input)
    ensures Works(s, ReaderAction(s, input), ReaderOp(s, input))
  {
    if s.reader.ReadingFrames? { ReadingMoves(s, input); }
    else if s.reader.Delivering? { DeliveringMoves(s, input); }
    else { EndingMoves(s, input); }
  }

  lemma TimerWorks(s: State, overdue: seq<nat>)
    requires s.supervisor.Start? ==> s.timer.NotStarted?
    ensures Works(s, TimerAction(s, overdue), TimerOp(s, overdue))
  {
    if s.timer.Expiring? { ExpiringMoves(s, overdue); } else { TimerSweeps(s, overdue); }
  }
}
