/** The stdio JSON-RPC transport as a concurrent state machine.

    Four threads (supervisor, reader, writer, timeouts) and any number of client calls and close
    calls share atomics, a locked pending map and channels. One action is one atomic access by
    one of them. An action that is not enabled leaves the state unchanged, so an interleaving is
    any finite sequence of actions.
 */
module Transport {
  import opened Common

  /** One reply sender and its receiver: 0 for `initialize`, otherwise a client call. */
  type Waiter = nat

  const INITIALIZE: Waiter := 0
  const INITIALIZE_ID: nat := 1

  /** A map keyed by numbers: request ids, waiters or callers. */
  datatype Table<+V> = Table(entries: map<nat, V>) {
    predicate Has(key: nat) { key in entries }

    function At(key: nat): V
      requires Has(key)
    {
      entries[key]
    }

    function Put(key: nat, value: V): Table<V> { Table(entries[key := value]) }

    function Remove(key: nat): Table<V> { Table(entries - {key}) }
  }

  datatype Error = Closed | Eof | Timeout(id: nat) | Io | Rpc | LineTooLong | DuplicateId

  /** What arrives at a waiter; `Ok` carries the id written in the response. */
  datatype Reply = Ok(id: nat) | Err(error: Error)

  datatype Command = Request(id: nat, waiter: Waiter) | Close

  /** A frame handed to the writer; the waiter is the call it was built for. */
  datatype Message = Initialize | Initialized | RequestFrame(id: nat, waiter: Waiter)

  datatype Event =
    | Notification
    | UnexpectedResponse(id: nat)
    | ProtocolError(error: Error)
    | EofEvent
    | Ready
    | ClosedEvent
    | IoErrorEvent
    | StartupFailed(error: Error)

  datatype Actor = Supervising | Reading | Writing | Closing(caller: nat)

  /** The `alive` flag and the progress of the one `terminate` call that cleared it. */
  datatype Life =
    | Alive
    | Clearing(winner: Actor, error: Error)
    | Draining(winner: Actor, error: Error)
    | Dead(winner: Actor)

  datatype Call =
    | Allocating(seen: nat)
    | Numbered(id: nat)
    | Admitted(id: nat)
    | Sent(id: nat)
    | Refused
    | RefusedLate(id: nat)
  {
    /** An id was handed out, whether or not the call was refused after that. */
    predicate HasId() { Numbered? || Admitted? || Sent? || RefusedLate? }

    predicate IsOver() { Sent? || Refused? || RefusedLate? }
  }

  datatype After = ThenDrain | ThenLeave | ThenEmitClosed

  datatype Supervisor =
    | Start
    | Register
    | SendInitialize
    | AwaitInitialize
    | FailInitialize(error: Error, drain: bool)
    | ReportFailure(error: Error, drain: bool)
    | SendInitialized
    | MarkReady
    | EmitReady
    | Loop
    | Receive
    | Hold(id: nat, waiter: Waiter)
    | Insert(id: nat, waiter: Waiter)
    | Encode(id: nat, waiter: Waiter)
    | FailOne(id: nat, error: Error, fatal: bool)
    | Terminating(error: Error, after: After)
    | Winning(after: After)
    | EmitClosed
    | SendClosed
    | Drain
    | CloseReceiver
    | Discard
    | Gone

  datatype Reader =
    | Waiting
    | Unregistered
    | ReadingFrames
    | Delivering(waiter: Waiter, id: nat, reply: Reply)
    | ReaderTerminating(error: Error)
    | ReaderWinning(error: Error)
    | ReaderGone

  datatype Writer = WritingFrames | WriterTerminating | WriterWinning | WriterGone

  datatype Timer = NotStarted | Watching | Sleeping | Expiring(entries: seq<(nat, Waiter)>) | TimerGone

  datatype Closer = Checked | CloserTerminating | CloserWinning | CloserEmitting | CloserSending | CloserDone

  datatype State = State(
    life: Life,
    ready: bool,
    registered: bool,
    closedBy: Option<Actor>,
    nextId: nat,
    calls: Table<Call>,
    closers: Table<Closer>,
    handleDropped: bool,
    queue: seq<Command>,
    receiverOpen: bool,
    pending: Table<Waiter>,
    supervisor: Supervisor,
    reader: Reader,
    writer: Writer,
    timer: Timer,
    outbound: seq<Message>,
    written: nat,
    events: seq<Event>,
    answers: Table<seq<Reply>>,
    dropped: multiset<Waiter>)

  const INITIAL := State(Alive, false, false, None, 2, Table(map[]), Table(map[]), false, [], true, Table(map[]),
                         Start, Waiting, WritingFrames, NotStarted, [], 0, [], Table(map[]), multiset{})

  function Lookup(answers: Table<seq<Reply>>, w: Waiter): seq<Reply> {
    if answers.Has(w) then answers.At(w) else []
  }

  /** Everything a waiter has received so far. */
  function Got(s: State, w: Waiter): seq<Reply> { Lookup(s.answers, w) }

  // ---------------------------------------------------------------- shared operations

  function Give(answers: Table<seq<Reply>>, w: Waiter, reply: Reply): Table<seq<Reply>> {
    answers.Put(w, Lookup(answers, w) + [reply])
  }

  function GiveAll(answers: Table<seq<Reply>>, waiters: set<Waiter>, reply: Reply): (all: Table<seq<Reply>>)
    ensures forall w :: Lookup(all, w) == Lookup(answers, w) + (if w in waiters then [reply] else [])
  {
    Table(map w | w in answers.entries.Keys + waiters :: Lookup(answers, w) + (if w in waiters then [reply] else []))
  }

  function Answer(s: State, w: Waiter, reply: Reply): State { s.(answers := Give(s.answers, w, reply)) }

  /** `fail_pending`: answers and forgets the entry if it is still there. */
  function FailPending(s: State, id: nat, error: Error): State {
    s.(answers := if s.pending.Has(id) then Give(s.answers, s.pending.At(id), Err(error)) else s.answers,
       pending := if s.pending.Has(id) then s.pending.Remove(id) else s.pending)
  }

  function Emit(s: State, event: Event): State { s.(events := s.events + [event]) }

  /** The winner of the `alive` swap clears `ready`, then answers and empties the pending map. */
  function TerminateStep(s: State): State {
    match s.life
    case Clearing(winner, error) => s.(ready := false, life := Draining(winner, error))
    case Draining(winner, error) => 
      s.(answers := GiveAll(s.answers, s.pending.entries.Values, Err(error)), pending := Table(map[]),
        life := Dead(winner))
    case _ => s
  }

  // ---------------------------------------------------------------- clients

  datatype ClientStep = Load | CompareExchange(spurious: bool) | Admit(encodes: bool) | Post

  function ClientAction(s: State, w: Waiter, step: ClientStep): State {
    if step.Load? then
      if s.calls.Has(w) || w == INITIALIZE || s.handleDropped then s
        else s.(calls := s.calls.Put(w, Allocating(s.nextId)))
    else if !s.calls.Has(w) then s
    else
      var call := s.calls.At(w);
      var (next, nextId, queue) :=
        match (call, step)
        case (Allocating(seen), CompareExchange(spurious)) =>
          if seen == U64_MAX then (Refused, s.nextId, s.queue)
          else if seen == s.nextId && !spurious then (Numbered(seen), seen + 1, s.queue)
          else (Allocating(s.nextId), s.nextId, s.queue)
        case (Numbered(id), Admit(encodes)) =>
          (if s.life.Alive? && encodes then Admitted(id) else RefusedLate(id), s.nextId, s.queue)
        case (Admitted(id), Post) =>
          if s.receiverOpen then (Sent(id), s.nextId, s.queue + [Request(id, w)])
          else (RefusedLate(id), s.nextId, s.queue)
        case _ => (call, s.nextId, s.queue);
      s.(calls := s.calls.Put(w, next), nextId := nextId, queue := queue)
  }

  /** `close()`: announces the close itself even though the supervisor will do so as well. */
  function CloserAction(s: State, c: nat): State {
    if !s.closers.Has(c) then
      if s.handleDropped || !s.life.Alive? then s else s.(closers := s.closers.Put(c, Checked))
    else
      var (next, queue, life, closedBy, events) :=
        match s.closers.At(c)
        case Checked =>
          if s.receiverOpen then (CloserEmitting, s.queue + [Close], s.life, s.closedBy, s.events)
          else (CloserTerminating, s.queue, s.life, s.closedBy, s.events)
        case CloserTerminating =>
          if s.life.Alive? then (CloserWinning, s.queue, Clearing(Closing(c), Error.Closed), s.closedBy, s.events)
          else (CloserEmitting, s.queue, s.life, s.closedBy, s.events)
        case CloserWinning =>
          (if s.life.Dead? then CloserEmitting else CloserWinning, s.queue, s.life, s.closedBy, s.events)
        case CloserEmitting =>
          if s.closedBy.None? then (CloserSending, s.queue, s.life, Some(Closing(c)), s.events)
          else (CloserDone, s.queue, s.life, s.closedBy, s.events)
        case CloserSending => (CloserDone, s.queue, s.life, s.closedBy, s.events + [ClosedEvent])
        case CloserDone => (CloserDone, s.queue, s.life, s.closedBy, s.events);
      s.(closers := s.closers.Put(c, next), queue := queue, life := life, closedBy := closedBy, events := events)
  }

  /** The transport handle goes away only when no call is borrowing it. */
  function DropHandle(s: State): State {
    if (forall w | w in s.calls.entries :: s.calls.At(w).IsOver())
       && (forall c | c in s.closers.entries :: s.closers.At(c).CloserDone?)
    then s.(handleDropped := true) else s
  }

  // ---------------------------------------------------------------- supervisor

  function Continue(after: After): Supervisor {
    match after
    case ThenDrain => Drain
    case ThenLeave => CloseReceiver
    case ThenEmitClosed => EmitClosed
  }

  function HandshakeAction(s: State, encodeFails: bool, timedOut: bool): State {
    match s.supervisor
    case Start =>
      var duplicate := s.pending.Has(INITIALIZE_ID);
      s.(pending := if duplicate then s.pending else s.pending.Put(INITIALIZE_ID, INITIALIZE),
         timer := Watching,
         events := if duplicate then s.events + [StartupFailed(DuplicateId)] else s.events,
         supervisor := if duplicate then Terminating(Error.Closed, ThenLeave) else Register)
    case Register => s.(registered := true, supervisor := SendInitialize)
    case SendInitialize =>
      var sends := !encodeFails && !s.writer.WriterGone?;
      s.(outbound := if sends then s.outbound + [Initialize] else s.outbound,
         supervisor := if sends then AwaitInitialize
                       else FailInitialize(if encodeFails then LineTooLong else Error.Closed, false))
    case AwaitInitialize =>
      var got := Got(s, INITIALIZE);
      s.(supervisor :=
           if got != [] then (if got[0].Ok? then SendInitialized else FailInitialize(got[0].error, true))
           else if s.dropped[INITIALIZE] > 0 then FailInitialize(Eof, true)
           else if timedOut then FailInitialize(Timeout(INITIALIZE_ID), true)
           else AwaitInitialize)
    case FailInitialize(error, drain) =>
      FailPending(s, INITIALIZE_ID, error).(supervisor := ReportFailure(error, drain))
    case ReportFailure(error, drain) =>
      Emit(s, StartupFailed(error)).(supervisor := Terminating(error, if drain then ThenDrain else ThenLeave))
    case SendInitialized =>
      var sends := !encodeFails && !s.writer.WriterGone?;
      s.(outbound := if sends then s.outbound + [Initialized] else s.outbound,
         supervisor := if sends then MarkReady
                       else ReportFailure(if encodeFails then LineTooLong else Error.Closed, true))
    case MarkReady => s.(ready := true, supervisor := EmitReady)
    case EmitReady => Emit(s, Ready).(supervisor := Loop)
    case _ => s
  }

  function Rest(queue: seq<Command>): seq<Command> { if queue == [] then [] else queue[1..] }

  function ServeAction(s: State, encodeFails: bool): State {
    match s.supervisor
    case Loop => s.(supervisor := if s.life.Alive? then Receive else Drain)
    case Receive =>
      var next :=
        if s.queue == [] then (if s.handleDropped then Terminating(Error.Closed, ThenEmitClosed) else Loop)
        else if s.queue[0].Close? then Terminating(Error.Closed, ThenEmitClosed)
        else Hold(s.queue[0].id, s.queue[0].waiter);
      s.(queue := Rest(s.queue), supervisor := next)
    case Hold(id, w) =>
      s.(answers := if s.life.Alive? then s.answers else Give(s.answers, w, Err(Error.Closed)),
         supervisor := if s.life.Alive? then Insert(id, w) else Loop)
    case Insert(id, w) =>
      var duplicate := s.pending.Has(id);
      s.(pending := if duplicate then s.pending else s.pending.Put(id, w),
         dropped := if duplicate then s.dropped + multiset{w} else s.dropped,
         events := if duplicate then s.events + [ProtocolError(DuplicateId)] else s.events,
         supervisor := if duplicate then Loop else Encode(id, w))
    case Encode(id, w) =>
      var sends := !encodeFails && !s.writer.WriterGone?;
      s.(outbound := if sends then s.outbound + [RequestFrame(id, w)] else s.outbound,
         supervisor := if sends then Loop
                       else if encodeFails then FailOne(id, LineTooLong, false)
                       else FailOne(id, Error.Closed, true))
    case FailOne(id, error, fatal) =>
      FailPending(s, id, error).(
        events := if fatal then s.events else s.events + [ProtocolError(error)],
        supervisor := if fatal then Terminating(error, ThenLeave) else Loop)
    case _ => s
  }

  function ShutdownAction(s: State): State {
    match s.supervisor
    case Terminating(error, after) =>
      s.(life := if s.life.Alive? then Clearing(Supervising, error) else s.life,
         supervisor := if s.life.Alive? then Winning(after) else Continue(after))
    case Winning(after) => if s.life.Dead? then s.(supervisor := Continue(after)) else s
    case EmitClosed =>
      s.(closedBy := if s.closedBy.None? then Some(Supervising) else s.closedBy,
         supervisor := if s.closedBy.None? then SendClosed else CloseReceiver)
    case SendClosed => Emit(s, ClosedEvent).(supervisor := CloseReceiver)
    case Drain =>
      var (answers, next) :=
        if s.queue == [] then (s.answers, CloseReceiver)
        else (if s.queue[0].Close? then s.answers else Give(s.answers, s.queue[0].waiter, Err(Error.Closed)), Drain);
      s.(queue := Rest(s.queue), answers := answers, supervisor := next)
    case CloseReceiver => s.(receiverOpen := false, supervisor := Discard)
    case Discard =>
      var (dropped, next) :=
        if s.queue == [] then (s.dropped, Gone)
        else (if s.queue[0].Close? then s.dropped else s.dropped + multiset{s.queue[0].waiter}, Discard);
      s.(queue := Rest(s.queue), dropped := dropped, supervisor := next)
    case _ => s
  }

  function SupervisorAction(s: State, encodeFails: bool, timedOut: bool): State {
    match s.supervisor
    case Loop | Receive | Hold(_, _) | Insert(_, _) | Encode(_, _) | FailOne(_, _, _) => ServeAction(s, encodeFails)
    case Terminating(_, _) | Winning(_) | EmitClosed | SendClosed | Drain | CloseReceiver | Discard | Gone =>
      ShutdownAction(s)
    case _ => HandshakeAction(s, encodeFails, timedOut)
  }

  // ---------------------------------------------------------------- reader, writer, timeouts

  /** What the reader finds next on the stream. */
  datatype Input = Notice | Garbled(error: Error) | Response(id: nat, success: bool) | EndOfStream | ReadFailure

  function ReaderAction(s: State, input: Input): State {
    match s.reader
    case ReadingFrames => ReadAction(s, input)
    case Delivering(w, _, reply) => Answer(s, w, reply).(reader := ReadingFrames)
    case _ =>
      var (reader, life, events) :=
        match s.reader
        case Waiting =>
          (if s.registered then ReadingFrames else Unregistered, s.life, s.events)
        case Unregistered => (if s.life.Alive? then Waiting else ReaderGone, s.life, s.events)
        case ReaderTerminating(error) =>
          if s.life.Alive? then (ReaderWinning(error), Clearing(Reading, error), s.events)
          else (ReaderGone, s.life, s.events)
        case ReaderWinning(error) =>
          if s.life.Dead? then (ReaderGone, s.life, s.events + [if error == Eof then EofEvent else IoErrorEvent])
          else (s.reader, s.life, s.events)
        case _ => (s.reader, s.life, s.events);
      s.(reader := reader, life := life, events := events)
  }

  function ReadAction(s: State, input: Input): State {
    match input
    case Notice => Emit(s, Notification)
    case Garbled(error) => Emit(s, ProtocolError(error))
    case Response(id, success) =>
      if s.pending.Has(id) then
        s.(pending := s.pending.Remove(id),
           reader := Delivering(s.pending.At(id), id, if success then Ok(id) else Err(Rpc)))
      else Emit(s, UnexpectedResponse(id))
    case EndOfStream => s.(reader := ReaderTerminating(Eof))
    case ReadFailure => s.(reader := ReaderTerminating(Io))
  }

  function WriterAction(s: State, fails: bool): State {
    var (writer, written, life, events) :=
      match s.writer
      case WritingFrames =>
        if s.written < |s.outbound| then
          if fails then (WriterTerminating, s.written, s.life, s.events)
            else (s.writer, s.written + 1, s.life, s.events)
        else if s.supervisor.Gone? then (WriterGone, s.written, s.life, s.events)
        else (s.writer, s.written, s.life, s.events)
      case WriterTerminating =>
        if s.life.Alive? then (WriterWinning, s.written, Clearing(Writing, Io), s.events)
        else (WriterGone, s.written, s.life, s.events)
      case WriterWinning =>
        if s.life.Dead? then (WriterGone, s.written, s.life, s.events + [IoErrorEvent])
        else (s.writer, s.written, s.life, s.events)
      case WriterGone => (s.writer, s.written, s.life, s.events);
    s.(writer := writer, written := written, life := life, events := events)
  }

  predicate IsOverdue(pending: Table<Waiter>, overdue: seq<nat>) {
    && (forall i :: 0 <= i < |overdue| ==> pending.Has(overdue[i]))
    && (forall i, j :: 0 <= i < j < |overdue| ==> overdue[i] != overdue[j])
  }

  function Taken(pending: Table<Waiter>, overdue: seq<nat>): seq<(nat, Waiter)>
    requires forall i :: 0 <= i < |overdue| ==> pending.Has(overdue[i])
  {
    seq(|overdue|, i requires 0 <= i < |overdue| => (overdue[i], pending.At(overdue[i])))
  }

  /** Deadlines are left open: any set of distinct pending ids may turn out to be overdue. */
  function TimerAction(s: State, overdue: seq<nat>): State {
    var (timer, pending, answers) :=
      match s.timer
      case Watching => (if s.life.Alive? then Sleeping else TimerGone, s.pending, s.answers)
      case Sleeping =>
        if IsOverdue(s.pending, overdue) then
          (Expiring(Taken(s.pending, overdue)), Table(s.pending.entries - (set id | id in overdue)), s.answers)
        else (s.timer, s.pending, s.answers)
      case Expiring(entries) =>
        if entries == [] then (Watching, s.pending, s.answers)
        else (Expiring(entries[1..]), s.pending, Give(s.answers, entries[0].1, Err(Timeout(entries[0].0))))
      case _ => (s.timer, s.pending, s.answers);
    s.(timer := timer, pending := pending, answers := answers)
  }

  // ---------------------------------------------------------------- interleavings

  datatype Action =
    | ClientMoves(w: Waiter, step: ClientStep)
    | CloserMoves(c: nat)
    | HandleDrops
    | SupervisorMoves(encodeFails: bool, timedOut: bool)
    | ReaderMoves(input: Input)
    | WriterMoves(fails: bool)
    | TimerMoves(overdue: seq<nat>)
    | TerminationMoves

  function Step(s: State, action: Action): State {
    match action
    case ClientMoves(w, step) => ClientAction(s, w, step)
    case CloserMoves(c) => CloserAction(s, c)
    case HandleDrops => DropHandle(s)
    case SupervisorMoves(encodeFails, timedOut) => SupervisorAction(s, encodeFails, timedOut)
    case ReaderMoves(input) => ReaderAction(s, input)
    case WriterMoves(fails) => WriterAction(s, fails)
    case TimerMoves(overdue) => TimerAction(s, overdue)
    case TerminationMoves => TerminateStep(s)
  }

  function Run(actions: seq<Action>): State {
    if actions == [] then INITIAL else Step(Run(actions[..|actions| - 1]), actions[|actions| - 1])
  }
}
