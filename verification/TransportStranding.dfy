/** Exactly when a request can be left without an answer.

    At the moment the pending map is about to be emptied for good, one request can still be lost:
    the one the supervisor has let in and not yet filed, and only while the writer takes frames.
 */
module TransportStranding {
  import opened Common
  import opened Transport
  import opened ReplyDesk
  import opened TransportSafety
  import opened TransportShutdown
  import opened TransportTheorems

  /** The supervisor is about to file a request whose frame can still be handed to the writer. */
  predicate IsExposed(s: State) { s.supervisor.Insert? && !s.writer.WriterGone? }

  // ---------------------------------------------------------------- nobody is left behind

  /** At most the entry of this request is filed. */
  ghost predicate OnlyFiled(pending: Table<Waiter>, id: nat) { forall i :: i in pending.entries ==> i == id }

  /** From the drain on: nothing new stays filed. */
  ghost predicate Sweeps(s: State) {
    && IsEnding(s.life) && !s.supervisor.Start? && !IsExposed(s)
    && (s.life.Dead? ==>
          match s.supervisor
          case Encode(id, _) => if s.writer.WriterGone? then OnlyFiled(s.pending, id) else s.pending.entries == map[]
          case FailOne(id, _, _) => OnlyFiled(s.pending, id)
          case _ => s.pending.entries == map[])
  }

  /** A step of another thread that files nothing. */
  ghost predicate FewerFiled(s: State, t: State) {
    && t.supervisor == s.supervisor && (s.writer.WriterGone? ==> t.writer.WriterGone?)
    && t.life == s.life && t.pending.entries.Keys <= s.pending.entries.Keys
  }

  lemma FewerFiledSweeps(s: State, t: State)
    requires Sweeps(s) && FewerFiled(s, t)
    ensures Sweeps(t)
  {}

  lemma ReadingSweeps(s: State, input: Input)
    requires IsEnding(s.life) && (s.reader.ReadingFrames? || s.reader.Delivering?)
    ensures FewerFiled(s, ReaderAction(s, input))
  {}

  lemma EndingSweeps(s: State, input: Input)
    requires IsEnding(s.life) && !s.reader.ReadingFrames? && !s.reader.Delivering?
    ensures FewerFiled(s, ReaderAction(s, input))
  {}

  lemma TimerSweeps(s: State, overdue: seq<nat>)
    ensures FewerFiled(s, TimerAction(s, overdue))
  {}

  lemma WriterSweeps(s: State, fails: bool)
    requires IsEnding(s.life)
    ensures FewerFiled(s, WriterAction(s, fails))
  {}

  lemma ClientSweeps(s: State, w: Waiter, step: ClientStep)
    ensures FewerFiled(s, ClientAction(s, w, step)) && FewerFiled(s, DropHandle(s))
  {}

  lemma CloserSweeps(s: State, c: nat)
    requires IsEnding(s.life)
    ensures FewerFiled(s, CloserAction(s, c))
  {}

  lemma TerminationSweeps(s: State)
    requires Sweeps(s)
    ensures Sweeps(TerminateStep(s))
  {}

  lemma HandshakeSweeps(s: State, encodeFails: bool, timedOut: bool)
    requires Sweeps(s)
    requires s.supervisor.Register? || s.supervisor.SendInitialize? || s.supervisor.AwaitInitialize?
      || s.supervisor.SendInitialized?
    ensures Sweeps(HandshakeAction(s, encodeFails, timedOut))
  {}

  lemma VerdictSweeps(s: State, encodeFails: bool, timedOut: bool)
    requires Sweeps(s)
    requires s.supervisor.FailInitialize? || s.supervisor.ReportFailure? || s.supervisor.MarkReady?
      || s.supervisor.EmitReady?
    ensures Sweeps(HandshakeAction(s, encodeFails, timedOut))
  {}

  lemma ReceiveSweeps(s: State, encodeFails: bool)
    requires Sweeps(s) && (s.supervisor.Loop? || s.supervisor.Receive? || s.supervisor.Hold?)
    ensures Sweeps(ServeAction(s, encodeFails))
  {}

  lemma InsertSweeps(s: State, encodeFails: bool)
    requires Sweeps(s) && s.supervisor.Insert?
    ensures Sweeps(ServeAction(s, encodeFails))
  {}

  lemma EncodeSweeps(s: State, encodeFails: bool)
    requires Sweeps(s) && s.supervisor.Encode?
    ensures Sweeps(ServeAction(s, encodeFails))
  {}

  lemma FailOneSweeps(s: State, encodeFails: bool)
    requires Sweeps(s) && s.supervisor.FailOne?
    ensures Sweeps(ServeAction(s, encodeFails))
  {}

  lemma EndSweeps(s: State)
    requires Sweeps(s)
    requires s.supervisor.Terminating? || s.supervisor.Winning? || s.supervisor.EmitClosed? || s.supervisor.SendClosed?
    ensures Sweeps(ShutdownAction(s))
  {}

  lemma LeaveSweeps(s: State)
    requires Sweeps(s)
    requires s.supervisor.Drain? || s.supervisor.CloseReceiver? || s.supervisor.Discard? || s.supervisor.Gone?
    ensures Sweeps(ShutdownAction(s))
  {}

  lemma ServingSweeps(s: State, encodeFails: bool)
    requires Sweeps(s)
    ensures Sweeps(ServeAction(s, encodeFails))
  {
    match s.supervisor
    case Loop | Receive | Hold(_, _) => ReceiveSweeps(s, encodeFails);
    case Insert(_, _) => InsertSweeps(s, encodeFails);
    case Encode(_, _) => EncodeSweeps(s, encodeFails);
    case FailOne(_, _, _) => FailOneSweeps(s, encodeFails);
    case _ =>
  }

  lemma StartingSweeps(s: State, encodeFails: bool, timedOut: bool)
    requires Sweeps(s)
    ensures Sweeps(HandshakeAction(s, encodeFails, timedOut))
  {
    match s.supervisor
    case Register | SendInitialize | AwaitInitialize | SendInitialized => HandshakeSweeps(s, encodeFails, timedOut);
    case FailInitialize(_, _) | ReportFailure(_, _) | MarkReady | EmitReady => VerdictSweeps(s, encodeFails, timedOut);
    case _ =>
  }

  lemma StoppingSweeps(s: State)
    requires Sweeps(s)
    ensures Sweeps(ShutdownAction(s))
  {
    match s.supervisor
    case Terminating(_, _) | Winning(_) | EmitClosed | SendClosed => EndSweeps(s);
    case Drain | CloseReceiver | Discard | Gone => LeaveSweeps(s);
    case _ =>
  }

  lemma SupervisorSweeps(s: State, encodeFails: bool, timedOut: bool)
    requires Sweeps(s)
    ensures Sweeps(SupervisorAction(s, encodeFails, timedOut))
  {
    StartingSweeps(s, encodeFails, timedOut);
    ServingSweeps(s, encodeFails);
    StoppingSweeps(s);
  }

  lemma StepSweeps(s: State, action: Action)
    requires Sweeps(s)
    ensures Sweeps(Step(s, action))
  {
    var t := Step(s, action);
    match action
    case SupervisorMoves(e, o) => SupervisorSweeps(s, e, o);
    case ReaderMoves(input) =>
      if s.reader.ReadingFrames? || s.reader.Delivering? { ReadingSweeps(s, input); } else { EndingSweeps(s, input); }
      FewerFiledSweeps(s, t);
    case ClientMoves(w, step) => ClientSweeps(s, w, step); FewerFiledSweeps(s, t);
    case CloserMoves(c) => CloserSweeps(s, c); FewerFiledSweeps(s, t);
    case HandleDrops => ClientSweeps(s, INITIALIZE, Load); FewerFiledSweeps(s, t);
    case WriterMoves(fails) => WriterSweeps(s, fails); FewerFiledSweeps(s, t);
    case TimerMoves(overdue) => TimerSweeps(s, overdue); FewerFiledSweeps(s, t);
    case TerminationMoves => TerminationSweeps(s);
  }

  lemma {:induction false} SweepsForGood(before: seq<Action>, after: seq<Action>)
    requires Sweeps(Run(before))
    ensures Sweeps(Run(before + after))
  {
    if after == [] {
      assert before + after == before;
    } else {
      var init, last := after[..|after| - 1], after[|after| - 1];
      SweepsForGood(before, init);
      SweptOnceMore(before + init, last);
      assert before + after == (before + init) + [last];
    }
  }

  lemma SweptOnceMore(actions: seq<Action>, last: Action)
    requires Sweeps(Run(actions))
    ensures Sweeps(Run(actions + [last]))
  {
    StepSweeps(Run(actions), last);
    RunPushed(actions, last);
  }

  /** The threads have gone and the transport is dead. */
  predicate HasEnded(s: State) { AllGone(s) && s.life.Dead? }

  /** If no request is exposed when the pending map is about to be emptied, then at the end of every
      continuation every posted request was answered, or dropped so that its receiver sees it. */
  lemma NobodyStranded(before: seq<Action>, after: seq<Action>, w: Waiter, id: nat)
    requires Run(before).life.Draining? && !IsExposed(Run(before))
    requires HasEnded(Run(before + after)) && WaitsFor(Run(before + after), w, id)
    ensures |Got(Run(before + after), w)| + Run(before + after).dropped[w] == 1
  {
    RunIsSafe(before);
    SweepsForGood(before, after);
    EveryRequestAccounted(before + after, w, id);
  }

  // ---------------------------------------------------------------- one is left behind

  /** `t` is reached by continuing this run. */
  ghost predicate Leads(before: seq<Action>, t: State) { exists after :: Run(before + after) == t }

  lemma LeadsHere(before: seq<Action>)
    ensures Leads(before, Run(before))
  {
    assert before + [] == before;
  }

  lemma RunLast(before: seq<Action>, after: seq<Action>, last: Action, s: State)
    requires Run(before + after) == s
    ensures Run(before + (after + [last])) == Step(s, last)
  {
    RunPushed(before + after, last);
    assert before + (after + [last]) == (before + after) + [last];
  }

  lemma Onward(before: seq<Action>, t: State, action: Action) returns (u: State)
    requires Leads(before, t)
    ensures u == Step(t, action) && Leads(before, u)
  {
    u := Step(t, action);
    var after :| Run(before + after) == t;
    RunLast(before, after, action, t);
  }

  /** What stays the same while the reader and the timeouts leave. */
  ghost predicate Unmoved(s: State, t: State) {
    && t.life == s.life && t.pending == s.pending && t.supervisor == s.supervisor && t.writer == s.writer
    && t.queue == s.queue && t.registered == s.registered
  }

  lemma ReaderSteps(s: State)
    requires s.life.Dead? && s.registered
    ensures var t := ReaderAction(s, EndOfStream);
      && Unmoved(s, t) && t.timer == s.timer
      && match s.reader
         case Waiting | Delivering(_, _, _) => t.reader.ReadingFrames?
         case ReadingFrames => t.reader.ReaderTerminating?
         case _ => t.reader.ReaderGone?
  {}

  lemma ReaderLeaves(before: seq<Action>, t: State) returns (u: State)
    requires Leads(before, t) && t.life.Dead? && t.registered
    ensures Leads(before, u) && Unmoved(t, u) && u.timer == t.timer && u.reader.ReaderGone?
    decreases match t.reader
              case Waiting | Delivering(_, _, _) => 3
              case ReadingFrames => 2
              case ReaderGone => 0
              case _ => 1
  {
    u := t;
    if !t.reader.ReaderGone? {
      ReaderSteps(t);
      u := Onward(before, t, ReaderMoves(EndOfStream));
      u := ReaderLeaves(before, u);
    }
  }

  lemma TimerSteps(s: State)
    requires s.life.Dead? && !s.timer.NotStarted?
    ensures var t := TimerAction(s, []);
      && Unmoved(s, t) && t.reader == s.reader
      && match s.timer
         case Watching | TimerGone => t.timer.TimerGone?
         case Sleeping => t.timer == Expiring([])
         case Expiring(entries) => t.timer == if entries == [] then Watching else Expiring(entries[1..])
  {
    if s.timer.Sleeping? { assert s.pending.entries - (set id | id in []) == s.pending.entries; }
  }

  lemma TimerLeaves(before: seq<Action>, t: State) returns (u: State)
    requires Leads(before, t) && t.life.Dead? && !t.timer.NotStarted?
    ensures Leads(before, u) && Unmoved(t, u) && u.reader == t.reader && u.timer.TimerGone?
    decreases match t.timer
              case Sleeping => 1
              case Expiring(_) => 1
              case _ => 0,
              match t.timer
              case Sleeping => 2
              case Expiring(entries) => 1 + |entries|
              case _ => 0
  {
    u := t;
    if !t.timer.TimerGone? {
      TimerSteps(t);
      u := Onward(before, t, TimerMoves([]));
      if !t.timer.Watching? { u := TimerLeaves(before, u); }
    }
  }

  /** What stays the same while the supervisor finishes, once the request is filed. */
  ghost predicate StillFiled(s: State, t: State) {
    t.life == s.life && t.pending == s.pending && t.reader == s.reader && t.timer == s.timer
  }

  lemma FilingSteps(s: State)
    requires s.life.Dead? && s.supervisor.Insert? && !s.writer.WriterGone? && s.pending == Table(map[])
    ensures var t := SupervisorAction(s, false, false);
      && t.supervisor == Encode(s.supervisor.id, s.supervisor.waiter) && t.writer == s.writer
      && t.pending == Table(map[s.supervisor.id := s.supervisor.waiter])
      && t.life == s.life && t.reader == s.reader && t.timer == s.timer
  {}

  lemma FramingSteps(s: State)
    requires s.supervisor.Encode? && !s.writer.WriterGone?
    ensures var t := SupervisorAction(s, false, false); StillFiled(s, t) && t.supervisor == Loop
  {}

  lemma LeavingSteps(s: State)
    requires s.life.Dead?
    requires s.supervisor.Loop? || s.supervisor.Drain? || s.supervisor.CloseReceiver? || s.supervisor.Discard?
    ensures var t := SupervisorAction(s, false, false);
      && StillFiled(s, t)
      && match s.supervisor
         case Loop => t.supervisor.Drain?
         case Drain =>
           if s.queue == [] then t.supervisor.CloseReceiver? else t.supervisor.Drain? && |t.queue| < |s.queue|
         case CloseReceiver => t.supervisor.Discard?
         case _ => if s.queue == [] then t.supervisor.Gone? else t.supervisor.Discard? && |t.queue| < |s.queue|
  {}

  lemma SupervisorLeaves(before: seq<Action>, t: State) returns (u: State)
    requires Leads(before, t) && t.life.Dead?
    requires t.supervisor.Loop? || t.supervisor.Drain? || t.supervisor.CloseReceiver? || t.supervisor.Discard?
      || t.supervisor.Gone?
    ensures Leads(before, u) && StillFiled(t, u) && u.supervisor.Gone?
    decreases match t.supervisor
              case Loop => 4
              case Drain => 3
              case CloseReceiver => 2
              case Discard => 1
              case _ => 0,
              |t.queue|
  {
    u := t;
    if !t.supervisor.Gone? {
      LeavingSteps(t);
      u := Onward(before, t, SupervisorMoves(false, false));
      u := SupervisorLeaves(before, u);
    }
  }

  /** From an exposed request: the map is emptied, reader and timeouts leave, only then is it filed. */
  lemma ExposedIsStranded(before: seq<Action>) returns (u: State)
    requires var s := Run(before); s.life.Draining? && IsExposed(s) && s.registered && !s.timer.NotStarted?
    ensures var s := Run(before);
      Leads(before, u) && HasEnded(u) && u.pending == Table(map[s.supervisor.id := s.supervisor.waiter])
  {
    var s := Run(before);
    LeadsHere(before);
    u := Onward(before, s, TerminationMoves);
    assert Drained(s, u);
    u := ReaderLeaves(before, u);
    u := TimerLeaves(before, u);
    u := RequestFiles(before, u);
    u := SupervisorLeaves(before, u);
  }

  ghost predicate Drained(s: State, t: State) {
    && t.life.Dead? && t.pending == Table(map[]) && t.supervisor == s.supervisor && t.writer == s.writer
    && t.registered == s.registered && t.timer == s.timer
  }

  lemma RequestFiles(before: seq<Action>, t: State) returns (u: State)
    requires Leads(before, t) && t.life.Dead? && IsExposed(t) && t.pending == Table(map[])
    ensures Leads(before, u) && u.supervisor == Loop && u.life == t.life && u.reader == t.reader && u.timer == t.timer
    ensures u.pending == Table(map[t.supervisor.id := t.supervisor.waiter])
  {
    FilingSteps(t);
    u := Onward(before, t, SupervisorMoves(false, false));
    FramingSteps(u);
    u := Onward(before, u, SupervisorMoves(false, false));
  }

  /** A posted request that will never hear anything, with every thread gone. */
  ghost predicate IsLost(s: State, w: Waiter, id: nat) {
    HasEnded(s) && WaitsFor(s, w, id) && Got(s, w) == [] && s.dropped[w] == 0
  }

  /** What is filed at the end belongs to a posted request, and that request is lost. */
  lemma FiledIsLost(actions: seq<Action>, id: nat, w: Waiter)
    requires HasEnded(Run(actions)) && Run(actions).pending == Table(map[id := w])
    ensures IsLost(Run(actions), w, id)
  {
    RunIsSafe(actions);
    var s := Run(actions);
    assert s.pending.Has(id) && s.pending.At(id) == w;
    assert PendingFiled(DeskOf(s).ids, s.pending);
    assert WaitsFor(s, w, id);
    EveryRequestAccounted(actions, w, id);
  }

  ghost predicate CanLose(before: seq<Action>) {
    exists after, w, id :: IsLost(Run(before + after), w, id)
  }

  /** When the pending map is about to be emptied: a request can be lost exactly if the supervisor
      has let one in and not yet filed it, and the writer still takes frames. */
  lemma LosingIff(before: seq<Action>)
    requires Run(before).life.Draining?
    ensures CanLose(before) <==> IsExposed(Run(before))
  {
    RunIsSafe(before);
    var s := Run(before);
    if IsExposed(s) {
      var u := ExposedIsStranded(before);
      var after :| Run(before + after) == u;
      FiledIsLost(before + after, s.supervisor.id, s.supervisor.waiter);
    } else {
      forall after, w, id ensures !IsLost(Run(before + after), w, id) { NotLost(before, after, w, id); }
    }
  }

  lemma NotLost(before: seq<Action>, after: seq<Action>, w: Waiter, id: nat)
    requires Run(before).life.Draining? && !IsExposed(Run(before))
    ensures !IsLost(Run(before + after), w, id)
  {
    if HasEnded(Run(before + after)) && WaitsFor(Run(before + after), w, id) { NobodyStranded(before, after, w, id); }
  }

  /** And it does happen: the stream ends while the supervisor holds a request. */
  lemma RequestStranded()
    ensures exists actions, w, id :: IsLost(Run(actions), w, id)
  {
    var s := RequestInHand();
    s := StreamEnds(s);
    s := Reach(s, TerminationMoves);
    var before :| Run(before) == s;
    LosingIff(before);
    var after, w, id :| IsLost(Run(before + after), w, id);
  }
}
