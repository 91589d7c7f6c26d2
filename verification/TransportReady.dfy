/** Exactly when the ready flag comes back after the transport has begun to end.

    The flag is stored by the supervisor at the end of the handshake, with no look at `alive`. It
    comes back exactly if the handshake can still be completed from where it stands.
 */
module TransportReady {
  import opened Common
  import opened Transport
  import opened ReplyDesk
  import opened TransportSafety
  import opened TransportShutdown
  import opened TransportTheorems
  import opened TransportStranding

  predicate CanRead(p: Reader) { p.Waiting? || p.ReadingFrames? || p.Delivering? }

  /** The first word on the handshake is, or can still become, a result. */
  predicate MaySucceed(s: State) {
    if Got(s, INITIALIZE) != [] then Got(s, INITIALIZE)[0].Ok?
    else (s.reader.Delivering? && s.reader.waiter == INITIALIZE && s.reader.reply.Ok?)
         || (s.pending.Has(INITIALIZE_ID) && CanRead(s.reader))
  }

  /** The handshake can still be completed. */
  predicate CanStillStore(s: State) {
    match s.supervisor
    case MarkReady => true
    case SendInitialized => !s.writer.WriterGone?
    case SendInitialize | AwaitInitialize => !s.writer.WriterGone? && MaySucceed(s)
    case _ => false
  }

  // ---------------------------------------------------------------- it does not come back

  ghost predicate IsHopeless(s: State) { IsEnding(s.life) && !s.ready && !CanStillStore(s) && !IsEarly(s.supervisor) }

  /** A step of another thread that does not help the handshake. */
  ghost predicate NoHelp(s: State, t: State) {
    && t.supervisor == s.supervisor && (s.writer.WriterGone? ==> t.writer.WriterGone?)
    && (MaySucceed(t) ==> MaySucceed(s))
    && IsEnding(t.life) && (t.ready ==> s.ready)
  }

  lemma NoHelpHopeless(s: State, t: State)
    requires IsHopeless(s) && NoHelp(s, t)
    ensures IsHopeless(t)
  {}

  /** The supervisor waits under one id only. */
  ghost predicate HandshakeOnly(pending: Table<Waiter>) {
    forall id :: id in pending.entries && pending.entries[id] == INITIALIZE ==> id == INITIALIZE_ID
  }

  lemma SafePending(s: State)
    requires Refines(s)
    ensures HandshakeOnly(s.pending)
  {
    assert PendingFiled(DeskOf(s).ids, s.pending);
  }

  lemma ReadingNoHelp(s: State, input: Input)
    requires IsEnding(s.life) && s.reader.ReadingFrames? && HandshakeOnly(s.pending)
    ensures NoHelp(s, ReaderAction(s, input))
  {}

  lemma DeliveringNoHelp(s: State, input: Input)
    requires IsEnding(s.life) && s.reader.Delivering?
    ensures NoHelp(s, ReaderAction(s, input))
  {}

  lemma ReaderNoHelp(s: State, input: Input)
    requires IsEnding(s.life) && !s.reader.ReadingFrames? && !s.reader.Delivering?
    ensures NoHelp(s, ReaderAction(s, input))
  {}

  lemma TimerNoHelp(s: State, overdue: seq<nat>)
    requires IsEnding(s.life)
    ensures NoHelp(s, TimerAction(s, overdue))
  {}

  lemma WriterNoHelp(s: State, fails: bool)
    requires IsEnding(s.life)
    ensures NoHelp(s, WriterAction(s, fails))
  {}

  lemma ClientNoHelp(s: State, w: Waiter, step: ClientStep)
    requires IsEnding(s.life)
    ensures NoHelp(s, ClientAction(s, w, step))
  {}

  lemma DropNoHelp(s: State)
    requires IsEnding(s.life)
    ensures NoHelp(s, DropHandle(s))
  {}

  lemma CloserNoHelp(s: State, c: nat)
    requires IsEnding(s.life)
    ensures NoHelp(s, CloserAction(s, c))
  {}

  lemma TerminationNoHelp(s: State)
    requires IsEnding(s.life)
    ensures NoHelp(s, TerminateStep(s))
  {}

  lemma SendHopeless(s: State, encodeFails: bool, timedOut: bool)
    requires IsHopeless(s) && (s.supervisor.SendInitialize? || s.supervisor.SendInitialized?)
    ensures IsHopeless(HandshakeAction(s, encodeFails, timedOut))
  {}

  lemma AwaitHopeless(s: State, encodeFails: bool, timedOut: bool)
    requires IsHopeless(s) && s.supervisor.AwaitInitialize?
    ensures IsHopeless(HandshakeAction(s, encodeFails, timedOut))
  {}

  lemma VerdictHopeless(s: State, encodeFails: bool, timedOut: bool)
    requires IsHopeless(s) && (s.supervisor.FailInitialize? || s.supervisor.ReportFailure? || s.supervisor.EmitReady?)
    ensures IsHopeless(HandshakeAction(s, encodeFails, timedOut))
  {}

  /** Once past storing the flag, or having failed to, the supervisor never comes to store it. */
  lemma PastHopeless(s: State, encodeFails: bool, timedOut: bool)
    requires IsHopeless(s) && IsPastReady(s.supervisor) && Tidy(s)
    ensures IsHopeless(SupervisorAction(s, encodeFails, timedOut))
  {
    SupervisorProceeds(s, encodeFails, timedOut);
    PastStaysHopeless(s, SupervisorAction(s, encodeFails, timedOut));
  }

  lemma PastStaysHopeless(s: State, t: State)
    requires IsHopeless(s) && IsPastReady(s.supervisor) && Proceeds(s, t)
    ensures IsHopeless(t)
  {}

  lemma SupervisorHopeless(s: State, encodeFails: bool, timedOut: bool)
    requires IsHopeless(s) && Tidy(s)
    ensures IsHopeless(SupervisorAction(s, encodeFails, timedOut))
  {
    match s.supervisor
    case SendInitialize | SendInitialized => SendHopeless(s, encodeFails, timedOut);
    case AwaitInitialize => AwaitHopeless(s, encodeFails, timedOut);
    case FailInitialize(_, _) | ReportFailure(_, _) => VerdictHopeless(s, encodeFails, timedOut);
    case _ => PastHopeless(s, encodeFails, timedOut);
  }

  lemma StepHopeless(s: State, action: Action)
    requires IsHopeless(s) && Tidy(s) && HandshakeOnly(s.pending)
    ensures IsHopeless(Step(s, action))
  {
    var t := Step(s, action);
    match action
    case SupervisorMoves(e, o) => SupervisorHopeless(s, e, o);
    case ReaderMoves(input) =>
      if s.reader.ReadingFrames? { ReadingNoHelp(s, input); }
      else if s.reader.Delivering? { DeliveringNoHelp(s, input); }
      else { ReaderNoHelp(s, input); }
      NoHelpHopeless(s, t);
    case ClientMoves(w, step) => ClientNoHelp(s, w, step); NoHelpHopeless(s, t);
    case CloserMoves(c) => CloserNoHelp(s, c); NoHelpHopeless(s, t);
    case HandleDrops => DropNoHelp(s); NoHelpHopeless(s, t);
    case WriterMoves(fails) => WriterNoHelp(s, fails); NoHelpHopeless(s, t);
    case TimerMoves(overdue) => TimerNoHelp(s, overdue); NoHelpHopeless(s, t);
    case TerminationMoves => TerminationNoHelp(s); NoHelpHopeless(s, t);
  }

  lemma {:induction false} HopelessForGood(before: seq<Action>, after: seq<Action>)
    requires IsHopeless(Run(before))
    ensures IsHopeless(Run(before + after))
  {
    if after == [] {
      assert before + after == before;
    } else {
      var init, last := after[..|after| - 1], after[|after| - 1];
      HopelessForGood(before, init);
      HopelessOnceMore(before + init, last);
      assert before + after == (before + init) + [last];
    }
  }

  lemma HopelessOnceMore(actions: seq<Action>, last: Action)
    requires IsHopeless(Run(actions))
    ensures IsHopeless(Run(actions + [last]))
  {
    RunIsSafe(actions);
    SafePending(Run(actions));
    StepHopeless(Run(actions), last);
    RunPushed(actions, last);
  }

  // ---------------------------------------------------------------- it comes back

  /** What stays the same while the reader brings the result. */
  ghost predicate Undisturbed(s: State, t: State) {
    t.supervisor == s.supervisor && t.writer == s.writer && t.registered == s.registered
  }

  /** The waiter of the handshake's pending entry is the supervisor, and nobody else is told its result. */
  ghost predicate HandshakeFiled(s: State) {
    && (s.pending.Has(INITIALIZE_ID) ==> s.pending.At(INITIALIZE_ID) == INITIALIZE
                                         && (s.reader.Delivering? ==> s.reader.waiter != INITIALIZE))
  }

  lemma SafeHandshake(s: State)
    requires Refines(s) && !s.supervisor.Start?
    ensures HandshakeFiled(s)
  {
    var d := DeskOf(s);
    assert d.ids.Has(INITIALIZE) && d.ids.At(INITIALIZE) == INITIALIZE_ID;
    assert Custody(d, INITIALIZE);
    assert PendingFiled(d.ids, s.pending);
    assert DeliveryFiled(d.ids, d.delivering);
  }

  lemma WaitingBrings(s: State)
    requires s.reader.Waiting? && s.registered
    ensures var t := ReaderAction(s, Notice);
      t == s.(reader := ReadingFrames)
  {}

  lemma DeliveringBrings(s: State)
    requires s.reader.Delivering?
    ensures var t := ReaderAction(s, Notice);
      Undisturbed(s, t) && t.reader == ReadingFrames && t.pending == s.pending
      && Got(t, INITIALIZE) == Got(s, INITIALIZE) + (if s.reader.waiter == INITIALIZE then [s.reader.reply] else [])
  {}

  lemma ReadingBrings(s: State)
    requires s.reader.ReadingFrames? && s.pending.Has(INITIALIZE_ID)
    ensures var t := ReaderAction(s, Response(INITIALIZE_ID, true));
      Undisturbed(s, t) && t.reader == Delivering(s.pending.At(INITIALIZE_ID), INITIALIZE_ID, Ok(INITIALIZE_ID))
        && t.answers == s.answers
  {}

  /** The reader brings the result while it still can. */
  lemma ResultArrives(before: seq<Action>, t: State) returns (u: State)
    requires Leads(before, t) && t.registered && MaySucceed(t) && HandshakeFiled(t)
    ensures Leads(before, u) && Undisturbed(t, u) && Got(u, INITIALIZE) != [] && Got(u, INITIALIZE)[0].Ok?
    decreases if t.reader.ReadingFrames? then 0 else 1
  {
    u := t;
    if Got(t, INITIALIZE) == [] {
      if t.reader.Waiting? {
        WaitingBrings(t);
        u := Onward(before, t, ReaderMoves(Notice));
        u := ResultArrives(before, u);
      } else if t.reader.Delivering? {
        DeliveringBrings(t);
        u := Onward(before, t, ReaderMoves(Notice));
        if t.reader.waiter != INITIALIZE { u := ResultArrives(before, u); }
      } else {
        ReadingBrings(t);
        u := Onward(before, t, ReaderMoves(Response(INITIALIZE_ID, true)));
        DeliveringBrings(u);
        u := Onward(before, u, ReaderMoves(Notice));
      }
    }
  }

  lemma SendingOn(s: State)
    requires (s.supervisor.SendInitialize? || s.supervisor.SendInitialized?) && !s.writer.WriterGone?
    ensures var t := SupervisorAction(s, false, false);
      && t.supervisor == (if s.supervisor.SendInitialize? then AwaitInitialize else MarkReady)
      && t.writer == s.writer && t.reader == s.reader && t.pending == s.pending && t.answers == s.answers
      && t.registered == s.registered
  {}

  lemma AwaitingOn(s: State)
    requires s.supervisor.AwaitInitialize? && Got(s, INITIALIZE) != [] && Got(s, INITIALIZE)[0].Ok?
    ensures SupervisorAction(s, false, false) == s.(supervisor := SendInitialized)
  {}

  lemma StoringOn(s: State)
    requires s.supervisor.MarkReady?
    ensures SupervisorAction(s, false, false).ready
  {}

  /** From wherever it stands, the handshake is completed and the flag stored. */
  lemma FlagStored(before: seq<Action>, t: State) returns (u: State)
    requires Leads(before, t) && CanStillStore(t) && t.registered && HandshakeFiled(t)
    ensures Leads(before, u) && u.ready
    decreases if t.supervisor.SendInitialize? then 1 else 0
  {
    if t.supervisor.MarkReady? {
      StoringOn(t);
      u := Onward(before, t, SupervisorMoves(false, false));
    } else if t.supervisor.SendInitialized? {
      u := LastSends(before, t);
    } else if t.supervisor.AwaitInitialize? {
      u := ResultArrives(before, t);
      AwaitingOn(u);
      u := Onward(before, u, SupervisorMoves(false, false));
      u := LastSends(before, u);
    } else {
      SendingOn(t);
      u := Onward(before, t, SupervisorMoves(false, false));
      u := FlagStored(before, u);
    }
  }

  lemma LastSends(before: seq<Action>, t: State) returns (u: State)
    requires Leads(before, t) && t.supervisor.SendInitialized? && !t.writer.WriterGone?
    ensures Leads(before, u) && u.ready
  {
    SendingOn(t);
    u := Onward(before, t, SupervisorMoves(false, false));
    StoringOn(u);
    u := Onward(before, u, SupervisorMoves(false, false));
  }

  // ---------------------------------------------------------------- exactly when

  ghost predicate ComesBack(start: seq<Action>) { exists after :: Run(start + after).ready }

  lemma ClearingKeepsChance(s: State)
    requires s.life.Clearing?
    ensures var t := TerminateStep(s);
      && IsEnding(t.life) && !t.ready && t.supervisor == s.supervisor && t.registered == s.registered
      && (CanStillStore(t) <==> CanStillStore(s))
  {}

  lemma StillComes(start: seq<Action>)
    requires CanStillStore(Run(start))
    ensures ComesBack(start)
  {
    RunIsSafe(start);
    SafeHandshake(Run(start));
    LeadsHere(start);
    var u := FlagStored(start, Run(start));
    var after :| Run(start + after) == u;
    assert Run(start + after).ready;
  }

  lemma NeverComes(start: seq<Action>)
    requires IsHopeless(Run(start))
    ensures !ComesBack(start)
  {
    forall after ensures !Run(start + after).ready { HopelessForGood(start, after); }
  }

  /** After the thread that ends the transport has cleared the flag, some continuation sets it again
      exactly if the handshake could still be completed. */
  lemma ReadyAgainIff(before: seq<Action>)
    requires Run(before).life.Clearing?
    ensures ComesBack(before + [TerminationMoves]) <==> CanStillStore(Run(before))
  {
    RunIsSafe(before);
    RunPushed(before, TerminationMoves);
    ClearingKeepsChance(Run(before));
    if CanStillStore(Run(before)) {
      StillComes(before + [TerminationMoves]);
    } else {
      NeverComes(before + [TerminationMoves]);
    }
  }
}
