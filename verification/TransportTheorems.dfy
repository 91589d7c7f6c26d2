/** What holds in every interleaving of the transport, and two things that do not. */
module TransportTheorems {
  import opened Common
  import opened Transport
  import opened ReplyDesk
  import opened TransportSafety
  import opened TransportLogs
  import opened TransportShutdown

  ghost predicate Safe(s: State) {
    Refines(s) && LogOf(s) && CloseLog(s) && EndLog(s) && Stranding(s) && Tidy(s) && Early(s)
  }

  lemma InitialIsSafe()
    ensures Safe(INITIAL)
  {
    assert forall w :: Custody(DeskOf(INITIAL), w);
  }

  lemma StepIsSafe(s: State, action: Action)
    requires Safe(s)
    ensures Safe(Step(s, action))
  {
    StepRefines(s, action);
    StepKeepsLog(s, action);
    StepKeepsEnds(s, action);
    StepKeepsStranding(s, action);
    StepKeepsTidy(s, action);
    StepKeepsEarly(s, action);
  }

  /** Every interleaving of every number of threads is safe. */
  lemma {:induction false} RunIsSafe(actions: seq<Action>)
    ensures Safe(Run(actions))
  {
    if actions == [] {
      InitialIsSafe();
    } else {
      RunIsSafe(actions[..|actions| - 1]);
      StepIsSafe(Run(actions[..|actions| - 1]), actions[|actions| - 1]);
    }
  }

  /** Request ids are at least 2 and never shared by two calls. */
  lemma IdsAreUnique(actions: seq<Action>, v: Waiter, w: Waiter)
    requires var s := Run(actions);
      v != w && s.calls.Has(v) && s.calls.Has(w) && s.calls.At(v).HasId() && s.calls.At(w).HasId()
    ensures var s := Run(actions);
      s.calls.At(v).id >= 2 && s.calls.At(w).id >= 2 && s.calls.At(v).id != s.calls.At(w).id
  {
    RunIsSafe(actions);
  }

  /** The id a posted call, or the handshake once started, waits for. */
  ghost predicate WaitsFor(s: State, w: Waiter, id: nat) {
    if w == INITIALIZE then !s.supervisor.Start? && id == INITIALIZE_ID
    else s.calls.Has(w) && s.calls.At(w) == Sent(id)
  }

  /** The reply sender of a posted call is in exactly one place: queued, in hand, pending, with the
      reader, with the timeouts, answered or dropped. So nobody is answered twice, and a successful
      answer always carries the id of the very request it answers. */
  lemma OneSenderOnePlace(actions: seq<Action>, w: Waiter, id: nat)
    requires WaitsFor(Run(actions), w, id)
    ensures var s := Run(actions);
      && Places(DeskOf(s), id, w) == 1
      && |Got(s, w)| + s.dropped[w] <= 1
      && (Got(s, w) != [] && Got(s, w)[0].Ok? ==> Got(s, w)[0].id == id)
  {
    RunIsSafe(actions);
    var d := DeskOf(Run(actions));
    assert d.ids.Has(w) && d.ids.At(w) == id;
    assert Custody(d, w);
  }

  ghost predicate Posted(s: State, w: Waiter) {
    if w == INITIALIZE then !s.supervisor.Start? else s.calls.Has(w) && s.calls.At(w).Sent?
  }

  /** Whoever has not posted a request has received nothing. */
  lemma StrangersHearNothing(actions: seq<Action>, w: Waiter)
    requires !Posted(Run(actions), w)
    ensures Got(Run(actions), w) == [] && Run(actions).dropped[w] == 0
  {
    RunIsSafe(actions);
    assert Custody(DeskOf(Run(actions)), w);
  }

  /** The duplicate-id rejections are dead code. */
  lemma NoDuplicateIds(actions: seq<Action>)
    ensures var s := Run(actions);
      && (s.supervisor.Insert? ==> !s.pending.Has(s.supervisor.id))
      && (s.supervisor.Start? ==> !s.pending.Has(INITIALIZE_ID))
  {
    RunIsSafe(actions);
    var s := Run(actions);
    if s.supervisor.Insert? { HandNeverDuplicate(DeskOf(s)); }
    SupervisorEnabled(s, false);
    if s.supervisor.Start? { StartIsClear(s); }
  }

  /** On the wire: `initialize`, `initialized`, then request frames with pairwise different ids;
      and `initialized` or a request only after the server accepted the handshake. */
  lemma WireOrder(actions: seq<Action>)
    ensures var s := Run(actions);
      Wire(s.outbound, Accepted(s) && Got(s, INITIALIZE) == [Ok(INITIALIZE_ID)])
    ensures var s := Run(actions);
      forall i, j :: 0 <= i < j < |s.outbound| && s.outbound[i].RequestFrame? && s.outbound[j].RequestFrame? ==>
        s.outbound[i].id != s.outbound[j].id
  {
    RunIsSafe(actions);
    var s := Run(actions);
    if Accepted(s) {
      var d := DeskOf(s);
      assert Custody(d, INITIALIZE);
      assert Got(s, INITIALIZE)[0] in s.answers.entries[INITIALIZE];
    }
    forall i, j | 0 <= i < j < |s.outbound| && s.outbound[i].RequestFrame? && s.outbound[j].RequestFrame?
      ensures s.outbound[i].id != s.outbound[j].id
    {
      FramesDiffer(DeskOf(s), i, j);
    }
  }

  lemma FramesDiffer(d: Desk, i: nat, j: nat)
    requires Sound(d) && i < j < |d.outbound| && d.outbound[i].RequestFrame? && d.outbound[j].RequestFrame?
    ensures d.outbound[i].id != d.outbound[j].id
  {
    var m := d.outbound[i];
    assert m in d.outbound && d.outbound[j] in d.outbound;
    assert Custody(d, m.waiter);
    TwiceCounted(d.outbound, i, j);
  }

  lemma TwiceCounted<T>(s: seq<T>, i: nat, j: nat)
    requires i < j < |s|
    ensures s[i] == s[j] ==> multiset(s)[s[i]] >= 2
  {
    assert s == s[..j] + [s[j]] + s[j + 1..];
    assert s[i] in s[..j];
  }

  /** Start-up is reported at most once and only one way; closing and ending at most once each. */
  lemma EventsAtMostOnce(actions: seq<Action>)
    ensures var events := Run(actions).events;
      && Tally(events, IsReady) + Tally(events, IsFailure) <= 1
      && Tally(events, IsClosed) <= 1
      && Tally(events, IsEnd) <= 1
  {
    RunIsSafe(actions);
  }

  /** A dead transport holds at most one unanswered entry in its pending map. */
  lemma AtMostOneStranded(actions: seq<Action>, i: nat, j: nat)
    requires var s := Run(actions); s.life.Dead? && s.pending.Has(i) && s.pending.Has(j)
    ensures i == j
  {
    RunIsSafe(actions);
  }

  /** Whoever sees the ready flag set may rely on this: the server accepted the handshake and both
      handshake frames are in the log. */
  lemma ReadyMeansAccepted(actions: seq<Action>)
    requires Run(actions).ready
    ensures var s := Run(actions); Opened(s.outbound) && Got(s, INITIALIZE) == [Ok(INITIALIZE_ID)]
  {
    RunIsSafe(actions);
    WireOrder(actions);
    var s := Run(actions);
    assert Wire(s.outbound, Accepted(s) && Got(s, INITIALIZE) == [Ok(INITIALIZE_ID)]);
  }

  lemma RunPushed(actions: seq<Action>, last: Action)
    ensures Run(actions + [last]) == Step(Run(actions), last)
  {
    assert (actions + [last])[..|actions|] == actions;
  }

  lemma {:induction false} OverForGood(start: seq<Action>, after: seq<Action>)
    requires IsOver(Run(start))
    ensures IsOver(Run(start + after))
  {
    if after == [] {
      assert start + after == start;
    } else {
      var init, last := after[..|after| - 1], after[|after| - 1];
      OverForGood(start, init);
      OverOnceMore(start + init, last);
      assert start + after == (start + init) + [last];
    }
  }

  lemma OverOnceMore(actions: seq<Action>, last: Action)
    requires IsOver(Run(actions))
    ensures IsOver(Run(actions + [last]))
  {
    RunIsSafe(actions);
    StepKeepsOver(Run(actions), last);
    RunPushed(actions, last);
  }

  /** If the supervisor had stored the flag when the transport began to end, it is never ready again. */
  lemma NeverReadyAgain(before: seq<Action>, after: seq<Action>)
    requires Run(before).life.Clearing? && IsPastReady(Run(before).supervisor)
    ensures !Run(before + [TerminationMoves] + after).ready
  {
    TerminationClearsReady(Run(before));
    RunPushed(before, TerminationMoves);
    OverForGood(before + [TerminationMoves], after);
  }

  /** A request whose frame was handed to the writer is never dropped. */
  lemma SentIsNeverDropped(actions: seq<Action>, w: Waiter, id: nat)
    requires WaitsFor(Run(actions), w, id) && RequestFrame(id, w) in Run(actions).outbound
    ensures Run(actions).dropped[w] == 0
  {
    RunIsSafe(actions);
    var d := DeskOf(Run(actions));
    assert d.ids.Has(w) && d.ids.At(w) == id;
    assert Custody(d, w);
    CountMember(d.outbound, RequestFrame(id, w));
  }

  predicate AllGone(s: State) { s.supervisor.Gone? && s.reader.ReaderGone? && s.timer.TimerGone? }

  /** When the threads have gone, every posted request has been answered, was dropped so that its
      receiver sees the channel close, or is still filed: exactly one of the three, once. */
  lemma EveryRequestAccounted(actions: seq<Action>, w: Waiter, id: nat)
    requires WaitsFor(Run(actions), w, id) && AllGone(Run(actions))
    ensures var s := Run(actions); |Got(s, w)| + s.dropped[w] + B(s.pending.Has(id) && s.pending.At(id) == w) == 1
  {
    RunIsSafe(actions);
    OneSenderOnePlace(actions, w, id);
  }

  /** Then at most one waiter is left without a word. */
  lemma AtMostOneUnanswered(actions: seq<Action>, v: Waiter, i: nat, w: Waiter, j: nat)
    requires var s := Run(actions); AllGone(s) && s.life.Dead? && WaitsFor(s, v, i) && WaitsFor(s, w, j)
    requires var s := Run(actions); Got(s, v) == Got(s, w) == [] && s.dropped[v] == s.dropped[w] == 0
    ensures v == w
  {
    EveryRequestAccounted(actions, v, i);
    EveryRequestAccounted(actions, w, j);
    AtMostOneStranded(actions, i, j);
  }

  // ---------------------------------------------------------------- what does not hold

  ghost predicate Reachable(s: State) { exists actions :: Run(actions) == s }

  lemma Reach(s: State, action: Action) returns (t: State)
    requires Reachable(s)
    ensures t == Step(s, action) && Reachable(t)
  {
    t := Step(s, action);
    var actions :| Run(actions) == s;
    RunPushed(actions, action);
  }

  /** A supervisor step in which the encoder succeeds and nothing times out. */
  lemma Supervise(s: State) returns (t: State)
    requires Reachable(s)
    ensures t == SupervisorAction(s, false, false) && Reachable(t)
  {
    t := Reach(s, SupervisorMoves(false, false));
  }

  lemma Read(s: State, input: Input) returns (t: State)
    requires Reachable(s)
    ensures t == ReaderAction(s, input) && Reachable(t)
  {
    t := Reach(s, ReaderMoves(input));
  }

  lemma Call(s: State, step: ClientStep) returns (t: State)
    requires Reachable(s)
    ensures t == ClientAction(s, 1, step) && Reachable(t)
  {
    t := Reach(s, ClientMoves(1, step));
  }

  lemma HandshakeAwaited() returns (s: State)
    ensures Reachable(s)
    ensures s == INITIAL.(registered := true, pending := Table(map[1 := 0]), timer := Watching,
                          outbound := [Initialize], supervisor := AwaitInitialize)
  {
    assert Run([]) == INITIAL;
    s := Supervise(INITIAL);
    assert s == INITIAL.(pending := Table(map[1 := 0]), timer := Watching, supervisor := Register);
    s := Supervise(s);
    s := Supervise(s);
  }

  /** The server accepts: the reader hands the response to the waiting supervisor. */
  lemma ResponseDelivered(before: State) returns (s: State)
    requires Reachable(before) && before.reader == Waiting && before.registered && before.pending == Table(map[1 := 0])
    requires before.answers == Table(map[])
    ensures Reachable(s)
    ensures s == before.(pending := Table(map[]), reader := ReadingFrames, answers := Table(map[0 := [Ok(1)]]))
  {
    s := Read(before, Notice);
    assert s == before.(reader := ReadingFrames);
    s := Read(s, Response(1, true));
    assert s == before.(pending := Table(map[]), reader := Delivering(0, 1, Ok(1)));
    s := Read(s, Notice);
    assert Give(before.answers, 0, Ok(1)).entries[0] == [Ok(1)];
    assert Give(before.answers, 0, Ok(1)) == Table(map[0 := [Ok(1)]]);
  }

  /** The supervisor finds the result and sends `initialized`. */
  lemma ResultTaken(before: State) returns (s: State)
    requires Reachable(before) && before.supervisor == AwaitInitialize && Got(before, INITIALIZE) == [Ok(1)]
    requires before.writer == WritingFrames
    ensures Reachable(s) && s == before.(outbound := before.outbound + [Initialized], supervisor := MarkReady)
  {
    s := Supervise(before);
    assert s == before.(supervisor := SendInitialized);
    s := Supervise(s);
  }

  /** A handshake the server accepts, up to the moment before `ready` is published. */
  lemma HandshakeAccepted() returns (s: State)
    ensures Reachable(s)
    ensures s == INITIAL.(registered := true, timer := Watching, outbound := [Initialize, Initialized],
                          reader := ReadingFrames, answers := Table(map[0 := [Ok(1)]]), supervisor := MarkReady)
  {
    s := HandshakeAwaited();
    s := ResponseDelivered(s);
    s := ResultTaken(s);
  }

  /** The stream ends and the reader's `terminate` runs to its end while nothing is pending. */
  lemma StreamEnds(before: State) returns (s: State)
    requires Reachable(before) && before.reader == ReadingFrames && before.life == Alive
    ensures Reachable(s) && s == before.(life := Clearing(Reading, Eof), reader := ReaderWinning(Eof))
  {
    s := Read(before, EndOfStream);
    assert s == before.(reader := ReaderTerminating(Eof));
    s := Read(s, Notice);
  }

  lemma TerminateRuns(before: State) returns (s: State)
    requires Reachable(before) && before.life == Clearing(Reading, Eof) && before.pending == Table(map[])
    ensures Reachable(s) && s == before.(life := Dead(Reading), ready := false, answers := s.answers)
    ensures Got(s, 1) == Got(before, 1)
  {
    s := Reach(before, TerminationMoves);
    assert s == before.(life := Draining(Reading, Eof), ready := false);
    s := Reach(s, TerminationMoves);
  }

  /** `ready` does not imply `alive`: it is published after the reader has already ended the
      transport and cleared it. */
  lemma ReadyAfterDeath()
    ensures exists s :: Reachable(s) && s.ready && s.life.Dead?
  {
    var s := HandshakeAccepted();
    s := StreamEnds(s);
    s := TerminateRuns(s);
    s := Supervise(s);
  }

  lemma SupervisorListens(before: State) returns (s: State)
    requires Reachable(before) && before.supervisor == MarkReady && before.life == Alive
    ensures Reachable(s) && s == before.(ready := true, events := s.events, supervisor := Receive)
  {
    s := Supervise(before);
    assert s == before.(ready := true, supervisor := EmitReady);
    s := Supervise(s);
    assert s == before.(ready := true, events := s.events, supervisor := Loop);
    s := Supervise(s);
  }

  lemma CallNumbered(before: State) returns (s: State)
    requires Reachable(before) && before.calls == Table(map[]) && !before.handleDropped && before.nextId == 2
    ensures Reachable(s) && s == before.(calls := Table(map[1 := Numbered(2)]), nextId := 3)
  {
    s := Call(before, Load);
    assert s == before.(calls := Table(map[1 := Allocating(2)]));
    s := Call(s, CompareExchange(false));
  }

  lemma RequestPosted(before: State) returns (s: State)
    requires Reachable(before) && before.calls == Table(map[1 := Numbered(2)]) && before.life == Alive
    requires before.receiverOpen && before.queue == []
    ensures Reachable(s) && s == before.(calls := Table(map[1 := Sent(2)]), queue := [Request(2, 1)])
  {
    s := Call(before, Admit(true));
    assert s == before.(calls := Table(map[1 := Admitted(2)]));
    s := Call(s, Post);
  }

  /** The supervisor takes the request and finds the transport alive. */
  lemma RequestAdmitted(before: State) returns (s: State)
    requires Reachable(before) && before.supervisor == Receive && before.queue == [Request(2, 1)]
    requires before.life == Alive
    ensures Reachable(s) && s == before.(queue := [], supervisor := Insert(2, 1))
  {
    s := Supervise(before);
    assert s == before.(queue := [], supervisor := Hold(2, 1));
    s := Supervise(s);
  }

  lemma RequestInHand() returns (s: State)
    ensures Reachable(s) && s.supervisor == Insert(2, 1) && s.life == Alive
    ensures s.reader == ReadingFrames && s.writer == WritingFrames
  {
    s := HandshakeAccepted();
    s := SupervisorListens(s);
    s := CallNumbered(s);
    s := RequestPosted(s);
    s := RequestAdmitted(s);
  }
}
