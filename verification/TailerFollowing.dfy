/** Following one growing file: windowed polls agree with one full scan.

    The agreement needs the window to reach back to the last complete line, and no line read again
    to pass as new under the model carried to it. The second condition can fail, and then an event
    is returned twice.
 */
module TailerFollowing {
  import opened Common
  import opened Usage
  import opened LineCodec
  import opened Novelty
  import opened Tailer
  import opened TailerTheorems

  /** The lines of a file's content, read in full. */
  function AllLines(format: Format, content: seq<Byte>): seq<Line> { Parsed(format, Pieces(content)) }

  function AllEvents(format: Format, content: seq<Byte>, time: Time): seq<TokenEvent> {
    EventsIn(AllLines(format, content), None, time)
  }

  /** The events of one full scan, each fingerprint once. */
  function FullScan(format: Format, content: seq<Byte>, time: Time): seq<TokenEvent> {
    Unseen(AllEvents(format, content, time), KeyOf, {})
  }

  // ---------------------------------------------------------------- lines read again

  /** The event of a line in a scan of these lines. */
  function EventAt(lines: seq<Line>, i: nat, initial: Option<string>, time: Time): TokenEvent
    requires i < |lines| && lines[i].Counted?
  {
    EventOf(lines[i], ModelAfter(lines[..i], initial), time.here)
  }

  predicate IsOfDay(line: Line, time: Time) { line.Counted? && ClockOf(line, time.here).day == time.day }

  lemma {:induction false} EventAmong(lines: seq<Line>, i: nat, initial: Option<string>, time: Time)
    requires i < |lines| && IsOfDay(lines[i], time)
    ensures EventAt(lines, i, initial, time) in EventsIn(lines, initial, time)
  {
    if i < |lines| - 1 {
      var init := lines[..|lines| - 1];
      EventAmong(init, i, initial, time);
      assert init[..i] == lines[..i];
    }
  }

  lemma {:induction false} EventFrom(lines: seq<Line>, e: TokenEvent, initial: Option<string>, time: Time)
    returns (i: nat)
    requires e in EventsIn(lines, initial, time)
    ensures i < |lines| && IsOfDay(lines[i], time) && e == EventAt(lines, i, initial, time)
  {
    var init := lines[..|lines| - 1];
    if e in EventsIn(init, initial, time) {
      i := EventFrom(init, e, initial, time);
      assert init[..i] == lines[..i];
    } else {
      i := |init|;
    }
  }

  predicate NamesModel(lines: seq<Line>) { exists j :: 0 <= j < |lines| && lines[j].Context? }

  /** A model named on the way, or else the one carried in. */
  lemma {:induction false} ModelForgets(lines: seq<Line>, x: Option<string>, y: Option<string>)
    ensures if NamesModel(lines) then ModelAfter(lines, x) == ModelAfter(lines, y) else ModelAfter(lines, x) == x
  {
    if lines != [] {
      var init := lines[..|lines| - 1];
      ModelForgets(init, x, y);
      assert forall j :: 0 <= j < |init| ==> init[j] == lines[j];
    }
  }

  /** Line `k` passes as new when reading starts again at line `a`: it and the lines since `a` name
      no model, and under the one carried in its fingerprint was not seen. */
  predicate ComesBack(lines: seq<Line>, a: nat, k: nat, carried: Option<string>, time: Time, seen: set<Key>) {
    && a <= k < |lines| && IsOfDay(lines[k], time) && lines[k].own.None?
    && !NamesModel(lines[a..k])
    && KeyOf(EventOf(lines[k], carried, time.here)) !in seen
  }

  lemma KnownEvent(lines: seq<Line>, k: nat, initial: Option<string>, time: Time, seen: set<Key>)
    requires k < |lines| && IsOfDay(lines[k], time) && Keys(EventsIn(lines, initial, time), KeyOf) <= seen
    ensures KeyOf(EventAt(lines, k, initial, time)) in seen
  {
    EventAmong(lines, k, initial, time);
  }

  /** Any other line read again has the fingerprint it had. */
  lemma ReadAgain(lines: seq<Line>, a: nat, k: nat, initial: Option<string>, carried: Option<string>,
                  time: Time, seen: set<Key>)
    requires a <= k < |lines| && IsOfDay(lines[k], time) && Keys(EventsIn(lines, initial, time), KeyOf) <= seen
    ensures KeyOf(EventAt(lines[a..], k - a, carried, time)) !in seen <==> ComesBack(lines, a, k, carried, time, seen)
  {
    var since, upTo := lines[a..k], lines[..k];
    assert lines[a..][..k - a] == since && upTo == lines[..a] + since;
    KnownEvent(lines, k, initial, time, seen);
    ModelOnward(lines[..a], since, initial);
    ModelForgets(since, carried, ModelAfter(lines[..a], initial));
  }

  lemma OneComesBack(lines: seq<Line>, a: nat, k: nat, initial: Option<string>, carried: Option<string>,
                     time: Time, seen: set<Key>)
    requires Keys(EventsIn(lines, initial, time), KeyOf) <= seen && ComesBack(lines, a, k, carried, time, seen)
    ensures !(Keys(EventsIn(lines[a..], carried, time), KeyOf) <= seen)
  {
    ReadAgain(lines, a, k, initial, carried, time, seen);
    EventAmong(lines[a..], k - a, carried, time);
  }

  lemma KeyComesBack(lines: seq<Line>, a: nat, initial: Option<string>, carried: Option<string>,
                     time: Time, seen: set<Key>, e: TokenEvent)
    returns (k: nat)
    requires a <= |lines| && Keys(EventsIn(lines, initial, time), KeyOf) <= seen
    requires e in EventsIn(lines[a..], carried, time)
    ensures KeyOf(e) in seen || ComesBack(lines, a, k, carried, time, seen)
  {
    var i := EventFrom(lines[a..], e, carried, time);
    k := a + i;
    ReadAgain(lines, a, k, initial, carried, time, seen);
  }

  /** So something passes as new exactly if some line comes back. */
  lemma ComesBackIff(lines: seq<Line>, a: nat, initial: Option<string>, carried: Option<string>,
                     time: Time, seen: set<Key>)
    requires a <= |lines| && Keys(EventsIn(lines, initial, time), KeyOf) <= seen
    ensures Unseen(EventsIn(lines[a..], carried, time), KeyOf, seen) == []
      <==> forall k :: !ComesBack(lines, a, k, carried, time, seen)
  {
    var again := EventsIn(lines[a..], carried, time);
    NothingUnseenIff(again, KeyOf, seen);
    if k :| ComesBack(lines, a, k, carried, time, seen) {
      OneComesBack(lines, a, k, initial, carried, time, seen);
    } else {
      forall e | e in again ensures KeyOf(e) in seen {
        var k := KeyComesBack(lines, a, initial, carried, time, seen, e);
      }
    }
  }

  lemma {:induction false} ContextFirst(lines: seq<Line>, x: Option<string>, y: Option<string>, time: Time)
    requires lines != [] && lines[0].Context?
    ensures ModelAfter(lines, x) == ModelAfter(lines, y) && EventsIn(lines, x, time) == EventsIn(lines, y, time)
  {
    var init := lines[..|lines| - 1];
    if init != [] { ContextFirst(init, x, y, time); }
  }

  // ---------------------------------------------------------------- one poll

  /** What was known before the file grew: its complete lines, and what an incomplete last line
      already meant; and the lines that replace that last one. */
  datatype Growth = Growth(known: seq<Line>, torn: seq<Line>, added: seq<Line>)

  /** An incomplete last line meant nothing yet, or what it means when complete. */
  predicate IsWhole(g: Growth) {
    |g.torn| <= 1 && (g.torn == [] || g.torn[0].Other? || (g.added != [] && g.added[0] == g.torn[0]))
  }

  function Before(g: Growth): seq<Line> { g.known + g.torn }

  function Now(g: Growth): seq<Line> { g.known + g.added }

  /** What a tailer that follows a file has to show for it: the events of the files before it, the model
      the first line of this one is read under, and the model it carries to the next read. */
  datatype Sight = Sight(past: seq<TokenEvent>, initial: Option<string>, carried: Option<string>)

  /** Full scans of the files before and of these lines, one after the other. */
  function ScanOf(f: Sight, lines: seq<Line>, time: Time): seq<TokenEvent> {
    f.past + EventsIn(lines, f.initial, time)
  }

  /** The model carried is the one a scan of these lines ends with. */
  predicate IsCurrent(f: Sight, lines: seq<Line>) { f.carried == ModelAfter(lines, f.initial) }

  /** Read again from line `a`, the added lines start under the model of a full scan, or name their own. */
  predicate HasRightModel(g: Growth, a: nat, f: Sight)
    requires a <= |g.known|
  {
    || ModelAfter(g.known[a..], f.carried) == ModelAfter(g.known, f.initial)
    || (g.added != [] && g.added[0].Context?)
  }

  lemma AddedAlike(g: Growth, a: nat, f: Sight, time: Time)
    requires a <= |g.known| && HasRightModel(g, a, f)
    ensures var x, y := ModelAfter(g.known[a..], f.carried), ModelAfter(g.known, f.initial);
      EventsIn(g.added, x, time) == EventsIn(g.added, y, time) && ModelAfter(g.added, x) == ModelAfter(g.added, y)
  {
    var x, y := ModelAfter(g.known[a..], f.carried), ModelAfter(g.known, f.initial);
    if x != y { ContextFirst(g.added, x, y, time); }
  }

  /** A tailer that carries the current model has the right one from wherever it reads again. */
  lemma CurrentIsRight(g: Growth, a: nat, f: Sight)
    requires IsWhole(g) && a <= |g.known| && IsCurrent(f, Before(g))
    ensures HasRightModel(g, a, f)
  {
    var y := ModelAfter(g.known, f.initial);
    assert g.known == g.known[..a] + g.known[a..];
    ModelOnward(g.known[..a], g.known[a..], f.initial);
    ModelForgets(g.known[a..], f.carried, ModelAfter(g.known[..a], f.initial));
    ModelForgets(g.known[a..], ModelAfter(g.known[..a], f.initial), f.carried);
    ModelOnward(g.known, g.torn, f.initial);
    if !(g.torn != [] && g.torn[0].Context?) { TornSilent(g.torn, y); }
  }

  /** So has one that names a model on the way, whatever it carries. */
  lemma NamedIsRight(g: Growth, a: nat, f: Sight)
    requires a <= |g.known| && NamesModel(g.known[a..])
    ensures HasRightModel(g, a, f)
  {
    assert g.known == g.known[..a] + g.known[a..];
    ModelOnward(g.known[..a], g.known[a..], f.initial);
    ModelForgets(g.known[a..], f.carried, ModelAfter(g.known[..a], f.initial));
  }

  lemma TornSilent(torn: seq<Line>, model: Option<string>)
    requires |torn| <= 1 && (torn != [] ==> !torn[0].Context?)
    ensures ModelAfter(torn, model) == model
  {
    if torn != [] { assert torn[..0] == []; }
  }

  /** The incomplete last line contributed nothing, or the first of the events it contributes now. */
  lemma TornEvents(g: Growth, model: Option<string>, time: Time) returns (more: seq<TokenEvent>)
    requires IsWhole(g)
    ensures EventsIn(g.torn, model, time) == []
      || EventsIn(g.added, model, time) == EventsIn(g.torn, model, time) + more
  {
    more := [];
    if g.torn != [] {
      assert g.torn == [g.torn[0]] && g.torn[..0] == [];
      if !g.torn[0].Other? {
        assert g.added == g.torn + g.added[1..];
        EventsOnward(g.torn, g.added[1..], model, time);
        more := EventsIn(g.added[1..], ModelAfter(g.torn, model), time);
      }
    }
  }

  /** The tailer holds exactly what the scans find, and has returned it. */
  ghost predicate HasCaughtUp(s: TailerState, returned: seq<TokenEvent>, f: Sight, lines: seq<Line>, time: Time) {
    && s.day == Some(time.day) && s.model == f.carried
    && s.seen == Keys(ScanOf(f, lines, time), KeyOf)
    && returned == Unseen(ScanOf(f, lines, time), KeyOf, {})
  }

  /** What a read of a suffix of the known lines and the added ones comes to. */
  lemma SuffixRead(s: TailerState, g: Growth, a: nat, f: Sight, time: Time)
    requires a <= |g.known| && HasRightModel(g, a, f) && s.model == f.carried
    ensures var again, added := EventsIn(g.known[a..], f.carried, time),
      EventsIn(g.added, ModelAfter(g.known, f.initial), time);
      Read(s, g.known[a..] + g.added, time)
        == (s.(seen := s.seen + Keys(again + added, KeyOf), model := ModelAfter(Now(g), f.initial)),
           Unseen(again + added, KeyOf, s.seen))
  {
    EventsOnward(g.known[a..], g.added, s.model, time);
    ModelOnward(g.known[a..], g.added, s.model);
    ModelOnward(g.known, g.added, f.initial);
    AddedAlike(g, a, f, time);
  }

  /** The fingerprints of what was known. */
  function SeenBefore(g: Growth, f: Sight, time: Time): set<Key> { Keys(ScanOf(f, Before(g), time), KeyOf) }

  /** The old lines read again that pass as new, and the new lines that do. */
  function Returning(g: Growth, a: nat, f: Sight, time: Time): seq<TokenEvent>
    requires a <= |g.known|
  {
    Unseen(EventsIn(g.known[a..], f.carried, time), KeyOf, SeenBefore(g, f, time))
  }

  function Arriving(g: Growth, f: Sight, time: Time): seq<TokenEvent> {
    Unseen(EventsIn(g.added, ModelAfter(g.known, f.initial), time), KeyOf, SeenBefore(g, f, time))
  }

  ghost predicate NothingReturns(g: Growth, a: nat, f: Sight, time: Time) {
    forall k :: !ComesBack(g.known, a, k, f.carried, time, SeenBefore(g, f, time))
  }

  lemma KnownSeen(g: Growth, f: Sight, time: Time)
    ensures Keys(EventsIn(g.known, f.initial, time), KeyOf) <= SeenBefore(g, f, time)
  {
    var known, torn := EventsIn(g.known, f.initial, time), EventsIn(g.torn, ModelAfter(g.known, f.initial), time);
    EventsOnward(g.known, g.torn, f.initial, time);
    KeysOnward(known, torn, KeyOf, {});
    KeysOnward(f.past, known + torn, KeyOf, {});
  }

  lemma NothingReturnsIff(g: Growth, a: nat, f: Sight, time: Time)
    requires a <= |g.known|
    ensures Returning(g, a, f, time) == [] <==> NothingReturns(g, a, f, time)
  {
    KnownSeen(g, f, time);
    ComesBackIff(g.known, a, f.initial, f.carried, time, SeenBefore(g, f, time));
  }

  /** The sight after a read that took in these lines. */
  function Onward(f: Sight, lines: seq<Line>): Sight { f.(carried := ModelAfter(lines, f.initial)) }

  lemma ScanInTwo(f: Sight, known: seq<Line>, more: seq<Line>, time: Time)
    ensures ScanOf(f, known + more, time) == ScanOf(f, known, time) + EventsIn(more, ModelAfter(known, f.initial), time)
  {
    EventsOnward(known, more, f.initial, time);
  }

  /** Reading a suffix of the lines catches up with all of them exactly if the old lines that pass as
      new are the first of the new ones: as a rule, if there is none. */
  lemma ReadingCatchesUp(s: TailerState, returned: seq<TokenEvent>, g: Growth, a: nat, f: Sight, time: Time)
    requires IsWhole(g) && a <= |g.known| && HasRightModel(g, a, f) && HasCaughtUp(s, returned, f, Before(g), time)
    ensures var (t, events) := Read(s, g.known[a..] + g.added, time);
      && (HasCaughtUp(t, returned + events, Onward(f, Now(g)), Now(g), time)
          <==> Returning(g, a, f, time) <= Arriving(g, f, time))
      && (returned + events == Unseen(ScanOf(f, Now(g), time), KeyOf, {})
          <==> Returning(g, a, f, time) <= Arriving(g, f, time))
      && t.file == s.file
  {
    var model := ModelAfter(g.known, f.initial);
    var again, known := EventsIn(g.known[a..], f.carried, time), ScanOf(f, g.known, time);
    var torn, added := EventsIn(g.torn, model, time), EventsIn(g.added, model, time);
    SuffixRead(s, g, a, f, time);
    ScanInTwo(f, g.known, g.torn, time);
    ScanInTwo(f, g.known, g.added, time);
    var more := TornEvents(g, model, time);
    CatchingUpIff(again, known, torn, added, more, KeyOf);
    if Returning(g, a, f, time) <= Arriving(g, f, time) { SeenAlike(again, known, torn, added, more, KeyOf); }
  }

  // ---------------------------------------------------------------- a file that grows

  function GrowthOf(format: Format, content: seq<Byte>, more: seq<Byte>): Growth {
    var (lines, tail) := SplitLines(content);
    Growth(Parsed(format, lines), Parsed(format, if tail == [] then [] else [tail]),
      Parsed(format, Pieces(tail + more)))
  }

  lemma ParsedOnward(format: Format, a: seq<seq<Byte>>, b: seq<seq<Byte>>)
    ensures Parsed(format, a + b) == Parsed(format, a) + Parsed(format, b)
  {}

  lemma GrowthHolds(format: Format, content: seq<Byte>, more: seq<Byte>)
    ensures var g := GrowthOf(format, content, more);
      AllLines(format, content) == Before(g) && AllLines(format, content + more) == Now(g)
  {
    var (lines, tail) := SplitLines(content);
    SplitIsJoin(content);
    assert content + more == Join(lines) + (tail + more);
    PiecesOnward(lines, tail + more);
    ParsedOnward(format, lines, if tail == [] then [] else [tail]);
    ParsedOnward(format, lines, Pieces(tail + more));
    if tail == [] { assert lines + [] == lines; }
  }

  /** The bytes a tail read looks at. */
  function Window(bytes: seq<Byte>): seq<Byte> {
    var start := Start(bytes, true);
    if start.Some? && start.value <= |bytes| then bytes[start.value..] else []
  }

  /** The window is the whole file, or reaches back past what follows the last complete line. */
  predicate ReachesBack(content: seq<Byte>, more: seq<Byte>) {
    |content| + |more| <= TAIL_READ_BYTES || |SplitLines(content).1| + |more| < TAIL_READ_BYTES
  }

  /** The poll after a growth reads from the known line `a` on. */
  predicate ReadsFrom(format: Format, content: seq<Byte>, more: seq<Byte>, a: nat) {
    var g := GrowthOf(format, content, more);
    a <= |g.known| && LinesRead(format, Some(content + more), true) == Some(g.known[a..] + g.added)
  }

  /** The window of a poll reads a suffix of the known lines, and all that was added. */
  lemma WindowOfGrowth(format: Format, content: seq<Byte>, more: seq<Byte>) returns (a: nat)
    requires ReachesBack(content, more) && format.isText(Window(content + more))
    ensures ReadsFrom(format, content, more, a)
    ensures |content| + |more| <= TAIL_READ_BYTES ==> a == 0
  {
    if |content| + |more| <= TAIL_READ_BYTES {
      a := 0;
      GrowthHolds(format, content, more);
      assert (content + more)[0..] == content + more;
      var g := GrowthOf(format, content, more);
      assert g.known[0..] == g.known;
    } else {
      a := WindowOfLongFile(format, content, more);
    }
  }

  lemma WindowOfLongFile(format: Format, content: seq<Byte>, more: seq<Byte>) returns (a: nat)
    requires |SplitLines(content).1| + |more| < TAIL_READ_BYTES
    requires format.isText(Window(content + more))
    ensures ReadsFrom(format, content, more, a)
  {
    var (lines, tail) := SplitLines(content);
    SplitIsJoin(content);
    assert content + more == Join(lines) + (tail + more);
    a := WindowIsSuffix(lines, tail + more);
    ParsedOnward(format, lines[a..], Pieces(tail + more));
    assert Parsed(format, lines)[a..] == Parsed(format, lines[a..]);
  }

  /** There is but one such line. */
  lemma ReadsFromOne(format: Format, content: seq<Byte>, more: seq<Byte>, a: nat, b: nat)
    requires ReadsFrom(format, content, more, a) && ReadsFrom(format, content, more, b)
    ensures a == b
  {
    var g := GrowthOf(format, content, more);
    assert |g.known[a..] + g.added| == |g.known[b..] + g.added|;
  }

  /** Each line that counts has a time stamp of its own. */
  predicate AllStamped(lines: seq<Line>) { forall k :: 0 <= k < |lines| && lines[k].Counted? ==> lines[k].clock.Some? }

  lemma StampedSuffix(known: seq<Line>, added: seq<Line>, a: nat)
    requires a <= |known|
    ensures AllStamped(known + added) ==> AllStamped(known[a..] + added)
  {
    forall k | 0 <= k < |known[a..] + added| ensures (known[a..] + added)[k] == (known + added)[a + k] {}
  }

  /** The clock of the poll makes no difference: it is that of the scan, or no line needs it. */
  predicate IsTimely(here: Clock, time: Time, lines: seq<Line>) { here == time.here || AllStamped(lines) }

  lemma {:induction false} StampedAlike(lines: seq<Line>, initial: Option<string>, time: Time, other: Time)
    requires AllStamped(lines) && time.day == other.day
    ensures EventsIn(lines, initial, time) == EventsIn(lines, initial, other)
  {
    if lines != [] { StampedAlike(lines[..|lines| - 1], initial, time, other); }
  }

  // ---------------------------------------------------------------- one poll of the same file

  /** The file followed, what has been read of it, and what that adds up to. */
  datatype Follow = Follow(file: Option<Path>, content: seq<Byte>, sight: Sight)

  /** What a poll after one growth of the file finds. */
  ghost predicate SeesGrowth(format: Format, f: Follow, more: seq<Byte>, time: Time, look: Look) {
    && f.file.Some? && (look.listing.due ==> look.listing.newest == f.file)
    && Content(look.disk, f.file.value) == Some(f.content + more)
    && ReachesBack(f.content, more) && format.isText(Window(f.content + more))
    && IsWhole(GrowthOf(format, f.content, more))
    && IsTimely(look.here, time, AllLines(format, f.content + more))
  }

  lemma PollIsRead(format: Format, s: TailerState, f: Follow, more: seq<Byte>, time: Time, look: Look, a: nat)
    requires s.day == Some(time.day) && s.file == f.file && SeesGrowth(format, f, more, time, look)
    requires ReadsFrom(format, f.content, more, a)
    ensures var g := GrowthOf(format, f.content, more);
      var (t, events) := Read(s, g.known[a..] + g.added, time);
      Polled(format, s, Time(time.day, look.here), look.listing, look.disk)
        == (t, if events == [] then None else Some(Batch(events, false)))
  {
    var g := GrowthOf(format, f.content, more);
    GrowthHolds(format, f.content, more);
    assert AllStamped(Now(g)) ==> AllStamped(g.known[a..] + g.added) by { StampedSuffix(g.known, g.added, a); }
    if look.here != time.here {
      StampedAlike(g.known[a..] + g.added, s.model, time, Time(time.day, look.here));
    }
  }

  /** The tailer follows this, holds what the scans find, and has returned it. */
  ghost predicate KeepsUp(format: Format, s: TailerState, returned: seq<TokenEvent>, f: Follow, time: Time) {
    s.file == f.file && HasCaughtUp(s, returned, f.sight, AllLines(format, f.content), time)
  }

  function AfterGrowth(format: Format, f: Follow, more: seq<Byte>): Follow {
    Follow(f.file, f.content + more, Onward(f.sight, AllLines(format, f.content + more)))
  }

  function EventsOf(batch: Option<Batch>): seq<TokenEvent> { if batch.Some? then batch.value.events else [] }

  /** One poll after one growth of the file: read again under the right model, it brings the tailer up to
      a full scan of all of it exactly if the old lines that pass as new are the first of the new ones,
      and none does exactly if no line comes back. */
  lemma PollKeepsUpIff(format: Format, s: TailerState, f: Follow, more: seq<Byte>, time: Time, look: Look,
                       returned: seq<TokenEvent>, a: nat)
    requires KeepsUp(format, s, returned, f, time) && SeesGrowth(format, f, more, time, look)
    requires ReadsFrom(format, f.content, more, a)
    requires HasRightModel(GrowthOf(format, f.content, more), a, f.sight)
    ensures var g, next := GrowthOf(format, f.content, more), AfterGrowth(format, f, more);
      var (t, batch) := Polled(format, s, Time(time.day, look.here), look.listing, look.disk);
      var all := returned + EventsOf(batch);
      && (all == Unseen(ScanOf(f.sight, AllLines(format, next.content), time), KeyOf, {})
          <==> Returning(g, a, f.sight, time) <= Arriving(g, f.sight, time))
      && (KeepsUp(format, t, all, next, time) <==> Returning(g, a, f.sight, time) <= Arriving(g, f.sight, time))
      && (Returning(g, a, f.sight, time) == [] <==> NothingReturns(g, a, f.sight, time))
  {
    var g := GrowthOf(format, f.content, more);
    GrowthHolds(format, f.content, more);
    PollIsRead(format, s, f, more, time, look, a);
    ReadingCatchesUp(s, returned, g, a, f.sight, time);
    NothingReturnsIff(g, a, f.sight, time);
    var events := Read(s, g.known[a..] + g.added, time).1;
    assert events == [] ==> returned + events == returned;
  }

  /** From where this poll starts to read, the model is right and no line comes back. */
  ghost predicate IsQuiet(format: Format, f: Follow, more: seq<Byte>, time: Time) {
    var g := GrowthOf(format, f.content, more);
    forall a | ReadsFrom(format, f.content, more, a) ::
      HasRightModel(g, a, f.sight) && NothingReturns(g, a, f.sight, time)
  }

  lemma PollKeepsUp(format: Format, s: TailerState, f: Follow, more: seq<Byte>, time: Time, look: Look,
                    returned: seq<TokenEvent>)
    requires KeepsUp(format, s, returned, f, time) && SeesGrowth(format, f, more, time, look)
    requires IsQuiet(format, f, more, time)
    ensures var (t, batch) := Polled(format, s, Time(time.day, look.here), look.listing, look.disk);
      KeepsUp(format, t, returned + EventsOf(batch), AfterGrowth(format, f, more), time)
  {
    var a := WindowOfGrowth(format, f.content, more);
    PollKeepsUpIff(format, s, f, more, time, look, returned, a);
  }
}
