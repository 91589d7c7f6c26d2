/** Any run of polls: a first look at the files of the day, then growth of the file that is followed
    and moves to other files, in any order.
 */
module TailerRuns {
  import opened Common
  import opened Usage
  import opened LineCodec
  import opened Novelty
  import opened Tailer
  import opened TailerTheorems
  import opened TailerFollowing

  // ---------------------------------------------------------------- moving to another file

  /** A search has found another file to follow. */
  ghost predicate SeesSwitch(format: Format, file: Option<Path>, next: Path, content: seq<Byte>, time: Time,
                             look: Look) {
    && look.listing.due && look.listing.newest == Some(next) && Some(next) != file
    && Content(look.disk, next) == Some(content) && format.isText(content)
    && IsTimely(look.here, time, AllLines(format, content))
  }

  /** The poll that moves to another file returns exactly the events of all its lines, however long it is
      and whatever model was carried before, whose fingerprints were not seen. */
  lemma SwitchReadsAll(format: Format, s: TailerState, next: Path, content: seq<Byte>, time: Time, look: Look)
    requires s.day == Some(time.day) && SeesSwitch(format, s.file, next, content, time, look)
    ensures var (t, batch) := Polled(format, s, Time(time.day, look.here), look.listing, look.disk);
      var all := AllEvents(format, content, time);
      && EventsOf(batch) == Unseen(all, KeyOf, s.seen)
      && t == TailerState(Some(next), s.day, s.seen + Keys(all, KeyOf), ModelAfter(AllLines(format, content), None))
  {
    assert content[0..] == content;
    assert LinesOrNone(format, Some(content), false) == AllLines(format, content);
    if look.here != time.here { StampedAlike(AllLines(format, content), None, time, Time(time.day, look.here)); }
  }

  /** All that was followed before is past now. */
  function Left(format: Format, f: Follow, time: Time): seq<TokenEvent> {
    ScanOf(f.sight, AllLines(format, f.content), time)
  }

  function AfterSwitch(format: Format, f: Follow, next: Path, content: seq<Byte>, time: Time): Follow {
    Follow(Some(next), content, Sight(Left(format, f, time), None, ModelAfter(AllLines(format, content), None)))
  }

  lemma SwitchKeepsUp(format: Format, s: TailerState, f: Follow, next: Path, content: seq<Byte>, time: Time, look: Look,
                      returned: seq<TokenEvent>)
    requires KeepsUp(format, s, returned, f, time) && SeesSwitch(format, f.file, next, content, time, look)
    ensures var (t, batch) := Polled(format, s, Time(time.day, look.here), look.listing, look.disk);
      KeepsUp(format, t, returned + EventsOf(batch), AfterSwitch(format, f, next, content, time), time)
  {
    SwitchReadsAll(format, s, next, content, time, look);
    UnseenFromNothing(Left(format, f, time), AllEvents(format, content, time), KeyOf);
    KeysOnward(Left(format, f, time), AllEvents(format, content, time), KeyOf, {});
  }

  // ---------------------------------------------------------------- losing sight of all files

  ghost predicate SeesNothing(f: Follow, look: Look) {
    look.listing.newest.None? && (f.file.Some? ==> look.listing.due)
  }

  function AfterLoss(format: Format, f: Follow, time: Time): Follow {
    Follow(None, [], Sight(Left(format, f, time), None, if f.file.Some? then None else f.sight.carried))
  }

  lemma NoLines(format: Format)
    ensures AllLines(format, []) == []
  {}

  lemma LossKeepsUp(format: Format, s: TailerState, f: Follow, time: Time, look: Look, returned: seq<TokenEvent>)
    requires KeepsUp(format, s, returned, f, time) && SeesNothing(f, look)
    ensures var (t, batch) := Polled(format, s, Time(time.day, look.here), look.listing, look.disk);
      batch.None? && KeepsUp(format, t, returned, AfterLoss(format, f, time), time)
  {
    NoLines(format);
    assert Left(format, f, time) + [] == Left(format, f, time);
  }

  // ---------------------------------------------------------------- the first look

  lemma {:induction false} LinesOfMore(format: Format, disk: Disk, files: seq<Path>, n: nat) returns (rest: seq<Line>)
    requires n <= |files|
    ensures LinesOfAll(format, disk, files) == LinesOfAll(format, disk, files[..n]) + rest
    ensures n == |files| ==> rest == []
  {
    if n == |files| {
      rest := [];
      assert files[..n] == files;
    } else {
      var init := files[..|files| - 1];
      var before := LinesOfMore(format, disk, init, n);
      assert init[..n] == files[..n];
      rest := before + LinesOrNone(format, Content(disk, files[|files| - 1]), false);
    }
  }

  /** The files of the day have been listed; one of them is the newest, or there is none. */
  ghost predicate Opens(format: Format, current: Option<nat>, time: Time, look: Look) {
    var files := look.listing.dayFiles;
    && IsTimely(look.here, time, LinesOfAll(format, look.disk, files))
    && match current
       case None => look.listing.newest.None?
       case Some(j) =>
         && j < |files| && look.listing.newest == Some(files[j])
         && files[j] in look.disk && format.isText(look.disk[files[j]])
  }

  /** What the first look leaves the tailer with. The newest file is followed from the model the files
      listed before it end with; if others are listed after it, they are past already. */
  function Opening(format: Format, current: Option<nat>, time: Time, look: Look): Follow
    requires current.Some? ==>
      current.value < |look.listing.dayFiles| && look.listing.dayFiles[current.value] in look.disk
  {
    var files := look.listing.dayFiles;
    var all := LinesOfAll(format, look.disk, files);
    if current.None? then Follow(None, [], Sight(EventsIn(all, None, time), None, ModelAfter(all, None)))
    else
      var j := current.value;
      var earlier := LinesOfAll(format, look.disk, files[..j]);
      Follow(Some(files[j]), look.disk[files[j]],
             Sight(EventsIn(if j + 1 == |files| then earlier else all, None, time), ModelAfter(earlier, None),
                   ModelAfter(all, None)))
  }

  /** Events scanned once more add nothing. */
  lemma ScannedTwice(all: seq<TokenEvent>, some: seq<TokenEvent>)
    requires Keys(some, KeyOf) <= Keys(all, KeyOf)
    ensures Unseen(all + some, KeyOf, {}) == Unseen(all, KeyOf, {}) && Keys(all + some, KeyOf) == Keys(all, KeyOf)
  {
    UnseenFromNothing(all, some, KeyOf);
    NothingUnseen(some, KeyOf, Keys(all, KeyOf));
    KeysOnward(all, some, KeyOf, {});
  }

  lemma PartIsScanned(a: seq<Line>, b: seq<Line>, c: seq<Line>, time: Time)
    ensures Keys(EventsIn(b, ModelAfter(a, None), time), KeyOf) <= Keys(EventsIn((a + b) + c, None, time), KeyOf)
  {
    EventsOnward(a, b, None, time);
    EventsOnward(a + b, c, None, time);
    var x, y := EventsIn(a, None, time), EventsIn(b, ModelAfter(a, None), time);
    KeysOnward(x, y, KeyOf, {});
    KeysOnward(x + y, EventsIn(c, ModelAfter(a + b, None), time), KeyOf, {});
  }

  lemma OpeningLines(format: Format, disk: Disk, files: seq<Path>, current: nat) returns (rest: seq<Line>)
    requires current < |files| && files[current] in disk && format.isText(disk[files[current]])
    ensures LinesOfAll(format, disk, files)
      == (LinesOfAll(format, disk, files[..current]) + AllLines(format, disk[files[current]])) + rest
    ensures current + 1 == |files| ==> rest == []
  {
    var content := disk[files[current]];
    assert content[0..] == content;
    assert files[..current + 1][..current] == files[..current];
    rest := LinesOfMore(format, disk, files, current + 1);
  }

  lemma OpenedLines(earlier: seq<Line>, lines: seq<Line>, rest: seq<Line>, time: Time)
    ensures EventsIn(earlier, None, time) + EventsIn(lines, ModelAfter(earlier, None), time)
      == EventsIn(earlier + lines, None, time)
    ensures var all := EventsIn((earlier + lines) + rest, None, time);
      var scan := all + EventsIn(lines, ModelAfter(earlier, None), time);
      Unseen(scan, KeyOf, {}) == Unseen(all, KeyOf, {}) && Keys(scan, KeyOf) == Keys(all, KeyOf)
  {
    EventsOnward(earlier, lines, None, time);
    PartIsScanned(earlier, lines, rest, time);
    ScannedTwice(EventsIn((earlier + lines) + rest, None, time), EventsIn(lines, ModelAfter(earlier, None), time));
  }

  lemma OpeningScans(format: Format, current: nat, time: Time, look: Look)
    requires Opens(format, Some(current), time, look)
    ensures var f := Opening(format, Some(current), time, look);
      var all := EventsIn(LinesOfAll(format, look.disk, look.listing.dayFiles), None, time);
      var scan := ScanOf(f.sight, AllLines(format, f.content), time);
      Unseen(scan, KeyOf, {}) == Unseen(all, KeyOf, {}) && Keys(scan, KeyOf) == Keys(all, KeyOf)
  {
    var files, disk := look.listing.dayFiles, look.disk;
    var earlier, lines := LinesOfAll(format, disk, files[..current]), AllLines(format, disk[files[current]]);
    var rest := OpeningLines(format, disk, files, current);
    OpenedLines(earlier, lines, rest, time);
    if current + 1 == |files| { assert (earlier + lines) + [] == earlier + lines; }
  }

  lemma OpeningKeepsUp(format: Format, s: TailerState, current: Option<nat>, time: Time, look: Look)
    requires s.day != Some(time.day) && Opens(format, current, time, look)
    ensures var (t, batch) := Polled(format, s, Time(time.day, look.here), look.listing, look.disk);
      KeepsUp(format, t, EventsOf(batch), Opening(format, current, time, look), time)
  {
    var all := LinesOfAll(format, look.disk, look.listing.dayFiles);
    if look.here != time.here { StampedAlike(all, None, time, Time(time.day, look.here)); }
    var events := EventsIn(all, None, time);
    assert {} + Keys(events, KeyOf) == Keys(events, KeyOf);
    if current.Some? {
      OpeningScans(format, current.value, time, look);
    } else {
      NoLines(format);
      assert events + [] == events;
    }
  }

  // ---------------------------------------------------------------- any run

  /** What a poll after the first comes upon. */
  datatype Turn = Grew(more: seq<Byte>) | Switched(file: Path, content: seq<Byte>) | Lost

  function AfterTurn(format: Format, f: Follow, turn: Turn, time: Time): Follow {
    match turn
    case Grew(more) => AfterGrowth(format, f, more)
    case Switched(file, content) => AfterSwitch(format, f, file, content, time)
    case Lost => AfterLoss(format, f, time)
  }

  ghost predicate Sees(format: Format, f: Follow, turn: Turn, time: Time, look: Look) {
    match turn
    case Grew(more) => SeesGrowth(format, f, more, time, look) && IsQuiet(format, f, more, time)
    case Switched(file, content) => SeesSwitch(format, f.file, file, content, time, look)
    case Lost => SeesNothing(f, look)
  }

  lemma TurnKeepsUp(format: Format, s: TailerState, f: Follow, turn: Turn, time: Time, look: Look,
                    returned: seq<TokenEvent>)
    requires KeepsUp(format, s, returned, f, time) && Sees(format, f, turn, time, look)
    ensures var (t, batch) := Polled(format, s, Time(time.day, look.here), look.listing, look.disk);
      KeepsUp(format, t, returned + EventsOf(batch), AfterTurn(format, f, turn, time), time)
  {
    match turn
    case Grew(more) => PollKeepsUp(format, s, f, more, time, look, returned);
    case Switched(file, content) => SwitchKeepsUp(format, s, f, file, content, time, look, returned);
    case Lost =>
      LossKeepsUp(format, s, f, time, look, returned);
      assert returned + [] == returned;
  }

  /** What is followed after a first look and these turns. */
  function Followed(format: Format, current: Option<nat>, time: Time, first: Look, turns: seq<Turn>): Follow
    requires current.Some? ==>
      current.value < |first.listing.dayFiles| && first.listing.dayFiles[current.value] in first.disk
  {
    if turns == [] then Opening(format, current, time, first)
    else
      AfterTurn(format, Followed(format, current, time, first, turns[..|turns| - 1]), turns[|turns| - 1], time)
  }

  /** The looks of a run: the first opens it, each later one sees its turn. */
  ghost predicate Follows(format: Format, current: Option<nat>, time: Time, turns: seq<Turn>, looks: seq<Look>)
    decreases |turns|
  {
    && |looks| == |turns| + 1
    && Opens(format, current, time, looks[0])
    && (turns != [] ==>
          var earlier := turns[..|turns| - 1];
          && Follows(format, current, time, earlier, looks[..|looks| - 1])
          && Sees(format, Followed(format, current, time, looks[0], earlier), turns[|turns| - 1], time,
                  looks[|looks| - 1]))
  }

  lemma PolledOnce(format: Format, s: TailerState, day: i32, look: Look)
    ensures var (t, batch) := Polled(format, s, Time(day, look.here), look.listing, look.disk);
      PolledAll(format, s, day, [look]) == (t, EventsOf(batch))
  {
    assert [look][..0] == [];
    assert PolledAll(format, s, day, []) == (s, []);
    var events := EventsOf(Polled(format, s, Time(day, look.here), look.listing, look.disk).1);
    assert [] + events == events;
  }

  lemma OpenedKeepsUp(format: Format, s: TailerState, current: Option<nat>, time: Time, first: Look)
    requires s.day != Some(time.day) && Opens(format, current, time, first)
    ensures var (t, returned) := PolledAll(format, s, time.day, [first]);
      KeepsUp(format, t, returned, Opening(format, current, time, first), time)
  {
    OpeningKeepsUp(format, s, current, time, first);
    PolledOnce(format, s, time.day, first);
  }

  /** After a run the tailer is where the scans are. */
  ghost predicate RunKept(format: Format, s: TailerState, current: Option<nat>, time: Time, turns: seq<Turn>,
                          looks: seq<Look>)
    requires looks != [] && Opens(format, current, time, looks[0])
  {
    var (t, returned) := PolledAll(format, s, time.day, looks);
    KeepsUp(format, t, returned, Followed(format, current, time, looks[0], turns), time)
  }

  lemma RunOnward(format: Format, s: TailerState, current: Option<nat>, time: Time, turns: seq<Turn>, looks: seq<Look>)
    requires turns != [] && |looks| >= 2 && Opens(format, current, time, looks[0])
    requires RunKept(format, s, current, time, turns[..|turns| - 1], looks[..|looks| - 1])
    requires Sees(format, Followed(format, current, time, looks[0], turns[..|turns| - 1]), turns[|turns| - 1], time,
                  looks[|looks| - 1])
    ensures RunKept(format, s, current, time, turns, looks)
  {
    var (t, returned) := PolledAll(format, s, time.day, looks[..|looks| - 1]);
    var f := Followed(format, current, time, looks[0], turns[..|turns| - 1]);
    TurnKeepsUp(format, t, f, turns[|turns| - 1], time, looks[|looks| - 1], returned);
  }

  lemma {:induction false} RunKeepsUp(format: Format, s: TailerState, current: Option<nat>, time: Time,
                                      turns: seq<Turn>, looks: seq<Look>)
    requires s.day != Some(time.day) && Follows(format, current, time, turns, looks)
    ensures RunKept(format, s, current, time, turns, looks)
    decreases |turns|
  {
    if turns == [] {
      OpenedKeepsUp(format, s, current, time, looks[0]);
      assert looks == [looks[0]];
    } else {
      RunKeepsUp(format, s, current, time, turns[..|turns| - 1], looks[..|looks| - 1]);
      RunOnward(format, s, current, time, turns, looks);
    }
  }

  /** Over any run of polls the events returned are exactly those of full scans of the files followed, one
      after the other, each fingerprint once and in order. */
  lemma PollsAgreeWithScans(format: Format, s: TailerState, current: Option<nat>, time: Time,
                            turns: seq<Turn>, looks: seq<Look>)
    requires s.day != Some(time.day) && Follows(format, current, time, turns, looks)
    ensures var f := Followed(format, current, time, looks[0], turns);
      PolledAll(format, s, time.day, looks).1 == Unseen(ScanOf(f.sight, AllLines(format, f.content), time), KeyOf, {})
  {
    RunKeepsUp(format, s, current, time, turns, looks);
  }

  // ---------------------------------------------------------------- one file

  predicate AllGrew(turns: seq<Turn>) { forall i :: 0 <= i < |turns| ==> turns[i].Grew? }

  function Grown(content: seq<Byte>, turns: seq<Turn>): seq<Byte> {
    if turns == [] then content
    else
      var last := turns[|turns| - 1];
      Grown(content, turns[..|turns| - 1]) + if last.Grew? then last.more else []
  }

  lemma {:induction false} GrownIsFollowed(format: Format, time: Time, first: Look, turns: seq<Turn>)
    requires AllGrew(turns) && |first.listing.dayFiles| == 1 && first.listing.dayFiles[0] in first.disk
    ensures var f := Followed(format, Some(0), time, first, turns);
      && f.content == Grown(first.disk[first.listing.dayFiles[0]], turns)
      && f.sight.past == [] && f.sight.initial == None
  {
    if turns == [] {
      assert first.listing.dayFiles[..0] == [];
      assert LinesOfAll(format, first.disk, []) == [];
    } else {
      GrownIsFollowed(format, time, first, turns[..|turns| - 1]);
    }
  }

  /** While one growing file is all there is, they are those of one full scan of it. */
  lemma PollsAgreeWithScan(format: Format, s: TailerState, time: Time, turns: seq<Turn>, looks: seq<Look>)
    requires s.day != Some(time.day) && Follows(format, Some(0), time, turns, looks)
    requires AllGrew(turns) && |looks[0].listing.dayFiles| == 1
    ensures var content := Grown(looks[0].disk[looks[0].listing.dayFiles[0]], turns);
      PolledAll(format, s, time.day, looks).1 == FullScan(format, content, time)
  {
    PollsAgreeWithScans(format, s, Some(0), time, turns, looks);
    GrownIsFollowed(format, time, looks[0], turns);
    var content := Grown(looks[0].disk[looks[0].listing.dayFiles[0]], turns);
    assert [] + AllEvents(format, content, time) == AllEvents(format, content, time);
  }
}
