/** The session tailer: polls the end of a growing log for new token events.

    A poll reads a window of the last bytes and drops what it has seen. How a line is parsed is a
    parameter; two events are the same when all that their fingerprint hashes is the same.
 */
module Tailer {
  import opened Common
  import opened Usage
  import opened LineCodec
  import opened Novelty

  const TAIL_READ_BYTES: nat := 512 * 1024

  type Path = string

  /** A local day and an hour of it. */
  datatype Clock = Clock(day: i32, hour: nat)

  /** What a line is to the tailer: a change of model, a token count with its clock if its time stamp
      gives one, or nothing. */
  datatype Line =
    | Context(model: string)
    | Counted(stamp: string, counts: TokenCounts, own: Option<string>, clock: Option<Clock>)
    | Other

  /** The day that is asked for, and the clock of counts whose line gives none. */
  datatype Time = Time(day: i32, here: Clock)

  const LAST_HOUR: nat := 23

  function TimeOfPoll(day: i32, fallbackHour: nat, today: i32): Time {
    Time(day, Clock(today, Min(fallbackHour, LAST_HOUR)))
  }

  datatype Format = Format(isText: seq<Byte> -> bool, parse: seq<Byte> -> Line)

  datatype TokenEvent = TokenEvent(stamp: string, counts: TokenCounts, model: Option<string>, clock: Clock)

  /** All that goes into an event's fingerprint, in order. */
  datatype Key = Key(stamp: string, numbers: seq<u64>, model: string)

  function Present(value: Option<u64>): seq<u64> { if value.Some? then [value.value] else [] }

  function Numbers(c: TokenCounts): seq<u64> {
    Present(c.input) + Present(c.cachedInput) + Present(c.cacheWriteInput) + Present(c.output)
    + Present(c.reasoningOutput) + Present(c.total)
  }

  function KeyOf(e: TokenEvent): Key { Key(e.stamp, Numbers(e.counts), if e.model.Some? then e.model.value else "") }

  // ---------------------------------------------------------------- reading

  function ModelAfter(lines: seq<Line>, initial: Option<string>): Option<string> {
    if lines == [] then initial
    else
      var last := lines[|lines| - 1];
      if last.Context? then Some(last.model) else ModelAfter(lines[..|lines| - 1], initial)
  }

  function ClockOf(line: Line, here: Clock): Clock
    requires line.Counted?
  {
    if line.clock.Some? then line.clock.value else here
  }

  function EventOf(line: Line, model: Option<string>, here: Clock): TokenEvent
    requires line.Counted?
  {
    TokenEvent(line.stamp, line.counts, if line.own.Some? then line.own else model, ClockOf(line, here))
  }

  function LineEvents(line: Line, model: Option<string>, time: Time): seq<TokenEvent> {
    if line.Counted? && ClockOf(line, time.here).day == time.day then [EventOf(line, model, time.here)] else []
  }

  /** The events of a day, each with its own model or else the last one named before it. */
  function EventsIn(lines: seq<Line>, initial: Option<string>, time: Time): seq<TokenEvent> {
    if lines == [] then []
    else
      var init, last := lines[..|lines| - 1], lines[|lines| - 1];
      EventsIn(init, initial, time) + LineEvents(last, ModelAfter(init, initial), time)
  }

  /** The lines of a text; an unterminated last line counts if it is not empty. */
  function Pieces(bytes: seq<Byte>): seq<seq<Byte>> {
    var (lines, tail) := SplitLines(bytes);
    if tail == [] then lines else lines + [tail]
  }

  function Parsed(format: Format, pieces: seq<seq<Byte>>): seq<Line> {
    seq(|pieces|, i requires 0 <= i < |pieces| => format.parse(pieces[i]))
  }

  /** Where reading starts: after the first newline of the window, unless the window is the file. */
  function Start(bytes: seq<Byte>, tailOnly: bool): Option<nat> {
    if !tailOnly || |bytes| <= TAIL_READ_BYTES then Some(0)
    else
      var newline := NewlineFrom(bytes, |bytes| - TAIL_READ_BYTES);
      if newline == |bytes| then None else Some(newline + 1)
  }

  /** The lines of a read, or nothing when the file is missing, has no line start, or is no text. */
  function LinesRead(format: Format, file: Option<seq<Byte>>, tailOnly: bool): Option<seq<Line>> {
    if file.None? then None
    else
      var start := Start(file.value, tailOnly);
      if start.None? || start.value > |file.value| || !format.isText(file.value[start.value..]) then None
      else Some(Parsed(format, Pieces(file.value[start.value..])))
  }

  function LinesOrNone(format: Format, file: Option<seq<Byte>>, tailOnly: bool): seq<Line> {
    var lines := LinesRead(format, file, tailOnly);
    if lines.Some? then lines.value else []
  }

  // ---------------------------------------------------------------- the tailer as a value

  datatype TailerState = TailerState(file: Option<Path>, day: Option<i32>, seen: set<Key>, model: Option<string>)

  const NEW := TailerState(None, None, {}, None)

  /** What looking at the directories finds: the files of the day and the newest file, if a search
      is due. */
  datatype Listing = Listing(dayFiles: seq<Path>, newest: Option<Path>, due: bool)

  datatype Batch = Batch(events: seq<TokenEvent>, bootstrap: bool)

  type Disk = map<Path, seq<Byte>>

  function Content(disk: Disk, file: Path): Option<seq<Byte>> { if file in disk then Some(disk[file]) else None }

  /** All lines of the files one after the other: the model carries over from file to file. */
  function LinesOfAll(format: Format, disk: Disk, files: seq<Path>): seq<Line> {
    if files == [] then []
    else
      LinesOfAll(format, disk, files[..|files| - 1]) + LinesOrNone(format, Content(disk, files[|files| - 1]), false)
  }

  function Read(s: TailerState, lines: seq<Line>, time: Time): (TailerState, seq<TokenEvent>) {
    var events := EventsIn(lines, s.model, time);
    (s.(seen := s.seen + Keys(events, KeyOf), model := ModelAfter(lines, s.model)), Unseen(events, KeyOf, s.seen))
  }

  function Polled(format: Format, s: TailerState, time: Time, listing: Listing, disk: Disk)
    : (TailerState, Option<Batch>)
  {
    if s.day != Some(time.day) then
      var (t, events) := Read(TailerState(listing.newest, Some(time.day), {}, None),
        LinesOfAll(format, disk, listing.dayFiles), time);
      (t, Some(Batch(events, true)))
    else
      var switches := listing.due && listing.newest != s.file;
      var s' := if switches then s.(file := listing.newest, model := None) else s;
      if s'.file.None? then (s', None)
      else
        var (t, events) := Read(s', LinesOrNone(format, Content(disk, s'.file.value), !switches), time);
        (t, if events == [] then None else Some(Batch(events, false)))
  }

  // ---------------------------------------------------------------- the tailer as an object

  lemma LinesNext(lines: seq<Line>, i: nat, initial: Option<string>, time: Time)
    requires i < |lines|
    ensures ModelAfter(lines[..i + 1], initial)
      == if lines[i].Context? then Some(lines[i].model) else ModelAfter(lines[..i], initial)
    ensures EventsIn(lines[..i + 1], initial, time)
      == EventsIn(lines[..i], initial, time) + LineEvents(lines[i], ModelAfter(lines[..i], initial), time)
  {
    assert lines[..i + 1][..i] == lines[..i];
  }

  class SessionTokenTailer {
    const format: Format
    var currentFile: Option<Path>
    var currentDay: Option<i32>
    var seen: set<Key>
    var model: Option<string>

    ghost function State(): TailerState reads this { TailerState(currentFile, currentDay, seen, model) }

    constructor (format: Format)
      ensures State() == NEW && this.format == format
    {
      this.format := format;
      currentFile, currentDay, seen, model := None, None, {}, None;
    }

    /** The events of one read, before any is dropped. */
    method ReadTokenEvents(lines: seq<Line>, time: Time) returns (events: seq<TokenEvent>, latest: Option<string>)
      ensures events == EventsIn(lines, model, time) && latest == ModelAfter(lines, model)
    {
      events, latest := [], model;
      for i := 0 to |lines|
        invariant events == EventsIn(lines[..i], model, time) && latest == ModelAfter(lines[..i], model)
      {
        LinesNext(lines, i, model, time);
        if lines[i].Context? {
          latest := Some(lines[i].model);
        } else if lines[i].Counted? && ClockOf(lines[i], time.here).day == time.day {
          events := events + [EventOf(lines[i], latest, time.here)];
        }
      }
      assert lines[..|lines|] == lines;
    }

    /** Keeps the events whose fingerprint is new. */
    method Accept(events: seq<TokenEvent>) returns (accepted: seq<TokenEvent>)
      modifies this
      ensures accepted == Unseen(events, KeyOf, old(seen))
      ensures State() == old(State()).(seen := old(seen) + Keys(events, KeyOf))
    {
      accepted, seen := Insert(events, KeyOf, seen);
    }

    method ReadFile(lines: seq<Line>, time: Time) returns (accepted: seq<TokenEvent>)
      modifies this
      ensures (State(), accepted) == Read(old(State()), lines, time)
    {
      var events, latest := ReadTokenEvents(lines, time);
      accepted := Accept(events);
      model := latest;
    }

    /** A poll for a day; today and the fallback hour date the counts without a time stamp. */
    method Poll(day: i32, fallbackHour: nat, today: i32, listing: Listing, disk: Disk) returns (batch: Option<Batch>)
      modifies this
      ensures (State(), batch) == Polled(format, old(State()), TimeOfPoll(day, fallbackHour, today), listing, disk)
    {
      var time := TimeOfPoll(day, fallbackHour, today);
      if currentDay != Some(day) {
        currentFile, currentDay, seen, model := listing.newest, Some(day), {}, None;
        var events := Bootstrap(time, listing.dayFiles, disk);
        return Some(Batch(events, true));
      }
      var scanFullFile := false;
      if listing.due && listing.newest != currentFile {
        currentFile, model, scanFullFile := listing.newest, None, true;
      }
      if currentFile.None? { return None; }
      var events := ReadFile(LinesOrNone(format, Content(disk, currentFile.value), !scanFullFile), time);
      batch := if events == [] then None else Some(Batch(events, false));
    }

    method Bootstrap(time: Time, files: seq<Path>, disk: Disk) returns (events: seq<TokenEvent>)
      modifies this
      ensures (State(), events) == Read(old(State()), LinesOfAll(format, disk, files), time)
    {
      events := [];
      assert Keys([], KeyOf) == {} && seen + {} == seen;
      for i := 0 to |files|
        invariant (State(), events) == Read(old(State()), LinesOfAll(format, disk, files[..i]), time)
      {
        var lines := LinesOrNone(format, Content(disk, files[i]), false);
        assert files[..i + 1][..i] == files[..i];
        ReadingOn(old(State()), LinesOfAll(format, disk, files[..i]), lines, time);
        var more := ReadFile(lines, time);
        events := events + more;
      }
      assert files[..|files|] == files;
    }
  }

  // ---------------------------------------------------------------- reading on

  lemma {:induction false} ModelOnward(a: seq<Line>, b: seq<Line>, initial: Option<string>)
    ensures ModelAfter(a + b, initial) == ModelAfter(b, ModelAfter(a, initial))
  {
    if b == [] {
      assert a + b == a;
    } else {
      ModelOnward(a, b[..|b| - 1], initial);
      assert (a + b)[..|a + b| - 1] == a + b[..|b| - 1];
    }
  }

  lemma {:induction false} EventsOnward(a: seq<Line>, b: seq<Line>, initial: Option<string>, time: Time)
    ensures EventsIn(a + b, initial, time) == EventsIn(a, initial, time) + EventsIn(b, ModelAfter(a, initial), time)
  {
    if b == [] {
      assert a + b == a;
    } else {
      var init := b[..|b| - 1];
      EventsOnward(a, init, initial, time);
      ModelOnward(a, init, initial);
      assert (a + b)[..|a + b| - 1] == a + init;
    }
  }

  /** Reading in two parts is reading in one. */
  lemma ReadingOn(s: TailerState, a: seq<Line>, b: seq<Line>, time: Time)
    ensures var (t, first) := Read(s, a, time);
      var (u, second) := Read(t, b, time);
      Read(s, a + b, time) == (u, first + second)
  {
    ModelOnward(a, b, s.model);
    EventsOnward(a, b, s.model, time);
    var x, y := EventsIn(a, s.model, time), EventsIn(b, ModelAfter(a, s.model), time);
    KeysOnward(x, y, KeyOf, s.seen);
    UnseenOnward(x, y, KeyOf, s.seen);
  }
}
