/** What the tailer returns over any run of polls. */
module TailerTheorems {
  import opened Common
  import opened LineCodec
  import opened Novelty
  import opened Tailer

  // ---------------------------------------------------------------- nothing twice

  /** What a poll finds, and the clock it gives to counts without a time stamp. */
  datatype Look = Look(listing: Listing, disk: Disk, here: Clock)

  function PolledAll(format: Format, s: TailerState, day: i32, looks: seq<Look>): (TailerState, seq<TokenEvent>) {
    if looks == [] then (s, [])
    else
      var (t, before) := PolledAll(format, s, day, looks[..|looks| - 1]);
      var last := looks[|looks| - 1];
      var (u, batch) := Polled(format, t, Time(day, last.here), last.listing, last.disk);
      (u, before + if batch.Some? then batch.value.events else [])
  }

  ghost predicate AllNew(events: seq<TokenEvent>) {
    forall i, j :: 0 <= i < j < |events| ==> KeyOf(events[i]) != KeyOf(events[j])
  }

  lemma NewOnward(a: seq<TokenEvent>, b: seq<TokenEvent>)
    requires AllNew(a) && AllNew(b) && Keys(a, KeyOf) !! Keys(b, KeyOf)
    ensures AllNew(a + b)
  {
    assert forall i :: 0 <= i < |a| ==> KeyOf(a[i]) in Keys(a, KeyOf);
    assert forall i :: 0 <= i < |b| ==> KeyOf(b[i]) in Keys(b, KeyOf);
  }

  lemma ReadReturnsNew(s: TailerState, lines: seq<Line>, time: Time, before: seq<TokenEvent>)
    requires AllNew(before) && Keys(before, KeyOf) == s.seen
    ensures var (t, events) := Read(s, lines, time); AllNew(before + events) && Keys(before + events, KeyOf) == t.seen
  {
    var read := EventsIn(lines, s.model, time);
    UnseenKeys(read, KeyOf, s.seen);
    NewOnward(before, Unseen(read, KeyOf, s.seen));
    KeysOnward(before, Unseen(read, KeyOf, s.seen), KeyOf, {});
  }

  /** Within one day no fingerprint is returned twice, whatever the files hold and however the
      search moves between them. */
  lemma {:induction false} NothingTwice(format: Format, s: TailerState, day: i32, looks: seq<Look>)
    requires s.day != Some(day)
    ensures AllNew(PolledAll(format, s, day, looks).1)
    ensures looks != [] ==>
      var (t, events) := PolledAll(format, s, day, looks); t.day == Some(day) && t.seen == Keys(events, KeyOf)
  {
    if looks != [] {
      var init, last := looks[..|looks| - 1], looks[|looks| - 1];
      NothingTwice(format, s, day, init);
      var (t, before) := PolledAll(format, s, day, init);
      var (u, batch) := Polled(format, t, Time(day, last.here), last.listing, last.disk);
      var events := if batch.Some? then batch.value.events else [];
      PollReturnsNew(format, t, day, last, before);
    }
  }

  lemma PollReturnsNew(format: Format, s: TailerState, day: i32, look: Look, before: seq<TokenEvent>)
    requires AllNew(before)
    requires if s.day == Some(day) then s.seen == Keys(before, KeyOf) else before == []
    ensures var (t, batch) := Polled(format, s, Time(day, look.here), look.listing, look.disk);
      var events := before + if batch.Some? then batch.value.events else [];
      AllNew(events) && t.seen == Keys(events, KeyOf) && t.day == Some(day)
  {
    assert before + [] == before;
    if s.day != Some(day) {
      assert Keys([], KeyOf) == {};
      var files := LinesOfAll(format, look.disk, look.listing.dayFiles);
      ReadReturnsNew(TailerState(look.listing.newest, Some(day), {}, None), files, Time(day, look.here), []);
    } else {
      var switches := look.listing.due && look.listing.newest != s.file;
      var s' := if switches then s.(file := look.listing.newest, model := None) else s;
      if s'.file.Some? {
        var lines := LinesOrNone(format, Content(look.disk, s'.file.value), !switches);
        ReadReturnsNew(s', lines, Time(day, look.here), before);
        var events := Read(s', lines, Time(day, look.here)).1;
        assert events == [] ==> before + events == before;
      }
    }
  }

  // ---------------------------------------------------------------- bytes and lines

  lemma JoinOnward(a: seq<seq<Byte>>, b: seq<seq<Byte>>)
    ensures Join(a + b) == Join(a) + Join(b)
  {
    if a == [] {
      assert a + b == b;
    } else {
      assert (a + b)[1..] == a[1..] + b;
      JoinOnward(a[1..], b);
    }
  }

  ghost predicate AllNewlineFree(lines: seq<seq<Byte>>) { forall i :: 0 <= i < |lines| ==> NewlineFree(lines[i]) }

  lemma SplitFirst(bytes: seq<Byte>, line: seq<Byte>, later: seq<Byte>, lines: seq<seq<Byte>>, tail: seq<Byte>)
    requires NewlineFree(line) && bytes == line + ([NEWLINE] + later) && SplitLines(later) == (lines, tail)
    ensures SplitLines(bytes) == ([line] + lines, tail)
  {
    LineEndAt(line, [NEWLINE] + later);
    assert bytes[..|line|] == line && bytes[|line| + 1..] == later;
  }

  lemma JoinFirst(lines: seq<seq<Byte>>, rest: seq<Byte>)
    requires lines != []
    ensures Join(lines) + rest == lines[0] + ([NEWLINE] + (Join(lines[1..]) + rest))
  {}

  /** What a splitting looks like after terminated lines have been put before the text. */
  ghost predicate SplitsInto(bytes: seq<Byte>, lines: seq<seq<Byte>>, tail: seq<Byte>) {
    SplitLines(bytes) == (lines, tail)
  }

  lemma {:induction false} SplitOnward(lines: seq<seq<Byte>>, rest: seq<Byte>, more: seq<seq<Byte>>, tail: seq<Byte>)
    requires AllNewlineFree(lines) && SplitsInto(rest, more, tail)
    ensures SplitsInto(Join(lines) + rest, lines + more, tail)
  {
    if lines == [] {
      assert Join(lines) + rest == rest && lines + more == more;
    } else {
      SplitOnward(lines[1..], rest, more, tail);
      JoinFirst(lines, rest);
      SplitFirst(Join(lines) + rest, lines[0], Join(lines[1..]) + rest, lines[1..] + more, tail);
      assert lines + more == [lines[0]] + (lines[1..] + more);
    }
  }

  lemma PiecesOnward(lines: seq<seq<Byte>>, rest: seq<Byte>)
    requires AllNewlineFree(lines)
    ensures Pieces(Join(lines) + rest) == lines + Pieces(rest)
  {
    SplitOnward(lines, rest, SplitLines(rest).0, SplitLines(rest).1);
  }

  lemma {:induction false} NewlineShifted(front: seq<Byte>, bytes: seq<Byte>, i: nat)
    requires i <= |bytes|
    ensures NewlineFrom(front + bytes, |front| + i) == |front| + NewlineFrom(bytes, i)
    decreases |bytes| - i
  {
    if i < |bytes| && bytes[i] != NEWLINE { NewlineShifted(front, bytes, i + 1); }
  }

  lemma {:induction false} NewlineBefore(line: seq<Byte>, rest: seq<Byte>, i: nat)
    requires NewlineFree(line) && rest != [] && rest[0] == NEWLINE && i <= |line|
    ensures NewlineFrom(line + rest, i) == |line|
    decreases |line| - i
  {
    if i < |line| { NewlineBefore(line, rest, i + 1); }
  }

  /** From anywhere inside the terminated lines, the next newline ends one of them. */
  lemma {:induction false} NewlineEndsLine(lines: seq<seq<Byte>>, rest: seq<Byte>, from: nat) returns (a: nat)
    requires AllNewlineFree(lines) && from < |Join(lines)|
    ensures 1 <= a <= |lines| && NewlineFrom(Join(lines) + rest, from) + 1 == |Join(lines[..a])|
  {
    var first, later := lines[0], Join(lines[1..]) + rest;
    assert Join(lines) + rest == first + ([NEWLINE] + later) == (first + [NEWLINE]) + later;
    if from <= |first| {
      NewlineBefore(first, [NEWLINE] + later, from);
      a := 1;
      assert lines[..1] == [first] && lines[..1][1..] == [];
    } else {
      var next := NewlineEndsLine(lines[1..], rest, from - |first| - 1);
      NewlineShifted(first + [NEWLINE], later, from - |first| - 1);
      a := next + 1;
      assert lines[..a][1..] == lines[1..][..next];
    }
  }

  lemma SuffixPieces(lines: seq<seq<Byte>>, rest: seq<Byte>, a: nat)
    requires AllNewlineFree(lines) && a <= |lines|
    ensures var bytes, start := Join(lines) + rest, |Join(lines[..a])|;
      start <= |bytes| && Pieces(bytes[start..]) == lines[a..] + Pieces(rest)
  {
    assert lines == lines[..a] + lines[a..];
    JoinOnward(lines[..a], lines[a..]);
    assert (Join(lines) + rest)[|Join(lines[..a])|..] == Join(lines[a..]) + rest;
    PiecesOnward(lines[a..], rest);
  }

  /** If what follows the terminated lines fits strictly inside the window, the window starts at one
      of them: it reads a whole suffix of the file's lines. */
  lemma WindowIsSuffix(lines: seq<seq<Byte>>, rest: seq<Byte>) returns (a: nat)
    requires AllNewlineFree(lines) && |rest| < TAIL_READ_BYTES
    ensures a <= |lines|
    ensures var bytes := Join(lines) + rest;
      && Start(bytes, true).Some? && Start(bytes, true).value <= |bytes|
      && Pieces(bytes[Start(bytes, true).value..]) == lines[a..] + Pieces(rest)
  {
    a := WindowStart(lines, rest);
    SuffixPieces(lines, rest, a);
  }

  lemma WindowStart(lines: seq<seq<Byte>>, rest: seq<Byte>) returns (a: nat)
    requires AllNewlineFree(lines) && |rest| < TAIL_READ_BYTES
    ensures a <= |lines| && Start(Join(lines) + rest, true) == Some(|Join(lines[..a])|)
  {
    var bytes := Join(lines) + rest;
    a := 0;
    if |bytes| > TAIL_READ_BYTES {
      a := NewlineEndsLine(lines, rest, |bytes| - TAIL_READ_BYTES);
      assert |Join(lines[..a])| <= |Join(lines)| by {
        assert lines == lines[..a] + lines[a..];
        JoinOnward(lines[..a], lines[a..]);
      }
    }
  }
}
