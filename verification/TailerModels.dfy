/** When nothing comes back: what the models named in a session mean for polling it. */
module TailerModels {
  import opened Common
  import opened Usage
  import opened LineCodec
  import opened Novelty
  import opened Tailer
  import opened TailerTheorems
  import opened TailerFollowing

  // ---------------------------------------------------------------- when nothing comes back

  /** From line `a` on, each count without its own model comes after a line that names one. */
  predicate NamedSince(lines: seq<Line>, a: nat) {
    forall k :: a <= k < |lines| && lines[k].Counted? && lines[k].own.None? ==> NamesModel(lines[a..k])
  }

  /** However often the model changes: nothing comes back if a model is named from where reading starts
      again before it is needed. */
  lemma NamedIsQuiet(g: Growth, a: nat, f: Sight, time: Time)
    requires NamedSince(g.known, a)
    ensures NothingReturns(g, a, f, time)
  {}

  /** So a poll that still reads the whole file keeps up if the file names a model before it needs one,
      and the model carried is current or named in the file. */
  lemma ShortFileIsQuiet(format: Format, f: Follow, more: seq<Byte>, time: Time)
    requires |f.content| + |more| <= TAIL_READ_BYTES && format.isText(f.content + more)
    requires IsWhole(GrowthOf(format, f.content, more))
    requires NamedSince(AllLines(format, f.content), 0)
    requires IsCurrent(f.sight, AllLines(format, f.content)) || NamesModel(GrowthOf(format, f.content, more).known)
    ensures IsQuiet(format, f, more, time)
  {
    var g := GrowthOf(format, f.content, more);
    assert (f.content + more)[0..] == f.content + more;
    GrowthHolds(format, f.content, more);
    var start := WindowOfGrowth(format, f.content, more);
    assert g.known[0..] == g.known;
    NamedBefore(g.known, g.torn);
    NamedIsQuiet(g, 0, f.sight, time);
    if IsCurrent(f.sight, Before(g)) { CurrentIsRight(g, 0, f.sight); } else { NamedIsRight(g, 0, f.sight); }
    forall a | ReadsFrom(format, f.content, more, a) ensures a == 0 { ReadsFromOne(format, f.content, more, a, start); }
  }

  lemma NamedBefore(known: seq<Line>, torn: seq<Line>)
    requires NamedSince(known + torn, 0)
    ensures NamedSince(known, 0)
  {
    forall k | 0 <= k < |known| && known[k].Counted? && known[k].own.None? ensures NamesModel(known[0..k]) {
      assert (known + torn)[k] == known[k] && (known + torn)[0..k] == known[0..k];
    }
  }

  /** The first line names a model. */
  lemma FirstNames(lines: seq<Line>)
    requires lines != [] && lines[0].Context?
    ensures NamedSince(lines, 0)
  {
    forall k | 0 <= k < |lines| && lines[k].Counted? ensures NamesModel(lines[0..k]) { assert lines[0..k][0].Context?; }
  }

  predicate NamesOnly(lines: seq<Line>, m: string) {
    forall k :: 0 <= k < |lines| && lines[k].Context? ==> lines[k].model == m
  }

  lemma {:induction false} OnlyModel(lines: seq<Line>, m: string, initial: Option<string>)
    requires NamesOnly(lines, m)
    ensures ModelAfter(lines, initial) == if NamesModel(lines) then Some(m) else initial
  {
    if lines != [] {
      var init := lines[..|lines| - 1];
      OnlyModel(init, m, initial);
      assert forall j :: 0 <= j < |init| ==> init[j] == lines[j];
    }
  }

  /** A session that keeps to one model, named before its first count, can be read again from anywhere. */
  lemma OneModelIsQuiet(g: Growth, m: string, a: nat, f: Sight, time: Time)
    requires NamesOnly(Before(g), m) && NamedSince(Before(g), 0) && a <= |g.known| && IsCurrent(f, Before(g))
    ensures NothingReturns(g, a, f, time)
  {
    var lines, seen := Before(g), SeenBefore(g, f, time);
    KeysOnward(f.past, EventsIn(lines, f.initial, time), KeyOf, {});
    forall k: nat ensures !ComesBack(g.known, a, k, f.carried, time, seen) {
      if a <= k < |g.known| && IsOfDay(g.known[k], time) && g.known[k].own.None? {
        assert lines[k] == g.known[k];
        OnlyModel(lines[..k], m, f.initial);
        OnlyModel(lines, m, f.initial);
        KnownEvent(lines, k, f.initial, time, seen);
      }
    }
  }

  // ---------------------------------------------------------------- when models differ

  lemma CountThenContext(count: Line, model: string, initial: Option<string>, time: Time)
    requires count.Counted? && count.own.None? && IsOfDay(count, time)
    ensures EventsIn([count, Context(model)], initial, time) == [EventOf(count, initial, time.here)]
    ensures ModelAfter([count, Context(model)], initial) == Some(model)
  {
    var lines := [count, Context(model)];
    assert lines[..1] == [count] && [count][..0] == [];
    assert EventsIn([count], initial, time) == [] + LineEvents(count, initial, time);
    assert EventsIn(lines, initial, time) == EventsIn([count], initial, time) + [];
  }

  lemma SingleUnseen(e: TokenEvent, seen: set<Key>)
    ensures Unseen([e], KeyOf, seen) == if KeyOf(e) in seen then [] else [e]
    ensures Keys([e], KeyOf) == {KeyOf(e)}
  {
    UnseenPushed([], e, KeyOf, seen);
    assert [] + [e] == [e];
    assert Keys([], KeyOf) == {};
  }

  ghost predicate SeesFile(look: Look, file: Path, content: seq<Byte>) {
    look.listing.newest == Some(file) && Content(look.disk, file) == Some(content)
  }

  /** The poll after a bootstrap that ended under another model. */
  lemma SecondPoll(format: Format, s: TailerState, file: Path, content: seq<Byte>, time: Time, look: Look, count: Line,
                   model: string)
    requires look.here == time.here && IsOfDay(count, time) && count.own.None? && model != ""
    requires s.day == Some(time.day) && s.file == Some(file)
    requires s.model == Some(model) && s.seen == {KeyOf(EventOf(count, None, time.here))}
    requires SeesFile(look, file, content) && format.isText(content) && |content| <= TAIL_READ_BYTES
    requires AllLines(format, content) == [count, Context(model)]
    ensures Polled(format, s, time, look.listing, look.disk).1
      == Some(Batch([EventOf(count, Some(model), time.here)], false))
  {
    assert content[0..] == content;
    assert LinesOrNone(format, Content(look.disk, file), true) == [count, Context(model)];
    CountThenContext(count, model, Some(model), time);
    SingleUnseen(EventOf(count, Some(model), time.here), s.seen);
  }

  lemma PolledTwice(format: Format, s: TailerState, time: Time, look: Look, t: TailerState, first: Batch, second: Batch)
    requires look.here == time.here
    requires Polled(format, s, time, look.listing, look.disk) == (t, Some(first))
    requires Polled(format, t, time, look.listing, look.disk).1 == Some(second)
    ensures PolledAll(format, s, time.day, [look, look]).1 == first.events + second.events
  {
    assert [look, look][..1] == [look] && [look][..0] == [];
    assert PolledAll(format, s, time.day, []) == (s, []);
    assert [] + first.events == first.events;
    assert PolledAll(format, s, time.day, [look]) == (t, first.events);
  }

  lemma FirstPoll(format: Format, s: TailerState, file: Path, content: seq<Byte>, time: Time, look: Look, count: Line,
                  model: string)
    requires look.here == time.here && IsOfDay(count, time) && count.own.None? && s.day != Some(time.day)
    requires look.listing.dayFiles == [file] && SeesFile(look, file, content) && format.isText(content)
    requires AllLines(format, content) == [count, Context(model)]
    ensures var e := EventOf(count, None, time.here);
      && FullScan(format, content, time) == [e]
      && Polled(format, s, time, look.listing, look.disk)
           == (TailerState(Some(file), Some(time.day), {KeyOf(e)}, Some(model)), Some(Batch([e], true)))
  {
    CountThenContext(count, model, None, time);
    SingleUnseen(EventOf(count, None, time.here), {});
    assert [file][..0] == [] && LinesOfAll(format, look.disk, []) == [] && content[0..] == content;
    assert LinesOfAll(format, look.disk, [file]) == AllLines(format, content);
    assert {} + Keys(AllEvents(format, content, time), KeyOf) == Keys(AllEvents(format, content, time), KeyOf);
  }

  /** A count that names no model, before the first line that names one: the second poll carries
      that model back to it and returns the same event again under another fingerprint. */
  lemma ModelDrift(format: Format, s: TailerState, file: Path, content: seq<Byte>, time: Time, look: Look, count: Line,
                   model: string)
    requires look.here == time.here && IsOfDay(count, time) && count.own.None? && s.day != Some(time.day) && model != ""
    requires look.listing.dayFiles == [file] && SeesFile(look, file, content)
    requires format.isText(content) && |content| <= TAIL_READ_BYTES
    requires AllLines(format, content) == [count, Context(model)]
    ensures PolledAll(format, s, time.day, [look, look]).1
      == [EventOf(count, None, time.here), EventOf(count, Some(model), time.here)]
    ensures FullScan(format, content, time) == [EventOf(count, None, time.here)]
  {
    FirstPoll(format, s, file, content, time, look, count, model);
    var before, after := EventOf(count, None, time.here), EventOf(count, Some(model), time.here);
    var t := TailerState(Some(file), Some(time.day), {KeyOf(before)}, Some(model));
    SecondPoll(format, t, file, content, time, look, count, model);
    PolledTwice(format, s, time, look, t, Batch([before], true), Batch([after], false));
  }
}
