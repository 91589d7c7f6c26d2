/** What the events of a read are, line by line, and what their fingerprints tell apart. */
module TailerEvents {
  import opened Common
  import opened Usage
  import opened Tailer
  import opened TailerFollowing

  /** Line `j` is the last one before `i` that names a model. */
  predicate IsLastContext(lines: seq<Line>, j: nat, i: nat) {
    && j < i <= |lines| && lines[j].Context?
    && forall k :: j < k < i ==> !lines[k].Context?
  }

  predicate NoContext(lines: seq<Line>, i: nat)
    requires i <= |lines|
  {
    forall k :: 0 <= k < i ==> !lines[k].Context?
  }

  lemma {:induction false} ModelIsLastNamed(lines: seq<Line>, i: nat, initial: Option<string>)
    returns (last: Option<nat>)
    requires i <= |lines|
    ensures match last
      case None => NoContext(lines, i) && ModelAfter(lines[..i], initial) == initial
      case Some(j) => IsLastContext(lines, j, i) && ModelAfter(lines[..i], initial) == Some(lines[j].model)
  {
    if i == 0 {
      last := None;
    } else if lines[i - 1].Context? {
      last := Some(i - 1);
    } else {
      last := ModelIsLastNamed(lines, i - 1, initial);
      assert lines[..i][..i - 1] == lines[..i - 1];
    }
  }

  /** Event `e` is what line `i` reports: its stamp and counts, at its own time or else that of the read, under
      its own model, or else the last one named before it, or else the one the read started with. */
  ghost predicate Reports(lines: seq<Line>, i: nat, initial: Option<string>, time: Time, e: TokenEvent) {
    && i < |lines| && lines[i].Counted?
    && e.stamp == lines[i].stamp && e.counts == lines[i].counts
    && (if lines[i].clock.Some? then e.clock == lines[i].clock.value else e.clock == time.here)
    && e.clock.day == time.day
    && (if lines[i].own.Some? then e.model == lines[i].own
        else if NoContext(lines, i) then e.model == initial
        else exists j: nat :: IsLastContext(lines, j, i) && e.model == Some(lines[j].model))
  }

  /** The events of a read are exactly those its lines report for the day. */
  lemma EventsAreReported(lines: seq<Line>, initial: Option<string>, time: Time, e: TokenEvent)
    ensures e in EventsIn(lines, initial, time) <==> exists i :: Reports(lines, i, initial, time, e)
  {
    if e in EventsIn(lines, initial, time) {
      var i := EventFrom(lines, e, initial, time);
      var last := ModelIsLastNamed(lines, i, initial);
      if last.Some? { assert !NoContext(lines, i) by { assert lines[last.value].Context?; } }
      assert Reports(lines, i, initial, time, e);
    }
    if i :| Reports(lines, i, initial, time, e) {
      var last := ModelIsLastNamed(lines, i, initial);
      assert e == EventAt(lines, i, initial, time);
      EventAmong(lines, i, initial, time);
    }
  }

  predicate AllCounted(c: TokenCounts) {
    c.input.Some? && c.cachedInput.Some? && c.cacheWriteInput.Some? && c.output.Some? && c.reasoningOutput.Some?
    && c.total.Some?
  }

  lemma NumbersTell(c: TokenCounts, d: TokenCounts)
    requires AllCounted(c) && AllCounted(d)
    ensures Numbers(c) == Numbers(d) <==> c == d
  {
    assert Numbers(c) == [c.input.value, c.cachedInput.value, c.cacheWriteInput.value, c.output.value,
                          c.reasoningOutput.value, c.total.value];
    assert Numbers(d) == [d.input.value, d.cachedInput.value, d.cacheWriteInput.value, d.output.value,
                          d.reasoningOutput.value, d.total.value];
    if Numbers(c) == Numbers(d) {
      assert forall i :: 0 <= i < 6 ==> Numbers(c)[i] == Numbers(d)[i];
      assert Numbers(c)[0] == Numbers(d)[0] && Numbers(c)[1] == Numbers(d)[1] && Numbers(c)[2] == Numbers(d)[2];
      assert Numbers(c)[3] == Numbers(d)[3] && Numbers(c)[4] == Numbers(d)[4] && Numbers(c)[5] == Numbers(d)[5];
    }
  }

  /** Two events with all counts have one fingerprint exactly if they agree in stamp, counts and model, where
      no model is as good as a blank one; the clock does not matter. */
  lemma FingerprintTells(e: TokenEvent, f: TokenEvent)
    requires AllCounted(e.counts) && AllCounted(f.counts)
    ensures KeyOf(e) == KeyOf(f) <==>
      && e.stamp == f.stamp && e.counts == f.counts
      && (e.model == f.model || (e.model in {None, Some("")} && f.model in {None, Some("")}))
  {
    NumbersTell(e.counts, f.counts);
  }
}
