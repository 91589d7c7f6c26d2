/** What token notifications say, figure by figure, and what is held after any run of them.

    Which keys name a figure, and in which objects of a notification they are looked up, is a table
    of its own here; the merging functions are proved to follow it.
 */
module TokenFigures {
  import opened Common
  import opened Usage
  import opened Json
  import opened AppServerState

  datatype Counter = Input | CachedInput | CacheWriteInput | Output | ReasoningOutput | Total

  function CountOf(c: TokenCounts, counter: Counter): Option<u64> {
    match counter
    case Input => c.input
    case CachedInput => c.cachedInput
    case CacheWriteInput => c.cacheWriteInput
    case Output => c.output
    case ReasoningOutput => c.reasoningOutput
    case Total => c.total
  }

  /** One number the token state holds: a running count, a count of the last turn, the context window. */
  datatype Figure = Running(counter: Counter) | OfLastTurn(counter: Counter) | ContextWindow

  function Held(state: Option<TokenState>, f: Figure): Option<u64> {
    var s := Else(state, NO_TOKENS);
    match f
    case Running(counter) => CountOf(s.counts, counter)
    case OfLastTurn(counter) => CountOf(Else(s.last, NO_COUNTS), counter)
    case ContextWindow => s.contextWindow
  }

  // ---------------------------------------------------------------- what a notification says

  function CounterKeys(counter: Counter): seq<string> {
    match counter
    case Input => ["inputTokens", "input_tokens"]
    case CachedInput => ["cachedInputTokens", "cached_input_tokens"]
    case CacheWriteInput => ["cacheWriteInputTokens", "cache_write_input_tokens"]
    case Output => ["outputTokens", "output_tokens"]
    case ReasoningOutput => ["reasoningOutputTokens", "reasoning_output_tokens"]
    case Total => ["totalTokens", "total_tokens"]
  }

  function FigureKeys(f: Figure): seq<string> {
    match f
    case Running(counter) => CounterKeys(counter)
    case OfLastTurn(counter) => CounterKeys(counter)
    case ContextWindow => ["modelContextWindow", "model_context_window"]
  }

  predicate HoldsCount(entries: Members, key: string) {
    key in entries && entries[key].Integer? && 0 <= entries[key].number <= U64_MAX
  }

  /** The count under the first of the keys that holds one. */
  function FirstCount(entries: Members, keys: seq<string>): Option<u64> {
    if keys == [] then None
    else if HoldsCount(entries, keys[0]) then Some(entries[keys[0]].number)
    else FirstCount(entries, keys[1..])
  }

  /** The object under the first of the keys that is there, if it is an object. */
  function ObjectUnder(entries: Members, keys: seq<string>): seq<Members> {
    if keys == [] then []
    else if keys[0] in entries then (if entries[keys[0]].Object? then [entries[keys[0]].members] else [])
    else ObjectUnder(entries, keys[1..])
  }

  /** Where a figure is looked up, first place first. */
  function Places(patch: Members, f: Figure): seq<Members> {
    match f
    case Running(_) =>
      ObjectUnder(patch, ["total", "totalTokenUsage", "total_token_usage"]) + ObjectUnder(patch, ["usage"]) + [patch]
    case OfLastTurn(_) => ObjectUnder(patch, ["last", "lastTokenUsage", "last_token_usage"])
    case ContextWindow => [patch]
  }

  function FirstIn(places: seq<Members>, keys: seq<string>): Option<u64> {
    if places == [] then None
    else if FirstCount(places[0], keys).Some? then FirstCount(places[0], keys)
    else FirstIn(places[1..], keys)
  }

  /** What one notification says about a figure. */
  function Said(update: Value, f: Figure): Option<u64> {
    var patch := TokenPatch(update);
    if patch.None? then None else FirstIn(Places(patch.value, f), FigureKeys(f))
  }

  predicate IsFirstCount(entries: Members, keys: seq<string>, j: nat, n: u64) {
    && j < |keys| && HoldsCount(entries, keys[j]) && entries[keys[j]].number == n
    && forall l :: 0 <= l < j ==> !HoldsCount(entries, keys[l])
  }

  predicate HoldsNone(entries: Members, keys: seq<string>) {
    forall j :: 0 <= j < |keys| ==> !HoldsCount(entries, keys[j])
  }

  lemma {:induction false} FirstCountAt(entries: Members, keys: seq<string>) returns (j: nat)
    ensures match FirstCount(entries, keys)
      case None => HoldsNone(entries, keys)
      case Some(n) => IsFirstCount(entries, keys, j, n)
  {
    j := 0;
    if keys != [] && !HoldsCount(entries, keys[0]) {
      var k := FirstCountAt(entries, keys[1..]);
      j := k + 1;
      assert forall l :: 1 <= l < |keys| ==> keys[1..][l - 1] == keys[l];
    }
  }

  /** A count is said exactly if some place holds it under one of the keys, and it is the first such: no
      earlier place holds any, and no earlier key in that place does. */
  lemma {:induction false} SaidAt(places: seq<Members>, keys: seq<string>) returns (i: nat, j: nat)
    ensures match FirstIn(places, keys)
      case None => forall k :: 0 <= k < |places| ==> HoldsNone(places[k], keys)
      case Some(n) =>
        i < |places| && IsFirstCount(places[i], keys, j, n) && forall k :: 0 <= k < i ==> HoldsNone(places[k], keys)
  {
    i, j := 0, 0;
    if places != [] {
      j := FirstCountAt(places[0], keys);
      if FirstCount(places[0], keys).None? {
        var k, l := SaidAt(places[1..], keys);
        i, j := k + 1, l;
        assert forall k :: 1 <= k < |places| ==> places[1..][k - 1] == places[k];
      }
    }
  }

  /** The usual notification: its patch is what its parameters hold as `tokenUsage`. */
  lemma PatchOfNotification(name: string, thread: string, patch: Members)
    ensures var parameters := Object(map["threadId" := Text(thread), "tokenUsage" := Object(patch)]);
      TokenPatch(Object(map["method" := Text(name), "params" := parameters])) == Some(patch)
  {
    var parameters := Object(map["threadId" := Text(thread), "tokenUsage" := Object(patch)]);
    assert NestedObject(parameters, "tokenUsage") == Some(patch);
  }

  // ---------------------------------------------------------------- what is held

  function Latest(said: Option<u64>, known: Option<u64>): Option<u64> { if said.Some? then said else known }

  lemma {:induction false} NumberMerged(known: Option<u64>, entries: Members, keys: seq<string>)
    ensures MergedNumber(known, entries, keys) == Latest(FirstCount(entries, keys), known)
  {
    if keys != [] { NumberMerged(known, entries, keys[1..]); }
  }

  lemma CountMerged(known: TokenCounts, entries: Members, counter: Counter)
    ensures CountOf(MergedCounts(known, entries), counter)
      == Latest(FirstCount(entries, CounterKeys(counter)), CountOf(known, counter))
  {
    NumberMerged(CountOf(known, counter), entries, CounterKeys(counter));
  }

  lemma {:induction false} ObjectIsUnder(entries: Members, keys: seq<string>)
    ensures MembersOf(entries, keys)
      == var under := ObjectUnder(entries, keys); if under == [] then None else Some(under[0])
    ensures |ObjectUnder(entries, keys)| <= 1
  {
    if keys != [] { ObjectIsUnder(entries, keys[1..]); }
  }

  lemma {:induction false} FirstOfTwo(a: seq<Members>, b: seq<Members>, keys: seq<string>)
    ensures FirstIn(a + b, keys) == Latest(FirstIn(a, keys), FirstIn(b, keys))
  {
    if a == [] {
      assert a + b == b;
    } else {
      FirstOfTwo(a[1..], b, keys);
      assert (a + b)[1..] == a[1..] + b;
    }
  }

  lemma FirstOfOne(place: Members, keys: seq<string>)
    ensures FirstIn([place], keys) == FirstCount(place, keys)
  {
    assert [place][1..] == [];
  }

  lemma LayersMerged(known: TokenCounts, patch: Members, counter: Counter)
    ensures CountOf(LayeredCounts(known, patch), counter)
      == Latest(FirstIn(Places(patch, Running(counter)), CounterKeys(counter)), CountOf(known, counter))
  {
    var keys := CounterKeys(counter);
    var total := ObjectUnder(patch, ["total", "totalTokenUsage", "total_token_usage"]);
    var usage := ObjectUnder(patch, ["usage"]);
    ObjectIsUnder(patch, ["total", "totalTokenUsage", "total_token_usage"]);
    ObjectIsUnder(patch, ["usage"]);
    assert EntryMembers(patch, "usage") == MembersOf(patch, ["usage"]);
    FirstOfTwo(total + usage, [patch], keys);
    FirstOfTwo(total, usage, keys);
    FirstOfOne(patch, keys);
    var outer := MergedCounts(known, patch);
    CountMerged(known, patch, counter);
    var middle := if usage != [] then MergedCounts(outer, usage[0]) else outer;
    if usage != [] { FirstOfOne(usage[0], keys); CountMerged(outer, usage[0], counter); }
    if total != [] { FirstOfOne(total[0], keys); CountMerged(middle, total[0], counter); }
  }

  lemma RunningMerged(existing: Option<TokenState>, update: Value, counter: Counter)
    ensures Held(MergedTokens(existing, update), Running(counter))
      == Latest(Said(update, Running(counter)), Held(existing, Running(counter)))
  {
    var found := TokenPatch(update);
    if found.Some? { LayersMerged(Else(existing, NO_TOKENS).counts, found.value, counter); }
  }

  lemma LastTurnMerged(existing: Option<TokenState>, update: Value, counter: Counter)
    ensures Held(MergedTokens(existing, update), OfLastTurn(counter))
      == Latest(Said(update, OfLastTurn(counter)), Held(existing, OfLastTurn(counter)))
  {
    var found := TokenPatch(update);
    if found.Some? {
      var last := ObjectUnder(found.value, ["last", "lastTokenUsage", "last_token_usage"]);
      ObjectIsUnder(found.value, ["last", "lastTokenUsage", "last_token_usage"]);
      if last != [] {
        assert last == [last[0]];
        FirstOfOne(last[0], CounterKeys(counter));
        CountMerged(Else(Else(existing, NO_TOKENS).last, NO_COUNTS), last[0], counter);
      }
    }
  }

  lemma ContextMerged(existing: Option<TokenState>, update: Value)
    ensures Held(MergedTokens(existing, update), ContextWindow)
      == Latest(Said(update, ContextWindow), Held(existing, ContextWindow))
  {
    var found := TokenPatch(update);
    if found.Some? {
      FirstOfOne(found.value, FigureKeys(ContextWindow));
      NumberMerged(Else(existing, NO_TOKENS).contextWindow, found.value, FigureKeys(ContextWindow));
    }
  }

  /** A notification replaces exactly the figures it speaks of, each by what it says. */
  lemma FigureMerged(existing: Option<TokenState>, update: Value, f: Figure)
    ensures Held(MergedTokens(existing, update), f) == Latest(Said(update, f), Held(existing, f))
  {
    match f
    case Running(counter) => RunningMerged(existing, update, counter);
    case OfLastTurn(counter) => LastTurnMerged(existing, update, counter);
    case ContextWindow => ContextMerged(existing, update);
  }

  // ---------------------------------------------------------------- runs of notifications

  function TokensAfter(existing: Option<TokenState>, updates: seq<Value>): Option<TokenState> {
    if updates == [] then existing
    else MergedTokens(TokensAfter(existing, updates[..|updates| - 1]), updates[|updates| - 1])
  }

  /** The last value that any of the notifications gives for this figure. */
  function LastSaid(updates: seq<Value>, f: Figure): Option<u64> {
    if updates == [] then None
    else Latest(Said(updates[|updates| - 1], f), LastSaid(updates[..|updates| - 1], f))
  }

  /** Over any run of token notifications a figure holds the last value said, or what it was if none
      spoke of it; so no figure ever vanishes. */
  lemma {:induction false} TokensHoldLastSaid(existing: Option<TokenState>, updates: seq<Value>, f: Figure)
    ensures Held(TokensAfter(existing, updates), f) == Latest(LastSaid(updates, f), Held(existing, f))
    ensures Held(existing, f).Some? ==> Held(TokensAfter(existing, updates), f).Some?
  {
    if updates != [] {
      TokensHoldLastSaid(existing, updates[..|updates| - 1], f);
      FigureMerged(TokensAfter(existing, updates[..|updates| - 1]), updates[|updates| - 1], f);
    }
  }
}
