/** JSON values as a tree, how they are read, and how a sparse update is merged into an object. */
module Json {
  import opened Common

  datatype Value =
    | Null
    | Bool(bit: bool)
    | Integer(number: int)
    | Fraction(amount: real)
    | Text(text: string)
    | List(items: seq<Value>)
    | Object(members: Members)

  type Members = map<string, Value>

  function AsBool(v: Value): Option<bool> { if v.Bool? then Some(v.bit) else None }

  function AsU64(v: Value): Option<u64> { if v.Integer? && 0 <= v.number <= U64_MAX then Some(v.number) else None }

  function AsI64(v: Value): Option<int> {
    if v.Integer? && -0x8000_0000_0000_0000 <= v.number < 0x8000_0000_0000_0000 then Some(v.number) else None
  }

  function AsReal(v: Value): Option<real> {
    match v
    case Integer(number) => Some(number as real)
    case Fraction(amount) => Some(amount)
    case _ => None
  }

  function AsText(v: Value): Option<string> { if v.Text? then Some(v.text) else None }

  function AsMembers(v: Value): Option<Members> { if v.Object? then Some(v.members) else None }

  function Entry(entries: Members, key: string): Option<Value> { if key in entries then Some(entries[key]) else None }

  /** The value of the first of the keys that is present, even if it is null. */
  function Field(entries: Members, keys: seq<string>): Option<Value> {
    if keys == [] then None
    else if keys[0] in entries then Some(entries[keys[0]])
    else Field(entries, keys[1..])
  }

  /** The named value on this level, or inside `result` or `params`. */
  function FindValue(value: Value, keys: seq<string>): Option<Value>
    decreases value
  {
    if !value.Object? then None
    else
      var here := Field(value.members, keys);
      if here.Some? then here
      else
        var inResult := if "result" in value.members then FindValue(value.members["result"], keys) else None;
        if inResult.Some? then inResult
        else if "params" in value.members then FindValue(value.members["params"], keys) else None
  }

  /** The named object, searched inside `params` first; a patch may also lie in `params` directly. */
  function NestedObject(value: Value, key: string): Option<Members>
    decreases value
  {
    if !value.Object? then None
    else
      var entries := value.members;
      var inside := if "params" in entries then NestedObject(entries["params"], key) else None;
      if inside.Some? then inside
      else if key in entries then AsMembers(entries[key])
      else if key == "account" && ("email" in entries || "planType" in entries) then Some(entries)
      else if key == "rateLimits" && ("primary" in entries || "secondary" in entries) then Some(entries)
      else None
  }

  // ---------------------------------------------------------------- sparse merging

  /** Null means "not updated", not "removed". */
  predicate Given(patch: Members, key: string) { key in patch && !patch[key].Null? }

  function Merged(kept: Members, patch: Value): Members
    requires patch.Object?
    decreases patch, 0
  {
    map k | k in kept.Keys + patch.members.Keys && (k in kept || Given(patch.members, k)) ::
      if Given(patch.members, k) then MergedValue(OrNull(kept, k), patch.members[k]) else kept[k]
  }

  /** Nested objects are merged, anything else is replaced. */
  function MergedValue(kept: Value, given: Value): Value
    decreases given, 1
  {
    if kept.Object? && given.Object? then Object(Merged(kept.members, given)) else given
  }

  function OrNull(entries: Members, key: string): Value { if key in entries then entries[key] else Null }

  /** The patch without the entries still to be taken over. */
  function Without(patch: Value, rest: set<string>): Value
    requires patch.Object?
  {
    Object(patch.members - rest)
  }

  lemma MergedNext(kept: Members, patch: Value, rest: set<string>, key: string)
    requires patch.Object? && key in rest && rest <= patch.members.Keys
    ensures var before := Merged(kept, Without(patch, rest));
      && OrNull(before, key) == OrNull(kept, key)
      && Merged(kept, Without(patch, rest - {key}))
           == if patch.members[key].Null? then before
              else before[key := MergedValue(OrNull(kept, key), patch.members[key])]
  {
    var before, after := Merged(kept, Without(patch, rest)), Merged(kept, Without(patch, rest - {key}));
    assert forall k :: k != key ==> (Given(patch.members - rest, k) <==> Given(patch.members - (rest - {key}), k));
    assert forall k :: k != key && k in before ==> k in after && after[k] == before[k];
  }

  /** The loop over the entries of the patch. */
  method MergeObject(existing: Members, update: Value) returns (merged: Members)
    requires update.Object?
    ensures merged == Merged(existing, update)
    decreases update, 0
  {
    merged := existing;
    var rest := update.members.Keys;
    assert update.members - rest == map[];
    while rest != {}
      invariant rest <= update.members.Keys
      invariant merged == Merged(existing, Without(update, rest))
      decreases |rest|
    {
      var key :| key in rest;
      MergedNext(existing, update, rest, key);
      if !update.members[key].Null? {
        var value := MergeValue(OrNull(merged, key), update.members[key]);
        merged := merged[key := value];
      }
      rest := rest - {key};
    }
    assert update.members - rest == update.members;
  }

  method MergeValue(existing: Value, given: Value) returns (merged: Value)
    ensures merged == MergedValue(existing, given)
    decreases given, 1
  {
    if existing.Object? && given.Object? {
      var inner := MergeObject(existing.members, given);
      merged := Object(inner);
    } else {
      merged := given;
    }
  }

  lemma {:induction false} MergedWithItself(v: Value)
    requires v.Object?
    ensures Merged(v.members, v) == v.members
    decreases v
  {
    forall k | k in v.members ensures Merged(v.members, v)[k] == v.members[k] {
      if v.members[k].Object? { MergedWithItself(v.members[k]); }
    }
  }

  /** Receiving the same patch twice is receiving it once, at any depth. */
  lemma {:induction false} MergingTwice(kept: Members, patch: Value)
    requires patch.Object?
    ensures Merged(Merged(kept, patch), patch) == Merged(kept, patch)
    decreases patch
  {
    forall k | Given(patch.members, k)
      ensures Merged(Merged(kept, patch), patch)[k] == Merged(kept, patch)[k]
    {
      var given := patch.members[k];
      if given.Object? {
        if k in kept && kept[k].Object? { MergingTwice(kept[k].members, given); } else { MergedWithItself(given); }
      }
    }
  }

  /** What lies at a path of keys. */
  function At(entries: Members, path: seq<string>): Option<Value>
    decreases |path|
  {
    if path == [] || path[0] !in entries then None
    else if |path| == 1 then Some(entries[path[0]])
    else if entries[path[0]].Object? then At(entries[path[0]].members, path[1..])
    else None
  }

  /** The patch says nothing about this path: on the way down it ends in a missing entry or a null. */
  predicate Silent(patch: Members, path: seq<string>)
    decreases |path|
  {
    path != []
    && (!Given(patch, path[0])
        || (patch[path[0]].Object? && |path| > 1 && Silent(patch[path[0]].members, path[1..])))
  }

  /** A null or missing entry never changes what is stored. */
  lemma {:induction false} SilenceKeeps(kept: Members, patch: Value, path: seq<string>)
    requires patch.Object? && Silent(patch.members, path) && At(kept, path).Some?
    ensures At(Merged(kept, patch), path) == At(kept, path)
    decreases patch
  {
    var k := path[0];
    if Given(patch.members, k) { SilenceKeeps(kept[k].members, patch.members[k], path[1..]); }
  }

  /** Anything else the patch carries arrives. */
  lemma {:induction false} PatchArrives(kept: Members, patch: Value, path: seq<string>)
    requires patch.Object? && At(patch.members, path).Some? && !At(patch.members, path).value.Null?
    requires !At(patch.members, path).value.Object?
    ensures At(Merged(kept, patch), path) == At(patch.members, path)
    decreases patch
  {
    var k := path[0];
    if |path| > 1 && k in kept && kept[k].Object? { PatchArrives(kept[k].members, patch.members[k], path[1..]); }
  }

  /** No key ever disappears, and only what the patch carries is added. */
  lemma MergedKeys(kept: Members, patch: Value)
    requires patch.Object?
    ensures Merged(kept, patch).Keys == kept.Keys + (set k | k in patch.members && Given(patch.members, k))
  {}

  function MergedAll(kept: Members, patches: seq<Value>): Members
    requires forall p :: p in patches ==> p.Object?
  {
    if patches == [] then kept else Merged(MergedAll(kept, patches[..|patches| - 1]), patches[|patches| - 1])
  }

  /** Over any run of notifications, a path holds what the last patch that spoke of it said. */
  lemma {:induction false} LastWordStands(kept: Members, patches: seq<Value>, i: nat, path: seq<string>)
    requires i < |patches| && forall p :: p in patches ==> p.Object?
    requires var said := At(patches[i].members, path); said.Some? && !said.value.Null? && !said.value.Object?
    requires forall j :: i < j < |patches| ==> Silent(patches[j].members, path)
    ensures At(MergedAll(kept, patches), path) == At(patches[i].members, path)
  {
    var last := |patches| - 1;
    if i == last {
      PatchArrives(MergedAll(kept, patches[..last]), patches[last], path);
    } else {
      LastWordStands(kept, patches[..last], i, path);
      SilenceKeeps(MergedAll(kept, patches[..last]), patches[last], path);
    }
  }
}
