/** Sets of day keys: the oldest, the newest few, and their ascending listing. */
module Days {
  import opened Common

  ghost predicate IsOldest(keys: set<i32>, first: i32) { first in keys && forall k :: k in keys ==> first <= k }

  lemma {:induction false} HasOldest(keys: set<i32>)
    requires keys != {}
    ensures exists first :: IsOldest(keys, first)
    decreases |keys|
  {
    var k :| k in keys;
    if keys - {k} == {} {
      assert forall j :: j in keys ==> j == k || j in keys - {k};
      assert IsOldest(keys, k);
    } else {
      HasOldest(keys - {k});
      var first :| IsOldest(keys - {k}, first);
      var least := if first < k then first else k;
      assert forall j :: j in keys ==> j == k || j in keys - {k};
      assert IsOldest(keys, least);
    }
  }

  ghost predicate IsLatest(keys: set<i32>, last: i32) { last in keys && forall k :: k in keys ==> k <= last }

  lemma {:induction false} HasLatest(keys: set<i32>)
    requires keys != {}
    ensures exists last :: IsLatest(keys, last)
    decreases |keys|
  {
    var k :| k in keys;
    assert forall j :: j in keys ==> j == k || j in keys - {k};
    if keys - {k} == {} {
      assert IsLatest(keys, k);
    } else {
      HasLatest(keys - {k});
      var last :| IsLatest(keys - {k}, last);
      var most := if last > k then last else k;
      assert IsLatest(keys, most);
    }
  }

  ghost function Oldest(keys: set<i32>): (first: i32)
    requires keys != {}
    ensures IsOldest(keys, first)
  {
    HasOldest(keys);
    var first :| IsOldest(keys, first);
    first
  }

  /** What dropping the oldest key again and again leaves. */
  ghost function NewestKeys(keys: set<i32>, limit: nat): set<i32>
    decreases |keys|
  {
    if |keys| <= limit then keys else NewestKeys(keys - {Oldest(keys)}, limit)
  }

  /** `kept` are the `limit` largest members of `keys`. */
  ghost predicate AreNewest(kept: set<i32>, keys: set<i32>, limit: nat) {
    && kept <= keys
    && |kept| == Min(|keys|, limit)
    && forall a, b :: a in kept && b in keys && b !in kept ==> b < a
  }

  lemma {:induction false} NewestKeysAreNewest(keys: set<i32>, limit: nat)
    ensures AreNewest(NewestKeys(keys, limit), keys, limit)
    decreases |keys|
  {
    if |keys| > limit { NewestKeysAreNewest(keys - {Oldest(keys)}, limit); }
  }

  lemma NewestAreNested(kept: set<i32>, other: set<i32>, keys: set<i32>, limit: nat)
    requires AreNewest(kept, keys, limit) && AreNewest(other, keys, limit)
    ensures kept <= other || other <= kept
  {
    if !(kept <= other) {
      var a :| a in kept && a !in other;
      assert forall b :: b in other ==> a < b;
    }
  }

  /** At most one set of keys is the newest. */
  lemma NewestAreUnique(kept: set<i32>, keys: set<i32>, limit: nat)
    requires AreNewest(kept, keys, limit)
    ensures kept == NewestKeys(keys, limit)
  {
    var other := NewestKeys(keys, limit);
    NewestKeysAreNewest(keys, limit);
    NewestAreNested(kept, other, keys, limit);
    if kept <= other { SubsetSize(kept, other); } else { SubsetSize(other, kept); }
  }

  /** Trimming again after touching `key` once more gives the same as touching it once. */
  lemma TrimmingTwice(keys: set<i32>, key: i32, limit: nat)
    ensures NewestKeys(NewestKeys(keys + {key}, limit) + {key}, limit) == NewestKeys(keys + {key}, limit)
  {
    var kept := NewestKeys(keys + {key}, limit);
    NewestKeysAreNewest(keys + {key}, limit);
    if key in kept { assert kept + {key} == kept; }
    NewestAreUnique(kept, kept + {key}, limit);
  }

  // ---------------------------------------------------------------- maps by day

  ghost function Newest<V>(days: map<i32, V>, limit: nat): map<i32, V> {
    NewestKeysAreNewest(days.Keys, limit);
    map k | k in NewestKeys(days.Keys, limit) :: days[k]
  }

  /** `kept` holds the `limit` newest days of `days`, with their contents untouched. */
  ghost predicate KeepsNewest<V>(kept: map<i32, V>, days: map<i32, V>, limit: nat) {
    AreNewest(kept.Keys, days.Keys, limit) && forall k :: k in kept ==> kept[k] == days[k]
  }

  lemma KeepingNewest<V>(kept: map<i32, V>, days: map<i32, V>, limit: nat)
    ensures KeepsNewest(kept, days, limit) <==> kept == Newest(days, limit)
  {
    NewestKeysAreNewest(days.Keys, limit);
    var newest := Newest(days, limit);
    assert newest.Keys == NewestKeys(days.Keys, limit);
    if AreNewest(kept.Keys, days.Keys, limit) { NewestAreUnique(kept.Keys, days.Keys, limit); }
    if KeepsNewest(kept, days, limit) { assert kept == newest; }
  }

  lemma NewestSize<V>(days: map<i32, V>, limit: nat)
    ensures |Newest(days, limit)| == Min(|days|, limit)
    ensures |days| <= limit ==> Newest(days, limit) == days
  {
    KeepingNewest(Newest(days, limit), days, limit);
  }

  lemma NewestContents<V>(days: map<i32, V>, limit: nat)
    ensures Newest(days, limit).Keys == NewestKeys(days.Keys, limit) <= days.Keys
    ensures forall k :: k in Newest(days, limit) ==> Newest(days, limit)[k] == days[k]
  {
    NewestKeysAreNewest(days.Keys, limit);
  }

  lemma EnteredKeys<V>(days: map<i32, V>, key: i32, day: V)
    ensures days[key := day].Keys == days.Keys + {key}
  {}

  /** Entering a day, trimming, entering it again and trimming again: only the last entry counts. */
  lemma EnteringTwice<V>(days: map<i32, V>, key: i32, first: V, second: V, limit: nat)
    ensures var once := Newest(days[key := first], limit);
      Newest(once[key := second], limit) == Newest(days[key := second], limit)
  {
    var once := Newest(days[key := first], limit);
    EnteredKeys(days, key, first);
    EnteredKeys(days, key, second);
    EnteredKeys(once, key, second);
    TrimmingTwice(days.Keys, key, limit);
    NewestContents(days[key := first], limit);
    NewestContents(days[key := second], limit);
    NewestContents(once[key := second], limit);
  }

  /** A day dropped at once by the trimming leaves no trace of what it held. */
  lemma EnteringInVain<V>(days: map<i32, V>, key: i32, first: V, second: V, limit: nat)
    requires key !in Newest(days[key := first], limit)
    ensures Newest(days[key := first], limit) == Newest(days[key := second], limit)
  {
    EnteredKeys(days, key, first);
    EnteredKeys(days, key, second);
    NewestContents(days[key := first], limit);
    NewestContents(days[key := second], limit);
  }

  // ---------------------------------------------------------------- listings

  ghost predicate Ascending(keys: seq<i32>) { forall i, j :: 0 <= i < j < |keys| ==> keys[i] < keys[j] }

  /** The keys of a sorted map in iteration order. */
  ghost function Listed(keys: set<i32>): seq<i32>
    decreases |keys|
  {
    if keys == {} then [] else [Oldest(keys)] + Listed(keys - {Oldest(keys)})
  }

  lemma PrependAscending(first: i32, rest: seq<i32>)
    requires Ascending(rest) && forall k :: k in rest ==> first < k
    ensures Ascending([first] + rest)
  {
    assert forall j :: 1 <= j < |rest| + 1 ==> ([first] + rest)[j] == rest[j - 1] && rest[j - 1] in rest;
  }

  lemma {:induction false} ListedIsAscending(keys: set<i32>)
    ensures Ascending(Listed(keys)) && |Listed(keys)| == |keys| && (forall k :: k in Listed(keys) <==> k in keys)
    decreases |keys|
  {
    if keys != {} {
      var first, rest := Oldest(keys), keys - {Oldest(keys)};
      ListedIsAscending(rest);
      PrependAscending(first, Listed(rest));
    }
  }

  function Members(keys: seq<i32>): set<i32> { set k | k in keys }

  lemma PrependMember(first: i32, keys: seq<i32>)
    ensures Members([first] + keys) == Members(keys) + {first}
    ensures forall k :: k in [first] + keys <==> k == first || k in keys
  {}

  /** The listed keys are the larger part of `all`, the rest the smaller. */
  ghost predicate Splits(keys: seq<i32>, rest: set<i32>, all: set<i32>) {
    && Ascending(keys) && rest <= all && Members(keys) == all - rest
    && forall k, j :: k in keys && j in rest ==> j < k
  }

  lemma SplitsNone(all: set<i32>)
    ensures Splits([], all, all)
  {
    assert Members([]) == all - all;
  }

  lemma SplitsNext(keys: seq<i32>, rest: set<i32>, all: set<i32>, last: i32)
    requires Splits(keys, rest, all) && IsLatest(rest, last)
    ensures Splits([last] + keys, rest - {last}, all)
  {
    PrependAscending(last, keys);
    PrependMember(last, keys);
  }

  lemma SplitIsNewest(keys: seq<i32>, rest: set<i32>, all: set<i32>, limit: nat)
    requires Splits(keys, rest, all) && (|keys| == limit || (rest == {} && |keys| <= limit))
    ensures AreNewest(Members(keys), all, limit)
  {
    DistinctSize(keys);
    assert Members(keys) == Elements(keys);
    SubsetSize(Members(keys), all);
    if rest == {} { assert Members(keys) == all; }
  }
}
