/** Keeping only what has not been seen: a stream filtered by the key of each element. */
module Novelty {
  function Keys<E(==, !new), K(==, !new)>(events: seq<E>, key: E -> K): set<K> { set e | e in events :: key(e) }

  /** The elements whose key was not seen before, each key once, in order. */
  function Unseen<E(==, !new), K(==, !new)>(events: seq<E>, key: E -> K, seen: set<K>): seq<E> {
    if events == [] then []
    else
      var rest, last := events[..|events| - 1], events[|events| - 1];
      if key(last) in seen + Keys(rest, key) then Unseen(rest, key, seen) else Unseen(rest, key, seen) + [last]
  }

  lemma KeysPushed<E(!new), K(!new)>(events: seq<E>, e: E, key: E -> K, seen: set<K>)
    ensures Keys(events + [e], key) == Keys(events, key) + {key(e)}
    ensures seen + Keys(events + [e], key) == seen + Keys(events, key) + {key(e)}
  {
    assert forall x :: x in events + [e] <==> x in events || x == e;
  }

  lemma UnseenPushed<E(!new), K(!new)>(events: seq<E>, e: E, key: E -> K, seen: set<K>)
    ensures Unseen(events + [e], key, seen)
      == if key(e) in seen + Keys(events, key) then Unseen(events, key, seen) else Unseen(events, key, seen) + [e]
  {
    assert (events + [e])[..|events|] == events;
  }

  lemma KeysOnward<E(!new), K(!new)>(a: seq<E>, b: seq<E>, key: E -> K, seen: set<K>)
    ensures Keys(a + b, key) == Keys(a, key) + Keys(b, key)
    ensures seen + Keys(a + b, key) == seen + Keys(a, key) + Keys(b, key)
  {
    assert forall x :: x in a + b <==> x in a || x in b;
  }

  lemma OnwardByOne<E(!new), K(!new)>(a: seq<E>, b: seq<E>, e: E, key: E -> K, seen: set<K>)
    requires Unseen(a + b, key, seen) == Unseen(a, key, seen) + Unseen(b, key, seen + Keys(a, key))
    ensures Unseen((a + b) + [e], key, seen) == Unseen(a, key, seen) + Unseen(b + [e], key, seen + Keys(a, key))
  {
    KeysOnward(a, b, key, seen);
    UnseenPushed(a + b, e, key, seen);
    UnseenPushed(b, e, key, seen + Keys(a, key));
  }

  /** Filtering in two parts is filtering in one. */
  lemma {:induction false} UnseenOnward<E(!new), K(!new)>(a: seq<E>, b: seq<E>, key: E -> K, seen: set<K>)
    ensures Unseen(a + b, key, seen) == Unseen(a, key, seen) + Unseen(b, key, seen + Keys(a, key))
  {
    if b == [] {
      assert a + b == a;
    } else {
      var init, last := b[..|b| - 1], b[|b| - 1];
      UnseenOnward(a, init, key, seen);
      OnwardByOne(a, init, last, key, seen);
      assert a + b == (a + init) + [last] && b == init + [last];
    }
  }

  /** Puts the keys of the elements into the set of those seen; keeps the elements it lacked. */
  method Insert<E(==, !new), K(==, !new)>(events: seq<E>, key: E -> K, before: set<K>)
    returns (accepted: seq<E>, seen: set<K>)
    ensures accepted == Unseen(events, key, before) && seen == before + Keys(events, key)
  {
    accepted, seen := [], before;
    for i := 0 to |events|
      invariant accepted == Unseen(events[..i], key, before) && seen == before + Keys(events[..i], key)
    {
      ghost var init := events[..i];
      assert events[..i + 1] == init + [events[i]];
      UnseenPushed(init, events[i], key, before);
      KeysPushed(init, events[i], key, before);
      if key(events[i]) !in seen { accepted := accepted + [events[i]]; }
      seen := seen + {key(events[i])};
    }
    assert events[..|events|] == events;
  }

  /** Nothing passes whose keys were all seen. */
  lemma {:induction false} NothingUnseen<E(!new), K(!new)>(events: seq<E>, key: E -> K, seen: set<K>)
    requires Keys(events, key) <= seen
    ensures Unseen(events, key, seen) == []
  {
    if events != [] {
      var rest, last := events[..|events| - 1], events[|events| - 1];
      assert events == rest + [last];
      KeysPushed(rest, last, key, seen);
      NothingUnseen(rest, key, seen);
    }
  }

  /** What passes has exactly the unseen keys, no key twice. */
  lemma {:induction false} UnseenKeys<E(!new), K(!new)>(events: seq<E>, key: E -> K, seen: set<K>)
    ensures Keys(Unseen(events, key, seen), key) == Keys(events, key) - seen
    ensures var passed := Unseen(events, key, seen);
      forall i, j :: 0 <= i < j < |passed| ==> key(passed[i]) != key(passed[j])
  {
    if events != [] {
      var rest, last := events[..|events| - 1], events[|events| - 1];
      assert events == rest + [last];
      UnseenKeys(rest, key, seen);
      KeysPushed(rest, last, key, seen);
      var passed := Unseen(rest, key, seen);
      KeysPushed(passed, last, key, {});
      assert forall i :: 0 <= i < |passed| ==> key(passed[i]) in Keys(passed, key);
    }
  }

  lemma UnseenFromNothing<E(!new), K(!new)>(a: seq<E>, b: seq<E>, key: E -> K)
    ensures Unseen(a + b, key, {}) == Unseen(a, key, {}) + Unseen(b, key, Keys(a, key))
  {
    UnseenOnward(a, b, key, {});
    assert {} + Keys(a, key) == Keys(a, key);
  }

  lemma FilteringTorn<E(!new), K(!new)>(known: seq<E>, torn: seq<E>, more: seq<E>, key: E -> K)
    ensures Unseen(known + torn, key, {}) + Unseen(torn + more, key, Keys(known + torn, key))
      == Unseen(known + (torn + more), key, {})
  {
    KeysOnward(known, torn, key, {});
    assert known + (torn + more) == (known + torn) + more;
    TornFiltering(known + torn, torn, more, known + (torn + more), key);
  }

  /** Some elements are read, then everything from the last of them on anew: filtering both reads is
      filtering the whole. */
  lemma FilteringAlike<E(!new), K(!new)>(known: seq<E>, torn: seq<E>, added: seq<E>, more: seq<E>, key: E -> K)
    requires torn == [] || added == torn + more
    ensures Unseen(known + torn, key, {}) + Unseen(added, key, Keys(known + torn, key))
      == Unseen(known + added, key, {})
  {
    if torn == [] {
      assert known + torn == known;
      UnseenFromNothing(known, added, key);
    } else {
      FilteringTorn(known, torn, more, key);
    }
  }

  lemma KeysAlike<E(!new), K(!new)>(known: seq<E>, torn: seq<E>, added: seq<E>, more: seq<E>, key: E -> K)
    requires torn == [] || added == torn + more
    ensures Keys(known + torn, key) + Keys(added, key) == Keys(known + added, key)
  {
    KeysOnward(known, torn, key, {});
    KeysOnward(known, added, key, {});
    if torn != [] { KeysOnward(torn, more, key, {}); }
  }

  lemma TornFiltering<E(!new), K(!new)>(all: seq<E>, torn: seq<E>, more: seq<E>, whole: seq<E>, key: E -> K)
    requires Keys(torn, key) <= Keys(all, key) && whole == all + more
    ensures Unseen(all, key, {}) + Unseen(torn + more, key, Keys(all, key)) == Unseen(whole, key, {})
  {
    var seen := Keys(all, key);
    UnseenFromNothing(all, more, key);
    UnseenOnward(torn, more, key, seen);
    NothingUnseen(torn, key, seen);
    assert seen + Keys(torn, key) == seen;
    assert [] + Unseen(more, key, seen) == Unseen(more, key, seen);
  }

  // ---------------------------------------------------------------- elements that come back

  function Without<E, K(==)>(events: seq<E>, key: E -> K, keys: set<K>): seq<E> {
    if events == [] then []
    else
      var rest, last := events[..|events| - 1], events[|events| - 1];
      Without(rest, key, keys) + if key(last) in keys then [] else [last]
  }

  /** Having seen more only takes away from what passes. */
  lemma {:induction false} SeeingMore<E(!new), K(!new)>(events: seq<E>, key: E -> K, seen: set<K>, more: set<K>)
    ensures Unseen(events, key, seen + more) == Without(Unseen(events, key, seen), key, more)
  {
    if events != [] {
      var rest, last := events[..|events| - 1], events[|events| - 1];
      SeeingMore(rest, key, seen, more);
      var passed := Unseen(rest, key, seen);
      assert (passed + [last])[..|passed|] == passed;
    }
  }

  lemma {:induction false} WithoutFirst<E, K>(events: seq<E>, key: E -> K, keys: set<K>, n: nat)
    requires n <= |events| && forall i :: 0 <= i < |events| ==> (key(events[i]) in keys <==> i < n)
    ensures Without(events, key, keys) == events[n..]
  {
    if events != [] {
      var rest, last := events[..|events| - 1], events[|events| - 1];
      if n < |events| {
        WithoutFirst(rest, key, keys, n);
        assert events[n..] == rest[n..] + [last];
      } else {
        WithoutFirst(rest, key, keys, n - 1);
      }
    }
  }

  lemma KeyAmong<E(!new), K(!new)>(events: seq<E>, key: E -> K, k: K)
    ensures k in Keys(events, key) <==> exists i :: 0 <= i < |events| && key(events[i]) == k
  {}

  /** Among the first of the second read's new elements, those of the first read make no difference. */
  lemma RestPasses<E(!new), K(!new)>(again: seq<E>, added: seq<E>, key: E -> K, seen: set<K>)
    requires Unseen(again, key, seen) <= Unseen(added, key, seen)
    ensures Unseen(again, key, seen) + Unseen(added, key, seen + Keys(again, key)) == Unseen(added, key, seen)
  {
    var first, all := Unseen(again, key, seen), Unseen(added, key, seen);
    UnseenKeys(again, key, seen);
    UnseenKeys(added, key, seen);
    SeeingMore(added, key, seen, Keys(again, key));
    forall i | 0 <= i < |all| ensures key(all[i]) in Keys(again, key) <==> i < |first| {
      KeyAmong(all, key, key(all[i]));
      KeyAmong(first, key, key(all[i]));
      assert all[..|first|] == first;
    }
    WithoutFirst(all, key, Keys(again, key), |first|);
  }

  /** Whatever is read again: the two reads come to the whole exactly if the elements of it that pass
      once more are the first of the new ones. */
  lemma CatchingUpIff<E(!new), K(!new)>(again: seq<E>, known: seq<E>, torn: seq<E>, added: seq<E>, more: seq<E>,
                        key: E -> K)
    requires torn == [] || added == torn + more
    ensures var seen := Keys(known + torn, key);
      Unseen(known + torn, key, {}) + Unseen(again + added, key, seen) == Unseen(known + added, key, {})
      <==> Unseen(again, key, seen) <= Unseen(added, key, seen)
  {
    var seen, before := Keys(known + torn, key), Unseen(known + torn, key, {});
    FilteringAlike(known, torn, added, more, key);
    UnseenOnward(again, added, key, seen);
    var both, one := Unseen(again + added, key, seen), Unseen(added, key, seen);
    assert before + both == before + one <==> both == one by {
      if before + both == before + one {
        assert both == (before + both)[|before|..] && one == (before + one)[|before|..];
      }
    }
    if Unseen(again, key, seen) <= one { RestPasses(again, added, key, seen); }
  }

  lemma FirstKeys<E(!new), K(!new)>(first: seq<E>, all: seq<E>, key: E -> K)
    requires first <= all
    ensures Keys(first, key) <= Keys(all, key)
  {
    KeysOnward(first, all[|first|..], key, {});
    assert all == first + all[|first|..];
  }

  lemma ReturningSeen<E(!new), K(!new)>(again: seq<E>, added: seq<E>, key: E -> K, seen: set<K>)
    requires Unseen(again, key, seen) <= Unseen(added, key, seen)
    ensures Keys(again, key) <= seen + Keys(added, key)
  {
    var first, all := Unseen(again, key, seen), Unseen(added, key, seen);
    FirstKeys(first, all, key);
    assert Keys(first, key) == Keys(again, key) - seen by { UnseenKeys(again, key, seen); }
    assert Keys(all, key) == Keys(added, key) - seen by { UnseenKeys(added, key, seen); }
  }

  /** And then the two reads have seen what the whole holds. */
  lemma SeenAlike<E(!new), K(!new)>(again: seq<E>, known: seq<E>, torn: seq<E>, added: seq<E>, more: seq<E>,
                    key: E -> K)
    requires torn == [] || added == torn + more
    requires var seen := Keys(known + torn, key); Unseen(again, key, seen) <= Unseen(added, key, seen)
    ensures Keys(known + torn, key) + Keys(again + added, key) == Keys(known + added, key)
  {
    var seen := Keys(known + torn, key);
    KeysOnward(again, added, key, seen);
    KeysAlike(known, torn, added, more, key);
    ReturningSeen(again, added, key, seen);
  }

  /** Nothing passes exactly if all keys were seen. */
  lemma NothingUnseenIff<E(!new), K(!new)>(events: seq<E>, key: E -> K, seen: set<K>)
    ensures Unseen(events, key, seen) == [] <==> Keys(events, key) <= seen
  {
    UnseenKeys(events, key, seen);
    if Keys(events, key) <= seen { NothingUnseen(events, key, seen); }
    else {
      var k :| k in Keys(events, key) && k !in seen;
      KeyAmong(Unseen(events, key, seen), key, k);
    }
  }
}
