/** Shared by all modules: optional values and the fixed-width integer ranges. */
module Common {
  datatype Option<+T> = None | Some(value: T)

  const U64_MAX: nat := 0xFFFF_FFFF_FFFF_FFFF

  type u64 = n: int | 0 <= n <= U64_MAX

  type i32 = n: int | -0x8000_0000 <= n < 0x8000_0000

  /** The nearest unsigned 64-bit value: what any chain of saturating additions computes. */
  function Saturate(n: nat): u64 { if n > U64_MAX then U64_MAX else n }

  function Min(a: nat, b: nat): nat { if a <= b then a else b }

  lemma SubsetSize<T>(a: set<T>, b: set<T>)
    requires a <= b
    ensures |a| <= |b| && (|a| == |b| ==> a == b)
  {
    assert b == a + (b - a);
  }

  // ---------------------------------------------------------------- sequences as sets

  function Elements<T(==)>(s: seq<T>): set<T> { set x | x in s }

  lemma NoElements<T>(s: seq<T>)
    ensures Elements(s) == {} <==> s == []
  {
    if s != [] { assert s[0] in Elements(s); }
  }

  lemma {:induction false} DistinctSize<T>(s: seq<T>)
    requires forall i, j :: 0 <= i < j < |s| ==> s[i] != s[j]
    ensures |Elements(s)| == |s|
  {
    if s != [] {
      var init, last := s[..|s| - 1], s[|s| - 1];
      DistinctSize(init);
      assert s == init + [last];
      assert Elements(s) == Elements(init) + {last};
    }
  }

  ghost predicate IsSorted<T>(s: seq<T>, before: (T, T) -> bool) {
    forall i, j :: 0 <= i < j < |s| ==> before(s[i], s[j])
  }

  /** Whatever comes before another does not come after it. */
  ghost predicate IsOneWay<T(!new)>(before: (T, T) -> bool) { forall x, y :: before(x, y) ==> !before(y, x) }

  lemma LastElement<T(!new)>(s: seq<T>, before: (T, T) -> bool)
    requires IsSorted(s, before) && IsOneWay(before) && s != []
    ensures Elements(s[..|s| - 1]) == Elements(s) - {s[|s| - 1]}
    ensures forall x :: x in Elements(s) ==> x == s[|s| - 1] || before(x, s[|s| - 1])
  {
    var init, last := s[..|s| - 1], s[|s| - 1];
    assert s == init + [last];
    assert forall i :: 0 <= i < |init| ==> before(init[i], last);
    assert last !in init;
  }

  /** A set has one sorted listing. */
  lemma {:induction false} SortedIsUnique<T(!new)>(a: seq<T>, b: seq<T>, before: (T, T) -> bool)
    requires IsSorted(a, before) && IsSorted(b, before) && IsOneWay(before) && Elements(a) == Elements(b)
    ensures a == b
  {
    NoElements(a);
    NoElements(b);
    if a != [] {
      LastElement(a, before);
      LastElement(b, before);
      var n, m := |a| - 1, |b| - 1;
      assert a[n] in Elements(b) && b[m] in Elements(a);
      SortedIsUnique(a[..n], b[..m], before);
      assert a == a[..n] + [a[n]] && b == b[..m] + [b[m]];
    }
  }
}
