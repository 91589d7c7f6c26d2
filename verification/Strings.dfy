/** The order in which sorted maps iterate over their string keys. */
module Strings {
  import opened Common

  predicate IsSpace(c: char) { c == ' ' || '\t' <= c <= '\r' }

  predicate IsBlank(s: string) { forall c :: c in s ==> IsSpace(c) }

  function Lower(c: char): char { if 'A' <= c <= 'Z' then c - 'A' + 'a' else c }

  function Lowered(s: string): string { seq(|s|, i requires 0 <= i < |s| => Lower(s[i])) }

  function TrimStart(s: string): string { if s != [] && IsSpace(s[0]) then TrimStart(s[1..]) else s }

  function TrimEnd(s: string): string { if s != [] && IsSpace(s[|s| - 1]) then TrimEnd(s[..|s| - 1]) else s }

  function Trim(s: string): string { TrimEnd(TrimStart(s)) }

  /** Lexicographic order by character. */
  predicate Below(a: string, b: string) {
    b != [] && (a == [] || a[0] < b[0] || (a[0] == b[0] && Below(a[1..], b[1..])))
  }

  lemma {:induction false} BelowIsTransitive(a: string, b: string, c: string)
    requires Below(a, b) && Below(b, c)
    ensures Below(a, c)
  {
    if a != [] && a[0] == b[0] && b[0] == c[0] { BelowIsTransitive(a[1..], b[1..], c[1..]); }
  }

  lemma {:induction false} BelowIsTotal(a: string, b: string)
    ensures a == b || Below(a, b) || Below(b, a)
    ensures !(Below(a, b) && Below(b, a)) && !Below(a, a)
  {
    if a != [] { BelowIsIrreflexive(a); }
    if a != [] && b != [] && a[0] == b[0] {
      BelowIsTotal(a[1..], b[1..]);
      if a[1..] == b[1..] { assert a == [a[0]] + a[1..] && b == [b[0]] + b[1..]; }
    }
  }

  lemma {:induction false} BelowIsIrreflexive(a: string)
    ensures !Below(a, a)
  {
    if a != [] { BelowIsIrreflexive(a[1..]); }
  }

  ghost predicate IsFirst(keys: set<string>, first: string) {
    first in keys && forall k :: k in keys ==> !Below(k, first)
  }

  lemma {:induction false} HasFirst(keys: set<string>)
    requires keys != {}
    ensures exists first :: IsFirst(keys, first)
    decreases |keys|
  {
    var k :| k in keys;
    BelowIsIrreflexive(k);
    assert forall j :: j in keys ==> j == k || j in keys - {k};
    if keys - {k} == {} {
      assert IsFirst(keys, k);
    } else {
      HasFirst(keys - {k});
      var first :| IsFirst(keys - {k}, first);
      if Below(k, first) {
        forall j | j in keys - {k} ensures !Below(j, k) { if Below(j, k) { BelowIsTransitive(j, k, first); } }
        assert IsFirst(keys, k);
      } else {
        assert IsFirst(keys, first);
      }
    }
  }

  ghost function First(keys: set<string>): (first: string)
    requires keys != {}
    ensures IsFirst(keys, first)
  {
    HasFirst(keys);
    var first :| IsFirst(keys, first);
    first
  }
}
