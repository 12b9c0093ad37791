/**
 * Python's ordering of `str` values (lexicographic by code point, a proper
 * prefix first) and `sorted(list(s))` for a set of strings: the unique
 * strictly increasing sequence holding exactly the set's elements.
 */
module PySort {

  /** `a < b` on Python strings. */
  predicate Below(a: string, b: string)
    decreases |a|
  {
    if a == [] then b != []
    else if b == [] then false
    else a[0] < b[0] || (a[0] == b[0] && Below(a[1..], b[1..]))
  }

  lemma {:induction false} BelowIrreflexive(a: string)
    ensures !Below(a, a)
    decreases |a|
  {
    if a != [] {
      BelowIrreflexive(a[1..]);
    }
  }

  lemma {:induction false} BelowTransitive(a: string, b: string, c: string)
    requires Below(a, b) && Below(b, c)
    ensures Below(a, c)
    decreases |a|
  {
    if a != [] && a[0] == b[0] && b[0] == c[0] {
      BelowTransitive(a[1..], b[1..], c[1..]);
    }
  }

  /** Any two different strings are ordered one way or the other. */
  lemma {:induction false} BelowTotal(a: string, b: string)
    ensures a == b || Below(a, b) || Below(b, a)
    decreases |a|
  {
    if a != [] && b != [] && a[0] == b[0] {
      BelowTotal(a[1..], b[1..]);
      if a[1..] == b[1..] {
        assert a == [a[0]] + a[1..] && b == [b[0]] + b[1..];
      }
    }
  }

  lemma BelowAsymmetric(a: string, b: string)
    requires Below(a, b)
    ensures !Below(b, a)
  {
    if Below(b, a) {
      BelowTransitive(a, b, a);
      BelowIrreflexive(a);
    }
  }

  /** Increasing without repetitions. */
  predicate StrictlySorted(r: seq<string>) {
    forall i, j :: 0 <= i < j < |r| ==> Below(r[i], r[j])
  }

  function Elems(r: seq<string>): set<string> {
    set x | x in r
  }

  /** A strictly sorted sequence holds no element twice. */
  lemma SortedDistinct(r: seq<string>)
    requires StrictlySorted(r)
    ensures forall i, j :: 0 <= i < j < |r| ==> r[i] != r[j]
  {
    forall i, j | 0 <= i < j < |r| ensures r[i] != r[j] {
      BelowIrreflexive(r[i]);
    }
  }

  /** Inserts `x` at its place; nothing happens when it is already there. */
  function Insert(x: string, r: seq<string>): (r': seq<string>)
    requires StrictlySorted(r)
    ensures StrictlySorted(r')
    ensures Elems(r') == Elems(r) + {x}
    decreases |r|
  {
    if r == [] then [x]
    else if x == r[0] then r
    else if Below(x, r[0]) then
      InsertFrontSorted(x, r);
      [x] + r
    else
      BelowTotal(x, r[0]);
      var tail := Insert(x, r[1..]);
      ElemsCons(r[0], r[1..]);
      assert r == [r[0]] + r[1..];
      forall y | y in tail ensures Below(r[0], y) {
        assert y in Elems(tail);
        if y != x {
          assert y in Elems(r[1..]);
          var k :| 0 <= k < |r| - 1 && r[1..][k] == y;
          assert r[k + 1] == y;
        }
      }
      ConsSorted(r[0], tail);
      ElemsCons(r[0], tail);
      [r[0]] + tail
  }

  lemma ElemsCons(h: string, t: seq<string>)
    ensures Elems([h] + t) == {h} + Elems(t)
  {
    assert forall y :: y in [h] + t <==> y == h || y in t;
  }

  lemma ConsSorted(h: string, t: seq<string>)
    requires StrictlySorted(t)
    requires forall y :: y in t ==> Below(h, y)
    ensures StrictlySorted([h] + t)
  {
    var r := [h] + t;
    forall i, j | 0 <= i < j < |r| ensures Below(r[i], r[j]) {
      if i == 0 {
        assert r[j] == t[j - 1] && t[j - 1] in t;
      }
    }
  }

  lemma InsertFrontSorted(x: string, r: seq<string>)
    requires StrictlySorted(r) && r != [] && Below(x, r[0])
    ensures StrictlySorted([x] + r)
  {
    var r' := [x] + r;
    forall i, j | 0 <= i < j < |r'| ensures Below(r'[i], r'[j]) {
      if i == 0 && j > 1 {
        BelowTransitive(x, r[0], r[j - 1]);
      }
    }
  }

  /** `sorted(list(s))`: the strictly increasing arrangement of a set. */
  ghost function SortSet(s: set<string>): (r: seq<string>)
    ensures StrictlySorted(r)
    ensures Elems(r) == s
    decreases s
  {
    if s == {} then []
    else
      var x :| x in s;
      Insert(x, SortSet(s - {x}))
  }

  /** A set has one strictly sorted arrangement only, so `SortSet` is what
      any correct sort of the set returns. */
  lemma {:induction false} SortedUnique(a: seq<string>, b: seq<string>)
    requires StrictlySorted(a) && StrictlySorted(b)
    requires Elems(a) == Elems(b)
    ensures a == b
    decreases |a|
  {
    if a == [] {
      assert forall k :: 0 <= k < |b| ==> b[k] in Elems(b);
    } else {
      assert b != [] by {
        assert a[0] in Elems(a);
      }
      HeadIsLeast(a, b);
      SortedDistinct(a);
      SortedDistinct(b);
      assert Elems(a[1..]) == Elems(b[1..]) by {
        assert a == [a[0]] + a[1..] && b == [b[0]] + b[1..];
        ElemsCons(a[0], a[1..]);
        ElemsCons(b[0], b[1..]);
        NotInTail(a);
        NotInTail(b);
        assert Elems(a[1..]) == Elems(a) - {a[0]};
        assert Elems(b[1..]) == Elems(b) - {b[0]};
      }
      SortedUnique(a[1..], b[1..]);
      assert a == [a[0]] + a[1..] && b == [b[0]] + b[1..];
    }
  }

  lemma NotInTail(r: seq<string>)
    requires r != [] && forall i, j :: 0 <= i < j < |r| ==> r[i] != r[j]
    ensures r[0] !in r[1..]
  {
    forall k | 0 <= k < |r| - 1 ensures r[1..][k] != r[0] {
      assert r[1..][k] == r[k + 1];
    }
  }

  lemma HeadIsLeast(a: seq<string>, b: seq<string>)
    requires StrictlySorted(a) && StrictlySorted(b)
    requires a != [] && b != [] && Elems(a) == Elems(b)
    ensures a[0] == b[0]
  {
    assert a[0] in Elems(b) && b[0] in Elems(a);
    var i :| 0 <= i < |b| && b[i] == a[0];
    var j :| 0 <= j < |a| && a[j] == b[0];
    if i != 0 && j != 0 {
      BelowAsymmetric(b[0], b[i]);
    }
  }

  /** Python's `sorted(list(s))` for a set of strings. */
  method SortedList(s: set<string>) returns (r: seq<string>)
    ensures StrictlySorted(r) && Elems(r) == s
    ensures r == SortSet(s)
  {
    r := [];
    var rest := s;
    while rest != {}
      invariant rest <= s
      invariant StrictlySorted(r)
      invariant Elems(r) == s - rest
      decreases rest
    {
      var x :| x in rest;
      r := Insert(x, r);
      rest := rest - {x};
    }
    SortedUnique(r, SortSet(s));
  }
}
