/** Sequences as the bounded queues of the proxy use them: suffixes, order-keeping
    filters, first occurrences. */
module Seqs {

  datatype Option<+T> = None | Some(value: T)

  ghost predicate NoDup<T>(s: seq<T>) {
    forall i, j :: 0 <= i < j < |s| ==> s[i] != s[j]
  }

  function Elems<T>(s: seq<T>): set<T> {
    set x | x in s
  }

  /** The newest n elements: what a queue bounded by n still holds. */
  function Last<T>(n: nat, s: seq<T>): seq<T> {
    if |s| <= n then s else s[|s| - n..]
  }

  ghost predicate IsSuffix<T>(a: seq<T>, s: seq<T>) {
    |a| <= |s| && a == s[|s| - |a|..]
  }

  /** s without the elements of `drop`, the rest in order (VecDeque::retain). */
  function Without<T(==)>(s: seq<T>, drop: set<T>): seq<T> {
    if s == [] then []
    else if s[|s| - 1] in drop then Without(s[..|s| - 1], drop)
    else Without(s[..|s| - 1], drop) + [s[|s| - 1]]
  }

  /** The elements of s that are in `keep`, in order. */
  function Within<T(==)>(s: seq<T>, keep: set<T>): seq<T> {
    if s == [] then []
    else if s[|s| - 1] in keep then Within(s[..|s| - 1], keep) + [s[|s| - 1]]
    else Within(s[..|s| - 1], keep)
  }

  /** First occurrences only. */
  function Firsts<T(==)>(s: seq<T>): seq<T> {
    if s == [] then []
    else if s[|s| - 1] in s[..|s| - 1] then Firsts(s[..|s| - 1])
    else Firsts(s[..|s| - 1]) + [s[|s| - 1]]
  }

  /** How many elements come behind the newest x. */
  function Behind<T(==)>(s: seq<T>, x: T): nat {
    if s == [] || s[|s| - 1] == x then 0 else 1 + Behind(s[..|s| - 1], x)
  }

  // ----- Without, Within

  lemma NoDupJoin<T>(a: seq<T>, b: seq<T>)
    requires NoDup(a) && NoDup(b) && Elems(a) !! Elems(b)
    ensures NoDup(a + b)
  {
    var s := a + b;
    forall i, j | 0 <= i < j < |s|
      ensures s[i] != s[j]
    {
      assert i < |a| ==> s[i] in Elems(a);
      assert j >= |a| ==> s[j] in Elems(b);
    }
  }

  lemma ElemsConcat<T>(a: seq<T>, b: seq<T>)
    ensures Elems(a + b) == Elems(a) + Elems(b)
  {
  }

  lemma {:induction false} WithoutElems<T>(s: seq<T>, drop: set<T>)
    ensures Elems(Without(s, drop)) == Elems(s) - drop
    ensures |Without(s, drop)| <= |s|
  {
    if s == [] {
    } else {
      var a, x := s[..|s| - 1], s[|s| - 1];
      WithoutElems(a, drop);
      assert s == a + [x];
      ElemsConcat(a, [x]);
      ElemsConcat(Without(a, drop), [x]);
    }
  }

  lemma {:induction false} WithinElems<T>(s: seq<T>, keep: set<T>)
    ensures Elems(Within(s, keep)) == Elems(s) * keep
  {
    if s == [] {
    } else {
      var a, x := s[..|s| - 1], s[|s| - 1];
      WithinElems(a, keep);
      assert s == a + [x];
      ElemsConcat(a, [x]);
      ElemsConcat(Within(a, keep), [x]);
    }
  }

  lemma {:induction false} WithoutConcat<T>(a: seq<T>, b: seq<T>, drop: set<T>)
    ensures Without(a + b, drop) == Without(a, drop) + Without(b, drop)
  {
    if b == [] {
      assert a + b == a;
    } else {
      WithoutConcat(a, b[..|b| - 1], drop);
      assert (a + b)[..|a + b| - 1] == a + b[..|b| - 1];
    }
  }

  lemma {:induction false} WithinConcat<T>(a: seq<T>, b: seq<T>, keep: set<T>)
    ensures Within(a + b, keep) == Within(a, keep) + Within(b, keep)
  {
    if b == [] {
      assert a + b == a;
    } else {
      WithinConcat(a, b[..|b| - 1], keep);
      assert (a + b)[..|a + b| - 1] == a + b[..|b| - 1];
    }
  }

  lemma {:induction false} WithoutAll<T>(s: seq<T>, drop: set<T>)
    requires Elems(s) <= drop
    ensures Without(s, drop) == []
  {
    if s == [] {
    } else {
      assert s[|s| - 1] in Elems(s);
      assert Elems(s[..|s| - 1]) <= Elems(s);
      WithoutAll(s[..|s| - 1], drop);
    }
  }

  lemma {:induction false} WithoutNone<T>(s: seq<T>, drop: set<T>)
    requires Elems(s) !! drop
    ensures Without(s, drop) == s
  {
    if s == [] {
    } else {
      assert s[|s| - 1] in Elems(s);
      assert Elems(s[..|s| - 1]) <= Elems(s);
      WithoutNone(s[..|s| - 1], drop);
      assert s == s[..|s| - 1] + [s[|s| - 1]];
    }
  }

  lemma {:induction false} WithoutNoDup<T>(s: seq<T>, drop: set<T>)
    requires NoDup(s)
    ensures NoDup(Without(s, drop))
  {
    if s == [] {
    } else {
      var a := s[..|s| - 1];
      WithoutNoDup(a, drop);
      WithoutElems(a, drop);
      assert s[|s| - 1] !in Elems(a);
      assert s[|s| - 1] !in Elems(Without(a, drop));
    }
  }

  lemma {:induction false} WithinNoDup<T>(s: seq<T>, keep: set<T>)
    requires NoDup(s)
    ensures NoDup(Within(s, keep))
  {
    if s == [] {
    } else {
      var a := s[..|s| - 1];
      WithinNoDup(a, keep);
      WithinElems(a, keep);
      assert s[|s| - 1] !in Elems(a);
      assert s[|s| - 1] !in Elems(Within(a, keep));
    }
  }

  // ----- Firsts

  lemma {:induction false} FirstsProperties<T>(s: seq<T>)
    ensures NoDup(Firsts(s)) && Elems(Firsts(s)) == Elems(s)
    ensures NoDup(s) ==> Firsts(s) == s
  {
    if s == [] {
    } else {
      var a, x := s[..|s| - 1], s[|s| - 1];
      FirstsProperties(a);
      assert s == a + [x];
      assert x in a <==> x in Elems(a);
      ElemsConcat(a, [x]);
      NoDupAppend(a, x);
      assert Elems([x]) == {x};
      if x !in a {
        ElemsConcat(Firsts(a), [x]);
        NoDupAppend(Firsts(a), x);
      }
    }
  }

  // ----- Last

  lemma LastOfLast<T>(n: nat, a: seq<T>, b: seq<T>)
    ensures Last(n, Last(n, a) + b) == Last(n, a + b)
  {
  }

  lemma NoDupAppend<T>(s: seq<T>, x: T)
    ensures NoDup(s + [x]) <==> NoDup(s) && x !in Elems(s)
  {
    var t := s + [x];
    assert forall i :: 0 <= i < |s| ==> t[i] == s[i];
    if x in Elems(s) {
      var i :| 0 <= i < |s| && s[i] == x;
      assert t[i] == t[|s|];
    }
  }

  lemma NoDupParts<T>(a: seq<T>, b: seq<T>)
    requires NoDup(a + b)
    ensures NoDup(a) && NoDup(b) && Elems(a) !! Elems(b)
  {
    var s := a + b;
    assert forall i :: 0 <= i < |a| ==> s[i] == a[i];
    assert forall i :: 0 <= i < |b| ==> s[|a| + i] == b[i];
    forall x | x in Elems(a)
      ensures x !in Elems(b)
    {
      var i :| 0 <= i < |a| && a[i] == x;
      assert forall j :: 0 <= j < |b| ==> b[j] != s[i];
    }
  }

  lemma NoElems<T>(s: seq<T>)
    ensures Elems(s) == {} ==> s == []
  {
    if s != [] {
      assert s[0] in Elems(s);
    }
  }

  lemma OnlyOne<T>(s: seq<T>, x: T)
    requires NoDup(s) && Elems(s) == {x}
    ensures s == [x]
  {
    assert x in Elems(s);
    assert s == [s[0]] + s[1..];
    ElemsConcat([s[0]], s[1..]);
    NoDupParts([s[0]], s[1..]);
    assert s[0] in Elems(s) && s[0] in Elems([s[0]]);
    NoElems(s[1..]);
  }

  lemma LastOneMore<T>(n: nat, s: seq<T>, x: T)
    requires n > 0
    ensures Last(n, s + [x]) == Last(n - 1, s) + [x]
  {
  }

  /** Of the newest n elements is what has fewer than n behind it. */
  lemma {:induction false} InLast<T>(n: nat, s: seq<T>, x: T)
    requires x in s
    ensures x in Last(n, s) <==> Behind(s, x) < n
    decreases |s|
  {
    var a, y := s[..|s| - 1], s[|s| - 1];
    assert s == a + [y];
    if n == 0 {
      assert Last(n, s) == [];
    } else {
      LastOneMore(n, a, y);
      if y != x {
        InLast(n - 1, a, x);
      }
    }
  }

  /** An ID that none of these is. */
  lemma {:induction false} FreshId(ids: set<nat>) returns (id: nat)
    ensures forall x :: x in ids ==> x < id
  {
    if ids == {} {
      id := 0;
    } else {
      var x :| x in ids;
      var n := FreshId(ids - {x});
      id := if n <= x then x + 1 else n;
      assert forall y :: y in ids ==> y == x || y in ids - {x};
    }
  }

  /** Without repeats, what is there is there once. */
  lemma {:induction false} NoDupCount<T>(s: seq<T>, x: T)
    requires NoDup(s)
    ensures multiset(s)[x] == if x in s then 1 else 0
  {
    if s == [] {
    } else {
      var a, y := s[..|s| - 1], s[|s| - 1];
      assert s == a + [y];
      NoDupParts(a, [y]);
      NoDupCount(a, x);
      assert y in Elems([y]) && (y in a <==> y in Elems(a));
    }
  }

  lemma WithoutFirst<T>(s: seq<T>)
    requires s != [] && NoDup(s)
    ensures NoDup(s[1..]) && Elems(s[1..]) == Elems(s) - {s[0]}
  {
    assert s == [s[0]] + s[1..];
    NoDupParts([s[0]], s[1..]);
    ElemsConcat([s[0]], s[1..]);
    assert Elems([s[0]]) == {s[0]};
  }

  lemma WithoutHead<T>(x: T, rest: seq<T>)
    requires NoDup([x] + rest)
    ensures Without([x] + rest, {x}) == rest
  {
    NoDupParts([x], rest);
    assert x in Elems([x]);
    WithoutConcat([x], rest, {x});
    WithoutAll([x], {x});
    WithoutNone(rest, {x});
  }

  lemma PartOfPart<T>(s: seq<T>, a: nat, b: nat, i: nat, j: nat)
    requires a <= b <= |s| && i <= j <= b - a
    ensures s[a..b][i..j] == s[a + i..a + j]
  {
    var part := s[a..b];
    assert forall k :: i <= k < j ==> part[k] == s[a + k];
    assert |part[i..j]| == |s[a + i..a + j]|;
    assert forall k :: 0 <= k < j - i ==> part[i..j][k] == s[a + i..a + j][k];
  }
}
