/** Sequence operations behind the `java.util.List` idioms of the documenter:
    an in-order scan with a conditional `add` (Filter), a scan that adds every
    element transformed (Map), appending several lists (Concat) and the
    `if (!list.contains(x)) list.add(x)` pattern (Dedup).

    Every scan is written as recursion on the prefix, so that one unfolding is
    one iteration of the Java loop. */
module Seqs {

  /** No element occurs twice. */
  predicate NoDup<T(==)>(s: seq<T>) {
    forall i, j :: 0 <= i < j < |s| ==> s[i] != s[j]
  }

  /** The elements of `s` that satisfy `f`, in their order in `s`. */
  function Filter<T(!new)>(f: T -> bool, s: seq<T>): (r: seq<T>)
    ensures |r| <= |s|
    ensures forall x :: x in r <==> x in s && f(x)
  {
    if |s| == 0 then []
    else
      assert s == s[..|s| - 1] + [s[|s| - 1]];
      Filter(f, s[..|s| - 1]) + (if f(s[|s| - 1]) then [s[|s| - 1]] else [])
  }

  /** `f` applied to every element of `s`. */
  function Map<T, U>(f: T -> U, s: seq<T>): (r: seq<U>)
    ensures |r| == |s|
    ensures forall i :: 0 <= i < |s| ==> r[i] == f(s[i])
  {
    if |s| == 0 then [] else Map(f, s[..|s| - 1]) + [f(s[|s| - 1])]
  }

  /** The lists of `ss` one after the other. */
  function Concat<T(!new)>(ss: seq<seq<T>>): (r: seq<T>)
    ensures forall x :: x in r <==> exists i :: 0 <= i < |ss| && x in ss[i]
  {
    if |ss| == 0 then []
    else
      var r := Concat(ss[..|ss| - 1]) + ss[|ss| - 1];
      assert forall i :: 0 <= i < |ss| - 1 ==> ss[..|ss| - 1][i] == ss[i];
      r
  }

  /** The position of the first occurrence of `x` in `s` (Java's `indexOf`). */
  function FirstIndex<T(==)>(s: seq<T>, x: T): (i: nat)
    requires x in s
    ensures i < |s| && s[i] == x
    ensures forall k :: 0 <= k < i ==> s[k] != x
  {
    if s[0] == x then 0 else 1 + FirstIndex(s[1..], x)
  }

  /** Every element of `r` occurs in `s`, and `r` lists them in the order in
      which they first occur in `s`. */
  ghost predicate InFirstSeenOrder<T>(r: seq<T>, s: seq<T>) {
    && (forall x :: x in r ==> x in s)
    && forall i, j :: 0 <= i < j < |r| ==> FirstIndex(s, r[i]) < FirstIndex(s, r[j])
  }

  /** One step of `if (!list.contains(x)) list.add(x)`. */
  function AppendNew<T(==)>(acc: seq<T>, x: T): seq<T> {
    if x in acc then acc else acc + [x]
  }

  /** The list a Java loop builds by adding each element of `s` that it does
      not already hold. */
  function Dedup<T(==,!new)>(s: seq<T>): (r: seq<T>)
    ensures NoDup(r)
    ensures forall x :: x in r <==> x in s
  {
    if |s| == 0 then []
    else
      assert s == s[..|s| - 1] + [s[|s| - 1]];
      AppendNew(Dedup(s[..|s| - 1]), s[|s| - 1])
  }

  lemma FilterSnoc<T(!new)>(f: T -> bool, s: seq<T>, x: T)
    ensures f(x) ==> Filter(f, s + [x]) == Filter(f, s) + [x]
    ensures !f(x) ==> Filter(f, s + [x]) == Filter(f, s)
  {
    assert (s + [x])[..|s|] == s;
    assert Filter(f, s) + [] == Filter(f, s);
  }

  lemma MapSnoc<T, U>(f: T -> U, s: seq<T>, x: T)
    ensures Map(f, s + [x]) == Map(f, s) + [f(x)]
  {
  }

  lemma DedupSnoc<T(!new)>(s: seq<T>, x: T)
    ensures Dedup(s + [x]) == AppendNew(Dedup(s), x)
  {
    assert (s + [x])[..|s|] == s;
  }

  /** What a scan that adds `g(x)` for each `x` satisfying `f` ends up
      holding. */
  lemma MapFilterMembership<T(!new), U(!new)>(f: T -> bool, g: T -> U, s: seq<T>)
    ensures forall y :: y in Map(g, Filter(f, s)) <==> exists x :: x in s && f(x) && g(x) == y
  {
    var fs := Filter(f, s);
    forall y | y in Map(g, fs)
      ensures exists x :: x in s && f(x) && g(x) == y
    {
      var i :| 0 <= i < |fs| && Map(g, fs)[i] == y;
      assert fs[i] in fs;
    }
    forall x | x in s && f(x)
      ensures g(x) in Map(g, fs)
    {
      var i :| 0 <= i < |fs| && fs[i] == x;
      assert Map(g, fs)[i] == g(x);
    }
  }

  lemma {:induction false} FilterAppend<T(!new)>(f: T -> bool, a: seq<T>, b: seq<T>)
    ensures Filter(f, a + b) == Filter(f, a) + Filter(f, b)
  {
    if |b| == 0 {
      assert a + b == a;
    } else {
      var b', y := b[..|b| - 1], b[|b| - 1];
      assert b == b' + [y];
      assert a + b == (a + b') + [y];
      FilterAppend(f, a, b');
      FilterSnoc(f, a + b', y);
      FilterSnoc(f, b', y);
    }
  }

  /** A filter keeps distinct elements distinct. */
  lemma {:induction false} FilterNoDup<T(!new)>(f: T -> bool, s: seq<T>)
    requires NoDup(s)
    ensures NoDup(Filter(f, s))
  {
    if |s| > 0 {
      var p, x := s[..|s| - 1], s[|s| - 1];
      assert s == p + [x];
      FilterNoDup(f, p);
      FilterSnoc(f, p, x);
      assert x !in p;
    }
  }

  /** Occurrences in a prefix come first. */
  lemma FirstIndexInPrefix<T>(a: seq<T>, b: seq<T>, x: T)
    requires x in a
    ensures FirstIndex(a + b, x) == FirstIndex(a, x)
  {
    assert (a + b)[FirstIndex(a, x)] == x;
  }

  /** An element missing from the prefix occurs first after it. */
  lemma FirstIndexAfterPrefix<T>(a: seq<T>, b: seq<T>, x: T)
    requires x !in a && x in b
    ensures FirstIndex(a + b, x) == |a| + FirstIndex(b, x)
  {
    assert (a + b)[|a| + FirstIndex(b, x)] == x;
  }

  /** The deduplicating loop lists the elements in first-seen order. */
  lemma {:induction false} DedupFirstSeen<T(!new)>(s: seq<T>)
    ensures InFirstSeenOrder(Dedup(s), s)
  {
    if |s| > 0 {
      var p, x := s[..|s| - 1], s[|s| - 1];
      assert s == p + [x];
      DedupFirstSeen(p);
      var d := Dedup(p);
      forall e | e in p
        ensures FirstIndex(s, e) == FirstIndex(p, e)
      {
        FirstIndexInPrefix(p, [x], e);
      }
      if x !in p {
        FirstIndexAfterPrefix(p, [x], x);
        assert Dedup(s) == d + [x];
      }
    }
  }

  /** Deduplicating a longer list only adds at the end. */
  lemma {:induction false} DedupPrefix<T(!new)>(a: seq<T>, b: seq<T>)
    ensures Dedup(a) <= Dedup(a + b)
  {
    if |b| == 0 {
      assert a + b == a;
    } else {
      var b', y := b[..|b| - 1], b[|b| - 1];
      assert (a + b)[..|a + b| - 1] == a + b';
      DedupPrefix(a, b');
    }
  }

  /** Filtering a list in first-seen order keeps it in first-seen order. */
  lemma {:induction false} FilterFirstSeen<T(!new)>(f: T -> bool, d: seq<T>, s: seq<T>)
    requires InFirstSeenOrder(d, s)
    ensures InFirstSeenOrder(Filter(f, d), s)
  {
    if |d| > 0 {
      var p, x := d[..|d| - 1], d[|d| - 1];
      assert d == p + [x];
      assert InFirstSeenOrder(p, s);
      FilterFirstSeen(f, p, s);
      FilterSnoc(f, p, x);
      var rp := Filter(f, p);
      if f(x) {
        var r := rp + [x];
        forall i, j | 0 <= i < j < |r|
          ensures FirstIndex(s, r[i]) < FirstIndex(s, r[j])
        {
          if j == |rp| {
            assert r[i] in p;
            var k :| 0 <= k < |p| && p[k] == r[i];
            assert d[k] == r[i] && d[|d| - 1] == r[j];
          } else {
            assert r[i] == rp[i] && r[j] == rp[j];
          }
        }
      }
    }
  }
}
