/** Sequence operations that mirror the stream pipeline stages `flatMap`, `map` and
    `distinct`, with the properties that characterise them. */
module Streams {

  /** No two positions hold equal elements. */
  predicate NoDuplicates<T(==)>(s: seq<T>)
  {
    forall i, j :: 0 <= i < j < |s| ==> s[i] != s[j]
  }

  /** The position of the first occurrence of `x` in `s`. */
  function FirstIndex<T(==)>(s: seq<T>, x: T): (k: nat)
    requires x in s
    ensures k < |s| && s[k] == x
    ensures forall j :: 0 <= j < k ==> s[j] != x
  {
    if s[0] == x then 0 else 1 + FirstIndex(s[1..], x)
  }

  /** The concatenation of `ss`, in order (`flatMap`). */
  function Flatten<T>(ss: seq<seq<T>>): (r: seq<T>)
    ensures forall i, j :: 0 <= i < |ss| && 0 <= j < |ss[i]| ==> ss[i][j] in r
    ensures forall k :: 0 <= k < |r| ==> exists i :: 0 <= i < |ss| && r[k] in ss[i]
  {
    if ss == [] then []
    else
      var rest := Flatten(ss[1..]);
      assert forall i :: 1 <= i < |ss| ==> ss[i] == ss[1..][i - 1];
      ss[0] + rest
  }

  /** Applies `f` to every element, keeping the order (`map`). */
  function MapSeq<T, U>(f: T -> U, s: seq<T>): (r: seq<U>)
    ensures |r| == |s|
    ensures forall i :: 0 <= i < |s| ==> r[i] == f(s[i])
  {
    if s == [] then [] else [f(s[0])] + MapSeq(f, s[1..])
  }

  /** Keeps the first occurrence of every element not in `seen`, in encounter order:
      the traversal a `distinct` stage performs with its set of already-seen elements. */
  function DistinctFrom<T(==)>(s: seq<T>, seen: set<T>): seq<T>
  {
    if s == [] then []
    else if s[0] in seen then DistinctFrom(s[1..], seen)
    else [s[0]] + DistinctFrom(s[1..], seen + {s[0]})
  }

  lemma {:induction false} DistinctFromMembers<T>(s: seq<T>, seen: set<T>)
    ensures forall x :: x in DistinctFrom(s, seen) <==> x in s && x !in seen
  {
    if s != [] {
      if s[0] in seen {
        DistinctFromMembers(s[1..], seen);
      } else {
        DistinctFromMembers(s[1..], seen + {s[0]});
      }
      assert forall x :: x in s <==> x == s[0] || x in s[1..];
    }
  }

  lemma {:induction false} DistinctFromNoDuplicates<T>(s: seq<T>, seen: set<T>)
    ensures NoDuplicates(DistinctFrom(s, seen))
  {
    if s != [] {
      if s[0] in seen {
        DistinctFromNoDuplicates(s[1..], seen);
      } else {
        var rest := DistinctFrom(s[1..], seen + {s[0]});
        DistinctFromNoDuplicates(s[1..], seen + {s[0]});
        DistinctFromMembers(s[1..], seen + {s[0]});
        assert s[0] !in rest;
      }
    }
  }

  /** Outside of its first element, the first occurrence of `x` in `s` is one past
      its first occurrence in `s[1..]`. */
  lemma FirstIndexTail<T>(s: seq<T>, x: T)
    requires x in s && x != s[0]
    ensures x in s[1..] && FirstIndex(s, x) == 1 + FirstIndex(s[1..], x)
  {
  }

  /** The kept elements appear in the order in which they were first encountered. */
  lemma {:induction false} DistinctFromFirstSeenOrder<T>(s: seq<T>, seen: set<T>)
    ensures forall x :: x in DistinctFrom(s, seen) ==> x in s
    ensures forall i, j :: 0 <= i < j < |DistinctFrom(s, seen)| ==>
              FirstIndex(s, DistinctFrom(s, seen)[i]) < FirstIndex(s, DistinctFrom(s, seen)[j])
  {
    DistinctFromMembers(s, seen);
    if s != [] {
      var r := DistinctFrom(s, seen);
      if s[0] in seen {
        DistinctFromFirstSeenOrder(s[1..], seen);
        DistinctFromMembers(s[1..], seen);
        assert r == DistinctFrom(s[1..], seen);
        forall i, j | 0 <= i < j < |r|
          ensures FirstIndex(s, r[i]) < FirstIndex(s, r[j])
        {
          assert r[i] in r && r[j] in r;
          FirstIndexTail(s, r[i]);
          FirstIndexTail(s, r[j]);
        }
      } else {
        var rest := DistinctFrom(s[1..], seen + {s[0]});
        DistinctFromFirstSeenOrder(s[1..], seen + {s[0]});
        DistinctFromMembers(s[1..], seen + {s[0]});
        assert r == [s[0]] + rest;
        forall i, j | 0 <= i < j < |r|
          ensures FirstIndex(s, r[i]) < FirstIndex(s, r[j])
        {
          assert r[j] == rest[j - 1] && rest[j - 1] in rest;
          FirstIndexTail(s, r[j]);
          if i > 0 {
            assert r[i] == rest[i - 1] && rest[i - 1] in rest;
            FirstIndexTail(s, r[i]);
          }
        }
      }
    }
  }

  /** `distinct`: every element of `s` exactly once, at its first occurrence, in the
      order of first occurrences. */
  function Distinct<T(==)>(s: seq<T>): (r: seq<T>)
    ensures NoDuplicates(r)
    ensures forall i :: 0 <= i < |s| ==> s[i] in r
    ensures forall k :: 0 <= k < |r| ==> r[k] in s
    ensures forall i, j :: 0 <= i < j < |r| ==> FirstIndex(s, r[i]) < FirstIndex(s, r[j])
  {
    DistinctFromMembers(s, {});
    DistinctFromNoDuplicates(s, {});
    DistinctFromFirstSeenOrder(s, {});
    DistinctFrom(s, {})
  }

  /** Every element of `t` occurs in `s`, and `t` lists them in strictly increasing
      order of first occurrence in `s`. */
  predicate FirstSeenOrdered<T(==)>(s: seq<T>, t: seq<T>)
  {
    (forall m :: 0 <= m < |t| ==> t[m] in s) &&
    forall i, j :: 0 <= i < j < |t| ==> t[i] in s && t[j] in s && FirstIndex(s, t[i]) < FirstIndex(s, t[j])
  }

  lemma FirstSeenOrderedTail<T>(s: seq<T>, u: seq<T>)
    requires FirstSeenOrdered(s, u) && u != []
    ensures FirstSeenOrdered(s, u[1..])
  {
    forall i, j | 0 <= i < j < |u[1..]|
      ensures u[1..][i] in s && u[1..][j] in s && FirstIndex(s, u[1..][i]) < FirstIndex(s, u[1..][j])
    {
      assert u[1..][i] == u[i + 1] && u[1..][j] == u[j + 1];
    }
  }

  /** In a first-seen-ordered sequence, the head occurs nowhere else. */
  lemma FirstSeenOrderedHeadOnce<T>(s: seq<T>, u: seq<T>, m: nat)
    requires FirstSeenOrdered(s, u) && 0 < m < |u|
    ensures u[m] != u[0]
  {
    assert FirstIndex(s, u[0]) < FirstIndex(s, u[m]);
  }

  /** Two first-seen-ordered sequences with the same elements start alike. */
  lemma FirstSeenOrderedSameHead<T>(s: seq<T>, u: seq<T>, v: seq<T>)
    requires FirstSeenOrdered(s, u) && FirstSeenOrdered(s, v) && u != [] && v != []
    requires u[0] in v && v[0] in u
    ensures u[0] == v[0]
  {
  }

  /** Once the common head is dropped, the elements of `u`'s tail still occur in `v`'s tail. */
  lemma FirstSeenOrderedTailMembers<T>(s: seq<T>, u: seq<T>, v: seq<T>)
    requires FirstSeenOrdered(s, u) && FirstSeenOrdered(s, v) && u != [] && v != [] && u[0] == v[0]
    requires forall m :: 0 <= m < |u| ==> u[m] in v
    ensures forall m :: 0 <= m < |u[1..]| ==> u[1..][m] in v[1..]
  {
    forall m | 0 <= m < |u[1..]| ensures u[1..][m] in v[1..] {
      assert u[m + 1] in v;
      var p :| 0 <= p < |v| && v[p] == u[m + 1];
      FirstSeenOrderedHeadOnce(s, u, m + 1);
      assert v[1..][p - 1] == u[1..][m];
    }
  }

  /** Two first-seen-ordered sequences with the same elements are equal. */
  lemma {:induction false} FirstSeenOrderedUnique<T>(s: seq<T>, u: seq<T>, v: seq<T>)
    requires FirstSeenOrdered(s, u) && FirstSeenOrdered(s, v)
    requires forall m :: 0 <= m < |u| ==> u[m] in v
    requires forall m :: 0 <= m < |v| ==> v[m] in u
    ensures u == v
    decreases |u|
  {
    if v != [] {
      assert v[0] in u;
    }
    if u != [] {
      assert u[0] in v;
    }
    if u != [] {
      FirstSeenOrderedSameHead(s, u, v);
      FirstSeenOrderedTailMembers(s, u, v);
      FirstSeenOrderedTailMembers(s, v, u);
      FirstSeenOrderedTail(s, u);
      FirstSeenOrderedTail(s, v);
      FirstSeenOrderedUnique(s, u[1..], v[1..]);
      assert u == [u[0]] + u[1..] && v == [v[0]] + v[1..];
    }
  }

  /** The properties `Distinct` promises determine its result: any sequence holding
      exactly the elements of `s`, in first-seen order, is `Distinct(s)`. */
  lemma DistinctIsUnique<T>(s: seq<T>, t: seq<T>)
    requires forall i :: 0 <= i < |s| ==> s[i] in t
    requires FirstSeenOrdered(s, t)
    ensures t == Distinct(s)
  {
    var r := Distinct(s);
    forall m | 0 <= m < |t| ensures t[m] in r {
      assert t[m] in s;
      var i := FirstIndex(s, t[m]);
      assert s[i] in r;
    }
    forall m | 0 <= m < |r| ensures r[m] in t {
      assert r[m] in s;
      var i := FirstIndex(s, r[m]);
      assert s[i] in t;
    }
    FirstSeenOrderedUnique(s, t, r);
  }
}
