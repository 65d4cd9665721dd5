/** Sequences gathered element by element. */
module Lists {
  /** What `f` makes of each element, one after the other. */
  function FlatMap<T, U>(f: T -> seq<U>, s: seq<T>): seq<U> {
    if s == [] then [] else f(s[0]) + FlatMap(f, s[1..])
  }

  lemma {:induction false} FlatMapConcat<T, U>(f: T -> seq<U>, a: seq<T>, b: seq<T>)
    ensures FlatMap(f, a + b) == FlatMap(f, a) + FlatMap(f, b)
  {
    if a == [] {
      assert a + b == b;
    } else {
      assert (a + b)[1..] == a[1..] + b;
      FlatMapConcat(f, a[1..], b);
    }
  }

  lemma FlatMapOne<T, U>(f: T -> seq<U>, x: T)
    ensures FlatMap(f, [x]) == f(x)
  {
    assert [x][1..] == [];
  }

  /** What comes of the first elements, and of one more. */
  lemma FlatMapNext<T, U>(f: T -> seq<U>, s: seq<T>, j: nat)
    requires j < |s|
    ensures FlatMap(f, s[..j + 1]) == FlatMap(f, s[..j]) + f(s[j])
    ensures FlatMap(f, s[..j + 1]) <= FlatMap(f, s)
  {
    hide FlatMap;
    FlatMapLast(f, s[..j], s[j]);
    assert s[..j] + [s[j]] == s[..j + 1];
    FlatMapPrefix(f, s, j + 1);
  }

  lemma FlatMapLast<T, U>(f: T -> seq<U>, front: seq<T>, x: T)
    ensures FlatMap(f, front + [x]) == FlatMap(f, front) + f(x)
  {
    hide FlatMap;
    FlatMapConcat(f, front, [x]);
    FlatMapOne(f, x);
  }

  lemma FlatMapPrefix<T, U>(f: T -> seq<U>, s: seq<T>, j: nat)
    requires j <= |s|
    ensures FlatMap(f, s[..j]) <= FlatMap(f, s)
  {
    hide FlatMap;
    var a, b := s[..j], s[j..];
    assert a + b == s;
    FlatMapConcat(f, a, b);
  }

  lemma {:induction false} FlatMapSame<T, U>(f: T -> seq<U>, g: T -> seq<U>, s: seq<T>)
    requires forall x :: x in s ==> f(x) == g(x)
    ensures FlatMap(f, s) == FlatMap(g, s)
  {
    if s != [] { FlatMapSame(f, g, s[1..]); }
  }

  /** Nothing comes of elements that `f` makes nothing of. */
  lemma {:induction false} FlatMapNone<T, U>(f: T -> seq<U>, s: seq<T>)
    requires forall x :: x in s ==> f(x) == []
    ensures FlatMap(f, s) == []
  {
    if s != [] { FlatMapNone(f, s[1..]); }
  }

  /** Two steps of which the second undoes or outdoes the first. */
  lemma {:induction false} FlatMapTwice<T, U, V>(f: T -> seq<U>, g: U -> seq<V>, h: T -> seq<V>, s: seq<T>)
    requires forall x :: x in s ==> FlatMap(g, f(x)) == h(x)
    ensures FlatMap(g, FlatMap(f, s)) == FlatMap(h, s)
  {
    if s != [] {
      FlatMapTwice(f, g, h, s[1..]);
      FlatMapConcat(g, f(s[0]), FlatMap(f, s[1..]));
    }
  }

  /** Whatever comes out came from some element. */
  lemma {:induction false} FlatMapFrom<T, U>(f: T -> seq<U>, s: seq<T>, y: U)
    requires y in FlatMap(f, s)
    ensures exists x :: x in s && y in f(x)
  {
    if y in f(s[0]) {
      assert s[0] in s;
    } else {
      FlatMapFrom(f, s[1..], y);
      var x :| x in s[1..] && y in f(x);
      assert x in s;
    }
  }

  /** Whatever comes of an element comes out. */
  lemma {:induction false} FlatMapTo<T, U>(f: T -> seq<U>, s: seq<T>, x: T, y: U)
    requires x in s && y in f(x)
    ensures y in FlatMap(f, s)
  {
    if x != s[0] {
      assert x in s[1..];
      FlatMapTo(f, s[1..], x, y);
    }
  }

  ghost predicate Distinct<T>(s: seq<T>) {
    forall i, j :: 0 <= i < j < |s| ==> s[i] != s[j]
  }

  ghost function Elements<T>(s: seq<T>): set<T> {
    set x | x in s
  }

  lemma {:induction false} DistinctCount<T>(s: seq<T>)
    requires Distinct(s)
    ensures |Elements(s)| == |s|
  {
    if s != [] {
      var front, last := s[..|s| - 1], s[|s| - 1];
      DistinctCount(front);
      assert s == front + [last];
      assert last !in front;
      assert Elements(s) == Elements(front) + {last};
    }
  }

  lemma DistinctConcat<T>(a: seq<T>, b: seq<T>)
    requires Distinct(a) && Distinct(b) && forall x :: x in a ==> x !in b
    ensures Distinct(a + b)
  {
    forall i, j | 0 <= i < |a| <= j < |a + b|
      ensures (a + b)[i] != (a + b)[j]
    {
      assert (a + b)[i] in a && (a + b)[j] in b;
    }
  }

  /** Elements that come to distinct things, none shared between two, come to distinct things together. */
  lemma {:induction false} FlatMapDistinct<T, U>(f: T -> seq<U>, s: seq<T>)
    requires Distinct(s) && forall x :: x in s ==> Distinct(f(x))
    requires forall x, x', y :: x in s && x' in s && y in f(x) && y in f(x') ==> x == x'
    ensures Distinct(FlatMap(f, s))
  {
    if s != [] {
      FlatMapDistinct(f, s[1..]);
      forall y | y in f(s[0])
        ensures y !in FlatMap(f, s[1..])
      {
        if y in FlatMap(f, s[1..]) { FlatMapFrom(f, s[1..], y); }
      }
      DistinctConcat(f(s[0]), FlatMap(f, s[1..]));
    }
  }

  /** Pieces put end to end. */
  function Joined<T>(chunks: seq<seq<T>>): seq<T> {
    if chunks == [] then [] else Joined(chunks[..|chunks| - 1]) + chunks[|chunks| - 1]
  }

  lemma JoinedLast<T>(chunks: seq<seq<T>>, k: nat)
    requires k < |chunks|
    ensures Joined(chunks[..k + 1]) == Joined(chunks[..k]) + chunks[k]
  {
    assert chunks[..k + 1][..k] == chunks[..k];
  }
}
