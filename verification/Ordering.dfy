/**
 Strict orders and sorting.  `slice::sort_by` of the standard library is modelled by
 an insertion sort over the caller's comparison; what matters to every caller is
 that a strictly sorted sequence is determined by its set of elements.
 */
module Ordering {

  /** `lt` is a strict total order. */
  ghost predicate StrictOrder<T(!new)>(lt: (T, T) -> bool) {
    && (forall x :: !lt(x, x))
    && (forall x, y :: lt(x, y) || x == y || lt(y, x))
    && (forall x, y, z :: lt(x, y) && lt(y, z) ==> lt(x, z))
  }

  ghost predicate Sorted<T>(lt: (T, T) -> bool, xs: seq<T>) {
    forall i, j :: 0 <= i < j < |xs| ==> lt(xs[i], xs[j])
  }

  ghost predicate SameElements<T(!new)>(xs: seq<T>, s: set<T>) {
    forall x :: x in xs <==> x in s
  }

  lemma TailElements<T(!new)>(lt: (T, T) -> bool, xs: seq<T>, x: T)
    requires StrictOrder(lt) && Sorted(lt, xs) && xs != []
    ensures x in xs[1..] <==> x in xs && x != xs[0]
  {
    assert xs == [xs[0]] + xs[1..];
  }

  /** A strictly sorted sequence is determined by its elements. */
  lemma {:induction false} SortedUnique<T(!new)>(lt: (T, T) -> bool, xs: seq<T>, ys: seq<T>)
    requires StrictOrder(lt) && Sorted(lt, xs) && Sorted(lt, ys)
    requires forall x :: x in xs <==> x in ys
    ensures xs == ys
    decreases |xs| + |ys|, if |xs| < |ys| then 1 else 0
  {
    if |xs| < |ys| {
      SortedUnique(lt, ys, xs);
    } else if xs != [] {
      assert xs[0] in ys;
      var x, y := xs[0], ys[0];
      assert y in xs;
      var i :| 0 <= i < |xs| && xs[i] == y;
      var j :| 0 <= j < |ys| && ys[j] == x;
      assert (i == 0 || lt(x, y)) && (j == 0 || lt(y, x));
      forall z ensures z in xs[1..] <==> z in ys[1..] {
        TailElements(lt, xs, z);
        TailElements(lt, ys, z);
      }
      SortedUnique(lt, xs[1..], ys[1..]);
      assert xs == [x] + xs[1..] && ys == [y] + ys[1..];
    }
  }

  /** Splitting a sorted sequence where `x` belongs and putting `x` there keeps it sorted. */
  lemma SortedSplice<T(!new)>(lt: (T, T) -> bool, x: T, xs: seq<T>, i: nat)
    requires StrictOrder(lt) && Sorted(lt, xs) && i <= |xs|
    requires forall j :: 0 <= j < i ==> lt(xs[j], x)
    requires i < |xs| ==> lt(x, xs[i])
    ensures Sorted(lt, xs[..i] + [x] + xs[i..])
    ensures forall y :: y in xs[..i] + [x] + xs[i..] <==> y == x || y in xs
  {
    assert forall j :: i <= j < |xs| ==> lt(x, xs[j]);
    assert xs == xs[..i] + xs[i..];
  }

  /** Insert into a sorted sequence, at the place the order demands. */
  function Insert<T(!new)>(lt: (T, T) -> bool, x: T, xs: seq<T>): (r: seq<T>)
    ensures multiset(r) == multiset(xs) + multiset{x}
    ensures forall y :: y in r <==> y == x || y in xs
    ensures StrictOrder(lt) && Sorted(lt, xs) && x !in xs ==> Sorted(lt, r)
  {
    if xs == [] || lt(x, xs[0]) then [x] + xs
    else
      assert xs == [xs[0]] + xs[1..];
      var rest := Insert(lt, x, xs[1..]);
      assert StrictOrder(lt) && Sorted(lt, xs) && x !in xs ==> forall y :: y in rest ==> lt(xs[0], y);
      [xs[0]] + rest
  }

  /** The elements of a set in increasing order. */
  ghost function Arrange<T(!new)>(lt: (T, T) -> bool, s: set<T>): (r: seq<T>)
    requires StrictOrder(lt)
    ensures Sorted(lt, r) && SameElements(r, s)
  {
    ArrangeExists(lt, s);
    var r :| Sorted(lt, r) && SameElements(r, s);
    r
  }

  lemma {:induction false} ArrangeExists<T(!new)>(lt: (T, T) -> bool, s: set<T>)
    requires StrictOrder(lt)
    ensures exists r :: Sorted(lt, r) && SameElements(r, s)
  {
    if s == {} {
      assert Sorted(lt, []) && SameElements([], s);
    } else {
      var x :| x in s;
      ArrangeExists(lt, s - {x});
      var r :| Sorted(lt, r) && SameElements(r, s - {x});
      assert Sorted(lt, Insert(lt, x, r)) && SameElements(Insert(lt, x, r), s);
    }
  }

  /** Every way of arranging a set in increasing order is `Arrange`. */
  lemma ArrangeUnique<T(!new)>(lt: (T, T) -> bool, xs: seq<T>, s: set<T>)
    requires StrictOrder(lt) && Sorted(lt, xs) && SameElements(xs, s)
    ensures xs == Arrange(lt, s)
  {
    SortedUnique(lt, xs, Arrange(lt, s));
  }

  lemma Pick<T>(s: set<T>) returns (x: T)
    requires s != {}
    ensures x in s
  {
    x :| x in s;
  }

  // ----- lexicographic order on sequences of code units -----

  predicate LexLess(a: seq<int>, b: seq<int>) {
    b != [] && (a == [] || a[0] < b[0] || (a[0] == b[0] && LexLess(a[1..], b[1..])))
  }

  /** `a` comes before `b`: at the first position where they differ it is smaller or ends. */
  ghost predicate Precedes<T>(lt: (T, T) -> bool, a: seq<T>, b: seq<T>) {
    exists i :: 0 <= i <= |a| && i < |b| && a[..i] == b[..i] && (i == |a| || lt(a[i], b[i]))
  }

  lemma FirstsDiffer(a: seq<int>, b: seq<int>, i: nat)
    requires 0 < i <= |a| && i < |b| && a[0] != b[0]
    ensures a[..i] != b[..i]
  {
    assert a[..i][0] == a[0] && b[..i][0] == b[0];
  }

  lemma {:induction false} LexPrecedes(a: seq<int>, b: seq<int>)
    ensures LexLess(a, b) <==> Precedes((x: int, y: int) => x < y, a, b)
  {
    var lt := (x: int, y: int) => x < y;
    if b != [] && (a == [] || a[0] < b[0]) {
      assert a[..0] == b[..0];
    } else if b != [] && a[0] == b[0] {
      LexPrecedes(a[1..], b[1..]);
      var c, d := a[1..], b[1..];
      if i :| 0 <= i <= |c| && i < |d| && c[..i] == d[..i] && (i == |c| || lt(c[i], d[i])) {
        assert a[..i + 1] == [a[0]] + a[1..][..i] && b[..i + 1] == [b[0]] + b[1..][..i];
      }
      if i :| 0 <= i <= |a| && i < |b| && a[..i] == b[..i] && (i == |a| || lt(a[i], b[i])) {
        assert i > 0;
        assert a[1..][..i - 1] == a[..i][1..] && b[1..][..i - 1] == b[..i][1..];
      }
    } else if b != [] {
      forall i | 0 < i <= |a| && i < |b| ensures a[..i] != b[..i] { FirstsDiffer(a, b, i); }
    }
  }

  lemma LexIrreflexive(a: seq<int>)
    ensures !LexLess(a, a)
  {
  }

  lemma {:induction false} LexTotal(a: seq<int>, b: seq<int>)
    ensures LexLess(a, b) || a == b || LexLess(b, a)
  {
    if a != [] && b != [] && a[0] == b[0] {
      LexTotal(a[1..], b[1..]);
      assert a == [a[0]] + a[1..] && b == [b[0]] + b[1..];
    }
  }

  lemma {:induction false} LexTransitive(a: seq<int>, b: seq<int>, c: seq<int>)
    requires LexLess(a, b) && LexLess(b, c)
    ensures LexLess(a, c)
  {
    if a != [] && a[0] == b[0] == c[0] {
      LexTransitive(a[1..], b[1..], c[1..]);
    }
  }

  /** The order of Rust's `str`: UTF-8 bytes compare as code points do. */
  function CodePoints(s: string): seq<int> {
    seq(|s|, i requires 0 <= i < |s| => s[i] as int)
  }

  lemma CodePointsInjective(a: string, b: string)
    requires CodePoints(a) == CodePoints(b)
    ensures a == b
  {
    assert |CodePoints(a)| == |a| && |CodePoints(b)| == |b|;
    forall i | 0 <= i < |a| ensures a[i] == b[i] {
      assert CodePoints(a)[i] == a[i] as int && CodePoints(b)[i] == b[i] as int;
    }
  }
}
