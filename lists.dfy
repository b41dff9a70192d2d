// Library list operations the layout code relies on: order-preserving
// de-duplication (`list(dict.fromkeys(xs))` and the `if x not in out:
// out.append(x)` idiom) and ascending sorting of integers (`list.sort()`).

module Lists {

  /** Order-preserving de-duplication: the first occurrence of each element is kept. */
  function Unique<T(==,!new)>(s: seq<T>): (u: seq<T>)
    ensures forall x :: x in u <==> x in s
    ensures |u| <= |s|
  {
    if s == [] then []
    else
      var u := Unique(s[..|s| - 1]);
      assert forall x :: x in s <==> x in s[..|s| - 1] || x == s[|s| - 1] by {
        assert s == s[..|s| - 1] + [s[|s| - 1]];
      }
      if s[|s| - 1] in u then u else u + [s[|s| - 1]]
  }

  predicate NoDuplicates<T(==)>(s: seq<T>) {
    forall i, j :: 0 <= i < j < |s| ==> s[i] != s[j]
  }

  lemma {:induction false} UniqueNoDuplicates<T(!new)>(s: seq<T>)
    ensures NoDuplicates(Unique(s))
  {
    if s != [] {
      UniqueNoDuplicates(s[..|s| - 1]);
    }
  }

  /** Index of the first occurrence of x in s. */
  function FirstIndex<T(==)>(s: seq<T>, x: T): (i: nat)
    requires x in s
    ensures i < |s| && s[i] == x
    ensures forall j :: 0 <= j < i ==> s[j] != x
  {
    if s[0] == x then 0 else 1 + FirstIndex(s[1..], x)
  }

  lemma FirstIndexPrefix<T>(s: seq<T>, n: nat, x: T)
    requires n <= |s| && x in s[..n]
    ensures x in s && FirstIndex(s, x) == FirstIndex(s[..n], x)
  {
    var i := FirstIndex(s[..n], x);
    assert s[i] == x;
    var k := FirstIndex(s, x);
    assert k <= i;
    assert s[..n][k] == x;
  }

  /** The elements of u occur in s, in the order of their first occurrence there. */
  predicate InFirstOrder<T(==)>(s: seq<T>, u: seq<T>) {
    (forall x :: x in u ==> x in s) &&
    forall i, j :: 0 <= i < j < |u| ==> FirstIndex(s, u[i]) < FirstIndex(s, u[j])
  }

  /** An order of first occurrences in a prefix holds in the whole list. */
  lemma InFirstOrderExtends<T>(s: seq<T>, n: nat, u: seq<T>)
    requires n <= |s| && InFirstOrder(s[..n], u)
    ensures InFirstOrder(s, u)
    ensures forall x :: x in u ==> FirstIndex(s, x) < n
  {
    forall x | x in u ensures x in s && FirstIndex(s, x) == FirstIndex(s[..n], x) {
      FirstIndexPrefix(s, n, x);
    }
  }

  /** An element first seen last goes to the end of the order. */
  lemma InFirstOrderSnoc<T>(s: seq<T>, u: seq<T>)
    requires s != [] && InFirstOrder(s, u) && s[|s| - 1] !in s[..|s| - 1]
    requires forall x :: x in u ==> FirstIndex(s, x) < |s| - 1
    ensures InFirstOrder(s, u + [s[|s| - 1]])
  {
    var n := |s| - 1;
    assert FirstIndex(s, s[n]) == n;
    var v := u + [s[n]];
    forall i, j | 0 <= i < j < |v| ensures FirstIndex(s, v[i]) < FirstIndex(s, v[j]) {
      if j == |u| {
        assert v[i] == u[i];
      } else {
        assert v[i] == u[i] && v[j] == u[j];
      }
    }
  }

  /** Unique keeps the elements in the order of their first occurrence. */
  lemma {:induction false} UniqueFirstOccurrenceOrder<T(!new)>(s: seq<T>)
    ensures forall i, j :: 0 <= i < j < |Unique(s)| ==>
      FirstIndex(s, Unique(s)[i]) < FirstIndex(s, Unique(s)[j])
  {
    UniqueInFirstOrder(s);
  }

  lemma {:induction false} UniqueInFirstOrder<T(!new)>(s: seq<T>)
    ensures InFirstOrder(s, Unique(s))
  {
    if s != [] {
      var n := |s| - 1;
      UniqueInFirstOrder(s[..n]);
      InFirstOrderExtends(s, n, Unique(s[..n]));
      if s[n] !in Unique(s[..n]) {
        InFirstOrderSnoc(s, Unique(s[..n]));
      }
    }
  }

  /** Concatenation of f(x) over the elements x of xs, in order. */
  function FlatMap<X, Y>(xs: seq<X>, f: X -> seq<Y>): seq<Y> {
    if xs == [] then [] else FlatMap(xs[..|xs| - 1], f) + f(xs[|xs| - 1])
  }

  lemma {:induction false} FlatMapConcat<X, Y>(xs: seq<X>, ys: seq<X>, f: X -> seq<Y>)
    ensures FlatMap(xs + ys, f) == FlatMap(xs, f) + FlatMap(ys, f)
    decreases |ys|
  {
    if ys == [] {
      assert xs + ys == xs;
    } else {
      var n := |ys| - 1;
      assert (xs + ys)[..|xs + ys| - 1] == xs + ys[..n];
      FlatMapConcat(xs, ys[..n], f);
    }
  }

  lemma FlatMapSnoc<X, Y>(xs: seq<X>, k: nat, f: X -> seq<Y>)
    requires k < |xs|
    ensures FlatMap(xs[..k + 1], f) == FlatMap(xs[..k], f) + f(xs[k])
  {
    assert xs[..k + 1][..k] == xs[..k];
  }

  /** An element of the concatenation comes from the image of some element. */
  lemma {:induction false} FlatMapMembers<X, Y>(xs: seq<X>, f: X -> seq<Y>, y: Y)
    ensures y in FlatMap(xs, f) <==> exists x :: x in xs && y in f(x)
  {
    if xs != [] {
      var n := |xs| - 1;
      FlatMapMembers(xs[..n], f, y);
      assert xs == xs[..n] + [xs[n]];
    }
  }

  /** Adjacent elements are in ascending order. */
  predicate Ascending(s: seq<int>) {
    forall k :: 0 <= k < |s| - 1 ==> s[k] <= s[k + 1]
  }

  function Insert(x: int, s: seq<int>): (r: seq<int>)
    requires Ascending(s)
    ensures Ascending(r)
    ensures multiset(r) == multiset(s) + multiset{x}
    ensures |r| == |s| + 1
    ensures r[0] == x || (s != [] && r[0] == s[0])
  {
    if s == [] || x <= s[0] then [x] + s
    else
      var t := Insert(x, s[1..]);
      assert s == [s[0]] + s[1..];
      [s[0]] + t
  }

  /** The ascending arrangement of s, as Python's stable `sort` produces it. */
  function SortedInts(s: seq<int>): (r: seq<int>)
    ensures Ascending(r)
    ensures multiset(r) == multiset(s)
    ensures |r| == |s|
  {
    if s == [] then []
    else
      assert s == [s[0]] + s[1..];
      Insert(s[0], SortedInts(s[1..]))
  }

  lemma AscendingOrdered(s: seq<int>, i: int, j: int)
    requires Ascending(s) && 0 <= i <= j < |s|
    ensures s[i] <= s[j]
    decreases j - i
  {
    if i < j {
      AscendingOrdered(s, i + 1, j);
    }
  }
}
