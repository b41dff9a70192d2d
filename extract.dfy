// Per-day extraction. Every extractor starts from a list with one slot per
// day of a period and, for each matching activity in traversal order,
// writes values at the columns of the days it lists. A day outside the
// period, a missing key or an empty label list aborts the extraction.
//
// The writes an activity performs are described by a plan of steps; the
// functions below give the meaning of a plan, the methods carry it out on
// an array the way the Python closures do on a list.

module Extract {
  import opened Schema
  import opened Lists
  import opened DayList

  // ---------------------------------------------------------------------
  // Traversal order
  // ---------------------------------------------------------------------

  /** The activities in acts with the given caption, in list order. */
  function Select(acts: seq<Activity>, caption: string): seq<Activity> {
    if acts == [] then []
    else
      var r := Select(acts[..|acts| - 1], caption);
      var a := acts[|acts| - 1];
      if a.caption == caption then r + [a] else r
  }

  lemma {:induction false} SelectMembers(acts: seq<Activity>, caption: string, a: Activity)
    ensures a in Select(acts, caption) <==> a in acts && a.caption == caption
  {
    if acts != [] {
      var n := |acts| - 1;
      SelectMembers(acts[..n], caption, a);
      assert acts == acts[..n] + [acts[n]];
    }
  }

  /** iterate_over_procedures visits, key by key, the activities with the
      given caption. */
  function Matching(p: Period, caption: string, kinds: seq<Kind>): seq<Activity> {
    if kinds == [] then []
    else Matching(p, caption, kinds[..|kinds| - 1]) + Select(ActivitiesOf(p, kinds[|kinds| - 1]), caption)
  }

  /** The traversal visits exactly the activities with the caption under
      one of the keys. */
  lemma {:induction false} MatchingMembers(p: Period, caption: string, kinds: seq<Kind>, a: Activity)
    ensures a in Matching(p, caption, kinds) <==>
      a.caption == caption && exists k :: k in kinds && a in ActivitiesOf(p, k)
  {
    if kinds != [] {
      var n := |kinds| - 1;
      MatchingMembers(p, caption, kinds[..n], a);
      SelectMembers(ActivitiesOf(p, kinds[n]), caption, a);
      assert kinds == kinds[..n] + [kinds[n]];
    }
  }

  // ---------------------------------------------------------------------
  // Write plans
  // ---------------------------------------------------------------------

  /** One step of a plan: write a value at the column of a day, or raise. */
  datatype Step<V> = Put(day: int, value: V) | Raise(error: Error)

  /** The outcome of running a plan on a list of cells: each Put combines
      the value into the cell at DayIndex(p, day). */
  function Apply<T, V>(p: Period, cells: seq<T>, steps: seq<Step<V>>, combine: (T, V) -> T): Result<seq<T>>
    decreases |steps|
  {
    if steps == [] then Ok(cells)
    else
      match steps[0]
      case Raise(e) => Err(e)
      case Put(d, v) =>
        match DayIndex(p, d)
        case Err(e) => Err(e)
        case Ok(i) =>
          if i < |cells| then Apply(p, cells[i := combine(cells[i], v)], steps[1..], combine)
          else Err(IndexError)
  }

  /** A step that writes inside a list of n cells. */
  predicate Lands<V>(p: Period, n: nat, s: Step<V>) {
    s.Put? && DayIndex(p, s.day).Ok? && DayIndex(p, s.day).value < n
  }

  /** The exception a step that does not land raises. */
  function Failure<V>(p: Period, s: Step<V>): Error {
    match s
    case Raise(e) => e
    case Put(d, _) => if DayIndex(p, d).Err? then DayIndex(p, d).error else IndexError
  }

  /** The values written at column i, in order. */
  function Covering<V>(p: Period, steps: seq<Step<V>>, i: nat): seq<V>
    decreases |steps|
  {
    if steps == [] then []
    else
      var rest := Covering(p, steps[1..], i);
      if steps[0].Put? && DayIndex(p, steps[0].day) == Ok(i) then [steps[0].value] + rest else rest
  }

  function FoldLeft<T, V>(combine: (T, V) -> T, a: T, vs: seq<V>): T
    decreases |vs|
  {
    if vs == [] then a else FoldLeft(combine, combine(a, vs[0]), vs[1..])
  }

  /** A run of a plan keeps the number of cells. */
  lemma {:induction false} ApplyLength<T, V>(p: Period, cells: seq<T>, steps: seq<Step<V>>, combine: (T, V) -> T)
    ensures Apply(p, cells, steps, combine).Ok? ==> |Apply(p, cells, steps, combine).value| == |cells|
    decreases |steps|
  {
    if steps != [] && steps[0].Put? && DayIndex(p, steps[0].day).Ok? {
      var i := DayIndex(p, steps[0].day).value;
      if i < |cells| {
        ApplyLength(p, cells[i := combine(cells[i], steps[0].value)], steps[1..], combine);
      }
    }
  }

  /** A plan runs to the end exactly when every step lands; otherwise the
      first step that does not land decides the exception. */
  lemma {:induction false} ApplyOutcome<T, V>(p: Period, cells: seq<T>, steps: seq<Step<V>>, combine: (T, V) -> T)
    ensures Apply(p, cells, steps, combine).Ok? <==>
      forall k :: 0 <= k < |steps| ==> Lands(p, |cells|, steps[k])
    ensures Apply(p, cells, steps, combine).Err? ==>
      exists k :: (0 <= k < |steps| &&
        (forall j :: 0 <= j < k ==> Lands(p, |cells|, steps[j])) &&
        !Lands(p, |cells|, steps[k]) &&
        Apply(p, cells, steps, combine).error == Failure(p, steps[k]))
    decreases |steps|
  {
    if steps != [] {
      var s := steps[0];
      if Lands(p, |cells|, s) {
        var i := DayIndex(p, s.day).value;
        var next := cells[i := combine(cells[i], s.value)];
        ApplyOutcome(p, next, steps[1..], combine);
        assert forall k :: 1 <= k < |steps| ==> steps[k] == steps[1..][k - 1];
        if Apply(p, cells, steps, combine).Err? {
          var k :| 0 <= k < |steps[1..]| &&
            (forall j :: 0 <= j < k ==> Lands(p, |next|, steps[1..][j])) &&
            !Lands(p, |next|, steps[1..][k]) &&
            Apply(p, next, steps[1..], combine).error == Failure(p, steps[1..][k]);
          assert forall j :: 0 <= j < k + 1 ==> Lands(p, |cells|, steps[j]);
        }
      }
    }
  }

  /** After a complete run, cell i is the fold of the values written at column i. */
  lemma {:induction false} ApplyCells<T, V>(p: Period, cells: seq<T>, steps: seq<Step<V>>, combine: (T, V) -> T, i: nat)
    requires Apply(p, cells, steps, combine).Ok? && i < |cells|
    ensures |Apply(p, cells, steps, combine).value| == |cells|
    ensures Apply(p, cells, steps, combine).value[i] == FoldLeft(combine, cells[i], Covering(p, steps, i))
    decreases |steps|
  {
    ApplyLength(p, cells, steps, combine);
    if steps != [] {
      var s := steps[0];
      var j := DayIndex(p, s.day).value;
      var next := cells[j := combine(cells[j], s.value)];
      ApplyCells(p, next, steps[1..], combine, i);
    }
  }

  /** The values written at column i are those of the Put steps whose day
      falls in that column. */
  lemma {:induction false} CoveringMembers<V>(p: Period, steps: seq<Step<V>>, i: nat, v: V)
    ensures v in Covering(p, steps, i) <==>
      exists k :: (0 <= k < |steps| && steps[k].Put? && DayIndex(p, steps[k].day) == Ok(i) && steps[k].value == v)
    decreases |steps|
  {
    if steps != [] {
      CoveringMembers(p, steps[1..], i, v);
      assert forall k :: 1 <= k < |steps| ==> steps[k] == steps[1..][k - 1];
      if exists k :: 0 <= k < |steps| && steps[k].Put? && DayIndex(p, steps[k].day) == Ok(i) && steps[k].value == v {
        var k :| 0 <= k < |steps| && steps[k].Put? && DayIndex(p, steps[k].day) == Ok(i) && steps[k].value == v;
        if k > 0 {
          assert steps[1..][k - 1] == steps[k];
        }
      }
    }
  }

  /** Plain assignment: the new value replaces the cell. */
  function Replace<T>(cell: T, v: T): T { v }

  /** The last value of vs, or d when vs is empty. */
  function LastOr<T>(d: T, vs: seq<T>): T {
    if vs == [] then d else vs[|vs| - 1]
  }

  /** With plain assignment the last write wins. */
  lemma {:induction false} FoldReplace<T>(c: T, vs: seq<T>)
    ensures FoldLeft(Replace, c, vs) == LastOr(c, vs)
    decreases |vs|
  {
    if vs != [] {
      FoldReplace(vs[0], vs[1..]);
    }
  }

  /** A write of f(d) at each listed day d, in order. */
  function Puts<V>(ds: seq<int>, f: int -> V): seq<Step<V>> {
    seq(|ds|, k requires 0 <= k < |ds| => Put(ds[k], f(ds[k])))
  }

  /** Writes at listed days all land exactly when every listed day lies in
      the period (the list being at least one period long). */
  lemma PutsLand<V>(p: Period, n: nat, ds: seq<int>, f: int -> V)
    requires n >= p.duration
    ensures (forall k :: 0 <= k < |Puts(ds, f)| ==> Lands(p, n, Puts(ds, f)[k])) <==>
      forall d :: d in ds ==> DayIndex(p, d).Ok?
  {
    var s := Puts(ds, f);
    if forall d :: d in ds ==> DayIndex(p, d).Ok? {
      forall k | 0 <= k < |s| ensures Lands(p, n, s[k]) {
        assert ds[k] in ds;
      }
    }
    if forall k :: 0 <= k < |s| ==> Lands(p, n, s[k]) {
      forall d | d in ds ensures DayIndex(p, d).Ok? {
        var k :| 0 <= k < |ds| && ds[k] == d;
        assert Lands(p, n, s[k]);
      }
    }
  }

  /** The values written at column i by writes at listed days. */
  lemma PutsCovering<V>(p: Period, ds: seq<int>, f: int -> V, i: nat, v: V)
    ensures v in Covering(p, Puts(ds, f), i) <==> exists d :: d in ds && DayIndex(p, d) == Ok(i) && f(d) == v
  {
    CoveringMembers(p, Puts(ds, f), i, v);
    if exists d :: d in ds && DayIndex(p, d) == Ok(i) && f(d) == v {
      var d :| d in ds && DayIndex(p, d) == Ok(i) && f(d) == v;
      var k :| 0 <= k < |ds| && ds[k] == d;
      assert Puts(ds, f)[k] == Put(d, f(d));
    }
  }

  /** A list of n copies of x, as `[x] * n` builds it. */
  function Repeat<T>(x: T, n: nat): (r: seq<T>)
    ensures |r| == n && forall i :: 0 <= i < n ==> r[i] == x
  {
    seq(n, _ => x)
  }

  /** A fresh array holding Repeat(x, n). */
  method Filled<T>(x: T, n: nat) returns (a: array<T>)
    ensures fresh(a) && a[..] == Repeat(x, n)
  {
    a := new T[n](_ => x);
  }

  /** Cell i of a completed run with plain assignment: the last value
      written at column i, or the initial one. */
  lemma ReplaceCells<T>(p: Period, cells: seq<T>, steps: seq<Step<T>>, i: nat)
    requires Apply(p, cells, steps, Replace).Ok? && i < |cells|
    ensures |Apply(p, cells, steps, Replace).value| == |cells|
    ensures Apply(p, cells, steps, Replace).value[i] == LastOr(cells[i], Covering(p, steps, i))
  {
    ApplyCells(p, cells, steps, Replace, i);
    FoldReplace(cells[i], Covering(p, steps, i));
  }

  /** The last value written at a column comes from a write at that column. */
  lemma LastWritten<V>(p: Period, steps: seq<Step<V>>, i: nat, d: V)
    requires Covering(p, steps, i) != []
    ensures exists k :: (0 <= k < |steps| && steps[k].Put? && DayIndex(p, steps[k].day) == Ok(i) &&
      steps[k].value == LastOr(d, Covering(p, steps, i)))
  {
    var c := Covering(p, steps, i);
    CoveringMembers(p, steps, i, c[|c| - 1]);
  }

  /** A run fails with IndexError or with the exception of one of its
      Raise steps. */
  lemma {:induction false} ApplyFailure<T, V>(p: Period, cells: seq<T>, steps: seq<Step<V>>, combine: (T, V) -> T)
    ensures Apply(p, cells, steps, combine).Err? ==>
      Apply(p, cells, steps, combine).error == IndexError || Raise(Apply(p, cells, steps, combine).error) in steps
    decreases |steps|
  {
    if steps != [] {
      var s := steps[0];
      if s.Put? && DayIndex(p, s.day).Ok? && DayIndex(p, s.day).value < |cells| {
        var i := DayIndex(p, s.day).value;
        ApplyFailure(p, cells[i := combine(cells[i], s.value)], steps[1..], combine);
      }
    }
  }

  /** A cell that differs from its initial value after a run with plain
      assignment holds the value of a write at its column. */
  lemma ReplacedFrom<T>(p: Period, cells: seq<T>, steps: seq<Step<T>>, i: nat, r: seq<T>)
    requires Apply(p, cells, steps, Replace) == Ok(r) && i < |cells|
    ensures |r| == |cells|
    ensures r[i] != cells[i] ==> exists s :: s in steps && s.Put? && DayIndex(p, s.day) == Ok(i) && s.value == r[i]
  {
    ReplaceCells(p, cells, steps, i);
    if r[i] != cells[i] {
      LastWritten(p, steps, i, cells[i]);
      var k :| 0 <= k < |steps| && steps[k].Put? && DayIndex(p, steps[k].day) == Ok(i) && steps[k].value == r[i];
      assert steps[k] in steps;
    }
  }

  /** Running two plans one after the other. */
  function Then<T, V>(p: Period, r: Result<seq<T>>, steps: seq<Step<V>>, combine: (T, V) -> T): Result<seq<T>> {
    match r
    case Err(e) => Err(e)
    case Ok(cells) => Apply(p, cells, steps, combine)
  }

  lemma {:induction false} ApplyConcat<T, V>(p: Period, cells: seq<T>, s1: seq<Step<V>>, s2: seq<Step<V>>, combine: (T, V) -> T)
    ensures Apply(p, cells, s1 + s2, combine) == Then(p, Apply(p, cells, s1, combine), s2, combine)
    decreases |s1|
  {
    if s1 == [] {
      assert s1 + s2 == s2;
    } else {
      assert (s1 + s2)[0] == s1[0] && (s1 + s2)[1..] == s1[1..] + s2;
      var s := s1[0];
      if s.Put? && DayIndex(p, s.day).Ok? && DayIndex(p, s.day).value < |cells| {
        var i := DayIndex(p, s.day).value;
        ApplyConcat(p, cells[i := combine(cells[i], s.value)], s1[1..], s2, combine);
      }
    }
  }

  // ---------------------------------------------------------------------
  // Carrying out a plan in place
  // ---------------------------------------------------------------------

  /** The body of an extraction closure: the writes of one activity. */
  method WriteSteps<T, V>(p: Period, a: array<T>, steps: seq<Step<V>>, combine: (T, V) -> T)
      returns (err: Option<Error>)
    modifies a
    ensures Apply(p, old(a[..]), steps, combine) == if err.None? then Ok(a[..]) else Err(err.value)
  {
    for k := 0 to |steps|
      invariant Apply(p, old(a[..]), steps, combine) == Apply(p, a[..], steps[k..], combine)
    {
      assert steps[k..][1..] == steps[k + 1..];
      match steps[k]
      case Raise(e) =>
        return Some(e);
      case Put(d, v) =>
        var i := DayIndex(p, d);
        if i.Err? {
          return Some(i.error);
        }
        if i.value >= a.Length {
          return Some(IndexError);
        }
        a[i.value] := combine(a[i.value], v);
    }
    return None;
  }

  lemma FlatMapFront<X, Y>(xs: seq<X>, k: nat, f: X -> seq<Y>)
    requires k < |xs|
    ensures FlatMap(xs[k..], f) == f(xs[k]) + FlatMap(xs[k + 1..], f)
  {
    assert xs[k..] == [xs[k]] + xs[k + 1..];
    FlatMapConcat([xs[k]], xs[k + 1..], f);
    assert [xs[k]][..0] == [];
  }

  /** iterate_over_procedures: runs the closure of every matching activity
      on the shared list; an exception ends the traversal. */
  method IterateOverProcedures<T, V>(p: Period, caption: string, kinds: seq<Kind>, a: array<T>,
                                     stepsOf: Activity -> seq<Step<V>>, combine: (T, V) -> T)
      returns (err: Option<Error>)
    modifies a
    ensures Apply(p, old(a[..]), FlatMap(Matching(p, caption, kinds), stepsOf), combine)
      == if err.None? then Ok(a[..]) else Err(err.value)
  {
    var ms := Matching(p, caption, kinds);
    for k := 0 to |ms|
      invariant Apply(p, old(a[..]), FlatMap(ms, stepsOf), combine)
        == Apply(p, a[..], FlatMap(ms[k..], stepsOf), combine)
    {
      FlatMapFront(ms, k, stepsOf);
      ApplyConcat(p, a[..], stepsOf(ms[k]), FlatMap(ms[k + 1..], stepsOf), combine);
      err := WriteSteps(p, a, stepsOf(ms[k]), combine);
      if err.Some? {
        return;
      }
    }
    assert ms[|ms|..] == [];
    return None;
  }
}
