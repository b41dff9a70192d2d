// extract_start_end and activity_days: the days that bound runs of
// consecutive activity days, and the columns the auto-compressed grid
// draws at full width.

module Runs {
  import opened Schema
  import opened Lists
  import opened DayList
  import opened Times
  import opened Extract
  import opened Extractors

  // ---------------------------------------------------------------------
  // extract_start_end
  // ---------------------------------------------------------------------

  /** b follows a without a gap; there is no day 0, so -1 is followed by 1. */
  predicate Consecutive(a: int, b: int) {
    b == a + 1 || (a == -1 && b == 1)
  }

  /** The cursor `last_day` before element k of the sorted list. */
  function Cursor(s: seq<int>, k: nat): int
    requires k <= |s|
  {
    if k == 0 then 0 else s[k - 1]
  }

  /** Whether element k opens a new pair `[last_day, i]`. */
  predicate Opens(s: seq<int>, k: nat)
    requires k < |s|
  {
    s[k] == s[0] || (s[k] != Cursor(s, k) + 1 && !(Cursor(s, k) == -1 && s[k] == 1))
  }

  /** The pairs written while walking the first k elements. */
  function Pairs(s: seq<int>, k: nat): seq<int>
    requires k <= |s|
  {
    if k == 0 then []
    else if Opens(s, k - 1) then Pairs(s, k - 1) + [Cursor(s, k - 1), s[k - 1]]
    else Pairs(s, k - 1)
  }

  /** The list the loop leaves behind: the pairs, then the last day. */
  function Walk(s: seq<int>): seq<int> {
    if s == [] then [] else Pairs(s, |s|) + [s[|s| - 1]]
  }

  /** `list.remove(x)`: drops the first occurrence of x. */
  function RemoveFirst(s: seq<int>, x: int): seq<int> {
    if s == [] then []
    else if s[0] == x then s[1..]
    else [s[0]] + RemoveFirst(s[1..], x)
  }

  /** extract_start_end, as a function of the unsorted day list. */
  function StartEnd(days: seq<int>): seq<int> {
    var u := Unique(Walk(SortedInts(days)));
    if 0 in u then RemoveFirst(u, 0) else u
  }

  /** `list.sort()` on an array: the library sort, in place. */
  method SortInPlace(a: array<int>)
    modifies a
    ensures a[..] == SortedInts(old(a[..]))
  {
    var s := SortedInts(a[..]);
    for i := 0 to a.Length
      invariant forall j :: 0 <= j < i ==> a[j] == s[j]
    {
      a[i] := s[i];
    }
    assert a[..] == s;
  }

  /** extract_start_end: sorts its argument in place and walks it with a
      cursor on the previous day. */
  method ExtractStartEnd(a: array<int>) returns (out: seq<int>)
    modifies a
    ensures a[..] == SortedInts(old(a[..]))
    ensures out == StartEnd(old(a[..]))
  {
    var raw: seq<int> := [];
    if a.Length == 0 {
      assert a[..] == [];
    } else {
      SortInPlace(a);
      var last := 0;
      for k := 0 to a.Length
        invariant raw == Pairs(a[..], k) && last == Cursor(a[..], k)
      {
        if a[k] == a[0] || (a[k] != last + 1 && !(last == -1 && a[k] == 1)) {
          raw := raw + [last, a[k]];
        }
        last := a[k];
      }
      raw := raw + [last];
    }
    out := Unique(raw);
    if 0 in out {
      out := RemoveFirst(out, 0);
    }
  }

  // Properties of extract_start_end

  lemma {:induction false} RemoveFirstMembers(s: seq<int>, x: int)
    requires NoDuplicates(s)
    ensures NoDuplicates(RemoveFirst(s, x))
    ensures forall y :: y in RemoveFirst(s, x) <==> y in s && y != x
  {
    if s != [] {
      assert s == [s[0]] + s[1..];
      RemoveFirstMembers(s[1..], x);
      if s[0] != x {
        var r := RemoveFirst(s[1..], x);
        assert s[0] !in s[1..] by {
          forall j | 0 <= j < |s| - 1 ensures s[1..][j] != s[0] {
            assert s[j + 1] != s[0];
          }
        }
        forall i, j | 0 <= i < j < |[s[0]] + r| ensures ([s[0]] + r)[i] != ([s[0]] + r)[j] {
          if i == 0 {
            assert ([s[0]] + r)[j] == r[j - 1] && r[j - 1] in r;
          }
        }
      }
    }
  }

  /** Element j contributes x to the pairs. */
  predicate Contributes(s: seq<int>, j: nat, x: int)
    requires j < |s|
  {
    Opens(s, j) && (x == Cursor(s, j) || x == s[j])
  }

  /** The elements of the pairs written over the first k elements. */
  lemma {:induction false} PairsMembers(s: seq<int>, k: nat, x: int)
    requires k <= |s|
    ensures x in Pairs(s, k) <==> exists j :: 0 <= j < k && Contributes(s, j, x)
  {
    if k > 0 {
      PairsMembers(s, k - 1, x);
      if Contributes(s, k - 1, x) {
        assert x in Pairs(s, k);
      }
    }
  }

  /** On a sorted list, an element after the first opens a pair exactly
      when it does not follow its predecessor. */
  lemma OpensSorted(s: seq<int>, k: nat)
    requires Ascending(s) && 0 < k < |s|
    ensures Opens(s, k) <==> !Consecutive(s[k - 1], s[k])
  {
    AscendingOrdered(s, 0, k - 1);
  }

  /** Both sides of a gap after element k - 1 of the sorted list. */
  predicate Gap(s: seq<int>, k: nat, x: int)
    requires 0 < k < |s|
  {
    !Consecutive(s[k - 1], s[k]) && (x == s[k - 1] || x == s[k])
  }

  /** x bounds a run of the sorted list s: it is the first or the last day,
      or one side of a gap. */
  predicate RunEnd(s: seq<int>, x: int)
    requires s != []
  {
    x == s[0] || x == s[|s| - 1] || exists k :: 0 < k < |s| && Gap(s, k, x)
  }

  lemma WalkMembers(s: seq<int>, x: int)
    requires Ascending(s) && s != []
    ensures x in Walk(s) <==> x == 0 || RunEnd(s, x)
  {
    PairsMembers(s, |s|, x);
    assert Contributes(s, 0, 0) && Contributes(s, 0, s[0]);
    if x in Pairs(s, |s|) && x != 0 && x != s[0] {
      var j :| 0 <= j < |s| && Contributes(s, j, x);
      OpensSorted(s, j);
      assert Gap(s, j, x);
    }
    if x != s[0] && x != s[|s| - 1] && exists k :: 0 < k < |s| && Gap(s, k, x) {
      var k :| 0 < k < |s| && Gap(s, k, x);
      OpensSorted(s, k);
      assert Contributes(s, k, x);
    }
  }

  /** The result lists, once each and never day 0, exactly the days that
      bound a run of the sorted input: its first and last day and both
      sides of every gap. */
  lemma StartEndMeaning(days: seq<int>)
    ensures NoDuplicates(StartEnd(days))
    ensures forall x :: x in StartEnd(days) <==>
      x != 0 && days != [] && RunEnd(SortedInts(days), x)
  {
    var s := SortedInts(days);
    var u := Unique(Walk(s));
    UniqueNoDuplicates(Walk(s));
    RemoveFirstMembers(u, 0);
    if days == [] {
      assert s == [] by {
        assert |multiset(s)| == 0;
      }
    } else {
      assert s != [] by {
        assert days[0] in multiset(s);
      }
      forall x ensures x in Walk(s) <==> x == 0 || RunEnd(s, x) {
        WalkMembers(s, x);
      }
    }
  }

  /** Every day of the result is a day of the input, and the input's first
      and last day (when not 0) are in it. */
  lemma StartEndFromInput(days: seq<int>)
    requires days != []
    ensures forall x :: x in StartEnd(days) ==> x in days
    ensures SortedInts(days)[0] != 0 ==> SortedInts(days)[0] in StartEnd(days)
    ensures SortedInts(days)[|days| - 1] != 0 ==> SortedInts(days)[|days| - 1] in StartEnd(days)
  {
    var s := SortedInts(days);
    StartEndMeaning(days);
    forall x | x in StartEnd(days) ensures x in days {
      assert RunEnd(s, x);
      assert x in s;
      assert x in multiset(s);
    }
  }

  /** Walking days -2, -1, 1, 2, 5 opens a pair at -2 and at the gap 2, 5:
      the runs are -2..2 and 5..5. */
  lemma WalkExample()
    ensures Walk([-2, -1, 1, 2, 5]) == [0, -2, 2, 5, 5]
  {
    var s := [-2, -1, 1, 2, 5];
    assert Pairs(s, 1) == [0, -2];
    assert Pairs(s, 4) == [0, -2];
  }

  // ---------------------------------------------------------------------
  // activity_days
  // ---------------------------------------------------------------------

  /** The last day of a span of `duration` days from `start`, stepping over
      the missing day 0 when the span crosses it. */
  function LastDay(start: int, duration: int): int {
    var d := if start < 0 && start + duration > 0 then duration + 1 else duration;
    start + d - 1
  }

  /** The first and the last day of the period. */
  function PeriodEnds(p: Period): seq<int> {
    [p.start, LastDay(p.start, p.duration)]
  }

  /** The run ends of an administration's or procedure's listed days. */
  function DayRuns(a: Activity): seq<int> {
    if a.days.Some? then StartEnd(DecodeDays(a.days.value)) else []
  }

  /** `range(start, start + duration)` over the adjusted duration, without day 0. */
  function SpanDays(start: int, duration: int): seq<int> {
    var r := Inclusive(start, LastDay(start, duration));
    if 0 in r then RemoveFirst(r, 0) else r
  }

  /** The run ends of an interval given by start and duration. */
  function IntervalRuns(a: Activity): seq<int> {
    if a.start.Some? && a.duration.Some? then StartEnd(SpanDays(a.start.value, a.duration.value)) else []
  }

  /** The days of a list of entries. */
  function DaysOfEntries(es: seq<TimedDay>): (r: seq<int>)
    ensures |r| == |es| && forall k :: 0 <= k < |es| ==> r[k] == es[k].day
  {
    seq(|es|, k requires 0 <= k < |es| => es[k].day)
  }

  /** A procedure with "times" whose extraction raises. */
  predicate Undated(p: Period, a: Activity) {
    a.times.Some? && Procedure(p, a.caption, CurrentKinds).Err?
  }

  /** The days on which a procedure with "times" has doses, once its hours
      are spread over the following days. */
  function DosedDays(p: Period, a: Activity): seq<int> {
    if a.times.Some? && Procedure(p, a.caption, CurrentKinds).Ok? then
      DaysOfEntries(Normalized(Procedure(p, a.caption, CurrentKinds).value))
    else []
  }

  function DosedDaysOf(p: Period): Activity -> seq<int> {
    a => DosedDays(p, a)
  }

  /** The dosed days of a list of procedures, in order; the first
      procedure with "times" whose extraction fails raises KeyError. */
  function Dosed(p: Period, procs: seq<Activity>): Result<seq<int>> {
    if procs == [] then Ok([])
    else
      var n := |procs| - 1;
      match Dosed(p, procs[..n])
      case Err(e) => Err(e)
      case Ok(ds) => if Undated(p, procs[n]) then Err(KeyError) else Ok(ds + DosedDays(p, procs[n]))
  }

  /** The days activity_days collects, in collection order. */
  function ActivityMarks(p: Period): Result<seq<int>> {
    match Dosed(p, p.procedures)
    case Err(e) => Err(e)
    case Ok(pk) =>
      Ok(PeriodEnds(p) + FlatMap(p.administrations + p.procedures, DayRuns) + pk +
        FlatMap(p.intervals, IntervalRuns))
  }

  /** The dosed days fail, with KeyError, exactly when some procedure is
      undated, and are otherwise those of every procedure in turn. */
  lemma {:induction false} DosedMeaning(p: Period, procs: seq<Activity>)
    ensures Dosed(p, procs).Err? <==> exists a :: a in procs && Undated(p, a)
    ensures Dosed(p, procs).Err? ==> Dosed(p, procs).error == KeyError
    ensures Dosed(p, procs).Ok? ==> Dosed(p, procs).value == FlatMap(procs, DosedDaysOf(p))
  {
    if procs != [] {
      var n := |procs| - 1;
      DosedMeaning(p, procs[..n]);
      assert procs == procs[..n] + [procs[n]];
    }
  }

  function Active(d: int): bool {
    true
  }

  /** activity_days: the columns of the collected days are True. */
  function ActivityDaysOf(p: Period): Result<seq<bool>> {
    match ActivityMarks(p)
    case Err(e) => Err(e)
    case Ok(m) => Grid(p, m)
  }

  /** The grid for a list of collected days: their columns set to True,
      in ascending order of day, each day once. */
  function Grid(p: Period, m: seq<int>): Result<seq<bool>> {
    Apply(p, Repeat(false, Days(p)), Puts(Unique(SortedInts(m)), Active), Replace)
  }

  /** A fresh array holding the list s. */
  method ArrayOf(s: seq<int>) returns (a: array<int>)
    ensures fresh(a) && a[..] == s
  {
    a := new int[|s|](i requires 0 <= i < |s| => s[i]);
  }

  /** The run ends of the listed days of administrations and procedures. */
  method CollectDayRuns(acts: seq<Activity>) returns (runs: seq<int>)
    ensures runs == FlatMap(acts, DayRuns)
  {
    runs := [];
    for k := 0 to |acts|
      invariant runs == FlatMap(acts[..k], DayRuns)
    {
      FlatMapSnoc(acts, k, DayRuns);
      if acts[k].days.Some? {
        var temp := DecodeDaylist(acts[k].days.value);
        var a := ArrayOf(temp);
        var se := ExtractStartEnd(a);
        runs := runs + se;
      }
    }
    assert acts[..|acts|] == acts;
  }

  /** The dosed days of one procedure, or the failure of its extraction. */
  method CollectDosedDaysOf(p: Period, a: Activity) returns (r: Result<seq<int>>)
    ensures r.Err? <==> Undated(p, a)
    ensures r.Ok? ==> r.value == DosedDays(p, a)
  {
    if a.times.None? {
      return Ok([]);
    }
    var es := ExtractProcedure(p, a.caption, CurrentKinds);
    if es.Err? {
      return Err(KeyError);
    }
    var n := Normalize(es.value);
    return Ok(DaysOfEntries(n));
  }

  /** The dosed days of the procedures with "times". */
  method CollectDosedDays(p: Period) returns (r: Result<seq<int>>)
    ensures r == Dosed(p, p.procedures)
  {
    var procs := p.procedures;
    var pk: seq<int> := [];
    for k := 0 to |procs|
      invariant Dosed(p, procs[..k]) == Ok(pk)
    {
      assert procs[..k + 1][..k] == procs[..k];
      var ds := CollectDosedDaysOf(p, procs[k]);
      if ds.Err? {
        DosedFailed(p, procs, k + 1);
        return Err(KeyError);
      }
      pk := pk + ds.value;
    }
    assert procs[..|procs|] == procs;
    return Ok(pk);
  }

  /** Once a prefix fails, the whole list fails the same way. */
  lemma {:induction false} DosedFailed(p: Period, procs: seq<Activity>, k: nat)
    requires k <= |procs| && Dosed(p, procs[..k]).Err?
    ensures Dosed(p, procs) == Dosed(p, procs[..k])
    decreases |procs| - k
  {
    if k < |procs| {
      assert procs[..k + 1][..k] == procs[..k];
      DosedFailed(p, procs, k + 1);
    } else {
      assert procs[..k] == procs;
    }
  }

  /** The run ends of the intervals given by start and duration. */
  method CollectIntervalRuns(acts: seq<Activity>) returns (runs: seq<int>)
    ensures runs == FlatMap(acts, IntervalRuns)
  {
    runs := [];
    for k := 0 to |acts|
      invariant runs == FlatMap(acts[..k], IntervalRuns)
    {
      FlatMapSnoc(acts, k, IntervalRuns);
      var i := acts[k];
      if i.start.Some? && i.duration.Some? {
        var start := i.start.value;
        var duration := i.duration.value;
        if start < 0 && start + duration > 0 {
          duration := duration + 1;
        }
        var temp := Inclusive(start, start + duration - 1);
        if 0 in temp {
          temp := RemoveFirst(temp, 0);
        }
        var a := ArrayOf(temp);
        var se := ExtractStartEnd(a);
        runs := runs + se;
      }
    }
    assert acts[..|acts|] == acts;
  }

  /** activity_days */
  method ActivityDays(p: Period) returns (r: Result<seq<bool>>)
    ensures r == ActivityDaysOf(p)
  {
    var start := p.start;
    var duration := p.duration;
    if start < 0 && start + duration > 0 {
      duration := duration + 1;
    }
    var ends := [start, start + duration - 1];
    assert ends == PeriodEnds(p);
    var runs := CollectDayRuns(p.administrations + p.procedures);
    var pk := CollectDosedDays(p);
    if pk.Err? {
      return Err(pk.error);
    }
    var spans := CollectIntervalRuns(p.intervals);
    var out := ends + runs + pk.value + spans;
    assert ActivityMarks(p) == Ok(out);
    var a := Filled(false, Days(p));
    var err := WriteSteps(p, a, Puts(Unique(SortedInts(out)), Active), Replace);
    r := if err.None? then Ok(a[..]) else Err(err.value);
  }

  // Properties of activity_days

  /** activity_days raises KeyError exactly when a procedure with "times"
      shares its caption with an activity that lists no days. */
  lemma ActivityMarksFailure(p: Period)
    ensures ActivityMarks(p).Err? ==> ActivityMarks(p).error == KeyError
    ensures ActivityMarks(p).Err? <==>
      exists a, b: Activity :: (a in p.procedures && a.times.Some? && b.caption == a.caption &&
        (exists k :: k in CurrentKinds && b in ActivitiesOf(p, k)) && b.days.None?)
  {
    DosedMeaning(p, p.procedures);
    forall a | a in p.procedures {
      ProcedureFailure(p, a.caption, CurrentKinds);
    }
  }

  /** The collected days: the period's first and last day, the run ends of
      every administration and procedure, the dosed days of every
      procedure with "times", and the run ends of every interval. */
  lemma ActivityMarksMembers(p: Period, m: seq<int>, d: int)
    requires ActivityMarks(p) == Ok(m)
    ensures d in m <==>
      d == p.start || d == LastDay(p.start, p.duration) ||
      (exists a :: a in p.administrations + p.procedures && d in DayRuns(a)) ||
      (exists a :: a in p.procedures && d in DosedDays(p, a)) ||
      (exists a :: a in p.intervals && d in IntervalRuns(a))
  {
    DosedMeaning(p, p.procedures);
    FlatMapMembers(p.administrations + p.procedures, DayRuns, d);
    FlatMapMembers(p.procedures, DosedDaysOf(p), d);
    FlatMapMembers(p.intervals, IntervalRuns, d);
  }

  /** With the days collected, the grid is built exactly when every one of
      them lies in the period; otherwise IndexError. */
  lemma GridOutcome(p: Period, m: seq<int>)
    ensures Grid(p, m).Ok? <==> forall d :: d in m ==> DayIndex(p, d).Ok?
    ensures Grid(p, m).Err? ==> Grid(p, m).error == IndexError
  {
    var u := Unique(SortedInts(m));
    var steps := Puts(u, Active);
    ApplyOutcome(p, Repeat(false, Days(p)), steps, Replace);
    PutsLand(p, Days(p), u, Active);
    ApplyFailure(p, Repeat(false, Days(p)), steps, Replace);
    forall d ensures d in u <==> d in m {
      assert d in SortedInts(m) <==> d in multiset(m);
    }
    assert forall k :: 0 <= k < |steps| ==> steps[k].Put?;
  }

  /** A column is True exactly when a collected day falls in it. */
  lemma GridCells(p: Period, m: seq<int>, r: seq<bool>, i: nat)
    requires Grid(p, m) == Ok(r) && i < Days(p)
    ensures |r| == Days(p)
    ensures r[i] <==> exists d :: d in m && DayIndex(p, d) == Ok(i)
  {
    var u := Unique(SortedInts(m));
    var steps := Puts(u, Active);
    ReplaceCells(p, Repeat(false, Days(p)), steps, i);
    var c := Covering(p, steps, i);
    if c != [] {
      PutsCovering(p, u, Active, i, c[|c| - 1]);
      var d :| d in u && DayIndex(p, d) == Ok(i);
      assert d in multiset(SortedInts(m));
    }
    if exists d :: d in m && DayIndex(p, d) == Ok(i) {
      var d :| d in m && DayIndex(p, d) == Ok(i);
      assert d in multiset(SortedInts(m));
      PutsCovering(p, u, Active, i, true);
    }
  }

  lemma ActivityDaysOutcome(p: Period, m: seq<int>)
    requires ActivityMarks(p) == Ok(m)
    ensures ActivityDaysOf(p).Ok? <==> forall d :: d in m ==> DayIndex(p, d).Ok?
    ensures ActivityDaysOf(p).Err? ==> ActivityDaysOf(p).error == IndexError
  {
    GridOutcome(p, m);
  }

  lemma ActivityDaysCells(p: Period, m: seq<int>, r: seq<bool>, i: nat)
    requires ActivityMarks(p) == Ok(m) && ActivityDaysOf(p) == Ok(r) && i < Days(p)
    ensures |r| == Days(p)
    ensures r[i] <==> exists d :: d in m && DayIndex(p, d) == Ok(i)
  {
    GridCells(p, m, r, i);
  }

  /** Every collected day's column is True. */
  lemma ActivityDaysMarked(p: Period, m: seq<int>, r: seq<bool>, d: int)
    requires ActivityMarks(p) == Ok(m) && ActivityDaysOf(p) == Ok(r) && d in m
    ensures DayIndex(p, d).Ok? && |r| == Days(p) && r[DayIndex(p, d).value]
  {
    GridOutcome(p, m);
    GridCells(p, m, r, DayIndex(p, d).value);
  }

  /** The columns of the period's first and last day are True. */
  lemma GridEdges(p: Period, m: seq<int>, r: seq<bool>)
    requires Grid(p, m) == Ok(r) && p.start in m && LastDay(p.start, p.duration) in m
    ensures p.duration >= 1 && |r| == p.duration && r[0] && r[p.duration - 1]
  {
    GridOutcome(p, m);
    GridCells(p, m, r, DayIndex(p, p.start).value);
    GridCells(p, m, r, DayIndex(p, LastDay(p.start, p.duration)).value);
  }

  /** The first and the last column are always True. */
  lemma ActivityDaysEdges(p: Period, r: seq<bool>)
    requires ActivityDaysOf(p) == Ok(r)
    ensures p.duration >= 1 && |r| == p.duration && r[0] && r[p.duration - 1]
  {
    var m := ActivityMarks(p).value;
    assert m[0] == p.start && m[1] == LastDay(p.start, p.duration);
    GridEdges(p, m, r);
  }
}
