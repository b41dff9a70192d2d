// Footnotes. extract_footnotes marks, for one caption in one period, the
// days that carry a footnote and the comma-separated symbols shown there,
// and registers (symbol, text) once per footnoted day. footnote_list
// gathers the registrations of all captions and periods, keeps the first
// entry of each symbol that has a text, and sorts the result.

module Footnotes {
  import opened Schema
  import opened Lists
  import opened DayList
  import opened Extract
  import opened Names

  // ---------------------------------------------------------------------
  // extract_footnotes
  // ---------------------------------------------------------------------

  /** The state of one day: whether it carries a footnote, and its symbols. */
  type Mark = (bool, string)

  /** A footnote on a day sets the flag and appends its symbol after a
      comma, unless nothing is shown yet. */
  function AddSymbol(m: Mark, symbol: string): Mark {
    (true, if m.1 != "" then m.1 + "," + symbol else m.1 + symbol)
  }

  /** A footnote writes its symbol on each of its days; one without days raises KeyError. */
  function NoteSteps(n: Footnote): seq<Step<string>> {
    if n.days.None? then [Raise(KeyError)] else Puts(DecodeDays(n.days.value), _ => n.symbol)
  }

  function ActivityNoteSteps(a: Activity): seq<Step<string>> {
    if a.footnotes.None? then [] else FlatMap(a.footnotes.value, NoteSteps)
  }

  function NotePlan(p: Period, caption: string): seq<Step<string>> {
    FlatMap(Matching(p, caption, CurrentKinds), ActivityNoteSteps)
  }

  /** A registration: the symbol and the text of a footnote. */
  type Entry = (string, string)

  /** A footnote is registered once per day it lists. */
  function NoteEntries(n: Footnote): seq<Entry> {
    if n.days.None? then [] else Repeat((n.symbol, n.text), |DecodeDays(n.days.value)|)
  }

  function ActivityEntries(a: Activity): seq<Entry> {
    if a.footnotes.None? then [] else FlatMap(a.footnotes.value, NoteEntries)
  }

  /** The three lists extract_footnotes returns. */
  datatype NoteColumns = NoteColumns(marked: seq<bool>, symbols: seq<string>, registry: seq<Entry>)

  /** The first components of a list of pairs: the flags of the marks, or
      the symbols of the registrations. */
  function Firsts<A, B>(ps: seq<(A, B)>): (r: seq<A>)
    ensures |r| == |ps| && forall i :: 0 <= i < |ps| ==> r[i] == ps[i].0
  {
    seq(|ps|, i requires 0 <= i < |ps| => ps[i].0)
  }

  function Shown(cells: seq<Mark>): (r: seq<string>)
    ensures |r| == |cells| && forall i :: 0 <= i < |cells| ==> r[i] == cells[i].1
  {
    seq(|cells|, i requires 0 <= i < |cells| => cells[i].1)
  }

  /** extract_footnotes */
  function Notes(p: Period, caption: string): Result<NoteColumns> {
    match Apply(p, Repeat((false, ""), Days(p)), NotePlan(p, caption), AddSymbol)
    case Err(e) => Err(e)
    case Ok(cells) => Ok(NoteColumns(Firsts(cells), Shown(cells), FlatMap(Matching(p, caption, CurrentKinds), ActivityEntries)))
  }

  method ExtractFootnotes(p: Period, caption: string) returns (r: Result<NoteColumns>)
    ensures r == Notes(p, caption)
  {
    var a := Filled((false, ""), Days(p));
    var err := IterateOverProcedures(p, caption, CurrentKinds, a, ActivityNoteSteps, AddSymbol);
    if err.Some? {
      return Err(err.value);
    }
    r := Ok(NoteColumns(Firsts(a[..]), Shown(a[..]), FlatMap(Matching(p, caption, CurrentKinds), ActivityEntries)));
  }

  /** The symbols joined by commas. */
  function CommaJoin(vs: seq<string>): string
    decreases |vs|
  {
    if vs == [] then ""
    else if |vs| == 1 then vs[0]
    else vs[0] + "," + CommaJoin(vs[1..])
  }

  /** The flag of a day is set once any symbol reaches it. */
  lemma {:induction false} FoldFlag(m: Mark, vs: seq<string>)
    ensures FoldLeft(AddSymbol, m, vs).0 == (m.0 || vs != [])
    decreases |vs|
  {
    if vs != [] {
      FoldFlag(AddSymbol(m, vs[0]), vs[1..]);
    }
  }

  lemma {:induction false} FoldShownAfter(m: Mark, vs: seq<string>)
    requires m.1 != "" && forall k :: 0 <= k < |vs| ==> vs[k] != ""
    ensures FoldLeft(AddSymbol, m, vs).1 == if vs == [] then m.1 else m.1 + "," + CommaJoin(vs)
    decreases |vs|
  {
    if vs != [] {
      var m' := AddSymbol(m, vs[0]);
      FoldShownAfter(m', vs[1..]);
      if |vs| > 1 {
        assert m'.1 + "," + CommaJoin(vs[1..]) == m.1 + "," + (vs[0] + "," + CommaJoin(vs[1..]));
      }
    }
  }

  /** Starting from an empty day, the day is marked once a symbol reaches
      it, and non-empty symbols end up joined by commas. */
  lemma FoldShown(vs: seq<string>)
    ensures FoldLeft(AddSymbol, (false, ""), vs).0 == (vs != [])
    ensures (forall v :: v in vs ==> v != "") ==> FoldLeft(AddSymbol, (false, ""), vs).1 == CommaJoin(vs)
  {
    if vs != [] {
      var m := AddSymbol((false, ""), vs[0]);
      assert "" + vs[0] == vs[0];
      assert m == (true, vs[0]);
      assert FoldLeft(AddSymbol, (false, ""), vs) == FoldLeft(AddSymbol, m, vs[1..]);
      FoldFlag(m, vs[1..]);
      if forall v :: v in vs ==> v != "" {
        assert vs[0] in vs;
        assert forall k :: 0 <= k < |vs[1..]| ==> vs[1..][k] in vs;
        FoldShownAfter(m, vs[1..]);
      }
    }
  }

  /** After a run of symbol writes from empty days, a day is marked
      exactly when a symbol reaches it, and non-empty symbols are shown
      joined by commas in the order written. */
  lemma MarkCells(p: Period, n: nat, steps: seq<Step<string>>, out: seq<Mark>, i: nat)
    requires Apply(p, Repeat((false, ""), n), steps, AddSymbol) == Ok(out) && i < n
    ensures |out| == n
    ensures out[i].0 <==> Covering(p, steps, i) != []
    ensures (forall v :: v in Covering(p, steps, i) ==> v != "") ==> out[i].1 == CommaJoin(Covering(p, steps, i))
  {
    ApplyCells(p, Repeat((false, ""), n), steps, AddSymbol, i);
    FoldShown(Covering(p, steps, i));
  }

  /** A day is marked exactly when a footnote reaches it, and its symbols
      are those footnotes' symbols in traversal order, joined by commas. */
  lemma NotesCells(p: Period, caption: string, r: NoteColumns, i: nat)
    requires Notes(p, caption) == Ok(r) && i < Days(p)
    ensures |r.marked| == Days(p) && |r.symbols| == Days(p)
    ensures r.marked[i] <==> Covering(p, NotePlan(p, caption), i) != []
    ensures (forall v :: v in Covering(p, NotePlan(p, caption), i) ==> v != "") ==>
      r.symbols[i] == CommaJoin(Covering(p, NotePlan(p, caption), i))
  {
    var out := Apply(p, Repeat((false, ""), Days(p)), NotePlan(p, caption), AddSymbol);
    assert out.Ok? && r.marked == Firsts(out.value) && r.symbols == Shown(out.value);
    MarkCells(p, Days(p), NotePlan(p, caption), out.value, i);
  }

  /** A write of the footnote plan is a listed day of a footnote of a
      matching activity, with that footnote's symbol; and every such day
      is written. */
  lemma NotePlanMembers(ms: seq<Activity>, d: int, v: string)
    ensures Put(d, v) in FlatMap(ms, ActivityNoteSteps) <==>
      exists a, n :: (a in ms && a.footnotes.Some? && n in a.footnotes.value && n.days.Some? &&
        d in DecodeDays(n.days.value) && v == n.symbol)
  {
    var s := Put(d, v);
    FlatMapMembers(ms, ActivityNoteSteps, s);
    forall a | a in ms && a.footnotes.Some?
      ensures s in ActivityNoteSteps(a) <==> exists n :: (n in a.footnotes.value && n.days.Some? &&
        d in DecodeDays(n.days.value) && v == n.symbol)
    {
      FlatMapMembers(a.footnotes.value, NoteSteps, s);
      forall n | n in a.footnotes.value && n.days.Some?
        ensures s in NoteSteps(n) <==> d in DecodeDays(n.days.value) && v == n.symbol
      {
        var ds := DecodeDays(n.days.value);
        if d in ds && v == n.symbol {
          var k :| 0 <= k < |ds| && ds[k] == d;
          assert NoteSteps(n)[k] == s;
        }
      }
    }
  }

  /** Some footnote write reaches column i exactly when a footnote of the
      activities lists a day of that column. */
  lemma NotePlanCovers(p: Period, ms: seq<Activity>, i: nat)
    ensures Covering(p, FlatMap(ms, ActivityNoteSteps), i) != [] <==>
      exists a, n, d :: (a in ms && a.footnotes.Some? && n in a.footnotes.value && n.days.Some? &&
        d in DecodeDays(n.days.value) && DayIndex(p, d) == Ok(i))
  {
    var steps := FlatMap(ms, ActivityNoteSteps);
    var c := Covering(p, steps, i);
    if c != [] {
      CoveringMembers(p, steps, i, c[0]);
      var k :| 0 <= k < |steps| && steps[k].Put? && DayIndex(p, steps[k].day) == Ok(i) && steps[k].value == c[0];
      assert steps[k] in steps;
      NotePlanMembers(ms, steps[k].day, c[0]);
    }
    if exists a, n, d :: (a in ms && a.footnotes.Some? && n in a.footnotes.value && n.days.Some? &&
        d in DecodeDays(n.days.value) && DayIndex(p, d) == Ok(i)) {
      var a, n, d :| a in ms && a.footnotes.Some? && n in a.footnotes.value && n.days.Some? &&
        d in DecodeDays(n.days.value) && DayIndex(p, d) == Ok(i);
      NotePlanMembers(ms, d, n.symbol);
      var k :| 0 <= k < |steps| && steps[k] == Put(d, n.symbol);
      CoveringMembers(p, steps, i, n.symbol);
    }
  }

  /** A day is marked exactly when a footnote of a matching activity lists
      a day of its column. */
  lemma NotesMarked(p: Period, caption: string, r: NoteColumns, i: nat)
    requires Notes(p, caption) == Ok(r) && i < Days(p)
    ensures |r.marked| == Days(p)
    ensures r.marked[i] <==> exists a, n, d :: (a in Matching(p, caption, CurrentKinds) && a.footnotes.Some? &&
      n in a.footnotes.value && n.days.Some? && d in DecodeDays(n.days.value) && DayIndex(p, d) == Ok(i))
  {
    NotesCells(p, caption, r, i);
    NotePlanCovers(p, Matching(p, caption, CurrentKinds), i);
  }

  /** The footnote writes raise only KeyError, for a footnote without days. */
  lemma NoteRaises(ms: seq<Activity>, e: Error)
    requires Raise(e) in FlatMap(ms, ActivityNoteSteps)
    ensures e == KeyError
    ensures exists a, n :: a in ms && a.footnotes.Some? && n in a.footnotes.value && n.days.None?
  {
    FlatMapMembers(ms, ActivityNoteSteps, Raise(e));
    var a :| a in ms && Raise(e) in ActivityNoteSteps(a);
    FlatMapMembers(a.footnotes.value, NoteSteps, Raise(e));
    var n :| n in a.footnotes.value && Raise(e) in NoteSteps(n);
    var j :| 0 <= j < |NoteSteps(n)| && NoteSteps(n)[j] == Raise(e);
  }

  /** extract_footnotes fails with IndexError, or with KeyError when a
      footnote of a matching activity has no "days". */
  lemma NotesFailure(p: Period, caption: string)
    ensures Notes(p, caption).Err? ==>
      (Notes(p, caption).error == IndexError ||
       (Notes(p, caption).error == KeyError && exists a, n :: (a in Matching(p, caption, CurrentKinds) &&
         a.footnotes.Some? && n in a.footnotes.value && n.days.None?)))
  {
    var steps := NotePlan(p, caption);
    ApplyFailure(p, Repeat((false, ""), Days(p)), steps, AddSymbol);
    if Notes(p, caption).Err? && Notes(p, caption).error != IndexError {
      NoteRaises(Matching(p, caption, CurrentKinds), Notes(p, caption).error);
    }
  }

  /** The registry holds (symbol, text) of exactly the footnotes of the
      matching activities that list at least one day. */
  lemma RegistryMembers(ms: seq<Activity>, x: Entry)
    ensures x in FlatMap(ms, ActivityEntries) <==>
      exists a, n :: (a in ms && a.footnotes.Some? && n in a.footnotes.value && n.days.Some? &&
        DecodeDays(n.days.value) != [] && x == (n.symbol, n.text))
  {
    FlatMapMembers(ms, ActivityEntries, x);
    forall a | a in ms && a.footnotes.Some?
      ensures x in ActivityEntries(a) <==> exists n :: (n in a.footnotes.value && n.days.Some? &&
        DecodeDays(n.days.value) != [] && x == (n.symbol, n.text))
    {
      FlatMapMembers(a.footnotes.value, NoteEntries, x);
      forall n | n in a.footnotes.value && n.days.Some? && DecodeDays(n.days.value) != []
        ensures x in NoteEntries(n) <==> x == (n.symbol, n.text)
      {
        assert NoteEntries(n)[0] == (n.symbol, n.text);
      }
    }
  }

  // ---------------------------------------------------------------------
  // footnote_list: first entry per symbol
  // ---------------------------------------------------------------------

  /** An entry joins the list when it has a text and its symbol is new. */
  function Admit(kept: seq<Entry>, x: Entry): seq<Entry> {
    if x.0 !in Firsts(kept) && x.1 != "" then kept + [x] else kept
  }

  function KeepInto(kept: seq<Entry>, es: seq<Entry>): seq<Entry> {
    if es == [] then kept else Admit(KeepInto(kept, es[..|es| - 1]), es[|es| - 1])
  }

  /** The entries footnote_list keeps from a list of registrations. */
  function Keep(es: seq<Entry>): seq<Entry> {
    KeepInto([], es)
  }

  lemma {:induction false} KeepIntoConcat(kept: seq<Entry>, es1: seq<Entry>, es2: seq<Entry>)
    ensures KeepInto(kept, es1 + es2) == KeepInto(KeepInto(kept, es1), es2)
    decreases |es2|
  {
    if es2 == [] {
      assert es1 + es2 == es1;
    } else {
      var n := |es2| - 1;
      assert (es1 + es2)[..|es1 + es2| - 1] == es1 + es2[..n];
      KeepIntoConcat(kept, es1, es2[..n]);
    }
  }

  /** Only entries with a text are kept, each one taken from the registrations. */
  lemma {:induction false} KeepFrom(es: seq<Entry>, x: Entry)
    ensures x in Keep(es) ==> x in es && x.1 != ""
  {
    if es != [] {
      var n := |es| - 1;
      KeepFrom(es[..n], x);
      assert es == es[..n] + [es[n]];
    }
  }

  /** Every symbol registered with a text is kept. */
  lemma {:induction false} KeepCovers(es: seq<Entry>, x: Entry)
    ensures x in es && x.1 != "" ==> x.0 in Firsts(Keep(es))
  {
    if es != [] {
      var n := |es| - 1;
      var k := Keep(es[..n]);
      KeepCovers(es[..n], x);
      assert es == es[..n] + [es[n]];
      if x.0 in Firsts(k) {
        var j :| 0 <= j < |k| && k[j].0 == x.0;
        assert Keep(es)[j] == k[j];
      } else if x == es[n] && x.1 != "" {
        assert Keep(es) == k + [x];
        assert Firsts(Keep(es))[|k|] == x.0;
      }
    }
  }

  /** No symbol is kept twice. */
  lemma {:induction false} KeepDistinct(es: seq<Entry>)
    ensures NoDuplicates(Firsts(Keep(es)))
  {
    if es != [] {
      KeepDistinct(es[..|es| - 1]);
    }
  }

  /** es[k] is x, and no registration of x's symbol before it has a text. */
  predicate FirstWithText(es: seq<Entry>, k: int, x: Entry) {
    0 <= k < |es| && es[k] == x && forall j :: 0 <= j < k && es[j].0 == x.0 ==> es[j].1 == ""
  }

  /** A kept entry is the first registration of its symbol that has a text. */
  lemma {:induction false} KeepFirst(es: seq<Entry>, x: Entry)
    requires x in Keep(es)
    ensures exists k :: FirstWithText(es, k, x)
  {
    var n := |es| - 1;
    var pre := es[..n];
    if x in Keep(pre) {
      KeepFirst(pre, x);
      var k :| FirstWithText(pre, k, x);
      assert FirstWithText(es, k, x) by {
        assert forall j :: 0 <= j <= k ==> es[j] == pre[j];
      }
    } else {
      assert x == es[n] && x.0 !in Firsts(Keep(pre));
      forall j | 0 <= j < n && es[j].0 == x.0 ensures es[j].1 == "" {
        KeepCovers(pre, pre[j]);
      }
      assert FirstWithText(es, n, x);
    }
  }

  // ---------------------------------------------------------------------
  // footnote_list: sorting
  // ---------------------------------------------------------------------

  /** Python's ordering of strings: code point by code point, a proper
      prefix first. */
  predicate StrLe(a: string, b: string)
    decreases |a|
  {
    a == [] || (b != [] && (a[0] < b[0] || (a[0] == b[0] && StrLe(a[1..], b[1..]))))
  }

  lemma {:induction false} StrLeTotal(a: string, b: string)
    ensures StrLe(a, b) || StrLe(b, a)
    decreases |a|
  {
    if a != [] && b != [] && a[0] == b[0] {
      StrLeTotal(a[1..], b[1..]);
    }
  }

  predicate SortedBySymbol(s: seq<Entry>) {
    forall k :: 0 <= k < |s| - 1 ==> StrLe(s[k].0, s[k + 1].0)
  }

  predicate DistinctSymbols(s: seq<Entry>) {
    forall i, j :: 0 <= i < j < |s| ==> s[i].0 != s[j].0
  }

  function InsertEntry(x: Entry, s: seq<Entry>): (r: seq<Entry>)
    requires SortedBySymbol(s)
    ensures SortedBySymbol(r)
    ensures multiset(r) == multiset(s) + multiset{x}
    ensures |r| == |s| + 1 && (r[0] == x || (s != [] && r[0] == s[0]))
  {
    if s == [] || StrLe(x.0, s[0].0) then [x] + s
    else
      StrLeTotal(x.0, s[0].0);
      assert s == [s[0]] + s[1..];
      [s[0]] + InsertEntry(x, s[1..])
  }

  /** Inserting into the tail keeps the head's symbol out of it. */
  lemma InsertedAvoids(x: Entry, s: seq<Entry>, y: Entry)
    requires SortedBySymbol(s) && y.0 != x.0 && y.0 !in Firsts(s)
    ensures forall j :: 0 <= j < |InsertEntry(x, s)| ==> InsertEntry(x, s)[j].0 != y.0
  {
    var t := InsertEntry(x, s);
    forall j | 0 <= j < |t| ensures t[j].0 != y.0 {
      assert t[j] in multiset(t);
      if t[j] != x {
        var m :| 0 <= m < |s| && s[m] == t[j];
        assert Firsts(s)[m] == t[j].0;
      }
    }
  }

  lemma FirstsOfTail(x: Entry, s: seq<Entry>)
    requires s != [] && x.0 !in Firsts(s) && DistinctSymbols(s)
    ensures x.0 !in Firsts(s[1..]) && s[0].0 !in Firsts(s[1..]) && s[0].0 != x.0
  {
    assert Firsts(s)[0] == s[0].0;
    forall j | 0 <= j < |s| - 1 ensures Firsts(s[1..])[j] != x.0 && Firsts(s[1..])[j] != s[0].0 {
      assert Firsts(s)[j + 1] == s[j + 1].0;
    }
  }

  lemma {:induction false} InsertEntryDistinct(x: Entry, s: seq<Entry>)
    requires SortedBySymbol(s) && DistinctSymbols(s) && x.0 !in Firsts(s)
    ensures DistinctSymbols(InsertEntry(x, s))
  {
    var r := InsertEntry(x, s);
    if s == [] || StrLe(x.0, s[0].0) {
      forall j | 0 < j < |r| ensures r[j].0 != x.0 {
        assert r[j] == s[j - 1];
        assert Firsts(s)[j - 1] == r[j].0;
      }
    } else {
      FirstsOfTail(x, s);
      InsertEntryDistinct(x, s[1..]);
      InsertedAvoids(x, s[1..], s[0]);
    }
  }

  /** sorted() on the kept entries: with distinct symbols the symbol alone
      decides the order. */
  function SortBySymbol(s: seq<Entry>): (r: seq<Entry>)
    ensures SortedBySymbol(r)
    ensures multiset(r) == multiset(s)
  {
    if s == [] then []
    else
      assert s == [s[0]] + s[1..];
      InsertEntry(s[0], SortBySymbol(s[1..]))
  }

  lemma {:induction false} SortDistinct(s: seq<Entry>)
    requires DistinctSymbols(s)
    ensures DistinctSymbols(SortBySymbol(s))
  {
    if s != [] {
      assert s == [s[0]] + s[1..];
      var t := SortBySymbol(s[1..]);
      SortDistinct(s[1..]);
      forall j | 0 <= j < |t| ensures Firsts(t)[j] != s[0].0 {
        assert t[j] in multiset(s[1..]);
        var m :| 0 <= m < |s[1..]| && s[1..][m] == t[j];
        assert s[m + 1] == t[j];
      }
      InsertEntryDistinct(s[0], t);
    }
  }

  // ---------------------------------------------------------------------
  // footnote_list: the traversal
  // ---------------------------------------------------------------------

  /** A caption looked up in one period. */
  type Visit = (Period, string)

  /** For one caption, the visits of every period in order. */
  function PeriodVisits(periods: seq<Period>, c: string): (r: seq<Visit>)
    ensures |r| == |periods| && forall j :: 0 <= j < |periods| ==> r[j] == (periods[j], c)
  {
    seq(|periods|, j requires 0 <= j < |periods| => (periods[j], c))
  }

  function VisitsOf(periods: seq<Period>): string -> seq<Visit> {
    c => PeriodVisits(periods, c)
  }

  function Visits(periods: seq<Period>, captions: seq<string>): seq<Visit> {
    FlatMap(captions, VisitsOf(periods))
  }

  /** The captions footnote_list walks: intervals, then administrations,
      then procedures. */
  function AllCaptions(periods: seq<Period>): seq<string> {
    Unique(Captions(periods, Intervals)) + Unique(Captions(periods, Administrations)) +
      Unique(Captions(periods, Procedures))
  }

  /** The kept entries after a sequence of visits; the first failing
      extraction decides the exception. */
  function Collect(vs: seq<Visit>): Result<seq<Entry>> {
    if vs == [] then Ok([])
    else
      var v := vs[|vs| - 1];
      match Collect(vs[..|vs| - 1])
      case Err(e) => Err(e)
      case Ok(kept) =>
        match Notes(v.0, v.1)
        case Err(e) => Err(e)
        case Ok(nc) => Ok(KeepInto(kept, nc.registry))
  }

  /** footnote_list */
  function FootnoteListOf(periods: seq<Period>): Result<seq<Entry>> {
    match Collect(Visits(periods, AllCaptions(periods)))
    case Err(e) => Err(e)
    case Ok(kept) => Ok(SortBySymbol(kept))
  }

  /** The registrations of a sequence of visits, concatenated. */
  function Gather(vs: seq<Visit>): Result<seq<Entry>> {
    if vs == [] then Ok([])
    else
      var v := vs[|vs| - 1];
      match Gather(vs[..|vs| - 1])
      case Err(e) => Err(e)
      case Ok(es) =>
        match Notes(v.0, v.1)
        case Err(e) => Err(e)
        case Ok(nc) => Ok(es + nc.registry)
  }

  /** Keeping while walking is keeping from all registrations at once. */
  lemma {:induction false} CollectGather(vs: seq<Visit>)
    ensures Collect(vs).Ok? <==> Gather(vs).Ok?
    ensures Collect(vs).Err? ==> Collect(vs).error == Gather(vs).error
    ensures Collect(vs).Ok? ==> Collect(vs).value == Keep(Gather(vs).value)
  {
    if vs != [] {
      var n := |vs| - 1;
      CollectGather(vs[..n]);
      if Gather(vs[..n]).Ok? && Notes(vs[n].0, vs[n].1).Ok? {
        KeepIntoConcat([], Gather(vs[..n]).value, Notes(vs[n].0, vs[n].1).value.registry);
      }
    }
  }

  lemma {:induction false} CollectFailed(vs: seq<Visit>, more: seq<Visit>)
    requires Collect(vs).Err?
    ensures Collect(vs + more) == Collect(vs)
    decreases |more|
  {
    if more == [] {
      assert vs + more == vs;
    } else {
      var n := |more| - 1;
      assert (vs + more)[..|vs + more| - 1] == vs + more[..n];
      CollectFailed(vs, more[..n]);
    }
  }

  /** The inner loop: admit each registration in turn. */
  method AdmitAll(kept: seq<Entry>, es: seq<Entry>) returns (r: seq<Entry>)
    ensures r == KeepInto(kept, es)
  {
    r := kept;
    for j := 0 to |es|
      invariant r == KeepInto(kept, es[..j])
    {
      assert es[..j + 1][..j] == es[..j];
      if es[j].0 !in Firsts(r) && es[j].1 != "" {
        r := r + [es[j]];
      }
    }
    assert es[..|es|] == es;
  }

  /** One more visit: its registrations are admitted, or its failure is
      the outcome. */
  lemma CollectStep(vs: seq<Visit>, v: Visit, kept: seq<Entry>, nc: Result<NoteColumns>)
    requires Collect(vs) == Ok(kept) && Notes(v.0, v.1) == nc
    ensures nc.Err? ==> Collect(vs + [v]) == Err(nc.error)
    ensures nc.Ok? ==> Collect(vs + [v]) == Ok(KeepInto(kept, nc.value.registry))
  {
    assert (vs + [v])[..|vs|] == vs;
  }

  /** After a failure, later visits change nothing. */
  lemma CollectRest(before: seq<Visit>, mid: seq<Visit>, more: seq<Visit>)
    requires Collect(before + mid).Err?
    ensures Collect(before + (mid + more)) == Collect(before + mid)
  {
    CollectFailed(before + mid, more);
    assert before + mid + more == before + (mid + more);
  }

  lemma PeriodVisitsSplit(periods: seq<Period>, c: string, k: nat)
    requires k <= |periods|
    ensures PeriodVisits(periods, c) == PeriodVisits(periods[..k], c) + PeriodVisits(periods[k..], c)
  {
  }

  lemma PeriodVisitsSnoc(periods: seq<Period>, c: string, k: nat)
    requires k < |periods|
    ensures PeriodVisits(periods[..k + 1], c) == PeriodVisits(periods[..k], c) + [(periods[k], c)]
  {
  }

  /** One more period visited for the caption. */
  lemma CaptionVisitsSnoc(before: seq<Visit>, periods: seq<Period>, c: string, j: nat)
    requires j < |periods|
    ensures before + PeriodVisits(periods[..j + 1], c) == (before + PeriodVisits(periods[..j], c)) + [(periods[j], c)]
  {
    PeriodVisitsSnoc(periods, c, j);
  }

  /** A failure at period j is the outcome of the whole caption. */
  lemma CaptionFails(before: seq<Visit>, periods: seq<Period>, c: string, j: nat)
    requires j < |periods| && Collect(before + PeriodVisits(periods[..j + 1], c)).Err?
    ensures Collect(before + PeriodVisits(periods, c)) == Collect(before + PeriodVisits(periods[..j + 1], c))
  {
    PeriodVisitsSplit(periods, c, j + 1);
    CollectRest(before, PeriodVisits(periods[..j + 1], c), PeriodVisits(periods[j + 1..], c));
  }

  /** The loop over the periods for one caption. */
  method CollectCaption(periods: seq<Period>, c: string, kept: seq<Entry>, ghost before: seq<Visit>)
      returns (r: Result<seq<Entry>>)
    requires Collect(before) == Ok(kept)
    ensures r == Collect(before + PeriodVisits(periods, c))
  {
    ghost var done := before;
    var fn := kept;
    assert PeriodVisits(periods[..0], c) == [];
    for j := 0 to |periods|
      invariant done == before + PeriodVisits(periods[..j], c)
      invariant Collect(done) == Ok(fn)
    {
      var nc := ExtractFootnotes(periods[j], c);
      CollectStep(done, (periods[j], c), fn, nc);
      CaptionVisitsSnoc(before, periods, c, j);
      done := done + [(periods[j], c)];
      if nc.Err? {
        CaptionFails(before, periods, c, j);
        return Err(nc.error);
      }
      fn := AdmitAll(fn, nc.value.registry);
    }
    assert periods[..|periods|] == periods;
    return Ok(fn);
  }

  /** One more caption: its visits follow those of the captions before. */
  lemma CaptionsSnoc(periods: seq<Period>, cpt: seq<string>, ci: nat)
    requires ci < |cpt|
    ensures Visits(periods, cpt[..ci + 1]) == Visits(periods, cpt[..ci]) + PeriodVisits(periods, cpt[ci])
  {
    FlatMapSnoc(cpt, ci, VisitsOf(periods));
  }

  /** A failure within caption ci is the outcome of the whole traversal. */
  lemma CaptionsFail(periods: seq<Period>, cpt: seq<string>, ci: nat)
    requires ci < |cpt| && Collect(Visits(periods, cpt[..ci + 1])).Err?
    ensures Collect(Visits(periods, cpt)) == Collect(Visits(periods, cpt[..ci + 1]))
  {
    CollectFailed(Visits(periods, cpt[..ci + 1]), Visits(periods, cpt[ci + 1..]));
    assert cpt == cpt[..ci + 1] + cpt[ci + 1..];
    FlatMapConcat(cpt[..ci + 1], cpt[ci + 1..], VisitsOf(periods));
  }

  /** The loop over the captions. */
  method CollectCaptions(periods: seq<Period>, cpt: seq<string>) returns (r: Result<seq<Entry>>)
    ensures r == Collect(Visits(periods, cpt))
  {
    var fn: seq<Entry> := [];
    for ci := 0 to |cpt|
      invariant Collect(Visits(periods, cpt[..ci])) == Ok(fn)
    {
      CaptionsSnoc(periods, cpt, ci);
      var res := CollectCaption(periods, cpt[ci], fn, Visits(periods, cpt[..ci]));
      if res.Err? {
        CaptionsFail(periods, cpt, ci);
        return Err(res.error);
      }
      fn := res.value;
    }
    assert cpt[..|cpt|] == cpt;
    return Ok(fn);
  }

  /** footnote_list: the kept registrations of every caption in every
      period, sorted. */
  method FootnoteList(periods: seq<Period>) returns (r: Result<seq<Entry>>)
    ensures r == FootnoteListOf(periods)
  {
    var intervals := ItemNames(periods, Intervals);
    var administrations := ItemNames(periods, Administrations);
    var procedures := ItemNames(periods, Procedures);
    var fn := CollectCaptions(periods, intervals + administrations + procedures);
    if fn.Err? {
      return Err(fn.error);
    }
    return Ok(SortBySymbol(fn.value));
  }

  /** The footnote list is sorted by symbol, lists each symbol once, only
      with a text, and is an arrangement of the entries kept from all
      registrations: for each symbol, its first registration with a text. */
  lemma FootnoteListMeaning(periods: seq<Period>, r: seq<Entry>)
    requires FootnoteListOf(periods) == Ok(r)
    ensures SortedBySymbol(r) && DistinctSymbols(r)
    ensures Gather(Visits(periods, AllCaptions(periods))).Ok?
    ensures multiset(r) == multiset(Keep(Gather(Visits(periods, AllCaptions(periods))).value))
    ensures forall x :: x in r ==> x.1 != ""
  {
    var vs := Visits(periods, AllCaptions(periods));
    CollectGather(vs);
    var es := Gather(vs).value;
    var kept := Keep(es);
    KeepDistinct(es);
    SortDistinct(kept);
    assert DistinctSymbols(kept) by {
      forall i, j | 0 <= i < j < |kept| ensures kept[i].0 != kept[j].0 {
        assert Firsts(kept)[i] == kept[i].0 && Firsts(kept)[j] == kept[j].0;
      }
    }
    forall x | x in r ensures x.1 != "" {
      assert x in multiset(kept);
      KeepFrom(es, x);
    }
  }
}
