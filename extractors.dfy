// The extractors of one period: the per-day entries of a procedure, its
// labels, an arbitrary field, the day labels and shadings of the period and
// the symbol drawn on each day. Each is a function giving its meaning and a
// method that fills the list in place, proved equal to it.

module Extractors {
  import opened Schema
  import opened Lists
  import opened DayList
  import opened Times
  import opened Extract

  // ---------------------------------------------------------------------
  // extract_procedure
  // ---------------------------------------------------------------------

  /** The hours of an activity: its "times", two doses at hour 0 for the
      "rich" frequency, otherwise one. */
  function TimesOf(a: Activity): seq<int> {
    if a.times.Some? then a.times.value
    else if a.freq == Some("rich") then [0, 0]
    else [0]
  }

  /** The reference day of an activity's time scale, day 1 by default. */
  function RelativeOf(a: Activity): int {
    if a.relative.Some? then a.relative.value else 1
  }

  /** The entries for a list of days sharing hours and reference day. */
  function Entries(ds: seq<int>, t: seq<int>, rel: int): seq<TimedDay> {
    seq(|ds|, k requires 0 <= k < |ds| => TimedDay(ds[k], t, rel))
  }

  /** One entry per listed day of an activity. */
  function EntriesOf(a: Activity): seq<TimedDay> {
    if a.days.None? then [] else Entries(DecodeDays(a.days.value), TimesOf(a), RelativeOf(a))
  }

  /** Every activity of the list gives its days. */
  predicate Dated(ms: seq<Activity>) {
    forall a :: a in ms ==> a.days.Some?
  }

  /** extract_procedure: the entries of every matching activity, in
      traversal order; an activity without "days" raises KeyError. */
  function Procedure(p: Period, caption: string, kinds: seq<Kind>): Result<seq<TimedDay>> {
    var ms := Matching(p, caption, kinds);
    if Dated(ms) then Ok(FlatMap(ms, EntriesOf)) else Err(KeyError)
  }

  method ExtractProcedure(p: Period, caption: string, kinds: seq<Kind>) returns (r: Result<seq<TimedDay>>)
    ensures r == Procedure(p, caption, kinds)
  {
    var ms := Matching(p, caption, kinds);
    var out: seq<TimedDay> := [];
    for k := 0 to |ms|
      invariant out == FlatMap(ms[..k], EntriesOf)
      invariant Dated(ms[..k])
    {
      var a := ms[k];
      if a.days.None? {
        assert a in ms && !Dated(ms);
        return Err(KeyError);
      }
      var ds := DecodeDaylist(a.days.value);
      ProcedureSnoc(ms, k);
      out := out + Entries(ds, TimesOf(a), RelativeOf(a));
    }
    assert ms[..|ms|] == ms;
    return Ok(out);
  }

  /** One more dated activity: its entries follow those before. */
  lemma ProcedureSnoc(ms: seq<Activity>, k: nat)
    requires k < |ms| && Dated(ms[..k]) && ms[k].days.Some?
    ensures Dated(ms[..k + 1])
    ensures FlatMap(ms[..k + 1], EntriesOf) == FlatMap(ms[..k], EntriesOf) + EntriesOf(ms[k])
  {
    FlatMapSnoc(ms, k, EntriesOf);
    assert ms[..k + 1] == ms[..k] + [ms[k]];
  }

  /** The extraction fails exactly when an activity with the caption under
      one of the keys has no "days". */
  lemma ProcedureFailure(p: Period, caption: string, kinds: seq<Kind>)
    ensures Procedure(p, caption, kinds).Err? <==>
      exists a: Activity :: (a.caption == caption &&
        (exists k :: k in kinds && a in ActivitiesOf(p, k)) && a.days.None?)
  {
    forall a: Activity {
      MatchingMembers(p, caption, kinds, a);
    }
  }

  /** An entry is a listed day of a matching activity, with that
      activity's hours and reference day. */
  lemma ProcedureEntries(p: Period, caption: string, kinds: seq<Kind>, es: seq<TimedDay>, e: TimedDay)
    requires Procedure(p, caption, kinds) == Ok(es)
    ensures e in es <==>
      exists a :: (a in Matching(p, caption, kinds) && a.days.Some? &&
        e.day in DecodeDays(a.days.value) && e.times == TimesOf(a) && e.relative == RelativeOf(a))
  {
    var ms := Matching(p, caption, kinds);
    FlatMapMembers(ms, EntriesOf, e);
    forall a | a in ms && a.days.Some?
      ensures e in EntriesOf(a) <==>
        e.day in DecodeDays(a.days.value) && e.times == TimesOf(a) && e.relative == RelativeOf(a)
    {
      var ds := DecodeDays(a.days.value);
      if e.day in ds && e.times == TimesOf(a) && e.relative == RelativeOf(a) {
        var k :| 0 <= k < |ds| && ds[k] == e.day;
        assert EntriesOf(a)[k] == e;
      }
    }
  }

  // ---------------------------------------------------------------------
  // extract_labels
  // ---------------------------------------------------------------------

  function Min(a: nat, b: nat): nat {
    if a <= b then a else b
  }

  /** The label writes of one activity: its days paired with its labels
      (the shorter list decides), or the first label at its start day. */
  function LabelSteps(a: Activity): seq<Step<string>> {
    if a.labels.None? then []
    else if a.days.Some? then
      var ds := DecodeDays(a.days.value);
      var ls := a.labels.value;
      var n := Min(|ds|, |ls|);
      seq(n, k requires 0 <= k < n => Put(ds[k], ls[k]))
    else if a.start.Some? && a.duration.Some? then
      if a.labels.value == [] then [Raise(IndexError)] else [Put(a.start.value, a.labels.value[0])]
    else []
  }

  function LabelPlan(p: Period, caption: string): seq<Step<string>> {
    FlatMap(Matching(p, caption, CurrentKinds), LabelSteps)
  }

  /** extract_labels */
  function Labels(p: Period, caption: string): Result<seq<string>> {
    Apply(p, Repeat("", Days(p)), LabelPlan(p, caption), Replace)
  }

  method ExtractLabels(p: Period, caption: string) returns (r: Result<seq<string>>)
    ensures r == Labels(p, caption)
  {
    var a := Filled("", Days(p));
    var err := IterateOverProcedures(p, caption, CurrentKinds, a, LabelSteps, Replace);
    r := if err.None? then Ok(a[..]) else Err(err.value);
  }

  /** Each day column carries the last label written for it, or "" when
      none was. */
  lemma LabelsCells(p: Period, caption: string, i: nat)
    requires i < Days(p) && Labels(p, caption).Ok?
    ensures |Labels(p, caption).value| == Days(p)
    ensures Labels(p, caption).value[i] == LastOr("", Covering(p, LabelPlan(p, caption), i))
  {
    ReplaceCells(p, Repeat("", Days(p)), LabelPlan(p, caption), i);
  }

  /** The label writes of an activity raise only IndexError. */
  lemma LabelRaises(ms: seq<Activity>, e: Error)
    requires Raise(e) in FlatMap(ms, LabelSteps)
    ensures e == IndexError
  {
    FlatMapMembers(ms, LabelSteps, Raise(e));
    var a :| a in ms && Raise(e) in LabelSteps(a);
    var j :| 0 <= j < |LabelSteps(a)| && LabelSteps(a)[j] == Raise(e);
  }

  /** The only exception the labels raise is IndexError: a day outside the
      period, or an empty label list placed by start day. */
  lemma LabelsFailure(p: Period, caption: string)
    ensures Labels(p, caption).Err? ==> Labels(p, caption).error == IndexError
  {
    var steps := LabelPlan(p, caption);
    ApplyFailure(p, Repeat("", Days(p)), steps, Replace);
    if Labels(p, caption).Err? && Labels(p, caption).error != IndexError {
      LabelRaises(Matching(p, caption, CurrentKinds), Labels(p, caption).error);
    }
  }

  // ---------------------------------------------------------------------
  // extract_field
  // ---------------------------------------------------------------------

  /** The value of an activity under a key, "" when absent. */
  function FieldOf(a: Activity, field: string): FieldValue {
    if field in a.fields then a.fields[field] else Blank
  }

  /** The writes of one activity: its value on each listed day. */
  function FieldSteps(a: Activity, field: string): seq<Step<FieldValue>> {
    if a.days.None? then [Raise(KeyError)]
    else Puts(DecodeDays(a.days.value), _ => FieldOf(a, field))
  }

  function FieldPlanOf(field: string): Activity -> seq<Step<FieldValue>> {
    a => FieldSteps(a, field)
  }

  function FieldPlan(p: Period, caption: string, field: string, kinds: seq<Kind>): seq<Step<FieldValue>> {
    FlatMap(Matching(p, caption, kinds), FieldPlanOf(field))
  }

  /** extract_field, over the given key order. */
  function Field(p: Period, caption: string, field: string, kinds: seq<Kind>): Result<seq<FieldValue>> {
    Apply(p, Repeat(Blank, Days(p)), FieldPlan(p, caption, field, kinds), Replace)
  }

  method ExtractField(p: Period, caption: string, field: string, kinds: seq<Kind>) returns (r: Result<seq<FieldValue>>)
    ensures r == Field(p, caption, field, kinds)
  {
    var a := Filled(Blank, Days(p));
    var err := IterateOverProcedures(p, caption, kinds, a, FieldPlanOf(field), Replace);
    r := if err.None? then Ok(a[..]) else Err(err.value);
  }

  /** Each day column carries the value of the last activity writing it,
      or "" when none does. */
  lemma FieldCells(p: Period, caption: string, field: string, kinds: seq<Kind>, i: nat)
    requires i < Days(p) && Field(p, caption, field, kinds).Ok?
    ensures |Field(p, caption, field, kinds).value| == Days(p)
    ensures Field(p, caption, field, kinds).value[i] == LastOr(Blank, Covering(p, FieldPlan(p, caption, field, kinds), i))
  {
    ReplaceCells(p, Repeat(Blank, Days(p)), FieldPlan(p, caption, field, kinds), i);
  }

  /** A write of the field plan comes from a dated activity of the list,
      at one of its days, with its value of the field. */
  lemma FieldStepFrom(ms: seq<Activity>, field: string, s: Step<FieldValue>)
    requires s in FlatMap(ms, FieldPlanOf(field)) && s.Put?
    ensures exists a :: a in ms && a.days.Some? && s.day in DecodeDays(a.days.value) && s.value == FieldOf(a, field)
  {
    FlatMapMembers(ms, FieldPlanOf(field), s);
    var a :| a in ms && s in FieldSteps(a, field);
    var ds := DecodeDays(a.days.value);
    var j :| 0 <= j < |ds| && FieldSteps(a, field)[j] == s;
    assert ds[j] in ds;
  }

  /** A non-blank cell holds the value of a matching activity that lists a
      day of that column. */
  lemma FieldFrom(p: Period, caption: string, field: string, kinds: seq<Kind>, r: seq<FieldValue>, i: nat)
    requires Field(p, caption, field, kinds) == Ok(r) && i < Days(p) && i < |r|
    requires r[i] != Blank
    ensures exists a, d :: (a in Matching(p, caption, kinds) && a.days.Some? && d in DecodeDays(a.days.value) &&
      DayIndex(p, d) == Ok(i) && field in a.fields && r[i] == a.fields[field])
  {
    var steps := FieldPlan(p, caption, field, kinds);
    ReplacedFrom(p, Repeat(Blank, Days(p)), steps, i, r);
    var s :| s in steps && s.Put? && DayIndex(p, s.day) == Ok(i) && s.value == r[i];
    FieldStepFrom(Matching(p, caption, kinds), field, s);
  }

  /** The field writes of an activity raise only KeyError, for an activity without days. */
  lemma FieldRaises(ms: seq<Activity>, field: string, e: Error)
    requires Raise(e) in FlatMap(ms, FieldPlanOf(field))
    ensures e == KeyError && exists a :: a in ms && a.days.None?
  {
    FlatMapMembers(ms, FieldPlanOf(field), Raise(e));
    var a :| a in ms && Raise(e) in FieldSteps(a, field);
    var j :| 0 <= j < |FieldSteps(a, field)| && FieldSteps(a, field)[j] == Raise(e);
  }

  /** The field extraction fails with IndexError, or with KeyError when a
      matching activity has no "days". */
  lemma FieldFailure(p: Period, caption: string, field: string, kinds: seq<Kind>)
    ensures Field(p, caption, field, kinds).Err? ==>
      Field(p, caption, field, kinds).error == IndexError ||
      (Field(p, caption, field, kinds).error == KeyError && !Dated(Matching(p, caption, kinds)))
  {
    var steps := FieldPlan(p, caption, field, kinds);
    ApplyFailure(p, Repeat(Blank, Days(p)), steps, Replace);
    if Field(p, caption, field, kinds).Err? && Field(p, caption, field, kinds).error != IndexError {
      FieldRaises(Matching(p, caption, kinds), field, Field(p, caption, field, kinds).error);
    }
  }

  // ---------------------------------------------------------------------
  // day_labels, day_shadings
  // ---------------------------------------------------------------------

  /** The days a period field lists, none when the field is absent. */
  function Listed(f: Option<DayField>): seq<int> {
    if f.None? then [] else DecodeDays(f.value)
  }

  /** The label of a listed day is its own number. */
  function Numbered(d: int): Option<int> {
    Some(d)
  }

  /** day_labels: each listed day's number in its column; None stands for "". */
  function DayLabels(p: Period): Result<seq<Option<int>>> {
    Apply(p, Repeat(None, Days(p)), Puts(Listed(p.daylabels), Numbered), Replace)
  }

  method ComputeDayLabels(p: Period) returns (r: Result<seq<Option<int>>>)
    ensures r == DayLabels(p)
  {
    var a := Filled(None, Days(p));
    var ds: seq<int> := [];
    if p.daylabels.Some? {
      ds := DecodeDaylist(p.daylabels.value);
    }
    var err := WriteSteps(p, a, Puts(ds, Numbered), Replace);
    r := if err.None? then Ok(a[..]) else Err(err.value);
  }

  /** The day labels succeed exactly when every listed day lies in the period. */
  lemma DayLabelsOutcome(p: Period)
    ensures DayLabels(p).Ok? <==> forall d :: d in Listed(p.daylabels) ==> DayIndex(p, d).Ok?
  {
    ApplyOutcome(p, Repeat(None, Days(p)), Puts(Listed(p.daylabels), Numbered), Replace);
    PutsLand(p, Days(p), Listed(p.daylabels), Numbered);
  }

  /** A column shows a number exactly when a listed day falls in it, and
      that number is a listed day of the column. */
  lemma DayLabelsCells(p: Period, i: nat)
    requires i < Days(p) && DayLabels(p).Ok?
    ensures |DayLabels(p).value| == Days(p)
    ensures DayLabels(p).value[i].Some? <==> exists d :: d in Listed(p.daylabels) && DayIndex(p, d) == Ok(i)
    ensures DayLabels(p).value[i].Some? ==>
      DayLabels(p).value[i].value in Listed(p.daylabels) && DayIndex(p, DayLabels(p).value[i].value) == Ok(i)
  {
    var ds := Listed(p.daylabels);
    var steps := Puts(ds, Numbered);
    ReplaceCells(p, Repeat(None, Days(p)), steps, i);
    var c := Covering(p, steps, i);
    if c != [] {
      PutsCovering(p, ds, Numbered, i, c[|c| - 1]);
    }
    if exists d :: d in ds && DayIndex(p, d) == Ok(i) {
      var d :| d in ds && DayIndex(p, d) == Ok(i);
      PutsCovering(p, ds, Numbered, i, Some(d));
    }
  }

  function Shaded(d: int): bool {
    true
  }

  /** day_shadings: the columns of the listed days are shaded. */
  function DayShadings(p: Period): Result<seq<bool>> {
    Apply(p, Repeat(false, Days(p)), Puts(Listed(p.dayshading), Shaded), Replace)
  }

  method ComputeDayShadings(p: Period) returns (r: Result<seq<bool>>)
    ensures r == DayShadings(p)
  {
    var a := Filled(false, Days(p));
    var ds: seq<int> := [];
    if p.dayshading.Some? {
      ds := DecodeDaylist(p.dayshading.value);
    }
    var err := WriteSteps(p, a, Puts(ds, Shaded), Replace);
    r := if err.None? then Ok(a[..]) else Err(err.value);
  }

  /** The shadings succeed exactly when every listed day lies in the period. */
  lemma DayShadingsOutcome(p: Period)
    ensures DayShadings(p).Ok? <==> forall d :: d in Listed(p.dayshading) ==> DayIndex(p, d).Ok?
  {
    ApplyOutcome(p, Repeat(false, Days(p)), Puts(Listed(p.dayshading), Shaded), Replace);
    PutsLand(p, Days(p), Listed(p.dayshading), Shaded);
  }

  /** A column is shaded exactly when a listed day falls in it. */
  lemma DayShadingsCells(p: Period, i: nat)
    requires i < Days(p) && DayShadings(p).Ok?
    ensures |DayShadings(p).value| == Days(p)
    ensures DayShadings(p).value[i] <==> exists d :: d in Listed(p.dayshading) && DayIndex(p, d) == Ok(i)
  {
    var ds := Listed(p.dayshading);
    var steps := Puts(ds, Shaded);
    ReplaceCells(p, Repeat(false, Days(p)), steps, i);
    var c := Covering(p, steps, i);
    if c != [] {
      PutsCovering(p, ds, Shaded, i, c[|c| - 1]);
    }
    if exists d :: d in ds && DayIndex(p, d) == Ok(i) {
      PutsCovering(p, ds, Shaded, i, true);
    }
  }

  // ---------------------------------------------------------------------
  // procedure_symbols
  // ---------------------------------------------------------------------

  /** `[""] * (duration + 1)`: one spare slot after the last day. */
  function SymbolSlots(p: Period): nat {
    if p.duration + 1 < 0 then 0 else p.duration + 1
  }

  /** A day with several doses is drawn as a block. */
  function SymbolOf(e: TimedDay, default: string): string {
    if |e.times| > 1 then "block" else default
  }

  function SymbolSteps(es: seq<TimedDay>, default: string): seq<Step<string>> {
    seq(|es|, k requires 0 <= k < |es| => Put(es[k].day, SymbolOf(es[k], default)))
  }

  /** procedure_symbols: the symbol of each normalised day in its column. */
  function Symbols(p: Period, caption: string, default: string, kinds: seq<Kind>): Result<seq<string>> {
    match Procedure(p, caption, kinds)
    case Err(e) => Err(e)
    case Ok(es) => Apply(p, Repeat("", SymbolSlots(p)), SymbolSteps(Normalized(es), default), Replace)
  }

  method ProcedureSymbols(p: Period, caption: string, default: string, kinds: seq<Kind>) returns (r: Result<seq<string>>)
    ensures r == Symbols(p, caption, default, kinds)
  {
    var pr := ExtractProcedure(p, caption, kinds);
    if pr.Err? {
      return Err(pr.error);
    }
    var es := Normalize(pr.value);
    var a := Filled("", SymbolSlots(p));
    var err := WriteSteps(p, a, SymbolSteps(es, default), Replace);
    r := if err.None? then Ok(a[..]) else Err(err.value);
  }

  /** The symbol in a column is that of the last normalised day falling
      in it; the spare slot after the last day stays empty. */
  lemma SymbolsCells(p: Period, caption: string, default: string, kinds: seq<Kind>, i: nat)
    requires i < SymbolSlots(p) && Symbols(p, caption, default, kinds).Ok?
    ensures |Symbols(p, caption, default, kinds).value| == SymbolSlots(p)
    ensures Symbols(p, caption, default, kinds).value[i] ==
      LastOr("", Covering(p, SymbolSteps(Normalized(Procedure(p, caption, kinds).value), default), i))
    ensures i == p.duration ==> Symbols(p, caption, default, kinds).value[i] == ""
  {
    var steps := SymbolSteps(Normalized(Procedure(p, caption, kinds).value), default);
    ReplaceCells(p, Repeat("", SymbolSlots(p)), steps, i);
    if i == p.duration && Covering(p, steps, i) != [] {
      LastWritten(p, steps, i, "");
    }
  }

  /** With a visible default symbol, a column shows a symbol exactly when a
      day of es falls in it, and a block only for a day with several hours. */
  lemma SymbolsFrom(p: Period, n: nat, es: seq<TimedDay>, default: string, r: seq<string>, i: nat)
    requires default != "" && default != "block"
    requires Apply(p, Repeat("", n), SymbolSteps(es, default), Replace) == Ok(r) && i < n
    ensures |r| == n
    ensures r[i] in {"", "block", default}
    ensures r[i] != "" <==> exists e :: e in es && DayIndex(p, e.day) == Ok(i)
    ensures r[i] == "block" ==> exists e :: e in es && DayIndex(p, e.day) == Ok(i) && |e.times| > 1
  {
    var steps := SymbolSteps(es, default);
    ReplacedFrom(p, Repeat("", n), steps, i, r);
    if r[i] != "" {
      var s :| s in steps && s.Put? && DayIndex(p, s.day) == Ok(i) && s.value == r[i];
      var k :| 0 <= k < |steps| && steps[k] == s;
      assert es[k] in es;
    }
    if exists e :: e in es && DayIndex(p, e.day) == Ok(i) {
      var e :| e in es && DayIndex(p, e.day) == Ok(i);
      var k :| 0 <= k < |es| && es[k] == e;
      assert steps[k] == Put(e.day, SymbolOf(e, default));
      CoveringMembers(p, steps, i, SymbolOf(e, default));
      ReplaceCells(p, Repeat("", n), steps, i);
      LastWritten(p, steps, i, "");
    }
  }

  /** procedure_symbols with a visible default symbol: a column shows a
      symbol exactly when a normalised day of the procedure falls in it,
      and a block only for a day with several hours. */
  lemma SymbolsMeaning(p: Period, caption: string, default: string, kinds: seq<Kind>, r: seq<string>, i: nat)
    requires default != "" && default != "block"
    requires Symbols(p, caption, default, kinds) == Ok(r) && i < SymbolSlots(p)
    ensures |r| == SymbolSlots(p)
    ensures r[i] in {"", "block", default}
    ensures r[i] != "" <==>
      exists e :: e in Normalized(Procedure(p, caption, kinds).value) && DayIndex(p, e.day) == Ok(i)
    ensures r[i] == "block" ==>
      exists e :: e in Normalized(Procedure(p, caption, kinds).value) && DayIndex(p, e.day) == Ok(i) && |e.times| > 1
  {
    SymbolsFrom(p, SymbolSlots(p), Normalized(Procedure(p, caption, kinds).value), default, r, i);
  }
}
