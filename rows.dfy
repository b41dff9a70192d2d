// What one row of the schedule draws in one period: the marks of a
// procedure row, the boxes of an interval row and the dose labels of an
// administration's dose graph. Coordinates come from the day geometry of
// the Layout module; the SVG text itself is not modelled.

module Rows {
  import opened Schema
  import opened DayList
  import opened Extractors
  import opened Layout

  // ---------------------------------------------------------------------
  // render_procedure
  // ---------------------------------------------------------------------

  /** A small black dot (an elided day), an open or filled circle (a day
      carrying a value), or the procedure's symbol, possibly bracketed. */
  datatype Mark = Dot | Circle(filled: bool) | Symbol(name: string, bracketed: bool)

  /** A mark drawn centered at x in day column `day`. */
  datatype Glyph = Glyph(day: nat, x: real, mark: Mark)

  /** The lists render_procedure zips together, one entry per day column:
      day centers and widths, procedure_symbols, day_labels, and the
      "decoration" and "value" fields. */
  datatype ProcedureRow = ProcedureRow(
    centers: seq<real>,
    widths: seq<real>,
    symbols: seq<string>,
    labels: seq<Option<int>>,
    brackets: seq<FieldValue>,
    values: seq<FieldValue>)

  /** The zip stops at the shortest list; the ellipses list is as long as
      the shorter of symbols and labels. */
  function Columns(r: ProcedureRow): nat {
    Min(Min(Min(|r.centers|, |r.widths|), Min(|r.symbols|, |r.labels|)), Min(|r.brackets|, |r.values|))
  }

  /** The ellipses flag of a column: a symbol, no day label, and more than
      three entries in the symbol list. */
  function Elided(r: ProcedureRow, i: nat): bool
    requires i < |r.symbols| && i < |r.labels|
  {
    r.symbols[i] != "" && r.labels[i].None? && |r.symbols| > 3
  }

  /** The mark of a column with a symbol: the dot wins when ellipses are
      switched on, then a value, then the symbol itself. */
  function MarkOf(s: string, elided: bool, b: FieldValue, v: FieldValue, ellipsis: bool): Mark {
    if elided && b == Blank && ellipsis then Dot
    else if v != Blank then Circle(!IsZero(v))
    else Symbol(s, b == Str("bracketed"))
  }

  /** What column i draws: nothing without a symbol. */
  function GlyphAt(r: ProcedureRow, ellipsis: bool, i: nat): seq<Glyph>
    requires i < Columns(r)
  {
    if r.symbols[i] == "" then []
    else [Glyph(i, r.centers[i], MarkOf(r.symbols[i], Elided(r, i), r.brackets[i], r.values[i], ellipsis))]
  }

  function MarksUpTo(r: ProcedureRow, ellipsis: bool, k: nat): seq<Glyph>
    requires k <= Columns(r)
  {
    if k == 0 then [] else MarksUpTo(r, ellipsis, k - 1) + GlyphAt(r, ellipsis, k - 1)
  }

  /** The marks of a procedure row, left to right. */
  function Marks(r: ProcedureRow, ellipsis: bool): seq<Glyph> {
    MarksUpTo(r, ellipsis, Columns(r))
  }

  /** render_procedure: the ellipses list first, then one pass over the
      zipped columns. */
  method RenderProcedure(r: ProcedureRow, ellipsis: bool) returns (out: seq<Glyph>)
    ensures out == Marks(r, ellipsis)
  {
    var ellipses: seq<bool> := [];
    var m := Min(|r.symbols|, |r.labels|);
    for i := 0 to m
      invariant |ellipses| == i && forall j :: 0 <= j < i ==> ellipses[j] == Elided(r, j)
    {
      ellipses := ellipses + [r.symbols[i] != "" && r.labels[i].None? && |r.symbols| > 3];
    }
    out := [];
    var n := Columns(r);
    for i := 0 to n
      invariant out == MarksUpTo(r, ellipsis, i)
    {
      var s := r.symbols[i];
      if s != "" {
        var b, v := r.brackets[i], r.values[i];
        var mark;
        if ellipses[i] && b == Blank && ellipsis {
          mark := Dot;
        } else if v != Blank {
          mark := Circle(!IsZero(v));
        } else {
          mark := Symbol(s, b == Str("bracketed"));
        }
        out := out + [Glyph(i, r.centers[i], mark)];
      }
    }
  }

  /** A glyph of the first k columns is the one its column calls for. */
  predicate Drawn(r: ProcedureRow, ellipsis: bool, k: nat, g: Glyph)
    requires k <= Columns(r)
  {
    g.day < k && r.symbols[g.day] != "" && GlyphAt(r, ellipsis, g.day) == [g]
  }

  lemma {:induction false} MarksUpToMeaning(r: ProcedureRow, ellipsis: bool, k: nat)
    requires k <= Columns(r)
    ensures forall g :: g in MarksUpTo(r, ellipsis, k) <==> Drawn(r, ellipsis, k, g)
    ensures forall i, j :: 0 <= i < j < |MarksUpTo(r, ellipsis, k)| ==>
      MarksUpTo(r, ellipsis, k)[i].day < MarksUpTo(r, ellipsis, k)[j].day
  {
    if k > 0 {
      MarksUpToMeaning(r, ellipsis, k - 1);
      var prev := MarksUpTo(r, ellipsis, k - 1);
      assert MarksUpTo(r, ellipsis, k) == prev + GlyphAt(r, ellipsis, k - 1);
      forall g ensures g in MarksUpTo(r, ellipsis, k) <==> Drawn(r, ellipsis, k, g) {
        if g in GlyphAt(r, ellipsis, k - 1) {
          assert Drawn(r, ellipsis, k, g);
        }
        if Drawn(r, ellipsis, k, g) && g.day < k - 1 {
          assert Drawn(r, ellipsis, k - 1, g);
        }
      }
      forall i | 0 <= i < |prev| ensures prev[i].day < k - 1 {
        assert prev[i] in prev;
      }
    }
  }

  /** Every column with a symbol draws exactly one mark, in column order,
      at its center; the dot appears only on an unlabelled, undecorated day
      of a row of more than three entries with ellipses on; a day with a
      value draws a circle, open exactly when the value is 0; otherwise the
      symbol is drawn, bracketed exactly when decorated "bracketed". */
  lemma MarksMeaning(r: ProcedureRow, ellipsis: bool)
    ensures forall g :: g in Marks(r, ellipsis) <==>
      (g.day < Columns(r) && r.symbols[g.day] != "" && g.x == r.centers[g.day] &&
       g.mark == MarkOf(r.symbols[g.day], Elided(r, g.day), r.brackets[g.day], r.values[g.day], ellipsis))
    ensures forall i, j :: 0 <= i < j < |Marks(r, ellipsis)| ==> Marks(r, ellipsis)[i].day < Marks(r, ellipsis)[j].day
    ensures forall g :: g in Marks(r, ellipsis) ==>
      (g.mark == Dot <==> ellipsis && r.labels[g.day].None? && |r.symbols| > 3 && r.brackets[g.day] == Blank)
    ensures forall g :: g in Marks(r, ellipsis) && g.mark != Dot ==>
      (g.mark.Circle? <==> r.values[g.day] != Blank) &&
      (g.mark.Circle? ==> (g.mark.filled <==> !IsZero(r.values[g.day]))) &&
      (g.mark.Symbol? ==> g.mark == Symbol(r.symbols[g.day], r.brackets[g.day] == Str("bracketed")))
  {
    MarksUpToMeaning(r, ellipsis, Columns(r));
  }

  // ---------------------------------------------------------------------
  // render_dose_graph: dose labels
  // ---------------------------------------------------------------------

  /** The text of a dose, written below the graph at the left edge of its
      day: `dose` is the value as the schedule gives it, so its text is
      `str(dose)` and tells 2 from 2.0. */
  datatype DoseLabel = DoseLabel(day: nat, x: real, dose: FieldValue)

  /** The loop's state: the last numeric dose seen, where the last label
      ends, and the labels so far. */
  datatype DoseCursor = DoseCursor(lastdose: real, lastend: real, labels: seq<DoseLabel>)

  /** One column: a numeric dose that differs from the last one is
      labelled when the last label ends more than an "n" before the day
      starts; the last dose moves on either way. `width` measures a dose's
      text, `nw` is the width of "n". */
  function DoseStep(c: DoseCursor, day: nat, s: real, d: FieldValue, nw: real, width: FieldValue -> real): DoseCursor {
    if !d.Num? || d.x == c.lastdose then c
    else if c.lastend + nw < s then DoseCursor(d.x, s + width(d), c.labels + [DoseLabel(day, s, d)])
    else DoseCursor(d.x, c.lastend, c.labels)
  }

  function DoseRun(starts: seq<real>, doses: seq<FieldValue>, nw: real, width: FieldValue -> real, k: nat): DoseCursor
    requires k <= |starts| && k <= |doses|
  {
    if k == 0 then DoseCursor(0.0, 0.0, [])
    else DoseStep(DoseRun(starts, doses, nw, width, k - 1), k - 1, starts[k - 1], doses[k - 1], nw, width)
  }

  /** The dose labels of a row, over the zip of day starts and doses. */
  function DoseLabels(starts: seq<real>, doses: seq<FieldValue>, nw: real, width: FieldValue -> real): seq<DoseLabel> {
    DoseRun(starts, doses, nw, width, Min(|starts|, |doses|)).labels
  }

  /** What render_dose_graph decides for a row: its labels, or the
      ZeroDivisionError dosey raises at the first drawn dose of the zipped
      columns when the numeric doses are all equal. */
  function DoseGraph(starts: seq<real>, doses: seq<FieldValue>, nw: real, width: FieldValue -> real): Result<seq<DoseLabel>> {
    if DrawnDoses(doses[..Min(|starts|, |doses|)]) != [] && Flat(doses) then Err(ZeroDivisionError)
    else Ok(DoseLabels(starts, doses, nw, width))
  }

  /** render_dose_graph: the extremes of the numeric doses, then the
      collision cursor over the zipped day starts and doses. Each drawn
      dose goes through dosey before its label is considered. */
  method RenderDoseLabels(starts: seq<real>, doses: seq<FieldValue>, nw: real, width: FieldValue -> real)
    returns (r: Result<seq<DoseLabel>>)
    ensures r == DoseGraph(starts, doses, nw, width)
  {
    var flat := Flat(doses);
    var lastdose, lastend := 0.0, 0.0;
    var labels := [];
    var n := Min(|starts|, |doses|);
    for k := 0 to n
      invariant DoseRun(starts, doses, nw, width, k) == DoseCursor(lastdose, lastend, labels)
      invariant flat ==> DrawnDoses(doses[..k]) == []
    {
      var s, d := starts[k], doses[k];
      assert doses[..k + 1][..k] == doses[..k];
      if d.Num? {
        if flat {
          assert DrawnDoses(doses[..k + 1]) != [];
          DrawnPrefix(doses, k + 1, n);
          return Err(ZeroDivisionError);
        }
        if d.x != lastdose {
          if lastend + nw < s {
            labels := labels + [DoseLabel(k, s, d)];
            lastend := s + width(d);
          }
          lastdose := d.x;
        }
      }
    }
    return Ok(labels);
  }

  /** A drawn dose in a prefix is a drawn dose of any longer prefix. */
  lemma {:induction false} DrawnPrefix(ds: seq<FieldValue>, k: nat, n: nat)
    requires k <= n <= |ds| && DrawnDoses(ds[..k]) != []
    ensures DrawnDoses(ds[..n]) != []
    decreases n - k
  {
    if k < n {
      assert ds[..k + 1][..k] == ds[..k];
      DrawnPrefix(ds, k + 1, n);
    }
  }

  /** The last numeric dose of a list, 0 when there is none. */
  function PreviousDose(ds: seq<FieldValue>): real {
    if ds == [] then 0.0
    else if ds[|ds| - 1].Num? then ds[|ds| - 1].x
    else PreviousDose(ds[..|ds| - 1])
  }

  /** Labels are in day order and sit at the left edge of a day whose
      dose differs from the last numeric dose before it; each label ends
      more than an "n" before the next one starts. */
  predicate Spaced(starts: seq<real>, doses: seq<FieldValue>, nw: real, width: FieldValue -> real, k: nat, ls: seq<DoseLabel>)
    requires k <= |starts| && k <= |doses|
  {
    (forall i :: 0 <= i < |ls| ==>
      ls[i].day < k && starts[ls[i].day] == ls[i].x && doses[ls[i].day] == ls[i].dose &&
      ls[i].dose.Num? && ls[i].dose.x != PreviousDose(doses[..ls[i].day])) &&
    (forall i :: 0 <= i < |ls| - 1 ==>
      ls[i].day < ls[i + 1].day && ls[i].x + width(ls[i].dose) + nw < ls[i + 1].x)
  }

  lemma {:induction false} DoseRunLastDose(starts: seq<real>, doses: seq<FieldValue>, nw: real, width: FieldValue -> real, k: nat)
    requires k <= |starts| && k <= |doses|
    ensures DoseRun(starts, doses, nw, width, k).lastdose == PreviousDose(doses[..k])
  {
    if k > 0 {
      DoseRunLastDose(starts, doses, nw, width, k - 1);
      assert doses[..k][..k - 1] == doses[..k - 1];
    }
  }

  /** Spacing survives one more column without a label... */
  lemma SpacedGrow(starts: seq<real>, doses: seq<FieldValue>, nw: real, width: FieldValue -> real, k: nat, ls: seq<DoseLabel>)
    requires k < |starts| && k < |doses| && Spaced(starts, doses, nw, width, k, ls)
    ensures Spaced(starts, doses, nw, width, k + 1, ls)
  {
  }

  /** ... and with a label at a dose change that starts past the last one's end. */
  lemma SpacedSnoc(starts: seq<real>, doses: seq<FieldValue>, nw: real, width: FieldValue -> real, k: nat, ls: seq<DoseLabel>, lastend: real)
    requires k < |starts| && k < |doses| && Spaced(starts, doses, nw, width, k, ls)
    requires ls != [] ==> lastend == ls[|ls| - 1].x + width(ls[|ls| - 1].dose)
    requires doses[k].Num? && doses[k].x != PreviousDose(doses[..k]) && lastend + nw < starts[k]
    ensures Spaced(starts, doses, nw, width, k + 1, ls + [DoseLabel(k, starts[k], doses[k])])
  {
  }

  /** The cursor's end is where its last label's text ends. */
  predicate EndsAtLast(c: DoseCursor, width: FieldValue -> real) {
    (c.labels == [] ==> c.lastend == 0.0) &&
    (c.labels != [] ==> c.lastend == c.labels[|c.labels| - 1].x + width(c.labels[|c.labels| - 1].dose))
  }

  /** One column keeps the cursor's labels spaced and its end in place. */
  lemma DoseStepSpaced(starts: seq<real>, doses: seq<FieldValue>, nw: real, width: FieldValue -> real, k: nat, c: DoseCursor)
    requires k < |starts| && k < |doses|
    requires EndsAtLast(c, width) && Spaced(starts, doses, nw, width, k, c.labels)
    requires c.lastdose == PreviousDose(doses[..k])
    ensures var c' := DoseStep(c, k, starts[k], doses[k], nw, width);
      EndsAtLast(c', width) && Spaced(starts, doses, nw, width, k + 1, c'.labels)
  {
    var c' := DoseStep(c, k, starts[k], doses[k], nw, width);
    if c'.labels == c.labels {
      SpacedGrow(starts, doses, nw, width, k, c.labels);
    } else {
      SpacedSnoc(starts, doses, nw, width, k, c.labels, c.lastend);
    }
  }

  /** DoseStepSpaced at the cursor the loop has reached. */
  lemma DoseRunStepSpaced(starts: seq<real>, doses: seq<FieldValue>, nw: real, width: FieldValue -> real, k: nat)
    requires k < |starts| && k < |doses|
    requires EndsAtLast(DoseRun(starts, doses, nw, width, k), width)
    requires Spaced(starts, doses, nw, width, k, DoseRun(starts, doses, nw, width, k).labels)
    ensures EndsAtLast(DoseRun(starts, doses, nw, width, k + 1), width)
    ensures Spaced(starts, doses, nw, width, k + 1, DoseRun(starts, doses, nw, width, k + 1).labels)
  {
    DoseRunLastDose(starts, doses, nw, width, k);
    DoseStepSpaced(starts, doses, nw, width, k, DoseRun(starts, doses, nw, width, k));
  }

  lemma {:induction false} DoseRunSpaced(starts: seq<real>, doses: seq<FieldValue>, nw: real, width: FieldValue -> real, k: nat)
    requires k <= |starts| && k <= |doses|
    ensures EndsAtLast(DoseRun(starts, doses, nw, width, k), width)
    ensures Spaced(starts, doses, nw, width, k, DoseRun(starts, doses, nw, width, k).labels)
  {
    if k > 0 {
      DoseRunSpaced(starts, doses, nw, width, k - 1);
      DoseRunStepSpaced(starts, doses, nw, width, k - 1);
    }
  }

  /** The labels of a dose row mark dose changes only, in day order, and
      never overlap one another. */
  lemma DoseLabelsMeaning(starts: seq<real>, doses: seq<FieldValue>, nw: real, width: FieldValue -> real)
    ensures Spaced(starts, doses, nw, width, Min(|starts|, |doses|), DoseLabels(starts, doses, nw, width))
  {
    DoseRunSpaced(starts, doses, nw, width, Min(|starts|, |doses|));
  }

  /** Where the last of some labels ends: 0 before any label. */
  function LastEnd(ls: seq<DoseLabel>, width: FieldValue -> real): real {
    if ls == [] then 0.0 else ls[|ls| - 1].x + width(ls[|ls| - 1].dose)
  }

  /** Later columns only append labels, and those lie on later days. */
  lemma {:induction false} DoseRunExtends(starts: seq<real>, doses: seq<FieldValue>, nw: real, width: FieldValue -> real, k: nat, m: nat)
    requires k <= m <= |starts| && m <= |doses|
    ensures var a, b := DoseRun(starts, doses, nw, width, k).labels, DoseRun(starts, doses, nw, width, m).labels;
      |a| <= |b| && b[..|a|] == a && forall i :: |a| <= i < |b| ==> b[i].day >= k
    decreases m - k
  {
    if k < m {
      DoseRunExtends(starts, doses, nw, width, k, m - 1);
    }
  }

  /** The converse of DoseLabelsMeaning: a day gets a label exactly when
      its dose is numeric, differs from the last numeric dose before it,
      and its day starts more than an "n" past the end of the labels
      placed before it; the label then shows that dose at the day's left
      edge. */
  lemma DoseLabelsComplete(starts: seq<real>, doses: seq<FieldValue>, nw: real, width: FieldValue -> real, k: nat)
    requires k < |starts| && k < |doses|
    ensures var ls := DoseLabels(starts, doses, nw, width);
      (exists i :: 0 <= i < |ls| && ls[i].day == k) <==>
        (doses[k].Num? && doses[k].x != PreviousDose(doses[..k]) &&
         LastEnd(DoseRun(starts, doses, nw, width, k).labels, width) + nw < starts[k])
    ensures (doses[k].Num? && doses[k].x != PreviousDose(doses[..k]) &&
             LastEnd(DoseRun(starts, doses, nw, width, k).labels, width) + nw < starts[k]) ==>
      DoseLabel(k, starts[k], doses[k]) in DoseLabels(starts, doses, nw, width)
  {
    var n := Min(|starts|, |doses|);
    var c := DoseRun(starts, doses, nw, width, k);
    var c' := DoseRun(starts, doses, nw, width, k + 1);
    var ls := DoseLabels(starts, doses, nw, width);
    DoseRunSpaced(starts, doses, nw, width, k);
    DoseRunLastDose(starts, doses, nw, width, k);
    DoseRunExtends(starts, doses, nw, width, k + 1, n);
    assert c.lastend == LastEnd(c.labels, width);
    var cond := doses[k].Num? && doses[k].x != PreviousDose(doses[..k]) && LastEnd(c.labels, width) + nw < starts[k];
    if cond {
      assert c'.labels == c.labels + [DoseLabel(k, starts[k], doses[k])];
      assert ls[|c.labels|] == DoseLabel(k, starts[k], doses[k]);
    }
    if exists i :: 0 <= i < |ls| && ls[i].day == k {
      var i :| 0 <= i < |ls| && ls[i].day == k;
      assert i < |c'.labels|;
      assert ls[i] == c'.labels[i];
      assert cond;
    }
  }

  /** A row whose doses all have a day start raises exactly when its dose
      levels do; otherwise its labels are spaced and mark dose changes. */
  lemma DoseGraphOutcome(starts: seq<real>, doses: seq<FieldValue>, nw: real, width: FieldValue -> real, y: real, lh: real)
    ensures |doses| <= |starts| ==>
      (DoseGraph(starts, doses, nw, width).Err? <==> DoseLevelsAsWritten(doses, y, lh).Err?)
    ensures DoseGraph(starts, doses, nw, width).Err? ==> DoseGraph(starts, doses, nw, width).error == ZeroDivisionError
    ensures DoseGraph(starts, doses, nw, width).Ok? ==>
      Spaced(starts, doses, nw, width, Min(|starts|, |doses|), DoseGraph(starts, doses, nw, width).value)
  {
    if |doses| <= |starts| {
      assert doses[..Min(|starts|, |doses|)] == doses;
    }
    DoseLabelsMeaning(starts, doses, nw, width);
  }

  /** A text width under which "2.0" is wider than "2". */
  function FloatWide(d: FieldValue): real {
    if d.Num? && d.isFloat then 9.5 else 8.0
  }

  /** A label's extent is that of its text: the label after a dose can be
      crowded out when the dose is written 2.0 but not when it is written 2. */
  lemma FloatTextCrowds()
    ensures DoseLabels([2.0, 12.0], [Num(2.0, false), Num(3.0, false)], 1.0, FloatWide) ==
      [DoseLabel(0, 2.0, Num(2.0, false)), DoseLabel(1, 12.0, Num(3.0, false))]
    ensures DoseLabels([2.0, 12.0], [Num(2.0, true), Num(3.0, false)], 1.0, FloatWide) ==
      [DoseLabel(0, 2.0, Num(2.0, true))]
  {
    var starts := [2.0, 12.0];
    var asInt, asFloat := [Num(2.0, false), Num(3.0, false)], [Num(2.0, true), Num(3.0, false)];
    assert DoseRun(starts, asInt, 1.0, FloatWide, 1) == DoseCursor(2.0, 10.0, [DoseLabel(0, 2.0, Num(2.0, false))]);
    assert DoseRun(starts, asFloat, 1.0, FloatWide, 1) == DoseCursor(2.0, 11.5, [DoseLabel(0, 2.0, Num(2.0, true))]);
  }

  // ---------------------------------------------------------------------
  // render_interval
  // ---------------------------------------------------------------------

  /** An extent of an interval: its first day and its length in days. */
  datatype Extent = Extent(start: int, duration: int)

  /** An interval's spans: start with duration, or else one one-day span
      per decoded day of a "days" list; a lone day or no days at all is a
      TypeError. */
  function Spans(a: Activity): (r: Result<seq<Extent>>)
    ensures r.Err? ==> r.error == TypeError(NoSpan)
  {
    if a.start.Some? && a.duration.Some? then Ok([Extent(a.start.value, a.duration.value)])
    else if a.days.Some? && a.days.value.List? then
      var ds := DecodeDays(a.days.value);
      Ok(seq(|ds|, i requires 0 <= i < |ds| => Extent(ds[i], 1)))
    else Err(TypeError(NoSpan))
  }

  /** The last day of a span; a span from a negative day past day 0 is
      one day longer, since day 0 does not exist. */
  function EndDay(s: Extent): int {
    var end := s.start + s.duration - 1;
    if s.start < 0 && end > 0 then end + 1 else end
  }

  /** A box from the start of column `first` to the end of column `last`,
      with brackets at both ends when the interval is decorated "bracketed". */
  datatype Box = Box(first: nat, last: nat, left: real, right: real, bracketed: bool)

  /** The box of one span: both of its ends must be days of the period. */
  function SpanBox(p: Period, s: Extent, bracketed: bool, x: real, ws: seq<real>): (r: Result<Box>)
    requires |ws| == Days(p)
    ensures r.Err? ==> r.error == IndexError
  {
    match DayIndex(p, s.start)
    case Err(e) => Err(e)
    case Ok(i) =>
      match DayIndex(p, EndDay(s))
      case Err(e) => Err(e)
      case Ok(j) => Ok(Box(i, j, Starts(x, ws)[i], Ends(x, ws)[j], bracketed))
  }

  function SpanBoxes(p: Period, ss: seq<Extent>, bracketed: bool, x: real, ws: seq<real>): Result<seq<Box>>
    requires |ws| == Days(p)
  {
    if ss == [] then Ok([])
    else match SpanBoxes(p, ss[..|ss| - 1], bracketed, x, ws)
      case Err(e) => Err(e)
      case Ok(bs) =>
        match SpanBox(p, ss[|ss| - 1], bracketed, x, ws)
        case Err(e) => Err(e)
        case Ok(b) => Ok(bs + [b])
  }

  /** The boxes of one interval. */
  function IntervalBoxes(p: Period, a: Activity, x: real, ws: seq<real>): Result<seq<Box>>
    requires |ws| == Days(p)
  {
    match Spans(a)
    case Err(e) => Err(e)
    case Ok(ss) => SpanBoxes(p, ss, FieldOf(a, "decoration") == Str("bracketed"), x, ws)
  }

  function BoxesOf(p: Period, ivs: seq<Activity>, caption: string, x: real, ws: seq<real>): Result<seq<Box>>
    requires |ws| == Days(p)
  {
    if ivs == [] then Ok([])
    else match BoxesOf(p, ivs[..|ivs| - 1], caption, x, ws)
      case Err(e) => Err(e)
      case Ok(bs) =>
        if ivs[|ivs| - 1].caption != caption then Ok(bs)
        else match IntervalBoxes(p, ivs[|ivs| - 1], x, ws)
          case Err(e) => Err(e)
          case Ok(b) => Ok(bs + b)
  }

  /** render_interval: the boxes of every interval of the period with the
      row's caption, in order; `ws` are the period's day widths. */
  function IntervalRow(p: Period, caption: string, x: real, ws: seq<real>): Result<seq<Box>>
    requires |ws| == Days(p)
  {
    BoxesOf(p, p.intervals, caption, x, ws)
  }

  function Bracketed(a: Activity): bool {
    FieldOf(a, "decoration") == Str("bracketed")
  }

  /** A box spans the columns of its span's first and last day: as many
      columns as the span has days, except that a span from day 0 in a
      period with negative days loses one, day 0 being read as day 1; it
      reaches from the start of its first column to the end of its last,
      so with positive day widths it has positive width. */
  lemma SpanBoxMeaning(p: Period, s: Extent, bracketed: bool, x: real, ws: seq<real>)
    requires |ws| == Days(p)
    ensures SpanBox(p, s, bracketed, x, ws).Ok? <==> DayIndex(p, s.start).Ok? && DayIndex(p, EndDay(s)).Ok?
    ensures SpanBox(p, s, bracketed, x, ws).Ok? ==>
      var b := SpanBox(p, s, bracketed, x, ws).value;
      b.first == DayIndex(p, s.start).value && b.last == DayIndex(p, EndDay(s)).value &&
      b.left == x + Sum(ws[..b.first]) && b.right == x + Sum(ws[..b.last + 1]) && b.bracketed == bracketed
    ensures SpanBox(p, s, bracketed, x, ws).Ok? && s.duration >= 1 ==>
      var b := SpanBox(p, s, bracketed, x, ws).value;
      b.last - b.first == if s.start == 0 && p.start < 0 && s.duration > 1 then s.duration - 2 else s.duration - 1
    ensures SpanBox(p, s, bracketed, x, ws).Ok? && s.duration >= 1 && (forall k :: 0 <= k < |ws| ==> ws[k] > 0.0) ==>
      SpanBox(p, s, bracketed, x, ws).value.left < SpanBox(p, s, bracketed, x, ws).value.right
  {
    if SpanBox(p, s, bracketed, x, ws).Ok? {
      var b := SpanBox(p, s, bracketed, x, ws).value;
      assert ws[..b.last + 1][..b.last] == ws[..b.last];
      if s.duration >= 1 && (forall k :: 0 <= k < |ws| ==> ws[k] > 0.0) {
        SumGrows(ws, b.first, b.last + 1);
      }
    }
  }

  /** A box of a span list is the box of one of its spans, and the list
      fails exactly when one of its spans has no box. */
  lemma {:induction false} SpanBoxesMeaning(p: Period, ss: seq<Extent>, bracketed: bool, x: real, ws: seq<real>)
    requires |ws| == Days(p)
    ensures SpanBoxes(p, ss, bracketed, x, ws).Err? <==> exists s :: s in ss && SpanBox(p, s, bracketed, x, ws).Err?
    ensures SpanBoxes(p, ss, bracketed, x, ws).Err? ==> SpanBoxes(p, ss, bracketed, x, ws).error == IndexError
    ensures SpanBoxes(p, ss, bracketed, x, ws).Ok? ==>
      var bs := SpanBoxes(p, ss, bracketed, x, ws).value;
      |bs| == |ss| && forall i :: 0 <= i < |ss| ==> SpanBox(p, ss[i], bracketed, x, ws) == Ok(bs[i])
  {
    if ss != [] {
      var init := ss[..|ss| - 1];
      SpanBoxesMeaning(p, init, bracketed, x, ws);
      forall s | s in init ensures s in ss {
      }
      if SpanBoxes(p, init, bracketed, x, ws).Ok? && SpanBox(p, ss[|ss| - 1], bracketed, x, ws).Ok? {
        forall s | s in ss ensures SpanBox(p, s, bracketed, x, ws).Ok? {
          var i :| 0 <= i < |ss| && ss[i] == s;
          if i < |ss| - 1 {
            assert init[i] == s;
          }
        }
      }
    }
  }

  /** An interval row fails exactly when a matching interval does, with
      IndexError for a day outside the period or TypeError for an interval
      without a span. */
  lemma {:induction false} BoxesOfFailure(p: Period, ivs: seq<Activity>, caption: string, x: real, ws: seq<real>)
    requires |ws| == Days(p)
    ensures BoxesOf(p, ivs, caption, x, ws).Err? <==>
      exists a :: a in ivs && a.caption == caption && IntervalBoxes(p, a, x, ws).Err?
    ensures BoxesOf(p, ivs, caption, x, ws).Err? ==>
      BoxesOf(p, ivs, caption, x, ws).error in {IndexError, TypeError(NoSpan)}
  {
    if ivs != [] {
      var init := ivs[..|ivs| - 1];
      var a := ivs[|ivs| - 1];
      BoxesOfFailure(p, init, caption, x, ws);
      forall b | b in init ensures b in ivs {
      }
      if Spans(a).Ok? {
        SpanBoxesMeaning(p, Spans(a).value, Bracketed(a), x, ws);
      }
      if BoxesOf(p, init, caption, x, ws).Ok? && (a.caption != caption || IntervalBoxes(p, a, x, ws).Ok?) {
        forall b | b in ivs && b.caption == caption ensures IntervalBoxes(p, b, x, ws).Ok? {
          var i :| 0 <= i < |ivs| && ivs[i] == b;
          if i < |ivs| - 1 {
            assert init[i] == b;
          }
        }
      }
    }
  }

  /** b is the box of one of the spans of interval a. */
  predicate BoxOf(p: Period, a: Activity, x: real, ws: seq<real>, b: Box)
    requires |ws| == Days(p)
  {
    Spans(a).Ok? && exists s :: s in Spans(a).value && SpanBox(p, s, Bracketed(a), x, ws) == Ok(b)
  }

  lemma IntervalBoxesMembers(p: Period, a: Activity, x: real, ws: seq<real>, b: Box)
    requires |ws| == Days(p) && IntervalBoxes(p, a, x, ws).Ok?
    ensures b in IntervalBoxes(p, a, x, ws).value <==> BoxOf(p, a, x, ws, b)
  {
    var ss := Spans(a).value;
    SpanBoxesMeaning(p, ss, Bracketed(a), x, ws);
    var ns := IntervalBoxes(p, a, x, ws).value;
    if b in ns {
      var i :| 0 <= i < |ns| && ns[i] == b;
      assert ss[i] in ss;
    }
    if BoxOf(p, a, x, ws, b) {
      var s :| s in ss && SpanBox(p, s, Bracketed(a), x, ws) == Ok(b);
      var i :| 0 <= i < |ss| && ss[i] == s;
      assert ns[i] == b;
    }
  }

  /** Every box of a row comes from a span of an interval with the row's
      caption, and every span of such an interval has its box. */
  lemma {:induction false} BoxesOfMembers(p: Period, ivs: seq<Activity>, caption: string, x: real, ws: seq<real>, b: Box)
    requires |ws| == Days(p) && BoxesOf(p, ivs, caption, x, ws).Ok?
    ensures b in BoxesOf(p, ivs, caption, x, ws).value <==>
      exists a :: a in ivs && a.caption == caption && BoxOf(p, a, x, ws, b)
  {
    if ivs != [] {
      var init := ivs[..|ivs| - 1];
      var a := ivs[|ivs| - 1];
      BoxesOfMembers(p, init, caption, x, ws, b);
      if a.caption == caption {
        IntervalBoxesMembers(p, a, x, ws, b);
      }
      if exists c :: c in ivs && c.caption == caption && BoxOf(p, c, x, ws, b) {
        var c :| c in ivs && c.caption == caption && BoxOf(p, c, x, ws, b);
        if c != a {
          var i :| 0 <= i < |ivs| && ivs[i] == c;
          assert init[i] == c;
        }
      }
    }
  }

  /** Once a prefix of the extents fails, the whole list fails alike. */
  lemma {:induction false} SpanBoxesFailed(p: Period, ss: seq<Extent>, k: nat, bracketed: bool, x: real, ws: seq<real>)
    requires |ws| == Days(p) && k <= |ss| && SpanBoxes(p, ss[..k], bracketed, x, ws).Err?
    ensures SpanBoxes(p, ss, bracketed, x, ws) == SpanBoxes(p, ss[..k], bracketed, x, ws)
    decreases |ss| - k
  {
    if k < |ss| {
      assert ss[..k + 1][..k] == ss[..k];
      SpanBoxesFailed(p, ss, k + 1, bracketed, x, ws);
    } else {
      assert ss[..k] == ss;
    }
  }

  lemma {:induction false} BoxesOfFailed(p: Period, ivs: seq<Activity>, k: nat, caption: string, x: real, ws: seq<real>)
    requires |ws| == Days(p) && k <= |ivs| && BoxesOf(p, ivs[..k], caption, x, ws).Err?
    ensures BoxesOf(p, ivs, caption, x, ws) == BoxesOf(p, ivs[..k], caption, x, ws)
    decreases |ivs| - k
  {
    if k < |ivs| {
      assert ivs[..k + 1][..k] == ivs[..k];
      BoxesOfFailed(p, ivs, k + 1, caption, x, ws);
    } else {
      assert ivs[..k] == ivs;
    }
  }

  /** The boxes of a list of extents, one after the other. */
  method RenderExtents(p: Period, ss: seq<Extent>, bracketed: bool, starts: seq<real>, ends: seq<real>, ghost x: real, ghost ws: seq<real>)
    returns (r: Result<seq<Box>>)
    requires |ws| == Days(p) && starts == Starts(x, ws) && ends == Ends(x, ws)
    ensures r == SpanBoxes(p, ss, bracketed, x, ws)
  {
    var bs: seq<Box> := [];
    for k := 0 to |ss|
      invariant SpanBoxes(p, ss[..k], bracketed, x, ws) == Ok(bs)
    {
      assert ss[..k + 1][..k] == ss[..k];
      var i := DayIndex(p, ss[k].start);
      if i.Err? {
        SpanBoxesFailed(p, ss, k + 1, bracketed, x, ws);
        return Err(i.error);
      }
      var j := DayIndex(p, EndDay(ss[k]));
      if j.Err? {
        SpanBoxesFailed(p, ss, k + 1, bracketed, x, ws);
        return Err(j.error);
      }
      bs := bs + [Box(i.value, j.value, starts[i.value], ends[j.value], bracketed)];
    }
    assert ss[..|ss|] == ss;
    return Ok(bs);
  }

  /** render_interval over the period's intervals. */
  method RenderInterval(p: Period, caption: string, x: real, ws: seq<real>) returns (r: Result<seq<Box>>)
    requires |ws| == Days(p)
    ensures r == IntervalRow(p, caption, x, ws)
  {
    var starts := PeriodDayStarts(x, ws);
    var ends := Ends(x, ws);
    var ivs := p.intervals;
    var bs: seq<Box> := [];
    for k := 0 to |ivs|
      invariant BoxesOf(p, ivs[..k], caption, x, ws) == Ok(bs)
    {
      assert ivs[..k + 1][..k] == ivs[..k];
      var a := ivs[k];
      if a.caption == caption {
        var ss := Spans(a);
        if ss.Err? {
          BoxesOfFailed(p, ivs, k + 1, caption, x, ws);
          return Err(ss.error);
        }
        var more := RenderExtents(p, ss.value, Bracketed(a), starts, ends, x, ws);
        if more.Err? {
          BoxesOfFailed(p, ivs, k + 1, caption, x, ws);
          return Err(more.error);
        }
        bs := bs + more.value;
      }
    }
    assert ivs[..|ivs|] == ivs;
    return Ok(bs);
  }

  // ---------------------------------------------------------------------
  // render_dose_graph: dose levels
  // ---------------------------------------------------------------------

  /** A dose as the number `isinstance(d, int) or isinstance(d, float)`
      sees: ints, floats and booleans, which are ints in Python. */
  function NumberOf(d: FieldValue): seq<real> {
    match d
    case Num(x, _) => [x]
    case Truth(b) => [if b then 1.0 else 0.0]
    case _ => []
  }

  /** The doses a row is scaled by, in order. */
  function NumericDoses(ds: seq<FieldValue>): seq<real> {
    if ds == [] then []
    else NumericDoses(ds[..|ds| - 1]) + NumberOf(ds[|ds| - 1])
  }

  /** The doses a row draws: `type(d)` int or float, which leaves the
      booleans out; each of them is among the doses the row is scaled by. */
  function DrawnDoses(ds: seq<FieldValue>): (r: seq<real>)
    ensures forall i :: 0 <= i < |r| ==> r[i] in NumericDoses(ds)
  {
    if ds == [] then []
    else
      var last := ds[|ds| - 1];
      assert NumericDoses(ds) == NumericDoses(ds[..|ds| - 1]) + NumberOf(last);
      DrawnDoses(ds[..|ds| - 1]) + (if last.Num? then [last.x] else [])
  }

  function MaxOf(xs: seq<real>): (m: real)
    requires xs != []
    ensures m in xs && forall i :: 0 <= i < |xs| ==> xs[i] <= m
  {
    if |xs| == 1 then xs[0]
    else
      var m := MaxOf(xs[..|xs| - 1]);
      assert forall i :: 0 <= i < |xs| - 1 ==> xs[..|xs| - 1][i] == xs[i];
      if xs[|xs| - 1] > m then xs[|xs| - 1] else m
  }

  function MinOf(xs: seq<real>): (m: real)
    requires xs != []
    ensures m in xs && forall i :: 0 <= i < |xs| ==> m <= xs[i]
  {
    if |xs| == 1 then xs[0]
    else
      var m := MinOf(xs[..|xs| - 1]);
      assert forall i :: 0 <= i < |xs| - 1 ==> xs[..|xs| - 1][i] == xs[i];
      if xs[|xs| - 1] < m then xs[|xs| - 1] else m
  }

  /** The numeric doses are all equal, so that dosey's divisor is 0. */
  predicate Flat(ds: seq<FieldValue>) {
    var xs := NumericDoses(ds);
    xs != [] && MaxOf(xs) - MinOf(xs) == 0.0
  }

  /** dosey as written: the dose scaled between the smallest and the
      largest numeric dose, defined only when they differ. */
  function Dosey(d: real, lo: real, hi: real, y: real, lh: real): real
    requires hi != lo
  {
    y + lh * 0.6 - (d - lo) / (hi - lo) * lh * 0.6
  }

  /** The heights of a row's drawn doses as render_dose_graph computes
      them: the first drawn dose already raises when the numeric doses
      are all equal. */
  function DoseLevelsAsWritten(doses: seq<FieldValue>, y: real, lh: real): Result<seq<real>> {
    var xs, zs := NumericDoses(doses), DrawnDoses(doses);
    if zs == [] then Ok([])
    else if Flat(doses) then Err(ZeroDivisionError)
    else
      assert zs[0] in xs;
      Ok(seq(|zs|, i requires 0 <= i < |zs| => Dosey(zs[i], MinOf(xs), MaxOf(xs), y, lh)))
  }

  /** The numeric doses are flat exactly when there are some and they
      all equal the first. */
  lemma FlatMeaning(ds: seq<FieldValue>)
    ensures Flat(ds) <==>
      NumericDoses(ds) != [] && forall i :: 0 <= i < |NumericDoses(ds)| ==> NumericDoses(ds)[i] == NumericDoses(ds)[0]
  {
    var xs := NumericDoses(ds);
    if xs != [] {
      var k :| 0 <= k < |xs| && xs[k] == MaxOf(xs);
      var l :| 0 <= l < |xs| && xs[l] == MinOf(xs);
    }
  }

  /** A row fails exactly when it draws a dose and its numeric doses are
      all equal. */
  lemma DoseLevelsAsWrittenFail(doses: seq<FieldValue>, y: real, lh: real)
    ensures DoseLevelsAsWritten(doses, y, lh).Err? <==>
      DrawnDoses(doses) != [] && forall i :: 0 <= i < |NumericDoses(doses)| ==> NumericDoses(doses)[i] == NumericDoses(doses)[0]
  {
    FlatMeaning(doses);
    if DrawnDoses(doses) != [] {
      assert DrawnDoses(doses)[0] in NumericDoses(doses);
    }
    assert DoseLevelsAsWritten(doses, y, lh).Err? <==> DrawnDoses(doses) != [] && Flat(doses);
  }

  /** A single dose is enough to raise. */
  lemma DoseLevelsFailExamples(y: real, lh: real, d: real)
    ensures DoseLevelsAsWritten([Num(d, false)], y, lh) == Err(ZeroDivisionError)
  {
    assert [Num(d, false)][..0] == [];
    assert NumericDoses([Num(d, false)]) == [d] && DrawnDoses([Num(d, false)]) == [d];
  }

  /** A boolean counts among the extremes, but booleans alone are never
      drawn and so never raise. */
  lemma BooleanDoses(y: real, lh: real)
    ensures DoseLevelsAsWritten([Num(1.0, false), Truth(true)], y, lh) == Err(ZeroDivisionError)
    ensures DoseLevelsAsWritten([Truth(true), Truth(true)], y, lh) == Ok([])
  {
    var one := [Num(1.0, false), Truth(true)];
    assert one[..1] == [Num(1.0, false)] && one[..1][..0] == [];
    assert NumericDoses(one) == [1.0, 1.0] && DrawnDoses(one) == [1.0];
    var two := [Truth(true), Truth(true)];
    assert two[..1] == [Truth(true)] && two[..1][..0] == [];
    assert DrawnDoses(two) == [];
  }

  /** dosey with equal extremes drawn on the baseline. */
  function DoseY(d: real, lo: real, hi: real, y: real, lh: real): real {
    if hi == lo then y + lh * 0.6 else y + lh * 0.6 - (d - lo) / (hi - lo) * lh * 0.6
  }

  function DoseLevels(doses: seq<FieldValue>, y: real, lh: real): (r: seq<real>)
    ensures |r| == |DrawnDoses(doses)|
  {
    var xs, zs := NumericDoses(doses), DrawnDoses(doses);
    if zs == [] then []
    else
      assert zs[0] in xs;
      seq(|zs|, i requires 0 <= i < |zs| => DoseY(zs[i], MinOf(xs), MaxOf(xs), y, lh))
  }

  /** Scaling a value between 0 and c down by c keeps it between 0 and 1,
      in order. */
  lemma Scaled(a: real, b: real, c: real)
    requires 0.0 <= a <= b <= c && c > 0.0
    ensures 0.0 <= a / c <= b / c <= 1.0
  {
    assert a / c * c == a && b / c * c == b;
  }

  lemma Stretched(f: real, g: real, h: real)
    requires 0.0 <= f <= g <= 1.0 && h >= 0.0
    ensures 0.0 <= f * h <= g * h <= h
  {
  }

  /** Between the extremes, a larger dose is drawn higher up (at a smaller
      y), within the band from y to y + 0.6 * lh. */
  lemma DoseYOrder(d: real, e: real, lo: real, hi: real, y: real, lh: real)
    requires lo <= d <= e <= hi && lh >= 0.0
    ensures y <= DoseY(e, lo, hi, y, lh) <= DoseY(d, lo, hi, y, lh) <= y + lh * 0.6
    ensures hi != lo && e == hi ==> DoseY(e, lo, hi, y, lh) == y
    ensures d == lo ==> DoseY(d, lo, hi, y, lh) == y + lh * 0.6
  {
    if hi != lo {
      Scaled(d - lo, e - lo, hi - lo);
      Stretched((d - lo) / (hi - lo), (e - lo) / (hi - lo), lh * 0.6);
      assert (hi - lo) / (hi - lo) == 1.0;
    }
  }

  /** With the division guarded, every row of doses has its levels: the
      smallest numeric dose sits on the baseline, the largest at the top
      when the doses differ, and a larger dose is never drawn lower. */
  lemma DoseLevelsMeaning(doses: seq<FieldValue>, y: real, lh: real)
    requires lh >= 0.0
    ensures var xs, zs, ls := NumericDoses(doses), DrawnDoses(doses), DoseLevels(doses, y, lh);
      forall i :: 0 <= i < |zs| ==>
        (y <= ls[i] <= y + lh * 0.6 &&
         (zs[i] == MinOf(xs) ==> ls[i] == y + lh * 0.6) &&
         (zs[i] == MaxOf(xs) && MaxOf(xs) != MinOf(xs) ==> ls[i] == y))
    ensures var zs, ls := DrawnDoses(doses), DoseLevels(doses, y, lh);
      forall i, j :: 0 <= i < |zs| && 0 <= j < |zs| && zs[i] <= zs[j] ==> ls[j] <= ls[i]
  {
    var xs, zs, ls := NumericDoses(doses), DrawnDoses(doses), DoseLevels(doses, y, lh);
    if zs != [] {
      assert zs[0] in xs;
      var lo, hi := MinOf(xs), MaxOf(xs);
      assert forall i :: 0 <= i < |zs| ==> ls[i] == DoseY(zs[i], lo, hi, y, lh);
      forall i | 0 <= i < |zs| ensures lo <= zs[i] <= hi {
        var k :| 0 <= k < |xs| && xs[k] == zs[i];
      }
      forall i | 0 <= i < |zs|
        ensures y <= ls[i] <= y + lh * 0.6 && (zs[i] == lo ==> ls[i] == y + lh * 0.6) &&
          (zs[i] == hi && hi != lo ==> ls[i] == y)
      {
        DoseYOrder(zs[i], zs[i], lo, hi, y, lh);
      }
      forall i, j | 0 <= i < |zs| && 0 <= j < |zs| && zs[i] <= zs[j] ensures ls[j] <= ls[i] {
        DoseYOrder(zs[i], zs[j], lo, hi, y, lh);
      }
    }
  }

  /** The guarded levels agree with the code as written wherever it does
      not raise. */
  lemma DoseLevelsAgree(doses: seq<FieldValue>, y: real, lh: real)
    ensures DoseLevelsAsWritten(doses, y, lh).Ok? ==> DoseLevelsAsWritten(doses, y, lh).value == DoseLevels(doses, y, lh)
  {
    var xs, zs := NumericDoses(doses), DrawnDoses(doses);
    if zs != [] && !Flat(doses) {
      assert zs[0] in xs;
      var lo, hi := MinOf(xs), MaxOf(xs);
      var a, b := DoseLevelsAsWritten(doses, y, lh).value, DoseLevels(doses, y, lh);
      assert |a| == |b| == |zs|;
      forall i | 0 <= i < |zs| ensures a[i] == b[i] {
        assert a[i] == Dosey(zs[i], lo, hi, y, lh) && b[i] == DoseY(zs[i], lo, hi, y, lh);
      }
    }
  }

  // ---------------------------------------------------------------------
  // add_output
  // ---------------------------------------------------------------------

  /** What a render function returns: the row's markup and its height. */
  datatype Output = Output(svg: string, height: real)

  /** add_output: the pairwise sum of two outputs, markup joined in order
      and heights added. */
  function AddOutput(a: Output, b: Output): (r: Output)
    ensures |r.svg| == |a.svg| + |b.svg|
    ensures r.svg[..|a.svg|] == a.svg && r.svg[|a.svg|..] == b.svg
    ensures r.height == a.height + b.height
  {
    Output(a.svg + b.svg, a.height + b.height)
  }

  /** Outputs under add_output form a monoid with the empty output as unit,
      so a row may be assembled in any grouping; render_periods adding the
      label line's height in front leaves the markup as it is. */
  lemma AddOutputMonoid(a: Output, b: Output, c: Output, h: real)
    ensures AddOutput(Output("", 0.0), a) == a && AddOutput(a, Output("", 0.0)) == a
    ensures AddOutput(AddOutput(a, b), c) == AddOutput(a, AddOutput(b, c))
    ensures AddOutput(Output("", h), a) == Output(a.svg, h + a.height)
  {
    assert a.svg + "" == a.svg && "" + a.svg == a.svg;
    assert (a.svg + b.svg) + c.svg == a.svg + (b.svg + c.svg);
  }

  // ---------------------------------------------------------------------
  // render_periods
  // ---------------------------------------------------------------------

  /** Where a period's row goes: its left edge, whether it is the first
      pass (which also writes the row's caption), and whether a dash
      follows it across the spacing to the next period. */
  datatype Placement = Placement(x: real, first: bool, dash: bool)

  /** The left edge of period i: the widths of the periods before it, each
      followed by the spacing. */
  function PeriodX(x: real, widths: seq<real>, spacing: real, i: nat): real
    requires i <= |widths|
  {
    x + Sum(widths[..i]) + i as real * spacing
  }

  /** As written, `last` turns true at the first period equal to the final
      one and stays true from there on. Periods are compared as the whole
      dictionaries render_periods receives, every key taking part, so the
      element type is left open: any type with equality. */
  predicate LastSeen<P(==)>(periods: seq<P>, i: nat)
    requires i < |periods|
  {
    periods[|periods| - 1] in periods[..i + 1]
  }

  /** The placements render_periods makes, with its dash rule as written;
      `widths` are the periods' widths. */
  function PlacementsAsWritten<P(==)>(periods: seq<P>, x: real, widths: seq<real>, spacing: real, dashes: bool): (r: seq<Placement>)
    requires |widths| == |periods|
    ensures |r| == |periods|
  {
    seq(|periods|, i requires 0 <= i < |periods| =>
      Placement(PeriodX(x, widths, spacing, i), i == 0, dashes && !LastSeen(periods, i)))
  }

  /** render_periods: a cursor moving right by each period's width plus
      the spacing, with the `first` and `last` flags of the code. */
  method RenderPeriods<P(==)>(periods: seq<P>, x: real, widths: seq<real>, spacing: real, dashes: bool)
    returns (out: seq<Placement>)
    requires |widths| == |periods|
    ensures out == PlacementsAsWritten(periods, x, widths, spacing, dashes)
  {
    var cx, first, last := x, true, false;
    out := [];
    for i := 0 to |periods|
      invariant |out| == i && cx == PeriodX(x, widths, spacing, i) && first == (i == 0)
      invariant last == (i > 0 && LastSeen(periods, i - 1))
      invariant forall j :: 0 <= j < i ==> out[j] == PlacementsAsWritten(periods, x, widths, spacing, dashes)[j]
    {
      assert periods[..i + 1] == periods[..i] + [periods[i]];
      if i > 0 {
        assert periods[..i] == periods[..i - 1 + 1];
      }
      if periods[i] == periods[|periods| - 1] {
        last := true;
      }
      out := out + [Placement(cx, first, dashes && !last)];
      assert widths[..i + 1][..i] == widths[..i];
      cx := cx + widths[i] + spacing;
      first := false;
    }
  }

  /** The intended placements: a dash after every period but the final one. */
  function Placements(x: real, widths: seq<real>, spacing: real, dashes: bool): (r: seq<Placement>)
    ensures |r| == |widths|
  {
    seq(|widths|, i requires 0 <= i < |widths| =>
      Placement(PeriodX(x, widths, spacing, i), i == 0, dashes && i < |widths| - 1))
  }

  /** Periods follow one another left to right, each one the spacing after
      the end of the one before, so that with dashes on every gap between
      two adjacent periods is dashed, and only those gaps; only the first
      period is a first pass. */
  lemma PlacementsMeaning(x: real, widths: seq<real>, spacing: real, dashes: bool)
    ensures var r := Placements(x, widths, spacing, dashes);
      forall i :: 0 <= i < |widths| - 1 ==>
        r[i].x + widths[i] + spacing == r[i + 1].x && (r[i].dash <==> dashes)
    ensures var r := Placements(x, widths, spacing, dashes);
      widths != [] ==> r[0].x == x && r[0].first && !r[|r| - 1].dash
    ensures var r := Placements(x, widths, spacing, dashes);
      forall i :: 0 < i < |widths| ==> !r[i].first
    ensures var r := Placements(x, widths, spacing, dashes);
      spacing >= 0.0 && (forall k :: 0 <= k < |widths| ==> widths[k] >= 0.0) ==>
        forall i, j :: 0 <= i < j < |widths| ==> r[i].x + widths[i] <= r[j].x
  {
    var r := Placements(x, widths, spacing, dashes);
    forall i | 0 <= i < |widths| - 1 ensures r[i].x + widths[i] + spacing == r[i + 1].x {
      assert widths[..i + 1][..i] == widths[..i];
    }
    if spacing >= 0.0 && (forall k :: 0 <= k < |widths| ==> widths[k] >= 0.0) {
      forall i, j | 0 <= i < j < |widths| ensures r[i].x + widths[i] <= r[j].x {
        PlacementsApart(x, widths, spacing, i, j);
      }
    }
  }

  lemma {:induction false} PlacementsApart(x: real, widths: seq<real>, spacing: real, i: nat, j: nat)
    requires i < j <= |widths| && spacing >= 0.0 && forall k :: 0 <= k < |widths| ==> widths[k] >= 0.0
    ensures PeriodX(x, widths, spacing, i) + widths[i] <= PeriodX(x, widths, spacing, j)
    decreases j - i
  {
    assert widths[..j][..j - 1] == widths[..j - 1];
    if i < j - 1 {
      PlacementsApart(x, widths, spacing, i, j - 1);
    }
  }

  /** When the final period appears nowhere else, the code as written
      places and dashes exactly as intended. */
  lemma PlacementsAgree<P>(periods: seq<P>, x: real, widths: seq<real>, spacing: real, dashes: bool)
    requires |widths| == |periods| && periods != []
    requires forall i :: 0 <= i < |periods| - 1 ==> periods[i] != periods[|periods| - 1]
    ensures PlacementsAsWritten(periods, x, widths, spacing, dashes) == Placements(x, widths, spacing, dashes)
  {
    forall i | 0 <= i < |periods| ensures LastSeen(periods, i) <==> i == |periods| - 1 {
      if LastSeen(periods, i) {
        var k :| 0 <= k < i + 1 && periods[..i + 1][k] == periods[|periods| - 1];
      }
      if i == |periods| - 1 {
        assert periods[..i + 1][i] == periods[|periods| - 1];
      }
    }
  }

  /** A period repeated as the final one loses its dash: for [a, a] with
      dashes on, nothing is dashed, where the gap should be. */
  lemma RepeatedPeriodLosesDash<P>(a: P, x: real, w: real, spacing: real)
    ensures !PlacementsAsWritten([a, a], x, [w, w], spacing, true)[0].dash
    ensures Placements(x, [w, w], spacing, true)[0].dash
  {
    assert [a, a][..1] == [a];
  }
}
