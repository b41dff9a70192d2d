// Column widths and day geometry: the three day-width strategies chosen
// when the renderer starts, and the x-coordinates of day starts, centers
// and ends that follow from a period's widths.

module Layout {
  import opened Schema
  import opened Extract
  import opened Extractors
  import opened Runs

  // ---------------------------------------------------------------------
  // Width strategies
  // ---------------------------------------------------------------------

  /** How wide the day columns are drawn. */
  datatype Strategy = Condensed | AutoCompressed | Uniform

  /** The condensed option wins over auto-compression; without either,
      every day is equally wide. */
  function StrategyOf(condensed: bool, autocompress: bool): (s: Strategy)
    ensures s == Condensed <==> condensed
    ensures s == AutoCompressed <==> !condensed && autocompress
    ensures s == Uniform <==> !condensed && !autocompress
  {
    if condensed then Condensed else if autocompress then AutoCompressed else Uniform
  }

  /** Full width for a marked day, a third of it otherwise. */
  function Narrowed(marked: seq<bool>, w: real): (r: seq<real>)
    ensures |r| == |marked| && forall i :: 0 <= i < |marked| ==> r[i] == if marked[i] then w else w / 3.0
  {
    seq(|marked|, i requires 0 <= i < |marked| => if marked[i] then w else w / 3.0)
  }

  /** The days that carry a label. */
  function Labelled(ls: seq<Option<int>>): (r: seq<bool>)
    ensures |r| == |ls| && forall i :: 0 <= i < |ls| ==> r[i] == ls[i].Some?
  {
    seq(|ls|, i requires 0 <= i < |ls| => ls[i].Some?)
  }

  /** daywidth_function of the chosen strategy; `measure` gives the width
      of a text, and a day is measured as "XX". */
  function DayWidths(p: Period, s: Strategy, measure: string -> real): Result<seq<real>> {
    var w := measure("XX");
    match s
    case Condensed =>
      (match DayLabels(p)
       case Err(e) => Err(e)
       case Ok(ls) =>
         var t := Narrowed(Labelled(ls), w);
         if |t| == 1 then Ok([w]) else Ok(t))
    case AutoCompressed =>
      (match ActivityDaysOf(p)
       case Err(e) => Err(e)
       case Ok(b) => Ok(Narrowed(b, w)))
    case Uniform => Ok(Repeat(w, Days(p)))
  }

  /** Uniform widths: one full width per day. */
  lemma UniformWidths(p: Period, measure: string -> real)
    ensures DayWidths(p, Uniform, measure) == Ok(Repeat(measure("XX"), Days(p)))
    ensures Sum(Repeat(measure("XX"), Days(p))) == Days(p) as real * measure("XX")
  {
    RepeatSum(measure("XX"), Days(p));
  }

  lemma {:induction false} RepeatSum(w: real, n: nat)
    ensures Sum(Repeat(w, n)) == n as real * w
  {
    if n > 0 {
      RepeatSum(w, n - 1);
      assert Repeat(w, n)[..n - 1] == Repeat(w, n - 1);
    }
  }

  /** Condensed widths: full for a labelled day and a third otherwise, and
      a one-day period is always one full width; a listed day outside the
      period raises as day_labels does. */
  lemma CondensedWidths(p: Period, measure: string -> real)
    ensures DayWidths(p, Condensed, measure).Err? <==> DayLabels(p).Err?
    ensures DayWidths(p, Condensed, measure).Ok? ==>
      var ws := DayWidths(p, Condensed, measure).value;
      var w := measure("XX");
      |ws| == Days(p) &&
      (Days(p) == 1 ==> ws == [w]) &&
      (Days(p) != 1 ==> forall i :: 0 <= i < Days(p) ==>
        ws[i] == if DayLabels(p).value[i].Some? then w else w / 3.0)
  {
    if DayLabels(p).Ok? {
      ApplyLength(p, Repeat(None, Days(p)), Puts(Listed(p.daylabels), Numbered), Replace);
    }
  }

  /** Auto-compressed widths: full exactly on the days activity_days
      marks, which include the first and the last day. */
  lemma AutoCompressedWidths(p: Period, measure: string -> real, b: seq<bool>)
    requires ActivityDaysOf(p) == Ok(b) && measure("XX") > 0.0
    ensures DayWidths(p, AutoCompressed, measure).Ok?
    ensures var ws := DayWidths(p, AutoCompressed, measure).value;
      |ws| == |b| == Days(p) && forall i :: 0 <= i < |b| ==> (ws[i] == measure("XX") <==> b[i])
    ensures var ws := DayWidths(p, AutoCompressed, measure).value;
      ws[0] == measure("XX") && ws[|ws| - 1] == measure("XX")
  {
    ActivityDaysEdges(p, b);
  }

  // ---------------------------------------------------------------------
  // Geometry
  // ---------------------------------------------------------------------

  /** The sum of a list of widths. */
  function Sum(ws: seq<real>): real {
    if ws == [] then 0.0 else Sum(ws[..|ws| - 1]) + ws[|ws| - 1]
  }

  /** period_width: the total width of a period's days. */
  function PeriodWidth(ws: seq<real>): real {
    Sum(ws)
  }

  /** The x-coordinate of each day's left edge: xoffset plus the widths of
      the days before it. */
  function Starts(x: real, ws: seq<real>): (r: seq<real>)
    ensures |r| == |ws| && forall i :: 0 <= i < |ws| ==> r[i] == x + Sum(ws[..i])
  {
    seq(|ws|, i requires 0 <= i < |ws| => x + Sum(ws[..i]))
  }

  /** period_day_starts: the running total, one entry per day. */
  method PeriodDayStarts(x: real, ws: seq<real>) returns (out: seq<real>)
    ensures out == Starts(x, ws)
  {
    out := [x];
    var acc := x;
    for k := 0 to |ws|
      invariant |out| == k + 1 && acc == x + Sum(ws[..k])
      invariant forall i :: 0 <= i <= k ==> out[i] == x + Sum(ws[..i])
    {
      assert ws[..k + 1][..k] == ws[..k];
      acc := acc + ws[k];
      out := out + [acc];
    }
    out := out[..|out| - 1];
  }

  /** period_day_centers */
  function Centers(x: real, ws: seq<real>): (r: seq<real>)
    ensures |r| == |ws|
  {
    var starts := Starts(x, ws);
    seq(|ws|, i requires 0 <= i < |ws| => starts[i] + ws[i] / 2.0)
  }

  /** period_day_ends */
  function Ends(x: real, ws: seq<real>): (r: seq<real>)
    ensures |r| == |ws|
  {
    var starts := Starts(x, ws);
    seq(|ws|, i requires 0 <= i < |ws| => starts[i] + ws[i])
  }

  /** The first day starts at xoffset, each day starts where the one before
      it ends, and the last day ends at xoffset plus the period's width. */
  lemma GeometryChain(x: real, ws: seq<real>)
    ensures ws != [] ==> Starts(x, ws)[0] == x
    ensures forall i :: 0 <= i < |ws| - 1 ==> Starts(x, ws)[i + 1] == Ends(x, ws)[i]
    ensures ws != [] ==> Ends(x, ws)[|ws| - 1] == x + PeriodWidth(ws)
  {
    forall i | 0 <= i < |ws| - 1 ensures Starts(x, ws)[i + 1] == Ends(x, ws)[i] {
      assert ws[..i + 1][..i] == ws[..i];
    }
    if ws != [] {
      assert ws[..|ws|] == ws;
      assert ws[..|ws| - 1] == ws[..|ws|][..|ws| - 1];
    }
  }

  /** Each center lies halfway between its day's start and end, and with
      positive widths the days follow one another from left to right. */
  lemma GeometryOrder(x: real, ws: seq<real>)
    requires forall i :: 0 <= i < |ws| ==> ws[i] > 0.0
    ensures forall i :: 0 <= i < |ws| ==>
      Starts(x, ws)[i] < Centers(x, ws)[i] < Ends(x, ws)[i] &&
      Centers(x, ws)[i] - Starts(x, ws)[i] == Ends(x, ws)[i] - Centers(x, ws)[i]
    ensures forall i, j :: 0 <= i < j < |ws| ==> Starts(x, ws)[i] < Starts(x, ws)[j]
  {
    forall i, j | 0 <= i < j < |ws| ensures Starts(x, ws)[i] < Starts(x, ws)[j] {
      SumGrows(ws, i, j);
    }
  }

  /** With positive widths, a longer prefix is wider. */
  lemma {:induction false} SumGrows(ws: seq<real>, i: nat, j: nat)
    requires i < j <= |ws| && forall k :: 0 <= k < |ws| ==> ws[k] > 0.0
    ensures Sum(ws[..i]) < Sum(ws[..j])
    decreases j - i
  {
    assert ws[..j][..j - 1] == ws[..j - 1];
    if i < j - 1 {
      SumGrows(ws, i, j - 1);
    }
  }
}
