// Day resolution: expanding day lists such as [-1, "1-3, 5"] into single
// days, and mapping a signed trial day (there is no day 0) onto the column
// index of its period.

module DayList {
  import opened Schema
  import opened Lists

  // ---------------------------------------------------------------------
  // Scanning a day string the way re.findall(r'((\d+)(-(\d+))?(, )*)', s)
  // does: every maximal run of digits starts a match; a '-' directly
  // followed by another digit run turns it into an inclusive range.
  // Everything else (signs, commas, blanks, letters) is skipped.
  // ---------------------------------------------------------------------

  predicate IsDigit(c: char) {
    '0' <= c <= '9'
  }

  predicate AllDigits(s: string) {
    forall i :: 0 <= i < |s| ==> IsDigit(s[i])
  }

  function DigitOf(c: char): nat
    requires IsDigit(c)
  {
    c as int - '0' as int
  }

  /** One match: a lone day or an inclusive range first..last. */
  datatype Token = Lone(day: nat) | Span(first: nat, last: nat)

  /** Where the scan stands: between matches, inside the first number, just
      after its '-', or inside the second number of a range. */
  datatype ScanState = Between | First(a: nat) | Dash(a: nat) | Second(a: nat, b: nat)

  /** The match that ends when the scan stops in state st. */
  function Close(st: ScanState): seq<Token> {
    match st
    case Between => []
    case First(a) => [Lone(a)]
    case Dash(a) => [Lone(a)]
    case Second(a, b) => [Span(a, b)]
  }

  function Scan(s: string, st: ScanState): seq<Token>
    decreases |s|
  {
    if s == [] then Close(st)
    else
      var c := s[0];
      match st
      case Between =>
        if IsDigit(c) then Scan(s[1..], First(DigitOf(c))) else Scan(s[1..], Between)
      case First(a) =>
        if IsDigit(c) then Scan(s[1..], First(10 * a + DigitOf(c)))
        else if c == '-' then Scan(s[1..], Dash(a))
        else [Lone(a)] + Scan(s[1..], Between)
      case Dash(a) =>
        if IsDigit(c) then Scan(s[1..], Second(a, DigitOf(c)))
        else [Lone(a)] + Scan(s[1..], Between)
      case Second(a, b) =>
        if IsDigit(c) then Scan(s[1..], Second(a, 10 * b + DigitOf(c)))
        else [Span(a, b)] + Scan(s[1..], Between)
  }

  /** The matches re.findall reports for s, in order. */
  function Matches(s: string): seq<Token> {
    Scan(s, Between)
  }

  /** Python's range(a, b + 1): a, a+1, ..., b, empty when a > b. */
  function Inclusive(a: int, b: int): (r: seq<int>)
    ensures |r| == if a <= b then b - a + 1 else 0
    ensures forall k :: 0 <= k < |r| ==> r[k] == a + k
    decreases b - a
  {
    if a > b then [] else [a] + Inclusive(a + 1, b)
  }

  function TokenDays(t: Token): seq<int> {
    match t
    case Lone(d) => [d]
    case Span(a, b) => Inclusive(a, b)
  }

  function TokensDays(ts: seq<Token>): seq<int> {
    FlatMap(ts, TokenDays)
  }

  function ItemDays(x: DaySpec): seq<int> {
    match x
    case Day(n) => [n]
    case Text(s) => TokensDays(Matches(s))
    case OtherSpec => []
  }

  /** The days a list of day elements stands for, in input order. */
  function Decoded(items: seq<DaySpec>): seq<int> {
    FlatMap(items, ItemDays)
  }

  /** A single element is treated as a one-element list. */
  function AsList(f: DayField): seq<DaySpec> {
    match f
    case Single(x) => [x]
    case List(xs) => xs
  }

  function DecodeDays(f: DayField): seq<int> {
    Decoded(AsList(f))
  }

  /** decode_daylist: appends the days of each element in turn. */
  method DecodeDaylist(f: DayField) returns (days: seq<int>)
    ensures days == DecodeDays(f)
  {
    var items := AsList(f);
    days := [];
    for k := 0 to |items|
      invariant days == Decoded(items[..k])
    {
      FlatMapSnoc(items, k, ItemDays);
      match items[k]
      case Day(n) =>
        days := days + [n];
      case Text(s) =>
        days := AppendMatches(days, Matches(s));
      case OtherSpec =>
    }
    assert items[..|items|] == items;
  }

  /** The inner loop of decode_daylist over the matches of one string. */
  method AppendMatches(before: seq<int>, m: seq<Token>) returns (days: seq<int>)
    ensures days == before + TokensDays(m)
  {
    days := before;
    for j := 0 to |m|
      invariant days == before + TokensDays(m[..j])
    {
      FlatMapSnoc(m, j, TokenDays);
      match m[j]
      case Lone(d) =>
        days := days + [d];
      case Span(a, b) =>
        days := AppendRange(days, a, b);
    }
    assert m[..|m|] == m;
  }

  /** Appends the days of range(a, b + 1). */
  method AppendRange(before: seq<int>, a: int, b: int) returns (days: seq<int>)
    ensures days == before + Inclusive(a, b)
  {
    days := before;
    var i := a;
    while i <= b
      invariant a <= i <= b + 1 || (a > b && i == a)
      invariant days == before + Inclusive(a, i - 1)
    {
      assert Inclusive(a, i) == Inclusive(a, i - 1) + [i];
      days := days + [i];
      i := i + 1;
    }
  }

  // ---------------------------------------------------------------------
  // Properties of the expansion
  // ---------------------------------------------------------------------

  /** Output order follows input order and duplicates are kept. */
  lemma DecodedConcat(xs: seq<DaySpec>, ys: seq<DaySpec>)
    ensures Decoded(xs + ys) == Decoded(xs) + Decoded(ys)
  {
    FlatMapConcat(xs, ys, ItemDays);
  }

  /** Integers pass through unchanged and in order. */
  lemma {:induction false} IntegersPassThrough(items: seq<DaySpec>)
    requires forall k :: 0 <= k < |items| ==> items[k].Day?
    ensures |Decoded(items)| == |items|
    ensures forall k :: 0 <= k < |items| ==> Decoded(items)[k] == items[k].n
  {
    if items != [] {
      IntegersPassThrough(items[..|items| - 1]);
    }
  }

  lemma {:induction false} TokensDaysNonNegative(ts: seq<Token>)
    ensures forall d :: d in TokensDays(ts) ==> d >= 0
  {
    if ts != [] {
      TokensDaysNonNegative(ts[..|ts| - 1]);
      var t := ts[|ts| - 1];
      assert TokensDays(ts) == TokensDays(ts[..|ts| - 1]) + TokenDays(t);
      assert forall d :: d in TokenDays(t) ==> d >= 0 by {
        if t.Span? {
          assert forall k :: 0 <= k < |TokenDays(t)| ==> TokenDays(t)[k] == t.first + k;
        }
      }
    }
  }

  /** A string never yields a negative day: the minus sign is skipped. */
  lemma StringDaysNonNegative(s: string)
    ensures forall d :: d in ItemDays(Text(s)) ==> d >= 0
  {
    TokensDaysNonNegative(Matches(s));
  }

  // ---------------------------------------------------------------------
  // Writing day strings: the inverse of the scan
  // ---------------------------------------------------------------------

  function DigitChar(d: nat): (c: char)
    requires d < 10
    ensures IsDigit(c) && DigitOf(c) == d
  {
    ('0' as int + d) as char
  }

  /** Decimal numeral of n, without leading zeros. */
  function Numeral(n: nat): (s: string)
    ensures |s| >= 1 && AllDigits(s)
  {
    if n < 10 then [DigitChar(n)] else Numeral(n / 10) + [DigitChar(n % 10)]
  }

  /** The number read so far (v) extended by the digits of d. */
  function Feed(v: nat, d: string): nat
    requires AllDigits(d)
    decreases |d|
  {
    if d == [] then v else Feed(10 * v + DigitOf(d[0]), d[1..])
  }

  lemma {:induction false} FeedSnoc(v: nat, d: string, c: char)
    requires AllDigits(d) && IsDigit(c)
    ensures Feed(v, d + [c]) == 10 * Feed(v, d) + DigitOf(c)
    decreases |d|
  {
    if d != [] {
      assert (d + [c])[1..] == d[1..] + [c];
      FeedSnoc(10 * v + DigitOf(d[0]), d[1..], c);
    }
  }

  lemma {:induction false} FeedNumeral(n: nat)
    ensures Feed(0, Numeral(n)) == n
  {
    if n >= 10 {
      FeedNumeral(n / 10);
      FeedSnoc(0, Numeral(n / 10), DigitChar(n % 10));
    }
  }

  lemma {:induction false} ScanFirst(d: string, rest: string, a: nat)
    requires AllDigits(d)
    ensures Scan(d + rest, First(a)) == Scan(rest, First(Feed(a, d)))
    decreases |d|
  {
    if d != [] {
      assert (d + rest)[0] == d[0] && (d + rest)[1..] == d[1..] + rest;
      assert Feed(a, d) == Feed(10 * a + DigitOf(d[0]), d[1..]);
      ScanFirst(d[1..], rest, 10 * a + DigitOf(d[0]));
    } else {
      assert d + rest == rest;
    }
  }

  lemma {:induction false} ScanSecond(d: string, rest: string, a: nat, b: nat)
    requires AllDigits(d)
    ensures Scan(d + rest, Second(a, b)) == Scan(rest, Second(a, Feed(b, d)))
    decreases |d|
  {
    if d != [] {
      assert (d + rest)[0] == d[0] && (d + rest)[1..] == d[1..] + rest;
      assert Feed(b, d) == Feed(10 * b + DigitOf(d[0]), d[1..]);
      ScanSecond(d[1..], rest, a, 10 * b + DigitOf(d[0]));
    } else {
      assert d + rest == rest;
    }
  }

  function ShowToken(t: Token): string {
    match t
    case Lone(d) => Numeral(d)
    case Span(a, b) => Numeral(a) + "-" + Numeral(b)
  }

  /** The day string "a-b, c, ..." that lists the given matches. */
  function Render(ts: seq<Token>): string {
    if ts == [] then []
    else if |ts| == 1 then ShowToken(ts[0])
    else ShowToken(ts[0]) + ", " + Render(ts[1..])
  }

  /** Reading a whole numeral from between two matches. */
  lemma ScanNumeral(n: nat, rest: string)
    ensures Scan(Numeral(n) + rest, Between) == Scan(rest, First(n))
  {
    var s := Numeral(n);
    assert (s + rest)[1..] == s[1..] + rest;
    ScanFirst(s[1..], rest, DigitOf(s[0]));
    FeedNumeral(n);
  }

  /** Reading a whole numeral right after the '-' of a range. */
  lemma ScanRangeEnd(a: nat, n: nat, rest: string)
    ensures Scan(Numeral(n) + rest, Dash(a)) == Scan(rest, Second(a, n))
  {
    var s := Numeral(n);
    assert (s + rest)[1..] == s[1..] + rest;
    ScanSecond(s[1..], rest, a, DigitOf(s[0]));
    FeedNumeral(n);
  }

  /** A separator or the end of the string closes the match being read. */
  lemma ScanEndsMatch(st: ScanState, tail: string)
    requires st.First? || st.Second?
    requires tail == [] || tail[0] == ','
    ensures Scan(tail, st) == Close(st) + Matches(tail)
  {
    if tail != [] {
      assert Matches(tail) == Scan(tail[1..], Between);
    }
  }

  /** A match followed by the end of the string or by a separator is read back. */
  lemma ScanShow(t: Token, tail: string)
    requires tail == [] || tail[0] == ','
    ensures Matches(ShowToken(t) + tail) == [t] + Matches(tail)
  {
    match t
    case Lone(d) =>
      ScanNumeral(d, tail);
      ScanEndsMatch(First(d), tail);
    case Span(a, b) =>
      var rest := Numeral(b) + tail;
      assert ShowToken(t) + tail == Numeral(a) + (['-'] + rest);
      ScanNumeral(a, ['-'] + rest);
      assert Scan(['-'] + rest, First(a)) == Scan(rest, Dash(a));
      ScanRangeEnd(a, b, tail);
      ScanEndsMatch(Second(a, b), tail);
  }

  /** The separator ", " between two matches is skipped. */
  lemma MatchesSeparator(r: string)
    ensures Matches(", " + r) == Matches(r)
  {
    var tail := ", " + r;
    assert tail[1..] == " " + r && (" " + r)[1..] == r;
    assert Matches(tail) == Scan(" " + r, Between);
  }

  /** Rendering matches and scanning the result gives the matches back. */
  lemma {:induction false} MatchesRender(ts: seq<Token>)
    ensures Matches(Render(ts)) == ts
  {
    if |ts| == 1 {
      ScanShow(ts[0], []);
      assert ShowToken(ts[0]) + [] == ShowToken(ts[0]);
    } else if |ts| > 1 {
      var r := Render(ts[1..]);
      var tail := ", " + r;
      assert Render(ts) == ShowToken(ts[0]) + tail;
      ScanShow(ts[0], tail);
      MatchesSeparator(r);
      MatchesRender(ts[1..]);
      assert ts == [ts[0]] + ts[1..];
    }
  }

  /** Every list of days written as "a-b, c, ..." decodes to the days it names. */
  lemma DecodeRendered(ts: seq<Token>)
    ensures DecodeDays(Single(Text(Render(ts)))) == TokensDays(ts)
  {
    MatchesRender(ts);
    var items := [Text(Render(ts))];
    assert items[..0] == [];
    assert Decoded(items) == Decoded([]) + ItemDays(items[0]);
  }

  /** "1-3, 5" stands for days 1, 2, 3 and 5. */
  lemma DecodeRangeExample()
    ensures DecodeDays(List([Text("1-3, 5")])) == [1, 2, 3, 5]
  {
    var ts := [Span(1, 3), Lone(5)];
    assert Render(ts) == "1-3, 5";
    DecodeRendered(ts);
    assert TokensDays(ts) == TokensDays(ts[..1]) + TokenDays(ts[1]);
    assert TokensDays(ts[..1]) == TokensDays([]) + TokenDays(ts[0]);
    assert Inclusive(1, 3) == [1, 2, 3];
  }

  /** The minus sign of "-1" is not part of a match: the string stands for day 1. */
  lemma DecodeMinusOneExample()
    ensures DecodeDays(Single(Text("-1"))) == [1]
  {
    assert Matches("-1") == Scan("1", Between);
    assert Scan("1", Between) == Scan("", First(1));
    assert TokensDays([Lone(1)]) == TokensDays([]) + [1];
    assert AsList(Single(Text("-1"))) == [] + [Text("-1")];
  }

  // ---------------------------------------------------------------------
  // Day index
  // ---------------------------------------------------------------------

  /** day_index: the column of `day` within period p, counting across the missing day 0. */
  function DayIndex(p: Period, day: int): (r: Result<nat>)
    ensures r.Ok? ==> r.value < p.duration
    ensures r.Err? ==> r.error == IndexError
  {
    var offset := if p.start < 0 && day > 0 then day - p.start - 1 else day - p.start;
    if offset < 0 || offset > p.duration - 1 then Err(IndexError) else Ok(offset)
  }

  /** The trial day shown in column i of period p: the inverse of DayIndex. */
  function DayOf(p: Period, i: nat): int {
    if p.start < 0 && p.start + i >= 0 then p.start + i + 1 else p.start + i
  }

  lemma DayIndexSigns(p: Period, day: int)
    ensures p.start >= 0 && day >= 0 ==> DayIndex(p, day) == (if day - p.start < 0 || day - p.start >= p.duration then Err(IndexError) else Ok(day - p.start))
    ensures p.start < 0 && day <= 0 ==> DayIndex(p, day) == (if day - p.start < 0 || day - p.start >= p.duration then Err(IndexError) else Ok(day - p.start))
    ensures p.start < 0 && day > 0 ==> DayIndex(p, day) == (if day - p.start - 1 >= p.duration then Err(IndexError) else Ok(day - p.start - 1))
    ensures p.start >= 0 && day < 0 ==> DayIndex(p, day) == Err(IndexError)
  {
  }

  /** Columns and days correspond one to one. */
  lemma DayIndexRoundTrip(p: Period, i: nat)
    requires i < p.duration
    ensures DayIndex(p, DayOf(p, i)) == Ok(i)
    ensures p.start < 0 ==> DayOf(p, i) != 0
  {
  }

  lemma DayOfRoundTrip(p: Period, day: int)
    requires DayIndex(p, day).Ok?
    requires day != 0 || p.start >= 0
    ensures DayOf(p, DayIndex(p, day).value) == day
  {
  }

  /** In a period that starts before day 0, day 0 is read as day 1. */
  lemma DayZeroAliasesDayOne(p: Period)
    requires p.start < 0
    ensures DayIndex(p, 0) == DayIndex(p, 1)
  {
  }

  /** For a period starting at day -2 with 5 days, days -2, -1, 1, 2, 3 are columns 0..4. */
  lemma DayIndexExample(p: Period)
    requires p.start == -2 && p.duration == 5
    ensures DayIndex(p, -2) == Ok(0) && DayIndex(p, -1) == Ok(1)
    ensures DayIndex(p, 1) == Ok(2) && DayIndex(p, 2) == Ok(3) && DayIndex(p, 3) == Ok(4)
    ensures DayIndex(p, 4) == Err(IndexError) && DayIndex(p, -3) == Err(IndexError)
  {
  }
}
