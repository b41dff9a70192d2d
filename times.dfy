// Hour offsets of a procedure: spreading offsets of 24 h or more onto the
// following days, and collecting them back onto their reference day.

module Times {
  import opened Schema
  import opened Lists

  /** [i for i in t if i < 24]: the offsets that stay on the current day. */
  function Below(t: seq<int>): (r: seq<int>)
    ensures |r| <= |t|
  {
    if t == [] then []
    else if t[0] < 24 then [t[0]] + Below(t[1..]) else Below(t[1..])
  }

  /** [i - 24 for i in t if i >= 24]: the offsets carried to the next day. */
  function Peel(t: seq<int>): (r: seq<int>)
    ensures |r| <= |t|
  {
    if t == [] then []
    else if t[0] >= 24 then [t[0] - 24] + Peel(t[1..]) else Peel(t[1..])
  }

  lemma {:induction false} BelowMembers(t: seq<int>)
    ensures forall x :: x in Below(t) <==> x in t && x < 24
  {
    if t != [] {
      BelowMembers(t[1..]);
      assert forall x :: x in t <==> x == t[0] || x in t[1..];
    }
  }

  lemma {:induction false} PeelMembers(t: seq<int>)
    ensures forall x :: x in Peel(t) <==> x >= 0 && x + 24 in t
  {
    if t != [] {
      PeelMembers(t[1..]);
      assert forall x :: x in t <==> x == t[0] || x in t[1..];
    }
  }

  /** Number of rounds of the peeling loop an offset takes part in. */
  function Rounds(x: int): nat {
    if x < 24 then 1 else x / 24 + 1
  }

  /** Number of rounds the peeling loop runs on t. */
  function Horizon(t: seq<int>): nat {
    if t == [] then 0
    else
      var h := Horizon(t[1..]);
      if Rounds(t[0]) > h then Rounds(t[0]) else h
  }

  lemma {:induction false} HorizonPeel(t: seq<int>)
    ensures Horizon(Peel(t)) == if t == [] then 0 else Horizon(t) - 1
  {
    if t != [] {
      HorizonPeel(t[1..]);
      assert t[0] >= 24 ==> Rounds(t[0] - 24) == Rounds(t[0]) - 1;
      if t[0] >= 24 {
        assert Peel(t) == [t[0] - 24] + Peel(t[1..]);
        assert ([t[0] - 24] + Peel(t[1..]))[1..] == Peel(t[1..]);
      } else {
        assert Peel(t) == Peel(t[1..]);
      }
    }
  }

  /** The entries one (day, times, relative) entry becomes: a round puts the
      offsets below 24 on the current day, if any, and moves on with the rest. */
  function Spread(d: int, t: seq<int>, rel: int): seq<TimedDay>
    decreases Horizon(t)
  {
    if t == [] then []
    else
      HorizonPeel(t);
      (if Below(t) != [] then [TimedDay(d, Below(t), rel)] else []) + Spread(d + 1, Peel(t), rel)
  }

  function SpreadEntry(e: TimedDay): seq<TimedDay> {
    Spread(e.day, e.times, e.relative)
  }

  /** normalize_procedure, as a function of its input list. */
  function Normalized(es: seq<TimedDay>): seq<TimedDay> {
    FlatMap(es, SpreadEntry)
  }

  /** normalize_procedure: each entry is spread over the days its offsets reach. */
  method Normalize(es: seq<TimedDay>) returns (out: seq<TimedDay>)
    ensures out == Normalized(es)
  {
    out := [];
    for k := 0 to |es|
      invariant out == Normalized(es[..k])
    {
      FlatMapSnoc(es, k, SpreadEntry);
      out := SpreadDays(out, es[k].day, es[k].times, es[k].relative);
    }
    assert es[..|es|] == es;
  }

  /** The while-loop of normalize_procedure: one day's worth of hours per round. */
  method SpreadDays(before: seq<TimedDay>, d: int, times: seq<int>, rel: int) returns (out: seq<TimedDay>)
    ensures out == before + Spread(d, times, rel)
  {
    out := before;
    var t := times;
    var dd := 0;
    while t != []
      invariant out + Spread(d + dd, t, rel) == before + Spread(d, times, rel)
      decreases Horizon(t)
    {
      HorizonPeel(t);
      var temp := Below(t);
      ghost var head: seq<TimedDay> := if temp != [] then [TimedDay(d + dd, temp, rel)] else [];
      assert Spread(d + dd, t, rel) == head + Spread(d + dd + 1, Peel(t), rel);
      if temp != [] {
        out := out + [TimedDay(d + dd, temp, rel)];
      }
      t := Peel(t);
      dd := dd + 1;
    }
  }

  // ---------------------------------------------------------------------
  // Shape of the normalised entries
  // ---------------------------------------------------------------------

  /** Every entry keeps the relative day it came from, has a non-empty list of
      offsets, and all those offsets are below 24. */
  lemma {:induction false} SpreadShape(d: int, t: seq<int>, rel: int)
    ensures forall e :: e in Spread(d, t, rel) ==>
      e.relative == rel && e.times != [] && forall x :: x in e.times ==> x < 24
    decreases Horizon(t)
  {
    if t != [] {
      HorizonPeel(t);
      BelowMembers(t);
      SpreadShape(d + 1, Peel(t), rel);
    }
  }

  /** Non-negative offsets stay non-negative. */
  lemma {:induction false} SpreadNonNegative(d: int, t: seq<int>, rel: int)
    requires forall x :: x in t ==> x >= 0
    ensures forall e, x :: e in Spread(d, t, rel) && x in e.times ==> 0 <= x < 24
    decreases Horizon(t)
  {
    if t != [] {
      HorizonPeel(t);
      BelowMembers(t);
      PeelMembers(t);
      SpreadNonNegative(d + 1, Peel(t), rel);
      SpreadShape(d, t, rel);
    }
  }

  lemma {:induction false} NormalizedShape(es: seq<TimedDay>)
    ensures forall e :: e in Normalized(es) ==>
      e.times != [] && (forall x :: x in e.times ==> x < 24) &&
      exists k :: 0 <= k < |es| && es[k].relative == e.relative
  {
    if es != [] {
      var n := |es| - 1;
      NormalizedShape(es[..n]);
      SpreadShape(es[n].day, es[n].times, es[n].relative);
      forall e | e in Normalized(es)
        ensures e.times != [] && (forall x :: x in e.times ==> x < 24) &&
          exists k :: 0 <= k < |es| && es[k].relative == e.relative
      {
        if e in Normalized(es[..n]) {
          var k :| 0 <= k < n && es[..n][k].relative == e.relative;
          assert es[k].relative == e.relative;
        } else {
          assert e in SpreadEntry(es[n]);
        }
      }
    }
  }

  lemma {:induction false} NormalizedNonNegative(es: seq<TimedDay>)
    requires forall k, x :: 0 <= k < |es| && x in es[k].times ==> x >= 0
    ensures forall e, x :: e in Normalized(es) && x in e.times ==> 0 <= x < 24
  {
    if es != [] {
      var n := |es| - 1;
      NormalizedNonNegative(es[..n]);
      SpreadNonNegative(es[n].day, es[n].times, es[n].relative);
    }
  }

  // ---------------------------------------------------------------------
  // Where each offset lands
  // ---------------------------------------------------------------------

  /** An offset x >= 0 given on day d is found on day d + x / 24 as x % 24. */
  lemma {:induction false} SpreadLands(d: int, t: seq<int>, rel: int, x: int)
    requires x in t && x >= 0
    ensures exists e :: e in Spread(d, t, rel) && e.day == d + x / 24 && x % 24 in e.times
    decreases Horizon(t)
  {
    HorizonPeel(t);
    BelowMembers(t);
    PeelMembers(t);
    var rest := Spread(d + 1, Peel(t), rel);
    var head: seq<TimedDay> := if Below(t) != [] then [TimedDay(d, Below(t), rel)] else [];
    assert Spread(d, t, rel) == head + rest;
    if x < 24 {
      assert x / 24 == 0 && x % 24 == x;
      assert head[0] in Spread(d, t, rel);
    } else {
      assert (x - 24) / 24 + 1 == x / 24 && (x - 24) % 24 == x % 24;
      SpreadLands(d + 1, Peel(t), rel, x - 24);
      var e :| e in rest && e.day == d + 1 + (x - 24) / 24 && (x - 24) % 24 in e.times;
      assert e in Spread(d, t, rel);
    }
  }

  /** (d, [22, 26], r) becomes (d, [22], r) followed by (d + 1, [2], r). */
  lemma NormalizeExample(d: int, r: int)
    ensures Normalized([TimedDay(d, [22, 26], r)]) == [TimedDay(d, [22], r), TimedDay(d + 1, [2], r)]
  {
    var t := [22, 26];
    assert Below(t) == [22] && Peel(t) == [2];
    assert Below([2]) == [2] && Peel([2]) == [];
    assert Spread(d + 1, [2], r) == [TimedDay(d + 1, [2], r)] + Spread(d + 2, [], r);
    assert Normalized([TimedDay(d, t, r)]) == Normalized([]) + SpreadEntry(TimedDay(d, t, r));
  }

  // ---------------------------------------------------------------------
  // Counting offsets
  // ---------------------------------------------------------------------

  function Count(es: seq<TimedDay>): nat {
    if es == [] then 0 else Count(es[..|es| - 1]) + |es[|es| - 1].times|
  }

  lemma {:induction false} CountConcat(xs: seq<TimedDay>, ys: seq<TimedDay>)
    ensures Count(xs + ys) == Count(xs) + Count(ys)
    decreases |ys|
  {
    if ys == [] {
      assert xs + ys == xs;
    } else {
      var n := |ys| - 1;
      assert (xs + ys)[..|xs + ys| - 1] == xs + ys[..n];
      CountConcat(xs, ys[..n]);
    }
  }

  lemma {:induction false} SplitCount(t: seq<int>)
    ensures |Below(t)| + |Peel(t)| == |t|
  {
    if t != [] {
      SplitCount(t[1..]);
    }
  }

  lemma {:induction false} SpreadCount(d: int, t: seq<int>, rel: int)
    ensures Count(Spread(d, t, rel)) == |t|
    decreases Horizon(t)
  {
    if t != [] {
      HorizonPeel(t);
      SplitCount(t);
      SpreadCount(d + 1, Peel(t), rel);
      var head: seq<TimedDay> := if Below(t) != [] then [TimedDay(d, Below(t), rel)] else [];
      CountConcat(head, Spread(d + 1, Peel(t), rel));
      assert Count(head) == |Below(t)| by {
        if Below(t) != [] {
          assert head[..0] == [];
        }
      }
    }
  }

  /** normalize_procedure neither loses nor invents an offset. */
  lemma {:induction false} NormalizedCount(es: seq<TimedDay>)
    ensures Count(Normalized(es)) == Count(es)
  {
    if es != [] {
      var n := |es| - 1;
      NormalizedCount(es[..n]);
      CountConcat(Normalized(es[..n]), SpreadEntry(es[n]));
      SpreadCount(es[n].day, es[n].times, es[n].relative);
    }
  }

  // ---------------------------------------------------------------------
  // Collecting offsets back onto their reference day
  // ---------------------------------------------------------------------

  /** Offsets x on day d shifted to hours after day r: x + (d - r) * 24. */
  function Shift(t: seq<int>, c: int): (r: seq<int>)
    ensures |r| == |t|
  {
    if t == [] then [] else [t[0] + c] + Shift(t[1..], c)
  }

  lemma {:induction false} ShiftConcat(a: seq<int>, b: seq<int>, c: int)
    ensures Shift(a + b, c) == Shift(a, c) + Shift(b, c)
  {
    if a != [] {
      assert (a + b)[0] == a[0] && (a + b)[1..] == a[1..] + b;
      ShiftConcat(a[1..], b, c);
    } else {
      assert a + b == b;
    }
  }

  function EntryGroup(e: TimedDay, r: int): seq<int> {
    if e.relative == r then Shift(e.times, (e.day - r) * 24) else []
  }

  /** The hours unnormalize_procedure collects for reference day r, in list order. */
  function GroupTimes(es: seq<TimedDay>, r: int): seq<int> {
    if es == [] then [] else GroupTimes(es[..|es| - 1], r) + EntryGroup(es[|es| - 1], r)
  }

  function Rels(es: seq<TimedDay>): set<int> {
    set k | 0 <= k < |es| :: es[k].relative
  }

  /** The reference days of a list of entries, in order. */
  function RelativesOf(es: seq<TimedDay>): (rs: seq<int>)
    ensures |rs| == |es| && forall i :: 0 <= i < |es| ==> rs[i] == es[i].relative
  {
    seq(|es|, i requires 0 <= i < |es| => es[i].relative)
  }

  /** out holds one (r, hours, r) entry for each reference day r in done. */
  ghost predicate Collected(es: seq<TimedDay>, out: seq<TimedDay>, done: set<int>) {
    && |out| == |done|
    && (forall i :: 0 <= i < |out| ==>
         out[i].day == out[i].relative && out[i].times == GroupTimes(es, out[i].relative))
    && NoDuplicates(RelativesOf(out))
    && (forall r :: r in done <==> r in RelativesOf(out))
  }

  lemma CollectedStep(es: seq<TimedDay>, out: seq<TimedDay>, done: set<int>, rel: int)
    requires Collected(es, out, done) && rel !in done
    ensures Collected(es, out + [TimedDay(rel, GroupTimes(es, rel), rel)], done + {rel})
  {
    var out' := out + [TimedDay(rel, GroupTimes(es, rel), rel)];
    assert RelativesOf(out') == RelativesOf(out) + [rel];
    assert forall i :: 0 <= i < |out| ==> out'[i] == out[i];
  }

  /** unnormalize_procedure: one (r, hours, r) entry per distinct reference day r,
      in an unspecified order (Python iterates over a set). */
  method Unnormalize(es: seq<TimedDay>) returns (out: seq<TimedDay>)
    ensures |out| == |Rels(es)|
    ensures forall i :: 0 <= i < |out| ==>
      out[i].day == out[i].relative && out[i].times == GroupTimes(es, out[i].relative)
    ensures NoDuplicates(RelativesOf(out))
    ensures forall r :: r in Rels(es) <==> r in RelativesOf(out)
  {
    out := [];
    var rels := Rels(es);
    ghost var done: set<int> := {};
    while rels != {}
      invariant rels !! done && rels + done == Rels(es)
      invariant Collected(es, out, done)
      decreases |rels|
    {
      var rel :| rel in rels;
      var current := CollectGroup(es, rel);
      CollectedStep(es, out, done, rel);
      out := out + [TimedDay(rel, current, rel)];
      rels := rels - {rel};
      done := done + {rel};
    }
  }

  /** The nested loops of unnormalize_procedure for one reference day. */
  method CollectGroup(es: seq<TimedDay>, rel: int) returns (current: seq<int>)
    ensures current == GroupTimes(es, rel)
  {
    current := [];
    for k := 0 to |es|
      invariant current == GroupTimes(es[..k], rel)
    {
      assert es[..k + 1][..k] == es[..k];
      current := CollectEntry(current, es[k], rel);
    }
    assert es[..|es|] == es;
  }

  /** The innermost loop: the hours of one entry, if it counts from day rel. */
  method CollectEntry(before: seq<int>, e: TimedDay, rel: int) returns (current: seq<int>)
    ensures current == before + EntryGroup(e, rel)
  {
    current := before;
    if e.relative == rel {
      var ts, c := e.times, (e.day - e.relative) * 24;
      for j := 0 to |ts|
        invariant current == before + Shift(ts[..j], c)
      {
        assert ts[..j + 1] == ts[..j] + [ts[j]];
        ShiftConcat(ts[..j], [ts[j]], c);
        current := current + [ts[j] + c];
      }
      assert ts[..|ts|] == ts;
    }
  }

  lemma LastOfConcat(xs: seq<TimedDay>, ys: seq<TimedDay>)
    requires ys != []
    ensures (xs + ys)[..|xs + ys| - 1] == xs + ys[..|ys| - 1] && (xs + ys)[|xs + ys| - 1] == ys[|ys| - 1]
  {
  }

  lemma Assoc(a: seq<int>, b: seq<int>, c: seq<int>)
    ensures (a + b) + c == a + (b + c)
  {
  }

  lemma {:induction false} GroupTimesConcat(xs: seq<TimedDay>, ys: seq<TimedDay>, r: int)
    ensures GroupTimes(xs + ys, r) == GroupTimes(xs, r) + GroupTimes(ys, r)
    decreases |ys|
  {
    if ys == [] {
      assert xs + ys == xs;
    } else {
      var n := |ys| - 1;
      LastOfConcat(xs, ys);
      GroupTimesConcat(xs, ys[..n], r);
      Assoc(GroupTimes(xs, r), GroupTimes(ys[..n], r), EntryGroup(ys[n], r));
    }
  }

  lemma GroupTimesSingle(e: TimedDay, r: int)
    ensures GroupTimes([e], r) == EntryGroup(e, r)
  {
    assert [e][..0] == [];
  }

  /** Shifting t splits into shifting what stays and what is carried a day on. */
  predicate SplitHolds(t: seq<int>, c: int) {
    multiset(Shift(t, c)) == multiset(Shift(Below(t), c)) + multiset(Shift(Peel(t), c + 24))
  }

  lemma ShiftHead(t: seq<int>, c: int)
    requires t != []
    ensures multiset(Shift(t, c)) == multiset{t[0] + c} + multiset(Shift(t[1..], c))
  {
  }

  lemma SplitStays(t: seq<int>, c: int)
    requires t != [] && t[0] < 24 && SplitHolds(t[1..], c)
    ensures SplitHolds(t, c)
  {
    ShiftHead(t, c);
    ShiftHead(Below(t), c);
  }

  lemma SplitCarried(t: seq<int>, c: int)
    requires t != [] && t[0] >= 24 && SplitHolds(t[1..], c)
    ensures SplitHolds(t, c)
  {
    ShiftHead(t, c);
    ShiftHead(Peel(t), c + 24);
  }

  lemma {:induction false} ShiftSplit(t: seq<int>, c: int)
    ensures SplitHolds(t, c)
  {
    if t != [] {
      ShiftSplit(t[1..], c);
      if t[0] < 24 {
        SplitStays(t, c);
      } else {
        SplitCarried(t, c);
      }
    }
  }

  /** The first round of the spread contributes the offsets below 24, shifted. */
  lemma SpreadGroupHead(d: int, t: seq<int>, rel: int)
    requires t != []
    ensures GroupTimes(Spread(d, t, rel), rel)
      == Shift(Below(t), (d - rel) * 24) + GroupTimes(Spread(d + 1, Peel(t), rel), rel)
  {
    var rest := Spread(d + 1, Peel(t), rel);
    var head: seq<TimedDay> := if Below(t) != [] then [TimedDay(d, Below(t), rel)] else [];
    HorizonPeel(t);
    assert Spread(d, t, rel) == head + rest;
    GroupTimesConcat(head, rest, rel);
    if Below(t) != [] {
      GroupTimesSingle(TimedDay(d, Below(t), rel), rel);
    } else {
      assert Shift(Below(t), (d - rel) * 24) == [];
    }
  }

  predicate GroupHolds(d: int, t: seq<int>, rel: int) {
    multiset(GroupTimes(Spread(d, t, rel), rel)) == multiset(Shift(t, (d - rel) * 24))
  }

  /** The group of the following day, counted from the same reference day,
      holds its offsets 24 hours later. */
  lemma GroupHoldsNext(d: int, t: seq<int>, rel: int, c: int)
    requires c == (d - rel) * 24 && GroupHolds(d + 1, t, rel)
    ensures multiset(GroupTimes(Spread(d + 1, t, rel), rel)) == multiset(Shift(t, c + 24))
  {
    var e := (d + 1 - rel) * 24;
    assert e == c + 24;
    assert Shift(t, e) == Shift(t, c + 24);
  }

  lemma GroupStep(d: int, t: seq<int>, rel: int)
    requires t != [] && GroupHolds(d + 1, Peel(t), rel)
    ensures GroupHolds(d, t, rel)
  {
    var c := (d - rel) * 24;
    SpreadGroupHead(d, t, rel);
    GroupHoldsNext(d, Peel(t), rel, c);
    ShiftSplit(t, c);
  }

  /** The hours of one spread entry, counted from its reference day, are those
      of the original entry. */
  lemma {:induction false} SpreadGroup(d: int, t: seq<int>, rel: int)
    ensures GroupHolds(d, t, rel)
    decreases Horizon(t)
  {
    if t != [] {
      HorizonPeel(t);
      SpreadGroup(d + 1, Peel(t), rel);
      GroupStep(d, t, rel);
    }
  }

  lemma SpreadOtherGroup(d: int, t: seq<int>, rel: int, r: int)
    requires r != rel
    ensures GroupTimes(Spread(d, t, rel), r) == []
    decreases Horizon(t)
  {
    SpreadShape(d, t, rel);
    var s := Spread(d, t, rel);
    assert forall k :: 0 <= k < |s| ==> s[k].relative != r;
    GroupTimesNone(s, r);
  }

  lemma {:induction false} GroupTimesNone(es: seq<TimedDay>, r: int)
    requires forall k :: 0 <= k < |es| ==> es[k].relative != r
    ensures GroupTimes(es, r) == []
  {
    if es != [] {
      GroupTimesNone(es[..|es| - 1], r);
    }
  }

  /** A spread entry keeps the hours of its own reference day... */
  lemma EntryRoundTripSame(e: TimedDay, r: int)
    requires e.relative == r
    ensures multiset(GroupTimes(SpreadEntry(e), r)) == multiset(EntryGroup(e, r))
  {
    var s := Spread(e.day, e.times, r);
    var h := Shift(e.times, (e.day - r) * 24);
    assert SpreadEntry(e) == s;
    assert EntryGroup(e, r) == h;
    assert multiset(GroupTimes(s, r)) == multiset(h) by {
      SpreadGroup(e.day, e.times, r);
    }
  }

  /** ... and contributes nothing to any other reference day. */
  lemma EntryRoundTripOther(e: TimedDay, r: int)
    requires e.relative != r
    ensures GroupTimes(SpreadEntry(e), r) == EntryGroup(e, r) == []
  {
    SpreadOtherGroup(e.day, e.times, e.relative, r);
  }

  lemma EntryRoundTrip(e: TimedDay, r: int)
    ensures multiset(GroupTimes(SpreadEntry(e), r)) == multiset(EntryGroup(e, r))
  {
    if e.relative == r {
      EntryRoundTripSame(e, r);
    } else {
      EntryRoundTripOther(e, r);
    }
  }

  lemma Rejoin(a: seq<int>, b: seq<int>, c: seq<int>, d: seq<int>)
    requires multiset(a) == multiset(c) && multiset(b) == multiset(d)
    ensures multiset(a + b) == multiset(c + d)
  {
  }

  /** The last entry's spread adds back exactly its own hours. */
  lemma RoundTripLast(es: seq<TimedDay>, r: int)
    requires es != []
    requires multiset(GroupTimes(Normalized(es[..|es| - 1]), r)) == multiset(GroupTimes(es[..|es| - 1], r))
    ensures multiset(GroupTimes(Normalized(es), r)) == multiset(GroupTimes(es, r))
  {
    var n := |es| - 1;
    var pre := es[..n];
    FlatMapSnoc(es, n, SpreadEntry);
    assert es[..n + 1] == es;
    GroupTimesConcat(Normalized(pre), SpreadEntry(es[n]), r);
    EntryRoundTrip(es[n], r);
    Rejoin(GroupTimes(Normalized(pre), r), GroupTimes(SpreadEntry(es[n]), r), GroupTimes(pre, r), EntryGroup(es[n], r));
  }

  /** Unnormalising the normalised entries gives each reference day the same
      hours as the original entries, up to order. */
  lemma {:induction false} NormalizeRoundTrip(es: seq<TimedDay>, r: int)
    ensures multiset(GroupTimes(Normalized(es), r)) == multiset(GroupTimes(es, r))
  {
    if es != [] {
      NormalizeRoundTrip(es[..|es| - 1], r);
      RoundTripLast(es, r);
    }
  }
}
