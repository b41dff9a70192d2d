// item_names: the captions of the intervals, administrations or
// procedures of a list of periods, each once, in order of first
// appearance. The previous release takes the periods from a trial, under
// "cycles" when that key exists and "periods" otherwise.

module Names {
  import opened Schema
  import opened Lists

  /** The captions of a list of activities, in order. */
  function CaptionsOf(acts: seq<Activity>): (r: seq<string>)
    ensures |r| == |acts| && forall i :: 0 <= i < |acts| ==> r[i] == acts[i].caption
  {
    seq(|acts|, i requires 0 <= i < |acts| => acts[i].caption)
  }

  function KindCaptions(k: Kind): Period -> seq<string> {
    p => CaptionsOf(ActivitiesOf(p, k))
  }

  /** Every caption of the given kind, period by period, repeats included. */
  function Captions(periods: seq<Period>, k: Kind): seq<string> {
    FlatMap(periods, KindCaptions(k))
  }

  /** Adds the names not yet listed, in order. */
  method AddNames(out: seq<string>, names: seq<string>, ghost before: seq<string>) returns (r: seq<string>)
    requires out == Unique(before)
    ensures r == Unique(before + names)
  {
    r := out;
    assert before + names[..0] == before;
    for j := 0 to |names|
      invariant r == Unique(before + names[..j])
    {
      assert before + names[..j + 1] == (before + names[..j]) + [names[j]];
      if names[j] !in r {
        r := r + [names[j]];
      }
    }
    assert names[..|names|] == names;
  }

  /** item_names over a list of periods. */
  method ItemNames(periods: seq<Period>, k: Kind) returns (out: seq<string>)
    ensures out == Unique(Captions(periods, k))
  {
    out := [];
    for j := 0 to |periods|
      invariant out == Unique(Captions(periods[..j], k))
    {
      FlatMapSnoc(periods, j, KindCaptions(k));
      out := AddNames(out, CaptionsOf(ActivitiesOf(periods[j], k)), Captions(periods[..j], k));
    }
    assert periods[..|periods|] == periods;
  }

  /** The names are exactly the captions of that kind, without repeats,
      in order of first appearance. */
  lemma ItemNamesMeaning(periods: seq<Period>, k: Kind)
    ensures forall c :: c in Unique(Captions(periods, k)) <==>
      exists p, a :: p in periods && a in ActivitiesOf(p, k) && a.caption == c
    ensures NoDuplicates(Unique(Captions(periods, k)))
    ensures forall i, j :: 0 <= i < j < |Unique(Captions(periods, k))| ==>
      FirstIndex(Captions(periods, k), Unique(Captions(periods, k))[i]) <
      FirstIndex(Captions(periods, k), Unique(Captions(periods, k))[j])
  {
    UniqueNoDuplicates(Captions(periods, k));
    UniqueFirstOccurrenceOrder(Captions(periods, k));
    forall c ensures c in Captions(periods, k) <==> exists p, a :: p in periods && a in ActivitiesOf(p, k) && a.caption == c {
      FlatMapMembers(periods, KindCaptions(k), c);
      if c in Captions(periods, k) {
        var p :| p in periods && c in CaptionsOf(ActivitiesOf(p, k));
        var i :| 0 <= i < |ActivitiesOf(p, k)| && CaptionsOf(ActivitiesOf(p, k))[i] == c;
        assert ActivitiesOf(p, k)[i] in ActivitiesOf(p, k);
      }
      if exists p, a :: p in periods && a in ActivitiesOf(p, k) && a.caption == c {
        var p, a :| p in periods && a in ActivitiesOf(p, k) && a.caption == c;
        var i :| 0 <= i < |ActivitiesOf(p, k)| && ActivitiesOf(p, k)[i] == a;
        assert CaptionsOf(ActivitiesOf(p, k))[i] == c;
      }
    }
  }

  /** A trial of the previous release: its periods under "periods", or
      under "cycles"; either key may be absent. */
  datatype Trial = Trial(periods: Option<seq<Period>>, cycles: Option<seq<Period>>)

  /** item_names of the previous release: "cycles" wins over "periods",
      and a trial with neither raises KeyError. */
  method TrialItemNames(t: Trial, k: Kind) returns (r: Result<seq<string>>)
    ensures t.cycles.Some? ==> r == Ok(Unique(Captions(t.cycles.value, k)))
    ensures t.cycles.None? && t.periods.Some? ==> r == Ok(Unique(Captions(t.periods.value, k)))
    ensures t.cycles.None? && t.periods.None? ==> r == Err(KeyError)
  {
    var unit: seq<Period>;
    if t.cycles.Some? {
      unit := t.cycles.value;
    } else if t.periods.Some? {
      unit := t.periods.value;
    } else {
      return Err(KeyError);
    }
    var names := ItemNames(unit, k);
    return Ok(names);
  }
}
