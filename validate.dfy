// The input checks run on every period, procedure, administration and
// interval before anything is laid out, in the current release and in the
// previous one. A record is a map from key to JSON value.

module Validate {
  import opened Schema

  /** A JSON value, as far as the checks look at it: Python's
      `type(x) == int` holds only for JSON integers. */
  datatype Json = JInt(n: int) | JOther

  type Record = map<string, Json>

  /** None when the check passes, otherwise the exception it raises. */
  type Check = Option<Error>

  // ---------------------------------------------------------------------
  // Current release
  // ---------------------------------------------------------------------

  /** assert_period_format: a caption and an integer duration. */
  function PeriodFormat(r: Record): Check {
    if "caption" in r && "duration" in r && r["duration"].JInt? then None else Some(AssertionError)
  }

  /** assert_procedure_format: a caption and days. */
  function ProcedureFormat(r: Record): Check {
    if "caption" in r && "days" in r then None else Some(AssertionError)
  }

  /** assert_interval_format: a caption, and start with duration or days. */
  function IntervalFormat(r: Record): Check {
    if "caption" in r && (("start" in r && "duration" in r) || "days" in r) then None else Some(AssertionError)
  }

  // ---------------------------------------------------------------------
  // Previous release
  // ---------------------------------------------------------------------

  /** assert_period_format of the previous release: the missing fields are
      reported first, a duration below one day second. */
  function PreviousPeriodFormat(r: Record): Check {
    if !("caption" in r && "duration" in r && r["duration"].JInt?) then Some(TypeError(MissingFields))
    else if r["duration"].n < 1 then Some(TypeError(DurationBelowOne))
    else None
  }

  function PreviousProcedureFormat(r: Record): Check {
    if "caption" in r && "days" in r then None else Some(TypeError(MissingFields))
  }

  /** A missing caption trips a bare assert; a missing span is a TypeError. */
  function PreviousIntervalFormat(r: Record): Check {
    if "caption" !in r then Some(AssertionError)
    else if ("start" in r && "duration" in r) || "days" in r then None
    else Some(TypeError(NoSpan))
  }

  // ---------------------------------------------------------------------
  // Properties
  // ---------------------------------------------------------------------

  /** The previous release's period check passes exactly on a caption and
      an integer duration of at least one day, and names what is wrong. */
  lemma PreviousPeriodMeaning(r: Record)
    ensures PreviousPeriodFormat(r).None? <==>
      "caption" in r && "duration" in r && r["duration"].JInt? && r["duration"].n >= 1
    ensures PreviousPeriodFormat(r) == Some(TypeError(DurationBelowOne)) ==>
      "caption" in r && r["duration"].JInt? && r["duration"].n < 1
  {
  }

  /** Every period the previous release accepts, the current one accepts;
      the current release no longer rejects a duration below one day. */
  lemma PeriodChecksCompared(r: Record)
    ensures PreviousPeriodFormat(r).None? ==> PeriodFormat(r).None?
    ensures PeriodFormat(r).Some? <==> PreviousPeriodFormat(r) == Some(TypeError(MissingFields))
  {
  }

  lemma ZeroDurationPeriod()
    ensures PeriodFormat(map["caption" := JOther, "duration" := JInt(0)]).None?
    ensures PreviousPeriodFormat(map["caption" := JOther, "duration" := JInt(0)]) == Some(TypeError(DurationBelowOne))
  {
    var r := map["caption" := JOther, "duration" := JInt(0)];
    assert "caption" in r && "duration" in r && r["duration"] == JInt(0);
  }

  /** Both releases accept the same procedures and the same intervals;
      they differ only in the exception raised. */
  lemma ChecksAgree(r: Record)
    ensures ProcedureFormat(r).None? <==> PreviousProcedureFormat(r).None?
    ensures IntervalFormat(r).None? <==> PreviousIntervalFormat(r).None?
    ensures IntervalFormat(r).None? <==>
      "caption" in r && (("start" in r && "duration" in r) || "days" in r)
    ensures PreviousIntervalFormat(r) == Some(AssertionError) <==> "caption" !in r
  {
  }
}
