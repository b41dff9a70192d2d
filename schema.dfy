// The trial-design data model: periods (or cycles) owning procedures,
// administrations and intervals, as they stand once the input schedule has
// been loaded. The checks of either release look only at a period's caption
// and duration; a period here also always carries its `start`.

module Schema {

  datatype Option<T> = None | Some(value: T)

  /** Why a layout step fails; the Python code raises the matching exception. */
  datatype Error =
    | IndexError                  // a day outside its period, or labels[0] of an empty list
    | KeyError                    // a required key is missing
    | TypeError(reason: Reason)   // a malformed period or interval
    | AssertionError              // an interval without a caption (previous release)
    | ZeroDivisionError           // a dose graph whose numeric doses are all equal

  datatype Reason = MissingFields | DurationBelowOne | NoSpan

  datatype Result<T> = Ok(value: T) | Err(error: Error)

  /** One element of a "days" list: an integer, a string such as "1-3, 5",
      or any other JSON value (which contributes no day). A JSON boolean
      is a Python int, so `true` is Day(1) and `false` is Day(0). */
  datatype DaySpec = Day(n: int) | Text(s: string) | OtherSpec

  /** A "days" field: either a list of elements or a single element. */
  datatype DayField = Single(item: DaySpec) | List(items: seq<DaySpec>)

  /** A value stored under an arbitrary key such as "decoration", "value" or
      "dose". A JSON boolean is a Python bool: it equals 0 or 1 and counts as
      an int for `isinstance`, but its `type` is not int. A number keeps
      whether JSON wrote it as a float: 2 and 2.0 compare equal in Python
      (compare `x`), but `str` writes them as "2" and "2.0". */
  datatype FieldValue = Str(s: string) | Num(x: real, isFloat: bool) | Truth(b: bool) | OtherValue

  /** Python's `v == 0`. */
  predicate IsZero(v: FieldValue) {
    (v.Num? && v.x == 0.0) || v == Truth(false)
  }

  const Blank: FieldValue := Str("")

  datatype Footnote = Footnote(symbol: string, text: string, days: Option<DayField>)

  /** A procedure, administration or interval; absent keys are None. */
  datatype Activity = Activity(
    caption: string,
    days: Option<DayField>,
    times: Option<seq<int>>,
    freq: Option<string>,
    relative: Option<int>,
    labels: Option<seq<string>>,
    footnotes: Option<seq<Footnote>>,
    start: Option<int>,
    duration: Option<int>,
    timescale: Option<string>,
    fields: map<string, FieldValue>)

  datatype Kind = Intervals | Administrations | Procedures

  /** A period of `duration` days beginning at the signed day `start`; there is no day 0. */
  datatype Period = Period(
    caption: string,
    start: int,
    duration: int,
    daylabels: Option<DayField>,
    dayshading: Option<DayField>,
    intervals: seq<Activity>,
    administrations: seq<Activity>,
    procedures: seq<Activity>)

  /** The activities a period lists under one key (an absent key is an empty list). */
  function ActivitiesOf(p: Period, k: Kind): seq<Activity> {
    match k
    case Intervals => p.intervals
    case Administrations => p.administrations
    case Procedures => p.procedures
  }

  /** Key order of the current release's traversal. */
  const CurrentKinds: seq<Kind> := [Intervals, Administrations, Procedures]

  /** Key order of the previous release's field extraction. */
  const PreviousKinds: seq<Kind> := [Procedures, Administrations]

  /** Length of a list of `duration` slots (`[x] * duration` in Python is empty for duration <= 0). */
  function Days(p: Period): nat {
    if p.duration < 0 then 0 else p.duration
  }

  /** One day of a procedure: the day, its hour offsets and the reference day for its time scale. */
  datatype TimedDay = TimedDay(day: int, times: seq<int>, relative: int)
}
