/**
  * The availability rule of app.py: a car is available exactly when today
  * lies OUTSIDE the inclusive subscription window. The wall clock is replaced
  * by the `today` parameter.
  */
module Availability {
  import opened Wrappers
  import opened Json
  import opened Dates

  /** `datetime.strptime(v, '%Y-%m-%d')` on a JSON value: anything but a string raises TypeError. */
  function ParseArg(v: Value): Result<Date, DateError> {
    if v.Str? then ParseIso(v.s) else Failure(NotText)
  }

  /** The text of the exception `_is_available` reports as `str(e)`. */
  function Describe(e: DateError): string {
    match e
    case NotText => "strptime() argument 1 must be str"
    case BadFormat => "time data does not match format %Y-%m-%d"
    case YearOutOfRange => "year 0 is out of range"
    case DayOutOfRange => "day is out of range for month"
  }

  /** The window test itself: `not (start <= today <= end)`. */
  predicate OutsideWindow(start: Date, end: Date, today: Date) {
    !(NotAfter(start, today) && NotAfter(today, end))
  }

  /**
    * `_is_available(start_date, end_date)`: `[200, is_available]`, or
    * `[500, {"error": ...}]` when either date cannot be parsed. (The source
    * also formats today's date and parses it back; for a real date that
    * round trip is the identity, see Dates.ParseFormatIso.)
    */
  function IsAvailable(start: Value, end: Value, today: Date): (r: Reply)
    ensures r.status == 200 <==> ParseArg(start).Success? && ParseArg(end).Success?
    ensures r.status != 200 ==> r.status == 500 && r.body.Obj? && "error" in r.body.fields
    ensures r.status == 200 ==>
      r.body == Bool(OutsideWindow(ParseArg(start).value, ParseArg(end).value, today))
  {
    match ParseArg(start)
    case Failure(e) => Reply(500, ErrorBody(Describe(e)))
    case Success(s) =>
      match ParseArg(end)
      case Failure(e) => Reply(500, ErrorBody(Describe(e)))
      case Success(e) => Reply(200, Bool(OutsideWindow(s, e, today)))
  }

  /** Inside the window the car is reserved; before the start or after the end it is available. */
  lemma AvailableExactlyOutsideWindow(start: Date, end: Date, today: Date)
    requires Valid(start) && Valid(end) && Valid(today)
    ensures IsAvailable(Str(FormatIso(start)), Str(FormatIso(end)), today)
         == Reply(200, Bool(Before(today, start) || Before(end, today)))
  {
    ParseFormatIso(start);
    ParseFormatIso(end);
  }

  /** A window whose start lies after its end contains no day, so the car always reads as available. */
  lemma InvertedWindowAlwaysAvailable(start: Value, end: Value, today: Date)
    requires ParseArg(start).Success? && ParseArg(end).Success?
    requires Before(ParseArg(end).value, ParseArg(start).value)
    ensures IsAvailable(start, end, today) == Reply(200, Bool(true))
  {
  }

  /** An unparseable date never yields 200: availability is undetermined, not "available". */
  lemma UnparseableNeverAvailable(start: Value, end: Value, today: Date)
    requires ParseArg(start).Failure? || ParseArg(end).Failure?
    ensures IsAvailable(start, end, today).status == 500
    ensures IsAvailable(start, end, today).body != Bool(true)
  {
  }
}
