/**
 * trackingapp/helpers.py: string comparison, the null-or-blank test, the
 * "HH:MM" duration, reading a time window back out of a crontab, and the two
 * GPA status classifiers.
 */
module Helpers {
  import opened Wrappers
  import opened Python
  import opened Store

  /** A value as the helpers receive it: None, a str, or an int. */
  datatype PyValue = PyNone | Str(s: string) | Int(i: int)

  // ---------------------------------------------------------------------------
  // stri_compare

  /** Case-insensitive comparison of two strings; plain equality otherwise. */
  function StriCompare(a: PyValue, b: PyValue): bool {
    if a.Str? && b.Str? then Strip(Upper(a.s)) == Strip(Upper(b.s)) else a == b
  }

  /** stri_compare is an equivalence, and only ever matches a str with a str. */
  lemma StriCompareIsEquivalence(a: PyValue, b: PyValue, c: PyValue)
    ensures StriCompare(a, a)
    ensures StriCompare(a, b) == StriCompare(b, a)
    ensures StriCompare(a, b) && StriCompare(b, c) ==> StriCompare(a, c)
    ensures a.Str? != b.Str? ==> !StriCompare(a, b)
  {
  }

  lemma UpperOfLower(s: string)
    ensures Upper(Lower(s)) == Upper(s)
  {
  }

  lemma UpperConcat(a: string, b: string)
    ensures Upper(a + b) == Upper(a) + Upper(b)
  {
  }

  lemma UpperKeepsSpace(w: string)
    requires AllSpace(w)
    ensures AllSpace(Upper(w))
  {
  }

  /**
   * A string matches itself written in lower case and padded with whitespace
   * on either side.
   */
  lemma StriCompareIgnoresCaseAndPadding(s: string, w1: string, w2: string)
    requires AllSpace(w1) && AllSpace(w2)
    ensures StriCompare(Str(w1 + Lower(s) + w2), Str(s))
  {
    UpperConcat(w1 + Lower(s), w2);
    UpperConcat(w1, Lower(s));
    UpperOfLower(s);
    UpperKeepsSpace(w1);
    UpperKeepsSpace(w2);
    StripIgnoresPadding(Upper(w1), Upper(s), Upper(w2));
  }

  // ---------------------------------------------------------------------------
  // is_null_or_empty

  /** True for None or a str of whitespace only; an int has no `strip`. */
  function IsNullOrEmpty(v: PyValue): (r: Result<bool, Exception>)
    ensures r.Ok? <==> !v.Int?
    ensures r.Ok? ==> (r.value <==> v.PyNone? || AllSpace(v.s))
  {
    match v
    case PyNone => Ok(true)
    case Str(s) => StripEmptyIff(s); Ok(Strip(s) == [])
    case Int(_) => Err(AttributeError)
  }

  // ---------------------------------------------------------------------------
  // datetime.time and calculate_seconds

  /** A `datetime.time` at minute resolution. */
  datatype Time = Time(hour: nat, minute: nat)

  const SecondsPerDay: nat := 86400

  function SecondOfDay(t: Time): nat {
    (t.hour * 60 + t.minute) * 60
  }

  /** `time(int(hourText), int(minuteText))`. */
  function TimeOf(hourText: string, minuteText: string): (r: Result<Time, Exception>)
    ensures r.Ok? <==>
      && ParseInt(hourText).Some? && 0 <= ParseInt(hourText).value < 24
      && ParseInt(minuteText).Some? && 0 <= ParseInt(minuteText).value < 60
    ensures r.Ok? ==> r.value == Time(ParseInt(hourText).value, ParseInt(minuteText).value)
    ensures r.Ok? ==> SecondOfDay(r.value) < SecondsPerDay
    ensures r.Err? ==> r.error == ValueError
  {
    match (ParseInt(hourText), ParseInt(minuteText))
    case (Some(h), Some(m)) =>
      if 0 <= h < 24 && 0 <= m < 60 then Ok(Time(h, m)) else Err(ValueError)
    case _ => Err(ValueError)
  }

  /** `hour, minute = text.split(':')` followed by `time(int(hour), int(minute))`. */
  function ClockTime(text: string): Result<Time, Exception> {
    var parts := Split(text, ':');
    if |parts| != 2 then Err(ValueError) else TimeOf(parts[0], parts[1])
  }

  /**
   * `calculate_seconds`: `.seconds` of the timedelta between two times of the same
   * day, which Python normalises into one day, so an end before the start wraps.
   */
  function CalculateSeconds(startTime: string, endTime: string): (r: Result<nat, Exception>)
    ensures r.Ok? <==> ClockTime(startTime).Ok? && ClockTime(endTime).Ok?
    ensures r.Err? ==> r.error == ValueError
    ensures r.Ok? ==> r.value < SecondsPerDay
    ensures r.Ok? ==>
      var d := SecondOfDay(ClockTime(endTime).value) - SecondOfDay(ClockTime(startTime).value);
      r.value == if d >= 0 then d else SecondsPerDay + d
  {
    var s := ClockTime(startTime);
    var e := ClockTime(endTime);
    if s.Err? || e.Err? then Err(ValueError)
    else
      var d := SecondOfDay(e.value) - SecondOfDay(s.value);
      WrapWithinDay(d);
      Ok(d % SecondsPerDay)
  }

  /** timedelta normalisation of a difference of two times of one day. */
  lemma WrapWithinDay(d: int)
    requires -(SecondsPerDay as int) < d < SecondsPerDay
    ensures d % SecondsPerDay == if d >= 0 then d else SecondsPerDay + d
  {
  }

  /** A zero-padded "HH:MM" reads back as the time it was written from. */
  lemma ClockTimeOfPadded(h: nat, m: nat)
    requires h < 24 && m < 60
    ensures ClockTime(Pad2(h) + ":" + Pad2(m)) == Ok(Time(h, m))
  {
    ParseIntOfPad2(h);
    ParseIntOfPad2(m);
    SplitPair(Pad2(h), ':', Pad2(m));
  }

  /** A forward window, and one that crosses midnight. */
  lemma CalculateSecondsExamples()
    ensures CalculateSeconds(Pad2(8) + ":" + Pad2(30), Pad2(17) + ":" + Pad2(0)) == Ok(30600)
    ensures CalculateSeconds(Pad2(22) + ":" + Pad2(0), Pad2(2) + ":" + Pad2(0)) == Ok(14400)
  {
    ClockTimeOfPadded(8, 30);
    ClockTimeOfPadded(17, 0);
    ClockTimeOfPadded(22, 0);
    ClockTimeOfPadded(2, 0);
  }

  // ---------------------------------------------------------------------------
  // get_cron_start_time / get_cron_end_time

  /** Piece `index` of a `"A-B"` field, or the whole field when it has no '-'. */
  function WindowPart(field: string, index: nat): string
    requires index < 2
  {
    if '-' in field then Split(field, '-')[index] else field
  }

  /** `get_cron_start_time` */
  function CronStartTime(cron: Crontab): Result<Time, Exception> {
    TimeOf(WindowPart(cron.hour, 0), WindowPart(cron.minute, 0))
  }

  /** `get_cron_end_time` */
  function CronEndTime(cron: Crontab): Result<Time, Exception> {
    TimeOf(WindowPart(cron.hour, 1), WindowPart(cron.minute, 1))
  }

  /** For fields `"A-B"` the start reads the A pieces and the end the B pieces. */
  lemma CronWindowEnds(sm: string, em: string, sh: string, eh: string, dow: string, dom: string)
    requires '-' !in sm && '-' !in em && '-' !in sh && '-' !in eh
    ensures CronStartTime(Crontab(sm + "-" + em, sh + "-" + eh, dow, dom)) == TimeOf(sh, sm)
    ensures CronEndTime(Crontab(sm + "-" + em, sh + "-" + eh, dow, dom)) == TimeOf(eh, em)
  {
    SplitPair(sm, '-', em);
    SplitPair(sh, '-', eh);
    assert '-' in sm + "-" + em by { assert (sm + "-" + em)[|sm|] == '-'; }
    assert '-' in sh + "-" + eh by { assert (sh + "-" + eh)[|sh|] == '-'; }
  }

  /**
   * Each field is read on its own: a minute (or hour) field without '-' gives the same
   * minute (or hour) at both ends, whatever the other field holds; with neither field
   * a range, start and end are the one instant.
   */
  lemma CronSingleInstant(cron: Crontab)
    ensures '-' !in cron.minute && CronStartTime(cron).Ok? && CronEndTime(cron).Ok? ==>
      CronStartTime(cron).value.minute == CronEndTime(cron).value.minute
    ensures '-' !in cron.hour && CronStartTime(cron).Ok? && CronEndTime(cron).Ok? ==>
      CronStartTime(cron).value.hour == CronEndTime(cron).value.hour
    ensures '-' !in cron.minute && '-' !in cron.hour ==>
      CronStartTime(cron) == CronEndTime(cron) == TimeOf(cron.hour, cron.minute)
  {
  }

  // ---------------------------------------------------------------------------
  // GPA status

  /** `get_gpa_current_status` */
  function GpaCurrentStatus(available: string, location: string): (r: string)
    ensures r in {"RELEASED", "HOLD", ""}
    ensures r == "RELEASED" <==> Upper(available) == "YES"
    ensures r == "HOLD" <==> Upper(available) == "NO" && Upper(location) == "Y"
  {
    if Upper(available) == "YES" then "RELEASED"
    else if Upper(available) == "NO" && Upper(location) == "Y" then "HOLD"
    else ""
  }

  /**
   * `get_gpa_hold`: the first hold that applies, in a fixed order; when none does
   * the Python function falls off its end and returns None.
   */
  function GpaHold(available: string, outgated: string, lineStatus: string,
                   customStatus: string, otherHolds: string): (r: Option<string>)
    ensures r == Some("HOLD") <==> Upper(available) == "YES" && outgated != ""
    ensures r == Some("LINE HOLD") <==>
      !(Upper(available) == "YES" && outgated != "") && Upper(lineStatus) != "RELEASED"
    ensures r == Some("CUSTOM HOLD") <==>
      !(Upper(available) == "YES" && outgated != "") && Upper(lineStatus) == "RELEASED"
      && Upper(customStatus) != "RELEASED"
    ensures r == Some("OTHER HOLD") <==>
      !(Upper(available) == "YES" && outgated != "") && Upper(lineStatus) == "RELEASED"
      && Upper(customStatus) == "RELEASED" && Upper(otherHolds) != "N"
    ensures r.None? <==>
      !(Upper(available) == "YES" && outgated != "") && Upper(lineStatus) == "RELEASED"
      && Upper(customStatus) == "RELEASED" && Upper(otherHolds) == "N"
  {
    if Upper(available) == "YES" && outgated != "" then Some("HOLD")
    else if Upper(lineStatus) != "RELEASED" then Some("LINE HOLD")
    else if Upper(customStatus) != "RELEASED" then Some("CUSTOM HOLD")
    else if Upper(otherHolds) != "N" then Some("OTHER HOLD")
    else None
  }

  /**
   * Both classifiers read their flags case-insensitively (only `outgated` is
   * compared as written), so lower-casing the inputs never changes the answer.
   */
  lemma GpaIgnoresCase(available: string, location: string, outgated: string,
                       lineStatus: string, customStatus: string, otherHolds: string)
    ensures GpaCurrentStatus(Lower(available), Lower(location)) == GpaCurrentStatus(available, location)
    ensures GpaHold(Lower(available), outgated, Lower(lineStatus), Lower(customStatus), Lower(otherHolds))
         == GpaHold(available, outgated, lineStatus, customStatus, otherHolds)
  {
    UpperOfLower(available);
    UpperOfLower(location);
    UpperOfLower(lineStatus);
    UpperOfLower(customStatus);
    UpperOfLower(otherHolds);
  }

  /** A container released by GPA is never reported on a line, customs or other hold. */
  lemma GpaReleasedAndOutgatedIsHold(available: string, location: string, outgated: string,
                                     lineStatus: string, customStatus: string, otherHolds: string)
    requires GpaCurrentStatus(available, location) == "RELEASED" && outgated != ""
    ensures GpaHold(available, outgated, lineStatus, customStatus, otherHolds) == Some("HOLD")
  {
  }
}
