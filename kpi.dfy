/**
 * trackingapp/admin.py, RequestKPIAdmin: the request log filtered by website or by a
 * rolling date window, split into three pipeline legs by (sender, receiver, method),
 * and reduced to per-leg counts, container totals, mean durations and the
 * end-to-end span of the latest run.
 */
module Kpi {
  import opened Wrappers
  import opened Python

  datatype Website = Website(name: string)

  /**
   * One row of the request log. Timestamps are whole seconds and may be null; the
   * creation date is a day number; the container count is the text column as stored.
   */
  datatype Request = Request(
    sender: string,
    receiver: string,
    verb: string,
    startTime: Option<int>,
    stopTime: Option<int>,
    containers: Option<string>,
    website: Option<Website>,
    createdDay: int)

  // ---------------------------------------------------------------------------
  // Querysets

  /** `.filter(...)`: the rows satisfying `p`, in table order. */
  function Where(rows: seq<Request>, p: Request -> bool): (r: seq<Request>)
    ensures |r| <= |rows|
    ensures forall x :: x in r <==> x in rows && p(x)
    decreases |rows|
  {
    if |rows| == 0 then []
    else (if p(rows[0]) then [rows[0]] else []) + Where(rows[1..], p)
  }

  /** Filtering distributes over concatenation: the order of the rows is kept. */
  lemma {:induction false} WhereAppend(a: seq<Request>, b: seq<Request>, p: Request -> bool)
    ensures Where(a + b, p) == Where(a, p) + Where(b, p)
    decreases |a|
  {
    if |a| > 0 {
      assert (a + b)[1..] == a[1..] + b;
      WhereAppend(a[1..], b, p);
    } else {
      assert a + b == b;
    }
  }

  /** The last row a filter keeps is the last row of the table it admits. */
  lemma WhereLast(rows: seq<Request>, p: Request -> bool, i: nat)
    requires i < |rows| && p(rows[i])
    requires forall k :: i < k < |rows| ==> !p(rows[k])
    ensures |Where(rows, p)| > 0 && Where(rows, p)[|Where(rows, p)| - 1] == rows[i]
  {
    var before, after := rows[..i], rows[i + 1..];
    assert rows == before + [rows[i]] + after;
    WhereAppend(before + [rows[i]], after, p);
    WhereAppend(before, [rows[i]], p);
    assert Where([rows[i]], p) == [rows[i]] + Where([rows[i]][1..], p);
    WhereNone(after, p);
  }

  /** A filter that admits no row of the table keeps nothing. */
  lemma {:induction false} WhereNone(rows: seq<Request>, p: Request -> bool)
    requires forall k :: 0 <= k < |rows| ==> !p(rows[k])
    ensures Where(rows, p) == []
    decreases |rows|
  {
    if |rows| > 0 {
      WhereNone(rows[1..], p);
    }
  }

  /** Two filters that agree on every row select the same rows. */
  lemma {:induction false} WhereCongruent(rows: seq<Request>, p: Request -> bool, q: Request -> bool)
    requires forall i :: 0 <= i < |rows| ==> p(rows[i]) == q(rows[i])
    ensures Where(rows, p) == Where(rows, q)
    decreases |rows|
  {
    if |rows| > 0 {
      WhereCongruent(rows[1..], p, q);
    }
  }

  /** Rows no row can satisfy both of are counted at most once between the two filters. */
  lemma {:induction false} WhereDisjoint(rows: seq<Request>, p: Request -> bool, q: Request -> bool)
    requires forall i :: 0 <= i < |rows| ==> !(p(rows[i]) && q(rows[i]))
    ensures |Where(rows, p)| + |Where(rows, q)| <= |rows|
    decreases |rows|
  {
    if |rows| > 0 {
      WhereDisjoint(rows[1..], p, q);
    }
  }

  // ---------------------------------------------------------------------------
  // get_queryset

  /** The request's `website_name` and `date` query lists (`request.GET.getlist`). */
  datatype Query = Query(websiteName: seq<string>, date: seq<string>)

  /** `get_queryset`: a website filter wins over a date filter; an unknown date keeps every row. */
  function GetQueryset(qs: seq<Request>, q: Query, today: int): seq<Request> {
    if |q.websiteName| > 0 then
      Where(qs, (r: Request) => r.website.Some? && r.website.value.name == q.websiteName[0])
    else if |q.date| > 0 then
      if q.date[0] == "Todays" then Where(qs, (r: Request) => r.createdDay == today)
      else if q.date[0] == "Past 7 days" then Where(qs, (r: Request) => today - 7 <= r.createdDay <= today)
      else if q.date[0] == "This month" then Where(qs, (r: Request) => today - 30 <= r.createdDay <= today)
      else if q.date[0] == "This year" then Where(qs, (r: Request) => today - 365 <= r.createdDay <= today)
      else qs
    else qs
  }

  /** How many days back each date choice reaches; both ends of the window are inclusive. */
  function Lookback(choice: string): Option<nat> {
    match choice
    case "Todays" => Some(0)
    case "Past 7 days" => Some(7)
    case "This month" => Some(30)
    case "This year" => Some(365)
    case _ => None
  }

  /** Whether a request passes the filters of `q` on day `today`. */
  predicate Admits(q: Query, today: int, r: Request) {
    if |q.websiteName| > 0 then r.website == Some(Website(q.websiteName[0]))
    else if |q.date| > 0 && Lookback(q.date[0]).Some? then
      today - Lookback(q.date[0]).value <= r.createdDay <= today
    else true
  }

  /** The queryset is exactly the admitted rows, in table order. */
  lemma GetQuerysetAdmits(qs: seq<Request>, q: Query, today: int)
    ensures GetQueryset(qs, q, today) == Where(qs, (r: Request) => Admits(q, today, r))
  {
    var admits := (r: Request) => Admits(q, today, r);
    if |q.websiteName| > 0 {
      WhereCongruent(qs, (r: Request) => r.website.Some? && r.website.value.name == q.websiteName[0], admits);
    } else if |q.date| > 0 && Lookback(q.date[0]).Some? {
      var d := q.date[0];
      if d == "Todays" {
        WhereCongruent(qs, (r: Request) => r.createdDay == today, admits);
      } else if d == "Past 7 days" {
        WhereCongruent(qs, (r: Request) => today - 7 <= r.createdDay <= today, admits);
      } else if d == "This month" {
        WhereCongruent(qs, (r: Request) => today - 30 <= r.createdDay <= today, admits);
      } else {
        WhereCongruent(qs, (r: Request) => today - 365 <= r.createdDay <= today, admits);
      }
    } else {
      WhereCongruent(qs, (r: Request) => true, admits);
      WhereAll(qs);
    }
  }

  lemma {:induction false} WhereAll(rows: seq<Request>)
    ensures Where(rows, (r: Request) => true) == rows
    decreases |rows|
  {
    if |rows| > 0 {
      WhereAll(rows[1..]);
      assert [rows[0]] + rows[1..] == rows;
    }
  }

  /** With a website given, the date choice is ignored. */
  lemma WebsitePrecedence(qs: seq<Request>, q: Query, date: seq<string>, today: int)
    requires |q.websiteName| > 0
    ensures GetQueryset(qs, q.(date := date), today) == GetQueryset(qs, q, today)
  {
  }

  /** A date choice outside the four known ones, or none, leaves the rows unfiltered. */
  lemma UnknownDateUnfiltered(qs: seq<Request>, q: Query, today: int)
    requires |q.websiteName| == 0
    requires |q.date| == 0 || Lookback(q.date[0]).None?
    ensures GetQueryset(qs, q, today) == qs
  {
  }

  /** The rolling windows nest: a row of a shorter window is in every longer one. */
  lemma WindowsNest(qs: seq<Request>, narrow: string, wide: string, today: int, x: Request)
    requires Lookback(narrow).Some? && Lookback(wide).Some?
    requires Lookback(narrow).value <= Lookback(wide).value
    requires x in GetQueryset(qs, Query([], [narrow]), today)
    ensures x in GetQueryset(qs, Query([], [wide]), today)
  {
    GetQuerysetAdmits(qs, Query([], [narrow]), today);
    GetQuerysetAdmits(qs, Query([], [wide]), today);
  }

  // ---------------------------------------------------------------------------
  // The three legs

  /** A call the tracker made to `receiver` with HTTP method `verb`. */
  predicate IsCall(r: Request, receiver: string, verb: string) {
    r.sender == "tracking" && r.receiver == receiver && r.verb == verb
  }

  /** The filter `sender="tracking", receiver=receiver, method=verb`. */
  function Calls(receiver: string, verb: string): Request -> bool {
    (r: Request) => IsCall(r, receiver, verb)
  }

  /** Leg A: pulls from the TMDB hub. */
  function LegA(qs: seq<Request>): seq<Request> {
    Where(qs, Calls("TMDB", "GET"))
  }

  /** Leg C: results pushed back to the TMDB hub. */
  function LegC(qs: seq<Request>): seq<Request> {
    Where(qs, Calls("TMDB", "POST"))
  }

  /**
   * Leg B: posts to the carrier site, named by the website of the queryset's first
   * row; `obj.first().website.name` fails on an empty queryset or a row without a site.
   */
  function LegB(qs: seq<Request>): (r: Result<seq<Request>, Exception>)
    ensures r.Ok? <==> |qs| > 0 && qs[0].website.Some?
    ensures r.Ok? ==> forall x :: x in r.value <==>
      x in qs && IsCall(x, qs[0].website.value.name, "POST")
    ensures r.Err? ==> r.error == AttributeError
  {
    if |qs| == 0 || qs[0].website.None? then Err(AttributeError)
    else Ok(Where(qs, Calls(qs[0].website.value.name, "POST")))
  }

  /**
   * Leg A and leg C never share a row, and neither does leg A with leg B, since
   * their methods differ; so the A and C counts together never exceed the queryset.
   */
  lemma LegsDisjoint(qs: seq<Request>)
    ensures forall x :: !(x in LegA(qs) && x in LegC(qs))
    ensures LegB(qs).Ok? ==> forall x :: !(x in LegA(qs) && x in LegB(qs).value)
    ensures |LegA(qs)| + |LegC(qs)| <= |qs|
  {
    WhereDisjoint(qs, Calls("TMDB", "GET"), Calls("TMDB", "POST"));
  }

  /** When the first row's site is called "TMDB", leg B is leg C. */
  lemma LegBOnHub(qs: seq<Request>)
    requires |qs| > 0 && qs[0].website == Some(Website("TMDB"))
    ensures LegB(qs) == Ok(LegC(qs))
  {
  }

  // ---------------------------------------------------------------------------
  // Container totals

  /** `int(obj.containers or 0)`: a null or empty value counts 0; other text must parse. */
  function ContainerCount(r: Request): (n: Result<int, Exception>)
    ensures r.containers.None? || r.containers == Some("") ==> n == Ok(0)
    ensures r.containers.Some? && r.containers != Some("") ==>
      n == (if ParseInt(r.containers.value).Some? then Ok(ParseInt(r.containers.value).value) else Err(ValueError))
  {
    if r.containers.None? || r.containers.value == "" then Ok(0)
    else match ParseInt(r.containers.value)
      case Some(v) => Ok(v)
      case None => Err(ValueError)
  }

  /**
   * `sum(count(obj) for obj in rows)`: the counts are added in table order and the first
   * one that raises fails the whole sum with its exception.
   */
  function SumOf(rows: seq<Request>, count: Request -> Result<int, Exception>): Result<int, Exception>
    decreases |rows|
  {
    if |rows| == 0 then Ok(0)
    else match count(rows[0])
      case Err(e) => Err(e)
      case Ok(v) =>
        match SumOf(rows[1..], count)
        case Err(e) => Err(e)
        case Ok(t) => Ok(v + t)
  }

  /** A sum exists exactly when every row's count does. */
  lemma {:induction false} SumOfOkIff(rows: seq<Request>, count: Request -> Result<int, Exception>)
    ensures SumOf(rows, count).Ok? <==> forall i :: 0 <= i < |rows| ==> count(rows[i]).Ok?
    decreases |rows|
  {
    if |rows| > 0 {
      var tail := rows[1..];
      SumOfOkIff(tail, count);
      assert forall i :: 0 <= i < |tail| ==> tail[i] == rows[i + 1];
      assert forall i :: 1 <= i < |rows| ==> rows[i] == tail[i - 1];
    }
  }

  /** When every failing count raises `e`, so does a failing sum. */
  lemma {:induction false} SumOfError(rows: seq<Request>, count: Request -> Result<int, Exception>, e: Exception)
    requires forall i :: 0 <= i < |rows| && count(rows[i]).Err? ==> count(rows[i]).error == e
    ensures SumOf(rows, count).Err? ==> SumOf(rows, count).error == e
    decreases |rows|
  {
    if |rows| > 0 {
      var tail := rows[1..];
      assert forall i :: 0 <= i < |tail| ==> tail[i] == rows[i + 1];
      SumOfError(tail, count, e);
    }
  }

  /** Sums add up over concatenated sets of rows. */
  lemma {:induction false} SumOfAppend(a: seq<Request>, b: seq<Request>, count: Request -> Result<int, Exception>)
    requires SumOf(a, count).Ok? && SumOf(b, count).Ok?
    ensures SumOf(a + b, count) == Ok(SumOf(a, count).value + SumOf(b, count).value)
    decreases |a|
  {
    if |a| > 0 {
      assert (a + b)[0] == a[0] && (a + b)[1..] == a[1..] + b;
      SumOfAppend(a[1..], b, count);
    } else {
      assert a + b == b;
    }
  }

  /** `sum(int(obj.containers or 0) for obj in rows)`: an error is always ValueError. */
  function ContainerSum(rows: seq<Request>): (r: Result<int, Exception>)
    ensures r.Err? ==> r.error == ValueError
  {
    SumOfError(rows, ContainerCount, ValueError);
    SumOf(rows, ContainerCount)
  }

  /** A total over rows with no container values is zero. */
  lemma {:induction false} ContainerSumOfBlanks(rows: seq<Request>)
    requires forall i :: 0 <= i < |rows| ==> rows[i].containers.None? || rows[i].containers == Some("")
    ensures ContainerSum(rows) == Ok(0)
    decreases |rows|
  {
    if |rows| > 0 {
      var tail := rows[1..];
      assert forall i :: 0 <= i < |tail| ==> tail[i] == rows[i + 1];
      ContainerSumOfBlanks(tail);
      assert ContainerCount(rows[0]) == Ok(0);
    }
  }

  // ---------------------------------------------------------------------------
  // Average durations

  /** `stop_time - start_time`, null when either timestamp is null. */
  function Duration(r: Request): Option<int> {
    if r.startTime.Some? && r.stopTime.Some? then Some(r.stopTime.value - r.startTime.value) else None
  }

  /** The number of rows with a duration (the rows SQL `AVG` takes into account). */
  function Timed(rows: seq<Request>): (n: nat)
    ensures n <= |rows|
    decreases |rows|
  {
    if |rows| == 0 then 0
    else (if Duration(rows[0]).Some? then 1 else 0) + Timed(rows[1..])
  }

  /** No row is counted exactly when no row has both timestamps. */
  lemma {:induction false} TimedZeroIff(rows: seq<Request>)
    ensures Timed(rows) == 0 <==> forall i :: 0 <= i < |rows| ==> Duration(rows[i]).None?
    decreases |rows|
  {
    if |rows| > 0 {
      var tail := rows[1..];
      TimedZeroIff(tail);
      assert forall i :: 0 <= i < |tail| ==> tail[i] == rows[i + 1];
      assert forall i :: 1 <= i < |rows| ==> rows[i] == tail[i - 1];
    }
  }

  /** The sum of the durations of the rows that have one. */
  function TotalDuration(rows: seq<Request>): int
    decreases |rows|
  {
    if |rows| == 0 then 0
    else (if Duration(rows[0]).Some? then Duration(rows[0]).value else 0) + TotalDuration(rows[1..])
  }

  /**
   * `Avg(F("stop_time") - F("start_time"))` followed by `.total_seconds()`, exact: with
   * no duration to average, `Avg` gives None and `.total_seconds()` raises.
   */
  function Average(rows: seq<Request>): (r: Result<real, Exception>)
    ensures r.Ok? ==> r.value * (Timed(rows) as real) == TotalDuration(rows) as real
    ensures r.Err? ==> r.error == AttributeError
  {
    if Timed(rows) == 0 then Err(AttributeError)
    else Ok((TotalDuration(rows) as real) / (Timed(rows) as real))
  }

  /** An average exists exactly when some row has a duration to average. */
  lemma AverageOkIff(rows: seq<Request>)
    ensures Average(rows).Ok? <==> exists i :: 0 <= i < |rows| && Duration(rows[i]).Some?
  {
    TimedZeroIff(rows);
  }

  lemma {:induction false} TotalWithin(rows: seq<Request>, lo: int, hi: int)
    requires forall i :: 0 <= i < |rows| && Duration(rows[i]).Some? ==> lo <= Duration(rows[i]).value <= hi
    ensures lo * Timed(rows) <= TotalDuration(rows) <= hi * Timed(rows)
    decreases |rows|
  {
    if |rows| > 0 {
      var tail := rows[1..];
      assert forall i :: 0 <= i < |tail| ==> tail[i] == rows[i + 1];
      TotalWithin(tail, lo, hi);
      var n := Timed(tail);
      if Duration(rows[0]).Some? {
        assert lo * (n + 1) == lo * n + lo;
        assert hi * (n + 1) == hi * n + hi;
      }
    }
  }

  /** The mean lies between the shortest and the longest duration averaged. */
  lemma AverageWithin(rows: seq<Request>, lo: int, hi: int)
    requires forall i :: 0 <= i < |rows| && Duration(rows[i]).Some? ==> lo <= Duration(rows[i]).value <= hi
    requires Average(rows).Ok?
    ensures lo as real <= Average(rows).value <= hi as real
  {
    var k, t := Timed(rows), TotalDuration(rows);
    assert k > 0;
    TotalWithin(rows, lo, hi);
    assert lo * k <= t <= hi * k;
    assert Average(rows) == Ok((t as real) / (k as real));
    MeanBetween(lo, hi, k, t);
  }

  /** A mean `t / k` of `k` values between `lo` and `hi` lies between them too. */
  lemma MeanBetween(lo: int, hi: int, k: nat, t: int)
    requires k > 0 && lo * k <= t <= hi * k
    ensures lo as real <= (t as real) / (k as real) <= hi as real
  {
    var n := k as real;
    var avg := (t as real) / n;
    assert avg * n == t as real;
    assert (lo * k) as real == (lo as real) * n;
    assert (hi * k) as real == (hi as real) * n;
    Cancel(lo as real, avg, n);
    Cancel(avg, hi as real, n);
  }

  lemma Cancel(x: real, y: real, n: real)
    requires n > 0.0 && x * n <= y * n
    ensures x <= y
  {
    assert (y - x) * n == y * n - x * n;
  }

  // ---------------------------------------------------------------------------
  // get_last_average_time

  /** The "last" span: a number of seconds, or the placeholder the bare `except` returns. */
  datatype Span = Seconds(seconds: int) | Calculating

  /**
   * `get_last_average_time`: the stop time of the last leg-C row minus the start time of
   * the last leg-A row. `.last()` of an empty leg is None, and reading its timestamp
   * fails before the `try`; only a null timestamp reaches the `except`.
   */
  function LastSpan(qs: seq<Request>): (r: Result<Span, Exception>)
    ensures r.Err? <==> |LegA(qs)| == 0 || |LegC(qs)| == 0
    ensures r.Err? ==> r.error == AttributeError
  {
    var a := LegA(qs);
    var c := LegC(qs);
    if |a| == 0 || |c| == 0 then Err(AttributeError)
    else
      var first := a[|a| - 1].startTime;
      var last := c[|c| - 1].stopTime;
      if first.Some? && last.Some? then Ok(Seconds(last.value - first.value)) else Ok(Calculating)
  }

  /**
   * The span is taken from the latest pipeline run appended to the log, whatever
   * rows came before it: the last A row and the last C row need not belong together.
   */
  lemma LastSpanOfLatestRun(qs: seq<Request>, a: Request, c: Request, start: int, stop: int)
    requires IsCall(a, "TMDB", "GET") && a.startTime == Some(start)
    requires IsCall(c, "TMDB", "POST") && c.stopTime == Some(stop)
    ensures LastSpan(qs + [a, c]) == Ok(Seconds(stop - start))
  {
    LegsAfterRun(qs, a, c);
    var la, lc := LegA(qs + [a, c]), LegC(qs + [a, c]);
    assert la[|la| - 1] == a;
    assert lc[|lc| - 1] == c;
  }

  /**
   * The span for any table: the stop time of the last push (row `j`) minus the start
   * time of the last pull (row `i`), wherever they lie; "Calculating" when either
   * timestamp is null.
   */
  lemma LastSpanValue(qs: seq<Request>, i: nat, j: nat)
    requires i < |qs| && IsCall(qs[i], "TMDB", "GET")
    requires forall k :: i < k < |qs| ==> !IsCall(qs[k], "TMDB", "GET")
    requires j < |qs| && IsCall(qs[j], "TMDB", "POST")
    requires forall k :: j < k < |qs| ==> !IsCall(qs[k], "TMDB", "POST")
    ensures LastSpan(qs) == Ok(
      if qs[i].startTime.Some? && qs[j].stopTime.Some?
      then Seconds(qs[j].stopTime.value - qs[i].startTime.value)
      else Calculating)
  {
    WhereLast(qs, Calls("TMDB", "GET"), i);
    WhereLast(qs, Calls("TMDB", "POST"), j);
  }

  /**
   * A pull that starts after the last push is paired with that push, not with a push
   * of its own run: the span is negative.
   */
  lemma LastSpanUnpaired(a0: Request, c: Request, a1: Request)
    requires IsCall(a0, "TMDB", "GET") && IsCall(a1, "TMDB", "GET") && IsCall(c, "TMDB", "POST")
    requires a1.startTime.Some? && c.stopTime.Some? && c.stopTime.value < a1.startTime.value
    ensures LastSpan([a0, c, a1]) == Ok(Seconds(c.stopTime.value - a1.startTime.value))
    ensures LastSpan([a0, c, a1]).value.seconds < 0
  {
    LastSpanValue([a0, c, a1], 2, 1);
  }

  /** Appending a run adds its pull to leg A and its push to leg C. */
  lemma LegsAfterRun(qs: seq<Request>, a: Request, c: Request)
    requires IsCall(a, "TMDB", "GET") && IsCall(c, "TMDB", "POST")
    ensures LegA(qs + [a, c]) == LegA(qs) + [a]
    ensures LegC(qs + [a, c]) == LegC(qs) + [c]
  {
    WhereAppend(qs, [a, c], Calls("TMDB", "GET"));
    WhereAppend(qs, [a, c], Calls("TMDB", "POST"));
    LegsOfRun(a, c);
  }

  lemma LegsOfRun(a: Request, c: Request)
    requires IsCall(a, "TMDB", "GET") && IsCall(c, "TMDB", "POST")
    ensures LegA([a, c]) == [a] && LegC([a, c]) == [c]
  {
    var pa, pc := Calls("TMDB", "GET"), Calls("TMDB", "POST");
    assert [a, c][1..] == [c];
    assert [c][1..] == [];
    assert Where([c], pa) == [] + Where([], pa) == [];
    assert Where([c], pc) == [c] + Where([], pc) == [c];
  }

  // ---------------------------------------------------------------------------
  // changelist_view

  /** The extra context `changelist_view` hands to the template. */
  datatype KpiContext = KpiContext(
    showFullResultCount: bool,
    getDtTmdbCount: nat,
    postDtVpCount: nat,
    postDtTmdbCount: nat,
    containersPulledFromTmdb: int,
    containersDataGetFromApi: int,
    containersPushedToTmdb: int,
    overallAverageTime: real,
    lastAverageTime: Span,
    firstLegAverageTime: real,
    secondLegAverageTime: real,
    thirdLegAverageTime: real)

  /**
   * `changelist_view`: every figure over the filtered queryset, computed in the order
   * the view computes them; the first one that raises fails the page.
   */
  function ChangelistView(qs: seq<Request>, q: Query, today: int): (r: Result<KpiContext, Exception>)
    ensures var obj := GetQueryset(qs, q, today);
      r.Ok? <==>
        && LegB(obj).Ok?
        && ContainerSum(LegA(obj)).Ok? && ContainerSum(LegB(obj).value).Ok? && ContainerSum(LegC(obj)).Ok?
        && Average(obj).Ok? && |LegA(obj)| > 0 && |LegC(obj)| > 0
        && Average(LegA(obj)).Ok? && Average(LegB(obj).value).Ok? && Average(LegC(obj)).Ok?
    ensures r.Ok? ==> var obj := GetQueryset(qs, q, today);
      r.value == KpiContext(false, |LegA(obj)|, |LegB(obj).value|, |LegC(obj)|,
                            ContainerSum(LegA(obj)).value, ContainerSum(LegB(obj).value).value,
                            ContainerSum(LegC(obj)).value, Average(obj).value, LastSpan(obj).value,
                            Average(LegA(obj)).value, Average(LegB(obj).value).value,
                            Average(LegC(obj)).value)
  {
    var obj := GetQueryset(qs, q, today);
    var getCount := |LegA(obj)|;
    var legB :- LegB(obj);
    var postTmdbCount := |LegC(obj)|;
    var pulled :- ContainerSum(LegA(obj));
    var fetched :- ContainerSum(legB);
    var pushed :- ContainerSum(LegC(obj));
    var overall :- Average(obj);
    var last :- LastSpan(obj);
    var first :- Average(LegA(obj));
    var second :- Average(legB);
    var third :- Average(LegC(obj));
    Ok(KpiContext(false, getCount, |legB|, postTmdbCount, pulled, fetched, pushed,
                  overall, last, first, second, third))
  }

  /** With no rows to show, the page fails on the first row's website. */
  lemma EmptyQuerysetFails(qs: seq<Request>, q: Query, today: int)
    requires GetQueryset(qs, q, today) == []
    ensures ChangelistView(qs, q, today) == Err(AttributeError)
  {
  }

  // ---------------------------------------------------------------------------
  // One pipeline run, end to end

  const Site: Option<Website> := Some(Website("VAPorts"))

  /** Leg A: containers pulled from TMDB from 10:00:00 to 10:00:05. */
  function PullRow(day: int): Request {
    Request("tracking", "TMDB", "GET", Some(36000), Some(36005), Some("4"), Site, day)
  }

  /** Leg B: the carrier site queried from 10:00:06 to 10:00:10. */
  function QueryRow(day: int): Request {
    Request("tracking", "VAPorts", "POST", Some(36006), Some(36010), Some("4"), Site, day)
  }

  /** Leg C: results pushed to TMDB from 10:00:11 to 10:00:20. */
  function PushRow(day: int): Request {
    Request("tracking", "TMDB", "POST", Some(36011), Some(36020), Some("4"), Site, day)
  }

  lemma {:induction false} WhereOfThree(x: Request, y: Request, z: Request, p: Request -> bool)
    ensures Where([x, y, z], p) ==
      (if p(x) then [x] else []) + (if p(y) then [y] else []) + (if p(z) then [z] else [])
  {
    assert [x, y, z][1..] == [y, z];
    assert [y, z][1..] == [z];
    assert [z][1..] == [];
    var wz := if p(z) then [z] else [];
    assert Where([z], p) == wz + Where([], p) == wz;
    assert Where([y, z], p) == (if p(y) then [y] else []) + wz;
  }

  lemma ScenarioLegs(day: int)
    ensures LegA([PullRow(day), QueryRow(day), PushRow(day)]) == [PullRow(day)]
    ensures LegB([PullRow(day), QueryRow(day), PushRow(day)]) == Ok([QueryRow(day)])
    ensures LegC([PullRow(day), QueryRow(day), PushRow(day)]) == [PushRow(day)]
  {
    var x, y, z := PullRow(day), QueryRow(day), PushRow(day);
    WhereOfThree(x, y, z, Calls("TMDB", "GET"));
    WhereOfThree(x, y, z, Calls("VAPorts", "POST"));
    assert IsCall(y, "VAPorts", "POST") && !IsCall(x, "VAPorts", "POST") && !IsCall(z, "VAPorts", "POST");
    assert Where([x, y, z], Calls("VAPorts", "POST")) == [y];
    assert LegB([x, y, z]) == Ok(Where([x, y, z], Calls("VAPorts", "POST")));
    WhereOfThree(x, y, z, Calls("TMDB", "POST"));
  }

  lemma ContainersOfOne(r: Request)
    requires r.containers == Some("4")
    ensures ContainerSum([r]) == Ok(4)
  {
    assert ContainerCount(r) == Ok(4) by {
      assert IntToString(4) == "4";
      ParseIntOfIntToString(4);
    }
    assert [r][1..] == [];
    assert SumOf([r][1..], ContainerCount) == Ok(0);
  }

  lemma AverageOfOne(r: Request)
    requires Duration(r).Some?
    ensures Average([r]) == Ok(Duration(r).value as real)
  {
    var d := Duration(r).value;
    assert [r][1..] == [];
    assert Timed([r]) == 1 + Timed([]) == 1;
    assert TotalDuration([r]) == d + TotalDuration([]) == d;
    assert Average([r]) == Ok((d as real) / 1.0);
  }

  lemma {:induction false} AverageOfThree(x: Request, y: Request, z: Request)
    requires Duration(x).Some? && Duration(y).Some? && Duration(z).Some?
    ensures Average([x, y, z]) ==
      Ok(((Duration(x).value + Duration(y).value + Duration(z).value) as real) / 3.0)
  {
    assert [x, y, z][1..] == [y, z];
    assert [y, z][1..] == [z];
    assert [z][1..] == [];
    assert Timed([z]) == 1 + Timed([]);
    assert Timed([y, z]) == 1 + Timed([z]);
    assert Timed([x, y, z]) == 3;
    assert TotalDuration([z]) == Duration(z).value + TotalDuration([]);
    assert TotalDuration([y, z]) == Duration(y).value + TotalDuration([z]);
    assert TotalDuration([x, y, z]) == Duration(x).value + Duration(y).value + Duration(z).value;
  }

  /** Every figure of the page for one run, one at a time. */
  lemma ScenarioFigures(day: int)
    ensures var rows := [PullRow(day), QueryRow(day), PushRow(day)];
      && LegA(rows) == [PullRow(day)] && LegB(rows) == Ok([QueryRow(day)]) && LegC(rows) == [PushRow(day)]
      && ContainerSum([PullRow(day)]) == Ok(4) && ContainerSum([QueryRow(day)]) == Ok(4)
      && ContainerSum([PushRow(day)]) == Ok(4)
      && Average(rows) == Ok(6.0) && LastSpan(rows) == Ok(Seconds(20))
      && Average([PullRow(day)]) == Ok(5.0) && Average([QueryRow(day)]) == Ok(4.0)
      && Average([PushRow(day)]) == Ok(9.0)
  {
    var x, y, z := PullRow(day), QueryRow(day), PushRow(day);
    ScenarioLegs(day);
    ContainersOfOne(x);
    ContainersOfOne(y);
    ContainersOfOne(z);
    AverageOfOne(x);
    AverageOfOne(y);
    AverageOfOne(z);
    AverageOfThree(x, y, z);
  }

  /**
   * One run of three legs of four containers each: leg means of 5, 4 and 9 seconds,
   * an overall mean of 6 seconds, and 20 seconds from the pull's start to the push's stop.
   */
  lemma KpiScenario(day: int)
    ensures ChangelistView([PullRow(day), QueryRow(day), PushRow(day)], Query([], []), day) ==
      Ok(KpiContext(false, 1, 1, 1, 4, 4, 4, 6.0, Seconds(20), 5.0, 4.0, 9.0))
  {
    var rows := [PullRow(day), QueryRow(day), PushRow(day)];
    assert GetQueryset(rows, Query([], []), day) == rows;
    ScenarioFigures(day);
  }
}
