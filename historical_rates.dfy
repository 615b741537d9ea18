/**
 * The historical chart's series builder: the date range, one request per date joined
 * with an all-or-nothing wait, the zip of answers to dates, the drop of falsy rates,
 * the fallback to a fixed sample, and the per-run mount flag that discards late results.
 * Instants are milliseconds since 1970-01-01 UTC; dates are UTC day numbers.
 */
module HistoricalRates {
  import opened Common

  const DAY_MS: int := 86400000

  /** The UTC calendar day of an instant, as `toISOString().split('T')[0]` names it. */
  function DayOf(instant: int): int {
    instant / DAY_MS
  }

  /** A chart point; `rate` is null (None) or a number. */
  datatype Point = Point(date: int, rate: Option<real>)

  /** The fixed fallback series: 2023-01-01 (day 19358) to 2023-01-07. */
  const SAMPLE_DATA: seq<Point> := [
    Point(19358, Some(1.1)),
    Point(19359, Some(1.15)),
    Point(19360, Some(1.2)),
    Point(19361, Some(1.25)),
    Point(19362, Some(1.2)),
    Point(19363, Some(1.18)),
    Point(19364, Some(1.22))
  ]

  const NO_VALID_RATES: string := "No valid rates received"
  const DEFAULT_ERROR: string := "Unable to load historical data. Using sample data."

  /**
   * How many dates the loop yields when the start instant is read `lag` ms after the end
   * instant: the start is moved back seven days, then stepped a day at a time while it
   * does not pass the end.
   */
  function DateCount(lag: nat): nat {
    if lag <= 7 * DAY_MS then (7 * DAY_MS - lag) / DAY_MS + 1 else 0
  }

  /** The dates the loop yields: consecutive days starting seven days before the start read. */
  function DateRange(now: int, lag: nat): (dates: seq<int>)
  {
    seq(DateCount(lag), k requires 0 <= k < DateCount(lag) => DayOf(now + lag) - 7 + k)
  }

  /**
   * The date loop: `now` is the end instant and the start instant is read `lag` ms later;
   * the start is moved back seven days and stepped by a day while it is not after the end.
   */
  method BuildDates(now: int, lag: nat) returns (dates: seq<int>)
    ensures dates == DateRange(now, lag)
  {
    var endDate := now;
    var startDate := now + lag - 7 * DAY_MS;
    dates := [];
    var d := startDate;
    while d <= endDate
      invariant d == startDate + |dates| * DAY_MS
      invariant |dates| <= DateCount(lag)
      invariant DayOf(d) == DayOf(now + lag) - 7 + |dates|
      invariant forall k :: 0 <= k < |dates| ==> dates[k] == DayOf(now + lag) - 7 + k
      decreases endDate - d
    {
      dates := dates + [DayOf(d)];
      d := d + DAY_MS;
    }
  }

  ghost predicate Consecutive(dates: seq<int>) {
    forall k :: 0 <= k < |dates| - 1 ==> dates[k + 1] == dates[k] + 1
  }

  /**
   * When both clock reads fall in the same millisecond, the range is eight consecutive
   * days, today-7 through today.
   */
  lemma EightDatesWhenSameMillisecond(now: int)
    ensures |DateRange(now, 0)| == 8
    ensures DateRange(now, 0)[0] == DayOf(now) - 7 && DateRange(now, 0)[7] == DayOf(now)
    ensures Consecutive(DateRange(now, 0))
  {
  }

  /** When the start read falls later by up to a day, the last step passes the end: seven dates. */
  lemma SevenDatesWhenClockMoves(now: int, lag: nat)
    requires 0 < lag <= DAY_MS
    ensures |DateRange(now, lag)| == 7
    ensures DateRange(now, lag)[0] == DayOf(now + lag) - 7
    ensures Consecutive(DateRange(now, lag))
  {
  }

  /** `x || null` on a rate read from a response: missing, null and 0 all give null. */
  function RateOrNull(body: Option<real>): (r: Option<real>)
    ensures r.Some? <==> body.Some? && body.value != 0.0
    ensures r.Some? ==> r == body
  {
    match body
    case Some(x) => if x != 0.0 then Some(x) else None
    case None => None
  }

  /** Each answer paired with the date at the same index, as `responses.map((r, i) => …)` does. */
  function Zip(dates: seq<int>, bodies: seq<Option<real>>): (points: seq<Point>)
    requires |bodies| == |dates|
    ensures |points| == |dates|
    ensures forall i :: 0 <= i < |dates| ==> points[i] == Point(dates[i], RateOrNull(bodies[i]))
  {
    if dates == [] then []
    else [Point(dates[0], RateOrNull(bodies[0]))] + Zip(dates[1..], bodies[1..])
  }

  /** The points whose rate is not null, in their original order. */
  function KeepRated(points: seq<Point>): (r: seq<Point>)
    ensures |r| <= |points|
    ensures forall p :: p in r <==> p in points && p.rate.Some?
  {
    if points == [] then []
    else if points[0].rate.Some? then [points[0]] + KeepRated(points[1..])
    else KeepRated(points[1..])
  }

  ghost predicate StrictlyAscending(points: seq<Point>) {
    forall i, j :: 0 <= i < j < |points| ==> points[i].date < points[j].date
  }

  /** Dropping points keeps the survivors in ascending date order. */
  lemma {:induction false} KeepRatedAscending(points: seq<Point>)
    requires StrictlyAscending(points)
    ensures StrictlyAscending(KeepRated(points))
  {
    if points != [] {
      var rest := KeepRated(points[1..]);
      assert StrictlyAscending(points[1..]);
      KeepRatedAscending(points[1..]);
      forall q | q in rest ensures points[0].date < q.date {
        var j :| 0 <= j < |points[1..]| && points[1..][j] == q;
        assert points[j + 1] == q;
      }
    }
  }

  /** The joint outcome of the requests: every answer body, or the first rejection's message. */
  datatype Joint = AllFulfilled(bodies: seq<Option<real>>) | Rejected(message: string)

  /** What a completed run shows: the live series, or the sample with an error message. */
  datatype Settlement = Live(points: seq<Point>) | Fallback(message: string)

  /** How a run's requests settle into a series, as the try/catch of the effect decides. */
  function Settle(dates: seq<int>, joint: Joint): (s: Settlement)
    requires joint.AllFulfilled? ==> |joint.bodies| == |dates|
    // a live series exists exactly when every request succeeded and some answer is truthy
    ensures s.Live? <==>
      joint.AllFulfilled? && exists i :: 0 <= i < |dates| && RateOrNull(joint.bodies[i]).Some?
    // it holds every truthy answer at its date, and only those
    ensures s.Live? ==> s.points != [] && forall p ::
      p in s.points <==> exists i :: 0 <= i < |dates| && p == Point(dates[i], RateOrNull(joint.bodies[i])) && p.rate.Some?
    ensures joint.Rejected? ==>
      s == Fallback(if joint.message != "" then joint.message else DEFAULT_ERROR)
    ensures joint.AllFulfilled? && s.Fallback? ==> s.message == NO_VALID_RATES
  {
    match joint
    case Rejected(message) =>
      Fallback(if message != "" then message else DEFAULT_ERROR)
    case AllFulfilled(bodies) =>
      var zipped := Zip(dates, bodies);
      var rates := KeepRated(zipped);
      if |rates| == 0 then
        assert forall i :: 0 <= i < |dates| ==> zipped[i] !in rates;
        Fallback(NO_VALID_RATES)
      else
        assert rates[0] in zipped;
        Live(rates)
  }

  /** Dates in ascending order give a live series in ascending order. */
  lemma LiveSeriesAscending(dates: seq<int>, joint: Joint)
    requires joint.AllFulfilled? && |joint.bodies| == |dates|
    requires forall i, j :: 0 <= i < j < |dates| ==> dates[i] < dates[j]
    requires Settle(dates, joint).Live?
    ensures StrictlyAscending(Settle(dates, joint).points)
  {
    KeepRatedAscending(Zip(dates, joint.bodies));
  }

  /** The chart component's state. */
  class Chart {
    var historicalRates: seq<Point>
    var error: Option<string>
    var loading: bool

    constructor ()
      ensures historicalRates == [] && error == None && loading
    {
      historicalRates, error, loading := [], None, true;
    }
  }

  /**
   * One run of the chart's effect, holding its own `isMounted` flag and the dates it
   * requested; its cleanup clears the flag, and its completion only touches the chart
   * while the flag is set.
   */
  class EffectRun {
    const chart: Chart
    const dates: seq<int>
    var isMounted: bool

    /** The effect up to its wait: loading set, error cleared, dates computed. */
    constructor (chart: Chart, now: int, lag: nat)
      modifies chart
      ensures this.chart == chart && isMounted && dates == DateRange(now, lag)
      ensures chart.loading && chart.error == None
      ensures chart.historicalRates == old(chart.historicalRates)
    {
      var ds := BuildDates(now, lag);
      this.chart := chart;
      this.dates := ds;
      isMounted := true;
      new;
      chart.loading := true;
      chart.error := None;
    }

    /** The effect's cleanup, run when the pair changes or the chart unmounts. */
    method Cleanup()
      modifies this
      ensures !isMounted
    {
      isMounted := false;
    }

    /** The requests settle with `joint`. */
    method Complete(joint: Joint)
      requires joint.AllFulfilled? ==> |joint.bodies| == |dates|
      modifies chart
      ensures !isMounted ==> unchanged(chart)
      ensures isMounted ==> !chart.loading && match Settle(dates, joint)
        case Live(points) => chart.historicalRates == points && chart.error == old(chart.error)
        case Fallback(message) => chart.historicalRates == SAMPLE_DATA && chart.error == Some(message)
    {
      var settled := Settle(dates, joint);
      match settled {
        case Live(points) =>
          if isMounted {
            chart.historicalRates := points;
          }
        case Fallback(message) =>
          if isMounted {
            chart.error := Some(message);
            chart.historicalRates := SAMPLE_DATA;
          }
      }
      if isMounted {
        chart.loading := false;
      }
    }
  }

  /**
   * The pair changes while a run is in flight: its cleanup runs, a second run starts and
   * settles, then the first run's answers arrive late. The chart shows the second run's
   * result only.
   */
  method SupersededRunDiscarded(now: int, lag: nat, late: Joint, current: Joint)
    returns (series: seq<Point>, error: Option<string>)
    requires late.AllFulfilled? ==> |late.bodies| == |DateRange(now, lag)|
    requires current.AllFulfilled? ==> |current.bodies| == |DateRange(now, lag)|
    ensures match Settle(DateRange(now, lag), current)
      case Live(points) => series == points && error == None
      case Fallback(message) => series == SAMPLE_DATA && error == Some(message)
  {
    var chart := new Chart();
    var first := new EffectRun(chart, now, lag);
    first.Cleanup();
    var second := new EffectRun(chart, now, lag);
    second.Complete(current);
    first.Complete(late);
    series, error := chart.historicalRates, chart.error;
  }
}
