/** Endpoint URLs, the `where` filters sent upstream, the fixed query
    parameters and the date helpers of `src/helpers.rs`. The wall clock
    (`Utc::now()`) is the explicit parameter `now`, whole seconds since the
    epoch. */
module Helpers {
  import opened Wrappers
  import opened Calendar
  import opened Numbers

  /** An instant the system clock can report: its date is one chrono represents. */
  predicate ValidNow(now: int)
  {
    InChronoRange(DayOf(now))
  }

  // ------- Endpoint helpers -------- //

  datatype Endpoint = Perprov | Perkembangan

  const ServicesRoot := "https://services5.arcgis.com/VS6HdKS0VfIhv8Ct/arcgis/rest/services/"
  const QueryPath := "/FeatureServer/0/query"

  /** The feature-server query URL of an endpoint: the per-province layer or
      the progress (time-series) layer of the same ArcGIS service. */
  function EpVal(e: Endpoint): (url: string)
    ensures |url| > |ServicesRoot| + |QueryPath|
    ensures url[..|ServicesRoot|] == ServicesRoot
    ensures url[|url| - |QueryPath|..] == QueryPath
  {
    ServicesRoot
    + (match e
       case Perprov => "COVID19_Indonesia_per_Provinsi"
       case Perkembangan => "Statistik_Perkembangan_COVID19_Indonesia")
    + QueryPath
  }

  /** The two endpoints are distinct URLs. */
  lemma EpValDistinct()
    ensures EpVal(Perprov) != EpVal(Perkembangan)
  {
    assert |EpVal(Perprov)| != |EpVal(Perkembangan)|;
  }

  // ------ Query Param Helpers -------- //

  datatype WhereQueries =
    | Confirmed
    | Deaths
    | Recovered
    | All
    | Indonesia
    | CurrentDate(prefix: int)
    | BeforeToday(prefix: int)
  {
    predicate CarriesDate() { CurrentDate? || BeforeToday? }
  }

  /** The fixed query parameters plus the selected filter. */
  datatype QueryParams = QueryParams(f: string, outFields: string, whereQuery: WhereQueries, spatialRel: string)
  {
    /** `QueryParams::new`: JSON output, every field, the all-records filter. */
    static function New(): (q: QueryParams)
      ensures q.f == "json" && q.outFields == "*" && q.spatialRel == "esriSpatialRelIntersects"
      ensures q.whereQuery == All
    {
      QueryParams("json", "*", All, "esriSpatialRelIntersects")
    }

    /** `query_params`: six pairs in a fixed key order, the filter rendered
        by `WhereVal`. */
    function QueryPairs(now: int): (pairs: seq<(string, string)>)
      requires ValidNow(now)
      ensures Keys(pairs) == BaseKeys
      ensures pairs[0].1 == f && pairs[1].1 == WhereVal(whereQuery, now)
      ensures pairs[2].1 == "false" && pairs[3].1 == spatialRel
      ensures pairs[4].1 == outFields && pairs[5].1 == "true"
    {
      [("f", f),
       ("where", WhereVal(whereQuery, now)),
       ("returnGeometry", "false"),
       ("spatialRel", spatialRel),
       ("outFields", outFields),
       ("cacheHint", "true")]
    }

    /** `add_queries`: the base pairs, then every extra pair pushed in the
        caller's order; nothing is removed or de-duplicated. */
    method AddQueries(kv: seq<(string, string)>, now: int) returns (pairs: seq<(string, string)>)
      requires ValidNow(now)
      ensures |pairs| == 6 + |kv|
      ensures pairs[..6] == QueryPairs(now)
      ensures pairs[6..] == kv
    {
      pairs := QueryPairs(now);
      var i := 0;
      while i < |kv|
        invariant 0 <= i <= |kv|
        invariant |pairs| == 6 + i
        invariant pairs[..6] == QueryPairs(now)
        invariant pairs[6..] == kv[..i]
      {
        pairs := pairs + [kv[i]];
        i := i + 1;
      }
    }
  }

  const BaseKeys: seq<string> := ["f", "where", "returnGeometry", "spatialRel", "outFields", "cacheHint"]

  /** The keys of a pair sequence, in order. */
  function Keys(pairs: seq<(string, string)>): (ks: seq<string>)
    ensures |ks| == |pairs|
    ensures forall i :: 0 <= i < |pairs| ==> ks[i] == pairs[i].0
  {
    if pairs == [] then [] else Keys(pairs[..|pairs| - 1]) + [pairs[|pairs| - 1].0]
  }

  /** The default parameters do not depend on the clock: they are always the
      same six pairs. */
  lemma DefaultQueryPairs(now: int)
    requires ValidNow(now)
    ensures QueryParams.New().QueryPairs(now)
            == [("f", "json"), ("where", "1=1"), ("returnGeometry", "false"),
                ("spatialRel", "esriSpatialRelIntersects"), ("outFields", "*"), ("cacheHint", "true")]
  {
  }

  // ------ Filters -------- //

  const CutoffSecond := 36000  // 10:00:00

  /** `count_prefix`: before 10:00:00 UTC the upstream day has not rolled
      over yet, so the offset moves back by one. */
  function CountPrefix(i: int, now: int): (r: int)
    ensures r == i - 1 <==> SecondOfDay(now) < CutoffSecond
    ensures r == i || r == i - 1
  {
    if SecondOfDay(now) < CutoffSecond then i - 1 else i
  }

  /** The reporting day: days counted from 1970-01-01 10:00:00 UTC, the
      moment at which the upstream source rolls its day over. */
  function ReportingDay(t: int): int
  {
    (t - CutoffSecond) / 86400
  }

  /** Shifting today's date by `CountPrefix(i)` days lands on the reporting
      day shifted by `i`. */
  lemma CountPrefixFollowsReportingDay(i: int, now: int)
    ensures DayOf(now) + CountPrefix(i, now) == ReportingDay(now) + i
  {
  }

  /** The reporting day stays put for 24 hours and advances by exactly one at
      10:00:00 UTC. */
  lemma ReportingDayRollsOverAtCutoff(t: int)
    ensures SecondOfDay(t) == CutoffSecond - 1 ==> ReportingDay(t + 1) == ReportingDay(t) + 1
    ensures SecondOfDay(t) != CutoffSecond - 1 ==> ReportingDay(t + 1) == ReportingDay(t)
  {
  }

  function BeforeTodayFilter(day: string): (f: string)
    ensures |f| > |day|
  {
    "Tanggal<timestamp '" + day + " 17:00:00'"
  }

  function CurrentDateFilter(today: string, tomorrow: string, yesterday: string): (f: string)
    ensures |f| > |today|
  {
    "(Tanggal>=timestamp '" + today + " 17:00:00' AND Tanggal<=timestamp '" + tomorrow
    + " 16:59:59' OR Tanggal>=timestamp '" + yesterday + " 16:59:59')"
  }

  /** `where_val`: the filter string of each variant. */
  function WhereVal(w: WhereQueries, now: int): (f: string)
    requires ValidNow(now)
    ensures w == All <==> f == "1=1"
  {
    match w
    case Confirmed => "(Confirmed > 0)"
    case Deaths => "(Confirmed > 0) AND (Deaths > 0)"
    case Recovered => "(Confirmed > 0) AND (Recovered <> 0)"
    case All => "1=1"
    case Indonesia => "(Provinsi = 'Indonesia') OR (Provinsi <> 'Indonesia')"
    case CurrentDate(prefix) =>
      var newPrefix := CountPrefix(prefix, now);
      var yesterday := AddCurDate((newPrefix - 1) * 86400, now);
      var tomorrow := AddCurDate((newPrefix + 1) * 86400, now);
      var today := AddCurDate(newPrefix * 86400, now);
      CurrentDateFilter(today, tomorrow, yesterday)
    case BeforeToday(prefix) =>
      BeforeTodayFilter(AddCurDate(CountPrefix(prefix, now) * 86400, now))
  }

  /** Every filter without a date is a constant, whatever the clock says;
      the all-records filter is `1=1`. */
  lemma StaticFiltersIgnoreClock(w: WhereQueries, t1: int, t2: int)
    requires ValidNow(t1) && ValidNow(t2)
    requires !w.CarriesDate()
    ensures WhereVal(w, t1) == WhereVal(w, t2)
    ensures w == All ==> WhereVal(w, t1) == "1=1"
  {
  }

  /** The days a dated filter names all lie inside chrono's range, so no
      date falls back to today. */
  predicate FilterDaysInRange(w: WhereQueries, now: int)
  {
    match w
    case CurrentDate(p) =>
      InChronoRange(ReportingDay(now) + p - 1) && InChronoRange(ReportingDay(now) + p)
      && InChronoRange(ReportingDay(now) + p + 1)
    case BeforeToday(p) => InChronoRange(ReportingDay(now) + p)
    case _ => true
  }

  /** `BeforeToday(p)` cuts at 17:00:00 of the reporting day shifted by `p`. */
  lemma BeforeTodayNamesReportingDay(p: int, now: int)
    requires ValidNow(now) && FilterDaysInRange(BeforeToday(p), now)
    ensures WhereVal(BeforeToday(p), now) == BeforeTodayFilter(FormatDay(ReportingDay(now) + p))
  {
    hide FormatDay;
    var d := CountPrefix(p, now);
    CountPrefixFollowsReportingDay(p, now);
    assert DayOf(now) + d == ReportingDay(now) + p;
    AddCurDateByDays(d, now);
    assert AddCurDate(d * 86400, now) == FormatDay(ReportingDay(now) + p);
  }

  /** `CurrentDate(p)` names, in this order, the reporting day shifted by
      `p`, the day after it and the day before it. */
  lemma CurrentDateNamesReportingDays(p: int, now: int)
    requires ValidNow(now) && FilterDaysInRange(CurrentDate(p), now)
    ensures var r := ReportingDay(now) + p;
            WhereVal(CurrentDate(p), now) == CurrentDateFilter(FormatDay(r), FormatDay(r + 1), FormatDay(r - 1))
  {
    hide FormatDay;
    var r := ReportingDay(now) + p;
    var d := CountPrefix(p, now);
    CountPrefixFollowsReportingDay(p, now);
    assert DayOf(now) + d == r;
    AddCurDateByDays(d, now);
    AddCurDateByDays(d + 1, now);
    AddCurDateByDays(d - 1, now);
    assert DayOf(now) + (d + 1) == r + 1;
    assert DayOf(now) + (d - 1) == r - 1;
  }

  /** Two instants in the same reporting day build the same filter: the
      filters change only at the 10:00:00 UTC cutoff. */
  lemma SameReportingDaySameFilter(w: WhereQueries, t1: int, t2: int)
    requires ValidNow(t1) && ValidNow(t2)
    requires ReportingDay(t1) == ReportingDay(t2)
    requires FilterDaysInRange(w, t1)
    ensures WhereVal(w, t1) == WhereVal(w, t2)
  {
    hide FormatDay, FormatDate, AddCurDate;
    match w
    case CurrentDate(p) =>
      CurrentDateNamesReportingDays(p, t1);
      CurrentDateNamesReportingDays(p, t2);
    case BeforeToday(p) =>
      BeforeTodayNamesReportingDay(p, t1);
      BeforeTodayNamesReportingDay(p, t2);
    case _ =>
  }

  // ------ Statistics descriptor -------- //

  const StatisticsHead := "[{\"statisticType\":\"sum\",\"onStatisticField\":\""
  const StatisticsTail := "\",\"outStatisticFieldName\":\"value\"}]"

  /** The field a statistics descriptor sums, if the string is one. */
  function OnStatisticField(q: string): Option<string>
  {
    if |q| >= |StatisticsHead| + |StatisticsTail|
       && q[..|StatisticsHead|] == StatisticsHead
       && q[|q| - |StatisticsTail|..] == StatisticsTail
    then Some(q[|StatisticsHead|..|q| - |StatisticsTail|])
    else None
  }

  /** `create_statistics_query`: a one-element array asking for the sum of
      `field` under the name `value`; the field can be read back from it. */
  function CreateStatisticsQuery(field: string): (q: string)
    ensures OnStatisticField(q) == Some(field)
  {
    var q := StatisticsHead + field + StatisticsTail;
    assert q[..|StatisticsHead|] == StatisticsHead;
    assert q[|q| - |StatisticsTail|..] == StatisticsTail;
    assert q[|StatisticsHead|..|q| - |StatisticsTail|] == field;
    q
  }

  // ------ Dates -------- //

  /** `add_cur_date`: today's date moved by `dur` seconds; when the moved
      instant leaves chrono's range the date of today is used instead. */
  function AddCurDate(dur: int, now: int): (s: string)
    requires ValidNow(now)
    ensures |s| >= 10
  {
    if InChronoRange(DayOf(now + dur)) then FormatDate(now + dur) else FormatDate(now)
  }

  /** The date `add_cur_date` renders names the day `dur` seconds from now,
      or today when that day is out of range. */
  lemma AddCurDateNamesDay(dur: int, now: int)
    requires ValidNow(now)
    ensures InChronoRange(DayOf(now + dur)) && FourDigitYear(DayOf(now + dur))
            ==> ParseDate(AddCurDate(dur, now)) == Some(DayOf(now + dur))
    ensures !InChronoRange(DayOf(now + dur)) && FourDigitYear(DayOf(now))
            ==> ParseDate(AddCurDate(dur, now)) == Some(DayOf(now))
  {
  }

  /** Moving today by a whole number of days inside chrono's range renders
      the date of that day. */
  lemma AddCurDateByDays(days: int, now: int)
    requires ValidNow(now) && InChronoRange(DayOf(now) + days)
    ensures AddCurDate(days * 86400, now) == FormatDay(DayOf(now) + days)
  {
    hide FormatDay;
    DayShift(now, days);
  }

  lemma DayShift(t: int, days: int)
    ensures DayOf(t + days * 86400) == DayOf(t) + days
  {
  }

  /** `format_date`: `%Y-%m-%d`. */
  function FormatDate(t: int): (s: string)
    ensures |s| >= 10
    ensures FourDigitYear(DayOf(t)) ==> |s| == 10 && ParseDate(s) == Some(DayOf(t))
  {
    FormatDay(DayOf(t))
  }

  /** `format_date_with_time`: `%Y-%m-%d %H:%M:%S`, the date, a space and
      the time of day. */
  function FormatDateWithTime(t: int): (s: string)
    ensures |s| >= 19
  {
    FormatDate(t) + " " + FormatClock(SecondOfDay(t))
  }

  /** Reading back a rendering of an instant in a four-digit year gives the
      instant. */
  lemma DateTimeRoundTrip(t: int)
    ensures FourDigitYear(DayOf(t)) ==> |FormatDateWithTime(t)| == 19
    ensures FourDigitYear(DayOf(t)) ==> ParseDateTime(FormatDateWithTime(t)) == Some(t)
  {
    hide FormatDay, FormatClock, ParseDate, ParseClock;
    if FourDigitYear(DayOf(t)) {
      FormatClockRoundTrip(SecondOfDay(t));
      JoinDateTime(FormatDate(t), FormatClock(SecondOfDay(t)), DayOf(t), SecondOfDay(t));
    }
  }

  /** Rust's `/` on integers: the quotient rounds toward zero. */
  function TruncDiv(a: int, b: int): (q: int)
    requires b > 0
    ensures a >= 0 ==> 0 <= a - q * b < b
    ensures a < 0 ==> -b < a - q * b <= 0
  {
    if a >= 0 then a / b else -((-a) / b)
  }

  /** The whole seconds of a millisecond timestamp, as `secs / 1000` computes them. */
  function MillisToSeconds(ms: I64): int
  {
    TruncDiv(ms, 1000)
  }

  /** A timestamp `NaiveDateTime::from_timestamp` accepts without panicking. */
  predicate TimestampInRange(ts: Option<I64>)
  {
    ts.Some? ==> InChronoRange(DayOf(MillisToSeconds(ts.value)))
  }

  /** `timestamp_to_date`: the instant of a millisecond timestamp, or the
      current instant when there is none, as `%Y-%m-%d %H:%M:%S`. */
  function TimestampToDate(ts: Option<I64>, now: int): (s: string)
    requires TimestampInRange(ts)
    ensures |s| >= 19
    ensures ts.Some? && FourDigitYear(DayOf(MillisToSeconds(ts.value)))
            ==> ParseDateTime(s) == Some(MillisToSeconds(ts.value))
    ensures ts.None? && FourDigitYear(DayOf(now)) ==> ParseDateTime(s) == Some(now)
  {
    hide FormatDateWithTime;
    match ts
    case Some(ms) => DateTimeRoundTrip(MillisToSeconds(ms)); FormatDateWithTime(MillisToSeconds(ms))
    case None => DateTimeRoundTrip(now); FormatDateWithTime(now)
  }
}
