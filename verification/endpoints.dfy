/** The three operations of `src/endpoints.rs`: fetch the daily series,
    the per-province breakdown and the cumulative totals, store them and
    write a dated snapshot. The HTTP round trip, the JSON parser and the
    snapshot write are parameters: `get(url, pairs)` answers the body of
    the query `pairs` sent to `url` or an error, `parse` turns a body into
    a value or an error message, and `write(path)` reports whether the
    snapshot file could be written. */
module Endpoints {
  import opened Wrappers
  import opened Numbers
  import opened Json
  import opened Calendar
  import opened Helpers
  import opened Store
  import opened Models

  datatype Error = Error(message: string)

  /** `make_base_querystring`: the default parameters with the filter `w`. */
  method MakeBaseQuerystring(w: WhereQueries) returns (q: QueryParams)
    ensures q.whereQuery == w
    ensures q.f == "json" && q.outFields == "*" && q.spatialRel == "esriSpatialRelIntersects"
  {
    q := QueryParams.New();
    q := q.(whereQuery := w);
  }

  /** The query pairs `fetch_common` sends: the six base pairs with the
      filter `w`, then the caller's pairs. */
  function RequestPairs(w: WhereQueries, stat: seq<(string, string)>, now: int): seq<(string, string)>
    requires ValidNow(now)
  {
    QueryParams.New().(whereQuery := w).QueryPairs(now) + stat
  }

  /** The request names the requested filter under `where`, asks for JSON
      and every field, and carries the caller's pairs, unchanged and in
      order, after the six base keys. */
  lemma RequestPairsShape(w: WhereQueries, stat: seq<(string, string)>, now: int)
    requires ValidNow(now)
    ensures var pairs := RequestPairs(w, stat, now);
            && |pairs| == 6 + |stat|
            && Keys(pairs)[..6] == BaseKeys
            && pairs[0] == ("f", "json")
            && pairs[1] == ("where", WhereVal(w, now))
            && pairs[4] == ("outFields", "*")
            && pairs[6..] == stat
  {
    hide WhereVal;
    var base := QueryParams.New().(whereQuery := w).QueryPairs(now);
    var pairs := base + stat;
    assert pairs[6..] == stat;
    assert Keys(pairs)[..6] == Keys(base);
  }

  /** The extra pairs of `fetch_daily`: oldest record first, up to 2000. */
  const DailyExtras: seq<(string, string)> :=
    [("orderByFields", "Tanggal asc"), ("resultRecordCount", "2000"), ("resultOffset", "0")]

  /** The extra pairs of `fetch_province`: most positive cases first. */
  const ProvinceExtras: seq<(string, string)> :=
    [("orderByFields", "Kasus_Posi desc"), ("resultRecordCount", "2000"), ("resultOffset", "0")]

  /** The fields `cumulative_stats` sums, in the order the requests are
      submitted: deaths, recovered, under treatment, total cases. */
  const StatFields: seq<string> :=
    ["Jumlah_Pasien_Meninggal", "Jumlah_Pasien_Sembuh", "Jumlah_pasien_dalam_perawatan", "Jumlah_Kasus_Kumulatif"]

  /** The request of the `i`-th cumulative statistic. */
  function StatPairs(i: nat): seq<(string, string)>
    requires i < |StatFields|
  {
    [("outStatistics", CreateStatisticsQuery(StatFields[i]))]
  }

  /** The daily request asks for every record before 17:00:00 of the
      current reporting day, oldest first, at most 2000 of them. */
  lemma DailyRequestCutsAtReportingDay(now: int)
    requires ValidNow(now) && FilterDaysInRange(BeforeToday(0), now)
    ensures var pairs := RequestPairs(BeforeToday(0), DailyExtras, now);
            && pairs[1] == ("where", BeforeTodayFilter(FormatDay(ReportingDay(now))))
            && pairs[6..] == DailyExtras
  {
    hide WhereVal, FormatDay, RequestPairs;
    RequestPairsShape(BeforeToday(0), DailyExtras, now);
    BeforeTodayNamesReportingDay(0, now);
  }

  /** The `i`-th cumulative request sums the `i`-th field over the
      reporting day shifted by `prefix`. */
  lemma CumulativeRequestNamesField(i: nat, prefix: int, now: int)
    requires i < |StatFields|
    requires ValidNow(now) && FilterDaysInRange(CurrentDate(prefix), now)
    ensures var pairs := RequestPairs(CurrentDate(prefix), StatPairs(i), now);
            var r := ReportingDay(now) + prefix;
            && |pairs| == 7
            && pairs[1] == ("where", CurrentDateFilter(FormatDay(r), FormatDay(r + 1), FormatDay(r - 1)))
            && pairs[6].0 == "outStatistics"
            && OnStatisticField(pairs[6].1) == Some(StatFields[i])
  {
    hide WhereVal, FormatDay, RequestPairs, CreateStatisticsQuery;
    RequestPairsShape(CurrentDate(prefix), StatPairs(i), now);
    CurrentDateNamesReportingDays(prefix, now);
    assert RequestPairs(CurrentDate(prefix), StatPairs(i), now)[6] == StatPairs(i)[0];
  }

  /** `get_json_val`: a failed fetch loses its cause and becomes "Failure to
      fetch stats data"; a fetched body is parsed, and a parse failure is
      passed on. */
  function GetJsonVal(res: Result<string, Error>, parse: string -> Result<Value, Error>): (r: Result<Value, Error>)
    ensures r.Ok? <==> res.Ok? && parse(res.value).Ok?
    ensures res.Err? ==> r.error.message == "Failure to fetch stats data"
    ensures res.Ok? ==> r == parse(res.value)
  {
    match res
    case Ok(body) => parse(body)
    case Err(_) => Err(Error("Failure to fetch stats data"))
  }

  /** `["features"][0]["attributes"]["value"].as_i64()`: the statistic in an
      answer to a statistics query. */
  function StatValue(v: Value): (n: Option<I64>)
    ensures var x := Member(Member(Element(Member(v, "features"), 0), "attributes"), "value");
            n.Some? <==> x.Num? && x.n.IntNumber? && -0x8000_0000_0000_0000 <= x.n.i < 0x8000_0000_0000_0000
    ensures n.Some? ==> Member(Member(Element(Member(v, "features"), 0), "attributes"), "value")
                        == Num(IntNumber(n.value))
  {
    AsI64(Member(Member(Element(Member(v, "features"), 0), "attributes"), "value"))
  }

  /** The slice pattern of `cumulative_stats`: exactly four answers, all
      parsed, give the totals; total cases come from the fourth answer,
      deaths from the first, recovered from the second and patients under
      treatment from the third. */
  function CombineStats(vals: seq<Result<Value, Error>>, created: string): (r: Result<CovidStatistics, Error>)
    ensures r.Ok? <==> |vals| == 4 && forall i :: 0 <= i < 4 ==> vals[i].Ok?
    ensures r.Err? ==> r.error.message == "Failure to get cumulative stats"
    ensures r.Ok? ==> r.value.created == Some(created)
  {
    if |vals| == 4 && vals[0].Ok? && vals[1].Ok? && vals[2].Ok? && vals[3].Ok? then
      Ok(CovidStatistics.New(StatValue(vals[3].value), StatValue(vals[0].value), StatValue(vals[1].value),
                             StatValue(vals[2].value), Some(created)))
    else Err(Error("Failure to get cumulative stats"))
  }

  /** Each total of the combined statistics is read from the answer to the
      query that sums that total's field. */
  lemma CombineStatsNamesFields(vals: seq<Result<Value, Error>>, created: string)
    requires CombineStats(vals, created).Ok?
    ensures var c := CombineStats(vals, created).value;
            && OnStatisticField(StatPairs(3)[0].1) == Some("Jumlah_Kasus_Kumulatif")
            && c.totalCases == StatValue(vals[3].value)
            && OnStatisticField(StatPairs(0)[0].1) == Some("Jumlah_Pasien_Meninggal")
            && c.deaths == StatValue(vals[0].value)
            && OnStatisticField(StatPairs(1)[0].1) == Some("Jumlah_Pasien_Sembuh")
            && c.recovered == StatValue(vals[1].value)
            && OnStatisticField(StatPairs(2)[0].1) == Some("Jumlah_pasien_dalam_perawatan")
            && c.pdp == StatValue(vals[2].value)
  {
  }

  /** Every feature has attributes and convertible timestamps, so
      `DataProvinsiOpt::new` does not panic on any of them. */
  predicate Convertible(feats: seq<Feature>)
  {
    forall i :: 0 <= i < |feats| ==> feats[i].attributes.Some? && feats[i].attributes.value.TimestampsInRange()
  }

  /** The vector `get_ina_covid_vec` builds: a record for every feature. */
  function FeatureVec(feats: seq<Feature>, now: int): (vec: seq<Option<IndoCovidStats>>)
    requires Convertible(feats)
    ensures |vec| == |feats|
  {
    seq(|feats|, i requires 0 <= i < |feats| && Convertible(feats) =>
      Some(IndoCovidStats.New(feats[i].attributes.value, now)))
  }

  /** The records of the vector are one per feature, in order, each dated;
      they can all be keyed in the province table exactly when every
      feature names its province. */
  lemma FeatureVecRecords(feats: seq<Feature>, now: int)
    requires Convertible(feats)
    ensures |Records(FeatureVec(feats, now))| == |feats|
    ensures forall i :: 0 <= i < |feats|
              ==> Records(FeatureVec(feats, now))[i] == IndoCovidStats.New(feats[i].attributes.value, now)
    ensures AllDated(FeatureVec(feats, now))
    ensures AllProvinceKeyed(FeatureVec(feats, now))
            <==> forall i :: 0 <= i < |feats| ==> feats[i].attributes.value.provinsi.Some?
  {
    hide TimestampToDate, Records;
    var vec := FeatureVec(feats, now);
    RecordsOfSomes(vec);
    assert forall i :: 0 <= i < |feats| ==> vec[i].value.date.Some? && |vec[i].value.date.value| >= 19;
    assert forall i :: 0 <= i < |feats| ==> vec[i].value.provinsi == feats[i].attributes.value.provinsi;
  }

  /** The records of a vector without `None` entries are its values. */
  lemma {:induction false} RecordsOfSomes(vec: seq<Option<IndoCovidStats>>)
    requires forall i :: 0 <= i < |vec| ==> vec[i].Some?
    ensures |Records(vec)| == |vec|
    ensures forall i :: 0 <= i < |vec| ==> Records(vec)[i] == vec[i].value
  {
    if vec != [] {
      RecordsOfSomes(vec[..|vec| - 1]);
    }
  }

  /** The four answers `cumulative_stats` collects, in submission order:
      the `i`-th is the parsed answer to the query summing `StatFields[i]`
      over the reporting day shifted by `prefix`. */
  function CumulativeAnswers(prefix: int, now: int, get: (string, seq<(string, string)>) -> Result<string, Error>,
                             parse: string -> Result<Value, Error>): (vals: seq<Result<Value, Error>>)
    requires ValidNow(now)
    ensures |vals| == |StatFields|
  {
    seq(|StatFields|, i requires 0 <= i < |StatFields| && ValidNow(now) =>
      GetJsonVal(get(EpVal(Perkembangan), RequestPairs(CurrentDate(prefix), StatPairs(i), now)), parse))
  }

/** The record `cumulative_stats` builds from those answers, dated today. */
  function CumulativeRecord(prefix: int, now: int, get: (string, seq<(string, string)>) -> Result<string, Error>,
                            parse: string -> Result<Value, Error>): (r: Result<CovidStatistics, Error>)
    requires ValidNow(now)
    ensures r.Ok? ==> r.value.created == Some(AddCurDate(0, now))
  {
    CombineStats(CumulativeAnswers(prefix, now, get, parse), AddCurDate(0, now))
  }

  /** The client of the job: the store it writes and the snapshot directory. */
  class Request {
    const pgstore: PgStore
    const jsondir: string

    constructor (store: PgStore, jsondir: string)
      ensures pgstore == store && this.jsondir == jsondir
    {
      pgstore := store;
      this.jsondir := jsondir;
    }

    /** `fetch_common`: the base query with filter `w`, the caller's pairs
        appended, sent to the endpoint's URL. */
    method FetchCommon(w: WhereQueries, stat: seq<(string, string)>, endpoint: Endpoint, now: int,
                       get: (string, seq<(string, string)>) -> Result<string, Error>)
      returns (r: Result<string, Error>)
      requires ValidNow(now)
      ensures r == get(EpVal(endpoint), RequestPairs(w, stat, now))
    {
      hide WhereVal;
      var baseQuery := MakeBaseQuerystring(w);
      var queryString := baseQuery.AddQueries(stat, now);
      assert queryString == queryString[..6] + queryString[6..];
      r := get(EpVal(endpoint), queryString);
    }

    /** `get_ina_covid_vec`: a record for every feature of the response. */
    method GetInaCovidVec(res: InaCovid, now: int) returns (v: DataProvinsiOptVec)
      requires Convertible(res.GetFeatures())
      ensures v.provinsiVec == FeatureVec(res.GetFeatures(), now)
    {
      var feats := res.GetFeatures();
      var dataProv := seq(|feats|, i requires 0 <= i < |feats| && Convertible(feats) =>
        DataProvinsiOpt.New(feats[i], now));
      v := DataProvinsiOptVec.New(dataProv);
    }

    /** `set_json_filename`: `<jsondir><name>-<today>.json`. */
    function SetJsonFilename(name: string, now: int): string
      requires ValidNow(now)
    {
      jsondir + name + "-" + AddCurDate(0, now) + ".json"
    }

    /** The snapshot name starts with the directory and the label, ends in
        `.json`, and between them names today's date. */
    lemma SetJsonFilenameNamesToday(name: string, now: int)
      requires ValidNow(now) && FourDigitYear(DayOf(now))
      ensures var f := SetJsonFilename(name, now);
              && |f| == |jsondir| + |name| + 16
              && f[..|jsondir| + |name| + 1] == jsondir + name + "-"
              && f[|f| - 5..] == ".json"
              && ParseDate(f[|jsondir| + |name| + 1..|f| - 5]) == Some(DayOf(now))
    {
      hide FormatDay, ParseDate;
      AddCurDateNamesDay(0, now);
      var day := AddCurDate(0, now);
      assert |day| == 10;
      var head := jsondir + name + "-";
      var f := head + day + ".json";
      assert f[..|head|] == head;
      assert f[|head|..|f| - 5] == day;
      assert f[|f| - 5..] == ".json";
    }

    /** `fetch_daily`: fetch the series up to the current reporting day,
        store every record in the daily table, then write the snapshot.
        A fetch or parse failure leaves the store untouched; a failed
        snapshot write comes after the transaction has committed. */
    method FetchDaily(now: int, get: (string, seq<(string, string)>) -> Result<string, Error>,
                      parse: string -> Result<InaCovid, string>, write: string -> Result<(), Error>)
      returns (r: Result<string, Error>)
      requires ValidNow(now)
      requires var body := get(EpVal(Perkembangan), RequestPairs(BeforeToday(0), DailyExtras, now));
               body.Ok? && parse(body.value).Ok? ==> Convertible(parse(body.value).value.GetFeatures())
      modifies pgstore
      ensures var body := get(EpVal(Perkembangan), RequestPairs(BeforeToday(0), DailyExtras, now));
              && (body.Err? ==> r == Err(body.error) && unchanged(pgstore))
              && (body.Ok? && parse(body.value).Err?
                  ==> r == Err(Error("Failed to serialize InaCovid json: " + parse(body.value).error))
                      && unchanged(pgstore))
              && (body.Ok? && parse(body.value).Ok? ==>
                    var vec := FeatureVec(parse(body.value).value.GetFeatures(), now);
                    && Dated(Records(vec))
                    && pgstore.daily == UpsertAll(old(pgstore.daily), DailyEntries(Records(vec)))
                    && pgstore.province == old(pgstore.province) && pgstore.stats == old(pgstore.stats)
                    && r == match write(SetJsonFilename("daily", now))
                            case Ok(_) => Ok("Daily stats succesfully stored")
                            case Err(e) => Err(e))
    {
      hide WhereVal, AddCurDate, FormatDay, FormatDate, TimestampToDate, RequestPairs, Records, UpsertAll, SetJsonFilename, FeatureVec;
      var results := FetchCommon(BeforeToday(0), DailyExtras, Perkembangan, now, get);
      if results.Err? {
        return Err(results.error);
      }
      var inaCovid := parse(results.value);
      match inaCovid
      case Err(e) =>
        r := Err(Error("Failed to serialize InaCovid json: " + e));
      case Ok(ic) =>
        var inaCovidVec := GetInaCovidVec(ic, now);
        FeatureVecRecords(ic.GetFeatures(), now);
        inaCovidVec.InsertDbDaily(pgstore);
        var jsonFile := SetJsonFilename("daily", now);
        match write(jsonFile)
        case Ok(_) => r := Ok("Daily stats succesfully stored");
        case Err(e) => r := Err(e);
    }

    /** `fetch_province`: fetch every province, store every record in the
        province table, then write the snapshot. A fetch or parse failure
        leaves the store untouched. */
    method FetchProvince(now: int, get: (string, seq<(string, string)>) -> Result<string, Error>,
                         parse: string -> Result<InaCovid, string>, write: string -> Result<(), Error>)
      returns (r: Result<string, Error>)
      requires ValidNow(now)
      requires var body := get(EpVal(Perprov), RequestPairs(All, ProvinceExtras, now));
               body.Ok? && parse(body.value).Ok? ==>
                 var feats := parse(body.value).value.GetFeatures();
                 Convertible(feats) && forall i :: 0 <= i < |feats| ==> feats[i].attributes.value.provinsi.Some?
      modifies pgstore
      ensures var body := get(EpVal(Perprov), RequestPairs(All, ProvinceExtras, now));
              && (body.Err? ==> r == Err(body.error) && unchanged(pgstore))
              && (body.Ok? && parse(body.value).Err?
                  ==> r == Err(Error("Failed to serialize InaCovid json: " + parse(body.value).error))
                      && unchanged(pgstore))
              && (body.Ok? && parse(body.value).Ok? ==>
                    var vec := FeatureVec(parse(body.value).value.GetFeatures(), now);
                    && ProvinceKeyedAll(Records(vec))
                    && pgstore.province == UpsertAll(old(pgstore.province), ProvinceEntries(Records(vec), AsWritten))
                    && pgstore.daily == old(pgstore.daily) && pgstore.stats == old(pgstore.stats)
                    && r == match write(SetJsonFilename("province", now))
                            case Ok(_) => Ok("Province stats succesfully stored")
                            case Err(e) => Err(e))
    {
      hide WhereVal, AddCurDate, FormatDay, FormatDate, TimestampToDate, RequestPairs, Records, UpsertAll, SetJsonFilename, FeatureVec;
      var results := FetchCommon(All, ProvinceExtras, Perprov, now, get);
      if results.Err? {
        return Err(results.error);
      }
      var inaCovid := parse(results.value);
      match inaCovid
      case Err(e) =>
        r := Err(Error("Failed to serialize InaCovid json: " + e));
      case Ok(ic) =>
        var inaCovidVec := GetInaCovidVec(ic, now);
        FeatureVecRecords(ic.GetFeatures(), now);
        inaCovidVec.InsertDbProvince(pgstore, AsWritten);
        var jsonFile := SetJsonFilename("province", now);
        match write(jsonFile)
        case Ok(_) => r := Ok("Province stats succesfully stored");
        case Err(e) => r := Err(e);
    }

    /** `cumulative_stats`: the four statistics queries, answers kept in
        submission order, combined into one record keyed by today's date
        and stored; then the snapshot is written. Any failed or unparsable
        answer leaves the store untouched. */
    method CumulativeStats(prefix: I64, now: int, get: (string, seq<(string, string)>) -> Result<string, Error>,
                           parse: string -> Result<Value, Error>, write: string -> Result<(), Error>)
      returns (r: Result<string, Error>)
      requires ValidNow(now)
      modifies pgstore
      ensures var combined := CumulativeRecord(prefix, now, get, parse);
              && (combined.Err? ==> r == Err(Error("Failure to get cumulative stats")) && unchanged(pgstore))
              && (combined.Ok? ==>
                    && pgstore.stats == Upsert(old(pgstore.stats), combined.value.created.value, combined.value.Row())
                    && pgstore.daily == old(pgstore.daily) && pgstore.province == old(pgstore.province)
                    && r == match write(SetJsonFilename("cumulative", now))
                            case Ok(_) => Ok("Cumulative stats succesfully stored")
                            case Err(e) => Err(e))
    {
      hide WhereVal, AddCurDate, FormatDay, FormatDate, RequestPairs, SetJsonFilename, GetJsonVal, StatPairs, CombineStats, EpVal;
      var allStats: seq<Result<Value, Error>> := [];
      for i := 0 to |StatFields|
        invariant unchanged(pgstore)
        invariant |allStats| == i
        invariant forall j :: 0 <= j < i ==> allStats[j] == CumulativeAnswers(prefix, now, get, parse)[j]
      {
        var res := FetchCommon(CurrentDate(prefix), StatPairs(i), Perkembangan, now, get);
        allStats := allStats + [GetJsonVal(res, parse)];
      }
      assert allStats == CumulativeAnswers(prefix, now, get, parse);
      var created := AddCurDate(0, now);
      assert CombineStats(allStats, created) == CumulativeRecord(prefix, now, get, parse);
      hide CumulativeAnswers, CumulativeRecord;
      match CombineStats(allStats, created)
      case Err(e) =>
        r := Err(e);
      case Ok(newStats) =>
        newStats.InsertDb(pgstore);
        var jsonFile := SetJsonFilename("cumulative", now);
        match write(jsonFile)
        case Ok(_) => r := Ok("Cumulative stats succesfully stored");
        case Err(e) => r := Err(e);
    }
  }
}
