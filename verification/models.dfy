/** The records of `src/models.rs`: the feature-collection envelope the
    upstream API answers with, the flat statistics record the job builds
    from each feature, and the transactions that upsert those records into
    the daily, province and cumulative tables. */
module Models {
  import opened Wrappers
  import opened Numbers
  import opened Json
  import opened Calendar
  import opened Helpers
  import opened Store

  // ------ The upstream envelope -------- //

  datatype UniqueIdField = UniqueIdField(name: Option<string>, isSystemMaintained: Option<bool>)

  datatype SpatialReference = SpatialReference(wkid: Option<I64>, latestWkid: Option<I64>)

  datatype Field = Field(
    name: Option<string>,
    fieldType: Option<string>,
    alias: Option<string>,
    sqlType: Option<string>,
    domain: Option<Value>,
    defaultValue: Option<Value>,
    length: Option<I64>)

  /** The raw attributes of one feature; upstream may leave out any of them.
      `tanggal` and `pembaruanTerakhir` are epoch milliseconds. */
  datatype Attributes = Attributes(
    fid: Option<I64>,
    kodeProvi: Option<I64>,
    provinsi: Option<string>,
    kasusPosi: Option<I64>,
    kasusSemb: Option<I64>,
    kasusMeni: Option<I64>,
    value: Option<I64>,
    hariKe: Option<I64>,
    tanggal: Option<I64>,
    jumlahKasusBaruPerHari: Option<I64>,
    jumlahKasusKumulatif: Option<I64>,
    jumlahPasienDalamPerawatan: Option<I64>,
    persentasePasienDalamPerawatan: Option<F64>,
    jumlahPasienSembuh: Option<I64>,
    persentasePasienSembuh: Option<F64>,
    jumlahPasienMeninggal: Option<I64>,
    persentasePasienMeninggal: Option<F64>,
    jumlahKasusSembuhPerHari: Option<I64>,
    jumlahKasusMeninggalPerHari: Option<I64>,
    jumlahKasusDirawatPerHari: Option<I64>,
    kasusSedangInvestigasiLapangan: Option<I64>,
    pembaruanTerakhir: Option<I64>)
  {
    /** Both timestamps are ones `timestamp_to_date` can convert. */
    predicate TimestampsInRange()
    {
      TimestampInRange(tanggal) && TimestampInRange(pembaruanTerakhir)
    }
  }

  datatype Feature = Feature(attributes: Option<Attributes>)

  datatype InaCovid = InaCovid(
    objectIdFieldName: Option<string>,
    uniqueIdField: Option<UniqueIdField>,
    globalIdFieldName: Option<string>,
    geometryType: Option<string>,
    spatialReference: Option<SpatialReference>,
    fields: Option<seq<Field>>,
    features: Option<seq<Feature>>)
  {
    /** `get_features`: the features in upstream order; a response without
        a feature list has none. */
    function GetFeatures(): (fs: seq<Feature>)
      ensures features.None? ==> fs == []
      ensures features.Some? ==> fs == features.value
    {
      match features
      case None => []
      case Some(x) => x
    }
  }

  // ------ The normalised record -------- //

  datatype IndoCovidStats = IndoCovidStats(
    provinceId: Option<I64>,
    day: Option<I64>,
    date: Option<string>,
    newCasesPerDay: Option<I64>,
    cumulativeCases: Option<I64>,
    underInvestigation: Option<I64>,
    underTreatment: Option<I64>,
    underTreatmentPercentage: Option<F64>,
    recovered: Option<I64>,
    recoveredPercentage: Option<F64>,
    deaths: Option<I64>,
    deathsPercentage: Option<F64>,
    recoveredPerDay: Option<I64>,
    deathsPerDay: Option<I64>,
    underTreatmentPerDay: Option<I64>,
    latestUpdate: Option<string>,
    provinsi: Option<string>,
    positif: Option<I64>,
    sembuh: Option<I64>,
    meninggal: Option<I64>)
  {
    /** `IndoCovidStats::new`: each count, percentage and name is the
        attribute it is renamed from, so an absent attribute stays absent;
        both dates are always present and read back as the instant of
        their timestamp, or the current instant when it is missing. */
    static function New(attr: Attributes, now: int): (s: IndoCovidStats)
      requires attr.TimestampsInRange()
      ensures CopiesAttributes(attr, s)
      ensures s.date.Some? && |s.date.value| >= 19
      ensures s.latestUpdate.Some? && |s.latestUpdate.value| >= 19
      ensures attr.tanggal.Some? && FourDigitYear(DayOf(MillisToSeconds(attr.tanggal.value)))
              ==> ParseDateTime(s.date.value) == Some(MillisToSeconds(attr.tanggal.value))
      ensures attr.tanggal.None? && FourDigitYear(DayOf(now)) ==> ParseDateTime(s.date.value) == Some(now)
      ensures attr.pembaruanTerakhir.Some? && FourDigitYear(DayOf(MillisToSeconds(attr.pembaruanTerakhir.value)))
              ==> ParseDateTime(s.latestUpdate.value) == Some(MillisToSeconds(attr.pembaruanTerakhir.value))
      ensures attr.pembaruanTerakhir.None? && FourDigitYear(DayOf(now)) ==> ParseDateTime(s.latestUpdate.value) == Some(now)
    {
      IndoCovidStats(
        provinceId := attr.kodeProvi,
        day := attr.hariKe,
        date := Some(TimestampToDate(attr.tanggal, now)),
        newCasesPerDay := attr.jumlahKasusBaruPerHari,
        cumulativeCases := attr.jumlahKasusKumulatif,
        underInvestigation := attr.kasusSedangInvestigasiLapangan,
        underTreatment := attr.jumlahPasienDalamPerawatan,
        underTreatmentPercentage := attr.persentasePasienDalamPerawatan,
        recovered := attr.jumlahPasienSembuh,
        recoveredPercentage := attr.persentasePasienSembuh,
        deaths := attr.jumlahPasienMeninggal,
        deathsPercentage := attr.persentasePasienMeninggal,
        recoveredPerDay := attr.jumlahKasusSembuhPerHari,
        deathsPerDay := attr.jumlahKasusMeninggalPerHari,
        underTreatmentPerDay := attr.jumlahKasusDirawatPerHari,
        latestUpdate := Some(TimestampToDate(attr.pembaruanTerakhir, now)),
        provinsi := attr.provinsi,
        positif := attr.kasusPosi,
        sembuh := attr.kasusSemb,
        meninggal := attr.kasusMeni)
    }
  }

  /** The renaming of `IndoCovidStats::new`: which attribute each field of
      the record carries. */
  predicate CopiesAttributes(attr: Attributes, s: IndoCovidStats)
  {
    && s.provinceId == attr.kodeProvi
    && s.provinsi == attr.provinsi
    && s.positif == attr.kasusPosi
    && s.sembuh == attr.kasusSemb
    && s.meninggal == attr.kasusMeni
    && s.day == attr.hariKe
    && s.newCasesPerDay == attr.jumlahKasusBaruPerHari
    && s.cumulativeCases == attr.jumlahKasusKumulatif
    && s.underInvestigation == attr.kasusSedangInvestigasiLapangan
    && s.underTreatment == attr.jumlahPasienDalamPerawatan
    && s.underTreatmentPerDay == attr.jumlahKasusDirawatPerHari
    && s.underTreatmentPercentage == attr.persentasePasienDalamPerawatan
    && s.recovered == attr.jumlahPasienSembuh
    && s.recoveredPerDay == attr.jumlahKasusSembuhPerHari
    && s.recoveredPercentage == attr.persentasePasienSembuh
    && s.deaths == attr.jumlahPasienMeninggal
    && s.deathsPerDay == attr.jumlahKasusMeninggalPerHari
    && s.deathsPercentage == attr.persentasePasienMeninggal
  }

  /** Two features whose attributes differ only in the timestamps and in
      the fields the record drops (`FID`, `Value`) give records that differ
      only in their dates. */
  lemma NewIgnoresDroppedAttributes(a1: Attributes, a2: Attributes, now: int)
    requires a1.TimestampsInRange() && a2.TimestampsInRange()
    requires a1.(fid := a2.fid, value := a2.value, tanggal := a2.tanggal, pembaruanTerakhir := a2.pembaruanTerakhir) == a2
    ensures IndoCovidStats.New(a1, now).(date := None, latestUpdate := None)
            == IndoCovidStats.New(a2, now).(date := None, latestUpdate := None)
  {
    hide TimestampToDate;
  }

  /** A feature turned into an optional record. */
  datatype DataProvinsiOpt = DataProvinsiOpt(indoCovidStats: Option<IndoCovidStats>)
  {
    /** `DataProvinsiOpt::new`: always a record; a feature without
        attributes is a panic in the source, so it is excluded here. */
    static function New(feat: Feature, now: int): (d: DataProvinsiOpt)
      requires feat.attributes.Some? && feat.attributes.value.TimestampsInRange()
      ensures d.indoCovidStats.Some?
      ensures CopiesAttributes(feat.attributes.value, d.indoCovidStats.value)
      ensures d.indoCovidStats.value.date.Some?
    {
      DataProvinsiOpt(Some(IndoCovidStats.New(feat.attributes.value, now)))
    }
  }

  // ------ The tables -------- //

  /** The columns of `covid_daily`; its unique key is the date. */
  datatype DailyRow = DailyRow(
    day: Option<I64>,
    date: string,
    newCasesPerDay: Option<I64>,
    cumulativeCases: Option<I64>,
    underTreatment: Option<I64>,
    underTreatmentPerDay: Option<I64>,
    underTreatmentPercentage: Option<F64>,
    recovered: Option<I64>,
    recoveredPerDay: Option<I64>,
    recoveredPercentage: Option<F64>,
    deaths: Option<I64>,
    deathsPerDay: Option<I64>,
    deathsPercentage: Option<F64>,
    latestUpdate: Option<string>)

  /** The columns of `covid_province`; its unique key is `provAndDate`. */
  datatype ProvinceRow = ProvinceRow(
    provinceId: Option<I64>,
    date: Option<string>,
    provinsi: string,
    positif: Option<I64>,
    sembuh: Option<I64>,
    meninggal: Option<I64>,
    provAndDate: string)

  /** The columns of `covid_stats`; its unique key is `atDate`. */
  datatype StatsRow = StatsRow(
    deaths: Option<I64>,
    totalCases: Option<I64>,
    recovered: Option<I64>,
    pdp: Option<I64>,
    atDate: string)

  /** The database behind the connection pool: the three tables the job
      writes. A transaction works on a copy and commits it at the end. */
  class PgStore {
    var daily: Table<DailyRow>
    var province: Table<ProvinceRow>
    var stats: Table<StatsRow>

    constructor (daily0: Table<DailyRow>, province0: Table<ProvinceRow>, stats0: Table<StatsRow>)
      ensures daily == daily0 && province == province0 && stats == stats0
    {
      daily := daily0;
      province := province0;
      stats := stats0;
    }
  }

  /** The records of a vector, in order, with the `None` entries skipped. */
  function Records(vec: seq<Option<IndoCovidStats>>): (rs: seq<IndoCovidStats>)
    ensures |rs| <= |vec|
  {
    if vec == [] then []
    else Records(vec[..|vec| - 1]) + (match vec[|vec| - 1] case Some(s) => [s] case None => [])
  }

  /** The records are exactly the values of the `Some` entries. */
  lemma {:induction false} RecordsMembers(vec: seq<Option<IndoCovidStats>>)
    ensures forall s :: s in Records(vec) <==> Some(s) in vec
  {
    if vec != [] {
      var init := vec[..|vec| - 1];
      RecordsMembers(init);
      assert forall x :: x in vec <==> x in init || x == vec[|vec| - 1];
    }
  }

  /** The records of the first `i + 1` entries: those of the first `i`,
      then the `i`-th entry's record if it has one. */
  lemma RecordsStep(vec: seq<Option<IndoCovidStats>>, i: int)
    requires 0 <= i < |vec|
    ensures Records(vec[..i + 1])
            == Records(vec[..i]) + (match vec[i] case Some(s) => [s] case None => [])
  {
    assert vec[..i + 1][..i] == vec[..i];
  }

  /** Every record of the vector has a date, the daily table's key. */
  predicate AllDated(vec: seq<Option<IndoCovidStats>>)
  {
    forall i :: 0 <= i < |vec| && vec[i].Some? ==> vec[i].value.date.Some?
  }

  predicate Dated(rs: seq<IndoCovidStats>)
  {
    forall j :: 0 <= j < |rs| ==> rs[j].date.Some?
  }

  /** The records of a prefix of a vector whose records all carry a key
      carry one too. */
  lemma PrefixRecordsKeyed(vec: seq<Option<IndoCovidStats>>, i: int)
    requires 0 <= i <= |vec|
    ensures AllDated(vec) ==> Dated(Records(vec[..i]))
    ensures AllProvinceKeyed(vec) ==> ProvinceKeyedAll(Records(vec[..i]))
  {
    var rs := Records(vec[..i]);
    RecordsMembers(vec[..i]);
    forall j | 0 <= j < |rs|
      ensures exists k :: 0 <= k < |vec| && vec[k] == Some(rs[j])
    {
      assert rs[j] in rs;
      var k :| 0 <= k < i && vec[..i][k] == Some(rs[j]);
      assert vec[k] == Some(rs[j]);
    }
  }

  function DailyRowOf(s: IndoCovidStats): DailyRow
    requires s.date.Some?
  {
    DailyRow(s.day, s.date.value, s.newCasesPerDay, s.cumulativeCases, s.underTreatment,
             s.underTreatmentPerDay, s.underTreatmentPercentage, s.recovered, s.recoveredPerDay,
             s.recoveredPercentage, s.deaths, s.deathsPerDay, s.deathsPercentage, s.latestUpdate)
  }

  /** The statements of `insert_db_daily`: one per record, keyed by its date. */
  function DailyEntries(rs: seq<IndoCovidStats>): (es: seq<(string, DailyRow)>)
    requires Dated(rs)
    ensures |es| == |rs|
    ensures forall j :: 0 <= j < |rs| ==> es[j] == (rs[j].date.value, DailyRowOf(rs[j]))
  {
    if rs == [] then []
    else
      var s := rs[|rs| - 1];
      DailyEntries(rs[..|rs| - 1]) + [(s.date.value, DailyRowOf(s))]
  }

  lemma DailyEntriesSnoc(rs: seq<IndoCovidStats>, s: IndoCovidStats)
    requires Dated(rs) && s.date.Some?
    ensures Dated(rs + [s])
    ensures DailyEntries(rs + [s]) == DailyEntries(rs) + [(s.date.value, DailyRowOf(s))]
  {
    assert (rs + [s])[..|rs|] == rs;
  }

  /** One more record is one more upsert at the end of the transaction. */
  lemma DailyStep(t: Table<DailyRow>, vec: seq<Option<IndoCovidStats>>, i: int)
    requires AllDated(vec) && 0 <= i < |vec|
    ensures Dated(Records(vec[..i])) && Dated(Records(vec[..i + 1]))
    ensures var before := UpsertAll(t, DailyEntries(Records(vec[..i])));
            UpsertAll(t, DailyEntries(Records(vec[..i + 1])))
            == match vec[i]
               case Some(s) => Upsert(before, s.date.value, DailyRowOf(s))
               case None => before
  {
    PrefixRecordsKeyed(vec, i);
    PrefixRecordsKeyed(vec, i + 1);
    RecordsStep(vec, i);
    hide Records, DailyEntries, UpsertAll, DailyRowOf;
    match vec[i]
    case Some(s) =>
      assert Records(vec[..i + 1]) == Records(vec[..i]) + [s];
      DailyEntriesSnoc(Records(vec[..i]), s);
      UpsertAllSnoc(t, DailyEntries(Records(vec[..i])), s.date.value, DailyRowOf(s));
    case None =>
      assert Records(vec[..i + 1]) == Records(vec[..i]) + [];
      assert Records(vec[..i]) + [] == Records(vec[..i]);
  }

  /** Every record can be keyed in the province table: it has a province
      name and a date long enough to cut the key's date part from. */
  predicate AllProvinceKeyed(vec: seq<Option<IndoCovidStats>>)
  {
    forall i :: 0 <= i < |vec| && vec[i].Some? ==> ProvinceKeyed(vec[i].value)
  }

  predicate ProvinceKeyedAll(rs: seq<IndoCovidStats>)
  {
    forall j :: 0 <= j < |rs| ==> ProvinceKeyed(rs[j])
  }

  predicate ProvinceKeyed(s: IndoCovidStats)
  {
    s.provinsi.Some? && s.date.Some? && |s.date.value| >= 10
  }

  /** `prov_and_date` as `insert_db_province` builds it: the province, an
      underscore and the first nine characters of the date. */
  function ProvinceKeyAsWritten(provinsi: string, date: string): (k: string)
    requires |date| >= 9
    ensures |k| == |provinsi| + 10
  {
    provinsi + "_" + date[..9]
  }

  /** `prov_and_date` with the whole day `YYYY-MM-DD`: the first ten
      characters of the date, the part the code names `date_only` and the
      column names `prov_and_date`. Nine characters stop one digit short of
      the day. */
  function ProvinceKey(provinsi: string, date: string): (k: string)
    requires |date| >= 10
    ensures |k| == |provinsi| + 11
  {
    provinsi + "_" + date[..10]
  }

  /** Which date prefix the province key keeps: `AsWritten` is the nine
      characters `insert_db_province` cuts, `PerDay` the whole day. */
  datatype KeyCut = AsWritten | PerDay

  /** The province key of a record. */
  function KeyOf(s: IndoCovidStats, cut: KeyCut): string
    requires ProvinceKeyed(s)
  {
    match cut
    case AsWritten => ProvinceKeyAsWritten(s.provinsi.value, s.date.value)
    case PerDay => ProvinceKey(s.provinsi.value, s.date.value)
  }

  function ProvinceRowOf(s: IndoCovidStats, cut: KeyCut): ProvinceRow
    requires ProvinceKeyed(s)
  {
    ProvinceRow(s.provinceId, s.date, s.provinsi.value, s.positif, s.sembuh, s.meninggal, KeyOf(s, cut))
  }

  /** The statements of `insert_db_province`: one per record, keyed by its
      province and the date prefix `cut` keeps. */
  function ProvinceEntries(rs: seq<IndoCovidStats>, cut: KeyCut): (es: seq<(string, ProvinceRow)>)
    requires ProvinceKeyedAll(rs)
    ensures |es| == |rs|
    ensures forall j :: 0 <= j < |rs| ==> es[j] == (KeyOf(rs[j], cut), ProvinceRowOf(rs[j], cut))
  {
    if rs == [] then []
    else
      var s := rs[|rs| - 1];
      ProvinceEntries(rs[..|rs| - 1], cut) + [(KeyOf(s, cut), ProvinceRowOf(s, cut))]
  }

  lemma ProvinceEntriesSnoc(rs: seq<IndoCovidStats>, s: IndoCovidStats, cut: KeyCut)
    requires ProvinceKeyedAll(rs) && ProvinceKeyed(s)
    ensures ProvinceKeyedAll(rs + [s])
    ensures ProvinceEntries(rs + [s], cut) == ProvinceEntries(rs, cut) + [(KeyOf(s, cut), ProvinceRowOf(s, cut))]
  {
    assert (rs + [s])[..|rs|] == rs;
  }

  /** One more record is one more upsert at the end of the transaction. */
  lemma ProvinceStep(t: Table<ProvinceRow>, vec: seq<Option<IndoCovidStats>>, i: int, cut: KeyCut)
    requires AllProvinceKeyed(vec) && 0 <= i < |vec|
    ensures ProvinceKeyedAll(Records(vec[..i])) && ProvinceKeyedAll(Records(vec[..i + 1]))
    ensures var before := UpsertAll(t, ProvinceEntries(Records(vec[..i]), cut));
            UpsertAll(t, ProvinceEntries(Records(vec[..i + 1]), cut))
            == match vec[i]
               case Some(s) => Upsert(before, KeyOf(s, cut), ProvinceRowOf(s, cut))
               case None => before
  {
    PrefixRecordsKeyed(vec, i);
    PrefixRecordsKeyed(vec, i + 1);
    RecordsStep(vec, i);
    hide Records, ProvinceEntries, UpsertAll, ProvinceRowOf, KeyOf;
    match vec[i]
    case Some(s) =>
      assert Records(vec[..i + 1]) == Records(vec[..i]) + [s];
      ProvinceEntriesSnoc(Records(vec[..i]), s, cut);
      UpsertAllSnoc(t, ProvinceEntries(Records(vec[..i]), cut), KeyOf(s, cut), ProvinceRowOf(s, cut));
    case None =>
      assert Records(vec[..i + 1]) == Records(vec[..i]) + [];
      assert Records(vec[..i]) + [] == Records(vec[..i]);
  }

  /** Before the first record the transaction has written nothing. */
  lemma ProvinceStart(t: Table<ProvinceRow>, vec: seq<Option<IndoCovidStats>>, cut: KeyCut)
    ensures ProvinceKeyedAll(Records(vec[..0]))
    ensures UpsertAll(t, ProvinceEntries(Records(vec[..0]), cut)) == t
  {
    assert vec[..0] == [];
  }

  /** The records of a vector gathered by `DataProvinsiOptVec::new`. */
  datatype DataProvinsiOptVec = DataProvinsiOptVec(provinsiVec: seq<Option<IndoCovidStats>>)
  {
    /** `DataProvinsiOptVec::new`: the optional records of the features,
        one per feature, in the same order. */
    static method New(vals: seq<DataProvinsiOpt>) returns (v: DataProvinsiOptVec)
      ensures |v.provinsiVec| == |vals|
      ensures forall i :: 0 <= i < |vals| ==> v.provinsiVec[i] == vals[i].indoCovidStats
    {
      var acc: seq<Option<IndoCovidStats>> := [];
      for i := 0 to |vals|
        invariant |acc| == i
        invariant forall j :: 0 <= j < i ==> acc[j] == vals[j].indoCovidStats
      {
        acc := acc + [vals[i].indoCovidStats];
      }
      v := DataProvinsiOptVec(acc);
    }

    /** `insert_db_daily`: in one transaction, an upsert keyed by the date
        for every record, in order; `None` entries are skipped. Only the
        daily table changes. */
    method InsertDbDaily(store: PgStore)
      requires AllDated(provinsiVec)
      modifies store
      ensures Dated(Records(provinsiVec))
      ensures store.daily == UpsertAll(old(store.daily), DailyEntries(Records(provinsiVec)))
      ensures store.province == old(store.province) && store.stats == old(store.stats)
    {
      PrefixRecordsKeyed(provinsiVec, 0);
      var tx := store.daily;
      for i := 0 to |provinsiVec|
        invariant unchanged(store)
        invariant Dated(Records(provinsiVec[..i]))
        invariant tx == UpsertAll(store.daily, DailyEntries(Records(provinsiVec[..i])))
      {
        DailyStep(store.daily, provinsiVec, i);
        match provinsiVec[i]
        case Some(prov) =>
          tx := Upsert(tx, prov.date.value, DailyRowOf(prov));
        case None =>
      }
      assert provinsiVec[..|provinsiVec|] == provinsiVec;
      store.daily := tx;
    }

    /** `insert_db_province`: in one transaction, an upsert keyed by
        province and date prefix for every record, in order; `None`
        entries are skipped. Only the province table changes. The code
        keys with `cut == AsWritten`; `PerDay` is the corrected key. */
    method InsertDbProvince(store: PgStore, cut: KeyCut)
      requires AllProvinceKeyed(provinsiVec)
      modifies store
      ensures ProvinceKeyedAll(Records(provinsiVec))
      ensures store.province == UpsertAll(old(store.province), ProvinceEntries(Records(provinsiVec), cut))
      ensures store.daily == old(store.daily) && store.stats == old(store.stats)
    {
      var tx := ProvinceTransaction(store.province, cut);
      store.province := tx;
    }

    /** The statements of `insert_db_province`'s transaction run against
        table `t`, one record at a time. */
    method ProvinceTransaction(t: Table<ProvinceRow>, cut: KeyCut) returns (tx: Table<ProvinceRow>)
      requires AllProvinceKeyed(provinsiVec)
      ensures ProvinceKeyedAll(Records(provinsiVec))
      ensures tx == UpsertAll(t, ProvinceEntries(Records(provinsiVec), cut))
    {
      ProvinceStart(t, provinsiVec, cut);
      hide KeyOf, ProvinceRowOf, ProvinceKeyed, Records, ProvinceEntries, UpsertAll, Upsert;
      tx := t;
      for i := 0 to |provinsiVec|
        invariant ProvinceKeyedAll(Records(provinsiVec[..i]))
        invariant tx == UpsertAll(t, ProvinceEntries(Records(provinsiVec[..i]), cut))
      {
        ProvinceStep(t, provinsiVec, i, cut);
        match provinsiVec[i]
        case Some(prov) =>
          tx := Upsert(tx, KeyOf(prov, cut), ProvinceRowOf(prov, cut));
        case None =>
      }
      assert provinsiVec[..|provinsiVec|] == provinsiVec;
    }
  }

  // ------ Properties of the daily and province transactions -------- //

  /** The first record of a date that the table did not hold is the one
      stored under that date; the row is flagged as existing exactly when a
      later record of the batch has the same date. */
  lemma DailyFirstRecordWins(t: Table<DailyRow>, rs: seq<IndoCovidStats>, j: int)
    requires Dated(rs) && 0 <= j < |rs|
    requires rs[j].date.value !in t
    requires forall i :: 0 <= i < j ==> rs[i].date != rs[j].date
    ensures rs[j].date.value in UpsertAll(t, DailyEntries(rs))
    ensures UpsertAll(t, DailyEntries(rs))[rs[j].date.value].row == DailyRowOf(rs[j])
    ensures UpsertAll(t, DailyEntries(rs))[rs[j].date.value].existed
            <==> exists i :: j < i < |rs| && rs[i].date == rs[j].date
  {
    var es := DailyEntries(rs);
    UpsertAllFirstWins(t, es, j);
    assert (exists i :: j < i < |es| && es[i].0 == es[j].0)
       <==> (exists i :: j < i < |rs| && rs[i].date == rs[j].date);
  }

  /** A daily row stored before the transaction is never overwritten. */
  lemma DailyKeepsStoredRows(t: Table<DailyRow>, rs: seq<IndoCovidStats>, k: string)
    requires Dated(rs) && k in t
    ensures k in UpsertAll(t, DailyEntries(rs))
    ensures UpsertAll(t, DailyEntries(rs))[k].row == t[k].row
  {
    UpsertAllKeepsStored(t, DailyEntries(rs), k);
  }

  /** After the transaction the daily table holds the dates it held and the
      date of every record, and no other key. */
  lemma DailyKeys(t: Table<DailyRow>, rs: seq<IndoCovidStats>)
    requires Dated(rs)
    ensures UpsertAll(t, DailyEntries(rs)).Keys == t.Keys + set j | 0 <= j < |rs| :: rs[j].date.value
  {
    var es := DailyEntries(rs);
    UpsertAllKeys(t, es);
    assert EntryKeys(es) == set j | 0 <= j < |rs| :: rs[j].date.value;
  }

  /** Running the daily transaction twice leaves every stored row as the
      first run left it, and every date of the batch flagged. */
  lemma DailyIdempotent(t: Table<DailyRow>, rs: seq<IndoCovidStats>)
    requires Dated(rs)
    ensures var once := UpsertAll(t, DailyEntries(rs));
            Rows(UpsertAll(once, DailyEntries(rs))) == Rows(once)
    ensures forall j :: 0 <= j < |rs| ==>
              var twice := UpsertAll(UpsertAll(t, DailyEntries(rs)), DailyEntries(rs));
              rs[j].date.value in twice && twice[rs[j].date.value].existed
  {
    var es := DailyEntries(rs);
    UpsertAllIdempotentRows(t, es);
    forall j | 0 <= j < |rs| ensures rs[j].date.value in EntryKeys(es) {
      assert es[j].0 == rs[j].date.value;
    }
  }

  /** Two records of the same province get the same province key exactly
      when their dates agree on the day `YYYY-MM-DD`. */
  lemma ProvinceKeyInjective(p1: string, d1: string, p2: string, d2: string)
    requires |d1| >= 10 && |d2| >= 10
    ensures ProvinceKey(p1, d1) == ProvinceKey(p2, d2) <==> p1 == p2 && d1[..10] == d2[..10]
  {
    var k1, k2 := ProvinceKey(p1, d1), ProvinceKey(p2, d2);
    if k1 == k2 {
      assert |p1| == |p2|;
      assert p1 == k1[..|p1|] && p2 == k2[..|p2|];
      assert d1[..10] == k1[|p1| + 1..] && d2[..10] == k2[|p2| + 1..];
    }
  }

  /** The province key of a record dated by `timestamp_to_date`
      distinguishes days: two instants of a four-digit year share a key
      for the same province exactly when they fall on the same day. */
  lemma ProvinceKeyNamesDay(p: string, t1: int, t2: int)
    requires FourDigitYear(DayOf(t1)) && FourDigitYear(DayOf(t2))
    ensures ProvinceKey(p, FormatDateWithTime(t1)) == ProvinceKey(p, FormatDateWithTime(t2))
            <==> DayOf(t1) == DayOf(t2)
  {
    hide FormatDay, FormatClock, ParseDate, ProvinceKey;
    DateOfDateTime(t1);
    DateOfDateTime(t2);
    ProvinceKeyInjective(p, FormatDateWithTime(t1), p, FormatDateWithTime(t2));
    if FormatDate(t1) == FormatDate(t2) {
      assert ParseDate(FormatDate(t1)) == Some(DayOf(t1));
      assert ParseDate(FormatDate(t2)) == Some(DayOf(t2));
    }
  }

  /** The first ten characters of a date-time rendering are its date. */
  lemma DateOfDateTime(t: int)
    requires FourDigitYear(DayOf(t))
    ensures |FormatDateWithTime(t)| >= 10 && FormatDateWithTime(t)[..10] == FormatDate(t)
  {
    hide FormatDay, FormatClock;
    assert |FormatDate(t)| == 10;
  }

  /** The daily key, a `timestamp_to_date` rendering, identifies the
      instant: two instants of four-digit years share it only when they
      are equal. */
  lemma DailyKeyNamesInstant(t1: int, t2: int)
    requires FourDigitYear(DayOf(t1)) && FourDigitYear(DayOf(t2))
    ensures FormatDateWithTime(t1) == FormatDateWithTime(t2) <==> t1 == t2
  {
    hide FormatDateWithTime, ParseDateTime;
    DateTimeRoundTrip(t1);
    DateTimeRoundTrip(t2);
  }

  /** The key as written keeps the year, the month and only the tens digit
      of the day of month: the province, `_`, `YYYY-MM-` and that digit. */
  lemma ProvinceKeyAsWrittenKeepsTens(p: string, t: int)
    requires FourDigitYear(DayOf(t))
    ensures var c := CivilFromDays(DayOf(t));
            ProvinceKeyAsWritten(p, FormatDateWithTime(t))
            == p + "_" + (Fixed(c.year, 4) + "-" + Fixed(c.month, 2) + "-" + [Digit(c.day / 10)])
  {
    var c := CivilFromDays(DayOf(t));
    FourDigitYearBounds(DayOf(t));
    TensDigit(c.day);
    var date := Fixed(c.year, 4) + "-" + Fixed(c.month, 2) + "-" + Fixed(c.day, 2);
    assert FormatDay(DayOf(t)) == date;
    hide FormatDay, FormatClock, CivilFromDays, FormatYear, Fixed;
    assert FormatDateWithTime(t)[..9] == date[..9];
    assert date[..9] == Fixed(c.year, 4) + "-" + Fixed(c.month, 2) + "-" + [Digit(c.day / 10)];
  }

  /** The first of two digits of a day of month is its tens digit. */
  lemma TensDigit(d: int)
    requires 1 <= d <= 31
    ensures |Fixed(d, 2)| == 2 && Fixed(d, 2)[0] == Digit(d / 10)
  {
    assert Fixed(d, 2) == Fixed(d / 10, 1) + [Digit(d % 10)];
    assert Fixed(d / 10, 1) == Fixed(d / 100, 0) + [Digit(d / 10 % 10)];
  }

  /** Under the key as written, two instants of one province share a key
      exactly when they fall in the same month and their days of month
      share the tens digit: days 1-9, 10-19, 20-29 and 30-31 of a month
      each get a single row. */
  lemma ProvinceKeyAsWrittenMergesDays(p: string, t1: int, t2: int)
    requires FourDigitYear(DayOf(t1)) && FourDigitYear(DayOf(t2))
    ensures var c1, c2 := CivilFromDays(DayOf(t1)), CivilFromDays(DayOf(t2));
            ProvinceKeyAsWritten(p, FormatDateWithTime(t1)) == ProvinceKeyAsWritten(p, FormatDateWithTime(t2))
            <==> c1.year == c2.year && c1.month == c2.month && c1.day / 10 == c2.day / 10
  {
    var c1, c2 := CivilFromDays(DayOf(t1)), CivilFromDays(DayOf(t2));
    ProvinceKeyAsWrittenKeepsTens(p, t1);
    ProvinceKeyAsWrittenKeepsTens(p, t2);
    FourDigitYearBounds(DayOf(t1));
    FourDigitYearBounds(DayOf(t2));
    hide ProvinceKeyAsWritten, FormatDateWithTime, CivilFromDays;
    var k1 := Fixed(c1.year, 4) + "-" + Fixed(c1.month, 2) + "-" + [Digit(c1.day / 10)];
    var k2 := Fixed(c2.year, 4) + "-" + Fixed(c2.month, 2) + "-" + [Digit(c2.day / 10)];
    PrefixCancels(p + "_", k1, k2);
    MonthPrefixInjective(c1.year, c1.month, c1.day / 10, c2.year, c2.month, c2.day / 10);
  }

  /** Equal strings with a common prefix have equal remainders. */
  lemma PrefixCancels(p: string, k1: string, k2: string)
    ensures p + k1 == p + k2 <==> k1 == k2
  {
    if p + k1 == p + k2 {
      assert k1 == (p + k1)[|p|..] && k2 == (p + k2)[|p|..];
    }
  }

  /** `YYYY-MM-` and one digit name the year, the month and the digit. */
  lemma MonthPrefixInjective(y1: int, m1: int, e1: int, y2: int, m2: int, e2: int)
    requires 0 <= y1 <= 9999 && 0 <= y2 <= 9999 && 1 <= m1 <= 12 && 1 <= m2 <= 12
    requires 0 <= e1 < 10 && 0 <= e2 < 10
    ensures Fixed(y1, 4) + "-" + Fixed(m1, 2) + "-" + [Digit(e1)] == Fixed(y2, 4) + "-" + Fixed(m2, 2) + "-" + [Digit(e2)]
            <==> y1 == y2 && m1 == m2 && e1 == e2
  {
    ValueOfFixed(y1, 4);
    ValueOfFixed(y2, 4);
    ValueOfFixed(m1, 2);
    ValueOfFixed(m2, 2);
    PartsInjective(Fixed(y1, 4), Fixed(m1, 2), Digit(e1), Fixed(y2, 4), Fixed(m2, 2), Digit(e2));
  }

  lemma PartsInjective(a1: string, b1: string, d1: char, a2: string, b2: string, d2: char)
    requires |a1| == |a2| == 4 && |b1| == |b2| == 2
    ensures a1 + "-" + b1 + "-" + [d1] == a2 + "-" + b2 + "-" + [d2] <==> a1 == a2 && b1 == b2 && d1 == d2
  {
    var k1, k2 := a1 + "-" + b1 + "-" + [d1], a2 + "-" + b2 + "-" + [d2];
    if k1 == k2 {
      assert k1[..4] == a1 && k2[..4] == a2;
      assert k1[5..7] == b1 && k2[5..7] == b2;
      assert k1[8] == d1 && k2[8] == d2;
    }
  }

  /** 17:00:00 UTC on 11 April 2020, and the same time a day later. */
  const April11: int := 1586624400
  const April12: int := 1586710800

  /** The calendar dates of the two instants. */
  lemma AprilDays()
    ensures DayOf(April11) == 18363 && DayOf(April12) == 18364
    ensures SecondOfDay(April11) == 61200 && SecondOfDay(April12) == 61200
    ensures CivilFromDays(18363) == Civil(2020, 4, 11)
    ensures CivilFromDays(18364) == Civil(2020, 4, 12)
  {
    assert (18363 + 719468) / 146097 == 5 && (18363 + 719468) % 146097 == 7346;
    assert (18364 + 719468) / 146097 == 5 && (18364 + 719468) % 146097 == 7347;
    assert (7346 - 7346 / 1460 + 7346 / 36524 - 7346 / 146096) / 365 == 20;
    assert (7347 - 7347 / 1460 + 7347 / 36524 - 7347 / 146096) / 365 == 20;
    assert (5 * 41 + 2) / 153 == 1 && (5 * 42 + 2) / 153 == 1;
  }

  /** How `timestamp_to_date` renders the two instants. */
  lemma AprilRenderings()
    ensures FormatDateWithTime(April11) == "2020-04-11 17:00:00"
    ensures FormatDateWithTime(April12) == "2020-04-12 17:00:00"
  {
    AprilDays();
    AprilDates();
    AprilClock();
    hide FormatDay, FormatClock, ParseDate, SecondOfDay, DayOf, Fixed;
    assert FormatDate(April11) == "2020-04-11" && FormatDate(April12) == "2020-04-12";
    assert FormatDateWithTime(April11) == "2020-04-11" + " " + "17:00:00";
    assert FormatDateWithTime(April12) == "2020-04-12" + " " + "17:00:00";
  }

  lemma AprilClock()
    ensures FormatClock(61200) == "17:00:00"
  {
    assert Fixed(17, 2) == "17" && Fixed(0, 2) == "00";
  }

  lemma AprilDates()
    ensures FormatDay(18363) == "2020-04-11" && FormatDay(18364) == "2020-04-12"
  {
    AprilDays();
    AprilFields();
    hide CivilFromDays, FormatYear, Fixed, ParseDate;
    assert FormatCivil(Civil(2020, 4, 11)) == "2020-04-11";
    assert FormatCivil(Civil(2020, 4, 12)) == "2020-04-12";
  }

  lemma AprilFields()
    ensures FormatYear(2020) == "2020" && Fixed(4, 2) == "04"
    ensures Fixed(11, 2) == "11" && Fixed(12, 2) == "12"
  {
    assert Fixed(2020, 4) == "2020";
  }

  /** The instance behind the collision: for any province, the records
      of 11 and 12 April 2020 share the key as written, and the per-day
      key keeps them apart. */
  lemma ProvinceKeyAsWrittenCollides(p: string)
    ensures FormatDateWithTime(April11) == "2020-04-11 17:00:00"
    ensures FormatDateWithTime(April12) == "2020-04-12 17:00:00"
    ensures ProvinceKeyAsWritten(p, FormatDateWithTime(April11)) == ProvinceKeyAsWritten(p, FormatDateWithTime(April12))
    ensures ProvinceKey(p, FormatDateWithTime(April11)) != ProvinceKey(p, FormatDateWithTime(April12))
  {
    AprilRenderings();
    AprilDays();
    hide FormatDateWithTime, CivilFromDays, ProvinceKey, ProvinceKeyAsWritten;
    ProvinceKeyAsWrittenMergesDays(p, April11, April12);
    ProvinceKeyNamesDay(p, April11, April12);
  }

  /** With the key as written, a batch holding one province's records of
      two different days of a month that share the tens digit (the 11th
      and the 12th, say) stores only the first record's row, flagged by
      the second's conflicting upsert: the second day is lost. With the
      per-day key both rows are stored, unflagged. */
  lemma ProvinceAsWrittenDropsDay(s1: IndoCovidStats, s2: IndoCovidStats, t1: int, t2: int)
    requires FourDigitYear(DayOf(t1)) && FourDigitYear(DayOf(t2)) && DayOf(t1) != DayOf(t2)
    requires var c1, c2 := CivilFromDays(DayOf(t1)), CivilFromDays(DayOf(t2));
             c1.year == c2.year && c1.month == c2.month && c1.day / 10 == c2.day / 10
    requires s1.provinsi.Some? && s2.provinsi == s1.provinsi
    requires s1.date == Some(FormatDateWithTime(t1)) && s2.date == Some(FormatDateWithTime(t2))
    ensures ProvinceKeyedAll([s1, s2])
    ensures var t := UpsertAll(map[], ProvinceEntries([s1, s2], AsWritten));
            t.Keys == {KeyOf(s1, AsWritten)} && t[KeyOf(s1, AsWritten)] == Stored(ProvinceRowOf(s1, AsWritten), true)
    ensures var t := UpsertAll(map[], ProvinceEntries([s1, s2], PerDay));
            t.Keys == {KeyOf(s1, PerDay), KeyOf(s2, PerDay)} && KeyOf(s1, PerDay) != KeyOf(s2, PerDay)
            && t[KeyOf(s1, PerDay)] == Stored(ProvinceRowOf(s1, PerDay), false)
            && t[KeyOf(s2, PerDay)] == Stored(ProvinceRowOf(s2, PerDay), false)
  {
    SameTensKeys(s1, s2, t1, t2);
    hide KeyOf, ProvinceKeyed, ProvinceRowOf, ProvinceEntries, UpsertAll, FormatDateWithTime, CivilFromDays;
    TwoRecords(s1, s2, AsWritten);
    TwoRecords(s1, s2, PerDay);
  }

  /** The keys of those two records: equal as written, different per day. */
  lemma SameTensKeys(s1: IndoCovidStats, s2: IndoCovidStats, t1: int, t2: int)
    requires FourDigitYear(DayOf(t1)) && FourDigitYear(DayOf(t2)) && DayOf(t1) != DayOf(t2)
    requires var c1, c2 := CivilFromDays(DayOf(t1)), CivilFromDays(DayOf(t2));
             c1.year == c2.year && c1.month == c2.month && c1.day / 10 == c2.day / 10
    requires s1.provinsi.Some? && s2.provinsi == s1.provinsi
    requires s1.date == Some(FormatDateWithTime(t1)) && s2.date == Some(FormatDateWithTime(t2))
    ensures ProvinceKeyed(s1) && ProvinceKeyed(s2)
    ensures KeyOf(s1, AsWritten) == KeyOf(s2, AsWritten)
    ensures KeyOf(s1, PerDay) != KeyOf(s2, PerDay)
  {
    ProvinceKeyAsWrittenMergesDays(s1.provinsi.value, t1, t2);
    ProvinceKeyNamesDay(s1.provinsi.value, t1, t2);
    hide FormatDateWithTime, ProvinceKeyAsWritten, ProvinceKey, CivilFromDays;
  }

  /** A transaction of two records on an empty table. */
  lemma TwoRecords(s1: IndoCovidStats, s2: IndoCovidStats, cut: KeyCut)
    requires ProvinceKeyed(s1) && ProvinceKeyed(s2)
    ensures ProvinceKeyedAll([s1, s2])
    ensures var k1, k2 := KeyOf(s1, cut), KeyOf(s2, cut);
            var t := UpsertAll(map[], ProvinceEntries([s1, s2], cut));
            && t.Keys == {k1, k2}
            && t[k1] == Stored(ProvinceRowOf(s1, cut), k1 == k2)
            && (k1 != k2 ==> t[k2] == Stored(ProvinceRowOf(s2, cut), false))
  {
    var k1, k2 := KeyOf(s1, cut), KeyOf(s2, cut);
    var r1, r2 := ProvinceRowOf(s1, cut), ProvinceRowOf(s2, cut);
    var empty: Table<ProvinceRow> := map[];
    assert ProvinceKeyedAll([s1, s2]);
    assert ProvinceEntries([s1, s2], cut) == [(k1, r1)] + [(k2, r2)];
    hide ProvinceEntries, KeyOf, ProvinceRowOf;
    UpsertAllSnoc(empty, [], k1, r1);
    assert [] + [(k1, r1)] == [(k1, r1)];
    UpsertAllSnoc(empty, [(k1, r1)], k2, r2);
  }

  /** The first record of a province key that the table did not hold is
      the one stored; later records of the same key only flag it. With the
      key as written, "the same key" covers every day sharing the day's
      tens digit. */
  lemma ProvinceFirstRecordWins(t: Table<ProvinceRow>, rs: seq<IndoCovidStats>, j: int, cut: KeyCut)
    requires ProvinceKeyedAll(rs) && 0 <= j < |rs|
    requires KeyOf(rs[j], cut) !in t
    requires forall i :: 0 <= i < j ==> KeyOf(rs[i], cut) != KeyOf(rs[j], cut)
    ensures KeyOf(rs[j], cut) in UpsertAll(t, ProvinceEntries(rs, cut))
    ensures UpsertAll(t, ProvinceEntries(rs, cut))[KeyOf(rs[j], cut)].row == ProvinceRowOf(rs[j], cut)
    ensures UpsertAll(t, ProvinceEntries(rs, cut))[KeyOf(rs[j], cut)].existed
            <==> exists i :: j < i < |rs| && KeyOf(rs[i], cut) == KeyOf(rs[j], cut)
  {
    var es := ProvinceEntries(rs, cut);
    UpsertAllFirstWins(t, es, j);
    assert (exists i :: j < i < |es| && es[i].0 == es[j].0)
       <==> (exists i :: j < i < |rs| && KeyOf(rs[i], cut) == KeyOf(rs[j], cut));
  }

  /** Running the province transaction twice leaves every stored row as
      the first run left it, and flags the key of every record. */
  lemma ProvinceIdempotent(t: Table<ProvinceRow>, rs: seq<IndoCovidStats>, cut: KeyCut)
    requires ProvinceKeyedAll(rs)
    ensures var once := UpsertAll(t, ProvinceEntries(rs, cut));
            Rows(UpsertAll(once, ProvinceEntries(rs, cut))) == Rows(once)
    ensures var twice := UpsertAll(UpsertAll(t, ProvinceEntries(rs, cut)), ProvinceEntries(rs, cut));
            forall j :: 0 <= j < |rs| ==> KeyOf(rs[j], cut) in twice && twice[KeyOf(rs[j], cut)].existed
  {
    var es := ProvinceEntries(rs, cut);
    UpsertAllIdempotentRows(t, es);
    forall j | 0 <= j < |rs| ensures KeyOf(rs[j], cut) in EntryKeys(es) {
      assert es[j].0 == KeyOf(rs[j], cut);
    }
  }

  // ------ Cumulative statistics -------- //

  datatype CovidStatistics = CovidStatistics(
    totalCases: Option<I64>,
    deaths: Option<I64>,
    recovered: Option<I64>,
    pdp: Option<I64>,
    created: Option<string>)
  {
    /** `CovidStatistics::new`: the four totals and the date, each in its
        own field. */
    static function New(totalCases: Option<I64>, deaths: Option<I64>, recovered: Option<I64>,
                        pdp: Option<I64>, date: Option<string>): (c: CovidStatistics)
      ensures c.totalCases == totalCases && c.deaths == deaths && c.recovered == recovered
      ensures c.pdp == pdp && c.created == date
    {
      CovidStatistics(totalCases, deaths, recovered, pdp, date)
    }

    function Row(): StatsRow
      requires created.Some?
    {
      StatsRow(deaths, totalCases, recovered, pdp, created.value)
    }

    /** `insert_db`: one upsert keyed by the date, in its own transaction.
        Only the statistics table changes. */
    method InsertDb(store: PgStore)
      requires created.Some?
      modifies store
      ensures store.stats == Upsert(old(store.stats), created.value, Row())
      ensures store.daily == old(store.daily) && store.province == old(store.province)
    {
      var tx := store.stats;
      tx := Upsert(tx, created.value, Row());
      store.stats := tx;
    }
  }

  /** Storing the statistics of a date keeps the first totals stored for
      that date: a second run on the same day only flags the row. */
  lemma StatsFirstOfDayWins(t: Table<StatsRow>, c1: CovidStatistics, c2: CovidStatistics)
    requires c1.created.Some? && c2.created == c1.created
    requires c1.created.value !in t
    ensures var t2 := Upsert(Upsert(t, c1.created.value, c1.Row()), c2.created.value, c2.Row());
            t2.Keys == t.Keys + {c1.created.value}
            && t2[c1.created.value] == Stored(c1.Row(), true)
  {
    UpsertSpec(t, c1.created.value, c1.Row());
    UpsertSpec(Upsert(t, c1.created.value, c1.Row()), c2.created.value, c2.Row());
  }
}
