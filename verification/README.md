# inacovid, modelled in Dafny

inacovid is a batch job. It fetches Indonesian COVID-19 statistics from an
ArcGIS feature server, turns every feature into a flat statistics record,
and upserts the records into three PostgreSQL tables: the daily series,
the per-province series and the cumulative totals. Each operation then
writes a dated JSON snapshot. This project models the core of the job:
`src/helpers.rs`, `src/models.rs` and `src/endpoints.rs`.

Modules:

- `Wrappers`: `Option` and `Result`.
- `Numbers`: Rust's `i64` and `u64` as subset types. An `f64` is kept only
  as its bit pattern, because the job copies floats and never computes
  with them.
- `Json`: the `serde_json::Value` lookups the job uses (`v[key]`, `v[i]`,
  `as_i64`).
- `Calendar`: chrono's proleptic Gregorian calendar and its `%Y-%m-%d`
  and `%H:%M:%S` renderings, with parsers that read them back.
- `Helpers`: endpoint URLs, the `where` filters, the query parameters and
  the date helpers.
- `Store`: a table with a unique key, written by
  `INSERT … ON CONFLICT … DO UPDATE SET existed = true`.
- `Models`: the upstream envelope, the statistics record, the
  `PgStore` class holding the three tables, and the three insert
  transactions.
- `Endpoints`: the `Request` class, with `fetch_daily`, `fetch_province`
  and `cumulative_stats`.

What is a parameter:

- The clock `Utc::now()` is the parameter `now`, in whole seconds since
  the epoch. One value is used for a whole operation.
- The HTTP request is a function `get(url, pairs)`. It returns the body or
  an error.
- JSON parsing is a function `parse`. It returns a value or the parser's
  error message.
- Writing the snapshot file is a function `write(path)`. It returns
  success or an error.

The province table is keyed by the province and a prefix of the record's
date (`src/models.rs:129-131`). The code names that date `date_only`
and the column `prov_and_date`, so the key is meant to carry the day
`YYYY-MM-DD`, ten characters. The slice takes nine, `YYYY-MM-D`. The model
keeps both keys (`KeyCut`). `insert_db_province` and `fetch_province` are
modelled with the nine-character key, as the code has it. The lemmas are
stated for either key, and the ten-character key is the correction; see
"## Findings".

## Model

| member | source | states |
|---|---|---|
| Calendar.SecondOfDay | src/helpers.rs:104-107 | the time of day of an instant lies in [0, 86400), and the day and time of day recompose the instant |
| Calendar.CivilFromDays | src/helpers.rs:124-126 | the calendar date of a day count has a month in 1..12 and a day in 1..31 |
| Calendar.DaysFromCivilInverse | src/helpers.rs:124-126 | converting a day count to a calendar date and back gives the same day count, for every day |
| Calendar.CivilFromDaysValid | src/helpers.rs:124-126 | every date computed from a day count exists: its day does not pass the length of its month, and 29 February falls only in leap years |
| Calendar.DaysInMonth | src/helpers.rs:124-126 | a month has 28 to 31 days, and 29 exactly for February of a Gregorian leap year |
| Calendar.ChronoRangeEnds | src/helpers.rs:115-122 | chrono's date range runs from 1 January of year -262144 to 31 December of year 262143 |
| Calendar.FourDigitYearBounds | src/helpers.rs:124-126 | every day between 0000-01-01 and 9999-12-31 falls in a year of 0..9999 |
| Calendar.FormatYear | src/helpers.rs:124-126 | `%Y` gives four digits for years 0..9999 and reads back as the year; other years get a sign and at least five characters |
| Calendar.FormatDay | src/helpers.rs:124-126 | the `%Y-%m-%d` text of a day in a four-digit year has ten characters and parses back to that day |
| Calendar.FormatClockRoundTrip | src/helpers.rs:128-130 | the `%H:%M:%S` text of a time of day has eight characters and parses back to that time |
| Calendar.JoinDateTime | src/helpers.rs:128-130 | a date, a space and a time parse back as the instant they name |
| Helpers.EpVal | src/helpers.rs:11-17 | both endpoint URLs start with the service root and end with `/FeatureServer/0/query` |
| Helpers.EpValDistinct | src/helpers.rs:11-17 | the province endpoint and the progress endpoint are different URLs |
| Helpers.QueryParams.New | src/helpers.rs:29-36 | the defaults are JSON output, every field, the all-records filter and the intersects relation |
| Helpers.QueryParams.QueryPairs | src/helpers.rs:38-49 | six pairs, keys in a fixed order; the `where` value is the filter's rendering |
| Helpers.QueryParams.AddQueries | src/helpers.rs:51-58 | the result is the six base pairs followed by the caller's pairs, unchanged and in order |
| Helpers.DefaultQueryPairs | src/helpers.rs:29-49 | the default query is the same six pairs whatever the clock says |
| Helpers.CountPrefix | src/helpers.rs:104-113 | the offset moves back by one exactly when the clock is before 10:00:00 UTC, and is kept otherwise |
| Helpers.WhereVal | src/helpers.rs:72-98 | the filter is `1=1` exactly for the all-records variant; StaticFiltersIgnoreClock, BeforeTodayNamesReportingDay, CurrentDateNamesReportingDays and SameReportingDaySameFilter state what each other filter says |
| Helpers.CountPrefixFollowsReportingDay | src/helpers.rs:104-113 | today moved by the adjusted offset is the reporting day (days that start at 10:00 UTC) moved by the given offset |
| Helpers.ReportingDayRollsOverAtCutoff | src/helpers.rs:104-113 | the reporting day advances by one at 10:00:00 UTC and at no other second |
| Helpers.StaticFiltersIgnoreClock | src/helpers.rs:72-80 | the five filters without a date are constants; the all-records filter is `1=1` |
| Helpers.BeforeTodayNamesReportingDay | src/helpers.rs:90-96 | `BeforeToday(p)` cuts at 17:00:00 on the reporting day moved by `p` |
| Helpers.CurrentDateNamesReportingDays | src/helpers.rs:81-89 | `CurrentDate(p)` names the reporting day moved by `p`, the day after and the day before, in that order |
| Helpers.SameReportingDaySameFilter | src/helpers.rs:72-98 | two instants in the same reporting day build the same filter |
| Helpers.CreateStatisticsQuery | src/helpers.rs:100-102 | the summed field can be read back from the descriptor |
| Helpers.AddCurDate | src/helpers.rs:115-122 | the date has at least ten characters; AddCurDateNamesDay and AddCurDateByDays state that it names the moved day, or today outside chrono's range |
| Helpers.AddCurDateNamesDay | src/helpers.rs:115-122 | the date names the moved day when it is in chrono's range, and today otherwise |
| Helpers.AddCurDateByDays | src/helpers.rs:115-122 | moving today by whole days inside the range renders the target day |
| Helpers.DayShift | src/helpers.rs:115-122 | adding `d` days of seconds moves the day by exactly `d` |
| Helpers.FormatDate | src/helpers.rs:124-126 | the text has at least ten characters; for a four-digit year it has ten and parses back to the instant's day |
| Helpers.FormatDateWithTime | src/helpers.rs:128-130 | the text has at least nineteen characters |
| Helpers.DateTimeRoundTrip | src/helpers.rs:128-130 | for a four-digit year the text has nineteen characters and parses back to the instant |
| Helpers.TruncDiv | src/helpers.rs:135 | Rust's `/` rounds toward zero: the remainder has the sign of the dividend and is smaller than the divisor |
| Helpers.TimestampToDate | src/helpers.rs:132-140 | the text parses back to the timestamp's second, or to the current instant when there is no timestamp |
| Store.UpsertSpec | src/models.rs:132-138 | an upsert adds its key and changes no other key; an existing row stays and is flagged, a new row is stored unflagged |
| Store.Upsert | src/models.rs:132-138 | an upsert adds exactly its key, and the key is flagged exactly when the table held it; UpsertSpec adds that the old row stays |
| Store.UpsertAll | src/models.rs:124-145 | a transaction never removes a key; UpsertAllKeys, UpsertAllKeepsStored, UpsertAllFirstWins and UpsertAllIdempotentRows state which rows and flags it leaves |
| Store.UpsertAllSnoc | src/models.rs:126-143 | one more statement in a transaction is one more upsert after the others |
| Store.UpsertAllKeys | src/models.rs:101-123 | after a transaction the table holds its old keys and the transaction's keys, and no others |
| Store.UpsertAllUntouched | src/models.rs:101-123 | a key the transaction does not write keeps its row and its flag |
| Store.UpsertAllKeepsStored | src/models.rs:101-123 | a stored row is never overwritten; its flag rises exactly when the transaction writes its key |
| Store.UpsertAllFirstWins | src/models.rs:101-123 | for a new key, the first entry's row is stored; the flag is set exactly when a later entry repeats the key |
| Store.UpsertAllIdempotentRows | src/models.rs:101-123 | running a transaction twice leaves every row as the first run left it, and flags every key it writes |
| Models.InaCovid.GetFeatures | src/models.rs:22-30 | the features in order; a response without a feature list gives none |
| Models.PgStore.constructor | src/store.rs:4-12 | the store starts with the three given tables; it stands for the connection pool the source wraps |
| Models.IndoCovidStats.New | src/models.rs:227-253 | every field is copied from its attribute, so an absent attribute stays absent; both dates are present and parse back to their timestamps, or to now when the timestamp is missing |
| Models.NewIgnoresDroppedAttributes | src/models.rs:228-253 | `FID` and `Value` never reach the record: attributes that differ only there and in the timestamps give records that differ only in the dates |
| Models.DataProvinsiOpt.New | src/models.rs:153-161 | a feature with attributes always gives a record, and the record carries the feature's attributes and a date |
| Models.DataProvinsiOptVec.New | src/models.rs:90-100 | one optional record per feature, in the same order |
| Models.Records | src/models.rs:103-120 | the records of the vector, `None` entries skipped, never more than the vector's length |
| Models.RecordsMembers | src/models.rs:103-120 | the records are exactly the values of the vector's `Some` entries |
| Models.DailyEntries | src/models.rs:101-123 | one statement per record, in order, keyed by the record's date |
| Models.DataProvinsiOptVec.InsertDbDaily | src/models.rs:101-123 | the daily table becomes the old table with every record upserted in order; the other tables do not change |
| Models.DataProvinsiOptVec.InsertDbProvince | src/models.rs:124-145 | the province table becomes the old table with every record upserted in order under its province key, cut as `cut` says (`AsWritten` is the code); the other tables do not change |
| Models.DataProvinsiOptVec.ProvinceTransaction | src/models.rs:125-143 | the loop of the transaction: the table it builds is the old table with every record upserted in order |
| Models.DailyFirstRecordWins | src/models.rs:101-123 | the first record of a new date is stored; the row is flagged exactly when a later record has the same date |
| Models.DailyKeepsStoredRows | src/models.rs:112 | a daily row stored before the transaction is never overwritten |
| Models.DailyKeys | src/models.rs:101-123 | after the transaction the daily table holds its old dates and the date of every record, and nothing else |
| Models.DailyIdempotent | src/models.rs:101-123 | running the daily insert twice changes no stored row and flags every date of the batch |
| Models.DailyKeyNamesInstant | src/models.rs:108-115 | two records' date keys (in four-digit years) are equal exactly when their instants are equal |
| Models.ProvinceKeyAsWritten | src/models.rs:129-131 | the key as the code builds it: province, `_`, and nine characters of the date, ten characters longer than the province |
| Models.ProvinceKeyAsWrittenKeepsTens | src/models.rs:129-131 | for a date from `timestamp_to_date`, the key as written is the province, `_`, `YYYY-MM-` and only the tens digit of the day |
| Models.ProvinceKeyAsWrittenMergesDays | src/models.rs:129-131 | two instants of one province share the key as written exactly when they fall in the same year and month and their days share the tens digit |
| Models.ProvinceKeyAsWrittenCollides | src/models.rs:129-131 | `timestamp_to_date` renders 17:00:00 UTC on 11 and 12 April 2020 as `2020-04-11 17:00:00` and `2020-04-12 17:00:00`; the keys as written of one province are equal for them, and the per-day keys differ |
| Models.ProvinceAsWrittenDropsDay | src/models.rs:124-145 | for two records of one province on different days with the same tens digit, the as-written transaction stores only the first row and flags it; the per-day key stores both, unflagged |
| Models.ProvinceKey | src/models.rs:129-131 | the corrected key: province, `_`, and the ten-character day `YYYY-MM-DD`, eleven characters longer than the province |
| Models.ProvinceEntries | src/models.rs:124-145 | one statement per record, in order, keyed by province and the date prefix of the chosen key |
| Models.ProvinceKeyInjective | src/models.rs:129-131 | two keys are equal exactly when the provinces are equal and the dates share their first ten characters |
| Models.ProvinceKeyNamesDay | src/models.rs:129-131 | for dates from `timestamp_to_date`, one province's keys are equal exactly when the instants fall on the same day |
| Models.ProvinceFirstRecordWins | src/models.rs:124-145 | for either key, the first record of a new key is stored; the row is flagged exactly when a later record has the same key |
| Models.ProvinceIdempotent | src/models.rs:124-145 | for either key, running the province insert twice changes no stored row and flags the key of every record |
| Models.CovidStatistics.New | src/models.rs:299-313 | each of the four totals and the date lands in its own field |
| Models.CovidStatistics.InsertDb | src/models.rs:314-332 | the statistics table gets one upsert keyed by the date; the other tables do not change |
| Models.StatsFirstOfDayWins | src/models.rs:314-332 | a second run on the same day keeps the first totals and only flags the row |
| Endpoints.MakeBaseQuerystring | src/endpoints.rs:14-18 | the default parameters with the given filter |
| Endpoints.Request.constructor | src/endpoints.rs:20-33 | the client keeps the store and the snapshot directory it is given |
| Endpoints.RequestPairsShape | src/endpoints.rs:34-42 | the request starts with the six base keys, names the filter under `where`, asks for JSON and every field, and ends with the caller's pairs unchanged |
| Endpoints.Request.FetchCommon | src/endpoints.rs:34-53 | the outcome is the endpoint's answer to the base query with the filter and the caller's pairs appended |
| Endpoints.DailyRequestCutsAtReportingDay | src/endpoints.rs:93-104 | the daily request asks for every record before 17:00:00 on the current reporting day, oldest first, at most 2000 of them |
| Endpoints.CumulativeRequestNamesField | src/endpoints.rs:161-178 | the i-th cumulative request sums the i-th field over the reporting day moved by the prefix |
| Endpoints.GetJsonVal | src/endpoints.rs:55-63 | a failed fetch loses its cause and becomes "Failure to fetch stats data"; a body is parsed, and a parse failure is passed on |
| Endpoints.StatValue | src/endpoints.rs:190-193 | a statistic is present exactly when `features[0].attributes.value` is an integer that fits `i64`, and it is that integer |
| Endpoints.CombineStats | src/endpoints.rs:186-207 | totals exist exactly when there are four answers and all of them parsed; otherwise "Failure to get cumulative stats"; the record is dated with the given date |
| Endpoints.CombineStatsNamesFields | src/endpoints.rs:163-195 | each total is read from the answer to the query that sums that total's field |
| Endpoints.FeatureVec | src/endpoints.rs:75-82 | one entry per feature |
| Endpoints.FeatureVecRecords | src/endpoints.rs:75-82 | one dated record per feature, in order; all can be keyed by province exactly when every feature names its province |
| Endpoints.RecordsOfSomes | src/models.rs:103-120 | when no entry is `None`, the records are the entries' values, one for one |
| Endpoints.CumulativeAnswers | src/endpoints.rs:170-184 | four answers, kept in submission order |
| Endpoints.CumulativeRecord | src/endpoints.rs:186-195 | the combined record is dated today |
| Endpoints.Request.GetInaCovidVec | src/endpoints.rs:75-82 | the vector holds the record of every feature, in order |
| Endpoints.Request.SetJsonFilenameNamesToday | src/endpoints.rs:84-91 | the snapshot path is the directory, the label, `-`, today's date (which parses back to today) and `.json` |
| Endpoints.Request.FetchDaily | src/endpoints.rs:93-122 | a fetch or parse failure returns the error and leaves the store untouched; otherwise every record is upserted into the daily table, and the result follows the snapshot write |
| Endpoints.Request.FetchProvince | src/endpoints.rs:124-153 | a fetch or parse failure returns the error and leaves the store untouched; otherwise every record is upserted into the province table under the key as the code cuts it, and the result follows the snapshot write |
| Endpoints.Request.CumulativeStats | src/endpoints.rs:161-208 | any failed or unparsable answer gives "Failure to get cumulative stats" and leaves the store untouched; otherwise one row keyed by today's date is upserted, and the result follows the snapshot write |

## Left out

- HTTP and URL assembly (`make_request_url`, `build_headers`, `reqwest`) are the parameter `get`. The `QString` encoding and re-parsing in `add_queries` is taken to preserve the pairs; the model works on the pairs.
- `serde_json` parsing, `to_string_pretty` and the snapshot's content are left out. Parsing is the parameter `parse`, and serialising is taken to succeed. The file write is the parameter `write`, and only its path is modelled.
- Database failures are left out: opening a transaction, an `execute` or a `commit` always succeeds. The schema is not part of this model, so a NULL in a key column is excluded by a precondition (`AllDated`, `created` present) instead of being modelled. `FeatureVecRecords` proves that every record the job builds has a date.
- The four statistics requests run concurrently, but each is a pure request and the answers are kept in submission order. The model sends them one after another.
- Every `Utc::now()` call of one operation reads the same `now`. The source reads the clock several times, so an operation running across 10:00:00 UTC or across midnight can mix two days; the model does not capture that.
- Helpers.CountPrefix: `i - 1` does not model `i64` overflow at `i64::MIN`.
- Helpers.AddCurDate: `Duration::days` panics when the offset overflows the duration range. The model treats every offset as valid and keeps only the fallback to today when the moved date leaves chrono's range.
- `DataProvinsiOpt::new` panics on a feature without attributes, and `from_timestamp` panics on a timestamp outside chrono's range. Both are preconditions (`Convertible`, `TimestampsInRange`). The `unwrap` on the province name in `insert_db_province` is a precondition too (`AllProvinceKeyed`).
- Floating-point fields are carried as bit patterns and never interpreted.
- Endpoints.Request.FetchDaily and Endpoints.Request.FetchProvince: a parse failure's message is modelled as the fixed prefix followed by the parser's message; `failure`'s formatting of it is not modelled.
- The parse/format round trips (Calendar.FormatDay, Helpers.TimestampToDate and the others) are proved for years 0..9999. Outside that range `%Y` adds a sign, and only the length bounds are stated there.

## Findings

| source | as written | input that shows it | evidently intended | confidence | as-written member | corrected member |
|---|---|---|---|---|---|---|
| src/models.rs:131 | the province key takes `&date_only[..9]`, which is `YYYY-MM-D` | province "Aceh" at 2020-04-11 17:00:00 and 2020-04-12 17:00:00 UTC: both keys are `Aceh_2020-04-1`, so the 12th's upsert only flags the 11th's row and the 12th is never stored | the variable is `date_only` and the column `prov_and_date`, so the key carries the whole day `YYYY-MM-DD`, one row per province per day | high, not executed | Models.ProvinceKeyAsWritten, Models.ProvinceKeyAsWrittenMergesDays, Models.ProvinceKeyAsWrittenCollides, Models.ProvinceAsWrittenDropsDay | Models.ProvinceKey, Models.ProvinceKeyInjective, Models.ProvinceKeyNamesDay |
