/** Proleptic Gregorian calendar arithmetic and the `%Y-%m-%d` / `%H:%M:%S`
    renderings that the job uses for every date it puts in a filter, a record
    or a file name. Days are counted from 1970-01-01 (day 0); instants are
    whole seconds since 1970-01-01T00:00:00Z. */
module Calendar {
  import opened Wrappers

  datatype Civil = Civil(year: int, month: int, day: int)

  /** The day number of an instant; Dafny's `/` floors, as chrono's `div_euclid` does. */
  function DayOf(t: int): int { t / 86400 }

  /** Seconds elapsed since midnight UTC. */
  function SecondOfDay(t: int): (s: int)
    ensures 0 <= s < 86400
    ensures DayOf(t) * 86400 + s == t
  {
    t % 86400
  }

  /** The civil date of day `z`, computed era by era (400 years = 146097 days),
      with years starting on 1 March so that the leap day is the last day. */
  function CivilFromDays(z: int): (c: Civil)
    ensures 1 <= c.month <= 12 && 1 <= c.day <= 31
  {
    var z' := z + 719468;
    var era := z' / 146097;
    var doe := z' % 146097;
    var yoe := (doe - doe / 1460 + doe / 36524 - doe / 146096) / 365;
    var doy := doe - (365 * yoe + yoe / 4 - yoe / 100);
    var mp := (5 * doy + 2) / 153;
    var d := doy - (153 * mp + 2) / 5 + 1;
    var m := if mp < 10 then mp + 3 else mp - 9;
    Civil(yoe + era * 400 + (if m <= 2 then 1 else 0), m, d)
  }

  /** The day number of a civil date (the inverse of CivilFromDays). */
  function DaysFromCivil(c: Civil): int
  {
    var y := c.year - (if c.month <= 2 then 1 else 0);
    var era := y / 400;
    var yoe := y % 400;
    var mp := if c.month > 2 then c.month - 3 else c.month + 9;
    var doy := (153 * mp + 2) / 5 + c.day - 1;
    var doe := yoe * 365 + yoe / 4 - yoe / 100 + doy;
    era * 146097 + doe - 719468
  }

  lemma YearOfEraBounds(doe: int)
    requires 0 <= doe < 146097
    ensures var yoe := (doe - doe / 1460 + doe / 36524 - doe / 146096) / 365;
            0 <= yoe < 400 && 0 <= doe - (365 * yoe + yoe / 4 - yoe / 100) <= 365
  {
    if doe < 146096 {
      var b, r := doe / 36524, doe % 36524;
      YearOfCycleBounds(doe, b, r / 1461, r % 1461);
    }
  }

  /** The same bounds for a day inside century `b`, four-year cycle `q`, day `s` of that cycle. */
  lemma YearOfCycleBounds(doe: int, b: int, q: int, s: int)
    requires 0 <= b <= 3 && 0 <= q <= 24 && 0 <= s < 1461 && (q == 24 ==> s < 1460)
    requires doe == 36524 * b + 1461 * q + s
    ensures var yoe := (doe - doe / 1460 + doe / 36524 - doe / 146096) / 365;
            0 <= yoe < 400 && 0 <= doe - (365 * yoe + yoe / 4 - yoe / 100) <= 365
    ensures var yoe := (doe - doe / 1460 + doe / 36524 - doe / 146096) / 365;
            doe - (365 * yoe + yoe / 4 - yoe / 100) == 365 ==> s == 1460 && yoe == 100 * b + 4 * q + 3
  {
    assert doe / 36524 == b;
    assert doe / 146096 == 0;
    assert doe / 1460 == 25 * b + q + (24 * b + q + s) / 1460;
    var y := if s < 1460 then s / 365 else 3;
    var yoe := 100 * b + 4 * q + y;
    assert (doe - doe / 1460 + doe / 36524 - doe / 146096) / 365 == yoe;
    assert yoe / 4 == 25 * b + q && yoe / 100 == b;
    assert doe - (365 * yoe + yoe / 4 - yoe / 100) == s - 365 * y;
  }

  /** CivilFromDays is a right inverse of DaysFromCivil: the date it
      computes has day number `z`. */
  lemma DaysFromCivilInverse(z: int)
    ensures DaysFromCivil(CivilFromDays(z)) == z
  {
    var z' := z + 719468;
    var era := z' / 146097;
    var doe := z' % 146097;
    var yoe := (doe - doe / 1460 + doe / 36524 - doe / 146096) / 365;
    var doy := doe - (365 * yoe + yoe / 4 - yoe / 100);
    var mp := (5 * doy + 2) / 153;
    CivilFields(z, era, yoe, doy, mp);
    hide CivilFromDays;
    YearOfEraBounds(doe);
    MonthOfYearBounds(doy);
    DaysFromCivilParts(CivilFromDays(z), era, yoe, mp, doy);
  }

  /** The fields CivilFromDays computes from the era, year of era, day of
      year and March-based month of day `z`. */
  lemma CivilFields(z: int, era: int, yoe: int, doy: int, mp: int)
    requires era == (z + 719468) / 146097
    requires yoe == ((z + 719468) % 146097 - (z + 719468) % 146097 / 1460
                     + (z + 719468) % 146097 / 36524 - (z + 719468) % 146097 / 146096) / 365
    requires doy == (z + 719468) % 146097 - (365 * yoe + yoe / 4 - yoe / 100)
    requires mp == (5 * doy + 2) / 153
    ensures var m := if mp < 10 then mp + 3 else mp - 9;
            CivilFromDays(z) == Civil(yoe + era * 400 + (if m <= 2 then 1 else 0), m, doy - (153 * mp + 2) / 5 + 1)
  {
  }

  /** Days 0 ..= 365 of a March-based year fall in months 0 ..= 11. */
  lemma MonthOfYearBounds(doy: int)
    requires 0 <= doy <= 365
    ensures 0 <= (5 * doy + 2) / 153 <= 11
  {
  }

  /** DaysFromCivil reassembles a date from its era, year of era, March-based
      month and day of year. */
  lemma DaysFromCivilParts(c: Civil, era: int, yoe: int, mp: int, doy: int)
    requires 0 <= yoe < 400 && 0 <= mp <= 11
    requires c.month == (if mp < 10 then mp + 3 else mp - 9)
    requires c.year == yoe + era * 400 + (if c.month <= 2 then 1 else 0)
    requires c.day == doy - (153 * mp + 2) / 5 + 1
    ensures DaysFromCivil(c) == era * 146097 + (365 * yoe + yoe / 4 - yoe / 100) + doy - 719468
  {
    var y := c.year - (if c.month <= 2 then 1 else 0);
    assert y / 400 == era && y % 400 == yoe;
  }

  /** The Gregorian leap years: every fourth year, except the centuries
      that 400 does not divide. */
  predicate LeapYear(y: int)
  {
    y % 4 == 0 && (y % 100 != 0 || y % 400 == 0)
  }

  /** The number of days of month `m` of year `y`. */
  function DaysInMonth(y: int, m: int): (n: int)
    requires 1 <= m <= 12
    ensures 28 <= n <= 31
    ensures n == 29 <==> m == 2 && LeapYear(y)
  {
    if m == 2 then (if LeapYear(y) then 29 else 28)
    else if m == 4 || m == 6 || m == 9 || m == 11 then 30
    else 31
  }

  /** Only a leap year's day of year reaches 365 (day 366, the leap day,
      counted from 1 March as day 0): the year after the year of era
      `yoe` is then divisible by 4 and not a century, or divisible by
      400. */
  lemma LeapDayOfEra(doe: int)
    requires 0 <= doe < 146097
    ensures var yoe := (doe - doe / 1460 + doe / 36524 - doe / 146096) / 365;
            doe - (365 * yoe + yoe / 4 - yoe / 100) == 365
            ==> (yoe % 4 == 3 && yoe % 100 != 99) || yoe == 399
  {
    if doe < 146096 {
      var b, r := doe / 36524, doe % 36524;
      YearOfCycleBounds(doe, b, r / 1461, r % 1461);
    }
  }

  /** Every date CivilFromDays computes exists: its day is within its
      month's length. */
  lemma CivilFromDaysValid(z: int)
    ensures CivilFromDays(z).day <= DaysInMonth(CivilFromDays(z).year, CivilFromDays(z).month)
  {
    var z' := z + 719468;
    var era := z' / 146097;
    var doe := z' % 146097;
    var yoe := (doe - doe / 1460 + doe / 36524 - doe / 146096) / 365;
    var doy := doe - (365 * yoe + yoe / 4 - yoe / 100);
    var mp := (5 * doy + 2) / 153;
    CivilFields(z, era, yoe, doy, mp);
    YearOfEraBounds(doe);
    MonthOfYearBounds(doy);
    LeapDayOfEra(doe);
    hide CivilFromDays;
    LeapYearOfEra(yoe, era);
    MonthLength(doy, mp, yoe + era * 400 + 1);
  }

  /** The year after year of era `yoe` of era `era` is a leap year when
      `yoe` sits where LeapDayOfEra puts the leap days. */
  lemma LeapYearOfEra(yoe: int, era: int)
    requires 0 <= yoe < 400
    ensures (yoe % 4 == 3 && yoe % 100 != 99) || yoe == 399 ==> LeapYear(yoe + era * 400 + 1)
  {
    EraShift(yoe + 1, era);
  }

  /** Whole eras of 400 years do not change a year's remainders by 4, 100
      and 400. */
  lemma EraShift(a: int, era: int)
    ensures (a + era * 400) % 4 == a % 4
    ensures (a + era * 400) % 100 == a % 100
    ensures (a + era * 400) % 400 == a % 400
  {
    var y := a + era * 400;
    var q4, q100, q400 := a / 4 + 100 * era, a / 100 + 4 * era, a / 400 + era;
    assert y == 4 * q4 + a % 4 && 0 <= a % 4 < 4;
    assert y / 4 == q4;
    assert y == 100 * q100 + a % 100 && 0 <= a % 100 < 100;
    assert y / 100 == q100;
    assert y == 400 * q400 + a % 400 && 0 <= a % 400 < 400;
    assert y / 400 == q400;
  }

  /** Day `doy` of a March-based year falls on a day of month `mp`
      that does not pass the month's length; 29 February only in a leap
      year `y`. */
  lemma MonthLength(doy: int, mp: int, y: int)
    requires 0 <= doy <= 365 && mp == (5 * doy + 2) / 153 && 0 <= mp <= 11
    requires doy == 365 ==> LeapYear(y)
    ensures var m := if mp < 10 then mp + 3 else mp - 9;
            doy - (153 * mp + 2) / 5 + 1 <= DaysInMonth(if m <= 2 then y else y - 1, m)
  {
  }

  /** chrono 0.4 represents the dates from -262144-01-01 to +262143-12-31
      (`MIN_YEAR`, `MAX_YEAR`); these are their day numbers. */
  const MinYear := -262144
  const MaxYear := 262143
  const FirstChronoDay := -96465658
  const LastChronoDay := 95026601

  /** Day `z` lies inside the range of dates chrono can represent. */
  predicate InChronoRange(z: int)
  {
    FirstChronoDay <= z <= LastChronoDay
  }

  lemma ChronoRangeEnds()
    ensures DaysFromCivil(Civil(MinYear, 1, 1)) == FirstChronoDay
    ensures DaysFromCivil(Civil(MaxYear, 12, 31)) == LastChronoDay
  {
  }

  /** Day `z` lies between 0000-01-01 and 9999-12-31, the years `%Y`
      renders as exactly four digits. */
  predicate FourDigitYear(z: int)
  {
    -719528 <= z <= 2932896
  }

  lemma FourDigitYearEnds()
    ensures DaysFromCivil(Civil(0, 1, 1)) == -719528
    ensures DaysFromCivil(Civil(9999, 12, 31)) == 2932896
  {
  }

  /** Every day between 0000-01-01 and 9999-12-31 has a four-digit year. */
  lemma FourDigitYearBounds(z: int)
    requires FourDigitYear(z)
    ensures 0 <= CivilFromDays(z).year <= 9999
  {
    var z' := z + 719468;
    var era := z' / 146097;
    var doe := z' % 146097;
    var yoe := (doe - doe / 1460 + doe / 36524 - doe / 146096) / 365;
    var doy := doe - (365 * yoe + yoe / 4 - yoe / 100);
    var mp := (5 * doy + 2) / 153;
    CivilYearOf(z);
    hide CivilFromDays;
    YearOfEraBounds(doe);
    if z' < 0 {
      assert era == -1 && doe >= 146037;
      assert yoe == 399;
      assert doy >= 306;
    } else if era == 24 {
      if yoe == 399 {
        assert doy <= 305;
      }
    } else {
      assert 0 <= era <= 23;
    }
  }

  /** The year of day `z`: the year of its era and March-based year, plus
      one for January and February. */
  lemma CivilYearOf(z: int)
    ensures var z' := z + 719468;
            var era := z' / 146097;
            var doe := z' % 146097;
            var yoe := (doe - doe / 1460 + doe / 36524 - doe / 146096) / 365;
            var doy := doe - (365 * yoe + yoe / 4 - yoe / 100);
            CivilFromDays(z).year == yoe + era * 400 + (if (5 * doy + 2) / 153 >= 10 then 1 else 0)
  {
    var z' := z + 719468;
    var doe := z' % 146097;
    var yoe := (doe - doe / 1460 + doe / 36524 - doe / 146096) / 365;
    YearOfEraBounds(doe);
    MonthOfYearBounds(doe - (365 * yoe + yoe / 4 - yoe / 100));
  }

  // ----- decimal digits -----

  predicate IsDigit(c: char) { '0' <= c <= '9' }

  predicate AllDigits(s: string) { forall i :: 0 <= i < |s| ==> IsDigit(s[i]) }

  function Digit(n: int): (c: char)
    requires 0 <= n < 10
    ensures IsDigit(c) && c as int - '0' as int == n
  {
    ('0' as int + n) as char
  }

  function Pow10(w: nat): (p: nat)
  {
    if w == 0 then 1 else 10 * Pow10(w - 1)
  }

  /** The `w` low-order decimal digits of `n`, zero-padded on the left:
      the rendering of `%m`, `%d`, `%H`, `%M`, `%S` (w = 2) and of a
      four-digit `%Y` (w = 4). */
  function Fixed(n: nat, w: nat): (s: string)
    ensures |s| == w && AllDigits(s)
  {
    if w == 0 then [] else Fixed(n / 10, w - 1) + [Digit(n % 10)]
  }

  /** The shortest decimal rendering of `n`. */
  function Decimal(n: nat): (s: string)
    ensures |s| >= 1 && AllDigits(s)
  {
    if n < 10 then [Digit(n)] else Decimal(n / 10) + [Digit(n % 10)]
  }

  /** The number a string of decimal digits denotes. */
  function ValueOf(s: string): nat
    requires AllDigits(s)
  {
    if s == [] then 0 else 10 * ValueOf(s[..|s| - 1]) + (s[|s| - 1] as int - '0' as int)
  }

  lemma {:induction false} ValueOfFixed(n: nat, w: nat)
    requires n < Pow10(w)
    ensures ValueOf(Fixed(n, w)) == n
  {
    if w > 0 {
      var s := Fixed(n, w);
      assert s[..|s| - 1] == Fixed(n / 10, w - 1);
      ValueOfFixed(n / 10, w - 1);
    }
  }

  /** `%Y`: four digits for years 0 ..= 9999; any other year carries an
      explicit sign and at least four digits, as ISO 8601 asks. */
  function FormatYear(y: int): (s: string)
    ensures 0 <= y <= 9999 ==> |s| == 4 && AllDigits(s) && ValueOf(s) == y
    ensures !(0 <= y <= 9999) ==> |s| >= 5 && s[0] == (if y < 0 then '-' else '+') && AllDigits(s[1..])
  {
    if 0 <= y <= 9999 then
      ValueOfFixed(y, 4);
      Fixed(y, 4)
    else
      var a := if y < 0 then -y else y;
      var digits := if a < 10000 then Fixed(a, 4) else Decimal(a);
      assert a >= 10000 ==> |Decimal(a)| >= 5 by { if a >= 10000 { DecimalLength(a); } }
      [if y < 0 then '-' else '+'] + digits
  }

  lemma {:induction false} DecimalLength(n: nat)
    requires n >= 10000
    ensures |Decimal(n)| >= 5
  {
    assert Decimal(n) == Decimal(n / 10) + [Digit(n % 10)];
    if n / 10 >= 10000 {
      DecimalLength(n / 10);
    } else {
      assert n / 10 >= 1000;
      assert |Decimal(n / 10 / 10)| >= 1;
      assert |Decimal(n / 10 / 10 / 10)| >= 1;
      assert |Decimal(n / 10 / 10 / 10 / 10)| >= 1;
    }
  }

  /** `%Y-%m-%d` of a civil date. */
  function FormatCivil(c: Civil): string
    requires 1 <= c.month <= 12 && 1 <= c.day <= 31
  {
    FormatYear(c.year) + "-" + Fixed(c.month, 2) + "-" + Fixed(c.day, 2)
  }

  /** `%Y-%m-%d` of day `z`: ten characters naming exactly that day when its
      year has four digits, longer otherwise. */
  function FormatDay(z: int): (s: string)
    ensures |s| >= 10
    ensures FourDigitYear(z) ==> |s| == 10 && ParseDate(s) == Some(z)
  {
    var c := CivilFromDays(z);
    FormatCivilRoundTrip(z);
    FormatCivil(c)
  }

  /** `%H:%M:%S` of a second of the day. */
  function FormatClock(sod: int): string
    requires 0 <= sod < 86400
  {
    Fixed(sod / 3600, 2) + ":" + Fixed(sod % 3600 / 60, 2) + ":" + Fixed(sod % 60, 2)
  }

  // ----- reading a rendering back -----

  /** The day named by a `YYYY-MM-DD` string, if it is one. */
  function ParseDate(s: string): Option<int>
  {
    if |s| == 10 && s[4] == '-' && s[7] == '-'
       && AllDigits(s[..4]) && AllDigits(s[5..7]) && AllDigits(s[8..])
       && 1 <= ValueOf(s[5..7]) <= 12 && 1 <= ValueOf(s[8..]) <= 31
    then Some(DaysFromCivil(Civil(ValueOf(s[..4]), ValueOf(s[5..7]), ValueOf(s[8..]))))
    else None
  }

  /** The second of the day named by a `HH:MM:SS` string, if it is one. */
  function ParseClock(s: string): Option<int>
  {
    if |s| == 8 && s[2] == ':' && s[5] == ':'
       && AllDigits(s[..2]) && AllDigits(s[3..5]) && AllDigits(s[6..])
       && ValueOf(s[..2]) < 24 && ValueOf(s[3..5]) < 60 && ValueOf(s[6..]) < 60
    then Some(ValueOf(s[..2]) * 3600 + ValueOf(s[3..5]) * 60 + ValueOf(s[6..]))
    else None
  }

  /** The instant named by a `YYYY-MM-DD HH:MM:SS` string, if it is one. */
  function ParseDateTime(s: string): Option<int>
  {
    if |s| == 19 && s[10] == ' ' && ParseDate(s[..10]).Some? && ParseClock(s[11..]).Some?
    then Some(ParseDate(s[..10]).value * 86400 + ParseClock(s[11..]).value)
    else None
  }

  /** A date and a clock reading joined by a space name the instant they
      name together. */
  lemma JoinDateTime(date: string, clock: string, z: int, sod: int)
    requires |date| == 10 && ParseDate(date) == Some(z)
    requires |clock| == 8 && ParseClock(clock) == Some(sod)
    ensures ParseDateTime(date + " " + clock) == Some(z * 86400 + sod)
  {
    var s := date + " " + clock;
    assert s[..10] == date;
    assert s[11..] == clock;
  }

  /** Rendering a day of a four-digit year and reading it back gives the day. */
  lemma FormatCivilRoundTrip(z: int)
    ensures FourDigitYear(z) ==> |FormatCivil(CivilFromDays(z))| == 10
    ensures FourDigitYear(z) ==> ParseDate(FormatCivil(CivilFromDays(z))) == Some(z)
  {
    if !FourDigitYear(z) { return; }
    FourDigitYearBounds(z);
    var c := CivilFromDays(z);
    var s := FormatCivil(c);
    ValueOfFixed(c.month, 2);
    ValueOfFixed(c.day, 2);
    assert s[..4] == FormatYear(c.year);
    assert s[5..7] == Fixed(c.month, 2);
    assert s[8..] == Fixed(c.day, 2);
    DaysFromCivilInverse(z);
  }

  /** Rendering a second of the day and reading it back gives the second. */
  lemma FormatClockRoundTrip(sod: int)
    requires 0 <= sod < 86400
    ensures |FormatClock(sod)| == 8 && ParseClock(FormatClock(sod)) == Some(sod)
  {
    hide Fixed, ParseClock;
    ClockFieldsRoundTrip(sod / 3600, sod % 3600 / 60, sod % 60);
  }

  /** Two-digit hours, minutes and seconds joined by colons read back as
      the second of the day they name. */
  lemma ClockFieldsRoundTrip(hh: nat, mm: nat, ss: nat)
    requires hh < 24 && mm < 60 && ss < 60
    ensures var s := Fixed(hh, 2) + ":" + Fixed(mm, 2) + ":" + Fixed(ss, 2);
            |s| == 8 && ParseClock(s) == Some(hh * 3600 + mm * 60 + ss)
  {
    hide Fixed, ValueOf, AllDigits, ParseClock;
    TwoDigits(hh);
    TwoDigits(mm);
    TwoDigits(ss);
    ParseClockFields(Fixed(hh, 2), Fixed(mm, 2), Fixed(ss, 2));
  }

  /** The clock reading `a:b:c` made of three two-digit fields in range. */
  lemma ParseClockFields(a: string, b: string, c: string)
    requires |a| == 2 && |b| == 2 && |c| == 2
    requires AllDigits(a) && AllDigits(b) && AllDigits(c)
    requires ValueOf(a) < 24 && ValueOf(b) < 60 && ValueOf(c) < 60
    ensures ParseClock(a + ":" + b + ":" + c) == Some(ValueOf(a) * 3600 + ValueOf(b) * 60 + ValueOf(c))
  {
    hide ValueOf, AllDigits, ParseClock;
    var s := a + ":" + b + ":" + c;
    ClockSlices(a, b, c);
    ParseClockOf(s);
  }

  /** ParseClock of a string that has the shape of a clock reading. */
  lemma ParseClockOf(s: string)
    requires |s| == 8 && s[2] == ':' && s[5] == ':'
    requires AllDigits(s[..2]) && AllDigits(s[3..5]) && AllDigits(s[6..])
    requires ValueOf(s[..2]) < 24 && ValueOf(s[3..5]) < 60 && ValueOf(s[6..]) < 60
    ensures ParseClock(s) == Some(ValueOf(s[..2]) * 3600 + ValueOf(s[3..5]) * 60 + ValueOf(s[6..]))
  {
  }

  lemma ClockSlices(a: string, b: string, c: string)
    requires |a| == 2 && |b| == 2 && |c| == 2
    ensures var s := a + ":" + b + ":" + c;
            |s| == 8 && s[2] == ':' && s[5] == ':' && s[..2] == a && s[3..5] == b && s[6..] == c
  {
    var s := a + ":" + b + ":" + c;
    assert s[..2] == a;
    assert s[3..5] == b;
    assert s[6..] == c;
  }

  /** A number below 100 renders as two digits that read back as it. */
  lemma TwoDigits(n: nat)
    requires n < 100
    ensures |Fixed(n, 2)| == 2 && AllDigits(Fixed(n, 2)) && ValueOf(Fixed(n, 2)) == n
  {
    ValueOfFixed(n, 2);
  }
}
