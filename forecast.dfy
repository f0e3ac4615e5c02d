/** The daily-record building of GetForecast in internal/weather/forecast.go,
    over the already decoded arrays of the forecast response. Dates are
    parsed as the layout "2006-01-02" parses them and land on midnight UTC. */
module Forecast {
  import opened Types
  import Engine

  // ---------------------------------------------------------------------
  // Calendar dates
  // ---------------------------------------------------------------------

  predicate IsLeapYear(y: int) {
    y % 4 == 0 && (y % 100 != 0 || y % 400 == 0)
  }

  function DaysIn(month: int, year: int): (n: int)
    requires 1 <= month <= 12
    ensures 28 <= n <= 31
  {
    if month == 2 then (if IsLeapYear(year) then 29 else 28)
    else if month == 4 || month == 6 || month == 9 || month == 11 then 30
    else 31
  }

  /** Days from 1970-01-01 to the given proleptic Gregorian date. */
  function DaysFromCivil(y: int, m: int, d: int): int
    requires 1 <= m <= 12
  {
    var yy := if m <= 2 then y - 1 else y;
    var era := yy / 400;
    var yoe := yy - era * 400;
    var doy := (153 * (if m > 2 then m - 3 else m + 9) + 2) / 5 + d - 1;
    var doe := yoe * 365 + yoe / 4 - yoe / 100 + doy;
    era * 146097 + doe - 719468
  }

  /** Within a month, the next date is the next day. */
  lemma NextDateIsNextDay(y: int, m: int, d: int)
    requires 1 <= m <= 12
    ensures DaysFromCivil(y, m, d + 1) == DaysFromCivil(y, m, d) + 1
  {
  }

  /** A calendar date that exists: month 1..12 and a day of that month. */
  datatype CivilDate = CivilDate(Year: int, Month: int, Day: int)

  predicate ValidDate(c: CivilDate) {
    1 <= c.Month <= 12 && 1 <= c.Day <= DaysIn(c.Month, c.Year)
  }

  /** Midnight UTC of a valid date, in minutes since the epoch. */
  function Midnight(c: CivilDate): (t: Time)
    requires ValidDate(c)
    ensures DayOf(t) == DaysFromCivil(c.Year, c.Month, c.Day)
    ensures TimeOfDay(t) == 0
  {
    DaysFromCivil(c.Year, c.Month, c.Day) * MinutesPerDay
  }

  function D(c: char): int
    requires Engine.IsDigit(c)
  {
    Engine.DigitValue(c)
  }

  /** The date spelled "YYYY-MM-DD" as the layout "2006-01-02" accepts it:
      four year digits, two month digits for 1..12, two day digits for a
      day of that month, and nothing after. */
  function ParseYmd(s: string): (r: Option<CivilDate>)
    ensures r.Some? ==> ValidDate(r.value) && 0 <= r.value.Year < 10000
  {
    if && |s| == 10
       && Engine.IsDigit(s[0]) && Engine.IsDigit(s[1]) && Engine.IsDigit(s[2]) && Engine.IsDigit(s[3])
       && s[4] == '-' && Engine.IsDigit(s[5]) && Engine.IsDigit(s[6])
       && s[7] == '-' && Engine.IsDigit(s[8]) && Engine.IsDigit(s[9])
    then
      var c := CivilDate(1000 * D(s[0]) + 100 * D(s[1]) + 10 * D(s[2]) + D(s[3]),
                         10 * D(s[5]) + D(s[6]), 10 * D(s[8]) + D(s[9]));
      if ValidDate(c) then Some(c) else None
    else None
  }

  /** time.Parse with the layout "2006-01-02": midnight UTC of the date. */
  function ParseDate(s: string): (r: Option<Time>)
    ensures r.Some? <==> ParseYmd(s).Some?
    ensures r.Some? ==> r.value == Midnight(ParseYmd(s).value)
  {
    match ParseYmd(s)
    case Some(c) => Some(Midnight(c))
    case None => None
  }

  /** The "YYYY-MM-DD" spelling of a date with a four-digit year. */
  function FormatDate(c: CivilDate): (s: string)
    requires 0 <= c.Year < 10000 && ValidDate(c)
    ensures |s| == 10
  {
    var y, m, d := c.Year, c.Month, c.Day;
    [Engine.DigitChar(y / 1000), Engine.DigitChar(y / 100 % 10), Engine.DigitChar(y / 10 % 10), Engine.DigitChar(y % 10),
     '-', Engine.DigitChar(m / 10), Engine.DigitChar(m % 10),
     '-', Engine.DigitChar(d / 10), Engine.DigitChar(d % 10)]
  }

  lemma FourDigits(y: int)
    requires 0 <= y < 10000
    ensures 1000 * (y / 1000) + 100 * (y / 100 % 10) + 10 * (y / 10 % 10) + y % 10 == y
  {
    assert y == 10 * (y / 10) + y % 10;
    assert y / 10 == 10 * (y / 100) + y / 10 % 10;
    assert y / 100 == 10 * (y / 1000) + y / 100 % 10;
    assert y / 100 / 10 == y / 1000;
    assert y / 10 / 10 == y / 100;
  }

  /** Every valid date with a four-digit year parses back to itself. */
  lemma ParseFormatDate(c: CivilDate)
    requires 0 <= c.Year < 10000 && ValidDate(c)
    ensures ParseYmd(FormatDate(c)) == Some(c)
  {
    var s := FormatDate(c);
    FourDigits(c.Year);
    assert 1000 * D(s[0]) + 100 * D(s[1]) + 10 * D(s[2]) + D(s[3]) == c.Year;
    assert 10 * D(s[5]) + D(s[6]) == c.Month;
    assert 10 * D(s[8]) + D(s[9]) == c.Day;
  }

  /** The digits of a four-digit number are read back by division. */
  lemma FourDigitsOf(a: int, b: int, c: int, e: int)
    requires 0 <= a <= 9 && 0 <= b <= 9 && 0 <= c <= 9 && 0 <= e <= 9
    ensures var y := 1000 * a + 100 * b + 10 * c + e;
      y / 1000 == a && y / 100 % 10 == b && y / 10 % 10 == c && y % 10 == e
  {
    var y := 1000 * a + 100 * b + 10 * c + e;
    DivModUnique(y, 10, 100 * a + 10 * b + c, e);
    DivModUnique(100 * a + 10 * b + c, 10, 10 * a + b, c);
    DivModUnique(10 * a + b, 10, a, b);
    DivModUnique(y, 100, 10 * a + b, 10 * c + e);
    DivModUnique(y, 1000, a, 100 * b + 10 * c + e);
  }

  lemma DivModUnique(y: int, k: int, q: int, r: int)
    requires k == 10 || k == 100 || k == 1000
    requires 0 <= r < k && y == q * k + r
    ensures y / k == q && y % k == r
  {
    if k == 10 {
      assert y == q * 10 + r;
    } else if k == 100 {
      assert y == q * 100 + r;
    } else {
      assert y == q * 1000 + r;
    }
  }

  lemma DigitRoundTrip(c: char)
    requires Engine.IsDigit(c)
    ensures Engine.DigitChar(D(c)) == c
  {
  }

  /** A string that parses is the canonical spelling of its date. */
  lemma FormatParsedDate(s: string)
    requires ParseYmd(s).Some?
    ensures FormatDate(ParseYmd(s).value) == s
  {
    var c := ParseYmd(s).value;
    var f := FormatDate(c);
    FourDigitsOf(D(s[0]), D(s[1]), D(s[2]), D(s[3]));
    FourDigitsOf(0, 0, D(s[5]), D(s[6]));
    FourDigitsOf(0, 0, D(s[8]), D(s[9]));
    forall i | i in {0, 1, 2, 3, 5, 6, 8, 9} ensures Engine.DigitChar(D(s[i])) == s[i] {
      DigitRoundTrip(s[i]);
    }
    assert f[0] == s[0] && f[1] == s[1] && f[2] == s[2] && f[3] == s[3];
    assert f[5] == s[5] && f[6] == s[6] && f[8] == s[8] && f[9] == s[9];
  }

  /** 2024-12-01 is day 20058 of the epoch; invalid dates and short fields are refused. */
  lemma DateExamples()
    ensures ParseDate("2024-12-01") == Some(20058 * MinutesPerDay)
    ensures ParseYmd("2024-02-29").Some? && ParseYmd("2023-02-29").None?
    ensures ParseYmd("2024-13-01").None? && ParseYmd("2024-1-01").None?
  {
    assert ParseYmd("2024-12-01") == Some(CivilDate(2024, 12, 1));
  }

  // ---------------------------------------------------------------------
  // Daily records
  // ---------------------------------------------------------------------

  /** Good drying conditions: more than 3 hours of sunshine, under 30%
      chance of rain and a maximum above 12 degrees. */
  predicate GoodDrying(sunshineHours: real, precipProb: real, maxTempC: real) {
    sunshineHours > 3.0 && precipProb < 30.0 && maxTempC > 12.0
  }

  /** The decoded daily arrays of the forecast response. */
  datatype DailyArrays = DailyArrays(
    Time: seq<string>, MaxTemp: seq<real>, MinTemp: seq<real>, PrecipProb: seq<real>, Sunshine: seq<real>)

  /** Every entry with a date that parses has its temperatures: the Go code
      indexes both temperature arrays without a bounds check. */
  predicate TemperaturesCover(d: DailyArrays) {
    forall i :: 0 <= i < |d.Time| && ParseDate(d.Time[i]).Some? ==> i < |d.MaxTemp| && i < |d.MinTemp|
  }

  /** The record for entry i: sunshine arrives in seconds and is reported in
      hours, a missing sunshine or rain value counts as 0, and IsSunny is the
      good-drying rule applied to the record's own fields. */
  function DayRecord(d: DailyArrays, i: int): (r: WeatherForecast)
    requires 0 <= i < |d.Time| && i < |d.MaxTemp| && i < |d.MinTemp| && ParseDate(d.Time[i]).Some?
    ensures r.Date == ParseDate(d.Time[i]).value
    ensures r.IsSunny <==> GoodDrying(r.SunshineHours, r.PrecipProb, r.MaxTempC)
    ensures i >= |d.Sunshine| ==> r.SunshineHours == 0.0 && !r.IsSunny
    ensures i < |d.Sunshine| ==> r.SunshineHours * 3600.0 == d.Sunshine[i]
    ensures r.PrecipProb == (if i < |d.PrecipProb| then d.PrecipProb[i] else 0.0)
    ensures r.MaxTempC == d.MaxTemp[i] && r.MinTempC == d.MinTemp[i]
  {
    var sunshineHours := if i < |d.Sunshine| then d.Sunshine[i] / 3600.0 else 0.0;
    var precipProb := if i < |d.PrecipProb| then d.PrecipProb[i] else 0.0;
    WeatherForecast(ParseDate(d.Time[i]).value, sunshineHours, d.MaxTemp[i], d.MinTemp[i], precipProb,
      sunshineHours > 3.0 && precipProb < 30.0 && d.MaxTemp[i] > 12.0)
  }

  /** The records of the first n entries, skipping those whose date does not parse. */
  function Forecasts(d: DailyArrays, n: int): (r: seq<WeatherForecast>)
    requires TemperaturesCover(d) && 0 <= n <= |d.Time|
    ensures |r| <= n
  {
    if n == 0 then []
    else
      Forecasts(d, n - 1) + (if ParseDate(d.Time[n - 1]).Some? then [DayRecord(d, n - 1)] else [])
  }

  /** The entries among the first n whose date parses, in ascending order. */
  function ParsedEntries(d: DailyArrays, n: int): (idx: seq<int>)
    requires 0 <= n <= |d.Time|
    ensures forall k :: 0 <= k < |idx| ==> 0 <= idx[k] < n && ParseDate(d.Time[idx[k]]).Some?
    ensures forall k, l :: 0 <= k < l < |idx| ==> idx[k] < idx[l]
    ensures forall i :: 0 <= i < n && ParseDate(d.Time[i]).Some? ==> i in idx
  {
    if n == 0 then []
    else ParsedEntries(d, n - 1) + (if ParseDate(d.Time[n - 1]).Some? then [n - 1] else [])
  }

  /** The k-th record is the record of the k-th entry whose date parses:
      unparsable entries are skipped and nothing else is dropped or reordered. */
  lemma {:induction false} ForecastsAreRecords(d: DailyArrays, n: int)
    requires TemperaturesCover(d) && 0 <= n <= |d.Time|
    ensures |Forecasts(d, n)| == |ParsedEntries(d, n)|
    ensures forall k :: 0 <= k < |Forecasts(d, n)| ==> Forecasts(d, n)[k] == DayRecord(d, ParsedEntries(d, n)[k])
  {
    if n > 0 {
      ForecastsAreRecords(d, n - 1);
      var r, front := Forecasts(d, n), Forecasts(d, n - 1);
      var idx, frontIdx := ParsedEntries(d, n), ParsedEntries(d, n - 1);
      forall k | 0 <= k < |front| ensures r[k] == DayRecord(d, idx[k]) {
        assert r[k] == front[k] && idx[k] == frontIdx[k];
      }
    }
  }

  /** With strictly increasing input dates, the record dates strictly increase too. */
  lemma ForecastsDatesIncrease(d: DailyArrays, n: int)
    requires TemperaturesCover(d) && 0 <= n <= |d.Time|
    requires forall i, j :: 0 <= i < j < n && ParseDate(d.Time[i]).Some? && ParseDate(d.Time[j]).Some? ==>
      ParseDate(d.Time[i]).value < ParseDate(d.Time[j]).value
    ensures forall k, l :: 0 <= k < l < |Forecasts(d, n)| ==> Forecasts(d, n)[k].Date < Forecasts(d, n)[l].Date
  {
    ForecastsAreRecords(d, n);
  }

  /** When every date parses there is one record per entry, in entry order. */
  lemma {:induction false} ForecastsAllParsed(d: DailyArrays, n: int)
    requires TemperaturesCover(d) && 0 <= n <= |d.Time|
    requires forall i :: 0 <= i < n ==> ParseDate(d.Time[i]).Some?
    ensures |Forecasts(d, n)| == n
    ensures forall i :: 0 <= i < n ==> Forecasts(d, n)[i] == DayRecord(d, i)
  {
    if n > 0 {
      ForecastsAllParsed(d, n - 1);
      var r, front := Forecasts(d, n), Forecasts(d, n - 1);
      assert r == front + [DayRecord(d, n - 1)];
      forall i | 0 <= i < n ensures r[i] == DayRecord(d, i) {
        if i < n - 1 {
          assert r[i] == front[i];
        }
      }
    }
  }

  /** The loop of GetForecast: one record per entry whose date parses. */
  method BuildForecasts(d: DailyArrays) returns (forecasts: seq<WeatherForecast>)
    requires TemperaturesCover(d)
    ensures forecasts == Forecasts(d, |d.Time|)
  {
    forecasts := [];
    for i := 0 to |d.Time|
      invariant forecasts == Forecasts(d, i)
    {
      var date := ParseDate(d.Time[i]);
      if date.None? {
        continue;
      }
      var sunshineHours := 0.0;
      if i < |d.Sunshine| {
        sunshineHours := d.Sunshine[i] / 3600.0;
      }
      var precipProb := 0.0;
      if i < |d.PrecipProb| {
        precipProb := d.PrecipProb[i];
      }
      var isSunny := sunshineHours > 3.0 && precipProb < 30.0 && d.MaxTemp[i] > 12.0;
      forecasts := forecasts + [WeatherForecast(date.value, sunshineHours, d.MaxTemp[i], d.MinTemp[i], precipProb, isSunny)];
    }
  }
}
