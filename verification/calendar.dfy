/**
 * The calendar arithmetic behind create-leave's day count. A request carries
 * its dates as text in the `%Y-%m-%d` format; the handler reads them with
 * Python's `datetime.strptime` and takes `(end - start).days + 1`. Datetime
 * subtraction at midnight is the difference of proleptic Gregorian day
 * ordinals, which is what `Ordinal` computes.
 */
module Calendar {
  import opened Wrappers

  datatype Date = Date(year: int, month: int, day: int)

  predicate IsLeap(y: int)
  {
    y % 4 == 0 && (y % 100 != 0 || y % 400 == 0)
  }

  function DaysInYear(y: int): int
  {
    if IsLeap(y) then 366 else 365
  }

  function DaysInMonth(y: int, m: int): int
    requires 1 <= m <= 12
  {
    if m == 2 then (if IsLeap(y) then 29 else 28)
    else if m == 4 || m == 6 || m == 9 || m == 11 then 30
    else 31
  }

  /** A day of the proleptic Gregorian calendar, from year 1 on. */
  predicate IsDay(d: Date)
  {
    1 <= d.year && 1 <= d.month <= 12 && 1 <= d.day <= DaysInMonth(d.year, d.month)
  }

  /** Days in the months of year `y` that precede month `m`. */
  function DaysBeforeMonth(y: int, m: int): int
    requires 1 <= m <= 12
  {
    var cumulative := [0, 31, 59, 90, 120, 151, 181, 212, 243, 273, 304, 334];
    cumulative[m - 1] + (if m > 2 && IsLeap(y) then 1 else 0)
  }

  /** Days in the `y - 1` complete years before year `y`, in closed form. */
  function DaysBeforeYear(y: int): int
    requires 1 <= y
  {
    var p := y - 1;
    p * 365 + p / 4 - p / 100 + p / 400
  }

  /** The day number of `d`, 0001-01-01 being day 1 (Python's `toordinal`). */
  function Ordinal(d: Date): (n: int)
    requires 1 <= d.year && 1 <= d.month <= 12
    ensures d == Date(1, 1, 1) ==> n == 1
    ensures IsDay(d) ==> 1 <= DaysBeforeYear(d.year) + 1 <= n <= DaysBeforeYear(d.year) + DaysInYear(d.year)
  {
    assert IsDay(d) ==> 1 <= DaysBeforeMonth(d.year, d.month) + d.day <= DaysInYear(d.year) by {
      if IsDay(d) {
        DayWithinYear(d);
      }
    }
    assert 0 <= DaysBeforeYear(d.year) by {
      DaysBeforeYearGrows(1, d.year);
    }
    DaysBeforeYear(d.year) + DaysBeforeMonth(d.year, d.month) + d.day
  }

  /**
   * The inclusive length of the span from `start` to `end`: `(end - start).days + 1`.
   * It is at least 1 exactly when the end is not before the start, and exactly
   * 1 when both are the same day; an end before the start gives 0 or less.
   */
  function DayCount(start: Date, end: Date): (n: int)
    requires IsDay(start) && IsDay(end)
    ensures n >= 1 <==> !Before(end, start)
    ensures n == 1 <==> start == end
  {
    assert Before(end, start) ==> Ordinal(end) < Ordinal(start) by {
      if Before(end, start) {
        OrdinalIncreasing(end, start);
      }
    }
    assert Before(start, end) ==> Ordinal(start) < Ordinal(end) by {
      if Before(start, end) {
        OrdinalIncreasing(start, end);
      }
    }
    Ordinal(end) - Ordinal(start) + 1
  }

  /** The calendar day after `d`. */
  function NextDay(d: Date): Date
    requires IsDay(d)
  {
    if d.day < DaysInMonth(d.year, d.month) then Date(d.year, d.month, d.day + 1)
    else if d.month < 12 then Date(d.year, d.month + 1, 1)
    else Date(d.year + 1, 1, 1)
  }

  /** Chronological order on dates: by year, then month, then day. */
  predicate Before(a: Date, b: Date)
  {
    || a.year < b.year
    || (a.year == b.year && a.month < b.month)
    || (a.year == b.year && a.month == b.month && a.day < b.day)
  }

  lemma DivStep(p: nat, k: int)
    requires k == 4 || k == 100 || k == 400
    ensures (p + 1) / k == p / k + (if (p + 1) % k == 0 then 1 else 0)
  {
  }

  lemma CenturyDivisibility(y: int)
    ensures y % 400 == 0 ==> y % 100 == 0
    ensures y % 100 == 0 ==> y % 4 == 0
  {
  }

  /** Going from year `y` to year `y + 1` adds the length of year `y`. */
  lemma DaysBeforeYearStep(y: int)
    requires 1 <= y
    ensures DaysBeforeYear(y + 1) == DaysBeforeYear(y) + DaysInYear(y)
  {
    DivStep(y - 1, 4);
    DivStep(y - 1, 100);
    DivStep(y - 1, 400);
    CenturyDivisibility(y);
  }

  lemma {:induction false} DaysBeforeYearGrows(a: int, b: int)
    requires 1 <= a <= b
    ensures DaysBeforeYear(a) + 365 * (b - a) <= DaysBeforeYear(b)
    decreases b - a
  {
    if a < b {
      DaysBeforeYearStep(a);
      DaysBeforeYearGrows(a + 1, b);
    }
  }

  lemma DaysBeforeMonthStep(y: int, m: int)
    requires 1 <= m < 12
    ensures DaysBeforeMonth(y, m + 1) == DaysBeforeMonth(y, m) + DaysInMonth(y, m)
  {
  }

  lemma {:induction false} DaysBeforeMonthGrows(y: int, m: int, n: int)
    requires 1 <= m < n <= 12
    ensures DaysBeforeMonth(y, m) + DaysInMonth(y, m) <= DaysBeforeMonth(y, n)
    decreases n - m
  {
    DaysBeforeMonthStep(y, m);
    if m + 1 < n {
      DaysBeforeMonthGrows(y, m + 1, n);
    }
  }

  /** A day's position within its year lies between 1 and the length of the year. */
  lemma DayWithinYear(d: Date)
    requires IsDay(d)
    ensures 1 <= DaysBeforeMonth(d.year, d.month) + d.day <= DaysInYear(d.year)
  {
    if d.month < 12 {
      DaysBeforeMonthGrows(d.year, d.month, 12);
    }
  }

  /** The ordinal counts days: the day after `d` is later and numbered one more. */
  lemma NextDayOrdinal(d: Date)
    requires IsDay(d)
    ensures IsDay(NextDay(d)) && Before(d, NextDay(d))
    ensures Ordinal(NextDay(d)) == Ordinal(d) + 1
  {
    if d.day == DaysInMonth(d.year, d.month) {
      if d.month < 12 {
        DaysBeforeMonthStep(d.year, d.month);
      } else {
        DaysBeforeYearStep(d.year);
      }
    }
  }

  /** The ordinal is strictly increasing in chronological order. */
  lemma OrdinalIncreasing(a: Date, b: Date)
    requires IsDay(a) && IsDay(b) && Before(a, b)
    ensures Ordinal(a) < Ordinal(b)
  {
    if a.year < b.year {
      DayWithinYear(a);
      DaysBeforeYearStep(a.year);
      DaysBeforeYearGrows(a.year + 1, b.year);
    } else if a.month < b.month {
      DaysBeforeMonthGrows(a.year, a.month, b.month);
    }
  }

  /** Extending the span by one day adds one to the count. */
  lemma DayCountNext(start: Date, end: Date)
    requires IsDay(start) && IsDay(end)
    ensures IsDay(NextDay(end)) && DayCount(start, NextDay(end)) == DayCount(start, end) + 1
  {
    NextDayOrdinal(end);
  }

  // ---- Reading `%Y-%m-%d` the way strptime does ----

  predicate IsDigit(c: char)
  {
    '0' <= c <= '9'
  }

  function DigitValue(c: char): int
    requires IsDigit(c)
  {
    c as int - '0' as int
  }

  /**
   * strptime's `%m`: the alternatives `1[0-2]`, `0[1-9]` and `[1-9]`, tried in
   * that order. Gives the month and the number of characters it used.
   */
  function MonthField(s: string): (r: Option<(int, nat)>)
    ensures r.Some? ==> 1 <= r.value.0 <= 12 && 1 <= r.value.1 <= 2 && r.value.1 <= |s|
    ensures r.Some? ==> s[..r.value.1] in MonthTexts(r.value.0)
  {
    if |s| >= 2 && s[0] == '1' && '0' <= s[1] <= '2' then
      TwoCharacters(s, 1);
      Some((10 + DigitValue(s[1]), 2))
    else if |s| >= 2 && s[0] == '0' && '1' <= s[1] <= '9' then
      TwoCharacters(s, 0);
      Some((DigitValue(s[1]), 2))
    else if |s| >= 1 && '1' <= s[0] <= '9' then
      DigitOfValue(s[0]);
      assert s[..1] == [Digit(DigitValue(s[0]))];
      Some((DigitValue(s[0]), 1))
    else None
  }

  /**
   * strptime's `%d`: the alternatives `3[01]`, `[12][0-9]`, `0[1-9]`, `[1-9]`
   * and ` [1-9]`, tried in that order. Gives the day and the number of
   * characters it used.
   */
  function DayField(s: string): (r: Option<(int, nat)>)
    ensures r.Some? ==> 1 <= r.value.0 <= 31 && 1 <= r.value.1 <= 2 && r.value.1 <= |s|
    ensures r.Some? ==> s[..r.value.1] in DayTexts(r.value.0)
  {
    if |s| >= 2 && s[0] == '3' && (s[1] == '0' || s[1] == '1') then
      TwoCharacters(s, 3);
      Some((30 + DigitValue(s[1]), 2))
    else if |s| >= 2 && (s[0] == '1' || s[0] == '2') && IsDigit(s[1]) then
      TwoCharacters(s, DigitValue(s[0]));
      Some((10 * DigitValue(s[0]) + DigitValue(s[1]), 2))
    else if |s| >= 2 && s[0] == '0' && '1' <= s[1] <= '9' then
      TwoCharacters(s, 0);
      Some((DigitValue(s[1]), 2))
    else if |s| >= 1 && '1' <= s[0] <= '9' then
      DigitOfValue(s[0]);
      assert s[..1] == [Digit(DigitValue(s[0]))];
      Some((DigitValue(s[0]), 1))
    else if |s| >= 2 && s[0] == ' ' && '1' <= s[1] <= '9' then
      DigitOfValue(s[1]);
      assert s[..2] == [' ', Digit(DigitValue(s[1]))];
      Some((DigitValue(s[1]), 2))
    else None
  }

  /** Two digit characters, the first worth `tens`, are the padded text of their number. */
  lemma TwoCharacters(s: string, tens: int)
    requires |s| >= 2 && 0 <= tens <= 9 && s[0] == Digit(tens) && IsDigit(s[1])
    ensures 0 <= 10 * tens + DigitValue(s[1]) <= 99
    ensures s[..2] == PaddedText(10 * tens + DigitValue(s[1]))
  {
    DigitOfValue(s[1]);
    var n := 10 * tens + DigitValue(s[1]);
    assert n / 10 == tens && n % 10 == DigitValue(s[1]);
  }

  /**
   * `datetime.strptime(s, '%Y-%m-%d')`: None where it raises ValueError.
   * `%Y` is exactly four digits. After `%m` a `-` must follow; when the
   * two-character month alternative is followed by something else, the
   * shorter alternative would leave a digit there, so no backtracking can
   * succeed. Characters left after `%d` are an error ("unconverted data
   * remains"), and so are year 0 and a day past the end of its month.
   */
  function ParseDate(s: string): (r: Option<Date>)
    ensures r.Some? ==> IsDay(r.value) && r.value.year <= 9999
    ensures r.Some? ==> 8 <= |s| <= 10 && s[4] == '-'
  {
    if |s| < 5 || !IsDigit(s[0]) || !IsDigit(s[1]) || !IsDigit(s[2]) || !IsDigit(s[3]) || s[4] != '-' then None
    else
      var year := 1000 * DigitValue(s[0]) + 100 * DigitValue(s[1]) + 10 * DigitValue(s[2]) + DigitValue(s[3]);
      match MonthField(s[5..])
      case None => None
      case Some((month, n)) =>
        var rest := s[5 + n..];
        if |rest| == 0 || rest[0] != '-' then None
        else
          match DayField(rest[1..])
          case None => None
          case Some((day, k)) =>
            if k != |rest| - 1 then None
            else if year < 1 || day > DaysInMonth(year, month) then None
            else Some(Date(year, month, day))
  }

  function Digit(n: int): char
    requires 0 <= n <= 9
    ensures IsDigit(Digit(n)) && DigitValue(Digit(n)) == n
  {
    ('0' as int + n) as char
  }

  lemma DigitOfValue(c: char)
    requires IsDigit(c)
    ensures 0 <= DigitValue(c) <= 9 && Digit(DigitValue(c)) == c
  {
  }

  /** A year as `%Y` writes it: four digits. */
  function YearText(y: int): string
    requires 0 <= y <= 9999
  {
    [Digit(y / 1000), Digit(y / 100 % 10), Digit(y / 10 % 10), Digit(y % 10)]
  }

  /** A number below 100 in two digits, zero-padded. */
  function PaddedText(n: int): string
    requires 0 <= n <= 99
  {
    [Digit(n / 10), Digit(n % 10)]
  }

  /** The texts `%m` reads as month `m`: two digits, or one digit for months 1 to 9. */
  function MonthTexts(m: int): set<string>
    requires 1 <= m <= 12
  {
    {PaddedText(m)} + (if m < 10 then {[Digit(m)]} else {})
  }

  /** The texts `%d` reads as day `d`: two digits, and for days 1 to 9 also one digit or a space and one digit. */
  function DayTexts(d: int): set<string>
    requires 1 <= d <= 31
  {
    {PaddedText(d)} + (if d < 10 then {[Digit(d)], [' ', Digit(d)]} else {})
  }

  /** Every text of the form `%Y-%m-%d` that spells the date `d`. */
  function Spellings(d: Date): set<string>
    requires 0 <= d.year <= 9999 && 1 <= d.month <= 12 && 1 <= d.day <= 31
  {
    set m, t | m in MonthTexts(d.month) && t in DayTexts(d.day) :: YearText(d.year) + "-" + m + "-" + t
  }

  /** The zero-padded `YYYY-MM-DD` text of a date, as a browser date input submits it. */
  function Iso(d: Date): (s: string)
    requires 0 <= d.year <= 9999 && 1 <= d.month <= 12 && 1 <= d.day <= 31
    ensures |s| == 10 && s in Spellings(d)
    ensures s[4] == '-' && s[7] == '-' && forall i | 0 <= i < 10 && i != 4 && i != 7 :: IsDigit(s[i])
  {
    var s := YearText(d.year) + "-" + PaddedText(d.month) + "-" + PaddedText(d.day);
    assert PaddedText(d.month) in MonthTexts(d.month) && PaddedText(d.day) in DayTexts(d.day);
    s
  }

  lemma YearDigits(y: int)
    requires 0 <= y <= 9999
    ensures 0 <= y / 1000 <= 9 && 0 <= y / 100 % 10 <= 9 && 0 <= y / 10 % 10 <= 9
    ensures 1000 * (y / 1000) + 100 * (y / 100 % 10) + 10 * (y / 10 % 10) + y % 10 == y
  {
  }

  /** Four digits are the `YearText` of the number they make. */
  lemma YearOfDigits(a: int, b: int, c: int, e: int)
    requires 0 <= a <= 9 && 0 <= b <= 9 && 0 <= c <= 9 && 0 <= e <= 9
    ensures var y := 1000 * a + 100 * b + 10 * c + e;
            0 <= y <= 9999 && YearText(y) == [Digit(a), Digit(b), Digit(c), Digit(e)]
  {
    var y := 1000 * a + 100 * b + 10 * c + e;
    assert y / 1000 == a;
    assert y / 100 == 10 * a + b;
    assert y / 10 == 100 * a + 10 * b + c;
  }

  /** A month text followed by `-` is read by `%m` as that month, using all of the text. */
  lemma MonthFieldReads(m: int, t: string, rest: string)
    requires 1 <= m <= 12 && t in MonthTexts(m) && |rest| > 0 && rest[0] == '-'
    ensures MonthField(t + rest) == Some((m, |t|))
  {
    var s := t + rest;
    if t == PaddedText(m) {
      assert s[0] == Digit(m / 10) && s[1] == Digit(m % 10);
    } else {
      assert s[0] == Digit(m) && s[1] == '-';
    }
  }

  /** A whole day text is read by `%d` as that day. */
  lemma DayFieldReads(d: int, t: string)
    requires 1 <= d <= 31 && t in DayTexts(d)
    ensures DayField(t) == Some((d, |t|))
  {
  }

  /** What `strptime` accepts spells the day it returns. */
  lemma ParsedIsSpelled(s: string, d: Date)
    requires ParseDate(s) == Some(d)
    ensures IsDay(d) && d.year <= 9999 && s in Spellings(d)
  {
    var month, n := MonthField(s[5..]).value.0, MonthField(s[5..]).value.1;
    var rest := s[5 + n..];
    var k := DayField(rest[1..]).value.1;
    var m, t := s[5..5 + n], rest[1..];
    assert m in MonthTexts(d.month) by {
      assert s[5..][..n] == m;
    }
    assert t in DayTexts(d.day) by {
      assert rest[1..][..k] == t;
    }
    assert s[..4] == YearText(d.year) by {
      DigitOfValue(s[0]);
      DigitOfValue(s[1]);
      DigitOfValue(s[2]);
      DigitOfValue(s[3]);
      YearOfDigits(DigitValue(s[0]), DigitValue(s[1]), DigitValue(s[2]), DigitValue(s[3]));
    }
    assert s == s[..4] + "-" + m + "-" + t;
  }

  /** Every spelling of a real day of years 1 to 9999 is accepted and read as that day. */
  lemma SpelledIsParsed(s: string, d: Date)
    requires IsDay(d) && d.year <= 9999 && s in Spellings(d)
    ensures ParseDate(s) == Some(d)
  {
    var m, t :| m in MonthTexts(d.month) && t in DayTexts(d.day) && s == YearText(d.year) + "-" + m + "-" + t;
    YearDigits(d.year);
    assert s[..4] == YearText(d.year);
    assert s[5..] == m + ("-" + t);
    MonthFieldReads(d.month, m, "-" + t);
    assert s[5 + |m|..] == "-" + t;
    assert ("-" + t)[1..] == t;
    DayFieldReads(d.day, t);
  }

  /**
   * `strptime('%Y-%m-%d')` accepts exactly the spellings of the real days
   * of years 1 to 9999, and reads each as the day it spells.
   */
  lemma ParseDateSpellings(s: string, d: Date)
    ensures ParseDate(s) == Some(d) <==> IsDay(d) && d.year <= 9999 && s in Spellings(d)
  {
    if ParseDate(s) == Some(d) {
      ParsedIsSpelled(s, d);
    }
    if IsDay(d) && d.year <= 9999 && s in Spellings(d) {
      SpelledIsParsed(s, d);
    }
  }

  /** Unpadded months and days, and a space before a one-digit day, are accepted; impossible days are not. */
  lemma ParseDateExamples()
    ensures ParseDate("2024-1-5") == Some(Date(2024, 1, 5))
    ensures ParseDate("2024-01- 5") == Some(Date(2024, 1, 5))
    ensures ParseDate("2024-02-30") == None && ParseDate("2024-13-01") == None
    ensures ParseDate("0000-01-01") == None && ParseDate("2024-01-032") == None
  {
  }

  /** Every real date from year 1 to 9999 reads back from its ISO text. */
  lemma ParseIso(d: Date)
    requires IsDay(d) && d.year <= 9999
    ensures ParseDate(Iso(d)) == Some(d)
  {
    ParseDateSpellings(Iso(d), d);
  }
}
