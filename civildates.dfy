/**
 * Proleptic Gregorian dates as Python's `datetime` module handles them:
 * years 1..9999, day arithmetic that raises `OverflowError` past
 * 9999-12-31, the "%Y-%m-%d" rendering, and strict readers for the two
 * timestamp formats the bots pass to `strptime`.
 */
module CivilDates {
  import opened Wrappers
  import opened PyText

  datatype Date = Date(year: int, month: int, day: int)

  datatype DateTime = DateTime(date: Date, hour: int, minute: int, second: int, micro: int)

  const MaxYear := 9999

  /** The last date Python's `datetime.date` can represent. */
  const LastDate := Date(MaxYear, 12, 31)

  predicate IsLeapYear(y: int)
  {
    y % 4 == 0 && (y % 100 != 0 || y % 400 == 0)
  }

  function DaysInMonth(y: int, m: int): int
    requires 1 <= m <= 12
  {
    if m == 2 then (if IsLeapYear(y) then 29 else 28)
    else if m == 4 || m == 6 || m == 9 || m == 11 then 30
    else 31
  }

  predicate ValidDate(d: Date)
  {
    1 <= d.year <= MaxYear && 1 <= d.month <= 12 && 1 <= d.day <= DaysInMonth(d.year, d.month)
  }

  predicate ValidDateTime(t: DateTime)
  {
    ValidDate(t.date) && 0 <= t.hour < 24 && 0 <= t.minute < 60 && 0 <= t.second < 60
    && 0 <= t.micro < 1000000
  }

  function YearLength(y: int): int
  {
    if IsLeapYear(y) then 366 else 365
  }

  /** Days from 0001-01-01 to the first of January of year `y`. */
  function DaysBeforeYear(y: int): nat
    requires y >= 1
  {
    365 * (y - 1) + (y - 1) / 4 - (y - 1) / 100 + (y - 1) / 400
  }

  lemma DivStep(n: int, k: int)
    requires n >= 1 && (k == 4 || k == 100 || k == 400)
    ensures n / k == (n - 1) / k + (if n % k == 0 then 1 else 0)
  {
    if k == 4 {
      DivStepBy(n, 4);
    } else if k == 100 {
      DivStepBy(n, 100);
    } else {
      DivStepBy(n, 400);
    }
  }

  lemma DivStepBy(n: int, k: nat)
    requires n >= 1 && (k == 4 || k == 100 || k == 400)
    ensures n / k == (n - 1) / k + (if n % k == 0 then 1 else 0)
  {
    var q := (n - 1) / k;
    if k == 4 {
      assert 4 * q <= n - 1 < 4 * q + 4;
    } else if k == 100 {
      assert 100 * q <= n - 1 < 100 * q + 100;
    } else {
      assert 400 * q <= n - 1 < 400 * q + 400;
    }
  }

  lemma LeapDivisors(y: int)
    ensures y % 100 == 0 ==> y % 4 == 0
    ensures y % 400 == 0 ==> y % 100 == 0
  {
    if y % 100 == 0 { assert y == 4 * (25 * (y / 100)); }
    if y % 400 == 0 { assert y == 100 * (4 * (y / 400)); }
  }

  lemma DaysBeforeNextYear(y: int)
    requires y >= 1
    ensures DaysBeforeYear(y + 1) == DaysBeforeYear(y) + YearLength(y)
  {
    DivStep(y, 4);
    DivStep(y, 100);
    DivStep(y, 400);
    LeapDivisors(y);
  }

  /** Days of year `y` before the first of month `m` (13 stands for the next January). */
  function DaysBeforeMonth(y: int, m: int): nat
    requires 1 <= m <= 13
  {
    var common :=
      if m <= 6 then (if m == 1 then 0 else if m == 2 then 31 else if m == 3 then 59
                      else if m == 4 then 90 else if m == 5 then 120 else 151)
      else (if m == 7 then 181 else if m == 8 then 212 else if m == 9 then 243
            else if m == 10 then 273 else if m == 11 then 304 else if m == 12 then 334 else 365);
    common + (if m > 2 && IsLeapYear(y) then 1 else 0)
  }

  lemma DaysBeforeMonthStep(y: int, m: int)
    requires 1 <= m <= 12
    ensures DaysBeforeMonth(y, m + 1) == DaysBeforeMonth(y, m) + DaysInMonth(y, m)
    ensures DaysBeforeMonth(y, 13) == YearLength(y)
  {
  }

  lemma {:induction false} DaysBeforeMonthGrows(y: int, m: int, n: int)
    requires 1 <= m <= n <= 13
    ensures DaysBeforeMonth(y, m) + 28 * (n - m) <= DaysBeforeMonth(y, n)
    decreases n - m
  {
    if m < n {
      DaysBeforeMonthGrows(y, m + 1, n);
      DaysBeforeMonthStep(y, m);
    }
  }

  /** The day's distance from 0001-01-01, i.e. Python's `date.toordinal() - 1`. */
  function DayNumber(d: Date): nat
    requires ValidDate(d)
  {
    DaysBeforeYear(d.year) + DaysBeforeMonth(d.year, d.month) + d.day - 1
  }

  /** Calendar order of two dates: year, then month, then day. */
  predicate Before(a: Date, b: Date)
  {
    a.year < b.year || (a.year == b.year && (a.month < b.month || (a.month == b.month && a.day < b.day)))
  }

  lemma {:induction false} DaysBeforeYearGrows(y: int, z: int)
    requires 1 <= y <= z
    ensures DaysBeforeYear(y) + (z - y) * 365 <= DaysBeforeYear(z)
    decreases z - y
  {
    if y < z {
      DaysBeforeYearGrows(y, z - 1);
      DaysBeforeNextYear(z - 1);
    }
  }

  lemma DayNumberWithinYear(d: Date)
    requires ValidDate(d)
    ensures DaysBeforeYear(d.year) <= DayNumber(d) < DaysBeforeYear(d.year) + YearLength(d.year)
    ensures DayNumber(d) < DaysBeforeYear(d.year) + DaysBeforeMonth(d.year, d.month + 1)
  {
    DaysBeforeMonthStep(d.year, d.month);
    DaysBeforeMonthGrows(d.year, d.month + 1, 13);
  }

  /** Day numbers order dates exactly as the calendar does. */
  lemma DayNumberOrder(a: Date, b: Date)
    requires ValidDate(a) && ValidDate(b)
    ensures DayNumber(a) < DayNumber(b) <==> Before(a, b)
    ensures DayNumber(a) == DayNumber(b) <==> a == b
  {
    if a.year < b.year {
      EarlierYear(a, b);
    } else if b.year < a.year {
      EarlierYear(b, a);
    } else if a.month < b.month {
      EarlierMonth(a, b);
    } else if b.month < a.month {
      EarlierMonth(b, a);
    }
  }

  lemma EarlierYear(a: Date, b: Date)
    requires ValidDate(a) && ValidDate(b) && a.year < b.year
    ensures DayNumber(a) < DayNumber(b)
  {
    DayNumberWithinYear(a);
    DayNumberWithinYear(b);
    DaysBeforeNextYear(a.year);
    DaysBeforeYearGrows(a.year + 1, b.year);
  }

  lemma EarlierMonth(a: Date, b: Date)
    requires ValidDate(a) && ValidDate(b) && a.year == b.year && a.month < b.month
    ensures DayNumber(a) < DayNumber(b)
  {
    DayNumberWithinYear(a);
    DaysBeforeMonthGrows(a.year, a.month + 1, b.month);
  }

  /** The day after `d`; `None` for the last representable date. */
  function NextDay(d: Date): (r: Option<Date>)
    requires ValidDate(d)
    ensures r.None? <==> d == LastDate
    ensures r.Some? ==> ValidDate(r.value) && DayNumber(r.value) == DayNumber(d) + 1
  {
    DaysBeforeMonthStep(d.year, d.month);
    DaysBeforeNextYear(d.year);
    if d.day < DaysInMonth(d.year, d.month) then Some(Date(d.year, d.month, d.day + 1))
    else if d.month < 12 then Some(Date(d.year, d.month + 1, 1))
    else if d.year < MaxYear then Some(Date(d.year + 1, 1, 1))
    else None
  }

  /**
   * `date + timedelta(days=n)`: `None` where Python raises `OverflowError`,
   * which is exactly when the result would lie past 9999-12-31.
   */
  function AddDays(d: Date, n: nat): (r: Option<Date>)
    requires ValidDate(d)
    ensures r.Some? ==> ValidDate(r.value) && DayNumber(r.value) == DayNumber(d) + n
    ensures r.None? <==> DayNumber(d) + n > DayNumber(LastDate)
    decreases n
  {
    DayNumberOrder(d, LastDate);
    if n == 0 then Some(d)
    else
      match NextDay(d)
      case None => None
      case Some(e) => AddDays(e, n - 1)
  }

  /** `n` as exactly `w` decimal digits (leading zeros kept, higher digits dropped). */
  function Fixed(n: nat, w: nat): (r: string)
    ensures |r| == w && AllDigits(r)
  {
    if w == 0 then "" else Fixed(n / 10, w - 1) + [DigitChar(n % 10)]
  }

  function Pow10(w: nat): nat
  {
    if w == 0 then 1 else 10 * Pow10(w - 1)
  }

  lemma {:induction false} FixedValue(n: nat, w: nat)
    requires n < Pow10(w)
    ensures DigitsValue(Fixed(n, w)) == n
  {
    if w > 0 {
      var r := Fixed(n, w);
      assert r[..|r| - 1] == Fixed(n / 10, w - 1);
      FixedValue(n / 10, w - 1);
    }
  }

  lemma {:induction false} ValueFixed(s: string)
    requires AllDigits(s)
    ensures Fixed(DigitsValue(s), |s|) == s
    ensures DigitsValue(s) < Pow10(|s|)
  {
    if |s| > 0 {
      var init := s[..|s| - 1];
      ValueFixed(init);
      var v := DigitsValue(s);
      assert v / 10 == DigitsValue(init) && v % 10 == DigitValue(s[|s| - 1]);
      assert s == init + [s[|s| - 1]];
    }
  }

  /** `strftime("%Y-%m-%d")`. */
  function FormatDate(d: Date): string
    requires ValidDate(d)
  {
    Fixed(d.year, 4) + "-" + Fixed(d.month, 2) + "-" + Fixed(d.day, 2)
  }

  /** The reading of a "YYYY-MM-DD" text, the inverse of `FormatDate`. */
  function ParseDate(s: string): (r: Option<Date>)
    ensures r.Some? ==> ValidDate(r.value)
  {
    if |s| == 10 && s[4] == '-' && s[7] == '-'
       && AllDigits(s[..4]) && AllDigits(s[5..7]) && AllDigits(s[8..])
    then
      var d := Date(DigitsValue(s[..4]), DigitsValue(s[5..7]), DigitsValue(s[8..]));
      if ValidDate(d) then Some(d) else None
    else None
  }

  lemma Pow10Values()
    ensures Pow10(2) == 100 && Pow10(4) == 10000 && Pow10(6) == 1000000
  {
  }

  lemma DigitsSlice(a: string, i: nat, j: nat)
    requires AllDigits(a) && i <= j <= |a|
    ensures AllDigits(a[i..j])
  {
  }

  /** Reading a rendered date gives the date back. */
  lemma ParseFormatDate(d: Date)
    requires ValidDate(d)
    ensures ParseDate(FormatDate(d)) == Some(d)
  {
    var s := FormatDate(d);
    Pow10Values();
    assert s[..4] == Fixed(d.year, 4) && s[5..7] == Fixed(d.month, 2) && s[8..] == Fixed(d.day, 2);
    FixedValue(d.year, 4);
    FixedValue(d.month, 2);
    FixedValue(d.day, 2);
  }

  /** Every text the reader accepts is the rendering of what it read. */
  lemma FormatParseDate(s: string)
    requires ParseDate(s).Some?
    ensures FormatDate(ParseDate(s).value) == s
  {
    var a, b, c := s[..4], s[5..7], s[8..];
    assert ParseDate(s).value == Date(DigitsValue(a), DigitsValue(b), DigitsValue(c));
    ValueFixed(a);
    ValueFixed(b);
    ValueFixed(c);
    DateTextParts(s);
  }

  lemma DateTextParts(s: string)
    requires |s| == 10 && s[4] == '-' && s[7] == '-'
    ensures s == s[..4] + "-" + s[5..7] + "-" + s[8..]
  {
    assert s[..5] == s[..4] + "-";
    assert s[..8] == s[..5] + s[5..7] + "-";
    assert s == s[..8] + s[8..];
  }

  /** A text the date reader accepts holds only digits and dashes. */
  lemma DateTextChars(s: string)
    requires ParseDate(s).Some?
    ensures |s| == 10 && forall k :: 0 <= k < |s| ==> IsDigit(s[k]) || s[k] == '-'
  {
    forall k | 0 <= k < |s| ensures IsDigit(s[k]) || s[k] == '-' {
      if k < 4 { assert s[..4][k] == s[k]; }
      else if 5 <= k < 7 { assert s[5..7][k - 5] == s[k]; }
      else if k >= 8 { assert s[8..][k - 8] == s[k]; }
    }
  }

  /** Neither timestamp reader accepts a text that starts with a space. */
  lemma LeadingSpaceRejected(s: string)
    requires |s| > 0 && s[0] == ' '
    ensures ParseSeconds(s).None? && ParseMicro(s).None?
  {
    if |s| >= 10 {
      assert s[..10][..4][0] == ' ';
      assert !AllDigits(s[..10][..4]);
    }
    if |s| >= 19 {
      assert s[..19][..10][..4][0] == ' ';
      assert !AllDigits(s[..19][..10][..4]);
    }
  }

  /** The timestamp rendered as "%Y-%m-%dT%H:%M:%S". */
  function FormatSeconds(t: DateTime): string
    requires ValidDateTime(t)
  {
    FormatDate(t.date) + "T" + Fixed(t.hour, 2) + ":" + Fixed(t.minute, 2) + ":" + Fixed(t.second, 2)
  }

  /** The timestamp rendered as "%Y-%m-%dT%H:%M:%S.%f" (six fraction digits). */
  function FormatMicro(t: DateTime): string
    requires ValidDateTime(t)
  {
    FormatSeconds(t) + "." + Fixed(t.micro, 6)
  }

  /** `strptime(s, "%Y-%m-%dT%H:%M:%S")` on zero-padded fields; `None` where Python raises `ValueError`. */
  function ParseSeconds(s: string): (r: Option<DateTime>)
    ensures r.Some? ==> ValidDateTime(r.value) && r.value.micro == 0
  {
    if |s| == 19 && s[10] == 'T' && s[13] == ':' && s[16] == ':'
       && AllDigits(s[11..13]) && AllDigits(s[14..16]) && AllDigits(s[17..])
    then
      match ParseDate(s[..10])
      case None => None
      case Some(d) =>
        var t := DateTime(d, DigitsValue(s[11..13]), DigitsValue(s[14..16]), DigitsValue(s[17..]), 0);
        if ValidDateTime(t) then Some(t) else None
    else None
  }

  /** Python's `%f`: one to six digits, padded on the right to microseconds. */
  function Microseconds(f: string): nat
    requires 1 <= |f| <= 6 && AllDigits(f)
  {
    DigitsValue(f) * Pow10(6 - |f|)
  }

  /** `strptime(s, "%Y-%m-%dT%H:%M:%S.%f")` on zero-padded fields; `None` where Python raises `ValueError`. */
  function ParseMicro(s: string): (r: Option<DateTime>)
    ensures r.Some? ==> ValidDateTime(r.value)
  {
    if 21 <= |s| <= 26 && s[19] == '.' && AllDigits(s[20..]) then
      match ParseSeconds(s[..19])
      case None => None
      case Some(t) =>
        var m := Microseconds(s[20..]);
        assert m < 1000000 by { ValueFixed(s[20..]); FractionBound(DigitsValue(s[20..]), |s[20..]|); }
        Some(t.(micro := m))
    else None
  }

  lemma FractionBound(v: nat, w: nat)
    requires 1 <= w <= 6 && v < Pow10(w)
    ensures v * Pow10(6 - w) < 1000000
  {
    assert Pow10(w) * Pow10(6 - w) == 1000000 by {
      assert Pow10(1) == 10 && Pow10(3) == 1000 && Pow10(5) == 100000;
      Pow10Values();
    }
  }

  /** Reading a rendered timestamp gives it back. */
  lemma ParseFormatSeconds(t: DateTime)
    requires ValidDateTime(t) && t.micro == 0
    ensures ParseSeconds(FormatSeconds(t)) == Some(t)
  {
    var s := FormatSeconds(t);
    Pow10Values();
    assert s[..10] == FormatDate(t.date);
    assert s[11..13] == Fixed(t.hour, 2) && s[14..16] == Fixed(t.minute, 2) && s[17..] == Fixed(t.second, 2);
    ParseFormatDate(t.date);
    FixedValue(t.hour, 2);
    FixedValue(t.minute, 2);
    FixedValue(t.second, 2);
  }

  lemma ParseFormatMicro(t: DateTime)
    requires ValidDateTime(t)
    ensures ParseMicro(FormatMicro(t)) == Some(t)
  {
    var s := FormatMicro(t);
    Pow10Values();
    assert s[..19] == FormatSeconds(t) && s[20..] == Fixed(t.micro, 6);
    ParseFormatSeconds(t.(micro := 0));
    assert FormatSeconds(t.(micro := 0)) == FormatSeconds(t);
    FixedValue(t.micro, 6);
  }

  /** The offsets, in days, of the follow-up observations after a trigger. */
  const CadenceOffsets: seq<nat> := [7, 14, 21, 28, 40, 50]

  /**
   * The follow-up dates of a day: its date part moved by each cadence offset
   * and rendered "%Y-%m-%d"; `None` when an offset overflows.
   */
  function CadenceFrom(d: Date): (r: Option<seq<string>>)
    requires ValidDate(d)
    ensures r.None? <==> DayNumber(d) + 50 > DayNumber(LastDate)
    ensures r.Some? ==> |r.value| == |CadenceOffsets|
    ensures r.Some? ==> forall i :: 0 <= i < |CadenceOffsets| ==>
      ParseDate(r.value[i]).Some? && DayNumber(ParseDate(r.value[i]).value) == DayNumber(d) + CadenceOffsets[i]
  {
    if DayNumber(d) + 50 > DayNumber(LastDate) then None
    else Some(FormatOffsets(d, CadenceOffsets))
  }

  /** The dates `offsets` days after `d`, each rendered "%Y-%m-%d". */
  function FormatOffsets(d: Date, offsets: seq<nat>): (r: seq<string>)
    requires ValidDate(d)
    requires forall i :: 0 <= i < |offsets| ==> DayNumber(d) + offsets[i] <= DayNumber(LastDate)
    ensures |r| == |offsets|
    ensures forall i :: 0 <= i < |offsets| ==>
      ParseDate(r[i]).Some? && DayNumber(ParseDate(r[i]).value) == DayNumber(d) + offsets[i]
  {
    var r := seq(|offsets|, i requires 0 <= i < |offsets| => FormatDate(AddDays(d, offsets[i]).value));
    OffsetDatesRead(d, offsets, r);
    r
  }

  lemma OffsetDatesRead(d: Date, offsets: seq<nat>, r: seq<string>)
    requires ValidDate(d)
    requires forall i :: 0 <= i < |offsets| ==> DayNumber(d) + offsets[i] <= DayNumber(LastDate)
    requires |r| == |offsets|
    requires forall i :: 0 <= i < |offsets| ==> r[i] == FormatDate(AddDays(d, offsets[i]).value)
    ensures forall i :: 0 <= i < |offsets| ==>
      ParseDate(r[i]).Some? && DayNumber(ParseDate(r[i]).value) == DayNumber(d) + offsets[i]
  {
    forall i | 0 <= i < |offsets|
      ensures ParseDate(r[i]).Some? && DayNumber(ParseDate(r[i]).value) == DayNumber(d) + offsets[i]
    {
      ParseFormatDate(AddDays(d, offsets[i]).value);
    }
  }

  /**
   * `generate_cadence_dates` of the trigger bots: the six follow-up dates of a
   * "%Y-%m-%dT%H:%M:%S" timestamp; `None` where Python raises.
   */
  function GenerateCadenceDates(start: string): (r: Option<seq<string>>)
    ensures r.Some? <==> ParseSeconds(start).Some? && CadenceFrom(ParseSeconds(start).value.date).Some?
    ensures r.Some? ==> r == CadenceFrom(ParseSeconds(start).value.date)
  {
    match ParseSeconds(start)
    case None => None
    case Some(t) => CadenceFrom(t.date)
  }

  /** The follow-up dates are in strictly increasing calendar order. */
  lemma CadenceIncreasing(d: Date, i: nat, j: nat)
    requires ValidDate(d) && CadenceFrom(d).Some?
    requires i < j < |CadenceOffsets|
    ensures Before(ParseDate(CadenceFrom(d).value[i]).value, ParseDate(CadenceFrom(d).value[j]).value)
  {
    var r := CadenceFrom(d).value;
    var a, b := ParseDate(r[i]).value, ParseDate(r[j]).value;
    OffsetsIncrease(i, j);
    assert DayNumber(a) < DayNumber(b);
    DayNumberOrder(a, b);
  }

  lemma OffsetsIncrease(i: nat, j: nat)
    requires i < j < |CadenceOffsets|
    ensures CadenceOffsets[i] < CadenceOffsets[j]
  {
  }

  /** The time of day plays no part in the follow-up dates. */
  lemma CadenceIgnoresTime(s: string, u: string)
    requires ParseSeconds(s).Some? && ParseSeconds(u).Some?
    requires ParseSeconds(s).value.date == ParseSeconds(u).value.date
    ensures GenerateCadenceDates(s) == GenerateCadenceDates(u)
  {
  }

  /** A follow-up text reads back as the date that many days after the start. */
  lemma CadenceDateIs(d: Date, i: nat, want: Date)
    requires ValidDate(d) && CadenceFrom(d).Some? && i < |CadenceOffsets|
    requires ValidDate(want) && DayNumber(want) == DayNumber(d) + CadenceOffsets[i]
    ensures ParseDate(CadenceFrom(d).value[i]) == Some(want)
  {
    var r := CadenceFrom(d).value;
    DayNumberOrder(ParseDate(r[i]).value, want);
  }

  /**
   * A trigger dated 1 January (of 2025, say) is followed up on 8, 15, 22
   * and 29 January and on 10 and 20 February of that year.
   */
  lemma CadenceFromNewYear(t: DateTime)
    requires ValidDateTime(t) && t.micro == 0
    requires t.date.month == 1 && t.date.day == 1 && t.date.year < MaxYear
    ensures GenerateCadenceDates(FormatSeconds(t)).Some?
    ensures var y, r := t.date.year, GenerateCadenceDates(FormatSeconds(t)).value;
      ParseDate(r[0]) == Some(Date(y, 1, 8)) && ParseDate(r[1]) == Some(Date(y, 1, 15))
      && ParseDate(r[2]) == Some(Date(y, 1, 22)) && ParseDate(r[3]) == Some(Date(y, 1, 29))
      && ParseDate(r[4]) == Some(Date(y, 2, 10)) && ParseDate(r[5]) == Some(Date(y, 2, 20))
  {
    ParseFormatSeconds(t);
    var y := t.date.year;
    assert ParseSeconds(FormatSeconds(t)).value.date == Date(y, 1, 1);
    NewYearFollowUps(y);
  }

  /** The six follow-up dates of the first of January of `y`. */
  lemma NewYearFollowUps(y: int)
    requires 1 <= y < MaxYear
    ensures CadenceFrom(Date(y, 1, 1)).Some?
    ensures var r := CadenceFrom(Date(y, 1, 1)).value;
      ParseDate(r[0]) == Some(Date(y, 1, 8)) && ParseDate(r[1]) == Some(Date(y, 1, 15))
      && ParseDate(r[2]) == Some(Date(y, 1, 22)) && ParseDate(r[3]) == Some(Date(y, 1, 29))
      && ParseDate(r[4]) == Some(Date(y, 2, 10)) && ParseDate(r[5]) == Some(Date(y, 2, 20))
  {
    assert CadenceOffsets[2] == 21 && CadenceOffsets[3] == 28 && CadenceOffsets[4] == 40 && CadenceOffsets[5] == 50;
    NewYearCadence(y);
    var r := CadenceFrom(Date(y, 1, 1)).value;
    assert ParseDate(r[0]) == Some(Date(y, 1, 8)) by { NewYearFollowUp(y, 0, 1, 8); }
    assert ParseDate(r[1]) == Some(Date(y, 1, 15)) by { NewYearFollowUp(y, 1, 1, 15); }
    assert ParseDate(r[2]) == Some(Date(y, 1, 22)) by { NewYearFollowUp(y, 2, 1, 22); }
    assert ParseDate(r[3]) == Some(Date(y, 1, 29)) by { NewYearFollowUp(y, 3, 1, 29); }
    assert ParseDate(r[4]) == Some(Date(y, 2, 10)) by { NewYearFollowUp(y, 4, 2, 10); }
    assert ParseDate(r[5]) == Some(Date(y, 2, 20)) by { NewYearFollowUp(y, 5, 2, 20); }
  }

  lemma NewYearCadence(y: int)
    requires 1 <= y < MaxYear
    ensures CadenceFrom(Date(y, 1, 1)).Some?
  {
    DayNumberOrder(Date(y, 1, 1), LastDate);
  }

  /** The `i`-th follow-up date of the first of January of `y`, given as a day of January or February. */
  lemma NewYearFollowUp(y: int, i: nat, m: int, day: int)
    requires 1 <= y < MaxYear && i < |CadenceOffsets| && (m == 1 || m == 2) && 1 <= day <= 29 && (m == 2 ==> day <= 28)
    requires (if m == 1 then 0 else 31) + day - 1 == CadenceOffsets[i]
    ensures CadenceFrom(Date(y, 1, 1)).Some?
    ensures ParseDate(CadenceFrom(Date(y, 1, 1)).value[i]) == Some(Date(y, m, day))
  {
    NewYearCadence(y);
    assert DayNumber(Date(y, m, day)) == DaysBeforeYear(y) + (if m == 1 then 0 else 31) + day - 1;
    assert DayNumber(Date(y, 1, 1)) == DaysBeforeYear(y);
    CadenceDateIs(Date(y, 1, 1), i, Date(y, m, day));
  }
}
