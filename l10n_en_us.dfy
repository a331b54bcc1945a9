/** content/l10n/en-us.js: `dateTimeFormatter`, which shows an article's
    date as a 12-hour time ("10:30 AM") when it is from today and as a
    short date ("Jan 5, 2010") otherwise. The `Date` getters are the
    fields of `LocalDate`; JavaScript's number-to-string conversion of
    integers is written out as `IntString`. */
module L10nEnUs {

  type Hour = h: int | 0 <= h < 24
  type Minute = m: int | 0 <= m < 60
  type Month = m: int | 0 <= m < 12
  type Day = d: int | 1 <= d <= 31 witness 1

  /** What `getHours`, `getMinutes`, `getMonth`, `getDate` and
      `getFullYear` return. */
  datatype LocalDate = LocalDate(hours: Hour, minutes: Minute, month: Month, day: Day, fullYear: int)

  const Months: seq<string> := ["Jan", "Feb", "Mar", "Apr", "May", "Jun", "Jul", "Aug", "Sep", "Oct", "Nov", "Dec"]

  // ---------------------------------------------------------------------
  // Decimal strings

  predicate IsDigit(c: char) {
    '0' <= c <= '9'
  }

  /** The decimal digits of `n`, without leading zeros. */
  function Digits(n: nat): (s: string)
    ensures |s| >= 1 && forall k :: 0 <= k < |s| ==> IsDigit(s[k])
    ensures n < 10 <==> |s| == 1
  {
    if n < 10 then [(48 + n) as char] else Digits(n / 10) + [(48 + n % 10) as char]
  }

  /** The value of a string of digits, read left to right. */
  function ValueOf(s: string): nat
    requires forall k :: 0 <= k < |s| ==> IsDigit(s[k])
  {
    if s == [] then 0
    else
      assert IsDigit(s[|s| - 1]);
      ValueOf(s[..|s| - 1]) * 10 + (s[|s| - 1] as int - 48)
  }

  lemma {:induction false} DigitsRoundTrip(n: nat)
    ensures ValueOf(Digits(n)) == n
  {
    if n >= 10 {
      var s := Digits(n);
      assert s[..|s| - 1] == Digits(n / 10);
      DigitsRoundTrip(n / 10);
    }
  }

  lemma DigitsInjective(a: nat, b: nat)
    ensures Digits(a) == Digits(b) <==> a == b
  {
    if Digits(a) == Digits(b) {
      DigitsRoundTrip(a);
      DigitsRoundTrip(b);
    }
  }

  /** `n + ""` for an integer `n`. */
  function IntString(n: int): (s: string)
    ensures |s| >= 1
    ensures n >= 0 ==> s == Digits(n)
    ensures n < 0 ==> s == "-" + Digits(-n)
  {
    if n >= 0 then Digits(n) else "-" + Digits(-n)
  }

  /** Only a negative number starts with a minus sign. */
  lemma SignShows(nonNegative: int, negative: int)
    requires nonNegative >= 0 > negative
    ensures IntString(nonNegative)[0] != IntString(negative)[0]
  {
    assert IsDigit(IntString(nonNegative)[0]);
  }

  lemma IntStringInjective(a: int, b: int)
    requires IntString(a) == IntString(b)
    ensures a == b
  {
    if a < 0 && b < 0 {
      assert Digits(-a) == IntString(a)[1..];
      DigitsInjective(-a, -b);
    } else if a >= 0 && b >= 0 {
      DigitsInjective(a, b);
    } else if a >= 0 {
      SignShows(a, b);
      assert false;
    } else {
      SignShows(b, a);
      assert false;
    }
  }

  // ---------------------------------------------------------------------
  // The formatter

  /** The hour on a 12-hour clock: midnight is 12, the afternoon hours
      lose 12, the others are kept. */
  function TwelveHourHours(hours: Hour): (h: int)
    ensures 1 <= h <= 12
    ensures h % 12 == hours % 12
    ensures hours == 0 ==> h == 12
    ensures 1 <= hours <= 12 ==> h == hours
    ensures hours > 12 ==> h == hours - 12
  {
    if hours == 0 then 12 else if hours > 12 then hours - 12 else hours
  }

  function AmPm(hours: Hour): (s: string)
    ensures s == "AM" <==> hours < 12
    ensures s == "AM" || s == "PM"
  {
    if hours < 12 then "AM" else "PM"
  }

  /** The minutes, with a leading zero below 10. */
  function PaddedMinutes(minutes: Minute): (s: string)
    ensures |s| == 2 && IsDigit(s[0]) && IsDigit(s[1])
    ensures ValueOf(s) == minutes
  {
    var digits := Digits(minutes);
    DigitsRoundTrip(minutes);
    if |digits| < 2 then
      var s := "0" + digits;
      assert s[..1] == "0";
      s
    else
      digits
  }

  /** `dateTimeFormatter`. */
  function DateTimeFormatter(date: LocalDate, sameDay: bool): string {
    if sameDay then
      IntString(TwelveHourHours(date.hours)) + ":" + PaddedMinutes(date.minutes) + " " + AmPm(date.hours)
    else
      Months[date.month] + " " + IntString(date.day) + ", " + IntString(date.fullYear)
  }

  lemma SeparatorAt(a: string, b: string, sep: char)
    ensures (a + [sep] + b)[|a|] == sep
  {
  }

  /** A string that contains `sep` once, after a part without it, splits
      there uniquely. */
  lemma SplitAt(a: string, b: string, c: string, d: string, sep: char)
    requires sep !in a && sep !in c
    requires a + [sep] + b == c + [sep] + d
    ensures a == c && b == d
  {
    var s := a + [sep] + b;
    if |a| < |c| {
      SeparatorAt(a, b, sep);
      assert false;
    } else if |c| < |a| {
      SeparatorAt(c, d, sep);
      assert false;
    }
    assert a == s[..|a|] && c == s[..|c|];
    assert b == s[|a| + 1..] && d == s[|c| + 1..];
  }

  /** A time of day is shown as `H:MM AM` or `H:MM PM`, with the hour in
      1..12, and two different times of day are never shown alike. */
  lemma SameDayShowsTheTime(a: LocalDate, b: LocalDate)
    ensures var h := TwelveHourHours(a.hours);
            DateTimeFormatter(a, true) == IntString(h) + ":" + PaddedMinutes(a.minutes) + " " + AmPm(a.hours) &&
            1 <= h <= 12
    ensures DateTimeFormatter(a, true) == DateTimeFormatter(b, true) ==>
              a.hours == b.hours && a.minutes == b.minutes
  {
    var ha, hb := IntString(TwelveHourHours(a.hours)), IntString(TwelveHourHours(b.hours));
    var ra := PaddedMinutes(a.minutes) + " " + AmPm(a.hours);
    var rb := PaddedMinutes(b.minutes) + " " + AmPm(b.hours);
    if DateTimeFormatter(a, true) == DateTimeFormatter(b, true) {
      assert DateTimeFormatter(a, true) == ha + [':'] + ra;
      assert DateTimeFormatter(b, true) == hb + [':'] + rb;
      assert ':' !in ha && ':' !in hb by {
        assert forall k :: 0 <= k < |ha| ==> IsDigit(ha[k]);
        assert forall k :: 0 <= k < |hb| ==> IsDigit(hb[k]);
      }
      SplitAt(ha, ra, hb, rb, ':');
      IntStringInjective(TwelveHourHours(a.hours), TwelveHourHours(b.hours));
      assert PaddedMinutes(a.minutes) == ra[..2] == rb[..2] == PaddedMinutes(b.minutes);
      assert AmPm(a.hours) == ra[3..] == rb[3..] == AmPm(b.hours);
    }
  }

  /** Another day is shown as `Mon D, YYYY`, and two different dates are
      never shown alike. */
  lemma OtherDayShowsTheDate(a: LocalDate, b: LocalDate)
    ensures DateTimeFormatter(a, false) ==
            Months[a.month] + " " + IntString(a.day) + ", " + IntString(a.fullYear)
    ensures DateTimeFormatter(a, false) == DateTimeFormatter(b, false) ==>
              a.month == b.month && a.day == b.day && a.fullYear == b.fullYear
  {
    var sa, sb := DateTimeFormatter(a, false), DateTimeFormatter(b, false);
    if sa == sb {
      assert |Months[a.month]| == 3 && |Months[b.month]| == 3;
      assert Months[a.month] == sa[..3] == sb[..3] == Months[b.month];
      assert a.month == b.month;
      var da, db := IntString(a.day), IntString(b.day);
      var ya, yb := " " + IntString(a.fullYear), " " + IntString(b.fullYear);
      assert sa[4..] == da + [','] + ya;
      assert sb[4..] == db + [','] + yb;
      assert ',' !in da && ',' !in db by {
        assert forall k :: 0 <= k < |da| ==> IsDigit(da[k]);
        assert forall k :: 0 <= k < |db| ==> IsDigit(db[k]);
      }
      SplitAt(da, ya, db, yb, ',');
      IntStringInjective(a.day, b.day);
      assert IntString(a.fullYear) == ya[1..] == yb[1..] == IntString(b.fullYear);
      IntStringInjective(a.fullYear, b.fullYear);
    }
  }
}
