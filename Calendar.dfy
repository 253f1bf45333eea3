/** The proleptic Gregorian calendar as JavaScript's `Date` sees it in a
    local time zone where every day has a midnight: leap years, month
    lengths, the overflow rule of `new Date(y, m, d)`, and the `ru-RU` short
    date text `DD.MM.YYYY`. */
module Calendar {
  import opened Digits

  /** A calendar day in local time; month is 1-based. */
  datatype CalDate = CalDate(day: int, month: int, year: int)

  predicate IsLeapYear(year: int) {
    (year % 4 == 0 && year % 100 != 0) || year % 400 == 0
  }

  function DaysInMonth(year: int, month: int): (n: int)
    requires 1 <= month <= 12
    ensures 28 <= n <= 31
    ensures month == 2 ==> (n == 29 <==> IsLeapYear(year))
  {
    if month == 2 then (if IsLeapYear(year) then 29 else 28)
    else if month == 4 || month == 6 || month == 9 || month == 11 then 30
    else 31
  }

  /** The day exists in the Gregorian calendar. */
  predicate IsValidDate(d: CalDate) {
    1 <= d.month <= 12 && 1 <= d.day <= DaysInMonth(d.year, d.month)
  }

  /** Day `day` counted from the first of `month` in `year`: a day past the
      end of the month carries into the next month (and year), as the
      `Date` constructor does. */
  function Normalize(year: int, month: int, day: int): (d: CalDate)
    requires 1 <= month <= 12 && day >= 1
    ensures IsValidDate(d)
    decreases day
  {
    var len := DaysInMonth(year, month);
    if day <= len then CalDate(day, month, year)
    else if month == 12 then Normalize(year + 1, 1, day - len)
    else Normalize(year, month + 1, day - len)
  }

  /** `new Date(year, monthIndex, day)` for a 0-based month index and a
      positive day; a year from 0 to 99 means 1900 plus that year. */
  function NewDate(year: int, monthIndex: int, day: int): (d: CalDate)
    requires 0 <= monthIndex <= 11 && day >= 1
    ensures IsValidDate(d)
  {
    var fullYear := if 0 <= year <= 99 then 1900 + year else year;
    Normalize(fullYear, monthIndex + 1, day)
  }

  /** The round trip `new Date(y, m - 1, d)` then reading back the day,
      month and year gives the same three numbers exactly when they name a
      real Gregorian day. */
  lemma NewDateRoundTrip(year: int, month: int, day: int)
    requires 1 <= month <= 12 && 1 <= day <= 31 && !(0 <= year <= 99)
    ensures NewDate(year, month - 1, day) == CalDate(day, month, year)
            <==> IsValidDate(CalDate(day, month, year))
  {
    var len := DaysInMonth(year, month);
    if day > len {
      assert month != 12;
      assert day - len <= DaysInMonth(year, month + 1);
      assert Normalize(year, month, day) == Normalize(year, month + 1, day - len);
      assert Normalize(year, month + 1, day - len) == CalDate(day - len, month + 1, year);
    }
  }

  /** Text made only of digits, minus signs and full stops: no white space. */
  predicate IsDateText(s: string) {
    forall k :: 0 <= k < |s| ==> IsDigit(s[k]) || s[k] == '-' || s[k] == '.'
  }

  /** Two decimal digits, with a leading zero below ten. */
  function Pad2(n: int): (s: string)
    ensures IsDateText(s)
    ensures 0 <= n < 100 ==> |s| == 2 && AllDigits(s) && DigitsToNat(s) == n
  {
    if 0 <= n < 10 then
      assert DigitsToNat("0" + NatToDigits(n)) == n by {
        TwoDigits("0" + NatToDigits(n));
      }
      "0" + NatToDigits(n)
    else
      assert 10 <= n < 100 ==> DigitsToNat(IntToString(n)) == n by {
        if 10 <= n < 100 { NatToDigitsRoundTrip(n); }
      }
      IntToString(n)
  }

  /** Padding the value of a two-digit string gives the string back. */
  lemma Pad2RoundTrip(s: string)
    requires |s| == 2 && AllDigits(s)
    ensures Pad2(DigitsToNat(s)) == s
  {
    if s[0] == '0' {
      TwoDigits(s);
    } else {
      DigitsBound(s);
      LeadingDigitBound(s);
      DigitsToNatRoundTrip(s);
    }
  }

  /** `toLocaleDateString('ru-RU')`: two-digit day, two-digit month and the
      year, separated by full stops. */
  function Format(d: CalDate): (s: string)
    ensures IsDateText(s) && '.' in s
  {
    var s := Pad2(d.day) + "." + Pad2(d.month) + "." + IntToString(d.year);
    assert s[|Pad2(d.day)|] == '.';
    s
  }

  /** For a real day the text is laid out as `DD.MM.` and then the year. */
  lemma FormatLayout(d: CalDate)
    requires IsValidDate(d)
    ensures var s := Format(d);
            && |s| >= 7 && s[2] == '.' && s[5] == '.'
            && s[..2] == Pad2(d.day) && s[3..5] == Pad2(d.month) && s[6..] == IntToString(d.year)
  {
  }
}
