/** `parseDDMMYYYY`: a loosely typed date value to the `ru-RU` display text.
    The first rule that applies wins: a falsy value is today; a `Date` is
    formatted; otherwise the trimmed text is read as `DDMMYYYY` when it is
    eight digits naming a real day from 1900 on, else handed to the engine's
    generic date parser, else returned as it is. */
module DateParser {
  import opened Wrappers
  import opened Digits
  import opened Calendar
  import opened JsValue

  /** The test `/^\d{8}$/`: exactly eight ASCII digits. */
  predicate IsEightDigits(s: string) {
    |s| == 8 && AllDigits(s)
  }

  /** The day, month and year the three slices of an eight-digit text name. */
  function CompactFields(s: string): (d: CalDate)
    requires IsEightDigits(s)
    ensures 0 <= d.day < 100 && 0 <= d.month < 100 && 0 <= d.year < 10000
  {
    DigitsBound(s[0..2]);
    DigitsBound(s[2..4]);
    DigitsBound(s[4..8]);
    CalDate(DigitsToNat(s[0..2]), DigitsToNat(s[2..4]), DigitsToNat(s[4..8]))
  }

  /** The three fields digit by digit. */
  lemma CompactFieldsDigits(s: string)
    requires IsEightDigits(s)
    ensures CompactFields(s) == CalDate(
              10 * DigitValue(s[0]) + DigitValue(s[1]),
              10 * DigitValue(s[2]) + DigitValue(s[3]),
              1000 * DigitValue(s[4]) + 100 * DigitValue(s[5]) + 10 * DigitValue(s[6]) + DigitValue(s[7]))
  {
    TwoDigits(s[0..2]);
    TwoDigits(s[2..4]);
    FourDigits(s[4..8]);
  }

  /** The `DDMMYYYY` branch: the range test, then the round trip through
      `new Date(year, month - 1, day)`. */
  function CompactDate(s: string): (r: Option<CalDate>)
    ensures r.Some? ==> IsEightDigits(s) && IsValidDate(r.value) && r.value.year >= 1900
  {
    if !IsEightDigits(s) then None
    else
      var day := DigitsToNat(s[0..2]);
      var month := DigitsToNat(s[2..4]);
      var year := DigitsToNat(s[4..8]);
      if 1 <= day <= 31 && 1 <= month <= 12 && year >= 1900 then
        var date := NewDate(year, month - 1, day);
        if date.day == day && date.month == month && date.year == year then Some(date)
        else None
      else None
  }

  /** `new Date(s)`, formatted when valid, and `s` itself when not. */
  function GenericParse(eng: Engine, s: string): (r: string)
    ensures eng.parseDate(s).None? ==> r == s
    ensures eng.parseDate(s).Some? ==> r == Format(eng.parseDate(s).value)
    ensures eng.parseDate(s).Some? ==> IsDateText(r) && '.' in r
  {
    match eng.parseDate(s)
    case Some(date) => Format(date)
    case None => s
  }

  /** Rules 3 to 5, on the trimmed text of the input; `TextRules`,
      `CompactTextDotted`, `CompactInvalidDateFallsThrough` and
      `OtherTextFallsThrough` state what it yields. */
  function ParseText(eng: Engine, dateString: string): string {
    match CompactDate(dateString)
    case Some(date) => Format(date)
    case None => GenericParse(eng, dateString)
  }

  /** The result is a `ru-RU` day text (digits, minus signs and full stops),
      or else the trimmed text of a truthy non-`Date` input passed through
      unread; `ParseResultIsDayText` names the day. */
  function ParseDDMMYYYY(eng: Engine, input: Value): (r: string)
    ensures || (IsDateText(r) && '.' in r)
            || (Truthy(input) && !input.DateObj? && r == Trim(ToJsString(eng, input)))
  {
    if !Truthy(input) then Format(eng.today)
    else if input.DateObj? then Format(input.date)
    else ParseText(eng, Trim(ToJsString(eng, input)))
  }

  /** Every result that is not the input's own trimmed text is the `ru-RU`
      text of a day: today, the `Date` itself, the eight-digit day or the
      generic parser's day. */
  lemma ParseResultIsDayText(eng: Engine, input: Value)
    ensures var r := ParseDDMMYYYY(eng, input);
            || (exists d :: r == Format(d))
            || (Truthy(input) && !input.DateObj? && r == Trim(ToJsString(eng, input)))
  {
    if !Truthy(input) {
      assert ParseDDMMYYYY(eng, input) == Format(eng.today);
    } else if input.DateObj? {
      assert ParseDDMMYYYY(eng, input) == Format(input.date);
    } else {
      var t := Trim(ToJsString(eng, input));
      assert ParseDDMMYYYY(eng, input) == ParseText(eng, t);
      match CompactDate(t)
      case Some(date) =>
        assert ParseText(eng, t) == Format(date);
      case None =>
        match eng.parseDate(t)
        case Some(date) =>
          assert ParseText(eng, t) == Format(date);
        case None =>
    }
  }

  /** The `DDMMYYYY` branch accepts exactly the eight-digit texts that name a
      Gregorian day in a year from 1900 on, and yields that day. */
  lemma CompactDateIsGregorian(s: string)
    ensures CompactDate(s).Some? <==>
              IsEightDigits(s) && IsValidDate(CompactFields(s)) && CompactFields(s).year >= 1900
    ensures CompactDate(s).Some? ==> CompactDate(s).value == CompactFields(s)
  {
    if IsEightDigits(s) {
      var d := CompactFields(s);
      if 1 <= d.day <= 31 && 1 <= d.month <= 12 && d.year >= 1900 {
        NewDateRoundTrip(d.year, d.month, d.day);
      }
    }
  }

  /** A four-digit text worth at least 1900 has no leading zero, so it is the
      text JavaScript writes for that year. */
  lemma YearText(s: string)
    requires |s| == 4 && AllDigits(s) && DigitsToNat(s) >= 1900
    ensures IntToString(DigitsToNat(s)) == s
  {
    assert Pow10(3) == 1000;
    if s[0] == '0' {
      LeadingZero(s);
      DigitsBound(s[1..]);
      assert false;
    }
    DigitsToNatRoundTrip(s);
  }

  /** A leading zero adds nothing to the value. */
  lemma {:induction false} LeadingZero(s: string)
    requires |s| >= 1 && AllDigits(s) && s[0] == '0'
    ensures DigitsToNat(s) == DigitsToNat(s[1..])
  {
    if |s| > 1 {
      var p := s[..|s| - 1];
      assert p[0] == '0';
      LeadingZero(p);
      assert p[1..] == s[1..][..|s| - 2];
    }
  }

  /** Rule 1: a falsy input is today's date, without trimming or parsing. */
  lemma FalsyInputIsToday(eng: Engine, input: Value)
    requires !Truthy(input)
    ensures ParseDDMMYYYY(eng, input) == Format(eng.today)
  {
  }

  /** Rule 3, accepted: an input whose trimmed text is eight digits naming a
      real day from 1900 on is that text with full stops after the day and
      the month. */
  lemma CompactValidDate(eng: Engine, input: Value)
    requires Truthy(input) && !input.DateObj?
    requires var t := Trim(ToJsString(eng, input));
             IsEightDigits(t) && IsValidDate(CompactFields(t)) && CompactFields(t).year >= 1900
    ensures var t := Trim(ToJsString(eng, input));
            ParseDDMMYYYY(eng, input) == t[0..2] + "." + t[2..4] + "." + t[4..8]
  {
    TextRules(eng, input);
    CompactTextDotted(eng, Trim(ToJsString(eng, input)));
  }

  /** Rule 3 on the trimmed text: an accepted code gets full stops after the
      day and the month. */
  lemma CompactTextDotted(eng: Engine, t: string)
    requires IsEightDigits(t) && IsValidDate(CompactFields(t)) && CompactFields(t).year >= 1900
    ensures ParseText(eng, t) == t[0..2] + "." + t[2..4] + "." + t[4..8]
  {
    CompactDateIsGregorian(t);
    var d := CompactFields(t);
    Pad2RoundTrip(t[0..2]);
    Pad2RoundTrip(t[2..4]);
    YearText(t[4..8]);
    FormatLayout(d);
    var r := Format(d);
    assert r[..2] == t[0..2] && r[3..5] == t[2..4] && r[6..] == t[4..8];
    assert r == r[..2] + "." + r[3..5] + "." + r[6..];
  }


  /** Rule 3, refused: an eight-digit text that is not a real day from 1900
      on (day 31 of a 30-day month, 29 February outside a leap year, month
      00, a year before 1900) falls through to the generic parse or to the
      trimmed text itself. */
  lemma CompactInvalidDateFallsThrough(eng: Engine, input: Value)
    requires Truthy(input) && !input.DateObj?
    requires var t := Trim(ToJsString(eng, input));
             IsEightDigits(t) && !(IsValidDate(CompactFields(t)) && CompactFields(t).year >= 1900)
    ensures var t := Trim(ToJsString(eng, input));
            var r := ParseDDMMYYYY(eng, input);
            && r == GenericParse(eng, t)
            && (eng.parseDate(t).None? ==> r == t)
            && (eng.parseDate(t).Some? ==> r == Format(eng.parseDate(t).value))
  {
    var t := Trim(ToJsString(eng, input));
    CompactDateIsGregorian(t);
    assert CompactDate(t) == None;
  }

  /** Rules 4 and 5: any other truthy, non-`Date` input yields the generic
      parse of its trimmed text, or exactly that trimmed text. */
  lemma OtherTextFallsThrough(eng: Engine, input: Value)
    requires Truthy(input) && !input.DateObj?
    requires !IsEightDigits(Trim(ToJsString(eng, input)))
    ensures var t := Trim(ToJsString(eng, input));
            var r := ParseDDMMYYYY(eng, input);
            r == GenericParse(eng, t)
            && (eng.parseDate(t).Some? ==> r == Format(eng.parseDate(t).value))
            && (eng.parseDate(t) == None ==> r == t)
  {
  }

  /** Surrounding white space never changes the outcome for a text whose
      trimmed form is not empty. */
  lemma TrimmedBeforeMatching(eng: Engine, s: string)
    requires Trim(s) != ""
    ensures ParseDDMMYYYY(eng, Str(s)) == ParseDDMMYYYY(eng, Str(Trim(s)))
  {
    var t := Trim(s);
    TrimIdempotent(s);
    assert ToJsString(eng, Str(s)) == s && ToJsString(eng, Str(t)) == t;
    assert Truthy(Str(s)) && Truthy(Str(t));
    TextRules(eng, Str(s));
    TextRules(eng, Str(t));
  }

  /** A text of white space only is truthy, so it is not today: it is the
      generic parse of the empty text. */
  lemma BlankTextIsNotToday(eng: Engine, s: string)
    requires s != "" && Trim(s) == ""
    ensures ParseDDMMYYYY(eng, Str(s)) == GenericParse(eng, "")
  {
    assert Truthy(Str(s)) && ToJsString(eng, Str(s)) == s;
    TextRules(eng, Str(s));
    assert CompactDate("") == None;
  }

  /** A `Date` object is formatted directly. */
  lemma DateObjectIsFormatted(eng: Engine, d: CalDate)
    ensures ParseDDMMYYYY(eng, DateObj(d)) == Format(d)
  {
    assert Truthy(DateObj(d));
  }

  /** Rule 3 for an accepted text without white space. */
  lemma CompactTextAccepted(eng: Engine, s: string)
    requires NoWhitespace(s) && IsEightDigits(s)
    requires IsValidDate(CompactFields(s)) && CompactFields(s).year >= 1900
    ensures ParseDDMMYYYY(eng, Str(s)) == s[0..2] + "." + s[2..4] + "." + s[4..8]
  {
    TrimNoWhitespace(s);
    CompactValidDate(eng, Str(s));
  }

  /** Rule 3 for a refused text without white space. */
  lemma CompactTextRefused(eng: Engine, s: string)
    requires NoWhitespace(s) && IsEightDigits(s)
    requires !(IsValidDate(CompactFields(s)) && CompactFields(s).year >= 1900)
    ensures ParseDDMMYYYY(eng, Str(s)) == GenericParse(eng, s)
  {
    TrimNoWhitespace(s);
    CompactInvalidDateFallsThrough(eng, Str(s));
  }

  /** `String(n)` for a whole number written with at most 21 digits. */
  lemma WholeNumberText(eng: Engine, t: string)
    requires AllDigits(t) && 1 <= |t| <= 21 && t[0] != '0'
    ensures DigitsToNat(t) >= 1
    ensures ToJsString(eng, Num(DigitsToNat(t) as real)) == t
  {
    var n := DigitsToNat(t);
    LeadingDigitBound(t);
    DigitsBound(t);
    Pow10Monotone(|t|, 21);
    Pow10Value21();
    DigitsToNatRoundTrip(t);
    assert IsWholeNumber(n as real);
  }

  /** A whole number is read through its decimal text. */
  lemma WholeNumberIsItsText(eng: Engine, t: string)
    requires AllDigits(t) && 1 <= |t| <= 21 && t[0] != '0'
    ensures ParseDDMMYYYY(eng, Num(DigitsToNat(t) as real)) == ParseDDMMYYYY(eng, Str(t))
  {
    WholeNumberText(eng, t);
    TextRules(eng, Num(DigitsToNat(t) as real));
    TextRules(eng, Str(t));
  }

  /** A truthy input that is not a `Date` is decided by its trimmed text. */
  lemma TextRules(eng: Engine, input: Value)
    requires Truthy(input) && !input.DateObj?
    ensures ParseDDMMYYYY(eng, input) == ParseText(eng, Trim(ToJsString(eng, input)))
  {
  }

  /** A number from 1 to 9999999 has at most seven digits, so it never takes
      the `DDMMYYYY` branch: an eight-digit code for days 01 to 09 given as a
      number has lost its leading zero. */
  lemma ShortNumberIsNotCompact(eng: Engine, n: nat)
    requires 1 <= n < 10_000_000
    ensures ParseDDMMYYYY(eng, Num(n as real)) == GenericParse(eng, NatToDigits(n))
  {
    var t := NatToDigits(n);
    var x := n as real;
    assert Pow10(7) == 10_000_000;
    NatToDigitsLength(n, 7);
    assert x.Floor == n && IsWholeNumber(x);
    assert ToJsString(eng, Num(x)) == IntToString(n) == t;
    assert NoWhitespace(t);
    TrimNoWhitespace(t);
    TextRules(eng, Num(x));
    assert CompactDate(t) == None;
  }

  lemma EightDigitsSplit(s: string)
    requires IsEightDigits(s)
    ensures DigitsToNat(s) == DigitsToNat(s[..4]) * 10000 + DigitsToNat(s[4..])
  {
    assert s == s[..4] + s[4..];
    assert AllDigits(s[..4]) && AllDigits(s[4..]);
    DigitsConcat(s[..4], s[4..]);
    assert Pow10(4) == 10000;
  }

  /** The eight-digit code of a day: two-digit day, two-digit month and
      four-digit year. */
  function DateCode(d: CalDate): string {
    Pad2(d.day) + Pad2(d.month) + IntToString(d.year)
  }

  /** A four-digit year is written with exactly four digits. */
  lemma FourDigitYear(year: int)
    requires 1000 <= year < 10000
    ensures |IntToString(year)| == 4 && AllDigits(IntToString(year))
    ensures DigitsToNat(IntToString(year)) == year
  {
    var t := NatToDigits(year);
    assert Pow10(3) == 1000 && Pow10(4) == 10000;
    NatToDigitsLength(year, 4);
    NatToDigitsRoundTrip(year);
    if |t| < 4 {
      DigitsBound(t);
      Pow10Monotone(|t|, 3);
      assert false;
    }
  }

  /** The code of a real day from 1900 to 9999 is eight digits whose
      slices name that day. */
  lemma DateCodeFields(d: CalDate)
    requires IsValidDate(d) && 1900 <= d.year < 10000
    ensures IsEightDigits(DateCode(d)) && CompactFields(DateCode(d)) == d
  {
    var code := DateCode(d);
    FourDigitYear(d.year);
    assert code[0..2] == Pad2(d.day) && code[2..4] == Pad2(d.month) && code[4..8] == IntToString(d.year);
  }

  /** A non-empty text without white space goes straight to rules 3 to 5. */
  lemma PlainText(eng: Engine, s: string)
    requires s != "" && NoWhitespace(s)
    ensures ParseDDMMYYYY(eng, Str(s)) == ParseText(eng, s)
  {
    assert Truthy(Str(s)) && ToJsString(eng, Str(s)) == s;
    TrimNoWhitespace(s);
    TextRules(eng, Str(s));
  }

  /** Round trip: the code of any real day from 1900 to 9999 is read back as
      that day. */
  lemma DateCodeRoundTrip(eng: Engine, d: CalDate)
    requires IsValidDate(d) && 1900 <= d.year < 10000
    ensures ParseDDMMYYYY(eng, Str(DateCode(d))) == Format(d)
  {
    var code := DateCode(d);
    DateCodeFields(d);
    PlainText(eng, code);
    CompactDateIsGregorian(code);
  }

  /** The code of a real day from 1900 to 9999 with white space around it
      is still read as that day. */
  lemma PaddedDateCode(eng: Engine, before: string, d: CalDate, after: string)
    requires IsValidDate(d) && 1900 <= d.year < 10000
    requires forall k :: 0 <= k < |before| ==> IsJsWhitespace(before[k])
    requires forall k :: 0 <= k < |after| ==> IsJsWhitespace(after[k])
    ensures ParseDDMMYYYY(eng, Str(before + DateCode(d) + after)) == Format(d)
  {
    var t := DateCode(d);
    DateCodeFields(d);
    assert IsDigit(t[0]) && IsDigit(t[7]);
    TrimSurrounded(before, t, after);
    TrimmedBeforeMatching(eng, before + t + after);
    DateCodeRoundTrip(eng, d);
  }

  /** The value of a date code: `DDMMYYYY` read as a decimal number. */
  lemma DateCodeValue(d: CalDate)
    requires IsValidDate(d) && 1900 <= d.year < 10000
    ensures IsEightDigits(DateCode(d))
    ensures DigitsToNat(DateCode(d)) == d.day * 1_000_000 + d.month * 10_000 + d.year
  {
    var t := DateCode(d);
    DateCodeFields(d);
    EightDigitsSplit(t);
    var h := t[..4];
    assert h[..2] == t[0..2] && h[2..] == t[2..4] && t[4..] == t[4..8];
    assert h[..2][0] == h[0] && h[..2][1] == h[1] && h[2..][0] == h[2] && h[2..][1] == h[3];
    TwoDigits(h[..2]);
    TwoDigits(h[2..]);
    FourDigits(h);
    assert DigitsToNat(h) == 100 * d.day + d.month;
  }

  /** Round trip through a number: the code of a real day from the 10th of
      a month on, from 1900 to 9999, given as the number `DDMMYYYY` rather
      than as text, is read back as that day. */
  lemma DateNumberRoundTrip(eng: Engine, d: CalDate)
    requires IsValidDate(d) && d.day >= 10 && 1900 <= d.year < 10000
    ensures ParseDDMMYYYY(eng, Num((d.day * 1_000_000 + d.month * 10_000 + d.year) as real)) == Format(d)
  {
    var t := DateCode(d);
    DateCodeValue(d);
    TwoDigits(t[0..2]);
    assert t[0] != '0';
    WholeNumberIsItsText(eng, t);
    DateCodeRoundTrip(eng, d);
  }
}

/** Worked inputs for `parseDDMMYYYY`: accepted and refused eight-digit
    codes, padding, and numbers. */
module DateParserExamples {
  // The code and the `ru-RU` text of each literal day are separate lemmas
  // so that each literal comparison is proved on its own.
  import opened Digits
  import opened Calendar
  import opened JsValue
  import opened DateParser

  lemma NewYear2024Code()
    ensures DateCode(CalDate(1, 1, 2024)) == "01012024"
  {
  }

  lemma NewYear2024Format()
    ensures Format(CalDate(1, 1, 2024)) == "01.01.2024"
  {
  }

  /** "01012024" is 1 January 2024. */
  lemma NewYear2024(eng: Engine)
    ensures ParseDDMMYYYY(eng, Str("01012024")) == "01.01.2024"
  {
    DateCodeRoundTrip(eng, CalDate(1, 1, 2024));
    NewYear2024Code();
    NewYear2024Format();
  }

  lemma LeapDay2024Code()
    ensures DateCode(CalDate(29, 2, 2024)) == "29022024"
  {
  }

  lemma LeapDay2024Format()
    ensures Format(CalDate(29, 2, 2024)) == "29.02.2024"
  {
  }

  /** 29 February 2024 exists. */
  lemma LeapDay2024(eng: Engine)
    ensures ParseDDMMYYYY(eng, Str("29022024")) == "29.02.2024"
  {
    DateCodeRoundTrip(eng, CalDate(29, 2, 2024));
    LeapDay2024Code();
    LeapDay2024Format();
  }

  lemma NewYearsEveCode()
    ensures DateCode(CalDate(31, 12, 2023)) == "31122023"
  {
  }

  lemma NewYearsEveFormat()
    ensures Format(CalDate(31, 12, 2023)) == "31.12.2023"
  {
  }

  /** Surrounding white space is trimmed before the eight-digit test. */
  lemma PaddedNewYearsEve(eng: Engine, s: string)
    requires s == " 31122023\n"
    ensures ParseDDMMYYYY(eng, Str(s)) == "31.12.2023"
  {
    var d := CalDate(31, 12, 2023);
    NewYearsEveCode();
    assert s == " " + DateCode(d) + "\n";
    PaddedDateCode(eng, " ", d, "\n");
    NewYearsEveFormat();
  }

  /** The number 31122023 is 31 December 2023. */
  lemma NumericNewYearsEve(eng: Engine, x: real)
    requires x == 31122023.0
    ensures ParseDDMMYYYY(eng, Num(x)) == "31.12.2023"
  {
    DateNumberRoundTrip(eng, CalDate(31, 12, 2023));
    NewYearsEveFormat();
  }

  /** 29 February 2023 does not exist: 2023 is not a leap year. */
  lemma NoLeapDay2023(eng: Engine, s: string)
    requires s == "29022023"
    ensures ParseDDMMYYYY(eng, Str(s)) == GenericParse(eng, s)
  {
    CompactFieldsDigits(s);
    CompactTextRefused(eng, s);
  }

  /** 29 February 1900 does not exist: 1900 is a century year not divisible
      by 400. */
  lemma NoLeapDay1900(eng: Engine, s: string)
    requires s == "29021900"
    ensures ParseDDMMYYYY(eng, Str(s)) == GenericParse(eng, s)
  {
    CompactFieldsDigits(s);
    CompactTextRefused(eng, s);
  }

  /** 31 April does not exist. */
  lemma NoApril31(eng: Engine, s: string)
    requires s == "31042023"
    ensures ParseDDMMYYYY(eng, Str(s)) == GenericParse(eng, s)
  {
    CompactFieldsDigits(s);
    CompactTextRefused(eng, s);
  }

  /** Month 00 is out of range. */
  lemma NoMonthZero(eng: Engine, s: string)
    requires s == "15002023"
    ensures ParseDDMMYYYY(eng, Str(s)) == GenericParse(eng, s)
  {
    CompactFieldsDigits(s);
    CompactTextRefused(eng, s);
  }

  /** A year before 1900 is out of range. */
  lemma NoYear1899(eng: Engine, s: string)
    requires s == "01011899"
    ensures ParseDDMMYYYY(eng, Str(s)) == GenericParse(eng, s)
  {
    CompactFieldsDigits(s);
    CompactTextRefused(eng, s);
  }
}
