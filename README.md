# Chart data normaliser and chart panel, in Dafny

This project models the data path of a small dashboard page. A webhook
returns an untyped JSON payload. `processData` turns that payload into chart
records, and `parseDDMMYYYY` turns every date it finds into `DD.MM.YYYY`
text. The chart panel then shows three totals and draws the visible series
as lines or bars.

The files:

- `Wrappers.dfy` holds `Option`.
- `Digits.dfy` covers what `parseInt` reads from a digit string and the decimal text JavaScript writes for a whole number.
- `Calendar.dfy` covers the Gregorian calendar, the day overflow of `new Date(y, m, d)` and the `ru-RU` date text.
- `JsValue.dfy` defines the JavaScript values the normaliser sees: truthiness, `String(x)`, `trim`, property reads and the `in` operator.
- `DateParser.dfy` holds `parseDDMMYYYY` and the worked date inputs.
- `DataNormalizer.dfy` holds `processData` and the worked payloads.
- `Chart.dfy` holds the chart panel: the visibility and chart-type state (a class), the series choice and the totals.

Four engine behaviours are parameters, bundled in `JsValue.Engine`:

- the current local day;
- the generic `new Date(string)` parser, which may refuse a text;
- the text of a number that is not a whole number below 10^21;
- the `toString` text of a `Date`.

Every property below holds for every engine.

Four behaviours of the code are easy to misread:

- **Default date of an array element.** When no date field is truthy, the code passes today's `DD.MM.YYYY` text through `parseDDMMYYYY` again, and so through the generic parser. The result is today's text when that parser refuses it (`DataNormalizer.ArrayDefaultDate`).
- **Dates that cannot be read.** They pass through as the trimmed text; they do not fall back to today. A non-empty text that trims to nothing goes to the generic parser with the empty string.
- **Object payloads.** They rank the numeric aliases English first. They read an embedded date only under `Дата`, `дата`, `Date` and `date`; `DATE`, `day` and `Day` are read only from array elements (`DataNormalizerExamples.AliasOrderDiffers`, `DataNormalizer.EntryDatedByKey`).
- **Numeric fields.** They are not coerced and need not be non-negative. A field keeps any truthy payload value (a string, a negative number), else it is `0` (`DataNormalizer.FieldsAreTruthyOrZero`).

## Model

| member | source | states |
|---|---|---|
| Digits.NatToDigits | app/page.tsx:37 | the decimal text of a whole number is non-empty, all digits, without a leading zero, and one digit long exactly below 10 |
| Digits.DigitsToNat | app/page.tsx:46-48 | `parseInt` of a digit string is below 10 to the power of its length |
| Digits.IntToString | app/page.tsx:37 | `String(n)` for a whole number: digits and a minus sign only, the plain decimal text for n >= 0 |
| Digits.TwoDigits | app/page.tsx:46-47 | `parseInt` of a two-digit slice is ten times the first digit plus the second |
| Digits.FourDigits | app/page.tsx:48 | `parseInt` of a four-digit slice, digit by digit |
| Digits.DigitsConcat | app/page.tsx:46-48 | the value of two digit strings written one after the other is the first's value times 10^(length of the second) plus the second's value |
| Digits.NatToDigitsRoundTrip | app/page.tsx:37 | reading back the text JavaScript writes for n gives n |
| Digits.DigitsToNatRoundTrip | app/page.tsx:46-48 | writing the value of a digit string with no leading zero gives the string back |
| Calendar.DaysInMonth | app/page.tsx:51-52 | month lengths are 28 to 31, and February has 29 days exactly in a Gregorian leap year |
| Calendar.Normalize | app/page.tsx:51 | the day overflow of the `Date` constructor always lands on a real calendar day |
| Calendar.NewDate | app/page.tsx:51 | `new Date(year, monthIndex, day)` is a real calendar day |
| Calendar.NewDateRoundTrip | app/page.tsx:51-52 | `new Date(y, m - 1, d)` reads back as the same day, month and year if and only if they name a real day |
| Calendar.Pad2 | app/page.tsx:53 | a day or month below 100 is written as exactly two digits worth that number |
| Calendar.Pad2RoundTrip | app/page.tsx:53 | padding the value of any two-digit text gives that text back |
| Calendar.Format | app/page.tsx:53 | the `ru-RU` text holds only digits, minus signs and full stops (no white space), and holds a full stop |
| Calendar.FormatLayout | app/page.tsx:53 | for a real day the text is the two-digit day, a full stop, the two-digit month, a full stop, then the year |
| JsValue.Trim | app/page.tsx:37 | `trim` returns a middle slice whose removed ends are all white space and whose own ends are not |
| JsValue.FalsyValues | app/page.tsx:30 | exactly `undefined`, `null`, `false`, `0`, `NaN` and `""` are falsy |
| JsValue.NumberText | app/page.tsx:37 | `String(x)` of a whole number from 0 below 10^21 is a digit string worth x |
| JsValue.SingleElementText | app/page.tsx:37 | `String([x])` is `String(x)`, or `""` for `null` and `undefined` |
| JsValue.TrimNoWhitespace | app/page.tsx:37 | text without white space is unchanged by `trim` |
| JsValue.TrimSurrounded | app/page.tsx:37 | `trim` removes exactly the white space around a text |
| JsValue.TrimIdempotent | app/page.tsx:37 | trimming twice is trimming once |
| JsValue.Lookup | app/page.tsx:73 | a property read yields the first entry under the key, or `undefined` when there is none |
| JsValue.Get | app/page.tsx:100 | reading one of the normaliser's alias keys from anything but a plain object yields `undefined` |
| JsValue.MissingPropertyIsUndefined | app/page.tsx:91-92 | a key that fails the `in` test reads as `undefined` |
| JsValue.PresentPropertyIsStored | app/page.tsx:91-92 | a key that passes the `in` test reads as a value stored under it |
| DateParser.CompactFields | app/page.tsx:41-48 | the three slices of an eight-digit text give day and month below 100 and a year below 10000 |
| DateParser.CompactFieldsDigits | app/page.tsx:41-48 | the day, month and year are the first two, next two and last four digits |
| DateParser.CompactDate | app/page.tsx:40-56 | the eight-digit branch yields only a real day from 1900 on, and only for an eight-digit text |
| DateParser.GenericParse | app/page.tsx:59-65 | a refused text comes back unchanged; an accepted one comes back as the `ru-RU` text of the parsed day |
| DateParser.ParseDDMMYYYY | app/page.tsx:29-66 | the result is a `ru-RU` day text (digits, minus signs and full stops, with at least one full stop), or the trimmed `String` text of a truthy non-`Date` input |
| DateParser.ParseResultIsDayText | app/page.tsx:29-66 | every result other than the input's own trimmed text is the `ru-RU` text of some day: today, the `Date` itself, the eight-digit day or the generic parser's day |
| DateParser.CompactDateIsGregorian | app/page.tsx:40-56 | the eight-digit branch accepts a text if and only if its fields name a real day from 1900 on, and yields that day |
| DateParser.YearText | app/page.tsx:48 | a four-digit year from 1900 on is written back as the same four digits |
| DateParser.FalsyInputIsToday | app/page.tsx:30 | a falsy input is today's text, without trimming or parsing |
| DateParser.DateObjectIsFormatted | app/page.tsx:33-35 | a `Date` input is its own `DD.MM.YYYY` text |
| DateParser.CompactValidDate | app/page.tsx:37-56 | a truthy non-`Date` input whose trimmed text is a valid eight-digit date becomes `t[0..2] + "." + t[2..4] + "." + t[4..8]` |
| DateParser.CompactTextDotted | app/page.tsx:39-53 | an accepted eight-digit text `DDMMYYYY` is printed by `ru-RU` as `DD.MM.YYYY`: the digits are kept and only two full stops are inserted |
| DateParser.CompactInvalidDateFallsThrough | app/page.tsx:40-65 | an eight-digit text naming no real day from 1900 on goes to the generic parser, and comes back as the trimmed text when the parser refuses it |
| DateParser.OtherTextFallsThrough | app/page.tsx:59-65 | any other trimmed text goes to the generic parser: it becomes the `ru-RU` text of the parsed day when the parser accepts it, and is passed through when the parser refuses it |
| DateParser.TrimmedBeforeMatching | app/page.tsx:37 | surrounding white space never changes the result for a text that is not blank |
| DateParser.BlankTextIsNotToday | app/page.tsx:30-37 | a non-empty text of white space only is truthy, so it is not today: it goes to the generic parser as `""` |
| DateParser.CompactTextAccepted | app/page.tsx:40-53 | an eight-digit text naming a real day from 1900 on becomes its digits with full stops after the day and the month |
| DateParser.CompactTextRefused | app/page.tsx:50-59 | any other eight-digit text is handed to the generic parser |
| DateParser.WholeNumberText | app/page.tsx:37 | the text of a whole number of up to 21 digits is its decimal digits |
| DateParser.WholeNumberIsItsText | app/page.tsx:37 | a whole number is parsed exactly as its decimal text is |
| DateParser.TextRules | app/page.tsx:30-37 | a truthy input that is not a `Date` is decided by its trimmed `String` text |
| DateParser.ShortNumberIsNotCompact | app/page.tsx:37-40 | a number from 1 to 9999999 never takes the eight-digit branch, so a day 01 to 09 given as a number is lost |
| DateParser.EightDigitsSplit | app/page.tsx:46-48 | an eight-digit text is worth its first four digits times 10000 plus its last four |
| DateParser.DateCodeFields | app/page.tsx:41-48 | the `DDMMYYYY` code of a real day from 1900 to 9999 is eight digits whose slices name that day |
| DateParser.PlainText | app/page.tsx:37 | a non-empty text without white space goes straight to the eight-digit test |
| DateParser.DateCodeRoundTrip | app/page.tsx:37-56 | round trip: the `DDMMYYYY` code of any real day from 1900 to 9999 is read back as that day's text |
| DateParser.PaddedDateCode | app/page.tsx:37-56 | the code of a real day from 1900 to 9999 with any white space around it is still read back as that day |
| DateParser.DateCodeValue | app/page.tsx:46-48 | a date code read as a number is `day * 10^6 + month * 10^4 + year` |
| DateParser.DateNumberRoundTrip | app/page.tsx:37-56 | round trip through a number: `DDMMYYYY` given as a number, for a day from the 10th on, is read back as that day |
| DateParserExamples.NewYear2024 | app/page.tsx:40-53 | `"01012024"` becomes `"01.01.2024"` |
| DateParserExamples.LeapDay2024 | app/page.tsx:50-53 | `"29022024"` becomes `"29.02.2024"` |
| DateParserExamples.PaddedNewYearsEve | app/page.tsx:37-53 | `" 31122023\n"` becomes `"31.12.2023"` |
| DateParserExamples.NumericNewYearsEve | app/page.tsx:37-53 | the number 31122023 becomes `"31.12.2023"` |
| DateParserExamples.NoLeapDay2023 | app/page.tsx:51-59 | `"29022023"` fails the round trip and goes to the generic parser |
| DateParserExamples.NoLeapDay1900 | app/page.tsx:51-59 | `"29021900"` fails the round trip (1900 is not a leap year) |
| DateParserExamples.NoApril31 | app/page.tsx:51-59 | `"31042023"` fails the round trip (April has 30 days) |
| DateParserExamples.NoMonthZero | app/page.tsx:50 | `"15002023"` fails the month range test |
| DateParserExamples.NoYear1899 | app/page.tsx:50 | `"01011899"` fails the year range test |
| DataNormalizer.Pick | app/page.tsx:80-82 | an alias chain yields the value under the first key whose value is truthy, else the default |
| DataNormalizer.PickIsTruthyOrFallback | app/page.tsx:80-82 | a picked field is truthy or is the default |
| DataNormalizer.PickIsFirstTruthyAlias | app/page.tsx:80-82 | an alias chain yields the read under the least key whose read is truthy, or the default when no read is truthy |
| DataNormalizer.FirstTruthyAliasUnique | app/page.tsx:80-82 | that description admits exactly one value |
| DataNormalizer.ArrayRecord | app/page.tsx:71-84 | an array element's date is `parseDDMMYYYY` of the value its date alias chain yields (today's text last), and each numeric field is the read under its first truthy alias, else `0` |
| DataNormalizer.EntryRecord | app/page.tsx:89-104 | an entry's date is `parseDDMMYYYY` of the value the four-key date chain yields (the entry key last), and each numeric field is the read under its first truthy alias, else `0` |
| DataNormalizer.ProcessData | app/page.tsx:68-108 | an array keeps its length and order, an object gives one record per entry in order, anything else gives `[]` |
| DataNormalizer.SingleItemPayload | app/page.tsx:70-84 | a one-element array gives exactly that element's record |
| DataNormalizer.SingleEntryPayload | app/page.tsx:88-104 | a one-entry object gives exactly that entry's record |
| DataNormalizer.FieldsAreTruthyOrZero | app/page.tsx:80-102 | every numeric field of every record is a truthy payload value or `0`, never missing |
| DataNormalizer.EmbeddedDate | app/page.tsx:91-93 | the `in` tests change nothing: the entry date is the chain over the four date keys with the entry key last |
| DataNormalizer.EntryDatedByKey | app/page.tsx:91-93 | an entry whose value has none of the four date keys is dated by its key |
| DataNormalizer.ArrayDefaultDate | app/page.tsx:73-76 | an element without a truthy date field is dated by the generic parse of today's text, which is today's text when the parser refuses it |
| DataNormalizer.TodayTextIsParsedAgain | app/page.tsx:73-76 | today's `DD.MM.YYYY` text is not eight digits, so `parseDDMMYYYY` hands it to the generic parser |
| DataNormalizerExamples.ArrayExample | app/page.tsx:70-84 | `[{"Дата": "01012024", "Сумма заказа": 100}]` gives one record `01.01.2024`, 100, 0, 0 |
| DataNormalizerExamples.ObjectExample | app/page.tsx:88-104 | `{"01012024": {"sum": 50, "volume": 10}}` gives one record `01.01.2024`, 50, 10, 0 |
| DataNormalizerExamples.ZeroFallsThrough | app/page.tsx:80 | a zero under the first alias falls through to `sum` in both payload shapes |
| DataNormalizerExamples.AliasOrderDiffers | app/page.tsx:100 | with both `Сумма заказа` and `orderSum` present, an array element takes the first and an entry the second |
| DataNormalizerExamples.DayKeyOnlyInArrays | app/page.tsx:73 | a `day` field dates an array element but an entry is dated by its key |
| Chart.Toggle | app/components/Chart.tsx:44-46 | toggling negates exactly flag k and keeps the other two |
| Chart.ToggleTwice | app/components/Chart.tsx:44-46 | toggling the same series twice restores the visibility state |
| Chart.ToggleCommutes | app/components/Chart.tsx:44-46 | toggles of two series commute |
| Chart.ChartComponent | app/components/Chart.tsx:48 | `line` selects the line chart and `bar` the bar chart, and only they |
| Chart.SeriesElement | app/components/Chart.tsx:155-165 | a series is drawn as a line exactly in line mode, for its own data key |
| Chart.Rendered | app/components/Chart.tsx:154-192 | a series is drawn if and only if its flag is set, in the chart type's kind, at most once |
| Chart.ChartState.constructor | app/components/Chart.tsx:32-37 | the panel starts as a line chart with every series visible |
| Chart.ChartState.ToggleLine | app/components/Chart.tsx:44-46 | the new visibility is the toggle of the old one, and the chart type is kept |
| Chart.ChartState.SetChartType | app/components/Chart.tsx:65 | the chart type is set, and visibility is kept |
| Chart.ChartState.Children | app/components/Chart.tsx:154-192 | the state draws a series if and only if it is visible |
| Chart.ToggleLineTwice | app/components/Chart.tsx:44-46 | two clicks on one checkbox leave the panel as it was |
| Chart.SetChartTypeTwice | app/components/Chart.tsx:75 | pressing a mode button twice is pressing it once |
| Chart.Total | app/components/Chart.tsx:40-42 | the `reduce` total equals the sum of the amounts with a missing field as 0, and is 0 for no records |
| Chart.Amount | app/components/Chart.tsx:40-42 | an amount is the stored value of the field, or `0` when the field is missing |
| Chart.Reduce | app/components/Chart.tsx:40-42 | with no negative amounts the fold never drops below its start, so a total is never negative (`Chart.TotalNonNegative`) |
| Chart.ReduceIsSum | app/components/Chart.tsx:40-42 | the left fold from `acc` is `acc` plus the sum |
| Chart.SumAppend | app/components/Chart.tsx:40-42 | the sum over a concatenation is the sum of the sums |
| Chart.TotalSnoc | app/components/Chart.tsx:40-42 | appending a record adds its amount; a missing field adds nothing |
| Chart.TotalAppend | app/components/Chart.tsx:40-42 | the total over two runs of records is the sum of their totals |
| Chart.TotalNonNegative | app/components/Chart.tsx:40-42 | without negative amounts the total is not negative |

## Left out

- **The engine's open parts.** The clock, the generic `new Date(string)` parser, the text of numbers that are not whole or not below 10^21, and `Date.prototype.toString` are parameters (`JsValue.Engine`).
- **`toLocaleString('ru-RU')` of the totals.** It is not modelled.
- **`ru-RU` text for years before year 1.** The model writes them with a minus sign; the engine's era formatting is not modelled.
- **Numbers.** They are exact reals. Floating-point rounding, infinities, `-0` and invalid `Date` objects are not modelled.
- **`null` and `undefined` array elements.** They are excluded by `ProcessData`'s precondition, since reading a property of either throws.
- **Objects.** An object is its `Object.entries` list, in the order given. The engine's reordering of integer-like keys and JSON's handling of duplicate keys are not modelled; a read takes the first entry with the key.
- **Chart input.** The chart sees records whose numeric fields are reals or absent. A string field, which `reduce` would concatenate, is not modelled.
- Calendar.NewDate: every Gregorian day is taken to exist at local midnight; in a time zone that skipped a whole day (Pacific/Apia skipped 30 December 2011, Pacific/Kwajalein 21 August 1993, Pacific/Kiritimati 31 December 1994) `new Date(y, m - 1, d)` lands on the next day, the comparison at app/page.tsx:52 refuses the code and the generic parser decides instead; the model has no time zone.
- DateParser.CompactDate: for the same reason it accepts the eight-digit code of a day the local time zone skipped (`"30122011"` in Pacific/Apia), where the code refuses it.
- JsValue.ToJsString: `String(v)` of a plain object is `"[object Object]"`; for an object with its own `toString` key (`{"toString": 1}`), alone or inside an array, the engine throws a `TypeError` instead, and the model does not capture that error path for dates read from such values.
- **Other program parts.** The webhook proxy routes, the load and prompt handlers, the loading and error state, JSX layout, `recharts`, `@geist-ui`, `app/layout.tsx` and `app/providers.tsx` are not part of this model.
