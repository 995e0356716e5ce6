/** Bengali calendar date of the poster footer: the ten Bengali numerals, the
    twelve Gregorian month names in Bengali, the digit-by-digit numeral encoder
    and the "<day> <month> <year>" formatter. The clock is not read here: the
    formatter takes the day of the month, the zero-based month index and the
    year that JavaScript's Date would report. */
module DateUtils {
  import opened JsText

  /** The Bengali numerals, indexed by the digit they stand for. */
  const BengaliDigits: seq<char> := ['০', '১', '২', '৩', '৪', '৫', '৬', '৭', '৮', '৯']

  /** The month names, indexed by Date.getMonth() (January is 0). */
  const BengaliMonths: seq<string> := [
    "জানুয়ারি", "ফেব্রুয়ারি", "মার্চ", "এপ্রিল", "মে", "জুন",
    "জুলাই", "আগস্ট", "সেপ্টেম্বর", "অক্টোবর", "নভেম্বর", "ডিসেম্বর"
  ]

  /** The Bengali numerals are the ten consecutive code points U+09E6 to U+09EF. */
  lemma BengaliDigitsConsecutive()
    ensures |BengaliDigits| == 10
    ensures forall d :: 0 <= d < 10 ==> BengaliDigits[d] as int == 0x09E6 + d
  {
  }

  predicate IsBengaliDigit(c: char) {
    c in BengaliDigits
  }

  /** The digit a Bengali numeral stands for. */
  function BengaliDigitValue(c: char): (d: nat)
    requires IsBengaliDigit(c)
    ensures d < 10 && BengaliDigits[d] == c
  {
    BengaliDigitsConsecutive();
    c as int - 0x09E6
  }

  /** The Bengali numeral for one character of the decimal string, looked
      up in the digit table by its parsed value; a character parseInt rejects
      indexes nothing, and join turns the undefined entry into the empty
      string. */
  function BengaliDigitFor(c: char): string {
    if IsAsciiDigit(c) then [BengaliDigits[DigitValue(c)]] else ""
  }

  /** Each character of the decimal string replaced by its numeral, the
      pieces joined with nothing between them. */
  function TransliterateDigits(s: string): string {
    if s == [] then "" else BengaliDigitFor(s[0]) + TransliterateDigits(s[1..])
  }

  /** The Bengali numeral string of a non-negative integer. */
  function ToBengaliNumber(n: nat): string {
    TransliterateDigits(DecimalString(n))
  }

  /** On a string of ASCII digits the transliteration replaces each digit in
      place by its Bengali numeral. */
  lemma {:induction false} TransliterateDigitsAt(s: string)
    requires AllAsciiDigits(s)
    ensures |TransliterateDigits(s)| == |s|
    ensures forall i :: 0 <= i < |s| ==> TransliterateDigits(s)[i] == BengaliDigits[DigitValue(s[i])]
  {
    if s != [] {
      TransliterateDigitsAt(s[1..]);
      assert TransliterateDigits(s) == [BengaliDigits[DigitValue(s[0])]] + TransliterateDigits(s[1..]);
    }
  }

  /** The Bengali numeral string has one character per decimal digit of `n`,
      and the character at position i is the numeral of the i-th digit. */
  lemma BengaliNumberDigits(n: nat)
    ensures |ToBengaliNumber(n)| == |DecimalString(n)|
    ensures forall i :: 0 <= i < |DecimalString(n)| ==>
              ToBengaliNumber(n)[i] == BengaliDigits[DigitValue(DecimalString(n)[i])]
  {
    TransliterateDigitsAt(DecimalString(n));
  }

  /** Only Bengali numerals appear: no ASCII digit is left behind, and there
      is no zero padding (no leading ০ unless n is zero). */
  lemma BengaliNumberAlphabet(n: nat)
    ensures |ToBengaliNumber(n)| > 0
    ensures forall i :: 0 <= i < |ToBengaliNumber(n)| ==>
              IsBengaliDigit(ToBengaliNumber(n)[i]) && !IsAsciiDigit(ToBengaliNumber(n)[i])
    ensures |ToBengaliNumber(n)| > 1 ==> ToBengaliNumber(n)[0] != BengaliDigits[0]
  {
    BengaliNumberDigits(n);
    BengaliDigitsConsecutive();
    var s := DecimalString(n);
    if |s| > 1 {
      assert DigitValue(s[0]) != 0;
    }
  }

  /** Reads a Bengali numeral string back: each numeral becomes its ASCII
      digit and the digits are parsed. Anything that is not a non-empty run of
      Bengali numerals is rejected. */
  function FromBengaliNumber(s: string): Option<nat> {
    if s != [] && forall i :: 0 <= i < |s| ==> IsBengaliDigit(s[i]) then
      Some(ParseDecimal(AsciiDigits(s)))
    else None
  }

  function AsciiDigits(s: string): (r: string)
    requires forall i :: 0 <= i < |s| ==> IsBengaliDigit(s[i])
    ensures |r| == |s|
    ensures forall i :: 0 <= i < |s| ==> IsAsciiDigit(r[i]) && BengaliDigits[DigitValue(r[i])] == s[i]
  {
    if s == [] then "" else [DigitChar(BengaliDigitValue(s[0]))] + AsciiDigits(s[1..])
  }

  /** Reading the numeral string back recovers the number. */
  lemma BengaliNumberRoundTrip(n: nat)
    ensures FromBengaliNumber(ToBengaliNumber(n)) == Some(n)
  {
    var b := ToBengaliNumber(n);
    var s := DecimalString(n);
    BengaliNumberDigits(n);
    BengaliNumberAlphabet(n);
    BengaliDigitsConsecutive();
    assert AsciiDigits(b) == s by {
      forall i | 0 <= i < |s|
        ensures AsciiDigits(b)[i] == s[i]
      {
        assert BengaliDigits[DigitValue(AsciiDigits(b)[i])] == BengaliDigits[DigitValue(s[i])];
      }
    }
    ParseDecimalString(n);
  }

  /** Distinct numbers get distinct Bengali numeral strings. */
  lemma BengaliNumberInjective(m: nat, n: nat)
    ensures ToBengaliNumber(m) == ToBengaliNumber(n) ==> m == n
  {
    BengaliNumberRoundTrip(m);
    BengaliNumberRoundTrip(n);
  }

  /** Zero is the single numeral ০, and a single-digit day such as 5 is one
      numeral, with no padding. */
  lemma SmallBengaliNumbers()
    ensures ToBengaliNumber(0) == "০"
    ensures ToBengaliNumber(5) == "৫"
  {
  }

  /** Today's date in Bengali, for the given day of the month, zero-based month
      index (Date.getMonth() is always in 0..11) and full year. */
  function BengaliDate(day: nat, month: nat, year: nat): string
    requires month < |BengaliMonths|
  {
    ToBengaliNumber(day) + " " + BengaliMonths[month] + " " + ToBengaliNumber(year)
  }

  /** The position of a month name in the table, if it is one. */
  function MonthIndex(name: string): (m: Option<nat>)
    ensures m.Some? ==> m.value < |BengaliMonths| && BengaliMonths[m.value] == name
  {
    MonthIndexFrom(name, 0)
  }

  function MonthIndexFrom(name: string, from: nat): (m: Option<nat>)
    ensures m.Some? ==> from <= m.value < |BengaliMonths| && BengaliMonths[m.value] == name
    ensures m.None? ==> forall k :: from <= k < |BengaliMonths| ==> BengaliMonths[k] != name
    decreases |BengaliMonths| - from
  {
    if from >= |BengaliMonths| then None
    else if BengaliMonths[from] == name then Some(from)
    else MonthIndexFrom(name, from + 1)
  }

  /** The twelve month names are pairwise distinct and contain neither a space
      nor an ASCII digit. */
  lemma MonthTable()
    ensures |BengaliMonths| == 12
    ensures forall i, j :: 0 <= i < j < 12 ==> BengaliMonths[i] != BengaliMonths[j]
    ensures forall m :: 0 <= m < 12 ==> ' ' !in BengaliMonths[m] && |BengaliMonths[m]| > 0
    ensures forall m, i :: 0 <= m < 12 && 0 <= i < |BengaliMonths[m]| ==> !IsAsciiDigit(BengaliMonths[m][i])
  {
  }

  /** Month index m selects exactly the m-th name of the table. */
  lemma MonthIndexOfName(m: nat)
    requires m < |BengaliMonths|
    ensures MonthIndex(BengaliMonths[m]) == Some(m)
  {
    MonthTable();
  }

  datatype CalendarDate = CalendarDate(day: nat, month: nat, year: nat)

  /** Reads a formatted date back: exactly three space-separated parts, a
      Bengali numeral string, a month name and a Bengali numeral string. */
  function ParseBengaliDate(s: string): Option<CalendarDate> {
    var parts := Split(s, ' ');
    if |parts| != 3 then None
    else
      match (FromBengaliNumber(parts[0]), MonthIndex(parts[1]), FromBengaliNumber(parts[2]))
      case (Some(d), Some(m), Some(y)) => Some(CalendarDate(d, m, y))
      case _ => None
  }

  /** The formatted date is the day numerals, one space, the month name, one
      space and the year numerals, with nothing else: reading it back gives
      the day, month and year it was made from. */
  lemma BengaliDateRoundTrip(day: nat, month: nat, year: nat)
    requires month < |BengaliMonths|
    ensures ParseBengaliDate(BengaliDate(day, month, year)) == Some(CalendarDate(day, month, year))
  {
    BengaliDateParts(day, month, year);
    BengaliNumberRoundTrip(day);
    BengaliNumberRoundTrip(year);
    MonthIndexOfName(month);
  }

  /** Splitting the formatted date at its spaces gives exactly the day
      numerals, the month name and the year numerals. */
  lemma BengaliDateParts(day: nat, month: nat, year: nat)
    requires month < |BengaliMonths|
    ensures Split(BengaliDate(day, month, year), ' ') ==
              [ToBengaliNumber(day), BengaliMonths[month], ToBengaliNumber(year)]
  {
    var d, mo, y := ToBengaliNumber(day), BengaliMonths[month], ToBengaliNumber(year);
    NoSpaceInBengaliNumber(day);
    NoSpaceInBengaliNumber(year);
    assert ' ' !in mo by {
      MonthTable();
    }
    var parts := [d, mo, y];
    assert Join(parts, ' ') == BengaliDate(day, month, year) by {
      assert parts == [d] + [mo, y] && [mo, y] == [mo] + [y];
      JoinCons(d, [mo, y], ' ');
      JoinCons(mo, [y], ' ');
    }
    SplitJoin(parts, ' ');
  }

  lemma NoSpaceInBengaliNumber(n: nat)
    ensures ' ' !in ToBengaliNumber(n)
  {
    BengaliNumberAlphabet(n);
    BengaliDigitsConsecutive();
    var s := ToBengaliNumber(n);
    assert forall i :: 0 <= i < |s| ==> s[i] != ' ';
  }

  /** No ASCII digit survives anywhere in the formatted date. */
  lemma BengaliDateHasNoAsciiDigits(day: nat, month: nat, year: nat)
    requires month < |BengaliMonths|
    ensures forall i :: 0 <= i < |BengaliDate(day, month, year)| ==> !IsAsciiDigit(BengaliDate(day, month, year)[i])
  {
    BengaliNumberAlphabet(day);
    BengaliNumberAlphabet(year);
    MonthTable();
    var d, mo, y := ToBengaliNumber(day), BengaliMonths[month], ToBengaliNumber(year);
    var s := BengaliDate(day, month, year);
    forall i | 0 <= i < |s|
      ensures !IsAsciiDigit(s[i])
    {
      if i < |d| {
        assert s[i] == d[i];
      } else if i == |d| {
        assert s[i] == ' ';
      } else if i < |d| + 1 + |mo| {
        assert s[i] == mo[i - |d| - 1];
      } else if i == |d| + 1 + |mo| {
        assert s[i] == ' ';
      } else {
        assert s[i] == y[i - |d| - 2 - |mo|];
      }
    }
  }
}
