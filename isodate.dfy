/** The calendar-date strings the invoice page exchanges with the browser: the
    "YYYY-MM-DD" value of a date input, as `new Date(s)` reads it, and the date
    part of `Date.prototype.toISOString`, which the page cuts off at "T". */
module IsoDate {
  import opened Wrappers
  import opened Calendar
  import opened Digits

  /** The year as toISOString writes it: four digits for years 0 to 9999,
      otherwise a sign and six digits. */
  function YearText(y: int): (s: string)
    requires -999999 <= y <= 999999
    ensures 0 <= y <= 9999 ==> |s| == 4 && AllDigits(s)
    ensures !(0 <= y <= 9999) ==> |s| == 7 && s[0] == (if y < 0 then '-' else '+') && AllDigits(s[1..])
  {
    if 0 <= y <= 9999 then Pad(y, 4)
    else if y < 0 then "-" + Pad(-y, 6)
    else "+" + Pad(y, 6)
  }

  /** The date part "YYYY-MM-DD" of toISOString for a date at midnight UTC. */
  function Format(d: Date): (s: string)
    requires ValidDate(d) && -999999 <= d.year <= 999999
    ensures |s| == |YearText(d.year)| + 6
    ensures 0 <= d.year <= 9999 ==> |s| == 10 && s[4] == '-' && s[7] == '-'
  {
    YearText(d.year) + "-" + Pad(d.month, 2) + "-" + Pad(d.day, 2)
  }

  /** Reads the value of a date input. Anything but an existing date written
      "YYYY-MM-DD" is an invalid date (None). */
  function Parse(s: string): (r: Option<Date>)
    ensures r.Some? ==> ValidDate(r.value) && 0 <= r.value.year <= 9999
    ensures r.Some? ==> |s| == 10 && s[4] == '-' && s[7] == '-'
  {
    if |s| == 10 && s[4] == '-' && s[7] == '-'
       && AllDigits(s[..4]) && AllDigits(s[5..7]) && AllDigits(s[8..])
    then
      var d := Date(DigitsValue(s[..4]), DigitsValue(s[5..7]), DigitsValue(s[8..]));
      if ValidDate(d) then Some(d) else None
    else None
  }

  /** Formatting a date of years 0 to 9999 and reading it back gives the date. */
  lemma ParseFormat(d: Date)
    requires ValidDate(d) && 0 <= d.year <= 9999
    ensures Parse(Format(d)) == Some(d)
  {
    var s := Format(d);
    assert s[..4] == Pad(d.year, 4);
    assert s[5..7] == Pad(d.month, 2);
    assert s[8..] == Pad(d.day, 2);
    DigitsValuePad(d.year, 4);
    DigitsValuePad(d.month, 2);
    DigitsValuePad(d.day, 2);
  }

  /** A string that reads as a date is exactly the formatting of that date. */
  lemma FormatParse(s: string)
    requires Parse(s).Some?
    ensures Format(Parse(s).value) == s
  {
    PadDigitsValue(s[..4]);
    PadDigitsValue(s[5..7]);
    PadDigitsValue(s[8..]);
    assert s == s[..4] + "-" + s[5..7] + "-" + s[8..];
  }

  /** The pieces of a formatted date, by position. */
  lemma FormatParts(d: Date)
    requires ValidDate(d) && -999999 <= d.year <= 999999
    ensures var s, n := Format(d), |YearText(d.year)|;
      |s| == n + 6 && s[..n] == YearText(d.year) && s[n] == '-'
      && s[n + 1..n + 3] == Pad(d.month, 2) && s[n + 3] == '-' && s[n + 4..] == Pad(d.day, 2)
  {
    var y, m, t := YearText(d.year), Pad(d.month, 2), Pad(d.day, 2);
    var s := Format(d);
    assert s == y + "-" + m + "-" + t;
    var n := |y|;
    assert s[..n] == y;
    assert s[n + 1..n + 3] == m;
    assert s[n + 4..] == t;
  }

  /** Different dates are written differently. */
  lemma FormatInjective(a: Date, b: Date)
    requires ValidDate(a) && -999999 <= a.year <= 999999
    requires ValidDate(b) && -999999 <= b.year <= 999999
    requires Format(a) == Format(b)
    ensures a == b
  {
    var s := Format(a);
    var ya, yb := YearText(a.year), YearText(b.year);
    FormatParts(a);
    FormatParts(b);
    assert |ya| == |yb|;
    YearTextInjective(a.year, b.year);
    DigitsValuePad(a.month, 2);
    DigitsValuePad(b.month, 2);
    DigitsValuePad(a.day, 2);
    DigitsValuePad(b.day, 2);
  }

  lemma YearTextInjective(x: int, y: int)
    requires -999999 <= x <= 999999 && -999999 <= y <= 999999
    requires YearText(x) == YearText(y)
    ensures x == y
  {
    if 0 <= x <= 9999 {
      DigitsValuePad(x, 4);
      if 0 <= y <= 9999 { DigitsValuePad(y, 4); }
    } else {
      var a, b := if x < 0 then -x else x, if y < 0 then -y else y;
      assert YearText(x)[1..] == Pad(a, 6) && YearText(y)[1..] == Pad(b, 6);
      DigitsValuePad(a, 6);
      DigitsValuePad(b, 6);
    }
  }
}
