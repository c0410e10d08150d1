/** The due date (forfaldsdato) of the invoice page: the invoice date moved
    forward by the payment term in calendar days, written back as
    "YYYY-MM-DD". */
module DueDate {
  import opened Wrappers
  import opened Calendar
  import opened IsoDate
  import opened Digits

  /** ECMAScript time values lie within 100 000 000 days of the epoch; a date
      outside that range is an invalid date. */
  const MaxDays := 100000000

  /** `new Date(fakturaDato)`, `setDate(getDate() + betalingsfrist)`, then the
      date part of `toISOString()`. None stands for the RangeError that
      toISOString throws on an invalid date: the date input is empty or not a
      date, or the due date falls outside the range of time values. */
  function Forfaldsdato(fakturaDato: string, betalingsfrist: int): (r: Option<string>)
    ensures Parse(fakturaDato).None? ==> r.None?
    ensures r.Some? ==> |r.value| >= 10
  {
    match Parse(fakturaDato)
    case None => None
    case Some(d) =>
      var e := AddDays(d, betalingsfrist);
      if -MaxDays <= DayNumber(e) <= MaxDays then
        YearBound(e);
        Some(Format(e))
      else None
  }

  /** Dates of years 0 to 9999 are well inside the range of time values. */
  lemma FourDigitYearInRange(e: Date)
    requires ValidDate(e) && 0 <= e.year <= 9999
    ensures -MaxDays <= DayNumber(e) <= MaxDays
  {
    DayOfYearBounds(e);
    if e.year >= 1970 {
      YearStartGrows(1970, e.year);
    } else {
      YearStartGrows(e.year, 1970);
    }
  }

  /** When the invoice date reads as d and e is the date betalingsfrist days
      later (in years 0 to 9999), the due date is e written as "YYYY-MM-DD". */
  lemma ForfaldsdatoIsLater(fakturaDato: string, betalingsfrist: int, e: Date)
    requires Parse(fakturaDato).Some?
    requires ValidDate(e) && 0 <= e.year <= 9999
    requires DayNumber(e) == DayNumber(Parse(fakturaDato).value) + betalingsfrist
    ensures Forfaldsdato(fakturaDato, betalingsfrist) == Some(Format(e))
  {
    AddDaysUnique(Parse(fakturaDato).value, betalingsfrist, e);
    FourDigitYearInRange(e);
  }

  /** Such a due date reads back as e. */
  lemma ForfaldsdatoParses(fakturaDato: string, betalingsfrist: int, e: Date)
    requires Parse(fakturaDato).Some?
    requires ValidDate(e) && 0 <= e.year <= 9999
    requires DayNumber(e) == DayNumber(Parse(fakturaDato).value) + betalingsfrist
    ensures Forfaldsdato(fakturaDato, betalingsfrist).Some?
    ensures Parse(Forfaldsdato(fakturaDato, betalingsfrist).value) == Some(e)
  {
    ForfaldsdatoIsLater(fakturaDato, betalingsfrist, e);
    ParseFormat(e);
  }

  /** Conversely, a due date that was produced reads back as a date
      betalingsfrist days after the invoice date. */
  lemma ForfaldsdatoReadsBack(fakturaDato: string, betalingsfrist: int)
    requires Forfaldsdato(fakturaDato, betalingsfrist).Some?
    requires Parse(Forfaldsdato(fakturaDato, betalingsfrist).value).Some?
    ensures DayNumber(Parse(Forfaldsdato(fakturaDato, betalingsfrist).value).value)
            == DayNumber(Parse(fakturaDato).value) + betalingsfrist
  {
    var d := Parse(fakturaDato).value;
    var e := AddDays(d, betalingsfrist);
    YearBound(e);
    var t := Forfaldsdato(fakturaDato, betalingsfrist).value;
    assert t == Format(e);
    var e' := Parse(t).value;
    FormatParse(t);
    assert Format(e') == Format(e);
    FormatInjective(e', e);
  }

  /** A string made of the padded year, month and day of a date, with two
      dashes between them, reads as that date. */
  lemma ReadsDate(s: string, y: string, m: string, d: string, date: Date)
    requires ValidDate(date) && 0 <= date.year <= 9999
    requires Pad(date.year, 4) == y && Pad(date.month, 2) == m && Pad(date.day, 2) == d
    requires s == y + "-" + m + "-" + d
    ensures Parse(s) == Some(date)
  {
    assert s[..4] == y && s[5..7] == m && s[8..] == d;
    DigitsValuePad(date.year, 4);
    DigitsValuePad(date.month, 2);
    DigitsValuePad(date.day, 2);
  }

  /** The invoice dates of the two examples read as dates. */
  lemma MonthEndInput(fakturaDato: string)
    requires fakturaDato == "2025-01-25"
    ensures Parse(fakturaDato) == Some(Date(2025, 1, 25))
  {
    ReadsDate(fakturaDato, "2025", "01", "25", Date(2025, 1, 25));
  }

  lemma YearEndInput(fakturaDato: string)
    requires fakturaDato == "2025-12-20"
    ensures Parse(fakturaDato) == Some(Date(2025, 12, 20))
  {
    ReadsDate(fakturaDato, "2025", "12", "20", Date(2025, 12, 20));
  }

  /** The due dates of the two examples, written out. */
  lemma MonthEndText()
    ensures Format(Date(2025, 2, 8)) == "2025-02-08"
  {
    assert Pad(2025, 4) == "2025";
  }

  lemma YearEndText()
    ensures Format(Date(2026, 1, 3)) == "2026-01-03"
  {
    assert Pad(2026, 4) == "2026";
  }

  /** 2025-01-25 with a 14-day term is due 2025-02-08 (the example is taken
      through parameters so that the proof goes by day numbers rather than
      by unfolding fourteen single-day steps). */
  lemma ExampleMonthEnd(fakturaDato: string, betalingsfrist: int)
    requires fakturaDato == "2025-01-25" && betalingsfrist == 14
    ensures Forfaldsdato(fakturaDato, betalingsfrist) == Some("2025-02-08")
  {
    MonthEndInput(fakturaDato);
    MonthEndText();
    ForfaldsdatoIsLater(fakturaDato, betalingsfrist, Date(2025, 2, 8));
  }

  /** 2025-12-20 with a 14-day term is due 2026-01-03, in the next year. */
  lemma ExampleYearEnd(fakturaDato: string, betalingsfrist: int)
    requires fakturaDato == "2025-12-20" && betalingsfrist == 14
    ensures Forfaldsdato(fakturaDato, betalingsfrist) == Some("2026-01-03")
  {
    YearEndInput(fakturaDato);
    YearEndText();
    ForfaldsdatoIsLater(fakturaDato, betalingsfrist, Date(2026, 1, 3));
  }

  /** An empty date input has no due date (toISOString throws). */
  lemma EmptyDateHasNoDueDate(betalingsfrist: int)
    ensures Forfaldsdato("", betalingsfrist).None?
  {
  }
}
