/** The state of the invoice page (src/app/page.tsx): the sender and the
    recipient, the invoice header fields, the line items and the notes. The
    page keeps each of these in its own React state cell; here they are one
    value, and a field edit is a record update of it. */
module Invoice {
  import opened Digits

  /** One billable row of the invoice. */
  datatype FakturaLinje = FakturaLinje(id: int, beskrivelse: string, antal: real, enhedspris: real)

  /** The issuing company. */
  datatype Afsender = Afsender(
    firmanavn: string, adresse: string, postnrBy: string, cvr: string,
    email: string, telefon: string, bank: string, regKonto: string)

  /** The billed customer. */
  datatype Modtager = Modtager(
    firmanavn: string, adresse: string, postnrBy: string, cvr: string, att: string)

  datatype Faktura = Faktura(
    fakturaNr: string,
    fakturaDato: string,       // the "YYYY-MM-DD" value of the date input
    betalingsfrist: int,       // payment term in days
    momssats: real,            // VAT rate in percent
    afsender: Afsender,
    modtager: Modtager,
    linjer: seq<FakturaLinje>,
    noter: string)

  const TomAfsender := Afsender("", "", "", "", "", "", "", "")
  const TomModtager := Modtager("", "", "", "", "")

  /** The blank line item the page starts with and adds: empty description,
      quantity 1, unit price 0. */
  function BlankLinje(id: int): (l: FakturaLinje)
    ensures l.id == id && l.beskrivelse == "" && l.antal == 1.0 && l.enhedspris == 0.0
  {
    FakturaLinje(id, "", 1.0, 0.0)
  }

  /** The line items when the page opens: one blank line with id 1. */
  const StartLinjer := [BlankLinje(1)]

  /** The state when the page opens, given the current year and today's
      date as "YYYY-MM-DD" (both read from the clock by the page). */
  function StartFaktura(aar: nat, idag: string): (f: Faktura)
    ensures f.fakturaNr == Decimal(aar) + "-001"
    ensures f.fakturaDato == idag && f.betalingsfrist == 14 && f.momssats == 25.0
    ensures f.afsender == TomAfsender && f.modtager == TomModtager
    ensures f.linjer == [FakturaLinje(1, "", 1.0, 0.0)] && f.noter == ""
  {
    Faktura(Decimal(aar) + "-001", idag, 14, 25.0, TomAfsender, TomModtager, StartLinjer, "")
  }
}
