/** The page that genererPDF paints with jsPDF, as the ordered list of draw
    operations it issues. Text formatting is kept abstract: an amount
    (formatKr), a number (toString) and a date (formatDato) are pieces of a
    text that the renderer formats. Font, size and colour changes are not
    draw operations here. */
module PdfLayout {
  import opened Invoice
  import opened Totals

  datatype Align = Left | Right | Center

  /** One piece of a text: literal characters, or a value still to be formatted. */
  datatype Piece = Lit(s: string) | Kr(amount: real) | Num(value: real) | DateText(iso: string)

  datatype DrawOp =
    | Text(pieces: seq<Piece>, x: real, y: int, align: Align)  // doc.text
    | FillRect(x: real, y: int, width: real, height: int)      // doc.rect(..., "F")
    | HLine(x1: real, x2: real, y: int)                        // doc.line at one height
    | Wrapped(text: string, x: real, y: int, maxWidth: real)   // doc.text(doc.splitTextToSize(...))

  /** The height an operation is drawn at. */
  function OpY(op: DrawOp): int {
    match op
    case Text(_, _, y, _) => y
    case FillRect(_, y, _, _) => y
    case HLine(_, _, y) => y
    case Wrapped(_, _, y, _) => y
  }

  /** JavaScript's `s || fallback` on strings: the empty string is falsy. */
  function Or(s: string, fallback: string): (r: string)
    ensures r != "" <== s != "" || fallback != ""
    ensures s != "" ==> r == s
    ensures s == "" ==> r == fallback
  {
    if s != "" then s else fallback
  }

  /** Left-aligned literal text. */
  function TextAt(s: string, x: real, y: int): DrawOp {
    Text([Lit(s)], x, y, Left)
  }

  /** An amount followed by " kr.", right-aligned. */
  function KrAt(amount: real, x: real, y: int): DrawOp {
    Text([Kr(amount), Lit(" kr.")], x, y, Right)
  }

  /** `if (field) doc.text(text, x, y)`. */
  function IfSet(field: string, text: string, x: real, y: int): seq<DrawOp> {
    if field != "" then [TextAt(text, x, y)] else []
  }

  const FooterText := "Genereret med GratisFaktura.dk - Gratis dansk fakturagenerator"

  // ---------------------------------------------------------------------
  // The page as a list of blocks: the reference the methods below are
  // proved against. The blocks above the table are at fixed heights; the
  // rows and the blocks below them are placed relative to the height top
  // where they begin.

  function SenderBlock(a: Afsender): seq<DrawOp> {
    [TextAt(Or(a.firmanavn, "Dit Firma"), 20.0, 20)]
    + IfSet(a.adresse, a.adresse, 20.0, 28)
    + IfSet(a.postnrBy, a.postnrBy, 20.0, 33)
    + IfSet(a.cvr, "CVR: " + a.cvr, 20.0, 38)
    + IfSet(a.email, a.email, 20.0, 43)
    + IfSet(a.telefon, "Tlf: " + a.telefon, 100.0, 43)
  }

  function TitleBlock(fakturaNr: string, fakturaDato: string, forfald: string, w: real): seq<DrawOp> {
    [ Text([Lit("FAKTURA")], w - 20.0, 20, Right),
      Text([Lit("Fakturanr.: " + fakturaNr)], w - 20.0, 30, Right),
      Text([Lit("Fakturadato: "), DateText(fakturaDato)], w - 20.0, 35, Right),
      Text([Lit("Forfaldsdato: "), DateText(forfald)], w - 20.0, 40, Right) ]
  }

  function RecipientBlock(m: Modtager): seq<DrawOp> {
    [TextAt("Faktureres til:", 20.0, 70)]
    + IfSet(m.att, "Att: " + m.att, 20.0, 76)
    + [TextAt(Or(m.firmanavn, "Kundenavn"), 20.0, 81)]
    + IfSet(m.adresse, m.adresse, 20.0, 86)
    + IfSet(m.postnrBy, m.postnrBy, 20.0, 91)
    + IfSet(m.cvr, "CVR: " + m.cvr, 20.0, 96)
  }

  function TableHeader(w: real): seq<DrawOp> {
    [ FillRect(20.0, 110, w - 40.0, 10),
      TextAt("Beskrivelse", 25.0, 115),
      Text([Lit("Antal")], 110.0, 115, Right),
      Text([Lit("Enhedspris")], 140.0, 115, Right),
      Text([Lit("Beløb")], w - 25.0, 115, Right) ]
  }

  /** The four texts of one table row at height y. */
  function Row(l: FakturaLinje, y: int, w: real): (r: seq<DrawOp>)
    ensures |r| == 4 && forall op :: op in r ==> OpY(op) == y
  {
    [ TextAt(Or(l.beskrivelse, "-"), 25.0, y),
      Text([Num(l.antal)], 110.0, y, Right),
      KrAt(l.enhedspris, 140.0, y),
      KrAt(LinjeTotal(l), w - 25.0, y) ]
  }

  /** The rows of the lines s, line i at height top + 8 i. */
  function Rows(s: seq<FakturaLinje>, top: int, w: real): (r: seq<DrawOp>)
    ensures |r| == 4 * |s|
    ensures forall op :: op in r ==> top <= OpY(op) < top + 8 * |s|
  {
    if s == [] then [] else Rows(s[..|s| - 1], top, w) + Row(s[|s| - 1], top + 8 * (|s| - 1), w)
  }

  /** The totals below a table that ends at height top. */
  function TotalsBlock(top: int, subtotal: real, momssats: real, moms: real, total: real, w: real): seq<DrawOp> {
    [ HLine(110.0, w - 20.0, top + 10),
      TextAt("Subtotal:", 120.0, top + 18),
      KrAt(subtotal, w - 25.0, top + 18),
      Text([Lit("Moms ("), Num(momssats), Lit("%):")], 120.0, top + 25, Left),
      KrAt(moms, w - 25.0, top + 25),
      TextAt("I alt:", 120.0, top + 32),
      KrAt(total, w - 25.0, top + 32) ]
  }

  /** The payment information below a total drawn at height top. */
  function PaymentBlock(top: int, a: Afsender, betalingsfrist: int): seq<DrawOp> {
    [TextAt("Betalingsoplysninger", 20.0, top + 25)]
    + IfSet(a.bank, "Bank: " + a.bank, 20.0, top + 31)
    + IfSet(a.regKonto, "Reg.nr. og kontonr.: " + a.regKonto, 20.0, top + 36)
    + [Text([Lit("Betalingsfrist: "), Num(betalingsfrist as real), Lit(" dage")], 20.0, top + 41, Left)]
  }

  /** The notes below a payment term drawn at height top, if there are notes. */
  function NotesBlock(top: int, noter: string, w: real): seq<DrawOp> {
    if noter != "" then [TextAt("Noter:", 20.0, top + 15), Wrapped(noter, 20.0, top + 21, w - 40.0)]
    else []
  }

  function Footer(w: real): DrawOp {
    Text([Lit(FooterText)], w / 2.0, 285, Center)
  }

  /** Height of the first table row. */
  const FirstRowY := 125

  /** Everything drawn above the table rows. */
  function Head(f: Faktura, forfald: string, w: real): seq<DrawOp> {
    SenderBlock(f.afsender) + TitleBlock(f.fakturaNr, f.fakturaDato, forfald, w)
    + RecipientBlock(f.modtager) + TableHeader(w)
  }

  /** The totals, payment and notes blocks below a table that ends at top. */
  function BelowTable(top: int, subtotal: real, momssats: real, moms: real, total: real,
                      a: Afsender, betalingsfrist: int, noter: string, w: real): seq<DrawOp> {
    TotalsBlock(top, subtotal, momssats, moms, total, w)
    + PaymentBlock(top + 32, a, betalingsfrist)
    + NotesBlock(top + 73, noter, w)
  }

  /** Everything drawn below the table rows, before the footer. */
  function Tail(f: Faktura, w: real): seq<DrawOp> {
    var sub := Subtotal(f.linjer);
    var moms := Moms(sub, f.momssats);
    BelowTable(FirstRowY + 8 * |f.linjer|, sub, f.momssats, moms, Total(sub, moms),
               f.afsender, f.betalingsfrist, f.noter, w)
  }

  /** The whole page for invoice f, whose due date the page has derived as
      forfald, on a page w wide. */
  function Layout(f: Faktura, forfald: string, w: real): (r: seq<DrawOp>)
    ensures |r| == |Head(f, forfald, w)| + 4 * |f.linjer| + |Tail(f, w)| + 1
  {
    Head(f, forfald, w) + Rows(f.linjer, FirstRowY, w) + Tail(f, w) + [Footer(w)]
  }

  // ---------------------------------------------------------------------
  // genererPDF: the same page, painted section by section with a running y
  // cursor. Each method is one commented section of the source and returns
  // the operations it issues and where it leaves y.

  method DrawSender(a: Afsender) returns (ops: seq<DrawOp>, y: int)
    ensures ops == SenderBlock(a) && y == 43
  {
    y := 20;
    ops := [TextAt(Or(a.firmanavn, "Dit Firma"), 20.0, y)];
    y := y + 8;
    if a.adresse != "" { ops := ops + [TextAt(a.adresse, 20.0, y)]; }
    ghost var done := ops;
    y := y + 5;
    if a.postnrBy != "" { ops := ops + [TextAt(a.postnrBy, 20.0, y)]; }
    assert ops == done + IfSet(a.postnrBy, a.postnrBy, 20.0, 33);
    done := ops;
    y := y + 5;
    if a.cvr != "" { ops := ops + [TextAt("CVR: " + a.cvr, 20.0, y)]; }
    assert ops == done + IfSet(a.cvr, "CVR: " + a.cvr, 20.0, 38);
    done := ops;
    y := y + 5;
    if a.email != "" { ops := ops + [TextAt(a.email, 20.0, y)]; }
    assert ops == done + IfSet(a.email, a.email, 20.0, 43);
    done := ops;
    if a.telefon != "" { ops := ops + [TextAt("Tlf: " + a.telefon, 100.0, y)]; }
    assert ops == done + IfSet(a.telefon, "Tlf: " + a.telefon, 100.0, 43);
  }

  method DrawTitle(fakturaNr: string, fakturaDato: string, forfald: string, w: real) returns (ops: seq<DrawOp>, y: int)
    ensures ops == TitleBlock(fakturaNr, fakturaDato, forfald, w) && y == 40
  {
    y := 20;
    ops := [Text([Lit("FAKTURA")], w - 20.0, y, Right)];
    y := y + 10;
    ops := ops + [Text([Lit("Fakturanr.: " + fakturaNr)], w - 20.0, y, Right)];
    y := y + 5;
    ops := ops + [Text([Lit("Fakturadato: "), DateText(fakturaDato)], w - 20.0, y, Right)];
    y := y + 5;
    ops := ops + [Text([Lit("Forfaldsdato: "), DateText(forfald)], w - 20.0, y, Right)];
  }

  method DrawRecipient(m: Modtager) returns (ops: seq<DrawOp>, y: int)
    ensures ops == RecipientBlock(m) && y == 96
  {
    y := 70;
    ops := [TextAt("Faktureres til:", 20.0, y)];
    y := y + 6;
    if m.att != "" { ops := ops + [TextAt("Att: " + m.att, 20.0, y)]; }
    y := y + 5;
    ops := ops + [TextAt(Or(m.firmanavn, "Kundenavn"), 20.0, y)];
    ghost var done := ops;
    y := y + 5;
    if m.adresse != "" { ops := ops + [TextAt(m.adresse, 20.0, y)]; }
    assert ops == done + IfSet(m.adresse, m.adresse, 20.0, 86);
    done := ops;
    y := y + 5;
    if m.postnrBy != "" { ops := ops + [TextAt(m.postnrBy, 20.0, y)]; }
    assert ops == done + IfSet(m.postnrBy, m.postnrBy, 20.0, 91);
    done := ops;
    y := y + 5;
    if m.cvr != "" { ops := ops + [TextAt("CVR: " + m.cvr, 20.0, y)]; }
    assert ops == done + IfSet(m.cvr, "CVR: " + m.cvr, 20.0, 96);
  }

  method DrawTableHeader(w: real) returns (ops: seq<DrawOp>, y: int)
    ensures ops == TableHeader(w) && y == 115
  {
    y := 115;
    ops := [FillRect(20.0, y - 5, w - 40.0, 10)];
    ops := ops + [TextAt("Beskrivelse", 25.0, y)];
    ops := ops + [Text([Lit("Antal")], 110.0, y, Right)];
    ops := ops + [Text([Lit("Enhedspris")], 140.0, y, Right)];
    ops := ops + [Text([Lit("Beløb")], w - 25.0, y, Right)];
  }

  /** `linjer.forEach(...)`: one row per line, 8 lower each time. */
  method DrawRows(linjer: seq<FakturaLinje>, top: int, w: real) returns (ops: seq<DrawOp>, y: int)
    ensures ops == Rows(linjer, top, w) && y == top + 8 * |linjer|
  {
    ops, y := [], top;
    var i := 0;
    while i < |linjer|
      invariant 0 <= i <= |linjer|
      invariant y == top + 8 * i
      invariant ops == Rows(linjer[..i], top, w)
    {
      var linje := linjer[i];
      var linjeTotal := linje.antal * linje.enhedspris;
      ghost var before := ops;
      ops := ops + [TextAt(Or(linje.beskrivelse, "-"), 25.0, y)];
      ops := ops + [Text([Num(linje.antal)], 110.0, y, Right)];
      ops := ops + [KrAt(linje.enhedspris, 140.0, y)];
      ops := ops + [KrAt(linjeTotal, w - 25.0, y)];
      assert linjeTotal == LinjeTotal(linje);
      assert ops == before + Row(linje, y, w);
      y := y + 8;
      assert linjer[..i + 1][..i] == linjer[..i];
      assert Rows(linjer[..i + 1], top, w) == Rows(linjer[..i], top, w) + Row(linje, top + 8 * i, w);
      i := i + 1;
    }
    assert linjer[..i] == linjer;
  }

  method DrawTotals(top: int, subtotal: real, momssats: real, moms: real, total: real, w: real)
    returns (ops: seq<DrawOp>, y: int)
    ensures ops == TotalsBlock(top, subtotal, momssats, moms, total, w) && y == top + 32
  {
    y := top + 10;
    ops := [HLine(110.0, w - 20.0, y)];
    y := y + 8;
    ops := ops + [TextAt("Subtotal:", 120.0, y)];
    ops := ops + [KrAt(subtotal, w - 25.0, y)];
    y := y + 7;
    ops := ops + [Text([Lit("Moms ("), Num(momssats), Lit("%):")], 120.0, y, Left)];
    ops := ops + [KrAt(moms, w - 25.0, y)];
    y := y + 7;
    ops := ops + [TextAt("I alt:", 120.0, y)];
    ops := ops + [KrAt(total, w - 25.0, y)];
  }

  method DrawPayment(top: int, a: Afsender, betalingsfrist: int) returns (ops: seq<DrawOp>, y: int)
    ensures ops == PaymentBlock(top, a, betalingsfrist) && y == top + 41
  {
    y := top + 25;
    ops := [TextAt("Betalingsoplysninger", 20.0, y)];
    y := y + 6;
    if a.bank != "" { ops := ops + [TextAt("Bank: " + a.bank, 20.0, y)]; }
    y := y + 5;
    if a.regKonto != "" { ops := ops + [TextAt("Reg.nr. og kontonr.: " + a.regKonto, 20.0, y)]; }
    y := y + 5;
    ops := ops + [Text([Lit("Betalingsfrist: "), Num(betalingsfrist as real), Lit(" dage")], 20.0, y, Left)];
  }

  method DrawNotes(top: int, noter: string, w: real) returns (ops: seq<DrawOp>, y: int)
    ensures ops == NotesBlock(top, noter, w)
    ensures y == if noter != "" then top + 21 else top
  {
    ops, y := [], top;
    if noter != "" {
      y := y + 15;
      ops := [TextAt("Noter:", 20.0, y)];
      y := y + 6;
      ops := ops + [Wrapped(noter, 20.0, y, w - 40.0)];
    }
  }

  /** genererPDF: the draw operations of the whole page, in the order they
      are issued, and the file name doc.save is given. forfald is the due
      date the page derived (Forfaldsdato); w is the page width jsPDF reports. */
  method GenererPDF(f: Faktura, forfald: string, w: real) returns (ops: seq<DrawOp>, filnavn: string)
    ensures ops == Layout(f, forfald, w)
    ensures filnavn == "faktura-" + f.fakturaNr + ".pdf"
  {
    var sender, _ := DrawSender(f.afsender);
    var title, _ := DrawTitle(f.fakturaNr, f.fakturaDato, forfald, w);
    var recipient, _ := DrawRecipient(f.modtager);
    var header, y := DrawTableHeader(w);
    var rows, totals, payment, notes;
    rows, y := DrawRows(f.linjer, y + 10, w);
    var subtotal := Subtotal(f.linjer);
    var moms := Moms(subtotal, f.momssats);
    totals, y := DrawTotals(y, subtotal, f.momssats, moms, Total(subtotal, moms), w);
    payment, y := DrawPayment(y, f.afsender, f.betalingsfrist);
    notes, y := DrawNotes(y, f.noter, w);
    ops := sender + title + recipient + header + rows + totals + payment + notes + [Footer(w)];
    filnavn := "faktura-" + f.fakturaNr + ".pdf";
    assert sender + title + recipient + header == Head(f, forfald, w);
    assert totals + payment + notes == Tail(f, w);
    Regroup(sender, title, recipient, header, rows, totals, payment, notes, [Footer(w)]);
  }

  lemma Regroup(a: seq<DrawOp>, b: seq<DrawOp>, c: seq<DrawOp>, d: seq<DrawOp>, e: seq<DrawOp>,
                f: seq<DrawOp>, g: seq<DrawOp>, h: seq<DrawOp>, x: seq<DrawOp>)
    ensures a + b + c + d + e + f + g + h + x == (a + b + c + d) + e + (f + g + h) + x
  {
  }

  // ---------------------------------------------------------------------
  // Where things are on the page. Each fact is proved about one block, for
  // any height the block starts at, and then carried over to the page.

  /** Every operation in ops is drawn above height limit. */
  predicate Above(ops: seq<DrawOp>, limit: int) {
    forall op :: op in ops ==> OpY(op) < limit
  }

  /** No operation in ops is the wrapped body of the notes. */
  predicate NoNotesBody(ops: seq<DrawOp>) {
    forall op :: op in ops ==> !op.Wrapped?
  }

  lemma AboveConcat(a: seq<DrawOp>, b: seq<DrawOp>, limit: int)
    ensures Above(a + b, limit) <==> Above(a, limit) && Above(b, limit)
  {
  }

  lemma NoNotesBodyConcat(a: seq<DrawOp>, b: seq<DrawOp>)
    ensures NoNotesBody(a + b) <==> NoNotesBody(a) && NoNotesBody(b)
  {
  }

  lemma SenderBounds(a: Afsender)
    ensures Above(SenderBlock(a), 44) && NoNotesBody(SenderBlock(a))
  {
  }

  lemma TitleBounds(fakturaNr: string, fakturaDato: string, forfald: string, w: real)
    ensures Above(TitleBlock(fakturaNr, fakturaDato, forfald, w), 41)
    ensures NoNotesBody(TitleBlock(fakturaNr, fakturaDato, forfald, w))
  {
  }

  lemma RecipientBounds(m: Modtager)
    ensures Above(RecipientBlock(m), 97) && NoNotesBody(RecipientBlock(m))
  {
  }

  lemma HeaderBounds(w: real)
    ensures Above(TableHeader(w), 116) && NoNotesBody(TableHeader(w))
  {
  }

  /** Everything above the rows is drawn at 115 or higher up, and none of it
      is notes text. */
  lemma HeadBounds(f: Faktura, forfald: string, w: real)
    ensures Above(Head(f, forfald, w), 116) && NoNotesBody(Head(f, forfald, w))
  {
    var a, b := SenderBlock(f.afsender), TitleBlock(f.fakturaNr, f.fakturaDato, forfald, w);
    var c, d := RecipientBlock(f.modtager), TableHeader(w);
    SenderBounds(f.afsender);
    TitleBounds(f.fakturaNr, f.fakturaDato, forfald, w);
    RecipientBounds(f.modtager);
    HeaderBounds(w);
    AboveConcat(a, b, 116);
    AboveConcat(a + b, c, 116);
    AboveConcat(a + b + c, d, 116);
    NoNotesBodyConcat(a, b);
    NoNotesBodyConcat(a + b, c);
    NoNotesBodyConcat(a + b + c, d);
  }

  /** Row i of the table is the i-th group of four operations, at height
      top + 8 i. */
  lemma {:induction false} RowsAt(s: seq<FakturaLinje>, top: int, w: real, i: nat)
    requires i < |s|
    ensures |Rows(s, top, w)| == 4 * |s|
    ensures Rows(s, top, w)[4 * i..4 * i + 4] == Row(s[i], top + 8 * i, w)
  {
    var init := s[..|s| - 1];
    if i < |s| - 1 {
      RowsAt(init, top, w, i);
      assert init[i] == s[i];
    } else if init != [] {
      RowsAt(init, top, w, 0);
    }
  }

  /** Every row is drawn above the height where the next row after the last
      would go, and none is notes text. */
  lemma {:induction false} RowsBounds(s: seq<FakturaLinje>, top: int, w: real)
    ensures Above(Rows(s, top, w), top + 8 * |s|) && NoNotesBody(Rows(s, top, w))
  {
    if s != [] {
      var init := s[..|s| - 1];
      RowsBounds(init, top, w);
      AboveConcat(Rows(init, top, w), Row(s[|s| - 1], top + 8 * (|s| - 1), w), top + 8 * |s|);
      NoNotesBodyConcat(Rows(init, top, w), Row(s[|s| - 1], top + 8 * (|s| - 1), w));
    }
  }

  /** The lowest operation below a table ending at top: the notes body at
      top + 94 if there are notes, the payment term at top + 73 otherwise. */
  function LowestBelow(top: int, betalingsfrist: int, noter: string, w: real): DrawOp {
    if noter != "" then Wrapped(noter, 20.0, top + 94, w - 40.0)
    else Text([Lit("Betalingsfrist: "), Num(betalingsfrist as real), Lit(" dage")], 20.0, top + 73, Left)
  }

  /** Below a table ending at top, nothing is drawn lower than LowestBelow,
      which is drawn; the notes body is drawn exactly when there are notes. */
  lemma BelowTableBounds(top: int, subtotal: real, momssats: real, moms: real, total: real,
                         a: Afsender, betalingsfrist: int, noter: string, w: real)
    ensures var t := BelowTable(top, subtotal, momssats, moms, total, a, betalingsfrist, noter, w);
      var lowest := LowestBelow(top, betalingsfrist, noter, w);
      && lowest in t && Above(t, OpY(lowest) + 1)
      && (noter == "" <==> NoNotesBody(t))
  {
    var tb := TotalsBlock(top, subtotal, momssats, moms, total, w);
    var pb := PaymentBlock(top + 32, a, betalingsfrist);
    var nb := NotesBlock(top + 73, noter, w);
    var last := OpY(LowestBelow(top, betalingsfrist, noter, w));
    assert Above(tb, last + 1) && NoNotesBody(tb);
    assert Above(pb, last + 1) && NoNotesBody(pb);
    assert Above(nb, last + 1);
    AboveConcat(tb, pb, last + 1);
    AboveConcat(tb + pb, nb, last + 1);
    NoNotesBodyConcat(tb, pb);
    NoNotesBodyConcat(tb + pb, nb);
    if noter != "" {
      assert nb[1] in nb;
    } else {
      assert pb[|pb| - 1] in pb;
    }
  }

  /** The operations below the table rows: totals, payment, notes. */
  lemma TailParts(f: Faktura, w: real)
    ensures var n, sub := |f.linjer|, Subtotal(f.linjer);
      var moms := Moms(sub, f.momssats);
      Tail(f, w) == TotalsBlock(125 + 8 * n, sub, f.momssats, moms, Total(sub, moms), w)
                    + PaymentBlock(157 + 8 * n, f.afsender, f.betalingsfrist)
                    + NotesBlock(198 + 8 * n, f.noter, w)
  {
  }

  lemma InHead(f: Faktura, forfald: string, w: real, op: DrawOp)
    requires op in Head(f, forfald, w)
    ensures op in Layout(f, forfald, w)
  {
  }

  lemma InTail(f: Faktura, forfald: string, w: real, op: DrawOp)
    requires op in Tail(f, w)
    ensures op in Layout(f, forfald, w)
  {
  }

  lemma SliceOfSecond(a: seq<DrawOp>, b: seq<DrawOp>, c: seq<DrawOp>, d: seq<DrawOp>, i: nat, j: nat)
    requires i <= j <= |b|
    ensures |a| + j <= |a + b + c + d|
    ensures (a + b + c + d)[|a| + i..|a| + j] == b[i..j]
  {
    assert a + b + c + d == a + (b + (c + d));
    assert (b + (c + d))[i..j] == b[i..j];
  }

  /** Line i (from 0) is drawn at 125 + 8 i, as the i-th group of four
      operations after the head. */
  /** Row i of the rows r, wherever r sits between a prefix h and a suffix. */
  lemma RowInPage(page: seq<DrawOp>, h: seq<DrawOp>, r: seq<DrawOp>, t: seq<DrawOp>, x: DrawOp,
                  s: seq<FakturaLinje>, top: int, w: real, i: nat)
    requires i < |s| && r == Rows(s, top, w) && page == h + r + t + [x]
    ensures |h| + 4 * i + 4 <= |page|
    ensures page[|h| + 4 * i..|h| + 4 * i + 4] == Row(s[i], top + 8 * i, w)
  {
    SliceOfSecond(h, r, t, [x], 4 * i, 4 * i + 4);
    RowsAt(s, top, w, i);
  }

  lemma RowPosition(f: Faktura, forfald: string, w: real, i: nat)
    requires i < |f.linjer|
    ensures var page, k := Layout(f, forfald, w), |Head(f, forfald, w)| + 4 * i;
      k + 4 <= |page| && page[k..k + 4] == Row(f.linjer[i], 125 + 8 * i, w)
  {
    RowInPage(Layout(f, forfald, w), Head(f, forfald, w), Rows(f.linjer, FirstRowY, w), Tail(f, w),
              Footer(w), f.linjer, FirstRowY, w, i);
  }

  lemma HeaderHas(w: real)
    ensures var th := TableHeader(w);
      && FillRect(20.0, 110, w - 40.0, 10) in th
      && TextAt("Beskrivelse", 25.0, 115) in th
      && Text([Lit("Antal")], 110.0, 115, Right) in th
      && Text([Lit("Enhedspris")], 140.0, 115, Right) in th
      && Text([Lit("Beløb")], w - 25.0, 115, Right) in th
  {
  }

  /** The header band: its rectangle from 110, 10 high, and its labels at 115. */
  lemma TableHeaderPositions(f: Faktura, forfald: string, w: real)
    ensures var page := Layout(f, forfald, w);
      && FillRect(20.0, 110, w - 40.0, 10) in page
      && TextAt("Beskrivelse", 25.0, 115) in page
      && Text([Lit("Antal")], 110.0, 115, Right) in page
      && Text([Lit("Enhedspris")], 140.0, 115, Right) in page
      && Text([Lit("Beløb")], w - 25.0, 115, Right) in page
  {
    HeaderHas(w);
    InHead(f, forfald, w, FillRect(20.0, 110, w - 40.0, 10));
    InHead(f, forfald, w, TextAt("Beskrivelse", 25.0, 115));
    InHead(f, forfald, w, Text([Lit("Antal")], 110.0, 115, Right));
    InHead(f, forfald, w, Text([Lit("Enhedspris")], 140.0, 115, Right));
    InHead(f, forfald, w, Text([Lit("Beløb")], w - 25.0, 115, Right));
  }

  lemma TotalsHas(top: int, subtotal: real, momssats: real, moms: real, total: real, w: real)
    ensures var tb := TotalsBlock(top, subtotal, momssats, moms, total, w);
      && HLine(110.0, w - 20.0, top + 10) in tb
      && TextAt("Subtotal:", 120.0, top + 18) in tb
      && KrAt(subtotal, w - 25.0, top + 18) in tb
      && KrAt(moms, w - 25.0, top + 25) in tb
      && KrAt(total, w - 25.0, top + 32) in tb
  {
  }

  /** For n lines: the separator at 135 + 8 n, and subtotal, VAT and total
      at 143 + 8 n, 150 + 8 n and 157 + 8 n. */
  lemma TotalsPositions(f: Faktura, forfald: string, w: real)
    ensures var page, n, sub := Layout(f, forfald, w), |f.linjer|, Subtotal(f.linjer);
      var moms := Moms(sub, f.momssats);
      && HLine(110.0, w - 20.0, 135 + 8 * n) in page
      && TextAt("Subtotal:", 120.0, 143 + 8 * n) in page
      && KrAt(sub, w - 25.0, 143 + 8 * n) in page
      && KrAt(moms, w - 25.0, 150 + 8 * n) in page
      && KrAt(Total(sub, moms), w - 25.0, 157 + 8 * n) in page
  {
    var n, sub := |f.linjer|, Subtotal(f.linjer);
    var moms := Moms(sub, f.momssats);
    var top := 125 + 8 * n;
    TotalsHas(top, sub, f.momssats, moms, Total(sub, moms), w);
    TailParts(f, w);
    InTail(f, forfald, w, HLine(110.0, w - 20.0, top + 10));
    InTail(f, forfald, w, TextAt("Subtotal:", 120.0, top + 18));
    InTail(f, forfald, w, KrAt(sub, w - 25.0, top + 18));
    InTail(f, forfald, w, KrAt(moms, w - 25.0, top + 25));
    InTail(f, forfald, w, KrAt(Total(sub, moms), w - 25.0, top + 32));
  }

  lemma SlotsHas(a: Afsender, m: Modtager)
    ensures TextAt(Or(a.firmanavn, "Dit Firma"), 20.0, 20) in SenderBlock(a)
    ensures a.email != "" ==> TextAt(a.email, 20.0, 43) in SenderBlock(a)
    ensures a.telefon != "" ==> TextAt("Tlf: " + a.telefon, 100.0, 43) in SenderBlock(a)
    ensures TextAt(Or(m.firmanavn, "Kundenavn"), 20.0, 81) in RecipientBlock(m)
    ensures m.cvr != "" ==> TextAt("CVR: " + m.cvr, 20.0, 96) in RecipientBlock(m)
  {
  }

  /** The optional lines of the sender and recipient blocks keep fixed
      heights: an empty field leaves a gap, and later lines do not move up.
      The sender's e-mail is at 43 and the recipient's name (or "Kundenavn")
      at 81 whatever else is filled in. */
  lemma FixedSlots(f: Faktura, forfald: string, w: real)
    ensures var page, a, m := Layout(f, forfald, w), f.afsender, f.modtager;
      && TextAt(Or(a.firmanavn, "Dit Firma"), 20.0, 20) in page
      && (a.email != "" ==> TextAt(a.email, 20.0, 43) in page)
      && (a.telefon != "" ==> TextAt("Tlf: " + a.telefon, 100.0, 43) in page)
      && TextAt(Or(m.firmanavn, "Kundenavn"), 20.0, 81) in page
      && (m.cvr != "" ==> TextAt("CVR: " + m.cvr, 20.0, 96) in page)
  {
    var a, m := f.afsender, f.modtager;
    SlotsHas(a, m);
    InHead(f, forfald, w, TextAt(Or(a.firmanavn, "Dit Firma"), 20.0, 20));
    if a.email != "" { InHead(f, forfald, w, TextAt(a.email, 20.0, 43)); }
    if a.telefon != "" { InHead(f, forfald, w, TextAt("Tlf: " + a.telefon, 100.0, 43)); }
    InHead(f, forfald, w, TextAt(Or(m.firmanavn, "Kundenavn"), 20.0, 81));
    if m.cvr != "" { InHead(f, forfald, w, TextAt("CVR: " + m.cvr, 20.0, 96)); }
  }

  lemma NotesHas(top: int, noter: string, w: real)
    requires noter != ""
    ensures TextAt("Noter:", 20.0, top + 15) in NotesBlock(top, noter, w)
    ensures Wrapped(noter, 20.0, top + 21, w - 40.0) in NotesBlock(top, noter, w)
  {
  }

  /** The page holds no notes body exactly when its parts hold none. */
  lemma NoNotesBodyOfPage(f: Faktura, forfald: string, w: real)
    ensures NoNotesBody(Layout(f, forfald, w))
      <==> NoNotesBody(Head(f, forfald, w)) && NoNotesBody(Rows(f.linjer, FirstRowY, w)) && NoNotesBody(Tail(f, w))
  {
    var h, r, t := Head(f, forfald, w), Rows(f.linjer, FirstRowY, w), Tail(f, w);
    NoNotesBodyConcat(h, r);
    NoNotesBodyConcat(h + r, t);
    NoNotesBodyConcat(h + r + t, [Footer(w)]);
  }

  /** The notes heading and body are drawn exactly when there are notes, at
      213 + 8 n and 219 + 8 n for n lines. */
  lemma NotesPositions(f: Faktura, forfald: string, w: real)
    ensures var page, n := Layout(f, forfald, w), |f.linjer|;
      && (f.noter != "" ==> TextAt("Noter:", 20.0, 213 + 8 * n) in page
                            && Wrapped(f.noter, 20.0, 219 + 8 * n, w - 40.0) in page)
      && (f.noter == "" <==> NoNotesBody(page))
  {
    var n, sub := |f.linjer|, Subtotal(f.linjer);
    var moms := Moms(sub, f.momssats);
    var top := 125 + 8 * n;
    TailParts(f, w);
    if f.noter != "" {
      NotesHas(top + 73, f.noter, w);
      InTail(f, forfald, w, TextAt("Noter:", 20.0, top + 88));
      InTail(f, forfald, w, Wrapped(f.noter, 20.0, top + 94, w - 40.0));
    }
    BelowTableBounds(top, sub, f.momssats, moms, Total(sub, moms), f.afsender, f.betalingsfrist, f.noter, w);
    HeadBounds(f, forfald, w);
    RowsBounds(f.linjer, FirstRowY, w);
    NoNotesBodyOfPage(f, forfald, w);
  }

  /** The footer is the last operation, centred at 285. */
  lemma FooterLast(f: Faktura, forfald: string, w: real)
    ensures var page := Layout(f, forfald, w);
      |page| > 0 && page[|page| - 1] == Text([Lit(FooterText)], w / 2.0, 285, Center)
  {
  }

  lemma DropLast(a: seq<DrawOp>, x: DrawOp)
    ensures (a + [x])[..|a|] == a
  {
  }

  lemma AboveWeaken(ops: seq<DrawOp>, limit: int, larger: int)
    requires Above(ops, limit) && limit <= larger
    ensures Above(ops, larger)
  {
  }

  /** A part drawn above limit, then two parts drawn no lower than lowest,
      which the last of them holds: the whole is above limit exactly when
      lowest is. */
  lemma AboveOfParts(h: seq<DrawOp>, r: seq<DrawOp>, t: seq<DrawOp>, limit: int, lowest: DrawOp)
    requires Above(h, limit) && Above(r, OpY(lowest) + 1)
    requires lowest in t && Above(t, OpY(lowest) + 1)
    ensures Above(h + r + t, limit) <==> OpY(lowest) < limit
  {
    if OpY(lowest) < limit {
      AboveWeaken(r, OpY(lowest) + 1, limit);
      AboveWeaken(t, OpY(lowest) + 1, limit);
      AboveConcat(h, r, limit);
      AboveConcat(h + r, t, limit);
    } else {
      assert lowest in h + r + t;
    }
  }

  /** The page has no overflow handling: the content stays clear of the
      footer at 285 only for at most 10 lines, or 8 when there are notes. */
  lemma ClearOfFooter(f: Faktura, forfald: string, w: real)
    ensures var page := Layout(f, forfald, w);
      Above(page[..|page| - 1], 285) <==> |f.linjer| <= (if f.noter != "" then 8 else 10)
  {
    var n, sub := |f.linjer|, Subtotal(f.linjer);
    var moms := Moms(sub, f.momssats);
    var h, r := Head(f, forfald, w), Rows(f.linjer, FirstRowY, w);
    var t := BelowTable(125 + 8 * n, sub, f.momssats, moms, Total(sub, moms),
                        f.afsender, f.betalingsfrist, f.noter, w);
    assert Tail(f, w) == t;
    DropLast(h + r + t, Footer(w));
    BelowTableBounds(125 + 8 * n, sub, f.momssats, moms, Total(sub, moms),
                     f.afsender, f.betalingsfrist, f.noter, w);
    HeadBounds(f, forfald, w);
    AboveWeaken(h, 116, 285);
    RowsBounds(f.linjer, FirstRowY, w);
    AboveWeaken(r, 125 + 8 * n, 199 + 8 * n);
    AboveOfParts(h, r, t, 285, LowestBelow(125 + 8 * n, f.betalingsfrist, f.noter, w));
  }
}
