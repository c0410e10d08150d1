# faktura-generator — a Dafny model of the invoice page

The faktura-generator is a single web page for writing Danish invoices. The
user fills in a sender (afsender), a recipient (modtager), an invoice number
and date, a payment term in days (betalingsfrist), a VAT rate (momssats),
free-text notes (noter) and a list of invoice lines (linjer) that can be
added, removed and edited. From these the page derives the subtotal, the VAT
(moms), the total and the due date (forfaldsdato). A button paints the
invoice as a one-page PDF with jsPDF.

This project models that page, `src/app/page.tsx`:

- `Invoice` (invoice.dfy): the records FakturaLinje, Afsender and Modtager,
  the whole invoice state as a value, the blank line, and the state the page
  starts in.
- `LineItems` (lineitems.dfy): adding, removing and editing lines. These are
  pure list operations: the page computes a new list and hands it to React.
  The module also replays any sequence of add and remove actions from the
  start state.
- `Totals` (totals.dfy): subtotal, VAT and total. Amounts are exact reals.
- `Calendar`, `Digits`, `IsoDate` and `DueDate` (calendar.dfy, digits.dfy,
  isodate.dfy, duedate.dfy): the due date. This is the invoice date read as
  "YYYY-MM-DD", moved forward by the payment term with calendar rollover,
  and written back in the date part of `toISOString`. A day number (days
  since 1970-01-01) gives day arithmetic an independent meaning: adding k
  days must raise it by k.
- `PdfLayout` (pdflayout.dfy): the PDF.
  - `GenererPDF` and one method per commented section of the source issue
    draw operations with a running y cursor, as the source does.
  - They are proved equal to `Layout`, a declarative description of the page
    in which every block sits at an absolute height.
  - Lemmas then state where each item lands on the page.

Some behaviour of the code differs from what one might expect, and the model
keeps it:

- One might expect a removed line's id never to come back. The code gives a
  new line the largest id present plus one, so an id removed earlier can be
  issued again. `LineItems.IdReused` exhibits this: add, remove line 2, add
  gives id 2 a second time.
- One might expect an empty optional sender or recipient field to let the
  lines below it move up. The code skips the text but still advances the y
  cursor past it, so the remaining lines keep their fixed heights
  (`PdfLayout.FixedSlots`) and a gap stays.
- Quantity and unit price are whatever number the input field yields. The
  fields carry `min` hints, but the page stores any number it receives, so
  the model does not restrict them to positive integers or non-negative
  prices.

The page is never broken into several pages. For n lines, the payment term
(the lowest text when there are no notes) sits at 198 + 8n. With notes, the
first line of the notes body sits at 219 + 8n, and any further wrapped lines
come below it. The footer is at 285. `PdfLayout.ClearOfFooter` shows that
without notes everything is above the footer exactly up to 10 lines. With
notes it shows that the first notes line is above the footer exactly up to
8 lines. That is necessary for a clear page, but not sufficient when the
notes wrap onto more lines.

## Model

| member | source | states |
|---|---|---|
| Invoice.BlankLinje | src/app/page.tsx:88 | a new line has the given id, empty description, quantity 1 and unit price 0 |
| Invoice.StartFaktura | src/app/page.tsx:33-63 | the initial state: invoice number "<year>-001", invoice date today, term 14 days, VAT 25 %, empty sender and recipient, one blank line with id 1, no notes |
| Digits.Decimal | src/app/page.tsx:33 | `${year}`: a non-empty digit string without a leading zero whose value is the number |
| LineItems.MaxId | src/app/page.tsx:87 | `Math.max(...ids, 0)`: at least 0 and every id, and equal to one of the ids unless it is 0 |
| LineItems.TilfoejLinje | src/app/page.tsx:86-89 | appends exactly one blank line, keeps the old lines in order, and the new id is larger than every old id |
| LineItems.TilfoejLinjeValid | src/app/page.tsx:86-89 | adding a line to a list with distinct ids gives a non-empty list with distinct ids |
| LineItems.TilfoejLinjeIds | src/app/page.tsx:86-89 | adding n lines to the start state gives ids 1, 2, …, n + 1 |
| LineItems.Without | src/app/page.tsx:94 | the filter keeps exactly the lines whose id differs, and never lengthens the list |
| LineItems.WithoutAppend | src/app/page.tsx:94 | filtering distributes over concatenation, so the kept lines stay in their order |
| LineItems.WithoutAbsent | src/app/page.tsx:94 | filtering on an id no line has changes nothing |
| LineItems.WithoutUnique | src/app/page.tsx:94 | with distinct ids, filtering on line i's id removes exactly line i |
| LineItems.FjernLinje | src/app/page.tsx:92-96 | a list of at most one line is left unchanged; otherwise exactly the lines with another id remain |
| LineItems.FjernLinjeLast | src/app/page.tsx:93 | the last remaining line cannot be removed |
| LineItems.FjernLinjeAbsent | src/app/page.tsx:92-96 | removing an id no line has changes nothing |
| LineItems.FjernLinjeRemovesOne | src/app/page.tsx:92-96 | in a valid list of several lines, removing line i's id gives the list without line i, the rest in order |
| LineItems.FjernLinjeValid | src/app/page.tsx:92-96 | removal keeps the list non-empty with distinct ids |
| LineItems.Saet | src/app/page.tsx:101 | `{ ...l, [felt]: vaerdi }`: only the named field takes the new value; id and the other fields are kept |
| LineItems.OpdaterLinje | src/app/page.tsx:99-103 | same length, same ids in the same order; each line with the id is updated, every other line is unchanged |
| LineItems.OpdaterLinjeAbsent | src/app/page.tsx:99-103 | editing an id no line has changes nothing |
| LineItems.OpdaterLinjeUnique | src/app/page.tsx:99-103 | with distinct ids, editing line i's id replaces line i alone |
| LineItems.OpdaterLinjeValid | src/app/page.tsx:99-103 | editing keeps the list non-empty with distinct ids |
| LineItems.OpdaterLinjeIdempotent | src/app/page.tsx:99-103 | setting the same field to the same value twice is the same as once |
| LineItems.AnvendValid | src/app/page.tsx:86-96 | one add or remove action keeps the list non-empty with distinct ids |
| LineItems.SpilValid | src/app/page.tsx:86-96 | any sequence of add and remove actions keeps the list non-empty with distinct ids |
| LineItems.ReachableValid | src/app/page.tsx:59-96 | every list reachable from the start state is non-empty with distinct ids |
| LineItems.IdReused | src/app/page.tsx:87 | add, remove line 2, add: the new line gets id 2 again |
| Totals.LinjeTotal | src/app/page.tsx:193 | a line's amount is 0 exactly when its quantity or unit price is 0, and is not negative when neither is |
| Totals.Subtotal | src/app/page.tsx:66-68 | the reduce from 0: 0 for no lines and a single line's amount for one line; the general sum laws are the lemmas below |
| Totals.Total | src/app/page.tsx:74-76 | the total equals the subtotal when VAT is 0 and is at least the subtotal when VAT is not negative |
| Totals.Moms | src/app/page.tsx:70-72 | VAT is 0 at rate 0 or subtotal 0, and a quarter of the subtotal at rate 25 |
| Totals.SubtotalAppend | src/app/page.tsx:66-68 | the subtotal of two lists joined is the sum of their subtotals |
| Totals.SubtotalRemove | src/app/page.tsx:66-68 | removing line i takes exactly its line total off the subtotal |
| Totals.SubtotalPermutation | src/app/page.tsx:66-68 | lists with the same lines in any order have the same subtotal |
| Totals.SubtotalIsSumFromFront | src/app/page.tsx:66-68 | the left fold equals the sum taken from the front |
| Totals.SubtotalNonNegative | src/app/page.tsx:66-68 | if no line total is negative, neither is the subtotal |
| Totals.TotalScale | src/app/page.tsx:70-76 | total = subtotal × (100 + rate) / 100 |
| Totals.TotalIsSumOfBrutto | src/app/page.tsx:66-76 | the total equals the sum of the lines' gross amounts |
| Totals.SubtotalTilfoejLinje | src/app/page.tsx:86-89 | adding a blank line leaves the subtotal unchanged |
| Totals.SubtotalFjernLinje | src/app/page.tsx:92-96 | removing line i lowers the subtotal by its line total |
| Totals.SubtotalOpdaterLinje | src/app/page.tsx:99-103 | editing line i changes the subtotal by the change in its line total |
| Totals.ExampleOneLine | src/app/page.tsx:66-76 | 2 × 500 at 25 %: subtotal 1000, VAT 250, total 1250 |
| Totals.ExampleTwoLines | src/app/page.tsx:66-76 | 1 × 100 and 3 × 50 at 0 %: subtotal 250, VAT 0, total 250 |
| Calendar.DaysInMonth | src/app/page.tsx:81 | 28 to 31 days; 29 exactly in February of a leap year |
| Calendar.NextDayNumber | src/app/page.tsx:81 | the next day has day number one higher, across month and year ends |
| Calendar.PrevDayNumber | src/app/page.tsx:81 | the previous day has day number one lower |
| Calendar.AddDays | src/app/page.tsx:81 | `setDate(getDate() + k)`: a valid date whose day number is k higher |
| Calendar.DayNumberMonotone | src/app/page.tsx:81 | an earlier date has a smaller day number |
| Calendar.DayNumberInjective | src/app/page.tsx:81 | different dates have different day numbers |
| Calendar.AddDaysUnique | src/app/page.tsx:81 | AddDays(d, k) is e exactly when e's day number is d's plus k |
| Calendar.AddDaysCompose | src/app/page.tsx:81 | adding a days and then b days is adding a + b days |
| Calendar.YearBound | src/app/page.tsx:81-82 | within the Date range of ±10^8 days the year has at most six digits |
| IsoDate.YearText | src/app/page.tsx:82 | four digits for years 0-9999, otherwise a sign and six digits |
| IsoDate.Parse | src/app/page.tsx:80 | an accepted string has length 10 with dashes at 4 and 7, and reads as a valid date of years 0-9999 |
| IsoDate.Format | src/app/page.tsx:82 | the date part of `toISOString`: six characters more than the year text, and for years 0-9999 ten characters with dashes at 4 and 7 |
| IsoDate.ParseFormat | src/app/page.tsx:80-82 | writing a date and reading it back gives that date |
| IsoDate.FormatParse | src/app/page.tsx:80-82 | a string that reads as a date is exactly the text of that date |
| IsoDate.FormatParts | src/app/page.tsx:82 | the year, the dashes, the month and the day sit at fixed positions of the text |
| IsoDate.FormatInjective | src/app/page.tsx:82 | different dates are written differently |
| IsoDate.YearTextInjective | src/app/page.tsx:82 | different years are written differently |
| DueDate.Forfaldsdato | src/app/page.tsx:79-83 | no due date when the invoice date does not read as a date; a due date is at least ten characters long |
| DueDate.FourDigitYearInRange | src/app/page.tsx:81-82 | every date of years 0-9999 lies within the Date range |
| DueDate.ForfaldsdatoIsLater | src/app/page.tsx:79-83 | the due date is the text of the date whose day number is the invoice date's plus the term |
| DueDate.ForfaldsdatoParses | src/app/page.tsx:79-83 | that due date reads back as that date |
| DueDate.ForfaldsdatoReadsBack | src/app/page.tsx:79-83 | any due date that reads back is exactly the term after the invoice date |
| DueDate.ExampleMonthEnd | src/app/page.tsx:79-83 | 2025-01-25 plus 14 days is 2025-02-08 |
| DueDate.ExampleYearEnd | src/app/page.tsx:79-83 | 2025-12-20 plus 14 days is 2026-01-03 |
| DueDate.EmptyDateHasNoDueDate | src/app/page.tsx:80-82 | an empty invoice date gives no due date |
| PdfLayout.Or | src/app/page.tsx:131 | `s \|\| fallback`: s when it is non-empty, the fallback exactly when s is empty |
| PdfLayout.DrawSender | src/app/page.tsx:126-143 | the sender block with the name at 20 and address, postal town, CVR and email at 28, 33, 38 and 43, each present only when set; the cursor ends at 43 |
| PdfLayout.DrawTitle | src/app/page.tsx:145-158 | the title block at 20, 30, 35 and 40, right-aligned; the cursor ends at 40 |
| PdfLayout.DrawRecipient | src/app/page.tsx:160-174 | the recipient block from 70 to 96, with the name at 81 falling back to "Kundenavn" |
| PdfLayout.DrawTableHeader | src/app/page.tsx:176-185 | the header band: its rect from 110, 10 high, and the four column titles at 115 |
| PdfLayout.DrawRows | src/app/page.tsx:187-199 | one row of four texts per line, 8 apart; the cursor ends 8 per line below where it began |
| PdfLayout.DrawTotals | src/app/page.tsx:201-218 | separator, subtotal, VAT and total at 10, 18, 25 and 32 below the table |
| PdfLayout.DrawPayment | src/app/page.tsx:220-231 | the payment block, 25 to 41 below the total, bank lines only when set |
| PdfLayout.DrawNotes | src/app/page.tsx:233-242 | the notes heading and body 15 and 21 lower, only when there are notes |
| PdfLayout.GenererPDF | src/app/page.tsx:123-256 | the operations issued are exactly the page `Layout` describes, in order; the file is "faktura-<nr>.pdf" |
| PdfLayout.Row | src/app/page.tsx:193-197 | one table row is four operations, all at the row's height |
| PdfLayout.Rows | src/app/page.tsx:192-199 | the rows of n lines are 4n operations, all between top and top + 8n |
| PdfLayout.Layout | src/app/page.tsx:123-252 | the page is the head, four operations per line, the part below the table and the footer |
| PdfLayout.HeadBounds | src/app/page.tsx:128-185 | everything above the rows is drawn above 116 |
| PdfLayout.RowsAt | src/app/page.tsx:192-199 | four operations per line; those of line i are its row at top + 8i |
| PdfLayout.RowsBounds | src/app/page.tsx:192-199 | the rows of n lines lie above top + 8n |
| PdfLayout.BelowTableBounds | src/app/page.tsx:201-242 | the lowest item below the table is the notes body when there are notes, else the payment term; no notes body appears exactly when there are no notes |
| PdfLayout.RowPosition | src/app/page.tsx:187-199 | on the page, line i's row is drawn at 125 + 8i, right after the head |
| PdfLayout.TableHeaderPositions | src/app/page.tsx:176-185 | the page has the header rect from 110, 10 high, and the four titles Beskrivelse, Antal, Enhedspris and Beløb at 115 |
| PdfLayout.TotalsPositions | src/app/page.tsx:201-218 | with n lines: separator at 135 + 8n, subtotal, VAT and total at 143 + 8n, 150 + 8n and 157 + 8n |
| PdfLayout.FixedSlots | src/app/page.tsx:128-174 | the sender name at 20, email and phone at 43, the recipient name (or "Kundenavn") at 81 and CVR at 96, whatever else is empty |
| PdfLayout.NoNotesBodyOfPage | src/app/page.tsx:233-242 | the page has no notes body exactly when the part below the table has none |
| PdfLayout.NotesPositions | src/app/page.tsx:233-242 | with notes, the heading at 213 + 8n and the body at 219 + 8n; the page has a notes body exactly when there are notes |
| PdfLayout.FooterLast | src/app/page.tsx:244-252 | the last operation is the footer text, centred at 285 |
| PdfLayout.ClearOfFooter | src/app/page.tsx:123-252 | everything before the footer, with the notes body as its first line, is above 285 exactly when there are at most 8 lines with notes, or at most 10 without |

## Left out

- The React component, its JSX form and its re-rendering are left out. The
  state is modelled as a value and the list operations as functions from the
  old list to the new one.
- jsPDF's font, size and colour calls draw nothing, so they are not draw
  operations in the model. The document object and `doc.save` are modelled
  only as the list of operations and the file name.
- PdfLayout.ClearOfFooter: with notes, the bound covers only the first line
  of the notes body. The further lines that `splitTextToSize` produces are
  drawn below it and are not modelled. So at most 8 lines with notes is
  necessary for a clear page, not sufficient.
- `doc.splitTextToSize` is left out. It depends on font metrics, so the notes
  body is one operation carrying the text and the wrap width.
- formatKr (`toLocaleString("da-DK")`), formatDato (`toLocaleDateString`) and
  `toString` of numbers are locale and engine formatting. They stay abstract
  pieces (`Kr`, `Num`, `DateText`) of a text.
- JavaScript numbers are floating point. Amounts here are exact reals, so
  rounding, NaN and Infinity are not modelled.
- Totals.Moms: computed exactly, without floating-point rounding of
  `momssats / 100`.
- `new Date(s)` accepts many formats besides "YYYY-MM-DD". Only that form,
  which a date input produces, is read. Anything else gives no due date.
- DueDate.Forfaldsdato: the source throws a RangeError from `toISOString`
  on an invalid date. The model returns None instead.
- DueDate.Forfaldsdato: the local time zone and daylight-saving shifts are
  not modelled. `new Date("YYYY-MM-DD")` is midnight UTC, and `setDate`
  works in local time. Near a DST change this can move the result a day.
  The model counts whole calendar days.
- Invoice.StartFaktura: the payment term is a whole number of days. The
  input stores `Number(...)`, which can be a fraction. `setDate` would then
  truncate the sum of day and term, and the PDF would print the fraction.
- The clock is a parameter. `StartFaktura` takes the current year and
  today's date as inputs.
- GenererPDF takes the due date as an input, as the page passes its
  derived `forfaldsdato`.
- GenererPDF takes the page width as an input, as jsPDF reports it.
- LineItems.Saet: the field key is a closed choice of description,
  quantity or unit price. The page never sets the `id` key, and the value
  arrives already typed.
- src/app/layout.tsx and src/app/sitemap.ts, page metadata and the sitemap,
  are not part of this model.
