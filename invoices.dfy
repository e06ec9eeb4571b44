/** The single persisted entity of the application, the Invoice row, and the
    shapes used to create it and to update it field by field. */
module Invoices {
  import opened Wrappers

  /** The calendar day of a due date. The `dueDate` column holds a full
      timestamp; the model keeps only its year, month and day. */
  datatype Date = Date(year: int, month: int, day: int)

  /** Invoice status codes: 0 = Unpaid, 1 = Pending, 2 = Paid (a bare integer
      column; nothing in the store restricts it to these three). */
  const Unpaid := 0
  const Pending := 1
  const Paid := 2

  /** A row of the Invoice table (the system-managed timestamps are not modelled). */
  datatype Invoice = Invoice(
    id: int,
    name: string,
    invoiceNumber: string,
    amount: real,
    dueDate: Date,
    status: int)

  /** What a create call supplies: every column except the generated id. */
  datatype InvoiceData = InvoiceData(
    name: string,
    invoiceNumber: string,
    amount: real,
    dueDate: Date,
    status: int)

  /** What an update call supplies: any subset of the columns except the id. */
  datatype InvoicePatch = InvoicePatch(
    name: Option<string>,
    invoiceNumber: Option<string>,
    amount: Option<real>,
    dueDate: Option<Date>,
    status: Option<int>)

  /** The row a successful create inserts under the generated `id`. */
  function WithId(id: int, d: InvoiceData): (inv: Invoice)
    ensures inv.id == id && DataOf(inv) == d
  {
    Invoice(id, d.name, d.invoiceNumber, d.amount, d.dueDate, d.status)
  }

  /** The columns of a row other than its id. */
  function DataOf(inv: Invoice): InvoiceData
  {
    InvoiceData(inv.name, inv.invoiceNumber, inv.amount, inv.dueDate, inv.status)
  }

  /** A patch that sets every column to the given values. */
  function FullPatch(d: InvoiceData): InvoicePatch
  {
    InvoicePatch(Some(d.name), Some(d.invoiceNumber), Some(d.amount), Some(d.dueDate), Some(d.status))
  }

  function Pick<T>(update: Option<T>, current: T): T
  {
    if update.Some? then update.value else current
  }

  /** The row after an update: supplied columns take the new value, the others
      and the id keep theirs. */
  function ApplyPatch(inv: Invoice, p: InvoicePatch): (r: Invoice)
    ensures r.id == inv.id
    ensures r.name == (if p.name.Some? then p.name.value else inv.name)
    ensures r.invoiceNumber == (if p.invoiceNumber.Some? then p.invoiceNumber.value else inv.invoiceNumber)
    ensures r.amount == (if p.amount.Some? then p.amount.value else inv.amount)
    ensures r.dueDate == (if p.dueDate.Some? then p.dueDate.value else inv.dueDate)
    ensures r.status == (if p.status.Some? then p.status.value else inv.status)
  {
    Invoice(inv.id, Pick(p.name, inv.name), Pick(p.invoiceNumber, inv.invoiceNumber),
            Pick(p.amount, inv.amount), Pick(p.dueDate, inv.dueDate), Pick(p.status, inv.status))
  }

  /** An update that supplies every column replaces all of them and keeps the id. */
  lemma FullPatchReplaces(inv: Invoice, d: InvoiceData)
    ensures ApplyPatch(inv, FullPatch(d)) == WithId(inv.id, d)
  {
  }
}
