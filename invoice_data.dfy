/** The records the invoice workspace works on: line items, invoices
    (also used as the shape of the draft form), statuses and views. */
module InvoiceData {

  datatype Option<T> = None | Some(value: T)

  /** The three values the status selector offers. */
  datatype Status = Pending | Paid | Overdue

  /** One billable line; its amount is derived, never stored. */
  datatype LineItem = LineItem(description: string, quantity: real, rate: real)

  /** An invoice. The draft form has the same shape; a fresh draft has
      no identifier of its own (modelled as the empty string), and a
      submit always gives the stored copy its identifier. */
  datatype Invoice = Invoice(
    id: string,
    clientName: string,
    clientEmail: string,
    clientAddress: string,
    date: string,
    dueDate: string,
    items: seq<LineItem>,
    notes: string,
    status: Status)

  /** The two primary panels. */
  datatype View = Dashboard | Create

  /** The line a fresh draft starts with and `addItem` appends. */
  const BlankItem: LineItem := LineItem("", 1.0, 0.0)

  /** The draft after a reset. `today` stands for the current date, read
      from the clock in the application. */
  function DefaultForm(today: string): (f: Invoice)
    ensures f.items == [BlankItem] && f.status == Pending && f.date == today
    ensures f.clientName == "" && f.clientEmail == "" && f.clientAddress == ""
    ensures f.dueDate == "" && f.notes == ""
  {
    Invoice("", "", "", "", today, "", [BlankItem], "", Pending)
  }
}
