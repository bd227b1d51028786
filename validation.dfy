/** The two-stage check a submit runs before anything is stored. */
module Validation {
  import opened InvoiceData
  import opened Totals

  /** Why a submit was refused; each stands for one of the two alerts. */
  datatype Rejection = MissingRequiredFields | InvalidItemDetails

  /** Client name, client email, date and due date are all filled in. */
  predicate HeaderComplete(f: Invoice) {
    f.clientName != "" && f.clientEmail != "" && f.date != "" && f.dueDate != ""
  }

  /** A line with a description, a positive quantity and a non-negative rate. */
  predicate ItemAcceptable(item: LineItem) {
    item.description != "" && item.quantity > 0.0 && item.rate >= 0.0
  }

  /** `items.some(...)`: whether some line fails `ItemAcceptable`,
      examined from the first line on. */
  function SomeBadItem(items: seq<LineItem>): (bad: bool)
    ensures bad <==> exists i :: 0 <= i < |items| && !ItemAcceptable(items[i])
  {
    if items == [] then false
    else
      assert forall i :: 1 <= i < |items| ==> items[i] == items[1..][i - 1];
      !ItemAcceptable(items[0]) || SomeBadItem(items[1..])
  }

  /** The verdict on a draft: the header is checked first, then the lines. */
  function Validate(f: Invoice): (r: Option<Rejection>)
    ensures r == None <==> HeaderComplete(f) && forall i :: 0 <= i < |f.items| ==> ItemAcceptable(f.items[i])
    ensures r == Some(MissingRequiredFields) <==> !HeaderComplete(f)
    ensures r == Some(InvalidItemDetails) <==>
              HeaderComplete(f) && exists i :: 0 <= i < |f.items| && !ItemAcceptable(f.items[i])
  {
    if !HeaderComplete(f) then Some(MissingRequiredFields)
    else if SomeBadItem(f.items) then Some(InvalidItemDetails)
    else None
  }

  /** The identifier plays no part in the verdict. */
  lemma ValidateIgnoresId(f: Invoice, id: string)
    ensures Validate(f.(id := id)) == Validate(f)
  {
  }

  /** A fresh draft is refused as it stands: its client fields and due date
      are empty. */
  lemma DefaultFormRefused(today: string)
    ensures Validate(DefaultForm(today)) == Some(MissingRequiredFields)
  {
  }

  /** An accepted draft never has a negative total. */
  lemma AcceptedTotalNonNegative(f: Invoice)
    requires Validate(f) == None
    ensures Total(f.items) >= 0.0
  {
  }
}
