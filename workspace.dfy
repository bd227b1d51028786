/** The invoice workspace: the list transitions a submit or a delete makes,
    and the component state with one method per event handler. */
module Workspace {
  import opened InvoiceData
  import opened Sequences
  import opened Totals
  import opened InvoiceIds
  import opened Search
  import opened Validation

  /** The edit commit: every entry carrying `id` becomes the draft under
      that id; every other entry stays as it is, where it is. */
  function ReplaceById(invs: seq<Invoice>, id: string, draft: Invoice): (r: seq<Invoice>)
    ensures |r| == |invs|
    ensures forall i :: 0 <= i < |r| ==> r[i].id == invs[i].id
    ensures forall i :: 0 <= i < |r| && invs[i].id == id ==> r[i] == draft.(id := id)
    ensures forall i :: 0 <= i < |r| && invs[i].id != id ==> r[i] == invs[i]
  {
    if invs == [] then []
    else [if invs[0].id == id then draft.(id := id) else invs[0]] + ReplaceById(invs[1..], id, draft)
  }

  /** The create commit: the draft, under the next sequential identifier,
      appended at the end. */
  function AppendNew(invs: seq<Invoice>, draft: Invoice): (r: seq<Invoice>)
    ensures |r| == |invs| + 1 && r[..|invs|] == invs
    ensures r[|invs|].id == InvoiceId(|invs|)
    ensures r[|invs|] == draft.(id := InvoiceId(|invs|))
  {
    invs + [draft.(id := InvoiceId(|invs|))]
  }

  /** What an accepted submit does to the list: replace the entries of the
      invoice being edited, or append a new one. */
  function Commit(invs: seq<Invoice>, editing: Option<Invoice>, draft: Invoice): (r: seq<Invoice>)
    ensures editing.Some? ==> |r| == |invs| && forall i :: 0 <= i < |r| ==> r[i].id == invs[i].id
    ensures editing.None? ==> |r| == |invs| + 1 && r[..|invs|] == invs
    ensures editing.None? ==> r[|invs|] == draft.(id := InvoiceId(|invs|))
  {
    match editing
    case Some(e) => ReplaceById(invs, e.id, draft)
    case None => AppendNew(invs, draft)
  }

  function IdIsNot(id: string): Invoice -> bool {
    (inv: Invoice) => inv.id != id
  }

  /** `deleteInvoice`: drop every entry with the given id; the others keep
      their order and their ids. */
  function DeleteById(invs: seq<Invoice>, id: string): (r: seq<Invoice>)
    ensures IsSubsequence(r, invs)
    ensures forall inv :: inv in r <==> inv in invs && inv.id != id
    ensures forall inv :: multiset(r)[inv] == if inv.id != id then multiset(invs)[inv] else 0
  {
    var r := Filter(invs, IdIsNot(id));
    FilterIsSubsequence(invs, IdIsNot(id));
    forall inv ensures multiset(r)[inv] == if inv.id != id then multiset(invs)[inv] else 0 {
      FilterCount(invs, IdIsNot(id), inv);
    }
    r
  }

  /** Deleting an id nobody carries changes nothing. */
  lemma DeleteAbsentId(invs: seq<Invoice>, id: string)
    requires forall i :: 0 <= i < |invs| ==> invs[i].id != id
    ensures DeleteById(invs, id) == invs
  {
    FilterKeepsAll(invs, IdIsNot(id));
  }

  /** Deleting twice is deleting once. */
  lemma DeleteIdempotent(invs: seq<Invoice>, id: string)
    ensures DeleteById(DeleteById(invs, id), id) == DeleteById(invs, id)
  {
    var once := DeleteById(invs, id);
    assert forall i :: 0 <= i < |once| ==> once[i] in once;
    DeleteAbsentId(once, id);
  }

  /** The ids are the ones a run of creates without deletes produces:
      "001", "002", ... in order. */
  ghost predicate DenseIds(invs: seq<Invoice>) {
    forall i :: 0 <= i < |invs| ==> invs[i].id == InvoiceId(i)
  }

  ghost predicate DistinctIds(invs: seq<Invoice>) {
    forall i, j :: 0 <= i < j < |invs| ==> invs[i].id != invs[j].id
  }

  lemma DenseIdsAreDistinct(invs: seq<Invoice>)
    requires DenseIds(invs)
    ensures DistinctIds(invs)
  {
    forall i, j | 0 <= i < j < |invs| ensures invs[i].id != invs[j].id {
      IdInjective(i, j);
    }
  }

  /** Creates and edits keep the ids dense, hence distinct. */
  lemma CommitKeepsDenseIds(invs: seq<Invoice>, editing: Option<Invoice>, draft: Invoice)
    requires DenseIds(invs)
    ensures DenseIds(Commit(invs, editing, draft))
  {
    var r := Commit(invs, editing, draft);
    forall i | 0 <= i < |r| ensures r[i].id == InvoiceId(i) {
      if i < |invs| {
        assert invs[i].id == InvoiceId(i);
        if editing.None? {
          assert r[i] == r[..|invs|][i];
        }
      }
    }
  }

  /** What every stored invoice satisfies: it has a line and passes the
      submit check. */
  predicate Stored(inv: Invoice) {
    inv.items != [] && Validate(inv) == None
  }

  /** A commit of an accepted draft with a line stores only such invoices. */
  lemma CommitKeepsStored(invs: seq<Invoice>, editing: Option<Invoice>, draft: Invoice)
    requires forall inv :: inv in invs ==> Stored(inv)
    requires Stored(draft)
    ensures forall inv :: inv in Commit(invs, editing, draft) ==> Stored(inv)
  {
    match editing
    case None =>
      ValidateIgnoresId(draft, InvoiceId(|invs|));
      assert Commit(invs, editing, draft) == invs + [draft.(id := InvoiceId(|invs|))];
    case Some(e) =>
      var r := ReplaceById(invs, e.id, draft);
      ValidateIgnoresId(draft, e.id);
      forall inv | inv in r ensures Stored(inv) {
        var i :| 0 <= i < |r| && r[i] == inv;
        if invs[i].id != e.id {
          assert inv == invs[i] && invs[i] in invs;
        }
      }
  }

  /** After a delete the count-based id can repeat one still in use: with
      ids "001".."00n", deleting the first and creating one more gives two
      entries with the id of the old last one. */
  lemma DeleteThenCreateRepeatsId(invs: seq<Invoice>, draft: Invoice)
    requires DenseIds(invs) && |invs| >= 2
    ensures !DistinctIds(Commit(DeleteById(invs, invs[0].id), None, draft))
  {
    DenseIdsAreDistinct(invs);
    DeleteFirstOfDistinct(invs);
    var rest := invs[1..];
    var after := AppendNew(rest, draft);
    assert after[|rest| - 1] == after[..|rest|][|rest| - 1] == invs[|invs| - 1];
    assert after[|rest|].id == InvoiceId(|invs| - 1) == after[|rest| - 1].id;
  }

  /** With distinct ids, deleting the first entry's id drops just that entry. */
  lemma DeleteFirstOfDistinct(invs: seq<Invoice>)
    requires DistinctIds(invs) && |invs| >= 1
    ensures DeleteById(invs, invs[0].id) == invs[1..]
  {
    var keep := IdIsNot(invs[0].id);
    var rest := invs[1..];
    assert Filter(invs, keep) == Filter(rest, keep);
    forall i | 0 <= i < |rest| ensures keep(rest[i]) {
      assert rest[i] == invs[i + 1];
    }
    FilterKeepsAll(rest, keep);
  }

  /** The draft fields edited through plain text inputs. */
  datatype FormField = ClientName | ClientEmail | ClientAddress | Date | DueDate | Notes

  function WithField(f: Invoice, field: FormField, value: string): Invoice {
    match field
    case ClientName => f.(clientName := value)
    case ClientEmail => f.(clientEmail := value)
    case ClientAddress => f.(clientAddress := value)
    case Date => f.(date := value)
    case DueDate => f.(dueDate := value)
    case Notes => f.(notes := value)
  }

  /** One `updateItem` call: the field it names and the value stored there
      (quantities and rates already converted to numbers). */
  datatype ItemEdit = SetDescription(text: string) | SetQuantity(quantity: real) | SetRate(rate: real)

  /** The line after an edit: the named field takes the value, the other
      two fields keep theirs. */
  function ApplyEdit(item: LineItem, edit: ItemEdit): (r: LineItem)
    ensures r.description == if edit.SetDescription? then edit.text else item.description
    ensures r.quantity == if edit.SetQuantity? then edit.quantity else item.quantity
    ensures r.rate == if edit.SetRate? then edit.rate else item.rate
  {
    match edit
    case SetDescription(t) => item.(description := t)
    case SetQuantity(q) => item.(quantity := q)
    case SetRate(v) => item.(rate := v)
  }

  /** Every stored invoice passed validation, so none has a negative total. */
  lemma StoredTotalsNonNegative(invs: seq<Invoice>)
    requires forall inv :: inv in invs ==> Stored(inv)
    ensures forall k :: 0 <= k < |invs| ==> Total(invs[k].items) >= 0.0
  {
    forall k | 0 <= k < |invs| ensures Total(invs[k].items) >= 0.0 {
      assert invs[k] in invs;
      AcceptedTotalNonNegative(invs[k]);
    }
  }

  /** The state cells of the invoice component. */
  class InvoiceWorkspace {
    var view: View
    var invoices: seq<Invoice>
    var searchTerm: string
    var editing: Option<Invoice>
    var preview: Option<Invoice>
    var form: Invoice

    /** The draft always has a line, and every stored invoice passed the
        submit check (so it has a line too). The second half rests on lines
        being values: nothing but a submit changes a stored invoice. */
    ghost predicate Valid()
      reads this
    {
      form.items != [] && forall inv :: inv in invoices ==> Stored(inv)
    }

    /** The dashboard figures; in the model, where lines are values, the
        stored invoices' validity keeps revenue non-negative. */
    function DashboardStats(): (st: Stats)
      reads this
      requires Valid()
      ensures st == ComputeStats(invoices)
      ensures st.total == |invoices| && st.paid + st.pending <= st.total
      ensures st.paid == CountStatus(invoices, Paid) && st.pending == CountStatus(invoices, Pending)
      ensures st.revenue >= 0.0
    {
      StoredTotalsNonNegative(invoices);
      RevenueNonNegative(invoices);
      ComputeStats(invoices)
    }

    /** The list the dashboard shows for the current search term. */
    function Listed(): (r: seq<Invoice>)
      reads this
      ensures IsSubsequence(r, invoices)
      ensures forall inv :: inv in r <==> inv in invoices && Matches(inv, searchTerm)
      ensures forall inv :: multiset(r)[inv] == if Matches(inv, searchTerm) then multiset(invoices)[inv] else 0
    {
      FilteredInvoices(invoices, searchTerm)
    }

    /** The initial state: the dashboard, no invoices, an empty search and
        a fresh draft dated `today`. */
    constructor (today: string)
      ensures Valid()
      ensures view == Dashboard && invoices == [] && searchTerm == ""
      ensures editing == None && preview == None && form == DefaultForm(today)
    {
      view := Dashboard;
      invoices := [];
      searchTerm := "";
      editing := None;
      preview := None;
      form := DefaultForm(today);
    }

    /** `resetForm`: the draft goes back to its defaults. */
    method ResetForm(today: string)
      requires Valid()
      modifies this
      ensures Valid()
      ensures form == DefaultForm(today) && form.items == [BlankItem] && form.status == Pending
      ensures view == old(view) && invoices == old(invoices) && searchTerm == old(searchTerm)
      ensures editing == old(editing) && preview == old(preview)
    {
      form := DefaultForm(today);
    }

    /** The header's Dashboard button: only the view changes; an edit in
        progress stays selected. */
    method ShowDashboard()
      requires Valid()
      modifies this
      ensures Valid()
      ensures view == Dashboard
      ensures invoices == old(invoices) && searchTerm == old(searchTerm) && form == old(form)
      ensures editing == old(editing) && preview == old(preview)
    {
      view := Dashboard;
    }

    /** The header's New Invoice button: a fresh draft, no edit target, the
        form view. */
    method NewInvoice(today: string)
      requires Valid()
      modifies this
      ensures Valid()
      ensures form == DefaultForm(today) && editing == None && view == Create
      ensures invoices == old(invoices) && searchTerm == old(searchTerm) && preview == old(preview)
    {
      ResetForm(today);
      editing := None;
      view := Create;
    }

    /** The form's Cancel button: the draft is dropped, nothing is stored. */
    method Cancel(today: string)
      requires Valid()
      modifies this
      ensures Valid()
      ensures form == DefaultForm(today) && editing == None && view == Dashboard
      ensures invoices == old(invoices) && searchTerm == old(searchTerm) && preview == old(preview)
    {
      ResetForm(today);
      editing := None;
      view := Dashboard;
    }

    /** Typing in the search box. */
    method SetSearchTerm(term: string)
      requires Valid()
      modifies this
      ensures Valid()
      ensures searchTerm == term
      ensures view == old(view) && invoices == old(invoices) && form == old(form)
      ensures editing == old(editing) && preview == old(preview)
    {
      searchTerm := term;
    }

    /** A row's Preview button opens the overlay on that invoice. */
    method OpenPreview(inv: Invoice)
      requires Valid()
      modifies this
      ensures Valid()
      ensures preview == Some(inv)
      ensures view == old(view) && invoices == old(invoices) && searchTerm == old(searchTerm)
      ensures form == old(form) && editing == old(editing)
    {
      preview := Some(inv);
    }

    /** The overlay's close buttons. */
    method ClosePreview()
      requires Valid()
      modifies this
      ensures Valid()
      ensures preview == None
      ensures view == old(view) && invoices == old(invoices) && searchTerm == old(searchTerm)
      ensures form == old(form) && editing == old(editing)
    {
      preview := None;
    }

    /** `editInvoice`, reached from a listed row: the invoice becomes the
        edit target and the draft, and the form view opens. */
    method EditInvoice(inv: Invoice)
      requires Valid()
      requires inv in invoices
      modifies this
      ensures Valid()
      ensures editing == Some(inv) && form == inv && view == Create
      ensures invoices == old(invoices) && searchTerm == old(searchTerm) && preview == old(preview)
    {
      editing := Some(inv);
      form := inv;
      view := Create;
    }

    /** `deleteInvoice`: every entry with that id goes; nothing is renumbered. */
    method DeleteInvoice(id: string)
      requires Valid()
      modifies this
      ensures Valid()
      ensures invoices == DeleteById(old(invoices), id)
      ensures |invoices| <= |old(invoices)|
      ensures forall inv :: inv in invoices <==> inv in old(invoices) && inv.id != id
      ensures view == old(view) && searchTerm == old(searchTerm) && form == old(form)
      ensures editing == old(editing) && preview == old(preview)
    {
      invoices := DeleteById(invoices, id);
    }

    /** Typing into one of the draft's text fields. */
    method SetField(field: FormField, value: string)
      requires Valid()
      modifies this
      ensures Valid()
      ensures form == WithField(old(form), field, value)
      ensures form.items == old(form.items) && form.status == old(form.status) && form.id == old(form.id)
      ensures view == old(view) && invoices == old(invoices) && searchTerm == old(searchTerm)
      ensures editing == old(editing) && preview == old(preview)
    {
      form := WithField(form, field, value);
    }

    /** Choosing a status for the draft. */
    method SetStatus(status: Status)
      requires Valid()
      modifies this
      ensures Valid()
      ensures form == old(form).(status := status)
      ensures view == old(view) && invoices == old(invoices) && searchTerm == old(searchTerm)
      ensures editing == old(editing) && preview == old(preview)
    {
      form := form.(status := status);
    }

    /** `addItem`: one blank line more, at the end. */
    method AddItem()
      requires Valid()
      modifies this
      ensures Valid()
      ensures form == old(form).(items := old(form.items) + [BlankItem])
      ensures |form.items| == |old(form.items)| + 1 && form.items[..|old(form.items)|] == old(form.items)
      ensures view == old(view) && invoices == old(invoices) && searchTerm == old(searchTerm)
      ensures editing == old(editing) && preview == old(preview)
    {
      form := form.(items := form.items + [BlankItem]);
    }

    /** `removeItem`: drop the line at `index`, keeping the others in order.
        Its button exists only while the draft has more than one line. */
    method RemoveItem(index: int)
      requires Valid()
      requires |form.items| > 1
      modifies this
      ensures Valid()
      ensures form == old(form).(items := WithoutIndex(old(form.items), index))
      ensures 0 <= index < |old(form.items)| ==> |form.items| == |old(form.items)| - 1
      ensures view == old(view) && invoices == old(invoices) && searchTerm == old(searchTerm)
      ensures editing == old(editing) && preview == old(preview)
    {
      form := form.(items := WithoutIndex(form.items, index));
    }

    /** `updateItem`, from the inputs of a listed line: only the named field
        of that line changes. */
    method UpdateItem(index: nat, edit: ItemEdit)
      requires Valid()
      requires index < |form.items|
      modifies this
      ensures Valid()
      ensures form == old(form).(items := old(form.items)[index := ApplyEdit(old(form.items)[index], edit)])
      ensures |form.items| == |old(form.items)|
      ensures forall j :: 0 <= j < |form.items| && j != index ==> form.items[j] == old(form.items)[j]
      ensures view == old(view) && invoices == old(invoices) && searchTerm == old(searchTerm)
      ensures editing == old(editing) && preview == old(preview)
    {
      form := form.(items := form.items[index := ApplyEdit(form.items[index], edit)]);
    }

    /** `handleSubmit`: a refused draft changes nothing; an accepted one is
        committed, the edit target is cleared, the draft is reset and the
        dashboard is shown. */
    method HandleSubmit(today: string) returns (rejection: Option<Rejection>)
      requires Valid()
      modifies this
      ensures Valid()
      ensures rejection == Validate(old(form))
      ensures rejection.Some? ==>
                invoices == old(invoices) && form == old(form) && editing == old(editing) && view == old(view)
      ensures rejection.None? ==>
                invoices == Commit(old(invoices), old(editing), old(form)) &&
                editing == None && form == DefaultForm(today) && view == Dashboard
      ensures old(editing).Some? ==> |invoices| == |old(invoices)|
      ensures rejection.None? && old(editing).None? ==>
                invoices == old(invoices) + [old(form).(id := InvoiceId(|old(invoices)|))]
      ensures searchTerm == old(searchTerm) && preview == old(preview)
    {
      rejection := Validate(form);
      if rejection.Some? {
        return;
      }
      CommitKeepsStored(invoices, editing, form);
      invoices := Commit(invoices, editing, form);
      editing := None;
      ResetForm(today);
      view := Dashboard;
    }
  }
}
