/** The two invoices the component loads when it mounts, and what the
    model says about them. */
module Samples {
  import opened InvoiceData
  import opened Sequences
  import opened Totals
  import opened InvoiceIds
  import opened Search
  import opened Validation
  import opened Workspace

  const TechSolutions: Invoice := Invoice(
    "001", "Tech Solutions Inc.", "contact@techsolutions.com", "",
    "2025-10-01", "2025-10-31",
    [LineItem("Web Development", 1.0, 5000.0), LineItem("UI/UX Design", 1.0, 3000.0)],
    "", Paid)

  const CreativeStudio: Invoice := Invoice(
    "002", "Creative Studio", "hello@creativestudio.com", "",
    "2025-10-05", "2025-11-05",
    [LineItem("Logo Design", 1.0, 1500.0)],
    "", Pending)

  const SampleInvoices: seq<Invoice> := [TechSolutions, CreativeStudio]

  lemma SampleTotals()
    ensures Total(TechSolutions.items) == 8000.0
    ensures Total(CreativeStudio.items) == 1500.0
  {
    assert TechSolutions.items[..1][..0] == [];
    assert CreativeStudio.items[..0] == [];
  }

  /** Two invoices, one paid, one pending, revenue 8000. */
  lemma SampleStats()
    ensures ComputeStats(SampleInvoices) == Stats(2, 1, 1, 8000.0)
  {
    SampleTotals();
    assert SampleInvoices[1..] == [CreativeStudio] && SampleInvoices[1..][1..] == [];
    assert Filter(SampleInvoices, IsPaid) == [TechSolutions];
    assert Filter(SampleInvoices, IsPending) == [CreativeStudio];
    assert [TechSolutions][..0] == [];
    assert SumTotals([TechSolutions]) == 8000.0;
    var st := ComputeStats(SampleInvoices);
    assert st.total == 2;
    assert st.paid == 1;
    assert st.pending == 1;
    assert st.revenue == 8000.0;
  }

  /** The third invoice created gets "003". */
  lemma SampleNextId()
    ensures InvoiceId(|SampleInvoices|) == "003"
  {
    assert Decimal(3) == "3";
  }

  /** The sample ids are the dense ones. */
  lemma SampleIdsDense()
    ensures DenseIds(SampleInvoices)
  {
    assert Decimal(1) == "1" && Decimal(2) == "2";
  }

  /** Both samples pass the submit check, and dropping the email makes the
      first one fail at the header stage. */
  lemma SampleValidation()
    ensures Validate(TechSolutions) == None && Validate(CreativeStudio) == None
    ensures Validate(TechSolutions.(clientEmail := "")) == Some(MissingRequiredFields)
  {
  }

  /** With the samples stored, deleting "001" and creating one more invoice
      stores "002" twice. */
  lemma SampleDeleteThenCreate(draft: Invoice)
    ensures !DistinctIds(Commit(DeleteById(SampleInvoices, "001"), None, draft))
  {
    SampleIdsDense();
    DeleteThenCreateRepeatsId(SampleInvoices, draft);
  }

  /** A workspace as it stands after mounting: the two samples stored. */
  method Mounted(today: string) returns (w: InvoiceWorkspace)
    ensures fresh(w) && w.Valid()
    ensures w.invoices == SampleInvoices && w.editing == None && w.view == Dashboard
  {
    w := new InvoiceWorkspace(today);
    // What the mount effect does: store the two samples.
    w.invoices := SampleInvoices;
    SampleValidation();
  }

  /** The header a client fills in for a new invoice to Acme. */
  function AcmeHeader(today: string): Invoice {
    DefaultForm(today).(clientName := "Acme", clientEmail := "billing@acme.test", dueDate := "2025-12-01")
  }

  /** The same draft once its line is completed. */
  function AcmeDraft(today: string): Invoice {
    AcmeHeader(today).(items := [LineItem("Consulting", 1.0, 250.0)])
  }

  /** The completed draft passes the submit check. */
  lemma AcmeDraftAccepted(today: string)
    requires today != ""
    ensures Validate(AcmeDraft(today)) == None
  {
    var items := AcmeDraft(today).items;
    assert HeaderComplete(AcmeDraft(today));
    assert ItemAcceptable(items[0]) && items[1..] == [];
    assert !SomeBadItem(items);
  }

  /** Open a new draft and fill in the header fields through the form. */
  method FillAcmeHeader(w: InvoiceWorkspace, today: string)
    requires w.Valid()
    modifies w
    ensures w.Valid() && w.form == AcmeHeader(today) && w.view == Create && w.editing == None
    ensures w.invoices == old(w.invoices)
  {
    w.NewInvoice(today);
    w.SetField(ClientName, "Acme");
    w.SetField(ClientEmail, "billing@acme.test");
    w.SetField(DueDate, "2025-12-01");
  }

  /** A new draft with its header filled in but its blank line untouched
      is refused, and nothing is stored. */
  method SessionRefusesBlankLine(today: string)
    requires today != ""
  {
    var w := Mounted(today);
    FillAcmeHeader(w, today);
    var refused := w.HandleSubmit(today);
    assert refused == Some(InvalidItemDetails);
    assert w.invoices == SampleInvoices && w.view == Create;
  }

  /** Completing the line lets the same draft through as invoice "003". */
  method SessionCreatesThird(today: string)
    requires today != ""
  {
    var w := Mounted(today);
    FillAcmeHeader(w, today);
    w.UpdateItem(0, SetDescription("Consulting"));
    w.UpdateItem(0, SetRate(250.0));
    assert w.form == AcmeDraft(today);
    AcmeDraftAccepted(today);
    SampleNextId();
    var accepted := w.HandleSubmit(today);
    assert accepted == None;
    assert |w.invoices| == 3 && w.invoices[2] == AcmeDraft(today).(id := "003");
    assert w.view == Dashboard;
  }

  /** Editing invoice "001" and marking it overdue rewrites it in place,
      under its own id, and leaves "002" alone. */
  method SessionEditsFirst(today: string) {
    var w := Mounted(today);
    w.EditInvoice(TechSolutions) by {
      assert w.invoices[0] == TechSolutions;
    }
    w.SetStatus(Overdue);
    var edited := w.HandleSubmit(today);
    assert edited == None;
    assert |w.invoices| == 2 && w.invoices[0].id == "001" && w.invoices[0].status == Overdue;
    assert w.invoices[1] == CreativeStudio;
  }
}
