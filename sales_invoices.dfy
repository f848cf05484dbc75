/**
 * The "Add New Invoice" form of the Sales Invoices page: the form computes the
 * tax split of the entered taxable value and, on "Save Invoice", stores one
 * invoice row when both the invoice number and the customer name are filled.
 * The customer GSTIN is optional.
 */
module SalesInvoices {
  import opened Wrappers
  import opened Gst
  import opened Database

  /** What the form's widgets hold when it is submitted. */
  datatype InvoiceForm = InvoiceForm(
    date: string,
    invoiceNo: string,
    customerName: string,
    gstin: string,
    taxable: NonNegative,
    rate: GstRate,
    place: Place)

  /** The row the form hands to `add_invoice`, or None when a required field is empty. */
  function Submission(f: InvoiceForm): (r: Option<InvoiceData>)
    ensures r.Some? <==> f.invoiceNo != "" && f.customerName != ""
    ensures r.Some? ==>
      r.value.date == f.date && r.value.invoiceNo == f.invoiceNo &&
      r.value.customerName == f.customerName && r.value.gstin == f.gstin
    ensures r.Some? ==> WellFormed(r.value.tax) && r.value.tax == ComputeTax(f.taxable, f.rate, f.place)
  {
    TotalCoversTaxable(f.taxable, f.rate, f.place);
    if f.invoiceNo == "" || f.customerName == "" then None
    else Some(InvoiceData(f.date, f.invoiceNo, f.customerName, f.gstin, ComputeTax(f.taxable, f.rate, f.place)))
  }

  /** An empty GSTIN never decides whether the invoice is saved. */
  lemma GstinOptional(f: InvoiceForm)
    ensures Submission(f).Some? <==> Submission(f.(gstin := "")).Some?
  {
  }

  /** "Save Invoice": one new row when the required fields are filled, nothing otherwise. */
  method Save(store: Store, f: InvoiceForm) returns (saved: bool)
    requires store.Valid()
    modifies store
    ensures store.Valid()
    ensures saved <==> f.invoiceNo != "" && f.customerName != ""
    ensures saved ==> store.invoices == old(store.invoices) + [Invoice(old(store.nextInvoiceId), Submission(f).value, Unpaid)]
    ensures !saved ==> store.invoices == old(store.invoices) && store.nextInvoiceId == old(store.nextInvoiceId)
    ensures store.expenses == old(store.expenses) && store.notifications == old(store.notifications)
    ensures store.nextExpenseId == old(store.nextExpenseId) && store.nextNotificationId == old(store.nextNotificationId)
  {
    var row := Submission(f);
    if row.None? {
      saved := false;
    } else {
      store.AddInvoice(row.value);
      saved := true;
    }
  }
}
