/**
 * The "Add New Expense" form of the Expenses page: the same tax split as the
 * invoice form, and on "Save Expense" one expense row when the vendor name is
 * filled. GSTIN and description may be empty.
 */
module Expenses {
  import opened Wrappers
  import opened Gst
  import opened Database

  datatype ExpenseForm = ExpenseForm(
    date: string,
    vendorName: string,
    gstin: string,
    category: Category,
    description: string,
    taxable: NonNegative,
    rate: GstRate,
    place: Place)

  /** The row the form hands to `add_expense`, or None when the vendor name is empty. */
  function Submission(f: ExpenseForm): (r: Option<ExpenseData>)
    ensures r.Some? <==> f.vendorName != ""
    ensures r.Some? ==>
      r.value.date == f.date && r.value.vendorName == f.vendorName && r.value.gstin == f.gstin &&
      r.value.category == f.category && r.value.description == f.description
    ensures r.Some? ==> WellFormed(r.value.tax) && r.value.tax == ComputeTax(f.taxable, f.rate, f.place)
    ensures r.Some? ==> r.value.category in Categories
  {
    TotalCoversTaxable(f.taxable, f.rate, f.place);
    CategoryListed(f.category);
    if f.vendorName == "" then None
    else Some(ExpenseData(f.date, f.vendorName, f.gstin, f.category, ComputeTax(f.taxable, f.rate, f.place), f.description))
  }

  /** Neither GSTIN nor description decides whether the expense is saved. */
  lemma OptionalFields(f: ExpenseForm)
    ensures Submission(f).Some? <==> Submission(f.(gstin := "", description := "")).Some?
  {
  }

  /** "Save Expense": one new row when the vendor is named, nothing otherwise. */
  method Save(store: Store, f: ExpenseForm) returns (saved: bool)
    requires store.Valid()
    modifies store
    ensures store.Valid()
    ensures saved <==> f.vendorName != ""
    ensures saved ==> store.expenses == old(store.expenses) + [Expense(old(store.nextExpenseId), Submission(f).value)]
    ensures !saved ==> store.expenses == old(store.expenses) && store.nextExpenseId == old(store.nextExpenseId)
    ensures store.invoices == old(store.invoices) && store.notifications == old(store.notifications)
    ensures store.nextInvoiceId == old(store.nextInvoiceId) && store.nextNotificationId == old(store.nextNotificationId)
  {
    var row := Submission(f);
    if row.None? {
      saved := false;
    } else {
      store.AddExpense(row.value);
      saved := true;
    }
  }
}
