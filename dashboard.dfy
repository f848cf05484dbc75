/**
 * The start page (app.py): a login gate over one session flag, the four
 * dashboard metrics and the two "recent activity" tables. The net payable
 * here is clamped once on the grand totals, and the input tax credit is
 * zeroed whenever the invoices table is empty: the guard on line 40 tests
 * the invoices, not the expenses.
 */
module Dashboard {
  import opened Gst
  import opened Database
  import opened Sorting
  import opened Text
  import opened GstReports

  const Username := "COPL2026"
  const Password := "COPL@2026"

  /** The part of `st.session_state` the login gate keeps. */
  class Session {
    var authenticated: bool

    /** The first run of the page: `authentication_status` starts false. */
    constructor ()
      ensures !authenticated
    {
      authenticated := false;
    }

    /** `check_login`: the flag is set exactly for the fixed credentials; otherwise the error is shown. */
    method CheckLogin(username: string, password: string) returns (errorShown: bool)
      modifies this
      ensures authenticated <==> username == Username && password == Password
      ensures errorShown <==> !authenticated
    {
      if username == Username && password == Password {
        authenticated := true;
        errorShown := false;
      } else {
        authenticated := false;
        errorShown := true;
      }
    }

    /** The "Logout" button. */
    method Logout()
      modifies this
      ensures !authenticated
    {
      authenticated := false;
    }
  }

  /** The four metric cards, plus the ITC figure the net is computed from. */
  datatype Metrics = Metrics(totalSales: real, totalExpenses: real, gstCollected: real, itcAvailable: real, netPayable: real)

  function DashboardMetrics(invoices: seq<Invoice>, expenses: seq<Expense>): (m: Metrics)
    ensures m.totalSales == Sum(InvoiceLines(invoices)).totalAmount
    ensures m.totalExpenses == Sum(ExpenseLines(expenses)).totalAmount
    ensures m.gstCollected == Sum(InvoiceLines(invoices)).Gst()
    ensures |invoices| > 0 ==> m.itcAvailable == Sum(ExpenseLines(expenses)).Gst()
    ensures |invoices| == 0 ==> m.itcAvailable == 0.0 && m.netPayable == 0.0
    ensures m.netPayable >= 0.0
    ensures m.netPayable == NetOf(m.gstCollected, m.itcAvailable)
  {
    var sales := if |invoices| == 0 then Zero else Sum(InvoiceLines(invoices));
    var purchases := if |expenses| == 0 then Zero else Sum(ExpenseLines(expenses));
    var collected := if |invoices| == 0 then 0.0 else sales.igst + sales.cgst + sales.sgst;
    var itc := if |invoices| == 0 then 0.0 else purchases.igst + purchases.cgst + purchases.sgst;
    Metrics(sales.totalAmount, purchases.totalAmount, collected, itc, NetOf(collected, itc))
  }

  /**
   * The misplaced guard never changes the net payable of tables the forms
   * produced: with no invoices the liability is zero, and a non-negative
   * credit leaves nothing to pay either way.
   */
  lemma NetIgnoresItcGuard(invoices: seq<Invoice>, expenses: seq<Expense>)
    requires forall i :: 0 <= i < |expenses| ==> WellFormed(expenses[i].data.tax)
    ensures DashboardMetrics(invoices, expenses).netPayable ==
      NetOf(Sum(InvoiceLines(invoices)).Gst(), Sum(ExpenseLines(expenses)).Gst())
  {
    SumNonNegative(ExpenseLines(expenses));
  }

  /**
   * The dashboard's figure is never above the cash payable of the GSTR-3B
   * report, which clamps each component separately.
   */
  lemma DashboardBelowReport(invoices: seq<Invoice>, expenses: seq<Expense>)
    requires forall i :: 0 <= i < |expenses| ==> WellFormed(expenses[i].data.tax)
    ensures DashboardMetrics(invoices, expenses).netPayable <= Cash(Gstr3bSummary(invoices, expenses).net)
  {
    NetIgnoresItcGuard(invoices, expenses);
    CashAtLeastTotalNet(invoices, expenses);
  }

  /** With expenses but no invoices the ITC figure reads zero. */
  lemma ItcHiddenWithoutInvoices()
    ensures var exp := [Expense(1, ExpenseData("2025-04-02", "B", "", Services, ComputeTax(1000.0, 18, InterState), ""))];
      Sum(ExpenseLines(exp)).Gst() == 180.0 && DashboardMetrics([], exp).itcAvailable == 0.0
  {
    var t := ComputeTax(1000.0, 18, InterState);
    var exp := [Expense(1, ExpenseData("2025-04-02", "B", "", Services, t, ""))];
    assert TotalGst(1000.0, 18) == 180.0;
    assert ExpenseLines(exp) == [t];
    assert [t][1..] == [];
    assert Sum([t]) == LineTotals(t).Plus(Zero);
  }

  const RecentRows: nat := 5

  /** `.head(5)` of a listing: its first rows, at most five of them. */
  function Recent<T>(listing: seq<T>): (r: seq<T>)
    ensures |r| == if |listing| < RecentRows then |listing| else RecentRows
    ensures r == listing[..|r|]
  {
    Head(listing, RecentRows)
  }

  /** The recent invoices are the latest ones: no invoice left out has a later date than one shown. */
  lemma RecentInvoicesAreLatest(store: Store, i: int, j: int)
    requires 0 <= i < |Recent(store.Invoices())| <= j < |store.Invoices()|
    ensures StrLe(InvoiceDate(store.Invoices()[j]), InvoiceDate(Recent(store.Invoices())[i]))
  {
    HeadIsLatest(store.Invoices(), RecentRows, InvoiceDate, i, j);
  }

  /** The same for the recent expenses. */
  lemma RecentExpensesAreLatest(store: Store, i: int, j: int)
    requires 0 <= i < |Recent(store.Expenses())| <= j < |store.Expenses()|
    ensures StrLe(ExpenseDate(store.Expenses()[j]), ExpenseDate(Recent(store.Expenses())[i]))
  {
    HeadIsLatest(store.Expenses(), RecentRows, ExpenseDate, i, j);
  }
}
