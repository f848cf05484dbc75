/**
 * The three SQLite tables of database.py (invoices, expenses, notifications)
 * as sequences held by one `Store` object, in insertion order, with the
 * AUTOINCREMENT counter of each table. Inserts append one row; the status
 * update rewrites the status of the row with the given id; the getters are
 * the `SELECT ... [WHERE status='Pending'] ORDER BY date DESC` listings.
 */
module Database {
  import opened Gst
  import opened Sorting

  /** The expense form's category select box, in the order it lists them. */
  datatype Category = OfficeSupplies | RawMaterial | Services | Utilities | Other

  function CategoryName(c: Category): string
  {
    match c
    case OfficeSupplies => "Office Supplies"
    case RawMaterial => "Raw Material"
    case Services => "Services"
    case Utilities => "Utilities"
    case Other => "Other"
  }

  const Categories: seq<Category> := [OfficeSupplies, RawMaterial, Services, Utilities, Other]

  /** Every category is one of the five the form lists, under a distinct name. */
  lemma CategoryListed(c: Category)
    ensures c in Categories
    ensures forall d :: CategoryName(d) == CategoryName(c) ==> d == c
  {
    match c
    case OfficeSupplies => assert Categories[0] == c;
    case RawMaterial => assert Categories[1] == c;
    case Services => assert Categories[2] == c;
    case Utilities => assert Categories[3] == c;
    case Other => assert Categories[4] == c;
  }

  /** The arguments of `add_invoice`. */
  datatype InvoiceData = InvoiceData(date: string, invoiceNo: string, customerName: string, gstin: string, tax: TaxLine)
  /** A row of the invoices table; `status` defaults to 'Unpaid'. */
  datatype Invoice = Invoice(id: nat, data: InvoiceData, status: string)

  /** The arguments of `add_expense`. */
  datatype ExpenseData = ExpenseData(date: string, vendorName: string, gstin: string, category: Category, tax: TaxLine, description: string)
  datatype Expense = Expense(id: nat, data: ExpenseData)

  /** The arguments of `add_notification`. */
  datatype NotificationData = NotificationData(date: string, kind: string, description: string, actionRequired: string)
  /** A row of the notifications table; `status` is 'Pending', 'Acknowledged' or 'Paid'. */
  datatype Notification = Notification(id: nat, data: NotificationData, status: string)

  const Pending := "Pending"
  const Unpaid := "Unpaid"

  function InvoiceDate(r: Invoice): string { r.data.date }
  function ExpenseDate(r: Expense): string { r.data.date }
  function NotificationDate(r: Notification): string { r.data.date }
  function IsPending(r: Notification): bool { r.status == Pending }

  function InvoiceLines(rows: seq<Invoice>): (r: seq<TaxLine>)
    ensures |r| == |rows| && forall i :: 0 <= i < |rows| ==> r[i] == rows[i].data.tax
  {
    seq(|rows|, i requires 0 <= i < |rows| => rows[i].data.tax)
  }

  function ExpenseLines(rows: seq<Expense>): (r: seq<TaxLine>)
    ensures |r| == |rows| && forall i :: 0 <= i < |rows| ==> r[i] == rows[i].data.tax
  {
    seq(|rows|, i requires 0 <= i < |rows| => rows[i].data.tax)
  }

  /** Ids given out so far are below the counter and grow with the insertion order. */
  ghost predicate IdsFresh(ids: seq<nat>, next: nat)
  {
    next >= 1 &&
    (forall i :: 0 <= i < |ids| ==> 1 <= ids[i] < next) &&
    (forall i, j :: 0 <= i < j < |ids| ==> ids[i] < ids[j])
  }

  function InvoiceIds(rows: seq<Invoice>): seq<nat>
  {
    seq(|rows|, i requires 0 <= i < |rows| => rows[i].id)
  }

  function ExpenseIds(rows: seq<Expense>): seq<nat>
  {
    seq(|rows|, i requires 0 <= i < |rows| => rows[i].id)
  }

  function NotificationIds(rows: seq<Notification>): seq<nat>
  {
    seq(|rows|, i requires 0 <= i < |rows| => rows[i].id)
  }

  /** `UPDATE notifications SET status = ? WHERE id = ?`. */
  function WithStatus(rows: seq<Notification>, id: int, status: string): (r: seq<Notification>)
    ensures |r| == |rows|
    ensures forall i :: 0 <= i < |rows| ==>
      r[i].id == rows[i].id && r[i].data == rows[i].data &&
      r[i].status == (if rows[i].id == id then status else rows[i].status)
  {
    seq(|rows|, i requires 0 <= i < |rows| => if rows[i].id == id then rows[i].(status := status) else rows[i])
  }

  /** An id that is not in the table changes nothing. */
  lemma WithStatusUnknownId(rows: seq<Notification>, id: int, status: string)
    requires forall i :: 0 <= i < |rows| ==> rows[i].id != id
    ensures WithStatus(rows, id, status) == rows
  {
  }

  /** With distinct ids at most one row changes, and only in its status. */
  lemma WithStatusTouchesOneRow(rows: seq<Notification>, next: nat, id: int, status: string, i: int, j: int)
    requires IdsFresh(NotificationIds(rows), next)
    requires 0 <= i < |rows| && 0 <= j < |rows|
    requires WithStatus(rows, id, status)[i] != rows[i] && WithStatus(rows, id, status)[j] != rows[j]
    ensures i == j
  {
    var ids := NotificationIds(rows);
    assert ids[i] == rows[i].id && ids[j] == rows[j].id;
  }

  /** Setting the same status twice is setting it once. */
  lemma WithStatusIdempotent(rows: seq<Notification>, id: int, status: string)
    ensures WithStatus(WithStatus(rows, id, status), id, status) == WithStatus(rows, id, status)
  {
  }

  class Store {
    var invoices: seq<Invoice>
    var expenses: seq<Expense>
    var notifications: seq<Notification>
    var nextInvoiceId: nat
    var nextExpenseId: nat
    var nextNotificationId: nat

    ghost predicate Valid()
      reads this
    {
      IdsFresh(InvoiceIds(invoices), nextInvoiceId) &&
      IdsFresh(ExpenseIds(expenses), nextExpenseId) &&
      IdsFresh(NotificationIds(notifications), nextNotificationId)
    }

    /** `init_db` on a database file that does not exist yet: three empty tables. */
    constructor ()
      ensures Valid()
      ensures invoices == [] && expenses == [] && notifications == []
    {
      invoices, expenses, notifications := [], [], [];
      nextInvoiceId, nextExpenseId, nextNotificationId := 1, 1, 1;
    }

    method AddInvoice(d: InvoiceData)
      requires Valid()
      modifies this
      ensures Valid()
      ensures invoices == old(invoices) + [Invoice(old(nextInvoiceId), d, Unpaid)]
      ensures nextInvoiceId == old(nextInvoiceId) + 1
      ensures expenses == old(expenses) && nextExpenseId == old(nextExpenseId)
      ensures notifications == old(notifications) && nextNotificationId == old(nextNotificationId)
    {
      invoices := invoices + [Invoice(nextInvoiceId, d, Unpaid)];
      nextInvoiceId := nextInvoiceId + 1;
      assert InvoiceIds(invoices) == InvoiceIds(old(invoices)) + [old(nextInvoiceId)];
    }

    method AddExpense(d: ExpenseData)
      requires Valid()
      modifies this
      ensures Valid()
      ensures expenses == old(expenses) + [Expense(old(nextExpenseId), d)]
      ensures nextExpenseId == old(nextExpenseId) + 1
      ensures invoices == old(invoices) && nextInvoiceId == old(nextInvoiceId)
      ensures notifications == old(notifications) && nextNotificationId == old(nextNotificationId)
    {
      expenses := expenses + [Expense(nextExpenseId, d)];
      nextExpenseId := nextExpenseId + 1;
      assert ExpenseIds(expenses) == ExpenseIds(old(expenses)) + [old(nextExpenseId)];
    }

    method AddNotification(d: NotificationData)
      requires Valid()
      modifies this
      ensures Valid()
      ensures notifications == old(notifications) + [Notification(old(nextNotificationId), d, Pending)]
      ensures nextNotificationId == old(nextNotificationId) + 1
      ensures forall i :: 0 <= i < |old(notifications)| ==> notifications[i].id < notifications[|old(notifications)|].id
      ensures invoices == old(invoices) && nextInvoiceId == old(nextInvoiceId)
      ensures expenses == old(expenses) && nextExpenseId == old(nextExpenseId)
    {
      notifications := notifications + [Notification(nextNotificationId, d, Pending)];
      nextNotificationId := nextNotificationId + 1;
      assert NotificationIds(notifications) == NotificationIds(old(notifications)) + [old(nextNotificationId)];
      forall i | 0 <= i < |old(notifications)|
        ensures notifications[i].id < notifications[|old(notifications)|].id
      {
        assert NotificationIds(old(notifications))[i] == notifications[i].id;
      }
    }

    method UpdateNotificationStatus(id: int, status: string)
      requires Valid()
      modifies this
      ensures Valid()
      ensures notifications == WithStatus(old(notifications), id, status)
      ensures nextNotificationId == old(nextNotificationId)
      ensures invoices == old(invoices) && nextInvoiceId == old(nextInvoiceId)
      ensures expenses == old(expenses) && nextExpenseId == old(nextExpenseId)
    {
      notifications := WithStatus(notifications, id, status);
      assert NotificationIds(notifications) == NotificationIds(old(notifications));
    }

    /** `get_invoices()`: every row, latest date first. */
    function Invoices(): (r: seq<Invoice>)
      reads this
      ensures multiset(r) == multiset(invoices)
      ensures SortedDesc(r, InvoiceDate)
    {
      SortDesc(invoices, InvoiceDate)
    }

    /** `get_expenses()`: every row, latest date first. */
    function Expenses(): (r: seq<Expense>)
      reads this
      ensures multiset(r) == multiset(expenses)
      ensures SortedDesc(r, ExpenseDate)
    {
      SortDesc(expenses, ExpenseDate)
    }

    /** `get_notifications(pending_only)`: all rows, or only the Pending ones, latest date first. */
    function Notifications(pendingOnly: bool): (r: seq<Notification>)
      reads this
      ensures forall n :: n in r <==> n in notifications && (pendingOnly ==> n.status == Pending)
      ensures forall n :: multiset(r)[n] == if !pendingOnly || n.status == Pending then multiset(notifications)[n] else 0
      ensures SortedDesc(r, NotificationDate)
    {
      var rows := if pendingOnly then Filter(notifications, IsPending) else notifications;
      assert forall n :: n in rows <==> n in multiset(rows);
      SortDesc(rows, NotificationDate)
    }
  }

  /** The ids of a valid table are distinct, so an id names at most one row. */
  lemma IdsDistinct(rows: seq<Notification>, next: nat, i: int, j: int)
    requires IdsFresh(NotificationIds(rows), next)
    requires 0 <= i < |rows| && 0 <= j < |rows| && rows[i].id == rows[j].id
    ensures i == j
  {
    var ids := NotificationIds(rows);
    assert ids[i] == rows[i].id && ids[j] == rows[j].id;
  }
}
