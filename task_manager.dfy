/**
 * The Task & Notification Manager page. The to-do tab derives two compliance
 * tasks from the day of the month (GSTR-1 due on the 11th, GSTR-3B on the
 * 20th). The notifications tab adds manual reminders and acknowledges pending
 * rows. The challan tab records challans and marks pending ones paid.
 */
module TaskManager {
  import opened Wrappers
  import opened Text
  import opened Sorting
  import opened Database

  // ---------------------------------------------------------------------------
  // To-do tab

  datatype Urgency = High | Medium | LowDonePassed

  function UrgencyText(u: Urgency): string
  {
    match u
    case High => "High"
    case Medium => "Medium"
    case LowDonePassed => "Low (Done/Passed)"
  }

  /** A return due on day `due`: High in its last three days, Medium before, Low once the day has passed. */
  function UrgencyFor(day: int, due: int): (u: Urgency)
    ensures u == LowDonePassed <==> day > due
    ensures u == High <==> day <= due && due - day < 3
    ensures u == Medium <==> due - day >= 3
  {
    if day <= due then (if due - day < 3 then High else Medium) else LowDonePassed
  }

  datatype Task = Task(title: string, dueDate: string, urgency: Urgency, action: string)

  const Gstr1Due := 11
  const Gstr3bDue := 20

  /** The to-do table for day `day` of the month whose abbreviated name is `month`. */
  method ComplianceTasks(day: int, month: string) returns (tasks: seq<Task>)
    ensures |tasks| == 2
    ensures tasks[0].urgency == UrgencyFor(day, Gstr1Due) && tasks[1].urgency == UrgencyFor(day, Gstr3bDue)
    ensures tasks[0].dueDate == "11th " + month && tasks[1].dueDate == "20th " + month
    ensures tasks[0].title == (if day <= Gstr1Due then "File GSTR-1 (Outward Supplies)" else "File GSTR-1")
    ensures tasks[1].title == (if day <= Gstr3bDue then "File GSTR-3B (Payment)" else "File GSTR-3B")
    ensures tasks[0].action == (if day <= Gstr1Due then "Go to GST Reports -> GSTR-1" else "Check Status")
    ensures tasks[1].action == (if day <= Gstr3bDue then "Go to GST Reports -> GSTR-3B" else "Check Status")
  {
    tasks := [];
    if day <= 11 {
      var daysLeft := 11 - day;
      tasks := tasks + [Task("File GSTR-1 (Outward Supplies)", "11th " + month, if daysLeft < 3 then High else Medium,
                             "Go to GST Reports -> GSTR-1")];
    } else {
      tasks := tasks + [Task("File GSTR-1", "11th " + month, LowDonePassed, "Check Status")];
    }
    if day <= 20 {
      var daysLeft := 20 - day;
      tasks := tasks + [Task("File GSTR-3B (Payment)", "20th " + month, if daysLeft < 3 then High else Medium,
                             "Go to GST Reports -> GSTR-3B")];
    } else {
      tasks := tasks + [Task("File GSTR-3B", "20th " + month, LowDonePassed, "Check Status")];
    }
  }

  /** On a calendar day, GSTR-1 is urgent exactly on the 9th to the 11th and passed from the 12th. */
  lemma Gstr1Window(day: int)
    requires 1 <= day <= 31
    ensures UrgencyFor(day, Gstr1Due) == High <==> 9 <= day <= 11
    ensures UrgencyFor(day, Gstr1Due) == Medium <==> day <= 8
  {
  }

  /** GSTR-3B is urgent exactly on the 18th to the 20th and passed from the 21st. */
  lemma Gstr3bWindow(day: int)
    requires 1 <= day <= 31
    ensures UrgencyFor(day, Gstr3bDue) == High <==> 18 <= day <= 20
    ensures UrgencyFor(day, Gstr3bDue) == LowDonePassed <==> day >= 21
  {
  }

  /** The two returns are never urgent on the same day, and GSTR-1 has passed whenever GSTR-3B is urgent. */
  lemma NeverBothUrgent(day: int)
    ensures !(UrgencyFor(day, Gstr1Due) == High && UrgencyFor(day, Gstr3bDue) == High)
    ensures UrgencyFor(day, Gstr3bDue) == High ==> UrgencyFor(day, Gstr1Due) == LowDonePassed
  {
  }

  /** Urgency only moves forward during the month: Medium, then High, then Low. */
  lemma UrgencyAdvances(d1: int, d2: int, due: int)
    requires d1 <= d2
    ensures UrgencyFor(d1, due) == LowDonePassed ==> UrgencyFor(d2, due) == LowDonePassed
    ensures UrgencyFor(d2, due) == Medium ==> UrgencyFor(d1, due) == Medium
  {
  }

  /** "You have N pending items": the number of Pending rows, or None when there are none. */
  function PendingBanner(store: Store): (r: Option<nat>)
    reads store
    ensures r.None? <==> forall n :: n in store.notifications ==> n.status != Pending
    ensures r.Some? ==> r.value == |Filter(store.notifications, IsPending)| && r.value > 0
  {
    var pending := store.Notifications(true);
    assert |pending| == |Filter(store.notifications, IsPending)| by {
      assert multiset(pending) == multiset(Filter(store.notifications, IsPending));
    }
    if |pending| == 0 then None else Some(|pending|)
  }

  // ---------------------------------------------------------------------------
  // Notification and challan tabs

  /** The status badge colour. */
  function StatusColor(status: string): (c: string)
    ensures c == "red" <==> status == Pending
    ensures c == "green" <==> status != Pending
  {
    if status == "Pending" then "red" else "green"
  }

  /**
   * The challan tab's status text: a challan that is not Pending reads
   * "Paid", including one acknowledged from the notifications tab.
   */
  function ChallanDisplay(status: string): (d: string)
    ensures d == "Unpaid" <==> status == Pending
    ensures d == "Paid" <==> status != Pending
  {
    if status == "Pending" then "Unpaid" else "Paid"
  }

  const ReminderKind := "User Reminder"
  const ChallanKind := "Challan"
  const Acknowledged := "Acknowledged"
  const Paid := "Paid"

  predicate IsChallan(n: Notification)
  {
    n.data.kind == ChallanKind
  }

  /** The challan tab's rows: exactly the challans of the listing, in its order. */
  function ChallanRows(listing: seq<Notification>): (r: seq<Notification>)
    ensures forall n :: n in r <==> n in listing && n.data.kind == ChallanKind
  {
    Filter(listing, IsChallan)
  }

  /** Filtering keeps the listing's latest-first order. */
  lemma ChallanRowsSorted(listing: seq<Notification>)
    requires SortedDesc(listing, NotificationDate)
    ensures SortedDesc(ChallanRows(listing), NotificationDate)
  {
    FilterSorted(listing, IsChallan, NotificationDate);
  }

  /** A row of `rows` with that id whose action button is shown. */
  predicate HasPendingRow(rows: seq<Notification>, id: int)
  {
    exists i :: 0 <= i < |rows| && rows[i].id == id && rows[i].status == Pending
  }

  /**
   * The Acknowledge (or Mark Paid) button of row `id`: the button exists only
   * on a Pending row, and pressing it writes `status` to that row.
   */
  method Press(store: Store, id: int, status: string) returns (pressed: bool)
    requires store.Valid()
    modifies store
    ensures store.Valid()
    ensures pressed <==> HasPendingRow(old(store.notifications), id)
    ensures pressed ==> store.notifications == WithStatus(old(store.notifications), id, status)
    ensures !pressed ==> store.notifications == old(store.notifications)
    ensures store.nextNotificationId == old(store.nextNotificationId)
    ensures store.invoices == old(store.invoices) && store.expenses == old(store.expenses)
    ensures store.nextInvoiceId == old(store.nextInvoiceId) && store.nextExpenseId == old(store.nextExpenseId)
  {
    pressed := HasPendingRow(store.notifications, id);
    if pressed {
      store.UpdateNotificationStatus(id, status);
    }
  }

  /** The notifications tab's "Acknowledge" button of row `id`: the row becomes "Acknowledged". */
  method Acknowledge(store: Store, id: int) returns (pressed: bool)
    requires store.Valid()
    modifies store
    ensures store.Valid()
    ensures pressed <==> HasPendingRow(old(store.notifications), id)
    ensures pressed ==> store.notifications == WithStatus(old(store.notifications), id, Acknowledged)
    ensures !pressed ==> store.notifications == old(store.notifications)
    ensures store.nextNotificationId == old(store.nextNotificationId)
    ensures store.invoices == old(store.invoices) && store.expenses == old(store.expenses)
    ensures store.nextInvoiceId == old(store.nextInvoiceId) && store.nextExpenseId == old(store.nextExpenseId)
  {
    pressed := Press(store, id, Acknowledged);
  }

  /**
   * The challan tab's "Mark Paid" button of row `id`: it is shown only on a
   * Pending challan, and the row becomes "Paid".
   */
  method MarkPaid(store: Store, id: int) returns (pressed: bool)
    requires store.Valid()
    modifies store
    ensures store.Valid()
    ensures pressed <==> HasPendingRow(ChallanRows(old(store.notifications)), id)
    ensures pressed ==> store.notifications == WithStatus(old(store.notifications), id, Paid)
    ensures !pressed ==> store.notifications == old(store.notifications)
    ensures store.nextNotificationId == old(store.nextNotificationId)
    ensures store.invoices == old(store.invoices) && store.expenses == old(store.expenses)
    ensures store.nextInvoiceId == old(store.nextInvoiceId) && store.nextExpenseId == old(store.nextExpenseId)
  {
    pressed := HasPendingRow(ChallanRows(store.notifications), id);
    if pressed {
      store.UpdateNotificationStatus(id, Paid);
    }
  }

  /** A reminder or portal notice is never offered "Mark Paid", whatever its status. */
  lemma MarkPaidOnlyChallans(rows: seq<Notification>, id: int)
    requires forall i :: 0 <= i < |rows| && rows[i].id == id ==> rows[i].data.kind != ChallanKind
    ensures !HasPendingRow(ChallanRows(rows), id)
  {
  }

  /** An acknowledged challan reads "Paid" in the challan tab and has no "Mark Paid" button left. */
  lemma AcknowledgedChallanShowsPaid(rows: seq<Notification>, id: int)
    ensures !HasPendingRow(ChallanRows(WithStatus(rows, id, Acknowledged)), id)
    ensures ChallanDisplay(Acknowledged) == "Paid"
  {
  }

  /** After a press the row is no longer Pending, so its button is gone: a second press changes nothing. */
  lemma PressOnce(rows: seq<Notification>, id: int, status: string)
    requires status != Pending
    ensures !HasPendingRow(WithStatus(rows, id, status), id)
  {
  }

  /** "Add Reminder": a reminder row when the description is filled, nothing otherwise. */
  method AddReminder(store: Store, description: string, date: string) returns (added: bool)
    requires store.Valid()
    modifies store
    ensures store.Valid()
    ensures added <==> description != ""
    ensures added ==> (store.notifications == old(store.notifications) +
      [Notification(old(store.nextNotificationId), NotificationData(date, ReminderKind, description, "Check App"), Pending)])
    ensures added ==> store.nextNotificationId == old(store.nextNotificationId) + 1
    ensures !added ==> store.notifications == old(store.notifications) && store.nextNotificationId == old(store.nextNotificationId)
    ensures store.invoices == old(store.invoices) && store.expenses == old(store.expenses)
    ensures store.nextInvoiceId == old(store.nextInvoiceId) && store.nextExpenseId == old(store.nextExpenseId)
  {
    added := description != "";
    if added {
      store.AddNotification(NotificationData(date, ReminderKind, description, "Check App"));
    }
  }

  /** The description a challan is stored under; `amountText` is the amount as Python prints it. */
  function ChallanDescription(cpin: string, amountText: string): (d: string)
    ensures |d| == 19 + |cpin| + |amountText|
    ensures d[..6] == "CPIN: " && d[6..6 + |cpin|] == cpin && d[|d| - |amountText|..] == amountText
  {
    "CPIN: " + cpin + " - Amount: ₹ " + amountText
  }

  /** "Save Challan": a Pending challan row when the CPIN is filled, nothing otherwise. */
  method AddChallan(store: Store, cpin: string, amountText: string, date: string) returns (added: bool)
    requires store.Valid()
    modifies store
    ensures store.Valid()
    ensures added <==> cpin != ""
    ensures added ==> (store.notifications == old(store.notifications) +
      [Notification(old(store.nextNotificationId),
                    NotificationData(date, ChallanKind, ChallanDescription(cpin, amountText), "Pay at Bank/Online"), Pending)])
    ensures added ==> store.nextNotificationId == old(store.nextNotificationId) + 1
    ensures !added ==> store.notifications == old(store.notifications) && store.nextNotificationId == old(store.nextNotificationId)
    ensures store.invoices == old(store.invoices) && store.expenses == old(store.expenses)
    ensures store.nextInvoiceId == old(store.nextInvoiceId) && store.nextExpenseId == old(store.nextExpenseId)
  {
    added := cpin != "";
    if added {
      store.AddNotification(NotificationData(date, ChallanKind, ChallanDescription(cpin, amountText), "Pay at Bank/Online"));
    }
  }

  /** A saved challan is listed in the challan tab, unpaid. */
  lemma NewChallanListed(rows: seq<Notification>, n: Notification)
    requires n in rows && n.data.kind == ChallanKind && n.status == Pending
    ensures n in ChallanRows(rows) && ChallanDisplay(n.status) == "Unpaid"
  {
  }
}
