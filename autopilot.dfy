/**
 * The GST Autopilot page: a chat log, the session's browser agent (absent
 * until launched) and the sidebar commands that drive it. "Check Notices"
 * copies every notice the agent returns into the notifications table, so
 * that the Task Manager lists it as pending.
 */
module Autopilot {
  import opened Wrappers
  import opened Text
  import opened Database
  import opened GstAutomation

  /** One message of the chat log. */
  datatype ChatEntry = ChatEntry(role: string, content: string)

  const NoticeKind := "Portal Notice"
  const ListeningReply := "I heard you. Currently, I only respond to sidebar commands, but I'm listening!"

  /**
   * The notifications row `add_notification` receives for a notice: its own
   * date or today's, its description tagged with its id and its type as the
   * action. A failure entry has none of these keys, so Python prints them as
   * "None" and the defaults apply.
   */
  function RecordOf(n: Notice, today: string): (d: NotificationData)
    ensures d.kind == NoticeKind
    ensures n.Scraped? ==> d.date == n.date && d.actionRequired == n.kind &&
                           d.description == n.description + " (ID: " + n.noticeId + ")"
    ensures n.Failed? ==> d.date == today && d.actionRequired == "Check Portal" &&
                          d.description == "None (ID: None)"
  {
    match n
    case Scraped(noticeId, date, description, kind) =>
      NotificationData(date, NoticeKind, description + " (ID: " + noticeId + ")", kind)
    case Failed(_) =>
      NotificationData(today, NoticeKind, "None" + " (ID: " + "None" + ")", "Check Portal")
  }

  /** The records of a list of notices, one each, in order. */
  function Records(notices: seq<Notice>, today: string): (r: seq<NotificationData>)
    ensures |r| == |notices|
    ensures forall i :: 0 <= i < |notices| ==> r[i] == RecordOf(notices[i], today)
  {
    seq(|notices|, i requires 0 <= i < |notices| => RecordOf(notices[i], today))
  }

  /** The rows the table gains when `records` are inserted one by one, starting at id `next`. */
  function NewRows(next: nat, records: seq<NotificationData>): (r: seq<Notification>)
    ensures |r| == |records|
    ensures forall i :: 0 <= i < |records| ==> r[i] == Notification(next + i, records[i], Pending)
  {
    seq(|records|, i requires 0 <= i < |records| => Notification(next + i, records[i], Pending))
  }

  /** Adding one more record extends the new rows by one row. */
  lemma NewRowsSnoc(next: nat, records: seq<NotificationData>, d: NotificationData)
    ensures NewRows(next, records + [d]) == NewRows(next, records) + [Notification(next + |records|, d, Pending)]
  {
    var a := NewRows(next, records + [d]);
    var b := NewRows(next, records) + [Notification(next + |records|, d, Pending)];
    assert |a| == |b|;
    forall i | 0 <= i < |a|
      ensures a[i] == b[i]
    {
      if i < |records| {
        assert (records + [d])[i] == records[i];
      } else {
        assert (records + [d])[i] == d;
      }
    }
  }

  /** The chat messages "Check Notices" logs for the notices fetched. */
  function CheckLog(notices: seq<Notice>): (log: seq<ChatEntry>)
    ensures |log| >= 2 && log[0] == ChatEntry("user", "Check for notices")
    ensures |notices| == 0 ==> log == [ChatEntry("user", "Check for notices"), ChatEntry("assistant", "No notices found.")]
    ensures |notices| > 0 ==> (|log| == 3 &&
      log[1] == ChatEntry("assistant", "Found " + NatToString(|notices|) + " notices.") &&
      log[2] == ChatEntry("assistant", "Saved " + NatToString(|notices|) + " notices to Task Manager."))
  {
    [ChatEntry("user", "Check for notices")] +
    if |notices| == 0 then [ChatEntry("assistant", "No notices found.")]
    else [ChatEntry("assistant", "Found " + NatToString(|notices|) + " notices."),
          ChatEntry("assistant", "Saved " + NatToString(|notices|) + " notices to Task Manager.")]
  }

  /** The page's session state: the chat history and the agent, over the shared database. */
  class AutopilotPage {
    var chatHistory: seq<ChatEntry>
    var bot: GstBot?
    const store: Store

    ghost predicate Valid()
      reads this, store
    {
      store.Valid()
    }

    /** The first run of the page: an empty chat and no agent. */
    constructor (store: Store)
      requires store.Valid()
      ensures Valid() && this.store == store
      ensures chatHistory == [] && bot == null
    {
      this.store := store;
      chatHistory := [];
      bot := null;
    }

    /** `bot_log`: append one message to the chat. */
    method BotLog(role: string, message: string)
      modifies this
      ensures chatHistory == old(chatHistory) + [ChatEntry(role, message)]
      ensures bot == old(bot)
    {
      chatHistory := chatHistory + [ChatEntry(role, message)];
    }

    /**
     * "Check Notices". Without an agent only the error is shown. Otherwise the
     * agent fetches the notices, each becomes one Pending row with the next
     * free id, and the chat reports how many were found and saved.
     */
    method CheckNotices(table: seq<seq<string>>, env: Env, today: string) returns (errorShown: bool)
      requires Valid()
      modifies this, store, bot
      ensures Valid() && bot == old(bot)
      ensures errorShown <==> old(bot) == null
      ensures old(bot) == null ==> (chatHistory == old(chatHistory) && store.notifications == old(store.notifications) &&
        store.nextNotificationId == old(store.nextNotificationId))
      ensures old(bot) != null ==>
        var notices := NoticesFetched(old(bot.hasPage), table, env);
        chatHistory == old(chatHistory) + CheckLog(notices) &&
        store.notifications == old(store.notifications) + NewRows(old(store.nextNotificationId), Records(notices, today)) &&
        store.nextNotificationId == old(store.nextNotificationId) + |notices| &&
        bot.calls == old(bot.calls) + (if old(bot.hasPage) then Attempted(NoticesScript(), env) else [])
      ensures old(bot) != null ==> (bot.headless == old(bot.headless) && bot.hasPlaywright == old(bot.hasPlaywright) &&
        bot.hasBrowser == old(bot.hasBrowser) && bot.hasPage == old(bot.hasPage))
      ensures store.invoices == old(store.invoices) && store.expenses == old(store.expenses)
      ensures store.nextInvoiceId == old(store.nextInvoiceId) && store.nextExpenseId == old(store.nextExpenseId)
    {
      if bot == null {
        errorShown := true;
        return;
      }
      errorShown := false;
      BotLog("user", "Check for notices");
      var agent := bot;
      var notices := agent.GetNotifications(table, env);
      if |notices| > 0 {
        BotLog("assistant", "Found " + NatToString(|notices|) + " notices.");
        var count := SaveNotices(notices, today);
        BotLog("assistant", "Saved " + NatToString(count) + " notices to Task Manager.");
      } else {
        BotLog("assistant", "No notices found.");
      }
    }

    /** The loop of "Check Notices": one `add_notification` per notice, counted. */
    method SaveNotices(notices: seq<Notice>, today: string) returns (count: nat)
      requires Valid()
      modifies store
      ensures Valid() && count == |notices|
      ensures store.notifications == old(store.notifications) + NewRows(old(store.nextNotificationId), Records(notices, today))
      ensures store.nextNotificationId == old(store.nextNotificationId) + |notices|
      ensures store.invoices == old(store.invoices) && store.expenses == old(store.expenses)
      ensures store.nextInvoiceId == old(store.nextInvoiceId) && store.nextExpenseId == old(store.nextExpenseId)
    {
      ghost var next := store.nextNotificationId;
      count := 0;
      while count < |notices|
        invariant 0 <= count <= |notices|
        invariant store.Valid()
        invariant store.nextNotificationId == next + count
        invariant store.notifications == old(store.notifications) + NewRows(next, Records(notices, today)[..count])
        invariant store.invoices == old(store.invoices) && store.expenses == old(store.expenses)
        invariant store.nextInvoiceId == old(store.nextInvoiceId) && store.nextExpenseId == old(store.nextExpenseId)
      {
        store.AddNotification(RecordOf(notices[count], today));
        assert Records(notices, today)[..count + 1] == Records(notices, today)[..count] + [RecordOf(notices[count], today)];
        NewRowsSnoc(next, Records(notices, today)[..count], RecordOf(notices[count], today));
        count := count + 1;
      }
      assert Records(notices, today)[..count] == Records(notices, today);
    }

    /** "Go to Return Dashboard": the agent opens the returns page and its answer is logged. */
    method GoToReturnDashboard(financialYear: string, period: string, env: Env) returns (errorShown: bool)
      modifies this, bot
      ensures bot == old(bot)
      ensures errorShown <==> old(bot) == null
      ensures old(bot) == null ==> chatHistory == old(chatHistory)
      ensures old(bot) != null ==>
        chatHistory == old(chatHistory) + [ChatEntry("user", "Navigate to Returns: " + period + " " + financialYear),
                                           ChatEntry("assistant", ReturnsMessage(old(bot.hasPage), financialYear, env))] &&
        bot.calls == old(bot.calls) + (if old(bot.hasPage) then Attempted(ReturnsScript(financialYear), env) else [])
      ensures old(bot) != null ==> (bot.headless == old(bot.headless) && bot.hasPlaywright == old(bot.hasPlaywright) &&
        bot.hasBrowser == old(bot.hasBrowser) && bot.hasPage == old(bot.hasPage))
    {
      if bot == null {
        errorShown := true;
        return;
      }
      errorShown := false;
      BotLog("user", "Navigate to Returns: " + period + " " + financialYear);
      var agent := bot;
      var msg := agent.NavigateToReturnDashboard(financialYear, None, period, env);
      BotLog("assistant", msg);
    }

    /**
     * "Launch Agent": with both credentials filled, a new visible agent
     * replaces the session's one and logs in; the login answer is logged.
     */
    method Launch(username: string, password: string, env: Env) returns (errorShown: bool)
      modifies this
      ensures errorShown <==> username == "" || password == ""
      ensures errorShown ==> chatHistory == old(chatHistory) && bot == old(bot)
      ensures !errorShown ==> (bot != null && fresh(bot) && !bot.headless && bot.hasPage &&
        bot.hasBrowser && bot.hasPlaywright &&
        bot.calls == StartScript(false) + Attempted(LoginScript(username, password), env) &&
        chatHistory == old(chatHistory) + [ChatEntry("user", "Launch Agent"),
                                           ChatEntry("assistant", LoginMessage(username, password, env))])
    {
      if username == "" || password == "" {
        errorShown := true;
        return;
      }
      errorShown := false;
      BotLog("user", "Launch Agent");
      var agent := new GstBot(false);
      bot := agent;
      var msg := agent.Login(username, password, env);
      BotLog("assistant", msg);
    }

    /** "Stop Agent": the running agent closes its browser and is dropped. */
    method Stop()
      modifies this, bot
      ensures old(bot) == null ==> bot == null && chatHistory == old(chatHistory)
      ensures old(bot) != null ==> (bot == null &&
        chatHistory == old(chatHistory) + [ChatEntry("user", "Stop Agent"), ChatEntry("assistant", "Agent stopped.")] &&
        old(bot).calls == old(bot.calls) + (if old(bot.hasBrowser) then [CloseBrowser] else []) +
                                          (if old(bot.hasPlaywright) then [StopPlaywright] else []))
    {
      if bot == null {
        return;
      }
      BotLog("user", "Stop Agent");
      var agent := bot;
      agent.Close();
      bot := null;
      BotLog("assistant", "Agent stopped.");
    }

    /**
     * A chat message: an empty one is ignored; otherwise it is logged, and a
     * running agent logs its fixed reply.
     */
    method ChatInput(prompt: string)
      modifies this
      ensures bot == old(bot)
      ensures prompt == "" ==> chatHistory == old(chatHistory)
      ensures prompt != "" && bot == null ==> chatHistory == old(chatHistory) + [ChatEntry("user", prompt)]
      ensures prompt != "" && bot != null ==>
        chatHistory == old(chatHistory) + [ChatEntry("user", prompt), ChatEntry("assistant", ListeningReply)]
    {
      if prompt == "" {
        return;
      }
      chatHistory := chatHistory + [ChatEntry("user", prompt)];
      if bot != null {
        chatHistory := chatHistory + [ChatEntry("assistant", ListeningReply)];
      }
    }
  }

  /** Every saved notice reaches the Task Manager as a pending "Portal Notice" row with a fresh id. */
  lemma SavedNoticesPending(old_rows: seq<Notification>, next: nat, notices: seq<Notice>, today: string, i: int)
    requires IdsFresh(NotificationIds(old_rows), next)
    requires 0 <= i < |notices|
    ensures var rows := old_rows + NewRows(next, Records(notices, today));
      |rows| == |old_rows| + |notices| &&
      rows[|old_rows| + i].status == Pending && rows[|old_rows| + i].data.kind == NoticeKind &&
      rows[|old_rows| + i].id == next + i &&
      forall j :: 0 <= j < |old_rows| ==> old_rows[j].id < rows[|old_rows| + i].id
  {
    var rows := old_rows + NewRows(next, Records(notices, today));
    assert rows[|old_rows| + i] == NewRows(next, Records(notices, today))[i];
    forall j | 0 <= j < |old_rows|
      ensures old_rows[j].id < next + i
    {
      assert NotificationIds(old_rows)[j] == old_rows[j].id;
    }
  }

  /** A fetch that failed is still saved, as one row dated today. */
  lemma FailedFetchSavesOneRow(table: seq<seq<string>>, env: Env, today: string)
    requires FirstError(NoticesScript(), env).Some?
    ensures var notices := NoticesFetched(true, table, env);
      |notices| == 1 && Records(notices, today) ==
        [NotificationData(today, NoticeKind, "None (ID: None)", "Check Portal")] &&
      CheckLog(notices)[1] == ChatEntry("assistant", "Found 1 notices.")
  {
    var notices := NoticesFetched(true, table, env);
    assert notices == [Failed("Could not fetch notices: " + FirstError(NoticesScript(), env).value)];
    assert NatToString(1) == "1";
  }
}
