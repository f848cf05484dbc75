/**
 * The GSTBot wrapper around a Playwright browser on the GST portal. The
 * browser itself is outside the model: every call the bot makes is recorded
 * in `calls`, and an environment function `env` says, for each call, whether
 * it raises (Some(message)) or returns normally (None). Inside a `try` block
 * the first call that raises ends the block, so the calls a method makes are
 * the prefix of its script up to and including the first failing one.
 */
module GstAutomation {
  import opened Wrappers

  datatype Call =
    | StartPlaywright
    | LaunchChromium(headless: bool)
    | NewContext(width: int, height: int)
    | NewPage
    | Goto(url: string)
    | Fill(selector: string, value: string)
    | WaitForUrl(pattern: string, timeoutMs: int)
    | WaitForLoadState(state: string)
    | QueryRows(selector: string)
    | SelectOption(selector: string, optionLabel: string)
    | CloseBrowser
    | StopPlaywright

  /** What the browser does with each call: Some(message) when the call raises. */
  type Env = Call -> Option<string>

  const LoginUrl := "https://services.gst.gov.in/services/login"
  const NoticesUrl := "https://services.gst.gov.in/services/auth/viewnotices"
  const ReturnsUrl := "https://services.gst.gov.in/services/auth/returns"
  /** Split so that its first character is visible to the verifier, which does not index far into one long literal. */
  const LoginPrompt := "Please solve the CAPTCHA and " + "click Login on the browser window." + " Then enter OTP if prompted."
  const NavigatedMessage := "Navigated to Return Dashboard. Please select Period and click SEARCH."
  /** `str(e)` of the AttributeError raised by a call on `self.page` while it is None. */
  const NoPageError := "'NoneType' object has no attribute 'goto'"

  // ---------------------------------------------------------------------------
  // A try block as a script of calls

  /** The calls a try block makes: the script up to and including the first call that raises. */
  function Attempted(script: seq<Call>, env: Env): (r: seq<Call>)
    ensures |r| <= |script| && r == script[..|r|]
    decreases |script|
  {
    if script == [] then []
    else if env(script[0]).Some? then [script[0]]
    else [script[0]] + Attempted(script[1..], env)
  }

  /** The message of the first call of the script that raises, if any. */
  function FirstError(script: seq<Call>, env: Env): Option<string>
    decreases |script|
  {
    if script == [] then None
    else if env(script[0]).Some? then env(script[0])
    else FirstError(script[1..], env)
  }

  /**
   * A block with no error makes every call of its script; a block with an
   * error stops at the call that raised it, after calls that all succeeded.
   */
  lemma {:induction false} AttemptedStopsAtError(script: seq<Call>, env: Env)
    ensures FirstError(script, env).None? <==> Attempted(script, env) == script && forall i :: 0 <= i < |script| ==> env(script[i]).None?
    ensures FirstError(script, env).Some? ==>
      var r := Attempted(script, env);
      |r| > 0 && env(r[|r| - 1]) == FirstError(script, env) && forall i :: 0 <= i < |r| - 1 ==> env(r[i]).None?
    decreases |script|
  {
    if script != [] && env(script[0]).None? {
      AttemptedStopsAtError(script[1..], env);
      var r := Attempted(script[1..], env);
      assert Attempted(script, env) == [script[0]] + r;
      if FirstError(script, env).None? {
        forall i | 0 <= i < |script| ensures env(script[i]).None? {
          if i > 0 {
            assert script[i] == script[1..][i - 1];
          }
        }
      }
    }
  }

  /** One more call at the end of a block is made only when the block so far raised nothing. */
  lemma {:induction false} AttemptedSnoc(done: seq<Call>, c: Call, env: Env)
    ensures Attempted(done + [c], env) == if FirstError(done, env).Some? then Attempted(done, env) else Attempted(done, env) + [c]
    ensures FirstError(done + [c], env) == if FirstError(done, env).Some? then FirstError(done, env) else env(c)
    decreases |done|
  {
    if done == [] {
      assert [] + [c] == [c];
      assert [c][1..] == [];
    } else {
      assert (done + [c])[1..] == done[1..] + [c];
      AttemptedSnoc(done[1..], c, env);
    }
  }

  // ---------------------------------------------------------------------------
  // Scraped notices

  /** A notice dict: the four columns of a table row, or the single "Error" key. */
  datatype Notice =
    | Scraped(noticeId: string, date: string, description: string, kind: string)
    | Failed(error: string)

  /** A row of at least three cells: ID, date and description, and the type when there is a fourth cell. */
  function RowToNotice(cells: seq<string>): (n: Notice)
    requires |cells| >= 3
    ensures n.Scraped? && n.noticeId == cells[0] && n.date == cells[1] && n.description == cells[2]
    ensures n.kind == if |cells| > 3 then cells[3] else "Unknown"
  {
    Scraped(cells[0], cells[1], cells[2], if |cells| > 3 then cells[3] else "Unknown")
  }

  /** The notices of a table, in row order, skipping rows of fewer than three cells. */
  function ScrapeRows(table: seq<seq<string>>): (r: seq<Notice>)
    ensures |r| <= |table|
    ensures forall k :: 0 <= k < |r| ==> r[k].Scraped?
    decreases |table|
  {
    if table == [] then []
    else if |table[0]| >= 3 then [RowToNotice(table[0])] + ScrapeRows(table[1..])
    else ScrapeRows(table[1..])
  }

  /** Rows with fewer than three cells yield nothing; a longer row yields its notice at the end. */
  lemma {:induction false} ScrapeRowsAppend(table: seq<seq<string>>, row: seq<string>)
    ensures ScrapeRows(table + [row]) == ScrapeRows(table) + (if |row| >= 3 then [RowToNotice(row)] else [])
    decreases |table|
  {
    if table == [] {
      assert [row][1..] == [];
    } else {
      assert (table + [row])[1..] == table[1..] + [row];
      ScrapeRowsAppend(table[1..], row);
    }
  }

  /** Every row of three or more cells contributes exactly one notice, in order. */
  lemma {:induction false} ScrapeRowsCount(table: seq<seq<string>>, row: seq<string>)
    requires |row| >= 3
    ensures |ScrapeRows(table + [row])| == |ScrapeRows(table)| + 1
    ensures ScrapeRows(table + [row])[|ScrapeRows(table)|] == RowToNotice(row)
  {
    ScrapeRowsAppend(table, row);
  }

  /** The result of `get_notifications` for the page state, table and browser given. */
  function NoticesFetched(hasPage: bool, table: seq<seq<string>>, env: Env): (r: seq<Notice>)
    ensures !hasPage ==> r == [Failed("Could not fetch notices: " + NoPageError)]
    ensures hasPage && FirstError(NoticesScript(), env).Some? ==>
      r == [Failed("Could not fetch notices: " + FirstError(NoticesScript(), env).value)]
    ensures hasPage && FirstError(NoticesScript(), env).None? ==> r == ScrapeRows(table)
  {
    if !hasPage then [Failed("Could not fetch notices: " + NoPageError)]
    else
      var e := FirstError(NoticesScript(), env);
      if e.Some? then [Failed("Could not fetch notices: " + e.value)] else ScrapeRows(table)
  }

  function StartScript(headless: bool): seq<Call>
  {
    [StartPlaywright, LaunchChromium(headless), NewContext(1280, 720), NewPage]
  }

  function LoginScript(username: string, password: string): seq<Call>
  {
    [Goto(LoginUrl), Fill("#username", username), Fill("#user_pass", password), Fill("#captcha", "")]
  }

  function NoticesScript(): seq<Call>
  {
    [Goto(NoticesUrl), WaitForLoadState("networkidle"), QueryRows("table tbody tr")]
  }

  function ReturnsScript(financialYear: string): seq<Call>
  {
    [Goto(ReturnsUrl), WaitForLoadState("networkidle"), SelectOption("select[id='finYear']", financialYear)]
  }

  /** The string `navigate_to_return_dashboard` returns for the page state, year and browser given. */
  function ReturnsMessage(hasPage: bool, financialYear: string, env: Env): (msg: string)
    ensures !hasPage ==> msg == "Navigation Error: " + NoPageError
    ensures hasPage && FirstError(ReturnsScript(financialYear), env).None? ==> msg == NavigatedMessage
    ensures hasPage && FirstError(ReturnsScript(financialYear), env).Some? ==>
      msg == "Navigation Error: " + FirstError(ReturnsScript(financialYear), env).value
  {
    if !hasPage then "Navigation Error: " + NoPageError
    else
      var e := FirstError(ReturnsScript(financialYear), env);
      if e.None? then NavigatedMessage else "Navigation Error: " + e.value
  }

  /** The string `login` returns: the fixed instruction, or the error of the first failing call. */
  function LoginMessage(username: string, password: string, env: Env): (msg: string)
    ensures msg == LoginPrompt <==> FirstError(LoginScript(username, password), env).None?
    ensures FirstError(LoginScript(username, password), env).Some? ==>
      msg == "Error during login init: " + FirstError(LoginScript(username, password), env).value
  {
    var e := FirstError(LoginScript(username, password), env);
    if e.None? then LoginPrompt
    else
      var m := "Error during login init: " + e.value;
      assert m[0] == 'E';
      m
  }

  class GstBot {
    var headless: bool
    var hasPlaywright: bool
    var hasBrowser: bool
    var hasPage: bool
    /** Every call made to the browser so far, in order. */
    var calls: seq<Call>

    /** `GSTBot(headless)`: nothing started yet. */
    constructor (headless: bool)
      ensures this.headless == headless
      ensures !hasPlaywright && !hasBrowser && !hasPage && calls == []
    {
      this.headless := headless;
      hasPlaywright, hasBrowser, hasPage := false, false, false;
      calls := [];
    }

    /**
     * The next call `c` of a try block whose calls so far are `done`: made
     * only when none of them raised.
     */
    method Step(ghost base: seq<Call>, ghost done: seq<Call>, c: Call, env: Env, err: Option<string>)
      returns (err': Option<string>)
      requires err == FirstError(done, env) && calls == base + Attempted(done, env)
      modifies this
      ensures err' == FirstError(done + [c], env) && calls == base + Attempted(done + [c], env)
      ensures headless == old(headless) && hasPlaywright == old(hasPlaywright)
      ensures hasBrowser == old(hasBrowser) && hasPage == old(hasPage)
    {
      AttemptedSnoc(done, c, env);
      if err.None? {
        calls := calls + [c];
        err' := env(c);
      } else {
        err' := err;
      }
    }

    /** `start`: launch Chromium with the bot's headless flag and open a 1280x720 page. */
    method Start()
      modifies this
      ensures hasPlaywright && hasBrowser && hasPage && headless == old(headless)
      ensures calls == old(calls) + StartScript(headless)
    {
      calls := calls + [StartPlaywright];
      hasPlaywright := true;
      calls := calls + [LaunchChromium(headless)];
      hasBrowser := true;
      calls := calls + [NewContext(1280, 720), NewPage];
      hasPage := true;
    }

    /**
     * `login`: starts the browser when there is no page yet, opens the login
     * page, types the credentials and focuses the captcha box.
     */
    method Login(username: string, password: string, env: Env) returns (msg: string)
      modifies this
      ensures hasPage && headless == old(headless)
      ensures hasPlaywright == (old(hasPlaywright) || !old(hasPage)) && hasBrowser == (old(hasBrowser) || !old(hasPage))
      ensures calls == old(calls) + (if old(hasPage) then [] else StartScript(headless)) +
                       Attempted(LoginScript(username, password), env)
      ensures msg == LoginMessage(username, password, env)
    {
      if !hasPage {
        Start();
      }
      ghost var base := calls;
      var e := Step(base, [], Goto(LoginUrl), env, None);
      e := Step(base, [Goto(LoginUrl)], Fill("#username", username), env, e);
      e := Step(base, [Goto(LoginUrl), Fill("#username", username)], Fill("#user_pass", password), env, e);
      e := Step(base, [Goto(LoginUrl), Fill("#username", username), Fill("#user_pass", password)], Fill("#captcha", ""), env, e);
      assert [Goto(LoginUrl), Fill("#username", username), Fill("#user_pass", password)] + [Fill("#captcha", "")] ==
        LoginScript(username, password);
      msg := if e.None? then LoginPrompt else "Error during login init: " + e.value;
    }

    /** `wait_for_dashboard(timeout)`: waits `timeout` seconds for a dashboard URL; any failure gives false. */
    method WaitForDashboard(env: Env, timeout: int) returns (ok: bool)
      modifies this
      ensures !old(hasPage) ==> !ok && calls == old(calls)
      ensures old(hasPage) ==> calls == old(calls) + [WaitForUrl("**/dashboard**", timeout * 1000)] &&
                               (ok <==> env(WaitForUrl("**/dashboard**", timeout * 1000)).None?)
      ensures headless == old(headless) && hasPlaywright == old(hasPlaywright)
      ensures hasBrowser == old(hasBrowser) && hasPage == old(hasPage)
    {
      if !hasPage {
        ok := false;
      } else {
        var e := Step(calls, [], WaitForUrl("**/dashboard**", timeout * 1000), env, None);
        ok := e.None?;
      }
    }

    /**
     * `get_notifications`: opens the notices page and turns the rows of its
     * table into notices; any failure gives the single error notice.
     */
    method GetNotifications(table: seq<seq<string>>, env: Env) returns (notices: seq<Notice>)
      modifies this
      ensures notices == NoticesFetched(old(hasPage), table, env)
      ensures calls == old(calls) + (if old(hasPage) then Attempted(NoticesScript(), env) else [])
      ensures headless == old(headless) && hasPlaywright == old(hasPlaywright)
      ensures hasBrowser == old(hasBrowser) && hasPage == old(hasPage)
    {
      if !hasPage {
        notices := [Failed("Could not fetch notices: " + NoPageError)];
        return;
      }
      ghost var base := calls;
      var e := Step(base, [], Goto(NoticesUrl), env, None);
      e := Step(base, [Goto(NoticesUrl)], WaitForLoadState("networkidle"), env, e);
      e := Step(base, [Goto(NoticesUrl), WaitForLoadState("networkidle")], QueryRows("table tbody tr"), env, e);
      assert [Goto(NoticesUrl), WaitForLoadState("networkidle")] + [QueryRows("table tbody tr")] == NoticesScript();
      if e.Some? {
        notices := [Failed("Could not fetch notices: " + e.value)];
        return;
      }
      notices := [];
      var k := 0;
      while k < |table|
        invariant 0 <= k <= |table|
        invariant notices == ScrapeRows(table[..k])
        invariant calls == old(calls) + Attempted(NoticesScript(), env)
        invariant headless == old(headless) && hasPlaywright == old(hasPlaywright)
        invariant hasBrowser == old(hasBrowser) && hasPage == old(hasPage)
      {
        var cols := table[k];
        if |cols| >= 3 {
          var notice := Scraped(cols[0], cols[1], cols[2], if |cols| > 3 then cols[3] else "Unknown");
          notices := notices + [notice];
        }
        assert table[..k + 1] == table[..k] + [cols];
        ScrapeRowsAppend(table[..k], cols);
        k := k + 1;
      }
      assert table[..k] == table;
    }

    /**
     * `navigate_to_return_dashboard`: opens the returns page and selects the
     * financial year. The quarter and the period are not used.
     */
    method NavigateToReturnDashboard(financialYear: string, quarter: Option<string>, period: string, env: Env)
      returns (msg: string)
      modifies this
      ensures !old(hasPage) ==> msg == "Navigation Error: " + NoPageError && calls == old(calls)
      ensures old(hasPage) ==> calls == old(calls) + Attempted(ReturnsScript(financialYear), env)
      ensures msg == ReturnsMessage(old(hasPage), financialYear, env)
      ensures headless == old(headless) && hasPlaywright == old(hasPlaywright)
      ensures hasBrowser == old(hasBrowser) && hasPage == old(hasPage)
    {
      if !hasPage {
        msg := "Navigation Error: " + NoPageError;
        return;
      }
      ghost var base := calls;
      var e := Step(base, [], Goto(ReturnsUrl), env, None);
      e := Step(base, [Goto(ReturnsUrl)], WaitForLoadState("networkidle"), env, e);
      e := Step(base, [Goto(ReturnsUrl), WaitForLoadState("networkidle")],
                SelectOption("select[id='finYear']", financialYear), env, e);
      assert [Goto(ReturnsUrl), WaitForLoadState("networkidle")] + [SelectOption("select[id='finYear']", financialYear)] ==
        ReturnsScript(financialYear);
      msg := if e.None? then NavigatedMessage else "Navigation Error: " + e.value;
    }

    /** `close`: closes what was started, and leaves the fields as they were. */
    method Close()
      modifies this
      ensures calls == old(calls) + (if hasBrowser then [CloseBrowser] else []) + (if hasPlaywright then [StopPlaywright] else [])
      ensures headless == old(headless) && hasPlaywright == old(hasPlaywright)
      ensures hasBrowser == old(hasBrowser) && hasPage == old(hasPage)
    {
      if hasBrowser {
        calls := calls + [CloseBrowser];
      }
      if hasPlaywright {
        calls := calls + [StopPlaywright];
      }
    }
  }

  /** Login succeeds with the instruction exactly when none of the four calls on the login page raises. */
  lemma LoginPromptIffNoError(username: string, password: string, env: Env)
    ensures LoginMessage(username, password, env) == LoginPrompt <==>
      forall i :: 0 <= i < 4 ==> env(LoginScript(username, password)[i]).None?
  {
    var script := LoginScript(username, password);
    AttemptedStopsAtError(script, env);
    if FirstError(script, env).Some? {
      var m := FirstError(script, env).value;
      var msg := LoginMessage(username, password, env);
      assert msg == "Error during login init: " + m;
      assert msg[0] == 'E';
      var r := Attempted(script, env);
      assert r[|r| - 1] == script[|r| - 1];
      assert env(script[|r| - 1]).Some?;
    }
  }
}
