# AI-Accountant GST bookkeeping core, modelled in Dafny

AI-Accountant is a small bookkeeping app for Indian startups. It has these parts:

- A **login gate** and a **dashboard** (`app.py`). The dashboard shows total sales, total expenses, the GST collected and the net GST payable. It also lists the five latest invoices and the five latest expenses.
- Two **forms**. The invoice form (`pages/1_Sales_Invoices.py`) and the expense form (`pages/2_Expenses.py`) split GST into IGST (inter-state) or CGST plus SGST (intra-state), and store one row each.
- **GST reports** (`pages/3_GST_Reports.py`):
  - GSTR-1: invoices grouped by rate;
  - GSTR-3B: liability against input tax credit (ITC), with the cash payable clamped at zero per component.
- A **keyword assistant** (`pages/4_AI_Assistant.py`) that answers sales, tax, expense and profit questions.
- A **browser agent** on the GST portal (`gst_automation.py`) and the **Autopilot** page that drives it (`pages/5_GST_Autopilot.py`). The Autopilot page copies portal notices into the notifications table.
- A **Task Manager** (`pages/6_Task_Manager.py`):
  - compliance to-dos (GSTR-1 due on the 11th, GSTR-3B on the 20th);
  - reminders;
  - challans, and the Acknowledge and Mark Paid buttons.
- The SQLite **store** (`database.py`) with three tables.
- A **backup script** (`backup.py`) that keeps a version manifest and can restore a version.

The model is organised as follows:

- One module per source file:
  - `Dashboard`, `SalesInvoices`, `Expenses`, `GstReports`, `Assistant`, `GstAutomation`, `Autopilot`, `TaskManager`, `Database`, `Backup`.
- Shared helper modules:
  - `Gst`: tax lines and column sums;
  - `Text`: lower-casing, substring search, decimal printing and parsing, the string order SQL sorts dates by;
  - `Sorting`: `ORDER BY date DESC`, filters and `.head(n)`;
  - `Wrappers`: `Option`.
- Money is `real`. A form's taxable value is non-negative, because the number input has `min_value=0.0`.
- The SQL tables are `seq` fields of the class `Database.Store`. Each table has a next-id counter, so AUTOINCREMENT ids start at 1.
- Streamlit session state becomes class fields:
  - `Dashboard.Session.authenticated`;
  - `Autopilot.AutopilotPage.chatHistory` and `bot`.
- The browser is an environment function from calls to an optional error message. `GstAutomation.GstBot.calls` records every call in order. A `try` block makes its calls up to and including the first one that raises (`Attempted`, `FirstError`).
- The backup script works on an in-memory picture of its files: the manifest, the project tree and the backup directories.

Where the app's own Tutorial page (`pages/7_Tutorial.py`) or its labels describe more than the code does, this model follows the code:

- Tutorial line 80 suggests the question "What was my total sales last month?". The assistant's sales keyword is the phrase "total sales" (`pages/4_AI_Assistant.py:19`), so the word "sales" alone gets the help text. "Who is my top customer?" (Tutorial line 81) also gets the help text.
- Tutorial line 52 ties input tax credit to the expense data. The ITC guards on the dashboard (`app.py:40`) and in the assistant (`pages/4_AI_Assistant.py:25`) test the invoices table, not the expenses table.
- Tutorial line 46 names the expense categories Rent, Utilities and Purchase of Goods. The form offers Office Supplies, Raw Material, Services, Utilities and Other (`pages/2_Expenses.py:16`).
- Tutorial line 94 mentions filing Nil returns, and line 112 mentions marking tasks Completed. The "Auto-File GSTR-1" button (`pages/5_GST_Autopilot.py:56-65`) only opens the returns page and picks the year. The OTP in the login prompt (`gst_automation.py:33`) is left to the user. None of these workflows exist in the code, so none are modelled.
- Two quirks of the code itself:
  - a challan acknowledged from the notifications tab reads "Paid" in the challan tab (`pages/6_Task_Manager.py:138`);
  - relaunching the agent replaces the old bot without closing its browser (`pages/5_GST_Autopilot.py:78-79`).

## Model

| member | source | states |
|---|---|---|
| Gst.ComputeTax | pages/1_Sales_Invoices.py:24-36 | inter-state puts all GST in IGST, intra-state splits it evenly into CGST and SGST; the three always add up to taxable × rate/100 and the total is taxable plus GST |
| Gst.TotalCoversTaxable | pages/2_Expenses.py:20-37 | for a non-negative taxable value every component is non-negative and the total is at least the taxable value |
| Gst.WellFormedNonNegative | pages/1_Sales_Invoices.py:19-36 | a line the forms can produce has non-negative tax parts and a total no smaller than its taxable value |
| Gst.Sum | app.py:36-42 | the column sums of a table: zero for an empty table, a single line's own totals for one line; its additivity is in `SumAppend` |
| Gst.SumAppend | app.py:36-40 | the column sums of two tables together are the sums of each table added |
| Gst.SumNonNegative | pages/3_GST_Reports.py:55-57 | the sums over lines the forms produce are non-negative in every column |
| Gst.SumBalances | app.py:36-39 | for form-produced lines, the summed total amount equals the summed taxable value plus the summed GST |
| Database.CategoryListed | pages/2_Expenses.py:16 | every category is one of the five the form offers, and distinct categories have distinct names |
| Database.InvoiceLines | app.py:36-37 | the tax columns of the invoice rows, one per row in order |
| Database.ExpenseLines | app.py:39-40 | the tax columns of the expense rows, one per row in order |
| Database.WithStatus | database.py:117-122 | `UPDATE … WHERE id = ?`: the rows with that id get the new status and every other row is unchanged |
| Database.WithStatusUnknownId | database.py:120 | an update on an id that no row has changes nothing |
| Database.WithStatusTouchesOneRow | database.py:120 | with unique ids, an update changes at most one row |
| Database.WithStatusIdempotent | database.py:120 | repeating the same update changes nothing more |
| Database.IdsDistinct | database.py:54 | the AUTOINCREMENT notification ids of a store's notifications table are pairwise distinct |
| Database.Store.constructor | database.py:11-64 | the three tables start empty and the store invariant holds |
| Database.Store.AddInvoice | database.py:66-74 | appends exactly one Unpaid row with a fresh id larger than every existing id; other tables are untouched |
| Database.Store.AddExpense | database.py:82-90 | appends exactly one row with a fresh larger id; other tables are untouched |
| Database.Store.AddNotification | database.py:98-106 | appends exactly one Pending row with a fresh larger id; other tables are untouched |
| Database.Store.UpdateNotificationStatus | database.py:117-122 | the notifications become `WithStatus` of the old ones and the invariant is kept |
| Database.Store.Invoices | database.py:76-80 | every invoice row exactly once (same multiset), latest date first |
| Database.Store.Expenses | database.py:92-96 | every expense row exactly once, latest date first |
| Database.Store.Notifications | database.py:108-115 | all rows, or only the Pending ones (membership and multiplicity), latest date first |
| Sorting.Insert | database.py:78 | inserting adds exactly that element to the multiset |
| Sorting.InsertSorted | database.py:78 | insertion keeps a latest-first order |
| Sorting.SortDesc | database.py:78 | `ORDER BY date DESC` gives a permutation of the rows sorted by descending date |
| Sorting.Filter | database.py:112 | `WHERE`: exactly the rows satisfying the condition, with their multiplicities |
| Sorting.FilterSorted | database.py:112 | filtering a sorted listing keeps it sorted |
| Sorting.Head | app.py:64 | `.head(n)`: the first min(n, size) rows |
| Sorting.HeadIsLatest | app.py:71 | no row left out of a head has a later date than a row shown |
| Text.Lower | pages/4_AI_Assistant.py:13 | lower-casing keeps the length, maps each letter A-Z to its lower case (code point + 32) and keeps every other character |
| Text.LowerIdempotent | pages/4_AI_Assistant.py:13 | lower-casing twice is lower-casing once |
| Text.ContainsIff | pages/4_AI_Assistant.py:19 | `sub in s` holds exactly when `sub` occurs at some position of `s` |
| Text.ContainsWithin | pages/4_AI_Assistant.py:19 | an occurrence at a position makes `in` true |
| Text.NotContainsAt | pages/4_AI_Assistant.py:19 | a character of `sub` missing from every possible position makes `in` false |
| Text.NatToString | pages/5_GST_Autopilot.py:39 | `f"{n}"` is a non-empty digit string without a leading zero |
| Text.NatToStringRoundTrip | pages/5_GST_Autopilot.py:39 | the printed digits read back as the same number |
| Text.NatToStringInjective | backup.py:59 | different numbers print differently |
| Text.ParseInt | backup.py:163 | `int()` fails on a blank string, a negative result needs a leading minus sign, and a plain digit string reads as its decimal value |
| Text.ParseIntRoundTrip | backup.py:163 | `int()` reads a printed number back, with or without a minus sign |
| Text.ParseIntRejects | backup.py:163-166 | a character other than a digit, a sign or a space makes `int()` fail |
| Text.TrimLeftSuffix | backup.py:163 | left-stripping removes only a run of leading spaces |
| Text.TrimRightPrefix | backup.py:163 | right-stripping removes only a run of trailing spaces |
| Text.StripKeeps | backup.py:163 | stripping keeps every non-space character |
| Text.DigitsUnstripped | backup.py:163 | a digit string has no surrounding spaces |
| Text.StrLeTotal | database.py:78 | any two dates compare one way or the other |
| Text.StrLeTrans | database.py:78 | the date order is transitive |
| Text.StrLeAntisymmetric | database.py:78 | the date order is antisymmetric |
| Dashboard.Session.constructor | app.py:7-8 | the session starts unauthenticated |
| Dashboard.Session.CheckLogin | app.py:10-15 | authenticated exactly for COPL2026 / COPL@2026, and the error shows exactly otherwise |
| Dashboard.Session.Logout | app.py:25-27 | clears the flag |
| Dashboard.DashboardMetrics | app.py:36-42 | the sales, expense and GST sums; ITC and net read zero when there are no invoices; the net is the clamped difference and never negative |
| Dashboard.NetIgnoresItcGuard | app.py:40-42 | for form-produced expenses, the misplaced guard never changes the net payable |
| Dashboard.DashboardBelowReport | app.py:42 | the dashboard's net payable never exceeds the GSTR-3B cash payable |
| Dashboard.ItcHiddenWithoutInvoices | app.py:40 | an 18% expense of 1000 with no invoices shows ITC 0 although its GST is 180 |
| Dashboard.Recent | app.py:64 | the recent table holds the first five rows, or all of them when there are fewer |
| Dashboard.RecentInvoicesAreLatest | app.py:61-66 | no invoice left out of the recent table has a later date than one shown |
| Dashboard.RecentExpensesAreLatest | app.py:68-73 | the same for expenses |
| SalesInvoices.Submission | pages/1_Sales_Invoices.py:41-46 | a row is submitted exactly when both the invoice number and the customer name are filled; it carries the form's fields and the computed tax |
| SalesInvoices.GstinOptional | pages/1_Sales_Invoices.py:16 | an empty GSTIN never prevents saving |
| SalesInvoices.Save | pages/1_Sales_Invoices.py:41-48 | saves exactly when both fields are filled: one new Unpaid row; otherwise nothing changes |
| Expenses.Submission | pages/2_Expenses.py:42-47 | a row is submitted exactly when the vendor name is filled; it carries the form's fields, the computed tax and a listed category |
| Expenses.OptionalFields | pages/2_Expenses.py:15-19 | empty GSTIN and description never prevent saving |
| Expenses.Save | pages/2_Expenses.py:42-49 | saves exactly when the vendor is named: one new row; otherwise nothing changes |
| GstReports.AtRate | pages/3_GST_Reports.py:20 | a group holds only invoices of that rate |
| GstReports.AtOwnRate | pages/3_GST_Reports.py:20 | every invoice is in the group of its own rate |
| GstReports.GroupsFor | pages/3_GST_Reports.py:20 | every group has a listed rate, is non-empty and carries the column sums of its invoices |
| GstReports.GroupsCover | pages/3_GST_Reports.py:20 | every listed rate with invoices has a group |
| GstReports.Gstr1Summary | pages/3_GST_Reports.py:18-30 | the table is absent exactly when there are no invoices |
| GstReports.Gstr1GroupsAscending | pages/3_GST_Reports.py:20 | groups come in ascending rate order, each with its rate's column sums |
| GstReports.Gstr1GroupsCoverInvoices | pages/3_GST_Reports.py:20 | every invoice's rate has a group and the invoice is in it |
| GstReports.GroupsAscending | pages/3_GST_Reports.py:20 | groups built over ascending rates are strictly ascending |
| GstReports.GroupsSumToRates | pages/3_GST_Reports.py:20 | the groups together sum to the rate-restricted sums |
| GstReports.RatesPartition | pages/3_GST_Reports.py:20 | summing the rate groups over all five rates gives the grand total |
| GstReports.Gstr1GroupsCoverAll | pages/3_GST_Reports.py:20-21 | the GSTR-1 groups add up to the column totals of all invoices: no invoice is lost or counted twice |
| GstReports.NetOf | pages/3_GST_Reports.py:69-71 | `max(0, l - c)`: never negative, equal to l - c exactly when l ≥ c, zero when the credit covers the liability |
| GstReports.GuardedSum | pages/3_GST_Reports.py:69 | the empty-guarded sum equals the plain sum |
| GstReports.Gstr3bSummary | pages/3_GST_Reports.py:38-73 | liability shown iff there are invoices, credit iff there are expenses, with the column sums; per-component clamped net |
| GstReports.Cash | pages/3_GST_Reports.py:73 | "Net Tax Payable in Cash": the three clamped components together, never below any single one of them |
| GstReports.NothingToPayIffSettled | pages/3_GST_Reports.py:69-73 | the cash payable is zero exactly when every clamped component is zero |
| GstReports.ClampPerComponent | pages/3_GST_Reports.py:69-73 | clamping each component pays at least the clamped total, and exactly the difference when no component's credit exceeds its liability |
| GstReports.CashAtLeastTotalNet | pages/3_GST_Reports.py:69-73 | the GSTR-3B cash payable is at least the clamped difference of the grand totals, with equality when no credit exceeds its component |
| GstReports.ComponentClampDiffers | pages/3_GST_Reports.py:69-73 | excess IGST credit is not set off against CGST and SGST: an intra-state sale and an inter-state purchase of equal value leave their whole GST to pay, while the totals' difference is zero |
| Assistant.Classify | pages/4_AI_Assistant.py:13-44 | the first branch whose keyword occurs in the lower-cased query answers, each exactly when no earlier branch's keyword occurs |
| Assistant.KeywordLists | pages/4_AI_Assistant.py:19-38 | each branch's keyword list is exactly the words its condition tests |
| Assistant.HelpIffNoKeyword | pages/4_AI_Assistant.py:44-45 | the help text answers exactly the queries with no keyword at all |
| Assistant.ClassifyIgnoresCase | pages/4_AI_Assistant.py:13 | a query and its lower-cased form take the same branch |
| Assistant.SalesKeywordWins | pages/4_AI_Assistant.py:19 | any sales keyword wins over every later keyword |
| Assistant.RevenueBeforeTax | pages/4_AI_Assistant.py:19-23 | "Revenue and TAX" gets the sales answer although it mentions tax |
| Assistant.GroupOrderSorted | pages/4_AI_Assistant.py:35 | the group keys in string order are the five distinct categories |
| Assistant.SpentOn | pages/4_AI_Assistant.py:35 | the groupby sum of one category: zero when no expense has it, non-negative over non-negative totals |
| Assistant.FirstMax | pages/4_AI_Assistant.py:35 | `idxmax`: the first present group with the largest sum; none when no group is present |
| Assistant.TopCategory | pages/4_AI_Assistant.py:34-36 | the top category is absent exactly without expenses, is present in the table, and has the largest spending |
| Assistant.EveryCategoryGrouped | pages/4_AI_Assistant.py:35 | every category of the table is among the group keys |
| Assistant.Respond | pages/4_AI_Assistant.py:12-45 | no answer for an empty query; otherwise the answer kind matches the branch; it carries the sales total, the tax figures with the invoice-guarded ITC and clamped net, the expense total and top category, or taxable sales minus taxable expenses |
| Assistant.TaxAnswerMatchesDashboard | pages/4_AI_Assistant.py:23-29 | the tax answer repeats the dashboard's liability, ITC and net |
| Assistant.BareSalesGetsHelp | pages/4_AI_Assistant.py:19 | the query "Sales" gets the help text |
| Assistant.ProfitQuery | pages/4_AI_Assistant.py:38 | the query "Profit" takes the profit branch |
| Assistant.ProfitCanBeNegative | pages/4_AI_Assistant.py:38-42 | with no sales and positive taxable expenses, the profit is negative: it is not clamped |
| TaskManager.UrgencyFor | pages/6_Task_Manager.py:23-54 | Low exactly after the due day, High in the last three days up to it, Medium before |
| TaskManager.ComplianceTasks | pages/6_Task_Manager.py:20-54 | two tasks, GSTR-1 then GSTR-3B, with their urgencies, due dates "11th"/"20th" month, titles and actions per branch |
| TaskManager.Gstr1Window | pages/6_Task_Manager.py:23-28 | GSTR-1 is High exactly on days 9-11 and Medium up to day 8 |
| TaskManager.Gstr3bWindow | pages/6_Task_Manager.py:40-45 | GSTR-3B is High exactly on days 18-20 and Low from day 21 |
| TaskManager.NeverBothUrgent | pages/6_Task_Manager.py:23-54 | the two returns are never both High; when GSTR-3B is High, GSTR-1 has passed |
| TaskManager.UrgencyAdvances | pages/6_Task_Manager.py:23-54 | urgency only moves forward through the month |
| TaskManager.PendingBanner | pages/6_Task_Manager.py:59-61 | no banner exactly when no row is Pending; otherwise the count of Pending rows |
| TaskManager.StatusColor | pages/6_Task_Manager.py:94 | red exactly for Pending, green otherwise |
| TaskManager.ChallanDisplay | pages/6_Task_Manager.py:138 | "Unpaid" exactly for Pending, "Paid" for every other status |
| TaskManager.ChallanRows | pages/6_Task_Manager.py:123 | exactly the listing's challans |
| TaskManager.ChallanRowsSorted | pages/6_Task_Manager.py:122-123 | the challan rows keep the latest-first order |
| TaskManager.Press | pages/6_Task_Manager.py:98-100 | the button step both buttons share: pressed exactly when a Pending row with that id is shown; then `WithStatus` is applied, otherwise nothing changes; tables and counters are otherwise kept |
| TaskManager.Acknowledge | pages/6_Task_Manager.py:98-100 | the "Acknowledge" button exists exactly on a Pending row, and pressing it writes "Acknowledged" to that row only; everything else is kept |
| TaskManager.MarkPaid | pages/6_Task_Manager.py:122-145 | the "Mark Paid" button exists exactly on a Pending challan row, and pressing it writes "Paid" to that row only; everything else is kept |
| TaskManager.MarkPaidOnlyChallans | pages/6_Task_Manager.py:123-145 | a row that is not a challan is never offered "Mark Paid" |
| TaskManager.AcknowledgedChallanShowsPaid | pages/6_Task_Manager.py:138 | a challan acknowledged from the notifications tab reads "Paid" and loses its "Mark Paid" button |
| TaskManager.PressOnce | pages/6_Task_Manager.py:98 | after a press the row is no longer Pending, so a second press is impossible |
| TaskManager.AddReminder | pages/6_Task_Manager.py:73-76 | adds exactly when the description is filled: one Pending "User Reminder" row with "Check App", and the next notification id moves up by one; the other tables and counters are kept |
| TaskManager.ChallanDescription | pages/6_Task_Manager.py:117 | the description starts "CPIN: " then the CPIN, and ends with the amount text |
| TaskManager.AddChallan | pages/6_Task_Manager.py:116-119 | adds exactly when the CPIN is filled: one Pending "Challan" row, and the next notification id moves up by one; the other tables and counters are kept |
| TaskManager.NewChallanListed | pages/6_Task_Manager.py:123-138 | a saved challan appears in the challan tab as Unpaid |
| GstAutomation.Attempted | gst_automation.py:21-36 | the calls a try block makes are a prefix of its script |
| GstAutomation.AttemptedStopsAtError | gst_automation.py:21-36 | without an error every call is made; with one, the block stops exactly at the raising call, after calls that all succeeded |
| GstAutomation.AttemptedSnoc | gst_automation.py:21-36 | one more call is made only when nothing raised before it |
| GstAutomation.RowToNotice | gst_automation.py:65-71 | a row of three or more cells gives ID, date, description and the type, or "Unknown" without a fourth cell |
| GstAutomation.ScrapeRows | gst_automation.py:63-72 | at most one notice per row, all of them scraped ones |
| GstAutomation.ScrapeRowsAppend | gst_automation.py:63-72 | rows are scraped in order; a short row yields nothing |
| GstAutomation.ScrapeRowsCount | gst_automation.py:65-72 | every row of three or more cells yields exactly one notice, in its place |
| GstAutomation.NoticesFetched | gst_automation.py:48-77 | without a page or after a failing call, one error entry with the message; otherwise the scraped rows |
| GstAutomation.ReturnsMessage | gst_automation.py:79-96 | the fixed navigation message, or "Navigation Error: " with the first error |
| GstAutomation.LoginMessage | gst_automation.py:33-36 | the CAPTCHA prompt exactly when no call of the login block raised; otherwise "Error during login init: " followed by the first error |
| GstAutomation.LoginPromptIffNoError | gst_automation.py:33-36 | login returns the CAPTCHA prompt exactly when no call of its block raised |
| GstAutomation.GstBot.constructor | gst_automation.py:5-9 | nothing started and no calls made |
| GstAutomation.GstBot.Step | gst_automation.py:21-36 | runs one call of a try block only when nothing raised before |
| GstAutomation.GstBot.Start | gst_automation.py:11-15 | launches Playwright and Chromium with the bot's headless flag and opens a 1280x720 page |
| GstAutomation.GstBot.Login | gst_automation.py:17-36 | starts the browser when there is no page, then makes the login block's calls up to the first failure, and returns `LoginMessage` |
| GstAutomation.GstBot.WaitForDashboard | gst_automation.py:38-46 | waits for the dashboard URL with the timeout in milliseconds; true exactly when that call does not raise |
| GstAutomation.GstBot.GetNotifications | gst_automation.py:48-77 | returns `NoticesFetched` and makes the notices block's calls |
| GstAutomation.GstBot.NavigateToReturnDashboard | gst_automation.py:79-96 | makes the returns block's calls and returns `ReturnsMessage`; the quarter and period are unused |
| GstAutomation.GstBot.Close | gst_automation.py:98-102 | closes the browser and stops Playwright, each only if it was started |
| Autopilot.RecordOf | pages/5_GST_Autopilot.py:41-46 | a notice's row: kind "Portal Notice", its date or today, description with its ID, its type as the action; an error entry gives "None (ID: None)" and "Check Portal" |
| Autopilot.Records | pages/5_GST_Autopilot.py:40-47 | one record per notice, in order |
| Autopilot.NewRows | pages/5_GST_Autopilot.py:41-47 | the inserted rows are Pending with consecutive ids |
| Autopilot.NewRowsSnoc | pages/5_GST_Autopilot.py:40-47 | one more insertion adds one row with the next id |
| Autopilot.CheckLog | pages/5_GST_Autopilot.py:36-52 | the chat lines of "Check Notices": found and saved counts, or "No notices found." |
| Autopilot.AutopilotPage.constructor | pages/5_GST_Autopilot.py:14-15 | empty chat and no agent |
| Autopilot.AutopilotPage.BotLog | pages/5_GST_Autopilot.py:17-18 | appends one chat entry |
| Autopilot.AutopilotPage.CheckNotices | pages/5_GST_Autopilot.py:34-53 | without an agent only the error shows and nothing changes; otherwise the fetched notices become new Pending rows with consecutive ids and the chat reports them; invoices, expenses and their counters are kept, and so are the agent's headless, Playwright, browser and page flags |
| Autopilot.AutopilotPage.SaveNotices | pages/5_GST_Autopilot.py:39-48 | the loop adds one row per notice and the count equals the number of notices |
| Autopilot.AutopilotPage.GoToReturnDashboard | pages/5_GST_Autopilot.py:59-65 | logs the request and the agent's navigation answer, or shows the error without an agent; the agent's four flags are kept |
| Autopilot.AutopilotPage.Launch | pages/5_GST_Autopilot.py:73-82 | needs both credentials; a fresh visible agent starts with Playwright, a browser and a page, logs in and its answer is logged |
| Autopilot.AutopilotPage.Stop | pages/5_GST_Autopilot.py:84-90 | a running agent is closed and dropped, and the chat records it |
| Autopilot.AutopilotPage.ChatInput | pages/5_GST_Autopilot.py:93-106 | an empty prompt is ignored; otherwise it is logged, followed by the fixed reply when an agent runs |
| Autopilot.SavedNoticesPending | pages/5_GST_Autopilot.py:41-46 | every saved notice is a Pending "Portal Notice" row whose id is larger than all earlier ids |
| Autopilot.FailedFetchSavesOneRow | pages/5_GST_Autopilot.py:37-46 | a fetch that raised still saves one row dated today, and the chat says "Found 1 notices." |
| Backup.LoadVersions | backup.py:42-46 | no manifest gives no versions; otherwise its records |
| Backup.BackupName | backup.py:59 | "v", the version digits, "_", then the timestamp |
| Backup.BackupNameInjective | backup.py:59 | different versions never share a backup name, whatever the timestamps |
| Backup.ManifestFiles | backup.py:84 | the listed files, then each directory with "/" |
| Backup.NextRecord | backup.py:57-85 | the new record's version is the count plus one, named after that number, with the ISO time and the file list |
| Backup.Replay | backup.py:55-86 | successive backups only append: one record per backup, and the earlier records are kept as they were |
| Backup.ReplayAt | backup.py:57-86 | successive backups keep earlier records and number the new ones consecutively |
| Backup.VersionsFromEmpty | backup.py:57-86 | from no manifest, k backups are versions 1..k with distinct numbers and names |
| Backup.TopFiles | backup.py:65-68 | exactly the listed top-level files that exist |
| Backup.Subtree | backup.py:72-76 | exactly the files under the directory, without `__pycache__` entries when ignoring |
| Backup.WithoutSubtree | backup.py:147-148 | `rmtree` removes exactly the files under the directory |
| Backup.CopyFiles | backup.py:65-69 | copying each existing listed file over the target |
| Backup.Snapshot | backup.py:62-77 | a backup's new files are listed files or non-cache files under `pages`; the directory is recorded when it exists |
| Backup.Restored | backup.py:134-150 | a restore touches no file outside the listed files and the `pages` tree |
| Backup.RestoreAfterBackup | backup.py:55-150 | restoring a fresh backup brings back every listed file that existed and the `pages` tree as saved, without `__pycache__` |
| Backup.Dispatch | backup.py:155-168 | no arguments creates; "--list" lists; "--restore N" restores when N is an integer and reports an error otherwise; anything else prints usage |
| Backup.FirstMatch | backup.py:110-114 | the first record with that version, or none exactly when no record has it |
| Backup.RestoreResult | backup.py:108-150 | NotFound exactly without a record of that version; DirectoryMissing exactly when the first such record's directory is gone; Cancelled exactly when it exists and the answer does not lower-case to "yes"; RestoredVersion exactly when it exists and the answer is "yes", and then the project is `Restored` from that snapshot; otherwise the project is unchanged |
| Backup.BackupFiles.constructor | backup.py:19-21 | the script's view of its files |
| Backup.BackupFiles.CreateBackup | backup.py:55-90 | returns count+1; the manifest grows by exactly that record; the snapshot goes under its name; the project is untouched |
| Backup.BackupFiles.TakeSnapshot | backup.py:62-77 | the two copy loops produce `Snapshot` |
| Backup.BackupFiles.CopyBack | backup.py:134-150 | the two restore loops produce `Restored` |
| Backup.DirEntries | backup.py:84 | each directory name with "/" appended |
| Backup.BackupFiles.FindVersion | backup.py:110-114 | the loop with `break` finds exactly `FirstMatch`: the first record with that version, or none when no record has it |
| Backup.BackupFiles.RestoreBackup | backup.py:108-152 | the outcome and the new project are exactly `RestoreResult` of the manifest, the old project, the backups and the answer; the manifest and the backups are unchanged |
| Backup.BackupFiles.Run | backup.py:155-168 | runs the dispatched command: a backup adds its record and stores its snapshot under its name; a restore has exactly the effect `RestoreResult` gives and reports its outcome; listing, a bad number and usage change nothing |

## Left out

- Streamlit rendering, widgets, `st.rerun`, `st.stop`, and number formatting (`:,.2f`). Only the values shown and the session fields are modelled.
- SQLite connections and SQL execution. Each table is a sequence with a next-id counter, and a date is its text, compared as a string.
- Ties in `ORDER BY date DESC`. The order among rows with equal dates is unspecified, so the model promises only a latest-first permutation.
- Floating-point arithmetic. Money is `real`, so rounding and IEEE behaviour are not modelled.
- Text.Lower: lower-cases ASCII letters only. Python's `str.lower` also folds other Unicode letters.
- Text.ParseInt: accepts an optional sign, ASCII digits and surrounding spaces. Python's `int()` also accepts underscores, other Unicode digits and all Unicode whitespace.
- TaskManager.ChallanDescription: takes the amount as already printed text, because the float-to-string conversion of `{amount}` is not modelled.
- The clock (`date.today`, `datetime.now`, the `strftime` month name). Dates and timestamps are parameters.
- Playwright itself. The per-row cell queries and `inner_text` calls are not recorded as calls, and their failures are not modelled. A table's contents are an input.
- `start()` failures. `start` runs outside the `try` of `login`, so an exception there would end the page run.
- `time.sleep` and `print`, which have no effect on the modelled state.
- GstAutomation.GstBot.WaitForDashboard: the timeout is always an argument, so the default of 300 seconds (`gst_automation.py:38`) is not modelled. Nothing else in the core calls `wait_for_dashboard`.
- GstAutomation.GstBot.Close: the bot keeps its fields after closing, as the source does. A reuse after closing is not modelled beyond that.
- `list_backups` output. It only prints the manifest, so the model checks only that `--list` changes nothing.
- The file system under `backup.py`, modelled only in part:
  - a tree is a map from paths to contents plus its top-level directories, so empty sub-directories and file metadata (`copy2`) are not represented;
  - `makedirs`, JSON encoding, and a `copytree` error when the target directory already exists are not modelled.
- The unused `EXCLUDE` list in `backup.py`, which the script never reads.
- Three runtime defects on the Autopilot page. The model follows the evident data flow instead:
  - the `message_callback` argument, which `GSTBot.__init__` does not accept;
  - the missing `datetime` import, which the eagerly evaluated `.get` default needs;
  - `st.session_state.gst_bot`, which is never initialised, so the model starts with no agent.
- The Autopilot sidebar's fixed financial-year and month choices. Any strings are accepted.
- The "Please launch the agent first" reply, which is only displayed and never logged.
- `pages/7_Tutorial.py`, which is static text only.
