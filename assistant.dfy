/**
 * The AI Assistant page: a first-match keyword chain over the lower-cased
 * query picks one of four answers or the help text, each computed from the
 * invoice and expense tables.
 */
module Assistant {
  import opened Wrappers
  import opened Text
  import opened Gst
  import opened Database
  import opened GstReports
  import opened Dashboard

  datatype Intent = SalesTotal | TaxPayable | ExpenseTotal | Profit | Help

  /** The keywords of each branch, in the order the chain tests them. */
  const SalesWords: seq<string> := ["total sales", "revenue", "income"]
  const TaxWords: seq<string> := ["tax", "gst", "owe"]
  const ExpenseWords: seq<string> := ["expense", "spending", "cost"]
  const ProfitWords: seq<string> := ["profit"]

  /** Some keyword of `words` occurs in `q`. */
  predicate MentionsAny(q: string, words: seq<string>)
  {
    exists k :: 0 <= k < |words| && Contains(q, words[k])
  }

  /** The branch the `if`/`elif` chain takes for a (non-empty) query. */
  function Classify(query: string): (i: Intent)
    ensures var q := Lower(query);
      (i == SalesTotal <==> MentionsAny(q, SalesWords)) &&
      (i == TaxPayable <==> !MentionsAny(q, SalesWords) && MentionsAny(q, TaxWords)) &&
      (i == ExpenseTotal <==> !MentionsAny(q, SalesWords) && !MentionsAny(q, TaxWords) && MentionsAny(q, ExpenseWords)) &&
      (i == Profit <==> !MentionsAny(q, SalesWords) && !MentionsAny(q, TaxWords) && !MentionsAny(q, ExpenseWords) &&
                        MentionsAny(q, ProfitWords))
  {
    var q := Lower(query);
    KeywordLists(q);
    if Contains(q, "total sales") || Contains(q, "revenue") || Contains(q, "income") then SalesTotal
    else if Contains(q, "tax") || Contains(q, "gst") || Contains(q, "owe") then TaxPayable
    else if Contains(q, "expense") || Contains(q, "spending") || Contains(q, "cost") then ExpenseTotal
    else if Contains(q, "profit") then Profit
    else Help
  }

  lemma KeywordLists(q: string)
    ensures MentionsAny(q, SalesWords) <==> Contains(q, "total sales") || Contains(q, "revenue") || Contains(q, "income")
    ensures MentionsAny(q, TaxWords) <==> Contains(q, "tax") || Contains(q, "gst") || Contains(q, "owe")
    ensures MentionsAny(q, ExpenseWords) <==> Contains(q, "expense") || Contains(q, "spending") || Contains(q, "cost")
    ensures MentionsAny(q, ProfitWords) <==> Contains(q, "profit")
  {
    assert SalesWords[0] == "total sales" && SalesWords[1] == "revenue" && SalesWords[2] == "income";
    assert TaxWords[0] == "tax" && TaxWords[1] == "gst" && TaxWords[2] == "owe";
    assert ExpenseWords[0] == "expense" && ExpenseWords[1] == "spending" && ExpenseWords[2] == "cost";
    assert ProfitWords[0] == "profit";
  }

  /** The help text answers exactly the queries that mention no keyword at all. */
  lemma HelpIffNoKeyword(query: string)
    ensures var q := Lower(query);
      Classify(query) == Help <==>
        !MentionsAny(q, SalesWords) && !MentionsAny(q, TaxWords) && !MentionsAny(q, ExpenseWords) && !MentionsAny(q, ProfitWords)
  {
  }

  /** Matching ignores case: a query and its lower-cased form take the same branch. */
  lemma ClassifyIgnoresCase(query: string)
    ensures Classify(Lower(query)) == Classify(query)
  {
    LowerIdempotent(query);
  }

  /** A sales keyword wins over every later keyword, whatever else the query says. */
  lemma SalesKeywordWins(query: string, k: int)
    requires 0 <= k < |SalesWords| && Contains(Lower(query), SalesWords[k])
    ensures Classify(query) == SalesTotal
  {
  }

  lemma LowerRevenueAndTax()
    ensures Lower("Revenue and TAX") == "revenue and tax"
  {
  }

  lemma LowerProfit()
    ensures Lower("Profit") == "profit"
  {
    var q := Lower("Profit");
    assert |q| == 6 && q[0] == 'p';
    assert q[1..] == "Profit"[1..];
  }

  /** "Revenue and TAX" mentions a tax keyword, but the sales branch answers it. */
  lemma RevenueBeforeTax()
    ensures Classify("Revenue and TAX") == SalesTotal
    ensures Contains(Lower("Revenue and TAX"), "tax")
  {
    var q := Lower("Revenue and TAX");
    LowerRevenueAndTax();
    assert OccursAt(q, "revenue", 0);
    ContainsWithin(q, "revenue", 0);
    assert OccursAt(q, "tax", 12);
    ContainsWithin(q, "tax", 12);
    SalesKeywordWins("Revenue and TAX", 1);
  }

  // ---------------------------------------------------------------------------
  // Answers

  /** What the answer box shows, before number formatting. */
  datatype Answer =
    | SalesAnswer(total: real)
    | TaxAnswer(liability: real, itc: real, net: real)
    | ExpenseAnswer(total: real, top: Option<Category>)
    | ProfitAnswer(profit: real)
    | HelpAnswer

  /** Sum of `total_amount` over the expenses of one category. */
  function SpentOn(expenses: seq<Expense>, c: Category): (r: real)
    ensures !HasCategory(expenses, c) ==> r == 0.0
    ensures (forall i :: 0 <= i < |expenses| ==> expenses[i].data.tax.totalAmount >= 0.0) ==> r >= 0.0
    decreases |expenses|
  {
    if expenses == [] then 0.0
    else (if expenses[0].data.category == c then expenses[0].data.tax.totalAmount else 0.0) + SpentOn(expenses[1..], c)
  }

  predicate HasCategory(expenses: seq<Expense>, c: Category)
  {
    exists i :: 0 <= i < |expenses| && expenses[i].data.category == c
  }

  /** The groupby keys sorted as strings: "Office Supplies" < "Other" < "Raw Material" < "Services" < "Utilities". */
  const GroupOrder: seq<Category> := [OfficeSupplies, Other, RawMaterial, Services, Utilities]

  lemma GroupOrderSorted()
    ensures forall i, j :: 0 <= i < j < |GroupOrder| ==>
      StrLe(CategoryName(GroupOrder[i]), CategoryName(GroupOrder[j])) && GroupOrder[i] != GroupOrder[j]
  {
  }

  /**
   * `idxmax` over the groups listed in `cands`: the position of the first
   * present category whose sum is the largest, or None when none is present.
   */
  function FirstMax(cands: seq<Category>, expenses: seq<Expense>): (r: Option<nat>)
    ensures r.None? <==> forall i :: 0 <= i < |cands| ==> !HasCategory(expenses, cands[i])
    ensures r.Some? ==> r.value < |cands| && HasCategory(expenses, cands[r.value])
    ensures r.Some? ==> forall i :: 0 <= i < |cands| && HasCategory(expenses, cands[i]) ==>
      SpentOn(expenses, cands[i]) <= SpentOn(expenses, cands[r.value])
    ensures r.Some? ==> forall i :: 0 <= i < r.value && HasCategory(expenses, cands[i]) ==>
      SpentOn(expenses, cands[i]) < SpentOn(expenses, cands[r.value])
    decreases |cands|
  {
    if cands == [] then None
    else
      var rest := FirstMax(cands[1..], expenses);
      var best := if rest.Some? then Some(rest.value + 1) else None;
      if !HasCategory(expenses, cands[0]) then best
      else if best.None? || SpentOn(expenses, cands[0]) >= SpentOn(expenses, cands[best.value]) then Some(0)
      else best
  }

  /** The highest-spending category, shown only when there are expenses. */
  function TopCategory(expenses: seq<Expense>): (r: Option<Category>)
    ensures r.None? <==> |expenses| == 0
    ensures r.Some? ==> HasCategory(expenses, r.value)
    ensures r.Some? ==> forall c :: HasCategory(expenses, c) ==> SpentOn(expenses, c) <= SpentOn(expenses, r.value)
  {
    var k := FirstMax(GroupOrder, expenses);
    EveryCategoryGrouped(expenses);
    assert |expenses| > 0 ==> HasCategory(expenses, expenses[0].data.category);
    if k.None? then None else Some(GroupOrder[k.value])
  }

  lemma EveryCategoryGrouped(expenses: seq<Expense>)
    ensures forall c :: HasCategory(expenses, c) ==> exists i :: 0 <= i < |GroupOrder| && GroupOrder[i] == c
  {
    forall c | HasCategory(expenses, c) ensures exists i :: 0 <= i < |GroupOrder| && GroupOrder[i] == c {
      match c
      case OfficeSupplies => assert GroupOrder[0] == c;
      case Other => assert GroupOrder[1] == c;
      case RawMaterial => assert GroupOrder[2] == c;
      case Services => assert GroupOrder[3] == c;
      case Utilities => assert GroupOrder[4] == c;
    }
  }

  /** The page's response, or None for an empty query (nothing is shown). */
  function Respond(query: string, invoices: seq<Invoice>, expenses: seq<Expense>): (r: Option<Answer>)
    ensures r.None? <==> query == ""
    ensures r.Some? ==> (r.value.SalesAnswer? <==> Classify(query) == SalesTotal)
    ensures r.Some? ==> (r.value.TaxAnswer? <==> Classify(query) == TaxPayable)
    ensures r.Some? ==> (r.value.ExpenseAnswer? <==> Classify(query) == ExpenseTotal)
    ensures r.Some? ==> (r.value.ProfitAnswer? <==> Classify(query) == Profit)
    ensures r.Some? && r.value.SalesAnswer? ==> r.value.total == Sum(InvoiceLines(invoices)).totalAmount
    ensures r.Some? && r.value.TaxAnswer? ==>
      r.value.liability == Sum(InvoiceLines(invoices)).Gst() &&
      r.value.itc == (if |invoices| == 0 then 0.0 else Sum(ExpenseLines(expenses)).Gst()) &&
      r.value.net == NetOf(r.value.liability, r.value.itc) && r.value.net >= 0.0
    ensures r.Some? && r.value.ExpenseAnswer? ==>
      r.value.total == Sum(ExpenseLines(expenses)).totalAmount && r.value.top == TopCategory(expenses)
    ensures r.Some? && r.value.ProfitAnswer? ==>
      r.value.profit == Sum(InvoiceLines(invoices)).taxable - Sum(ExpenseLines(expenses)).taxable
  {
    if query == "" then None
    else
      var sales := if |invoices| == 0 then Zero else Sum(InvoiceLines(invoices));
      var purchases := if |expenses| == 0 then Zero else Sum(ExpenseLines(expenses));
      Some(match Classify(query)
        case SalesTotal => SalesAnswer(sales.totalAmount)
        case TaxPayable =>
          var liability := if |invoices| == 0 then 0.0 else sales.igst + sales.cgst + sales.sgst;
          var itc := if |invoices| == 0 then 0.0 else purchases.igst + purchases.cgst + purchases.sgst;
          TaxAnswer(liability, itc, NetOf(liability, itc))
        case ExpenseTotal => ExpenseAnswer(purchases.totalAmount, if |expenses| == 0 then None else TopCategory(expenses))
        case Profit => ProfitAnswer(sales.taxable - purchases.taxable)
        case Help => HelpAnswer)
  }

  /** The tax answer repeats the dashboard's figures, misplaced ITC guard included. */
  lemma TaxAnswerMatchesDashboard(query: string, invoices: seq<Invoice>, expenses: seq<Expense>)
    requires query != "" && Classify(query) == TaxPayable
    ensures var a := Respond(query, invoices, expenses).value;
      var m := DashboardMetrics(invoices, expenses);
      a.liability == m.gstCollected && a.itc == m.itcAvailable && a.net == m.netPayable
  {
  }

  /** The bare word "sales" is not a sales keyword: only the phrase "total sales" is. */
  lemma BareSalesGetsHelp()
    ensures Classify("Sales") == Help
  {
    var q := Lower("Sales");
    assert q == "sales";
    NotContainsAt(q, "total sales", 0);
    NotContainsAt(q, "revenue", 0);
    NotContainsAt(q, "income", 0);
    NotContainsAt(q, "tax", 0);
    NotContainsAt(q, "gst", 0);
    NotContainsAt(q, "owe", 0);
    NotContainsAt(q, "expense", 0);
    NotContainsAt(q, "spending", 0);
    NotContainsAt(q, "cost", 0);
    NotContainsAt(q, "profit", 0);
  }

  lemma ProfitQuery()
    ensures Classify("Profit") == Profit
  {
    var q := Lower("Profit");
    LowerProfit();
    NotContainsAt(q, "total sales", 0);
    NotContainsAt(q, "revenue", 0);
    NotContainsAt(q, "income", 0);
    NotContainsAt(q, "tax", 0);
    NotContainsAt(q, "gst", 0);
    NotContainsAt(q, "owe", 1);
    NotContainsAt(q, "expense", 0);
    NotContainsAt(q, "spending", 0);
    NotContainsAt(q, "cost", 0);
    assert OccursAt(q, "profit", 0);
    ContainsWithin(q, "profit", 0);
  }

  /**
   * The profit is not clamped: with no sales, any expense table with a
   * positive taxable sum gives a negative profit.
   */
  lemma ProfitCanBeNegative(expenses: seq<Expense>)
    requires Sum(ExpenseLines(expenses)).taxable > 0.0
    ensures Respond("Profit", [], expenses) == Some(ProfitAnswer(-Sum(ExpenseLines(expenses)).taxable))
    ensures Respond("Profit", [], expenses).value.profit < 0.0
  {
    ProfitQuery();
  }
}
