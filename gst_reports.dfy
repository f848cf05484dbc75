/**
 * The GST Reports page. GSTR-1 tab: the invoices grouped by rate with the
 * taxable, IGST, CGST, SGST and total columns summed per group. GSTR-3B tab:
 * the liability (tax on sales) and input tax credit (tax on purchases) column
 * sums, and the cash payable, clamped at zero separately for each component.
 */
module GstReports {
  import opened Wrappers
  import opened Gst
  import opened Database
  import opened Sorting

  // ---------------------------------------------------------------------------
  // GSTR-1: group by rate

  datatype RateGroup = RateGroup(rate: GstRate, totals: Totals)

  /** The lines of one rate, in table order. */
  function AtRate(lines: seq<TaxLine>, rate: GstRate): (r: seq<TaxLine>)
    ensures forall l :: l in r ==> l in lines && l.rate == rate
    decreases |lines|
  {
    if lines == [] then []
    else if lines[0].rate == rate then [lines[0]] + AtRate(lines[1..], rate)
    else AtRate(lines[1..], rate)
  }

  /** Every line lands in the group of its own rate. */
  lemma {:induction false} AtOwnRate(lines: seq<TaxLine>, i: int)
    requires 0 <= i < |lines|
    ensures lines[i] in AtRate(lines, lines[i].rate)
    decreases i
  {
    if i > 0 {
      AtOwnRate(lines[1..], i - 1);
      assert lines[1..][i - 1] == lines[i];
    }
  }

  /** One group per rate of `rates` that has lines, in the order of `rates`. */
  function GroupsFor(rates: seq<GstRate>, lines: seq<TaxLine>): (r: seq<RateGroup>)
    ensures forall g :: g in r ==> g.rate in rates && AtRate(lines, g.rate) != [] && g.totals == Sum(AtRate(lines, g.rate))
    decreases |rates|
  {
    if rates == [] then []
    else
      var rest := GroupsFor(rates[1..], lines);
      var group := AtRate(lines, rates[0]);
      if group != [] then [RateGroup(rates[0], Sum(group))] + rest else rest
  }

  /** Every rate of `rates` that has lines has a group. */
  lemma {:induction false} GroupsCover(rates: seq<GstRate>, lines: seq<TaxLine>, x: GstRate)
    requires x in rates && AtRate(lines, x) != []
    ensures exists g :: g in GroupsFor(rates, lines) && g.rate == x
    decreases |rates|
  {
    var group := AtRate(lines, rates[0]);
    if x == rates[0] {
      assert RateGroup(x, Sum(group)) in GroupsFor(rates, lines);
    } else {
      GroupsCover(rates[1..], lines, x);
      var g :| g in GroupsFor(rates[1..], lines) && g.rate == x;
      assert g in GroupsFor(rates, lines);
    }
  }

  /** The GSTR-1 table, or None when there are no invoices ("No sales data available."). */
  function Gstr1Summary(invoices: seq<Invoice>): (r: Option<seq<RateGroup>>)
    ensures r.None? <==> |invoices| == 0
  {
    if |invoices| == 0 then None else Some(GroupsFor(Rates, InvoiceLines(invoices)))
  }

  /**
   * The groups come in ascending order of rate (pandas sorts the group keys),
   * each is the rate of some invoice, with the column sums of that rate's
   * invoices.
   */
  lemma Gstr1GroupsAscending(invoices: seq<Invoice>)
    requires |invoices| > 0
    ensures var r := Gstr1Summary(invoices).value;
      Ascending(r) &&
      (forall g :: g in r ==> AtRate(InvoiceLines(invoices), g.rate) != [] && g.totals == Sum(AtRate(InvoiceLines(invoices), g.rate)))
  {
    var lines := InvoiceLines(invoices);
    assert Gstr1Summary(invoices).value == GroupsFor(Rates, lines);
    RatesAscending();
    GroupsAscending(Rates, lines);
  }

  /** Every invoice's rate has a row of the GSTR-1 table, and that invoice is counted in it. */
  lemma Gstr1GroupsCoverInvoices(invoices: seq<Invoice>, i: int)
    requires 0 <= i < |invoices|
    ensures exists g :: g in Gstr1Summary(invoices).value && g.rate == invoices[i].data.tax.rate
    ensures invoices[i].data.tax in AtRate(InvoiceLines(invoices), invoices[i].data.tax.rate)
  {
    var lines := InvoiceLines(invoices);
    AtOwnRate(lines, i);
    RateListed(lines[i].rate);
    GroupsCover(Rates, lines, lines[i].rate);
  }

  lemma RateListed(x: GstRate)
    ensures x in Rates
  {
    if x == 0 { assert Rates[0] == x; }
    else if x == 5 { assert Rates[1] == x; }
    else if x == 12 { assert Rates[2] == x; }
    else if x == 18 { assert Rates[3] == x; }
    else { assert Rates[4] == x; }
  }

  predicate Ascending(groups: seq<RateGroup>)
  {
    forall i, j :: 0 <= i < j < |groups| ==> groups[i].rate < groups[j].rate
  }

  lemma AscendingCons(g: RateGroup, rest: seq<RateGroup>)
    requires Ascending(rest)
    requires forall k :: 0 <= k < |rest| ==> g.rate < rest[k].rate
    ensures Ascending([g] + rest)
  {
    var r := [g] + rest;
    forall i, j | 0 <= i < j < |r| ensures r[i].rate < r[j].rate {
      assert r[j] == rest[j - 1];
      if i > 0 {
        assert r[i] == rest[i - 1];
      }
    }
  }

  lemma {:induction false} GroupsAscending(rates: seq<GstRate>, lines: seq<TaxLine>)
    requires forall i, j :: 0 <= i < j < |rates| ==> rates[i] < rates[j]
    ensures Ascending(GroupsFor(rates, lines))
    decreases |rates|
  {
    if rates != [] {
      var rest := GroupsFor(rates[1..], lines);
      assert Ascending(rest) by {
        GroupsAscending(rates[1..], lines);
      }
      var group := AtRate(lines, rates[0]);
      if group != [] {
        forall k | 0 <= k < |rest| ensures rates[0] < rest[k].rate {
          assert rest[k] in rest;
          var m :| 0 <= m < |rates[1..]| && rates[1..][m] == rest[k].rate;
          assert rates[m + 1] == rest[k].rate;
        }
        AscendingCons(RateGroup(rates[0], Sum(group)), rest);
      }
    }
  }

  function SumGroups(groups: seq<RateGroup>): Totals
    decreases |groups|
  {
    if groups == [] then Zero else groups[0].totals.Plus(SumGroups(groups[1..]))
  }

  /** The summed rate groups over `rates`, counting rates without lines as zero. */
  function SumAtRates(rates: seq<GstRate>, lines: seq<TaxLine>): Totals
    decreases |rates|
  {
    if rates == [] then Zero else Sum(AtRate(lines, rates[0])).Plus(SumAtRates(rates[1..], lines))
  }

  lemma {:induction false} GroupsSumToRates(rates: seq<GstRate>, lines: seq<TaxLine>)
    ensures SumGroups(GroupsFor(rates, lines)) == SumAtRates(rates, lines)
    decreases |rates|
  {
    if rates != [] {
      GroupsSumToRates(rates[1..], lines);
      var rest := GroupsFor(rates[1..], lines);
      var group := AtRate(lines, rates[0]);
      if group != [] {
        assert ([RateGroup(rates[0], Sum(group))] + rest)[1..] == rest;
      }
    }
  }

  lemma PlusRearrange(a: Totals, b: Totals, c: Totals, d: Totals)
    ensures a.Plus(b).Plus(c.Plus(d)) == a.Plus(c).Plus(b.Plus(d))
  {
  }

  lemma AtRateCons(l: TaxLine, rest: seq<TaxLine>, x: GstRate)
    ensures AtRate([l] + rest, x) == if l.rate == x then [l] + AtRate(rest, x) else AtRate(rest, x)
  {
    assert ([l] + rest)[1..] == rest;
  }

  lemma SumCons(l: TaxLine, rest: seq<TaxLine>)
    ensures Sum([l] + rest) == LineTotals(l).Plus(Sum(rest))
  {
    assert ([l] + rest)[1..] == rest;
  }

  /** Adding a line to the table adds it to the sum over `rates` exactly when its rate is listed there. */
  lemma {:induction false} SumAtRatesCons(rates: seq<GstRate>, l: TaxLine, rest: seq<TaxLine>)
    requires forall i, j :: 0 <= i < j < |rates| ==> rates[i] != rates[j]
    ensures SumAtRates(rates, [l] + rest) ==
      (if l.rate in rates then LineTotals(l) else Zero).Plus(SumAtRates(rates, rest))
    decreases |rates|
  {
    if rates != [] {
      var x := rates[0];
      var own := if l.rate == x then LineTotals(l) else Zero;
      var others := if l.rate in rates[1..] then LineTotals(l) else Zero;
      var here, there := Sum(AtRate(rest, x)), SumAtRates(rates[1..], rest);
      assert Sum(AtRate([l] + rest, x)) == own.Plus(here) by {
        AtRateCons(l, rest, x);
        SumCons(l, AtRate(rest, x));
      }
      assert SumAtRates(rates[1..], [l] + rest) == others.Plus(there) by {
        SumAtRatesCons(rates[1..], l, rest);
      }
      assert own.Plus(others) == if l.rate in rates then LineTotals(l) else Zero;
      calc {
        SumAtRates(rates, [l] + rest);
        Sum(AtRate([l] + rest, x)).Plus(SumAtRates(rates[1..], [l] + rest));
        own.Plus(here).Plus(others.Plus(there));
        { PlusRearrange(own, here, others, there); }
        own.Plus(others).Plus(here.Plus(there));
      }
    }
  }

  lemma RatesAscending()
    ensures forall i, j :: 0 <= i < j < |Rates| ==> Rates[i] < Rates[j]
  {
  }

  lemma {:induction false} RatesPartition(lines: seq<TaxLine>)
    ensures SumAtRates(Rates, lines) == Sum(lines)
    decreases |lines|
  {
    if lines != [] {
      var l, rest := lines[0], lines[1..];
      assert SumAtRates(Rates, lines) == LineTotals(l).Plus(SumAtRates(Rates, rest)) by {
        RateListed(l.rate);
        RatesAscending();
        assert lines == [l] + rest;
        SumAtRatesCons(Rates, l, rest);
      }
      RatesPartition(rest);
    }
  }

  /** Every column, summed over the GSTR-1 rate groups, is that column summed over all invoices. */
  lemma Gstr1GroupsCoverAll(invoices: seq<Invoice>)
    requires |invoices| > 0
    ensures SumGroups(Gstr1Summary(invoices).value) == Sum(InvoiceLines(invoices))
  {
    var lines := InvoiceLines(invoices);
    GroupsSumToRates(Rates, lines);
    RatesPartition(lines);
  }

  // ---------------------------------------------------------------------------
  // GSTR-3B: liability, credit, net payable

  /** `max(0, liability - credit)`. */
  function NetOf(liability: real, credit: real): (r: real)
    ensures r >= 0.0
    ensures r == liability - credit <==> liability >= credit
    ensures liability <= credit ==> r == 0.0
  {
    if liability - credit > 0.0 then liability - credit else 0.0
  }

  /** `column.sum() if not table.empty else 0`, as the page writes it. */
  function GuardedSum(lines: seq<TaxLine>): (r: Totals)
    ensures r == Sum(lines)
  {
    if |lines| == 0 then Zero else Sum(lines)
  }

  datatype NetPayable = NetPayable(igst: real, cgst: real, sgst: real)

  /** "Net Tax Payable in Cash": with no negative component, never below any one component. */
  function Cash(n: NetPayable): (r: real)
    ensures n.igst >= 0.0 && n.cgst >= 0.0 && n.sgst >= 0.0 ==> r >= n.igst && r >= n.cgst && r >= n.sgst
  {
    n.igst + n.cgst + n.sgst
  }

  /** Nothing is to pay in cash exactly when every clamped component of GSTR-3B is settled. */
  lemma NothingToPayIffSettled(invoices: seq<Invoice>, expenses: seq<Expense>)
    ensures var n := Gstr3bSummary(invoices, expenses).net;
      Cash(n) == 0.0 <==> n.igst == 0.0 && n.cgst == 0.0 && n.sgst == 0.0
  {
    var n := Gstr3bSummary(invoices, expenses).net;
    assert n.igst >= 0.0 && n.cgst >= 0.0 && n.sgst >= 0.0;
  }

  /**
   * The GSTR-3B tab: the liability column sums (shown only when there are
   * invoices), the credit column sums (shown only when there are expenses) and
   * the per-component net payable.
   */
  datatype Gstr3b = Gstr3b(liability: Option<Totals>, credit: Option<Totals>, net: NetPayable)

  function Gstr3bSummary(invoices: seq<Invoice>, expenses: seq<Expense>): (r: Gstr3b)
    ensures r.liability.Some? <==> |invoices| > 0
    ensures r.credit.Some? <==> |expenses| > 0
    ensures r.liability.Some? ==> r.liability.value == Sum(InvoiceLines(invoices))
    ensures r.credit.Some? ==> r.credit.value == Sum(ExpenseLines(expenses))
    ensures var l, c := Sum(InvoiceLines(invoices)), Sum(ExpenseLines(expenses));
      r.net == NetPayable(NetOf(l.igst, c.igst), NetOf(l.cgst, c.cgst), NetOf(l.sgst, c.sgst))
  {
    var liab := GuardedSum(InvoiceLines(invoices));
    var itc := GuardedSum(ExpenseLines(expenses));
    Gstr3b(
      if |invoices| == 0 then None else Some(liab),
      if |expenses| == 0 then None else Some(itc),
      NetPayable(NetOf(liab.igst, itc.igst), NetOf(liab.cgst, itc.cgst), NetOf(liab.sgst, itc.sgst)))
  }

  lemma ClampPerComponent(li: real, lc: real, ls: real, ci: real, cc: real, cs: real)
    ensures NetOf(li, ci) + NetOf(lc, cc) + NetOf(ls, cs) >= NetOf(li + lc + ls, ci + cc + cs)
    ensures li >= ci && lc >= cc && ls >= cs ==>
      NetOf(li, ci) + NetOf(lc, cc) + NetOf(ls, cs) == (li + lc + ls) - (ci + cc + cs)
  {
  }

  /**
   * Because each component is clamped on its own, the cash payable is never
   * below the clamped difference of the grand totals, and it is exactly the
   * difference of the grand totals when no component's credit exceeds its
   * liability.
   */
  lemma CashAtLeastTotalNet(invoices: seq<Invoice>, expenses: seq<Expense>)
    ensures var r := Gstr3bSummary(invoices, expenses);
      var l, c := Sum(InvoiceLines(invoices)), Sum(ExpenseLines(expenses));
      Cash(r.net) >= NetOf(l.Gst(), c.Gst()) &&
      (l.igst >= c.igst && l.cgst >= c.cgst && l.sgst >= c.sgst ==> Cash(r.net) == l.Gst() - c.Gst())
  {
    var l, c := Sum(InvoiceLines(invoices)), Sum(ExpenseLines(expenses));
    var n := Gstr3bSummary(invoices, expenses).net;
    assert n == NetPayable(NetOf(l.igst, c.igst), NetOf(l.cgst, c.cgst), NetOf(l.sgst, c.sgst));
    assert Cash(n) == n.igst + n.cgst + n.sgst;
    ClampPerComponent(l.igst, l.cgst, l.sgst, c.igst, c.cgst, c.sgst);
  }

  /**
   * The two clamps differ: IGST credit beyond the IGST liability is not set
   * off against CGST and SGST liability. An intra-state sale and an
   * inter-state purchase of the same value leave the whole CGST and SGST to
   * pay in cash, although the totals' difference is zero.
   */
  lemma ComponentClampDiffers(taxable: real, rate: GstRate, inv: Invoice, exp: Expense)
    requires inv.data.tax == ComputeTax(taxable, rate, IntraState)
    requires exp.data.tax == ComputeTax(taxable, rate, InterState)
    requires TotalGst(taxable, rate) > 0.0
    ensures Cash(Gstr3bSummary([inv], [exp]).net) == TotalGst(taxable, rate)
    ensures NetOf(Sum(InvoiceLines([inv])).Gst(), Sum(ExpenseLines([exp])).Gst()) == 0.0
  {
    var li, le := inv.data.tax, exp.data.tax;
    assert InvoiceLines([inv]) == [li];
    assert ExpenseLines([exp]) == [le];
  }
}
