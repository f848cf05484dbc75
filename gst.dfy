/**
 * India's GST levy split as the two entry forms compute it (sales invoices and
 * expenses share the formula): the total tax is the taxable value times the
 * rate; an inter-state supply carries all of it as IGST (section 5 of the
 * IGST Act, 2017), an intra-state supply halves it into CGST and SGST
 * (section 9 of the CGST Act, 2017). Also the column sums the reports, the
 * dashboard and the assistant take over a table of such lines.
 */
module Gst {

  /** The rates the forms offer: 0, 5, 12, 18 and 28 per cent. */
  type GstRate = r: int | r == 0 || r == 5 || r == 12 || r == 18 || r == 28 witness 18

  /** The rates in the order the form's select box lists them; 18 is preselected. */
  const Rates: seq<GstRate> := [0, 5, 12, 18, 28]

  /** An amount of rupees that the form's number input does not let go below zero. */
  type NonNegative = x: real | x >= 0.0

  /** The form's "Place of Supply" radio. */
  datatype Place = IntraState | InterState

  /** The tax columns of one invoice or expense row. */
  datatype TaxLine = TaxLine(taxable: real, rate: GstRate, igst: real, cgst: real, sgst: real, totalAmount: real)

  function TotalGst(taxable: real, rate: GstRate): real
  {
    taxable * (rate as real / 100.0)
  }

  function ComputeTax(taxable: real, rate: GstRate, place: Place): (t: TaxLine)
    ensures t.taxable == taxable && t.rate == rate
    ensures t.igst + t.cgst + t.sgst == TotalGst(taxable, rate)
    ensures place == InterState ==> t.igst == TotalGst(taxable, rate) && t.cgst == 0.0 && t.sgst == 0.0
    ensures place == IntraState ==> t.igst == 0.0 && t.cgst == t.sgst
    ensures t.totalAmount == taxable + t.igst + t.cgst + t.sgst
  {
    var total := TotalGst(taxable, rate);
    var igst := if place == InterState then total else 0.0;
    var cgst := if place == InterState then 0.0 else total / 2.0;
    var sgst := if place == InterState then 0.0 else total / 2.0;
    TaxLine(taxable, rate, igst, cgst, sgst, taxable + total)
  }

  /** A line as the forms produce it. */
  predicate WellFormed(t: TaxLine)
  {
    t.taxable >= 0.0 &&
    (t == ComputeTax(t.taxable, t.rate, IntraState) || t == ComputeTax(t.taxable, t.rate, InterState))
  }

  /**
   * With a non-negative taxable value every component is non-negative, the
   * invoice total is at least the taxable value, and it equals the taxable
   * value exactly at rate 0 (or for a zero taxable value).
   */
  lemma TotalCoversTaxable(taxable: NonNegative, rate: GstRate, place: Place)
    ensures var t := ComputeTax(taxable, rate, place);
      WellFormed(t) && t.igst >= 0.0 && t.cgst >= 0.0 && t.sgst >= 0.0 &&
      t.totalAmount >= taxable &&
      (t.totalAmount == taxable <==> rate == 0 || taxable == 0.0)
  {
    var t := ComputeTax(taxable, rate, place);
    assert TotalGst(taxable, rate) >= 0.0;
    if rate != 0 && taxable != 0.0 {
      assert TotalGst(taxable, rate) > 0.0;
    }
  }

  lemma WellFormedNonNegative(t: TaxLine)
    requires WellFormed(t)
    ensures t.igst >= 0.0 && t.cgst >= 0.0 && t.sgst >= 0.0 && t.totalAmount >= t.taxable
  {
    TotalCoversTaxable(t.taxable, t.rate, IntraState);
    TotalCoversTaxable(t.taxable, t.rate, InterState);
  }

  // ---------------------------------------------------------------------------
  // Column sums

  /** The five summed columns of a table (pandas `sum()` over each). */
  datatype Totals = Totals(taxable: real, igst: real, cgst: real, sgst: real, totalAmount: real)
  {
    function Plus(o: Totals): Totals
    {
      Totals(taxable + o.taxable, igst + o.igst, cgst + o.cgst, sgst + o.sgst, totalAmount + o.totalAmount)
    }

    /** IGST + CGST + SGST: the liability of a sales table, the credit of an expense table. */
    function Gst(): real
    {
      igst + cgst + sgst
    }
  }

  const Zero := Totals(0.0, 0.0, 0.0, 0.0, 0.0)

  function LineTotals(t: TaxLine): Totals
  {
    Totals(t.taxable, t.igst, t.cgst, t.sgst, t.totalAmount)
  }

  /** The column sums of a table; the sum of an empty column is 0, as in pandas. */
  function Sum(lines: seq<TaxLine>): (r: Totals)
    ensures |lines| == 0 ==> r == Zero
    ensures |lines| == 1 ==> r == LineTotals(lines[0])
    decreases |lines|
  {
    if |lines| == 0 then Zero else LineTotals(lines[0]).Plus(Sum(lines[1..]))
  }

  lemma {:induction false} SumAppend(a: seq<TaxLine>, b: seq<TaxLine>)
    ensures Sum(a + b) == Sum(a).Plus(Sum(b))
    decreases |a|
  {
    if |a| > 0 {
      assert (a + b)[1..] == a[1..] + b;
      SumAppend(a[1..], b);
    } else {
      assert a + b == b;
    }
  }

  /** Sums of lines the forms produced are non-negative, and so is their tax. */
  lemma {:induction false} SumNonNegative(lines: seq<TaxLine>)
    requires forall i :: 0 <= i < |lines| ==> WellFormed(lines[i])
    ensures var s := Sum(lines);
      s.taxable >= 0.0 && s.igst >= 0.0 && s.cgst >= 0.0 && s.sgst >= 0.0 && s.Gst() >= 0.0
    decreases |lines|
  {
    if |lines| > 0 {
      WellFormedNonNegative(lines[0]);
      SumNonNegative(lines[1..]);
    }
  }

  /** In any table the forms produced, the total-amount column is the taxable column plus the three tax columns. */
  lemma {:induction false} SumBalances(lines: seq<TaxLine>)
    requires forall i :: 0 <= i < |lines| ==> WellFormed(lines[i])
    ensures Sum(lines).totalAmount == Sum(lines).taxable + Sum(lines).Gst()
    decreases |lines|
  {
    if |lines| > 0 {
      SumBalances(lines[1..]);
    }
  }
}
