/** The GST analysis screen: a subtotal and two equal 9% components. */
module Tax {
  import opened Types
  import opened Sums

  /** The rate of each of the central (CGST) and state (SGST) components. */
  const GstRate: real := 0.09

  function Amount(item: KhataItem): real {
    item.amount
  }

  /** Sum of the item amounts, accumulated as `items.reduce`. */
  function Subtotal(items: seq<KhataItem>): real {
    SumBy(items, Amount)
  }

  /** The shape every breakdown has: both components at the rate, and the total adding all three. */
  predicate IsGstSplit(t: TaxDetails) {
    && t.cgst == GstRate * t.subtotal
    && t.sgst == GstRate * t.subtotal
    && t.total == t.subtotal + t.cgst + t.sgst
  }

  /** The breakdown the tax screen computes and hands on when the user finishes. */
  function ComputeTax(items: seq<KhataItem>): (t: TaxDetails)
    ensures t.subtotal == SumRight(items, Amount)
    ensures IsGstSplit(t)
    ensures t.cgst == t.sgst
    ensures t.total == 1.18 * t.subtotal
  {
    SumByIsSumRight(items, Amount);
    var subtotal := Subtotal(items);
    var cgst := subtotal * GstRate;
    var sgst := subtotal * GstRate;
    TaxDetails(subtotal, cgst, sgst, subtotal + cgst + sgst)
  }

  /** A breakdown of the right shape over the right subtotal is the computed one. */
  lemma GstSplitIsUnique(items: seq<KhataItem>, t: TaxDetails)
    requires IsGstSplit(t)
    requires t.subtotal == Subtotal(items)
    ensures t == ComputeTax(items)
  {
  }

  lemma EmptyBillIsZero()
    ensures ComputeTax([]) == TaxDetails(0.0, 0.0, 0.0, 0.0)
  {
  }

  /** With non-negative amounts every component is non-negative and the total covers the subtotal. */
  lemma NonNegativeBreakdown(items: seq<KhataItem>)
    requires forall i :: 0 <= i < |items| ==> items[i].amount >= 0.0
    ensures var t := ComputeTax(items);
      0.0 <= t.subtotal <= t.total && 0.0 <= t.cgst && 0.0 <= t.sgst
  {
    SumByNonNegative(items, Amount);
  }

  /** Splitting a bill in two splits the subtotal, and with it every component. */
  lemma BreakdownOfConcat(a: seq<KhataItem>, b: seq<KhataItem>)
    ensures Subtotal(a + b) == Subtotal(a) + Subtotal(b)
    ensures ComputeTax(a + b).total == ComputeTax(a).total + ComputeTax(b).total
    ensures ComputeTax(a + b).cgst == ComputeTax(a).cgst + ComputeTax(b).cgst
  {
    SumByAppend(a, b, Amount);
  }

  /** One item of 100 gives 9 + 9 of tax and 118 in all. */
  lemma SingleItemExample(id: string)
    ensures ComputeTax([KhataItem(id, "2024-01-01", "Rice", 100.0)]) == TaxDetails(100.0, 9.0, 9.0, 118.0)
  {
    var items := [KhataItem(id, "2024-01-01", "Rice", 100.0)];
    assert items[..0] == [];
    assert SumBy(items[..0], Amount) == 0.0;
    assert Amount(items[0]) == 100.0;
    assert Subtotal(items) == 100.0;
  }
}
