/** The dashboard: the two summary figures and the expandable history rows. */
module Dashboard {
  import opened Wrappers
  import opened Types
  import opened Sums

  /** Clicking a row: the expanded row collapses, any other row becomes the one expanded. */
  function ToggleExpand(expanded: Option<string>, id: string): (r: Option<string>)
    ensures expanded == Some(id) ==> r.None?
    ensures expanded != Some(id) ==> r == Some(id)
  {
    if expanded == Some(id) then None else Some(id)
  }

  /** Clicking the same row twice restores the expansion exactly when it started collapsed or on that row. */
  lemma ToggleTwice(expanded: Option<string>, id: string)
    ensures ToggleExpand(ToggleExpand(expanded, id), id) == expanded <==> expanded.None? || expanded == Some(id)
  {
  }

  /** At most one row is expanded, and after a click it is the clicked one or none. */
  lemma ToggleExpandsAtMostTheClicked(expanded: Option<string>, id: string, other: string)
    requires other != id
    ensures ToggleExpand(expanded, id) != Some(other)
  {
  }

  datatype Stats = Stats(totalEntries: nat, totalValue: real)

  /** The "Total Entries" and "Total Value" cards. */
  function Summarise(history: seq<KhataRecord>): (s: Stats)
    ensures s.totalEntries == |history|
    ensures s.totalValue == SumRight(history, RecordTotal)
  {
    SumByIsSumRight(history, RecordTotal);
    Stats(|history|, SumBy(history, RecordTotal))
  }

  /** A newly saved record (prepended) adds one entry and its own total to the figures. */
  lemma SummaryAfterSave(record: KhataRecord, history: seq<KhataRecord>)
    ensures Summarise([record] + history) ==
      Stats(Summarise(history).totalEntries + 1, record.taxDetails.total + Summarise(history).totalValue)
  {
    SumByCons(record, history, RecordTotal);
  }

  /** With non-negative record totals the total value is non-negative. */
  lemma TotalValueNonNegative(history: seq<KhataRecord>)
    requires forall i :: 0 <= i < |history| ==> history[i].taxDetails.total >= 0.0
    ensures Summarise(history).totalValue >= 0.0
  {
    SumByNonNegative(history, RecordTotal);
  }
}
