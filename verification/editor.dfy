/**
 The verification screen: the extracted rows in an editable table.  Rows are
 found by id; a cell edit rewrites one field of the matching rows, the trash
 button removes the matching rows, and "Add New Row" appends a blank row.
 */
module Editor {
  import opened Types

  /** The three editable cells of a row. */
  datatype Edit = SetDate(date: string) | SetDescription(description: string) | SetAmount(amount: real)

  /** The row with the named field replaced and every other field kept. */
  function Apply(item: KhataItem, e: Edit): (r: KhataItem)
    ensures e.SetDate? ==> r.date == e.date
    ensures e.SetDescription? ==> r.description == e.description
    ensures e.SetAmount? ==> r.amount == e.amount
    ensures SameExceptField(item, r, e)
  {
    match e
    case SetDate(d) => item.(date := d)
    case SetDescription(d) => item.(description := d)
    case SetAmount(a) => item.(amount := a)
  }

  /** The amount cell's `parseFloat(text) || 0`: input that does not parse is stored as 0. */
  function AmountEdit(parsed: JsNumber): (e: Edit)
    ensures e.SetAmount?
    ensures parsed.NaN? ==> e.amount == 0.0
    ensures parsed.Num? ==> e.amount == parsed.value
  {
    SetAmount(OrZero(parsed))
  }

  /** Applies the edit to every row carrying the id and leaves the other rows as they are. */
  function HandleChange(items: seq<KhataItem>, id: string, e: Edit): (r: seq<KhataItem>)
    ensures |r| == |items|
    ensures forall i :: 0 <= i < |items| && items[i].id != id ==> r[i] == items[i]
    ensures forall i :: 0 <= i < |items| && items[i].id == id ==> r[i] == Apply(items[i], e)
    ensures forall i :: 0 <= i < |items| && items[i].id == id ==>
      && (e.SetDate? ==> r[i].date == e.date)
      && (e.SetDescription? ==> r[i].description == e.description)
      && (e.SetAmount? ==> r[i].amount == e.amount)
    decreases |items|
  {
    if |items| == 0 then []
    else [if items[0].id == id then Apply(items[0], e) else items[0]] + HandleChange(items[1..], id, e)
  }

  /** The two rows differ at most in the field the edit names. */
  predicate SameExceptField(a: KhataItem, b: KhataItem, e: Edit) {
    && a.id == b.id
    && (!e.SetDate? ==> a.date == b.date)
    && (!e.SetDescription? ==> a.description == b.description)
    && (!e.SetAmount? ==> a.amount == b.amount)
  }

  /** An edit keeps every row in its place, keeps every id, and changes only the named field. */
  lemma ChangeTouchesOnlyNamedField(items: seq<KhataItem>, id: string, e: Edit)
    ensures var r := HandleChange(items, id, e);
      forall i :: 0 <= i < |items| ==> SameExceptField(items[i], r[i], e)
  {
  }

  /** Typing text that does not parse as a number into an amount cell stores 0 in every row with that id. */
  lemma UnparsableAmountStoredAsZero(items: seq<KhataItem>, id: string)
    ensures var r := HandleChange(items, id, AmountEdit(NaN));
      forall i :: 0 <= i < |items| && items[i].id == id ==> r[i].amount == 0.0
  {
  }

  /** Editing a row that is not there changes nothing. */
  lemma ChangeOfAbsentIdIsIdentity(items: seq<KhataItem>, id: string, e: Edit)
    requires !HasId(items, id)
    ensures HandleChange(items, id, e) == items
  {
    var r := HandleChange(items, id, e);
    assert forall i :: 0 <= i < |items| ==> r[i] == items[i];
  }

  /** Two edits of the same field of the same row: the later one wins. */
  lemma ChangeLastWriteWins(items: seq<KhataItem>, id: string, e1: Edit, e2: Edit)
    requires e1.SetDate? == e2.SetDate? && e1.SetDescription? == e2.SetDescription?
    ensures HandleChange(HandleChange(items, id, e1), id, e2) == HandleChange(items, id, e2)
  {
  }

  /** Keeps, in order, every row whose id differs from the deleted one. */
  function HandleDelete(items: seq<KhataItem>, id: string): (r: seq<KhataItem>)
    ensures forall x :: x in r <==> x in items && x.id != id
    ensures |r| <= |items|
    decreases |items|
  {
    if |items| == 0 then []
    else
      assert forall x :: x in items <==> x == items[0] || x in items[1..] by {
        assert items == [items[0]] + items[1..];
      }
      (if items[0].id == id then [] else [items[0]]) + HandleDelete(items[1..], id)
  }

  /** Deletion acts on each part of a list separately, so the survivors keep their relative order. */
  lemma {:induction false} DeleteOfConcat(a: seq<KhataItem>, b: seq<KhataItem>, id: string)
    ensures HandleDelete(a + b, id) == HandleDelete(a, id) + HandleDelete(b, id)
    decreases |a|
  {
    if |a| == 0 {
      assert a + b == b;
    } else {
      assert (a + b)[0] == a[0];
      assert (a + b)[1..] == a[1..] + b;
      DeleteOfConcat(a[1..], b, id);
    }
  }

  /** Deleting an id no row carries is the identity. */
  lemma {:induction false} DeleteOfAbsentIdIsIdentity(items: seq<KhataItem>, id: string)
    requires !HasId(items, id)
    ensures HandleDelete(items, id) == items
    decreases |items|
  {
    if |items| > 0 {
      assert items[0].id != id;
      assert !HasId(items[1..], id) by {
        forall i | 0 <= i < |items[1..]|
          ensures items[1..][i].id != id
        {
          assert items[1..][i] == items[i + 1];
        }
      }
      DeleteOfAbsentIdIsIdentity(items[1..], id);
      assert items == [items[0]] + items[1..];
    }
  }

  /** After a delete no row carries the id. */
  lemma DeleteRemovesId(items: seq<KhataItem>, id: string)
    ensures !HasId(HandleDelete(items, id), id)
  {
    var r := HandleDelete(items, id);
    forall i | 0 <= i < |r|
      ensures r[i].id != id
    {
      assert r[i] in r;
    }
  }

  /** Deleting the same id twice is deleting it once. */
  lemma DeleteIsIdempotent(items: seq<KhataItem>, id: string)
    ensures HandleDelete(HandleDelete(items, id), id) == HandleDelete(items, id)
  {
    DeleteRemovesId(items, id);
    DeleteOfAbsentIdIsIdentity(HandleDelete(items, id), id);
  }

  /** The row "Add New Row" appends: fresh id, today's date, no description, amount 0. */
  function BlankRow(newId: string, today: string): KhataItem {
    KhataItem(newId, today, "", 0.0)
  }

  /** Appends one blank row dated today under a fresh id. */
  function HandleAdd(items: seq<KhataItem>, newId: string, today: string): (r: seq<KhataItem>)
    ensures |r| == |items| + 1
    ensures r[..|items|] == items
    ensures r[|items|].id == newId && r[|items|].date == today
    ensures r[|items|].description == "" && r[|items|].amount == 0.0
  {
    items + [BlankRow(newId, today)]
  }

  /** Deleting a freshly added row restores the list it was added to. */
  lemma DeleteUndoesAdd(items: seq<KhataItem>, newId: string, today: string)
    requires !HasId(items, newId)
    ensures HandleDelete(HandleAdd(items, newId, today), newId) == items
  {
    DeleteOfConcat(items, [BlankRow(newId, today)], newId);
    DeleteOfAbsentIdIsIdentity(items, newId);
    assert HandleDelete([BlankRow(newId, today)], newId) == [];
  }

  /** One user action on the table. */
  datatype Action = Change(id: string, edit: Edit) | Delete(id: string) | Add(newId: string, today: string)

  function Perform(items: seq<KhataItem>, a: Action): seq<KhataItem> {
    match a
    case Change(id, e) => HandleChange(items, id, e)
    case Delete(id) => HandleDelete(items, id)
    case Add(newId, today) => HandleAdd(items, newId, today)
  }

  /**
   The table's list after a session of actions.  It starts as the incoming
   data (`useState(initialData)`), and confirming hands over exactly this list.
   */
  function Run(initialData: seq<KhataItem>, actions: seq<Action>): seq<KhataItem>
    decreases |actions|
  {
    if |actions| == 0 then initialData else Run(Perform(initialData, actions[0]), actions[1..])
  }

  /** Every added row in the session uses an id no row carries at that moment. */
  predicate FreshAdds(items: seq<KhataItem>, actions: seq<Action>)
    decreases |actions|
  {
    |actions| == 0 ||
    ((actions[0].Add? ==> !HasId(items, actions[0].newId)) && FreshAdds(Perform(items, actions[0]), actions[1..]))
  }

  lemma {:induction false} DeleteKeepsDistinctIds(items: seq<KhataItem>, id: string)
    requires DistinctIds(items)
    ensures DistinctIds(HandleDelete(items, id))
    decreases |items|
  {
    if |items| > 0 {
      var tail := items[1..];
      assert DistinctIds(tail) by {
        forall i, j | 0 <= i < j < |tail|
          ensures tail[i].id != tail[j].id
        {
          assert tail[i] == items[i + 1] && tail[j] == items[j + 1];
        }
      }
      DeleteKeepsDistinctIds(tail, id);
      var rest := HandleDelete(tail, id);
      forall x | x in rest
        ensures x.id != items[0].id
      {
        var k :| 0 <= k < |tail| && tail[k] == x;
        assert x == items[k + 1];
      }
      if items[0].id != id {
        var r := [items[0]] + rest;
        forall i, j | 0 <= i < j < |r|
          ensures r[i].id != r[j].id
        {
          if i == 0 {
            assert r[j] == rest[j - 1] && r[j] in rest;
          } else {
            assert r[i] == rest[i - 1] && r[j] == rest[j - 1];
          }
        }
      }
    }
  }

  /** Each action keeps the row ids distinct, given that an added row's id is fresh. */
  lemma PerformKeepsDistinctIds(items: seq<KhataItem>, a: Action)
    requires DistinctIds(items)
    requires a.Add? ==> !HasId(items, a.newId)
    ensures DistinctIds(Perform(items, a))
  {
    match a
    case Change(id, e) =>
    case Delete(id) => DeleteKeepsDistinctIds(items, id);
    case Add(newId, today) =>
  }

  /** A whole editing session keeps the row ids distinct, so every edit reaches at most one row. */
  lemma {:induction false} RunKeepsDistinctIds(items: seq<KhataItem>, actions: seq<Action>)
    requires DistinctIds(items)
    requires FreshAdds(items, actions)
    ensures DistinctIds(Run(items, actions))
    decreases |actions|
  {
    if |actions| > 0 {
      PerformKeepsDistinctIds(items, actions[0]);
      RunKeepsDistinctIds(Perform(items, actions[0]), actions[1..]);
    }
  }
}
