/**
 * The admin dashboard's lists (src/pages/Admin.tsx): the `categories` and
 * `foodItems` lists filled once from the database and then kept in step
 * with the realtime change events of each table. Records are untyped rows
 * here, identified by their `id` column.
 */
module Admin {
  import opened Wrappers
  import opened KeyedLists

  /** A database row: its id and its other columns. */
  datatype Row = Row(id: string, columns: map<string, string>)

  function RowId(r: Row): string { r.id }

  /** A realtime change event: `payload.eventType` with `payload.new` or
      `payload.old`; `Other` is any other event type. */
  datatype ChangeEvent = Insert(newRow: Row) | Update(newRow: Row) | Delete(oldRow: Row) | Other

  /** The list after one event, as both listeners compute it. */
  function Apply(list: seq<Row>, event: ChangeEvent): (r: seq<Row>)
    ensures event.Insert? ==> r == list + [event.newRow]
    ensures event.Update? ==>
      |r| == |list| &&
      (forall i :: 0 <= i < |list| ==> r[i] == (if list[i].id == event.newRow.id then event.newRow else list[i]))
    ensures event.Delete? ==> r == RemoveId(list, RowId, event.oldRow.id)
    ensures event.Other? ==> r == list
  {
    match event
    case Insert(n) => list + [n]
    case Update(n) => seq(|list|, i requires 0 <= i < |list| => if list[i].id == n.id then n else list[i])
    case Delete(o) => RemoveId(list, RowId, o.id)
    case Other => list
  }

  /** INSERT appends whatever arrives, with no duplicate check: the new row
      is last and the earlier rows are untouched; ids stay unique exactly
      when the inserted id was absent. */
  lemma InsertAppends(list: seq<Row>, n: Row)
    requires UniqueIds(list, RowId)
    ensures var r := Apply(list, Insert(n));
      |r| == |list| + 1 && r[|list|] == n && r[..|list|] == list &&
      (UniqueIds(r, RowId) <==> !HasId(list, RowId, n.id))
  {
    var r := Apply(list, Insert(n));
    if !HasId(list, RowId, n.id) {
      AppendKeepsUnique(list, RowId, n);
    } else {
      var i :| 0 <= i < |list| && RowId(list[i]) == n.id;
      assert r[i] == list[i] && r[|list|] == n;
    }
  }

  /** UPDATE keeps the length, the order and the set of ids; an id that is
      not present leaves the list as it was. */
  lemma {:induction false} UpdateKeepsIds(list: seq<Row>, n: Row)
    ensures var r := Apply(list, Update(n));
      (forall id :: HasId(r, RowId, id) <==> HasId(list, RowId, id)) &&
      (!HasId(list, RowId, n.id) ==> r == list) &&
      (HasId(list, RowId, n.id) ==> n in r)
  {
    var r := Apply(list, Update(n));
    forall id ensures HasId(r, RowId, id) <==> HasId(list, RowId, id) {
      if HasId(r, RowId, id) {
        var i :| 0 <= i < |r| && RowId(r[i]) == id;
        assert RowId(list[i]) == id;
      }
      if HasId(list, RowId, id) {
        var i :| 0 <= i < |list| && RowId(list[i]) == id;
        assert RowId(r[i]) == id;
      }
    }
    if HasId(list, RowId, n.id) {
      var i :| 0 <= i < |list| && RowId(list[i]) == n.id;
      assert r[i] == n;
    }
  }

  /** Replaying the same UPDATE changes nothing more. */
  lemma UpdateIdempotent(list: seq<Row>, n: Row)
    ensures Apply(Apply(list, Update(n)), Update(n)) == Apply(list, Update(n))
  {
  }

  /** DELETE removes every row with the old row's id, keeps every copy of
      every other row, in order, and leaves no row with that id. */
  lemma DeleteRemoves(list: seq<Row>, o: Row)
    ensures var r := Apply(list, Delete(o));
      !HasId(r, RowId, o.id) && IsSublist(r, list) &&
      (forall i :: 0 <= i < |list| && list[i].id != o.id ==> list[i] in r) &&
      (forall x :: multiset(r)[x] == if x.id != o.id then multiset(list)[x] else 0) &&
      (UniqueIds(list, RowId) ==> UniqueIds(r, RowId))
  {
    RemoveIdIsSublist(list, RowId, o.id);
    RemoveIdKeepsCopies(list, RowId, o.id);
    if UniqueIds(list, RowId) {
      RemoveIdKeepsUnique(list, RowId, o.id);
    }
  }

  /** Inserting a row whose id is absent and then deleting it restores the
      list. */
  lemma {:induction false} InsertThenDeleteRestores(list: seq<Row>, n: Row)
    requires !HasId(list, RowId, n.id)
    ensures Apply(Apply(list, Insert(n)), Delete(n)) == list
  {
    RemoveIdAppend(list, [n], RowId, n.id);
    assert RemoveId([n], RowId, n.id) == [];
  }

  // ------------------------------------------------------------ both lists

  /** The two tables the dashboard listens to. */
  datatype Table = Categories | FoodItems

  /** The dashboard's two lists. */
  datatype Lists = Lists(categories: seq<Row>, foodItems: seq<Row>)

  /** An event delivered on one table's channel changes only that table's list. */
  function OnChange(lists: Lists, table: Table, event: ChangeEvent): (r: Lists)
    ensures table == Categories ==> r.foodItems == lists.foodItems && r.categories == Apply(lists.categories, event)
    ensures table == FoodItems ==> r.categories == lists.categories && r.foodItems == Apply(lists.foodItems, event)
  {
    match table
    case Categories => lists.(categories := Apply(lists.categories, event))
    case FoodItems => lists.(foodItems := Apply(lists.foodItems, event))
  }

  // ---------------------------------------------------------- initial load

  /** The outcome of one `select`: rows (`null` is `None`) or an error. */
  datatype FetchResult = Fetched(data: Option<seq<Row>>) | Failed(message: string)

  /** The rows of a successful fetch, `data || []`. */
  function RowsOf(data: Option<seq<Row>>): seq<Row> {
    if data.Some? then data.value else []
  }

  /** `fetchData`: categories are fetched first and a failure there throws
      before food items are fetched, so both lists stay empty; the error's
      message is the one the notice shows. */
  function InitialLoad(categoriesResult: FetchResult, foodItemsResult: FetchResult): (r: (Lists, Option<string>))
    ensures categoriesResult.Failed? ==> r.0 == Lists([], []) && r.1 == Some(categoriesResult.message)
    ensures categoriesResult.Fetched? ==> r.0.categories == RowsOf(categoriesResult.data)
    ensures categoriesResult.Fetched? && foodItemsResult.Failed? ==>
      r.0.foodItems == [] && r.1 == Some(foodItemsResult.message)
    ensures categoriesResult.Fetched? && foodItemsResult.Fetched? ==>
      r.0.foodItems == RowsOf(foodItemsResult.data) && r.1 == None
    ensures categoriesResult.Fetched? && categoriesResult.data.None? ==> r.0.categories == []
  {
    var empty := Lists([], []);
    match categoriesResult
    case Failed(m) => (empty, Some(m))
    case Fetched(cats) =>
      var withCategories := empty.(categories := RowsOf(cats));
      match foodItemsResult
      case Failed(m) => (withCategories, Some(m))
      case Fetched(items) => (withCategories.(foodItems := RowsOf(items)), None)
  }
}
