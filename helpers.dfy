/**
 * finance/webapp/helpers.py, `handle_update`: applies the difference between
 * an old and a new table snapshot to the list of entities the table shows.
 * A shorter new table removes the entities whose `id` is gone; otherwise
 * each changed cell is written to the entity at the row's index, converted
 * to the type of the old cell.
 *
 * The entities are objects with named attributes (`Item`); the list passed
 * in is an object holding a sequence (`ItemList`), because `handle_update`
 * removes from it in place.
 */
module Helpers {
  import opened Wrappers
  import Lists

  /** A table cell or attribute value. */
  datatype Cell = Str(s: string) | Float(r: real) | Int(i: int) | Null

  /** A table row: column name to cell. */
  type Row = map<string, Cell>

  /** Python's `!=` on cells: numbers compare by value across int and float. */
  function Differs(a: Cell, b: Cell): (r: bool)
    ensures a == b ==> !r
    ensures (a.Int? && b.Float?) ==> (r <==> a.i as real != b.r)
  {
    if a.Int? && b.Float? then a.i as real != b.r
    else if a.Float? && b.Int? then a.r != b.i as real
    else a != b
  }

  /** Python's `v in ids`. */
  function Among(v: Cell, ids: seq<Cell>): (r: bool)
    ensures r <==> exists k :: 0 <= k < |ids| && !Differs(ids[k], v)
  {
    if ids == [] then false else Among(v, ids[..|ids| - 1]) || !Differs(ids[|ids| - 1], v)
  }

  /** An entity whose attributes `setattr` rewrites. */
  class Item {
    var attrs: map<string, Cell>

    constructor (attrs: map<string, Cell>)
      ensures this.attrs == attrs
    {
      this.attrs := attrs;
    }
  }

  /** The Python list of entities that `handle_update` changes in place. */
  class ItemList {
    var items: seq<Item>

    constructor (items: seq<Item>)
      ensures this.items == items
    {
      this.items := items;
    }
  }

  // ---------------------------------------------------------------------------
  // Removal: len(new_data) < len(old_data)

  /** Every entity carries an `id` attribute. */
  ghost predicate Identified(items: seq<Item>)
    reads set x | x in items
  {
    forall x :: x in items ==> "id" in x.attrs
  }

  /** `[x['id'] for x in new_data]`. */
  function IdsOf(rows: seq<Row>): (ids: seq<Cell>)
    requires forall k :: 0 <= k < |rows| ==> "id" in rows[k]
    ensures |ids| == |rows| && forall k :: 0 <= k < |rows| ==> ids[k] == rows[k]["id"]
  {
    if rows == [] then [] else IdsOf(rows[..|rows| - 1]) + [rows[|rows| - 1]["id"]]
  }

  /** Each entity's `id` attribute, as it stands. */
  function IdMap(items: seq<Item>): (idOf: map<Item, Cell>)
    reads set x | x in items
    requires Identified(items)
    ensures forall x :: x in items ==> x in idOf && idOf[x] == x.attrs["id"]
  {
    map x | x in items :: x.attrs["id"]
  }

  /** Every entity of `items` has an id in `idOf`. */
  ghost predicate Known(items: seq<Item>, idOf: map<Item, Cell>)
  {
    forall x :: x in items ==> x in idOf
  }

  lemma RemoveFirstKnown(items: seq<Item>, x: Item, idOf: map<Item, Cell>)
    requires x in items && Known(items, idOf)
    ensures Known(Lists.RemoveFirst(items, x), idOf)
  {
    forall y | y in Lists.RemoveFirst(items, x) ensures y in idOf {
      assert y in multiset(Lists.RemoveFirst(items, x));
    }
  }

  /**
   * `for x in entries: if x.id not in ids: entries.remove(x)`, from position
   * `i` on, with `idOf` the entities' ids. The list iterator keeps a
   * position that advances by one per step while `remove` shifts the rest
   * of the list left, so the element after a removed one is never looked at.
   */
  ghost function Sweep(items: seq<Item>, ids: seq<Cell>, idOf: map<Item, Cell>, i: nat): seq<Item>
    requires Known(items, idOf)
    decreases |items| - i
  {
    if i >= |items| then items
    else if !Among(idOf[items[i]], ids) then
      RemoveFirstKnown(items, items[i], idOf);
      Sweep(Lists.RemoveFirst(items, items[i]), ids, idOf, i + 1)
    else Sweep(items, ids, idOf, i + 1)
  }

  /** One step of the sweep at position `i`: the entity there stays or is removed, and the sweep goes on at `i + 1`. */
  lemma SweepStep(items: seq<Item>, ids: seq<Cell>, idOf: map<Item, Cell>, i: nat)
    requires Known(items, idOf) && i < |items|
    ensures var next := if Among(idOf[items[i]], ids) then items else Lists.RemoveFirst(items, items[i]);
      Known(next, idOf) && Sweep(next, ids, idOf, i + 1) == Sweep(items, ids, idOf, i)
  {
    if !Among(idOf[items[i]], ids) {
      RemoveFirstKnown(items, items[i], idOf);
    }
  }

  /** Removing an entity keeps the others' ids in agreement with `idOf`. */
  lemma RemoveFirstAgrees(items: seq<Item>, x: Item, idOf: map<Item, Cell>)
    requires x in items && IdsAgree(items, idOf)
    ensures IdsAgree(Lists.RemoveFirst(items, x), idOf)
  {
    forall y | y in Lists.RemoveFirst(items, x) ensures y in items {
      assert y in multiset(Lists.RemoveFirst(items, x));
    }
  }

  /** The entities' `id` attributes agree with `idOf`. */
  ghost predicate IdsAgree(items: seq<Item>, idOf: map<Item, Cell>)
    reads set x | x in items
  {
    forall x :: x in items ==> x in idOf && "id" in x.attrs && x.attrs["id"] == idOf[x]
  }

  /** The removal loop of `handle_update`, position by position as the list iterator walks. */
  method Swept(items: seq<Item>, ids: seq<Cell>, ghost idOf: map<Item, Cell>) returns (r: seq<Item>)
    requires IdsAgree(items, idOf)
    ensures Known(items, idOf)
    ensures r == Sweep(items, ids, idOf, 0)
  {
    r := items;
    var i := 0;
    while i < |r|
      invariant IdsAgree(r, idOf) && Known(r, idOf) && Known(items, idOf)
      invariant Sweep(r, ids, idOf, i) == Sweep(items, ids, idOf, 0)
      decreases |r| - i
    {
      var x := r[i];
      SweepStep(r, ids, idOf, i);
      if !Among(x.attrs["id"], ids) {
        RemoveFirstAgrees(r, x, idOf);
        r := Lists.RemoveFirst(r, x);
      }
      i := i + 1;
    }
  }

  /** The removal branch of `handle_update` on the list object itself. */
  method RemoveAbsent(entries: ItemList, ids: seq<Cell>, ghost idOf: map<Item, Cell>)
    requires IdsAgree(entries.items, idOf)
    modifies entries
    ensures Known(old(entries.items), idOf)
    ensures entries.items == Sweep(old(entries.items), ids, idOf, 0)
  {
    entries.items := Swept(entries.items, ids, idOf);
  }

  /** `f` lists, in increasing order, the positions in `s` of the elements of `r`. */
  ghost predicate Embeds<T>(r: seq<T>, s: seq<T>, f: seq<nat>)
  {
    && |f| == |r|
    && (forall k :: 0 <= k < |f| ==> f[k] < |s| && r[k] == s[f[k]])
    && (forall j, k :: 0 <= j < k < |f| ==> f[j] < f[k])
  }

  lemma RemoveFirstEmbeds<T>(s: seq<T>, x: T) returns (f: seq<nat>)
    requires x in s
    ensures Embeds(Lists.RemoveFirst(s, x), s, f)
  {
    var i := Lists.IndexOf(s, x);
    f := seq(|s| - 1, k => if k < i then k else k + 1);
  }

  lemma EmbedsCompose<T>(a: seq<T>, b: seq<T>, c: seq<T>, g: seq<nat>, h: seq<nat>) returns (f: seq<nat>)
    requires Embeds(a, b, g) && Embeds(b, c, h)
    ensures Embeds(a, c, f)
  {
    f := seq(|g|, k requires 0 <= k < |g| => h[g[k]]);
  }

  /** What the removal keeps is the original list with some entities dropped, in the original order. */
  lemma {:induction false} SweepEmbeds(items: seq<Item>, ids: seq<Cell>, idOf: map<Item, Cell>, i: nat) returns (f: seq<nat>)
    requires Known(items, idOf)
    ensures Embeds(Sweep(items, ids, idOf, i), items, f)
    decreases |items| - i
  {
    if i >= |items| {
      f := seq(|items|, k => k);
    } else if !Among(idOf[items[i]], ids) {
      var rest := Lists.RemoveFirst(items, items[i]);
      RemoveFirstKnown(items, items[i], idOf);
      var g := SweepEmbeds(rest, ids, idOf, i + 1);
      var h := RemoveFirstEmbeds(items, items[i]);
      f := EmbedsCompose(Sweep(rest, ids, idOf, i + 1), rest, items, g, h);
    } else {
      f := SweepEmbeds(items, ids, idOf, i + 1);
    }
  }

  /** The removal only ever drops entities. */
  lemma {:induction false} SweepShrinks(items: seq<Item>, ids: seq<Cell>, idOf: map<Item, Cell>, i: nat)
    requires Known(items, idOf)
    ensures multiset(Sweep(items, ids, idOf, i)) <= multiset(items)
    decreases |items| - i
  {
    if i < |items| {
      if !Among(idOf[items[i]], ids) {
        RemoveFirstKnown(items, items[i], idOf);
        SweepShrinks(Lists.RemoveFirst(items, items[i]), ids, idOf, i + 1);
      } else {
        SweepShrinks(items, ids, idOf, i + 1);
      }
    }
  }

  /** Removing one occurrence of `y` leaves the count of every other element alone. */
  lemma CountAfterRemove(items: seq<Item>, y: Item, x: Item)
    requires y in items && x != y
    ensures multiset(Lists.RemoveFirst(items, y))[x] == multiset(items)[x]
    ensures x in items ==> x in Lists.RemoveFirst(items, y)
  {
    var rest: seq<Item> := Lists.RemoveFirst(items, y);
    assert multiset(rest)[x] == multiset(items)[x];
    if x in items {
      assert x in multiset(rest);
    }
  }

  /** Only entities whose id is not among the new ids are removed, one occurrence per removal. */
  lemma {:induction false} SweepRemovesOnlyAbsent(items: seq<Item>, ids: seq<Cell>, idOf: map<Item, Cell>, i: nat, x: Item)
    requires Known(items, idOf)
    requires x in items && multiset(Sweep(items, ids, idOf, i))[x] < multiset(items)[x]
    ensures !Among(idOf[x], ids)
    decreases |items| - i
  {
    if i < |items| {
      if !Among(idOf[items[i]], ids) {
        if x != items[i] {
          var rest := Lists.RemoveFirst(items, items[i]);
          RemoveFirstKnown(items, items[i], idOf);
          assert Sweep(items, ids, idOf, i) == Sweep(rest, ids, idOf, i + 1);
          CountAfterRemove(items, items[i], x);
          SweepRemovesOnlyAbsent(rest, ids, idOf, i + 1, x);
        }
      } else {
        assert Sweep(items, ids, idOf, i) == Sweep(items, ids, idOf, i + 1);
        SweepRemovesOnlyAbsent(items, ids, idOf, i + 1, x);
      }
    }
  }

  /**
   * The entity after a removed one survives even when its id is gone too:
   * with two entities, neither in the new table, only the first is removed.
   */
  lemma SweepSkipsNext(a: Item, b: Item, ids: seq<Cell>, idOf: map<Item, Cell>)
    requires a != b && a in idOf && b in idOf
    requires !Among(idOf[a], ids) && !Among(idOf[b], ids)
    ensures Sweep([a, b], ids, idOf, 0) == [b]
  {
    assert Lists.RemoveFirst([a, b], a) == [b];
  }

  /** The intended removal: keep exactly the entities whose id is still in the table, in order. */
  function Retain(items: seq<Item>, ids: seq<Cell>): (r: seq<Item>)
    reads set x | x in items
    requires Identified(items)
    ensures forall x :: x in r ==> x in items && Among(x.attrs["id"], ids)
    ensures forall x :: x in items && Among(x.attrs["id"], ids) ==> x in r
  {
    if items == [] then []
    else
      var x := items[|items| - 1];
      Retain(items[..|items| - 1], ids) + (if Among(x.attrs["id"], ids) then [x] else [])
  }

  // ---------------------------------------------------------------------------
  // Update: len(new_data) >= len(old_data)

  /** The keys of a new row whose cell differs from the old row's. */
  function Changed(newRow: Row, oldRow: Row): (ks: set<string>)
    requires newRow.Keys <= oldRow.Keys
    ensures forall k :: k in ks <==> k in newRow && Differs(newRow[k], oldRow[k])
  {
    set k | k in newRow && Differs(newRow[k], oldRow[k])
  }

  /**
   * An entity's attributes after `setattr(entry, key, type(old)(new))` for
   * the changed keys of one row among `done`; every other attribute keeps
   * its value.
   */
  function Merge(attrs: map<string, Cell>, newRow: Row, oldRow: Row, done: set<string>, convert: (Cell, Cell) -> Cell)
    : (r: map<string, Cell>)
    requires newRow.Keys <= oldRow.Keys
    ensures r.Keys == attrs.Keys + (Changed(newRow, oldRow) * done)
    ensures forall k :: k in r ==>
      r[k] == if k in Changed(newRow, oldRow) * done then convert(oldRow[k], newRow[k]) else attrs[k]
  {
    map k | k in attrs.Keys + (Changed(newRow, oldRow) * done) ::
      if k in Changed(newRow, oldRow) * done then convert(oldRow[k], newRow[k]) else attrs[k]
  }

  /** The rows the update loop reads: every key of a new row is a key of the old row. */
  ghost predicate Comparable(news: seq<Row>, olds: seq<Row>)
  {
    forall k :: 0 <= k < |news| && k < |olds| ==> news[k].Keys <= olds[k].Keys
  }

  function Min(a: nat, b: nat): nat
  {
    if a < b then a else b
  }

  /**
   * The attributes of entity `x` after the rows below `n` were applied, in
   * index order, from `base`: each row whose index holds `x` merges in its
   * changed cells.
   */
  ghost function Written(x: Item, items: seq<Item>, news: seq<Row>, olds: seq<Row>, base: map<string, Cell>,
                         n: nat, convert: (Cell, Cell) -> Cell): map<string, Cell>
    requires n <= |news| && n <= |olds| && Comparable(news, olds)
  {
    if n == 0 then base
    else
      var prev := Written(x, items, news, olds, base, n - 1, convert);
      if n - 1 < |items| && items[n - 1] == x then Merge(prev, news[n - 1], olds[n - 1], news[n - 1].Keys, convert) else prev
  }

  /**
   * With no entity listed twice, entity `i` ends up with exactly the changed
   * cells of row `i`, and an entity past the rows read keeps its attributes.
   */
  lemma {:induction false} WrittenDistinct(items: seq<Item>, news: seq<Row>, olds: seq<Row>, base: map<string, Cell>,
                                           n: nat, convert: (Cell, Cell) -> Cell, i: nat)
    requires n <= |news| && n <= |olds| && Comparable(news, olds)
    requires forall j, k :: 0 <= j < k < |items| ==> items[j] != items[k]
    requires i < |items|
    ensures Written(items[i], items, news, olds, base, n, convert) ==
      if i < n then Merge(base, news[i], olds[i], news[i].Keys, convert) else base
  {
    if n > 0 {
      WrittenDistinct(items, news, olds, base, n - 1, convert, i);
    }
  }

  /** One row: for each key of the new row whose cell changed, convert and assign. */
  method ApplyRow(x: Item, newRow: Row, oldRow: Row, convert: (Cell, Cell) -> Cell)
    requires newRow.Keys <= oldRow.Keys
    modifies x
    ensures x.attrs == Merge(old(x.attrs), newRow, oldRow, newRow.Keys, convert)
  {
    var todo := newRow.Keys;
    ghost var changed := Changed(newRow, oldRow);
    while todo != {}
      invariant todo <= newRow.Keys
      invariant x.attrs.Keys == old(x.attrs).Keys + (changed - todo)
      invariant forall k :: k in x.attrs ==>
        x.attrs[k] == if k in changed - todo then convert(oldRow[k], newRow[k]) else old(x.attrs)[k]
      decreases |todo|
    {
      var key :| key in todo;
      if Differs(newRow[key], oldRow[key]) {
        x.attrs := x.attrs[key := convert(oldRow[key], newRow[key])];
      }
      todo := todo - {key};
    }
    assert changed * newRow.Keys == changed - todo;
  }

  /** The update loop over `zip(new_data, old_data)`: rows past the shorter snapshot are not looked at. */
  method ApplyRows(items: seq<Item>, news: seq<Row>, olds: seq<Row>, convert: (Cell, Cell) -> Cell)
    requires Comparable(news, olds)
    requires forall k :: 0 <= k < |news| && k < |olds| && Changed(news[k], olds[k]) != {} ==> k < |items|
    modifies set x | x in items
    ensures forall x :: x in items ==>
      x.attrs == Written(x, items, news, olds, old(x.attrs), Min(|news|, |olds|), convert)
  {
    var n := Min(|news|, |olds|);
    for idx := 0 to n
      invariant forall x :: x in items ==> x.attrs == Written(x, items, news, olds, old(x.attrs), idx, convert)
    {
      if Changed(news[idx], olds[idx]) != {} {
        var entry := items[idx];
        ApplyRow(entry, news[idx], olds[idx], convert);
      } else {
        forall x | x in items && idx < |items| && items[idx] == x
          ensures Merge(x.attrs, news[idx], olds[idx], news[idx].Keys, convert) == x.attrs
        {
        }
      }
    }
  }

  /** What `handle_update` needs of its inputs on the path it takes. */
  ghost predicate Applicable(oldRows: Option<seq<Row>>, newRows: Option<seq<Row>>, items: seq<Item>)
    reads set x | x in items
  {
    oldRows.Some? && newRows.Some? ==>
      var olds, news := oldRows.value, newRows.value;
      if |news| < |olds| then
        (forall k :: 0 <= k < |news| ==> "id" in news[k]) && Identified(items)
      else
        Comparable(news, olds)
        && forall k :: 0 <= k < |olds| && Changed(news[k], olds[k]) != {} ==> k < |items|
  }

  /**
   * handle_update(old_data, new_data, entries, grp_name): nothing when
   * either snapshot is missing; the removal sweep when the new table is
   * shorter; otherwise the cell updates, row by row, with the list itself
   * unchanged.
   */
  method HandleUpdate(oldRows: Option<seq<Row>>, newRows: Option<seq<Row>>, entries: ItemList, convert: (Cell, Cell) -> Cell)
    requires Applicable(oldRows, newRows, entries.items)
    modifies entries, set x | x in entries.items
    ensures oldRows.None? || newRows.None? ==>
      entries.items == old(entries.items) && forall x :: x in entries.items ==> x.attrs == old(x.attrs)
    ensures oldRows.Some? && newRows.Some? && |newRows.value| < |oldRows.value| ==>
      entries.items == Sweep(old(entries.items), IdsOf(newRows.value), old(IdMap(entries.items)), 0)
      && forall x :: x in old(entries.items) ==> x.attrs == old(x.attrs)
    ensures oldRows.Some? && newRows.Some? && |newRows.value| >= |oldRows.value| ==>
      entries.items == old(entries.items)
      && forall x :: x in entries.items ==>
        x.attrs == Written(x, entries.items, newRows.value, oldRows.value, old(x.attrs), |oldRows.value|, convert)
  {
    if oldRows.None? || newRows.None? {
      return;
    }
    var olds, news := oldRows.value, newRows.value;
    if |news| < |olds| {
      var ids := IdsOf(news);
      RemoveAbsent(entries, ids, IdMap(entries.items));
    } else {
      ApplyRows(entries.items, news, olds, convert);
    }
  }
}
