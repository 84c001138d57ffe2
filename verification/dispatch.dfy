/**
  The dispatch form of the finished-goods store: for each approved request
  item the store manager picks inventory batches (bulk or packaged) and the
  quantity to take from each, may lower the quantity to dispatch, and
  submits. Submission is refused as a whole unless every item with a
  positive dispatch quantity has exactly that much selected.
 */
module Dispatch {
  import opened Js

  datatype BatchType = Bulk | Packaged

  /** The inventory record a batch comes from. `stock` is `quantity` (bulk) or `unitsInStock` (packaged). */
  datatype InventoryBatch = InventoryBatch(id: string, productName: string, batchNumber: string, location: string, stock: real)

  /** A batch shown in the selector: the inventory record tagged with its type. */
  datatype Batch = Batch(id: string, kind: BatchType, batchNumber: string, location: string)

  /** An entry of `selectedBatches`. */
  datatype Selected = Selected(batch: Batch, quantityToDispatch: int)

  /** An entry of the form state: the request item plus `dispatchQty` and `selectedBatches`. */
  datatype DispatchItem = DispatchItem(name: string, qty: int, dispatchQty: int, selected: seq<Selected>)

  /** A request item as approved: its product name and approved quantity. */
  datatype RequestItem = RequestItem(name: string, qty: int)

  // ----- initial state -----

  predicate DistinctIds<T>(entries: seq<(string, T)>)
  {
    forall i, j :: 0 <= i < j < |entries| ==> entries[i].0 != entries[j].0
  }

  function Ids<T>(entries: seq<(string, T)>): (r: seq<string>)
    ensures |r| == |entries|
    ensures forall i :: 0 <= i < |entries| ==> r[i] == entries[i].0
  {
    seq(|entries|, i requires 0 <= i < |entries| => entries[i].0)
  }

  /** Every request item starts with `dispatchQty` equal to its approved `qty` and nothing selected. */
  function InitialItems(entries: seq<(string, RequestItem)>): (r: map<string, DispatchItem>)
    requires DistinctIds(entries)
    ensures forall k :: k in r ==> k in Ids(entries)
    ensures forall i :: 0 <= i < |entries| ==>
      entries[i].0 in r && r[entries[i].0] == DispatchItem(entries[i].1.name, entries[i].1.qty, entries[i].1.qty, [])
    decreases |entries|
  {
    if entries == [] then map[]
    else
      var init := entries[..|entries| - 1];
      var (id, item) := entries[|entries| - 1];
      assert DistinctIds(init);
      assert forall i :: 0 <= i < |init| ==> init[i] == entries[i] && init[i].0 != id;
      InitialItems(init)[id := DispatchItem(item.name, item.qty, item.qty, [])]
  }

  // ----- candidate batches -----

  /** The records of `inv` for product `name` that still hold stock, in inventory order. */
  function InStockFor(inv: seq<InventoryBatch>, name: string): (r: seq<InventoryBatch>)
    ensures |r| <= |inv|
    ensures forall b :: b in r <==> b in inv && b.productName == name && b.stock > 0.0
    decreases |inv|
  {
    if inv == [] then []
    else
      var rest := InStockFor(inv[..|inv| - 1], name);
      var b := inv[|inv| - 1];
      assert forall x :: x in inv <==> x in inv[..|inv| - 1] || x == b;
      if b.productName == name && b.stock > 0.0 then rest + [b] else rest
  }

  /** The candidates for one item: matching bulk records, then matching packaged records. */
  datatype Available = Available(bulk: seq<InventoryBatch>, packaged: seq<InventoryBatch>)

  function AvailableFor(item: RequestItem, bulk: seq<InventoryBatch>, packaged: seq<InventoryBatch>): (r: Available)
    ensures forall b :: b in r.bulk <==> b in bulk && b.productName == item.name && b.stock > 0.0
    ensures forall b :: b in r.packaged <==> b in packaged && b.productName == item.name && b.stock > 0.0
  {
    Available(InStockFor(bulk, item.name), InStockFor(packaged, item.name))
  }

  // ----- batch selection -----

  predicate SameBatch(a: Batch, b: Batch)
  {
    a.id == b.id && a.kind == b.kind
  }

  /** At most one entry per (batch id, type). */
  predicate UniqueBatches(sel: seq<Selected>)
  {
    forall i, j :: 0 <= i < j < |sel| ==> !SameBatch(sel[i].batch, sel[j].batch)
  }

  /** The index of the first entry for the same batch as `b`, or -1 (`findIndex`). */
  function IndexOf(sel: seq<Selected>, b: Batch): (r: int)
    ensures -1 <= r < |sel|
    ensures r >= 0 ==> SameBatch(sel[r].batch, b) && forall j :: 0 <= j < r ==> !SameBatch(sel[j].batch, b)
    ensures r == -1 ==> forall j :: 0 <= j < |sel| ==> !SameBatch(sel[j].batch, b)
  {
    if sel == [] then -1
    else if SameBatch(sel[0].batch, b) then 0
    else
      var k := IndexOf(sel[1..], b);
      if k == -1 then -1 else k + 1
  }

  /**
    The selection after entering `q` for batch `b`: a positive quantity
    replaces the entry for the same batch or is appended; a quantity that
    is not positive removes the entry, if any.
   */
  function Upsert(sel: seq<Selected>, b: Batch, q: int): seq<Selected>
  {
    if sel == [] then (if q > 0 then [Selected(b, q)] else [])
    else if SameBatch(sel[0].batch, b) then (if q > 0 then [Selected(b, q)] + sel[1..] else sel[1..])
    else [sel[0]] + Upsert(sel[1..], b, q)
  }

  /** A scan that stops at the first entry for `b`, or at the end, finds `IndexOf`. */
  lemma {:induction false} ScanFindsIndex(sel: seq<Selected>, b: Batch, k: nat)
    requires k <= |sel|
    requires forall j :: 0 <= j < k ==> !SameBatch(sel[j].batch, b)
    requires k < |sel| ==> SameBatch(sel[k].batch, b)
    ensures IndexOf(sel, b) == if k < |sel| then k else -1
  {
  }

  /**
    The selection update of `handleBatchQuantityChange`: `findIndex` for
    the batch, then replace, remove or append.
   */
  method UpsertSelection(sel: seq<Selected>, b: Batch, q: int) returns (r: seq<Selected>)
    ensures r == Upsert(sel, b, q)
  {
    var k := 0;
    while k < |sel| && !SameBatch(sel[k].batch, b)
      invariant 0 <= k <= |sel|
      invariant forall j :: 0 <= j < k ==> !SameBatch(sel[j].batch, b)
    {
      k := k + 1;
    }
    var existing := if k < |sel| then k else -1;
    ScanFindsIndex(sel, b, k);
    if existing >= 0 {
      if q > 0 {
        r := sel[existing := Selected(b, q)];
      } else {
        r := sel[..existing] + sel[existing + 1..];
      }
    } else if q > 0 {
      r := sel + [Selected(b, q)];
    } else {
      r := sel;
    }
    UpsertAt(sel, b, q);
  }

  /** The entries for batches other than `b`, in order. */
  function Without(sel: seq<Selected>, b: Batch): (r: seq<Selected>)
    ensures forall x :: x in r <==> x in sel && !SameBatch(x.batch, b)
  {
    if sel == [] then []
    else if SameBatch(sel[0].batch, b) then Without(sel[1..], b)
    else [sel[0]] + Without(sel[1..], b)
  }

  /** The entries for batch `b`. */
  function EntriesFor(sel: seq<Selected>, b: Batch): seq<Selected>
  {
    if sel == [] then []
    else (if SameBatch(sel[0].batch, b) then [sel[0]] else []) + EntriesFor(sel[1..], b)
  }

  /** Entries for other batches are untouched, and in the same order. */
  lemma {:induction false} UpsertKeepsOthers(sel: seq<Selected>, b: Batch, q: int, c: Batch)
    requires !SameBatch(c, b)
    ensures EntriesFor(Upsert(sel, b, q), c) == EntriesFor(sel, c)
  {
    if sel != [] {
      UpsertKeepsOthers(sel[1..], b, q, c);
      if !SameBatch(sel[0].batch, b) {
        assert Upsert(sel, b, q)[1..] == Upsert(sel[1..], b, q);
      } else if q > 0 {
        assert SameBatch(sel[0].batch, b) ==> sel[0].batch.id == b.id;
        assert ([Selected(b, q)] + sel[1..])[1..] == sel[1..];
      }
    } else if q > 0 {
      assert [Selected(b, q)][1..] == [];
    }
  }

  /**
    With at most one entry per batch before, the entry for `b` afterwards is
    exactly `(b, q)` when `q > 0` and there is none otherwise.
   */
  lemma {:induction false} UpsertSetsEntry(sel: seq<Selected>, b: Batch, q: int)
    requires UniqueBatches(sel)
    ensures EntriesFor(Upsert(sel, b, q), b) == if q > 0 then [Selected(b, q)] else []
  {
    if sel == [] {
      if q > 0 {
        assert [Selected(b, q)][1..] == [];
      }
    } else if SameBatch(sel[0].batch, b) {
      assert forall j :: 0 <= j < |sel[1..]| ==> !SameBatch(sel[1..][j].batch, b) by {
        forall j | 0 <= j < |sel[1..]| ensures !SameBatch(sel[1..][j].batch, b) {
          assert sel[1..][j] == sel[j + 1];
        }
      }
      NoEntriesFor(sel[1..], b);
      if q > 0 {
        assert ([Selected(b, q)] + sel[1..])[1..] == sel[1..];
      }
    } else {
      assert UniqueBatches(sel[1..]) by {
        forall i, j | 0 <= i < j < |sel[1..]| ensures !SameBatch(sel[1..][i].batch, sel[1..][j].batch) {
          assert sel[1..][i] == sel[i + 1] && sel[1..][j] == sel[j + 1];
        }
      }
      UpsertSetsEntry(sel[1..], b, q);
      assert Upsert(sel, b, q)[1..] == Upsert(sel[1..], b, q);
    }
  }

  lemma {:induction false} NoEntriesFor(sel: seq<Selected>, b: Batch)
    requires forall j :: 0 <= j < |sel| ==> !SameBatch(sel[j].batch, b)
    ensures EntriesFor(sel, b) == []
  {
    if sel != [] {
      NoEntriesFor(sel[1..], b);
    }
  }

  /** The selection keeps at most one entry per (batch id, type). */
  lemma {:induction false} UpsertKeepsUnique(sel: seq<Selected>, b: Batch, q: int)
    requires UniqueBatches(sel)
    ensures UniqueBatches(Upsert(sel, b, q))
    ensures forall x :: x in Upsert(sel, b, q) ==> x in sel || x == Selected(b, q)
  {
    if sel != [] {
      assert UniqueBatches(sel[1..]) by {
        forall i, j | 0 <= i < j < |sel[1..]| ensures !SameBatch(sel[1..][i].batch, sel[1..][j].batch) {
          assert sel[1..][i] == sel[i + 1] && sel[1..][j] == sel[j + 1];
        }
      }
      UpsertKeepsUnique(sel[1..], b, q);
      var r := Upsert(sel, b, q);
      if !SameBatch(sel[0].batch, b) {
        assert r == [sel[0]] + Upsert(sel[1..], b, q);
        forall j | 1 <= j < |r| ensures !SameBatch(sel[0].batch, r[j].batch) {
          assert r[j] in Upsert(sel[1..], b, q);
          if r[j] != Selected(b, q) {
            var k :| 0 <= k < |sel[1..]| && sel[1..][k] == r[j];
            assert sel[k + 1] == r[j];
          }
        }
      } else if q > 0 {
        forall j | 1 <= j < |r| ensures !SameBatch(r[0].batch, r[j].batch) {
          assert r[j] == sel[j];
        }
      }
    }
  }

  /** The method's index-based update agrees with `Upsert`. */
  lemma {:induction false} UpsertAt(sel: seq<Selected>, b: Batch, q: int)
    ensures var k := IndexOf(sel, b);
      Upsert(sel, b, q)
      == if k >= 0 then (if q > 0 then sel[k := Selected(b, q)] else sel[..k] + sel[k + 1..])
         else (if q > 0 then sel + [Selected(b, q)] else sel)
  {
    if sel == [] {
    } else if SameBatch(sel[0].batch, b) {
      assert IndexOf(sel, b) == 0;
      if q > 0 {
        assert sel[0 := Selected(b, q)] == [Selected(b, q)] + sel[1..];
      } else {
        assert sel[..0] + sel[1..] == sel[1..];
      }
    } else {
      var rest := sel[1..];
      UpsertAt(rest, b, q);
      var k := IndexOf(rest, b);
      assert Upsert(sel, b, q) == [sel[0]] + Upsert(rest, b, q);
      if k >= 0 {
        assert IndexOf(sel, b) == k + 1;
        if q > 0 {
          ConsUpdate(sel, k, Selected(b, q));
        } else {
          ConsRemove(sel, k);
        }
      } else {
        assert IndexOf(sel, b) == -1;
        assert [sel[0]] + rest == sel;
        if q > 0 {
          assert [sel[0]] + (rest + [Selected(b, q)]) == sel + [Selected(b, q)];
        }
      }
    }
  }

  lemma ConsUpdate<T>(s: seq<T>, k: nat, x: T)
    requires k + 1 < |s|
    ensures [s[0]] + s[1..][k := x] == s[k + 1 := x]
  {
  }

  lemma ConsRemove<T>(s: seq<T>, k: nat)
    requires k + 1 < |s|
    ensures [s[0]] + (s[1..][..k] + s[1..][k + 1..]) == s[..k + 1] + s[k + 2..]
  {
    assert s[1..][..k] == s[1..k + 1];
    assert s[1..][k + 1..] == s[k + 2..];
    assert s[..k + 1] == [s[0]] + s[1..k + 1];
  }

  /** Every selected quantity is positive, as `Upsert` keeps it. */
  predicate PositiveSelections(sel: seq<Selected>)
  {
    forall i :: 0 <= i < |sel| ==> sel[i].quantityToDispatch > 0
  }

  /**
    `getTotalSelectedForItem`: the sum of `quantityToDispatch`, 0 when
    nothing is selected; with positive quantities it is 0 only then.
   */
  function TotalSelected(sel: seq<Selected>): (t: int)
    ensures sel == [] ==> t == 0
    ensures PositiveSelections(sel) ==> (t == 0 <==> sel == []) && t >= 0
  {
    if sel == [] then 0 else TotalSelected(sel[..|sel| - 1]) + sel[|sel| - 1].quantityToDispatch
  }

  lemma {:induction false} TotalSelectedFront(sel: seq<Selected>)
    requires sel != []
    ensures TotalSelected(sel) == sel[0].quantityToDispatch + TotalSelected(sel[1..])
  {
    if |sel| > 1 {
      TotalSelectedFront(sel[..|sel| - 1]);
      assert sel[..|sel| - 1][1..] == sel[1..][..|sel[1..]| - 1];
    } else {
      assert sel[..0] == [] && sel[1..] == [];
    }
  }

  /** The total of two selections one after the other is the sum of their totals. */
  lemma {:induction false} TotalSelectedAppend(a: seq<Selected>, b: seq<Selected>)
    ensures TotalSelected(a + b) == TotalSelected(a) + TotalSelected(b)
  {
    if b != [] {
      TotalSelectedAppend(a, b[..|b| - 1]);
      assert (a + b)[..|a + b| - 1] == a + b[..|b| - 1];
    } else {
      assert a + b == a;
    }
  }

  /** An upsert keeps every selected quantity positive. */
  lemma {:induction false} UpsertKeepsPositive(sel: seq<Selected>, b: Batch, q: int)
    requires PositiveSelections(sel)
    ensures PositiveSelections(Upsert(sel, b, q))
  {
    if sel != [] && !SameBatch(sel[0].batch, b) {
      UpsertKeepsPositive(sel[1..], b, q);
    }
  }

  /** After an upsert the selected total is the others' total plus the new quantity, if positive. */
  lemma {:induction false} UpsertTotal(sel: seq<Selected>, b: Batch, q: int)
    requires UniqueBatches(sel)
    ensures TotalSelected(Upsert(sel, b, q)) == TotalSelected(Without(sel, b)) + (if q > 0 then q else 0)
  {
    if sel == [] {
      if q > 0 {
        assert [Selected(b, q)][..0] == [];
      }
    } else {
      var rest := sel[1..];
      assert UniqueBatches(rest) by {
        forall i, j | 0 <= i < j < |rest| ensures !SameBatch(rest[i].batch, rest[j].batch) {
          assert rest[i] == sel[i + 1] && rest[j] == sel[j + 1];
        }
      }
      var r := Upsert(sel, b, q);
      if SameBatch(sel[0].batch, b) {
        assert forall j :: 0 <= j < |rest| ==> !SameBatch(rest[j].batch, b) by {
          forall j | 0 <= j < |rest| ensures !SameBatch(rest[j].batch, b) {
            assert rest[j] == sel[j + 1];
          }
        }
        WithoutNone(rest, b);
        if q > 0 {
          TotalSelectedFront(r);
          assert r[1..] == rest;
        }
      } else {
        UpsertTotal(rest, b, q);
        TotalSelectedFront(r);
        assert r[1..] == Upsert(rest, b, q);
        TotalSelectedFront([sel[0]] + Without(rest, b));
        assert ([sel[0]] + Without(rest, b))[1..] == Without(rest, b);
      }
    }
  }

  lemma {:induction false} WithoutNone(sel: seq<Selected>, b: Batch)
    requires forall j :: 0 <= j < |sel| ==> !SameBatch(sel[j].batch, b)
    ensures Without(sel, b) == sel
  {
    if sel != [] {
      WithoutNone(sel[1..], b);
      assert [sel[0]] + sel[1..] == sel;
    }
  }

  // ----- dispatch quantity -----

  /** `Math.max(0, Math.min(qty, parseInt(value) || 0))`; `parsed` is None when parseInt gives NaN. */
  function ClampDispatchQty(qty: int, parsed: Option<int>): (r: int)
    ensures 0 <= r
    ensures qty >= 0 ==> r <= qty
    ensures parsed.Some? && 0 <= parsed.value <= qty ==> r == parsed.value
    ensures parsed.None? ==> r == 0
    ensures parsed.Some? && parsed.value > qty >= 0 ==> r == qty
  {
    var v := if parsed.Some? then parsed.value else 0;
    var m := if qty < v then qty else v;
    if m < 0 then 0 else m
  }

  // ----- submission -----

  datatype ValidationError =
    | NoBatchesSelected(name: string)
    | SelectedTooFew(name: string, selected: int, need: int)
    | SelectedTooMany(name: string, selected: int, need: int)

  /** The check of one item: an item with a positive dispatch quantity needs exactly that much selected. */
  function ItemError(item: DispatchItem): (r: Option<ValidationError>)
    ensures r.None? <==> item.dispatchQty <= 0 || TotalSelected(item.selected) == item.dispatchQty
    ensures item.dispatchQty > 0 && TotalSelected(item.selected) == 0 ==> r == Some(NoBatchesSelected(item.name))
    ensures item.dispatchQty > 0 && 0 < TotalSelected(item.selected) < item.dispatchQty ==>
              r == Some(SelectedTooFew(item.name, TotalSelected(item.selected), item.dispatchQty))
    ensures item.dispatchQty > 0 && TotalSelected(item.selected) > item.dispatchQty ==>
              r == Some(SelectedTooMany(item.name, TotalSelected(item.selected), item.dispatchQty))
  {
    var total := TotalSelected(item.selected);
    if item.dispatchQty <= 0 then None
    else if total == 0 then Some(NoBatchesSelected(item.name))
    else if total < item.dispatchQty then Some(SelectedTooFew(item.name, total, item.dispatchQty))
    else if total > item.dispatchQty then Some(SelectedTooMany(item.name, total, item.dispatchQty))
    else None
  }

  /**
    With positive selected quantities, an item that is to be dispatched
    reports "no batches selected" exactly when nothing is selected for it.
   */
  lemma NoBatchesIffNothingSelected(item: DispatchItem)
    requires item.dispatchQty > 0 && PositiveSelections(item.selected)
    ensures ItemError(item) == Some(NoBatchesSelected(item.name)) <==> item.selected == []
  {
  }

  /**
    An item whose dispatch quantity is not positive, such as one whose
    approved quantity was missing and read as 0, is skipped by both
    loops: it has no error and no payload line.
   */
  lemma NonPositiveQuantitySkipped(item: DispatchItem)
    requires item.dispatchQty <= 0
    ensures ItemError(item).None? && !Included(item)
  {
  }

  predicate Covers(ids: seq<string>, items: map<string, DispatchItem>)
  {
    forall i :: 0 <= i < |ids| ==> ids[i] in items
  }

  /** `validationErrors`, in item order. */
  function ValidationErrors(ids: seq<string>, items: map<string, DispatchItem>): (r: seq<ValidationError>)
    requires Covers(ids, items)
    ensures |r| <= |ids|
  {
    if ids == [] then []
    else
      var e := ItemError(items[ids[|ids| - 1]]);
      ValidationErrors(ids[..|ids| - 1], items) + (if e.Some? then [e.value] else [])
  }

  /** Every item with a positive dispatch quantity has exactly that quantity selected. */
  predicate AllExact(ids: seq<string>, items: map<string, DispatchItem>)
    requires Covers(ids, items)
  {
    forall i :: 0 <= i < |ids| ==>
      items[ids[i]].dispatchQty > 0 ==> TotalSelected(items[ids[i]].selected) == items[ids[i]].dispatchQty
  }

  /** There are no validation errors exactly when every item to dispatch is matched exactly. */
  lemma {:induction false} NoErrorsIffExact(ids: seq<string>, items: map<string, DispatchItem>)
    requires Covers(ids, items)
    ensures ValidationErrors(ids, items) == [] <==> AllExact(ids, items)
  {
    if ids != [] {
      var init := ids[..|ids| - 1];
      assert forall i :: 0 <= i < |init| ==> init[i] == ids[i];
      NoErrorsIffExact(init, items);
    }
  }

  /** A batch line of the payload. */
  datatype BatchLine = BatchLine(batchId: string, batchNumber: string, location: string, inventoryType: BatchType, quantity: int)

  /** The payload entry of one item. */
  datatype DispatchLine = DispatchLine(name: string, qty: int, batches: seq<BatchLine>)

  function LineOf(s: Selected): BatchLine
  {
    BatchLine(s.batch.id, s.batch.batchNumber, s.batch.location, s.batch.kind, s.quantityToDispatch)
  }

  function Lines(sel: seq<Selected>): (r: seq<BatchLine>)
    ensures |r| == |sel|
    ensures forall i :: 0 <= i < |sel| ==> r[i] == LineOf(sel[i])
  {
    seq(|sel|, i requires 0 <= i < |sel| => LineOf(sel[i]))
  }

  function LineTotal(lines: seq<BatchLine>): int
  {
    if lines == [] then 0 else LineTotal(lines[..|lines| - 1]) + lines[|lines| - 1].quantity
  }

  /** The batch lines carry the selected quantities unchanged. */
  lemma {:induction false} LineTotalIsSelected(sel: seq<Selected>)
    ensures LineTotal(Lines(sel)) == TotalSelected(sel)
  {
    if sel != [] {
      var init := sel[..|sel| - 1];
      LineTotalIsSelected(init);
      assert Lines(sel)[..|sel| - 1] == Lines(init);
    }
  }

  predicate Included(item: DispatchItem)
  {
    item.dispatchQty > 0 && |item.selected| > 0
  }

  /** `dispatchData`: the items with a positive dispatch quantity and a non-empty selection. */
  function DispatchData(ids: seq<string>, items: map<string, DispatchItem>): (r: seq<(string, DispatchLine)>)
    requires Covers(ids, items)
    ensures |r| <= |ids|
  {
    if ids == [] then []
    else
      var id := ids[|ids| - 1];
      var item := items[id];
      DispatchData(ids[..|ids| - 1], items)
      + (if Included(item) then [(id, DispatchLine(item.name, item.dispatchQty, Lines(item.selected)))] else [])
  }

  /** The payload holds exactly the included items. */
  lemma {:induction false} DispatchDataEntries(ids: seq<string>, items: map<string, DispatchItem>, id: string)
    requires Covers(ids, items)
    ensures (exists j :: 0 <= j < |DispatchData(ids, items)| && DispatchData(ids, items)[j].0 == id)
            ==> id in ids && Included(items[id])
    ensures id in ids && Included(items[id])
            ==> exists j :: 0 <= j < |DispatchData(ids, items)| && DispatchData(ids, items)[j].0 == id
  {
    if ids != [] {
      var init := ids[..|ids| - 1];
      var last := ids[|ids| - 1];
      assert ids == init + [last];
      assert forall x :: x in ids <==> x in init || x == last;
      assert Covers(init, items) by {
        forall i | 0 <= i < |init| ensures init[i] in items {
          assert init[i] == ids[i];
        }
      }
      DispatchDataEntries(init, items, id);
      var d := DispatchData(ids, items);
      var d0 := DispatchData(init, items);
      assert d[..|d0|] == d0;
      if exists j :: 0 <= j < |d| && d[j].0 == id {
        var j :| 0 <= j < |d| && d[j].0 == id;
        if j < |d0| {
          assert d0[j] == d[j];
        } else {
          assert Included(items[last]) && d[j].0 == last;
        }
      }
      if id in ids && Included(items[id]) {
        if id in init {
          var j :| 0 <= j < |d0| && d0[j].0 == id;
          assert d[j] == d0[j];
        } else {
          assert d[|d0|].0 == id;
        }
      }
    }
  }

  /** Each payload line is its item's name, dispatch quantity and selection as batch lines. */
  lemma {:induction false} DispatchDataLines(ids: seq<string>, items: map<string, DispatchItem>)
    requires Covers(ids, items)
    ensures forall j :: 0 <= j < |DispatchData(ids, items)| ==>
      var (k, line) := DispatchData(ids, items)[j];
      k in items && line == DispatchLine(items[k].name, items[k].dispatchQty, Lines(items[k].selected))
  {
    if ids != [] {
      var init := ids[..|ids| - 1];
      assert Covers(init, items) by {
        forall i | 0 <= i < |init| ensures init[i] in items {
          assert init[i] == ids[i];
        }
      }
      DispatchDataLines(init, items);
      var d := DispatchData(ids, items);
      var d0 := DispatchData(init, items);
      forall j | 0 <= j < |d|
        ensures var (k, line) := d[j];
          k in items && line == DispatchLine(items[k].name, items[k].dispatchQty, Lines(items[k].selected))
      {
        if j < |d0| {
          assert d[j] == d0[j];
        }
      }
    }
  }

  /**
    When submission passes validation, every payload line's batch
    quantities add up to its `qty`.
   */
  lemma {:induction false} PayloadQuantitiesMatch(ids: seq<string>, items: map<string, DispatchItem>)
    requires Covers(ids, items)
    requires ValidationErrors(ids, items) == []
    ensures forall j :: 0 <= j < |DispatchData(ids, items)| ==>
      LineTotal(DispatchData(ids, items)[j].1.batches) == DispatchData(ids, items)[j].1.qty
  {
    NoErrorsIffExact(ids, items);
    forall j | 0 <= j < |DispatchData(ids, items)|
      ensures LineTotal(DispatchData(ids, items)[j].1.batches) == DispatchData(ids, items)[j].1.qty
    {
      var (k, line) := DispatchData(ids, items)[j];
      DispatchDataEntries(ids, items, k);
      DispatchDataLines(ids, items);
      assert exists j' :: 0 <= j' < |DispatchData(ids, items)| && DispatchData(ids, items)[j'].0 == k;
      var i :| 0 <= i < |ids| && ids[i] == k;
      LineTotalIsSelected(items[k].selected);
    }
  }

  /**
    After validation, the included items are exactly those with a positive
    dispatch quantity: an exact match means something is selected.
   */
  lemma PassedItemsAreIncluded(ids: seq<string>, items: map<string, DispatchItem>, i: nat)
    requires Covers(ids, items) && i < |ids|
    requires ValidationErrors(ids, items) == []
    ensures Included(items[ids[i]]) <==> items[ids[i]].dispatchQty > 0
  {
    NoErrorsIffExact(ids, items);
  }

  /** The loop behind `validationErrors`: one error per failing item, in item order. */
  method CollectErrors(ids: seq<string>, items: map<string, DispatchItem>) returns (errors: seq<ValidationError>)
    requires Covers(ids, items)
    ensures errors == ValidationErrors(ids, items)
  {
    errors := [];
    var i := 0;
    while i < |ids|
      invariant 0 <= i <= |ids|
      invariant errors == ValidationErrors(ids[..i], items)
    {
      assert ids[..i + 1][..i] == ids[..i];
      var e := ItemError(items[ids[i]]);
      if e.Some? {
        errors := errors + [e.value];
      }
      i := i + 1;
    }
    assert ids[..i] == ids;
  }

  /** The loop behind `dispatchData`: one line per included item, in item order. */
  method CollectDispatchData(ids: seq<string>, items: map<string, DispatchItem>) returns (data: seq<(string, DispatchLine)>)
    requires Covers(ids, items)
    ensures data == DispatchData(ids, items)
  {
    data := [];
    var i := 0;
    while i < |ids|
      invariant 0 <= i <= |ids|
      invariant data == DispatchData(ids[..i], items)
    {
      assert ids[..i + 1][..i] == ids[..i];
      var item := items[ids[i]];
      if item.dispatchQty > 0 && |item.selected| > 0 {
        data := data + [(ids[i], DispatchLine(item.name, item.dispatchQty, Lines(item.selected)))];
      }
      i := i + 1;
    }
    assert ids[..i] == ids;
  }

  /** The user who dispatches. */
  datatype Dispatcher = Dispatcher(uid: string, displayName: string, role: string)

  /** The argument of the dispatch service call. */
  datatype Payload = Payload(items: seq<(string, DispatchLine)>, dispatchedBy: string,
                             dispatchedByName: string, dispatchedByRole: string, notes: string)

  /**
    The form state: the request items by id, in the order of the request's
    `items` object.
   */
  class DispatchForm {
    var ids: seq<string>
    var items: map<string, DispatchItem>

    ghost predicate Valid()
      reads this
    {
      && (forall i, j :: 0 <= i < j < |ids| ==> ids[i] != ids[j])
      && Covers(ids, items)
      && (forall id :: id in items ==> id in ids)
      && (forall id :: id in items ==> UniqueBatches(items[id].selected))
      && (forall id :: id in items ==> PositiveSelections(items[id].selected))
    }

    constructor (requestItems: seq<(string, RequestItem)>)
      requires DistinctIds(requestItems)
      ensures Valid()
      ensures ids == Ids(requestItems) && items == InitialItems(requestItems)
    {
      ids := Ids(requestItems);
      items := InitialItems(requestItems);
    }

    /** `handleBatchQuantityChange(itemId, batch, quantity)`. */
    method ChangeBatchQuantity(itemId: string, b: Batch, quantity: int)
      requires Valid() && itemId in items
      modifies this
      ensures Valid()
      ensures ids == old(ids)
      ensures items == old(items)[itemId := old(items)[itemId].(selected := Upsert(old(items)[itemId].selected, b, quantity))]
    {
      var item := items[itemId];
      var sel := UpsertSelection(item.selected, b, quantity);
      UpsertKeepsUnique(item.selected, b, quantity);
      UpsertKeepsPositive(item.selected, b, quantity);
      items := items[itemId := item.(selected := sel)];
    }

    /** `handleQuantityChange(itemId, value)`, with `parsed` the result of `parseInt(value)`. */
    method ChangeQuantity(itemId: string, parsed: Option<int>)
      requires Valid() && itemId in items
      modifies this
      ensures Valid()
      ensures ids == old(ids)
      ensures items == old(items)[itemId := old(items)[itemId].(dispatchQty := ClampDispatchQty(old(items)[itemId].qty, parsed))]
    {
      var item := items[itemId];
      items := items[itemId := item.(dispatchQty := ClampDispatchQty(item.qty, parsed))];
    }

    /**
      `handleSubmit`: the validation errors if there are any (and then no
      dispatch call), otherwise the payload passed to the dispatch service.
     */
    method Submit(user: Dispatcher, notes: string) returns (r: Result<Payload, seq<ValidationError>>)
      requires Valid()
      ensures r.Err? <==> ValidationErrors(ids, items) != []
      ensures r.Err? ==> r.error == ValidationErrors(ids, items)
      ensures r.Ok? ==> r.value == Payload(DispatchData(ids, items), user.uid, user.displayName, user.role, Trim(notes))
    {
      var errors := CollectErrors(ids, items);
      if errors != [] {
        return Err(errors);
      }
      var data := CollectDispatchData(ids, items);
      r := Ok(Payload(data, user.uid, user.displayName, user.role, Trim(notes)));
    }
  }
}
