/**
  The Direct Representative approval service: the listing of requests with
  its defaults, approval (item normalisation, total quantity, history record,
  status update, notification fan-out) and rejection, over an in-memory
  store whose writes are also recorded, in order, in a write log.
 */
module Approval {
  import opened Js

  /** JavaScript's own conversions, which the service calls but does not define. */
  datatype Runtime = Runtime(
    parseJson: string -> Option<Value>,   // JSON.parse; None when it throws
    stringToNumber: string -> Number,     // Number(s) on a string
    propertyKey: Value -> string)         // String(v), when v is used as a computed key

  datatype ApprovalError =
    | RequestNotFound   // 'Request not found'
    | NoItemsFound      // 'Cannot approve request: No items found in request'
    | ItemIsNull        // the TypeError raised by reading `item.qty` of a null item

  function KeyOf(v: Value, rt: Runtime): string
  {
    if v.Str? then v.s else rt.propertyKey(v)
  }

  // ----- item normalisation -----

  /** A candidate that the fallbacks treat as "no items": `!items || Object.keys(items).length === 0`. */
  predicate NoItems(items: Value)
  {
    !Truthy(items) || KeyCount(items) == 0
  }

  /** The `items` field: parsed when a string (null when it does not parse), kept when an object. */
  function ItemsCandidate(req: Value, rt: Runtime): Value
  {
    var f := GetOr(req, "items", Null);
    if f.Str? then (var p := rt.parseJson(f.s); if p.Some? then p.value else Null)
    else if IsObject(f) then f
    else Null
  }

  /** Both `product` and `quantity` are truthy. */
  predicate HasProductPair(req: Value)
  {
    Truthy(GetOr(req, "product", Null)) && Truthy(GetOr(req, "quantity", Null))
  }

  /** The one-entry mapping built from the flat `product` + `quantity` pair. */
  function PairCandidate(req: Value, rt: Runtime): (items: Value)
    ensures items.Obj? && KeyCount(items) == 1
  {
    var product := GetOr(req, "product", Null);
    var qty := ToNumber(GetOr(req, "quantity", Null), rt.stringToNumber);
    Obj([(KeyOf(product, rt), Obj([("name", product), ("qty", NumV(qty))]))])
  }

  /** The `products` field: parsed when a string, the raw string when it does not parse. */
  function ProductsCandidate(req: Value, rt: Runtime): Value
  {
    var f := GetOr(req, "products", Null);
    if f.Str? then (var p := rt.parseJson(f.s); if p.Some? then p.value else f)
    else f
  }

  /** The candidates in the order the fallbacks consult them. */
  function Candidates(req: Value, rt: Runtime): (cs: seq<Value>)
    ensures |cs| >= 1 && cs[0] == ItemsCandidate(req, rt)
  {
    [ItemsCandidate(req, rt)]
    + (if HasProductPair(req) then [PairCandidate(req, rt)] else [])
    + (if Truthy(GetOr(req, "products", Null)) then [ProductsCandidate(req, rt)] else [])
  }

  /** The first candidate that holds items. */
  function FirstWithItems(cs: seq<Value>): (r: Option<Value>)
    ensures r.Some? ==> r.value in cs && !NoItems(r.value)
    ensures r.Some? ==> exists i :: 0 <= i < |cs| && cs[i] == r.value && forall j :: 0 <= j < i ==> NoItems(cs[j])
    ensures r.None? ==> forall i :: 0 <= i < |cs| ==> NoItems(cs[i])
  {
    if cs == [] then None
    else if !NoItems(cs[0]) then Some(cs[0])
    else
      var r := FirstWithItems(cs[1..]);
      if r.Some? then
        var i :| 0 <= i < |cs[1..]| && cs[1..][i] == r.value && forall j :: 0 <= j < i ==> NoItems(cs[1..][j]);
        assert cs[i + 1] == r.value && forall j :: 0 <= j < i + 1 ==> NoItems(cs[j]);
        r
      else r
  }

  /** Whichever candidate is the first to hold items is the one chosen. */
  lemma {:induction false} FirstWithItemsIsFirst(cs: seq<Value>, i: nat)
    requires i < |cs| && !NoItems(cs[i])
    requires forall j :: 0 <= j < i ==> NoItems(cs[j])
    ensures FirstWithItems(cs) == Some(cs[i])
  {
    if i > 0 {
      FirstWithItemsIsFirst(cs[1..], i - 1);
    }
  }

  /**
    The canonical items mapping of a request: the first candidate that holds
    items, provided it is an object; otherwise approval fails.
   */
  function CanonicalItems(req: Value, rt: Runtime): (r: Result<Value, ApprovalError>)
    ensures r.Ok? ==> IsObject(r.value) && KeyCount(r.value) > 0
    ensures r.Err? ==> r.error == NoItemsFound
  {
    var first := FirstWithItems(Candidates(req, rt));
    if first.Some? && IsObject(first.value) then Ok(first.value) else Err(NoItemsFound)
  }

  /**
    The ordered fallbacks as the service runs them: `items` is reassigned by
    each fallback that applies, then checked once at the end.
   */
  method NormalizeItems(req: Value, rt: Runtime) returns (r: Result<Value, ApprovalError>)
    ensures r == CanonicalItems(req, rt)
  {
    var items := Null;
    var field := GetOr(req, "items", Null);
    if Truthy(field) {
      if field.Str? {
        var parsed := rt.parseJson(field.s);
        items := if parsed.Some? then parsed.value else Null;
      } else if IsObject(field) {
        items := field;
      }
    }
    assert items == ItemsCandidate(req, rt);
    ghost var fromItems := items;

    if NoItems(items) && HasProductPair(req) {
      items := PairCandidate(req, rt);
    }
    ghost var afterPair := items;

    var products := GetOr(req, "products", Null);
    if NoItems(items) && Truthy(products) {
      if products.Str? {
        var parsed := rt.parseJson(products.s);
        items := if parsed.Some? then parsed.value else products;
      } else {
        items := products;
      }
    }

    if !Truthy(items) || !IsObject(items) || KeyCount(items) == 0 {
      r := Err(NoItemsFound);
    } else {
      r := Ok(items);
    }

    // The reassignments pick the first candidate holding items.
    var cs := Candidates(req, rt);
    if !NoItems(fromItems) {
      assert FirstWithItems(cs) == Some(fromItems);
    } else if HasProductPair(req) {
      assert cs[1] == afterPair;
      assert FirstWithItems(cs) == FirstWithItems(cs[1..]);
    } else {
      assert FirstWithItems(cs) == FirstWithItems(cs[1..]);
      if Truthy(products) {
        assert cs[1..] == [ProductsCandidate(req, rt)];
      } else {
        assert cs[1..] == [];
      }
    }
  }

  lemma ItemsObjectIsUsedAsIs(req: Value, rt: Runtime)
    requires var f := GetOr(req, "items", Null); IsObject(f) && KeyCount(f) > 0
    ensures CanonicalItems(req, rt) == Ok(GetOr(req, "items", Null))
  {
  }

  /** A string `items` that parses to a non-empty object is the mapping. */
  lemma ParsedItemsStringIsUsed(req: Value, rt: Runtime)
    requires var f := GetOr(req, "items", Null);
      f.Str? && rt.parseJson(f.s).Some? && IsObject(rt.parseJson(f.s).value) && KeyCount(rt.parseJson(f.s).value) > 0
    ensures CanonicalItems(req, rt) == Ok(rt.parseJson(GetOr(req, "items", Null).s).value)
  {
  }

  /**
    A string `items` that does not parse counts as no items: the request is
    normalised exactly as if it had no `items` field.
   */
  lemma UnparseableItemsFallsThrough(req: Value, rt: Runtime)
    requires var f := GetOr(req, "items", Null); f.Str? && rt.parseJson(f.s).None?
    ensures CanonicalItems(req, rt) == CanonicalItems(Set(req, "items", Null), rt)
  {
    var req' := Set(req, "items", Null);
    assert GetOr(req', "product", Null) == GetOr(req, "product", Null);
    assert GetOr(req', "quantity", Null) == GetOr(req, "quantity", Null);
    assert GetOr(req', "products", Null) == GetOr(req, "products", Null);
    assert ItemsCandidate(req', rt) == Null == ItemsCandidate(req, rt);
    assert Candidates(req', rt) == Candidates(req, rt);
  }

  /**
    Without items, a truthy `product` + `quantity` pair gives exactly one
    entry, keyed by the product, whose `qty` is `Number(quantity)`.
   */
  lemma ProductPairGivesOneEntry(req: Value, rt: Runtime)
    requires NoItems(ItemsCandidate(req, rt)) && HasProductPair(req)
    ensures var r := CanonicalItems(req, rt);
      && r.Ok? && r.value.Obj? && |r.value.fields| == 1
      && r.value.fields[0].0 == KeyOf(GetOr(req, "product", Null), rt)
      && Get(r.value.fields[0].1, "name") == Some(GetOr(req, "product", Null))
      && Get(r.value.fields[0].1, "qty") == Some(NumV(ToNumber(GetOr(req, "quantity", Null), rt.stringToNumber)))
  {
    var cs := Candidates(req, rt);
    assert cs[1] == PairCandidate(req, rt);
    assert !NoItems(cs[1]);
    assert FirstWithItems(cs) == FirstWithItems(cs[1..]) == Some(cs[1]);
    LookupAt(cs[1].fields[0].1.fields, 1);
  }

  /** The pair is used only when no candidate before it holds items and both fields are truthy. */
  lemma PairUsedOnlyAsFallback(req: Value, rt: Runtime)
    requires CanonicalItems(req, rt) == Ok(PairCandidate(req, rt))
    requires PairCandidate(req, rt) != ItemsCandidate(req, rt)
    requires PairCandidate(req, rt) != ProductsCandidate(req, rt)
    ensures NoItems(ItemsCandidate(req, rt)) && HasProductPair(req)
  {
    var cs := Candidates(req, rt);
    if !NoItems(cs[0]) {
      assert false;
    }
  }

  /**
    `products` is used only as the last resort: when `items` held nothing
    and there is no product pair.
   */
  lemma ProductsUsedOnlyAsLastResort(req: Value, rt: Runtime)
    requires CanonicalItems(req, rt) == Ok(ProductsCandidate(req, rt))
    requires ProductsCandidate(req, rt) != ItemsCandidate(req, rt)
    requires ProductsCandidate(req, rt) != PairCandidate(req, rt)
    ensures NoItems(ItemsCandidate(req, rt)) && !HasProductPair(req)
  {
    var cs := Candidates(req, rt);
    if NoItems(cs[0]) && HasProductPair(req) {
      FirstWithItemsIsFirst(cs, 1);
    }
  }

  /**
    `products` is consulted only when neither `items` nor the pair gave
    items; a `products` string that does not parse stays a string and
    approval fails.
   */
  lemma UnparseableProductsFails(req: Value, rt: Runtime)
    requires NoItems(ItemsCandidate(req, rt)) && !HasProductPair(req)
    requires var f := GetOr(req, "products", Null); f.Str? && f.s != "" && rt.parseJson(f.s).None?
    ensures CanonicalItems(req, rt) == Err(NoItemsFound)
  {
    var cs := Candidates(req, rt);
    assert cs == [cs[0], GetOr(req, "products", Null)];
    assert FirstWithItems(cs) == FirstWithItems(cs[1..]);
  }

  /** A request with none of `items`, `product`/`quantity` or `products` cannot be approved. */
  lemma NoSourceFails(req: Value, rt: Runtime)
    requires !Truthy(GetOr(req, "items", Null)) && !HasProductPair(req)
    requires !Truthy(GetOr(req, "products", Null))
    ensures CanonicalItems(req, rt) == Err(NoItemsFound)
  {
    assert Candidates(req, rt) == [Null];
  }

  // ----- total quantity -----

  /**
    The quantity of one item: `qty` if present and not null, else
    `quantity`, else the item itself when it is a number, else 0. Reading a
    property of a null item throws.
   */
  function ItemQuantity(item: Value, rt: Runtime): (r: Result<Number, ApprovalError>)
    ensures r.Err? <==> item.Null?
  {
    var qty := Get(item, "qty");
    var quantity := Get(item, "quantity");
    if item.Null? then Err(ItemIsNull)
    else if qty.Some? && !qty.value.Null? then Ok(ToNumber(qty.value, rt.stringToNumber))
    else if quantity.Some? && !quantity.value.Null? then Ok(ToNumber(quantity.value, rt.stringToNumber))
    else if item.NumV? then Ok(item.n)
    else Ok(Num(0.0))
  }

  predicate QuantityIsNaN(item: Value, rt: Runtime)
  {
    var q := ItemQuantity(item, rt); q.Ok? && q.value.NaN?
  }

  /** `itemsArray.reduce((sum, item) => sum + qty(item), 0)`. */
  function SumQuantities(items: seq<Value>, rt: Runtime): (r: Result<Number, ApprovalError>)
    ensures r.Err? <==> exists i :: 0 <= i < |items| && items[i].Null?
    ensures r.Ok? ==> (r.value.NaN? <==> exists i :: 0 <= i < |items| && QuantityIsNaN(items[i], rt))
  {
    if items == [] then Ok(Num(0.0))
    else
      var init := items[..|items| - 1];
      var last := items[|items| - 1];
      assert forall i :: 0 <= i < |init| ==> init[i] == items[i];
      var s := SumQuantities(init, rt);
      var q := ItemQuantity(last, rt);
      if s.Err? then Err(s.error)
      else if q.Err? then Err(q.error)
      else Ok(Add(s.value, q.value))
  }

  /** The sum of the finite item quantities, added from the last item down. */
  function FiniteTotal(items: seq<Value>, rt: Runtime): real
  {
    if items == [] then 0.0
    else
      var q := ItemQuantity(items[0], rt);
      (if q.Ok? && q.value.Num? then q.value.value else 0.0) + FiniteTotal(items[1..], rt)
  }

  /** The stored `totalQuantity`: `Number(total) || 0`. */
  function StoredTotal(items: seq<Value>, rt: Runtime): real
    requires SumQuantities(items, rt).Ok?
  {
    OrZero(SumQuantities(items, rt).value)
  }

  lemma {:induction false} FiniteTotalSnoc(items: seq<Value>, rt: Runtime)
    requires items != []
    ensures var q := ItemQuantity(items[|items| - 1], rt);
      FiniteTotal(items, rt)
      == FiniteTotal(items[..|items| - 1], rt) + (if q.Ok? && q.value.Num? then q.value.value else 0.0)
  {
    if |items| > 1 {
      var tail := items[1..];
      assert tail[..|tail| - 1] == items[..|items| - 1][1..];
      assert tail[|tail| - 1] == items[|items| - 1];
      FiniteTotalSnoc(tail, rt);
    }
  }

  /** Without NaN quantities the stored total is the sum of the item quantities. */
  lemma {:induction false} StoredTotalIsSum(items: seq<Value>, rt: Runtime)
    requires SumQuantities(items, rt).Ok?
    requires forall i :: 0 <= i < |items| ==> !QuantityIsNaN(items[i], rt)
    ensures SumQuantities(items, rt).value == Num(FiniteTotal(items, rt))
    ensures StoredTotal(items, rt) == FiniteTotal(items, rt)
  {
    if items != [] {
      var init := items[..|items| - 1];
      assert forall i :: 0 <= i < |init| ==> init[i] == items[i];
      StoredTotalIsSum(init, rt);
      FiniteTotalSnoc(items, rt);
    }
  }

  /** One NaN quantity makes the whole stored total 0, not only that item's share. */
  lemma NaNQuantityZeroesTotal(items: seq<Value>, rt: Runtime, k: nat)
    requires SumQuantities(items, rt).Ok?
    requires k < |items| && QuantityIsNaN(items[k], rt)
    ensures StoredTotal(items, rt) == 0.0
  {
  }

  // ----- records and writes -----

  /** The approver data the caller passes; an empty string stands for a missing field. */
  datatype Approver = Approver(approvedBy: string, approverName: string, approverRole: string)

  /** A record of `salesApprovalHistory`. `kind` is the record's `type` field. */
  datatype HistoryRecord = HistoryRecord(
    requestId: string, approvedAt: int, items: Value,
    requesterId: Value, requesterName: Value, requesterRole: string, requestType: string,
    priority: Value, notes: Value, status: string,
    approvedBy: string, approverName: string, approverRole: string,
    totalQuantity: real, kind: string, isDispatched: bool, isCompletedByFG: bool,
    shopName: Value)

  /** A record of `notifications/{uid}`; `requestId` holds the history record's key. */
  datatype Notification = Notification(
    kind: string, requestId: nat, requesterName: Value, requesterRole: string,
    totalItems: nat, totalQuantity: real, priority: Value, status: string, createdAt: int)

  /** One write issued to the database. */
  datatype Write =
    | HistoryWrite(key: nat, record: HistoryRecord)
    | RequestUpdate(requestId: string, fields: seq<(string, Value)>)
    | NotificationWrite(uid: string, key: nat, note: Notification)

  /** `approverData.approvedBy || currentUser?.uid || ''`; `currentUid` is "" without a user. */
  function ApprovedBy(approver: Approver, currentUid: string): string
  {
    if approver.approvedBy != "" then approver.approvedBy else currentUid
  }

  /** The paths written under `drreqs/{id}` on approval. */
  function ApprovalFields(approver: Approver, currentUid: string, now: int): seq<(string, Value)>
  {
    [ ("status", Str("Approved")),
      ("updatedAt", NumV(Num(now as real))),
      ("approvedAt", NumV(Num(now as real))),
      ("approvedBy", Str(ApprovedBy(approver, currentUid))),
      ("approverName", Str(approver.approverName)),
      ("approverRole", Str(approver.approverRole)) ]
  }

  /** The paths written under `drreqs/{id}` on rejection. */
  function RejectionFields(reason: string, currentUid: string, now: int): seq<(string, Value)>
  {
    [ ("status", Str("Rejected")),
      ("updatedAt", NumV(Num(now as real))),
      ("rejectedAt", NumV(Num(now as real))),
      ("rejectedBy", Str(currentUid)),
      ("rejectionReason", Str(if reason != "" then reason else "Request rejected")) ]
  }

  function HistoryFor(requestId: string, req: Value, items: Value, total: real,
                      approver: Approver, currentUid: string, now: int): HistoryRecord
  {
    HistoryRecord(
      requestId, now, items,
      GetOr(req, "requestedBy", Str("")),
      GetOr(req, "requestedByName", Str("Direct Representative")),
      "DirectRepresentative", "direct_representative",
      GetOr(req, "priority", Str("normal")),
      GetOr(req, "notes", Str("")),
      "Approved",
      ApprovedBy(approver, currentUid), approver.approverName, approver.approverRole,
      total, "direct_rep_sale", false, false,
      GetOr(req, "shopName", GetOr(req, "requestedByName", Str("Direct Representative"))))
  }

  /**
    What approving `req` needs: its canonical items mapping and the stored
    total of their quantities, or the reason approval stops.
   */
  function ApprovedItems(req: Value, rt: Runtime): (r: Result<(Value, real), ApprovalError>)
    ensures r.Ok? <==> CanonicalItems(req, rt).Ok? && SumQuantities(Values(CanonicalItems(req, rt).value), rt).Ok?
    ensures r.Ok? ==> r.value.0 == CanonicalItems(req, rt).value
                      && r.value.1 == StoredTotal(Values(r.value.0), rt)
    ensures CanonicalItems(req, rt).Err? ==> r == Err(NoItemsFound)
    ensures CanonicalItems(req, rt).Ok? && r.Err? ==> r == Err(ItemIsNull)
  {
    match CanonicalItems(req, rt)
    case Err(e) => Err(e)
    case Ok(items) =>
      if SumQuantities(Values(items), rt).Err? then Err(ItemIsNull)
      else Ok((items, StoredTotal(Values(items), rt)))
  }

  /** The history record an approval of `req` writes. */
  function ApprovalRecord(requestId: string, req: Value, approver: Approver, currentUid: string, now: int, rt: Runtime): HistoryRecord
    requires ApprovedItems(req, rt).Ok?
  {
    var (items, total) := ApprovedItems(req, rt).value;
    HistoryFor(requestId, req, items, total, approver, currentUid, now)
  }

  function NotificationFor(historyKey: nat, rec: HistoryRecord, now: int): Notification
  {
    Notification(
      "approved_sales_request", historyKey, rec.requesterName, "DirectRepresentative",
      KeyCount(if Truthy(rec.items) then rec.items else Obj([])),
      rec.totalQuantity,
      if Truthy(rec.priority) then rec.priority else Str("normal"),
      "unread", now)
  }

  predicate IsFgManager(user: Value)
  {
    Get(user, "role") == Some(Str("FinishedGoodsStoreManager"))
  }

  function FgCount(users: seq<(string, Value)>): nat
  {
    if users == [] then 0
    else FgCount(users[..|users| - 1]) + (if IsFgManager(users[|users| - 1].1) then 1 else 0)
  }

  /** The notification writes of the fan-out, keys drawn in order from `key`. */
  function FanOut(users: seq<(string, Value)>, key: nat, note: Notification): (ws: seq<Write>)
    ensures |ws| == FgCount(users)
  {
    if users == [] then []
    else
      var init := users[..|users| - 1];
      var (uid, user) := users[|users| - 1];
      FanOut(init, key, note)
      + (if IsFgManager(user) then [NotificationWrite(uid, key + FgCount(init), note)] else [])
  }

  /** How many writes of `ws` are notifications to `uid`. */
  function WritesTo(ws: seq<Write>, uid: string): nat
  {
    if ws == [] then 0
    else WritesTo(ws[..|ws| - 1], uid) + (if ws[|ws| - 1].NotificationWrite? && ws[|ws| - 1].uid == uid then 1 else 0)
  }

  lemma {:induction false} WritesToAppend(a: seq<Write>, b: seq<Write>, uid: string)
    ensures WritesTo(a + b, uid) == WritesTo(a, uid) + WritesTo(b, uid)
  {
    if b != [] {
      assert (a + b)[..|a + b| - 1] == a + b[..|b| - 1];
      WritesToAppend(a, b[..|b| - 1], uid);
    } else {
      assert a + b == a;
    }
  }

  predicate DistinctUids(users: seq<(string, Value)>)
  {
    forall i, j :: 0 <= i < j < |users| ==> users[i].0 != users[j].0
  }

  /** How many entries of `users` are FG Store managers with id `uid`. */
  function ManagerEntries(users: seq<(string, Value)>, uid: string): nat
  {
    if users == [] then 0
    else ManagerEntries(users[..|users| - 1], uid)
         + (if users[|users| - 1].0 == uid && IsFgManager(users[|users| - 1].1) then 1 else 0)
  }

  /** One step of the fan-out loop. */
  lemma FanOutStep(users: seq<(string, Value)>, i: nat, key: nat, note: Notification)
    requires i < |users|
    ensures FgCount(users[..i + 1]) == FgCount(users[..i]) + (if IsFgManager(users[i].1) then 1 else 0)
    ensures FanOut(users[..i + 1], key, note)
            == FanOut(users[..i], key, note)
               + (if IsFgManager(users[i].1) then [NotificationWrite(users[i].0, key + FgCount(users[..i]), note)] else [])
  {
    assert users[..i + 1][..i] == users[..i];
    assert users[..i + 1][i] == users[i];
  }

  /** The fan-out writes to `uid` once per FG Store manager entry with that id. */
  lemma {:induction false} FanOutWritesPerEntry(users: seq<(string, Value)>, key: nat, note: Notification, uid: string)
    ensures WritesTo(FanOut(users, key, note), uid) == ManagerEntries(users, uid)
  {
    if users != [] {
      var init := users[..|users| - 1];
      var (u, user) := users[|users| - 1];
      FanOutWritesPerEntry(init, key, note, uid);
      var tail := if IsFgManager(user) then [NotificationWrite(u, key + FgCount(init), note)] else [];
      WritesToAppend(FanOut(init, key, note), tail, uid);
      assert tail != [] ==> tail[..0] == [];
    }
  }

  lemma {:induction false} ManagerEntriesOfDistinct(users: seq<(string, Value)>, uid: string)
    requires DistinctUids(users)
    ensures ManagerEntries(users, uid)
            == (if exists i :: 0 <= i < |users| && users[i].0 == uid && IsFgManager(users[i].1) then 1 else 0)
  {
    if users != [] {
      var init := users[..|users| - 1];
      var last := users[|users| - 1];
      assert DistinctUids(init);
      ManagerEntriesOfDistinct(init, uid);
      if last.0 == uid {
        assert forall i :: 0 <= i < |init| ==> init[i].0 != uid;
      }
      if exists i :: 0 <= i < |users| && users[i].0 == uid && IsFgManager(users[i].1) {
        var i :| 0 <= i < |users| && users[i].0 == uid && IsFgManager(users[i].1);
        if i < |init| { assert init[i] == users[i]; }
      }
      if exists i :: 0 <= i < |init| && init[i].0 == uid && IsFgManager(init[i].1) {
        var i :| 0 <= i < |init| && init[i].0 == uid && IsFgManager(init[i].1);
        assert users[i] == init[i];
      }
    }
  }

  /** With distinct user ids, each FG Store manager gets exactly one notification and nobody else any. */
  lemma FanOutOnePerManager(users: seq<(string, Value)>, key: nat, note: Notification, uid: string)
    requires DistinctUids(users)
    ensures WritesTo(FanOut(users, key, note), uid)
            == (if exists i :: 0 <= i < |users| && users[i].0 == uid && IsFgManager(users[i].1) then 1 else 0)
  {
    FanOutWritesPerEntry(users, key, note, uid);
    ManagerEntriesOfDistinct(users, uid);
  }

  /** `notifications/{uid}` after the writes `ws`. */
  function Deliver(inbox: map<string, seq<(nat, Notification)>>, ws: seq<Write>): map<string, seq<(nat, Notification)>>
  {
    if ws == [] then inbox
    else
      var d := Deliver(inbox, ws[..|ws| - 1]);
      var w := ws[|ws| - 1];
      if w.NotificationWrite? then d[w.uid := (if w.uid in d then d[w.uid] else []) + [(w.key, w.note)]]
      else d
  }

  lemma DeliverStep(inbox: map<string, seq<(nat, Notification)>>, ws: seq<Write>, w: Write)
    requires w.NotificationWrite?
    ensures var d := Deliver(inbox, ws);
      Deliver(inbox, ws + [w]) == d[w.uid := (if w.uid in d then d[w.uid] else []) + [(w.key, w.note)]]
  {
    assert (ws + [w])[..|ws|] == ws;
  }

  /**
    The store the service reads and writes: `drreqs`, `salesApprovalHistory`,
    `users` (in `Object.entries` order) and `notifications`, plus the log of
    every write issued and the generator of push keys.
   */
  class RepStore {
    var requests: map<string, Value>
    var history: map<nat, HistoryRecord>
    var users: seq<(string, Value)>
    var notifications: map<string, seq<(nat, Notification)>>
    var writes: seq<Write>
    var nextKey: nat

    ghost predicate Valid()
      reads this
    {
      && DistinctUids(users)
      && (forall k :: k in history ==> k < nextKey)
    }

    constructor (requests: map<string, Value>, users: seq<(string, Value)>)
      requires DistinctUids(users)
      ensures Valid()
      ensures this.requests == requests && this.users == users
      ensures history == map[] && notifications == map[] && writes == [] && nextKey == 0
    {
      this.requests := requests;
      this.users := users;
      history := map[];
      notifications := map[];
      writes := [];
      nextKey := 0;
    }

    /** Pushes `note` to the inbox of `uid` under the next push key. */
    method Notify(uid: string, note: Notification)
      modifies this
      ensures var w := NotificationWrite(uid, old(nextKey), note);
        && writes == old(writes) + [w]
        && notifications == old(notifications)[uid := (if uid in old(notifications) then old(notifications)[uid] else []) + [(w.key, note)]]
      ensures nextKey == old(nextKey) + 1
      ensures requests == old(requests) && history == old(history) && users == old(users)
    {
      notifications := notifications[uid := (if uid in notifications then notifications[uid] else []) + [(nextKey, note)]];
      writes := writes + [NotificationWrite(uid, nextKey, note)];
      nextKey := nextKey + 1;
    }

    /** Pushes one notification to every FG Store manager, in user order. */
    method NotifyFgStore(historyKey: nat, rec: HistoryRecord, now: int)
      requires Valid()
      modifies this
      ensures Valid()
      ensures var note := NotificationFor(historyKey, rec, now);
        && writes == old(writes) + FanOut(users, old(nextKey), note)
        && notifications == Deliver(old(notifications), FanOut(users, old(nextKey), note))
      ensures nextKey == old(nextKey) + FgCount(users)
      ensures requests == old(requests) && history == old(history) && users == old(users)
    {
      var note := NotificationFor(historyKey, rec, now);
      ghost var ws0 := writes;
      ghost var inbox0 := notifications;
      ghost var key0 := nextKey;
      ghost var fan: seq<Write> := [];
      var i := 0;
      while i < |users|
        invariant 0 <= i <= |users|
        invariant fan == FanOut(users[..i], key0, note)
        invariant writes == ws0 + fan
        invariant notifications == Deliver(inbox0, fan)
        invariant nextKey == key0 + FgCount(users[..i])
        invariant requests == old(requests) && history == old(history) && users == old(users)
      {
        FanOutStep(users, i, key0, note);
        if IsFgManager(users[i].1) {
          ghost var w := NotificationWrite(users[i].0, nextKey, note);
          DeliverStep(inbox0, fan, w);
          Notify(users[i].0, note);
          assert writes == ws0 + (fan + [w]);
          fan := fan + [w];
        }
        i := i + 1;
      }
      assert users[..i] == users;
    }

    /**
      The log and the inboxes after an approval with history key `key`:
      the history push, the request update, then one notification per FG
      Store manager, keyed from `key + 1`.
     */
    ghost predicate Logged(log0: seq<Write>, inbox0: map<string, seq<(nat, Notification)>>, requestId: string,
                           fields: seq<(string, Value)>, key: nat, rec: HistoryRecord, now: int)
      reads this
    {
      var fan := FanOut(users, key + 1, NotificationFor(key, rec, now));
      && writes == log0 + [HistoryWrite(key, rec), RequestUpdate(requestId, fields)] + fan
      && notifications == Deliver(inbox0, fan)
    }

    /**
      The writes of a successful approval: push the history record, update
      the request, then notify the FG Store managers.
     */
    method RecordApproval(requestId: string, updated: Value, fields: seq<(string, Value)>, rec: HistoryRecord, now: int)
      returns (key: nat)
      requires Valid()
      modifies this
      ensures Valid()
      ensures key == old(nextKey)
      ensures history == old(history)[key := rec]
      ensures requests == old(requests)[requestId := updated]
      ensures Logged(old(writes), old(notifications), requestId, fields, key, rec, now)
      ensures users == old(users)
    {
      key := nextKey;
      nextKey := nextKey + 1;
      history := history[key := rec];
      writes := writes + [HistoryWrite(key, rec)];

      requests := requests[requestId := updated];
      writes := writes + [RequestUpdate(requestId, fields)];

      NotifyFgStore(key, rec, now);
    }

    /** Approves request `requestId`; returns the key of the new history record. */
    method Approve(requestId: string, approver: Approver, currentUid: string, now: int, rt: Runtime)
      returns (r: Result<nat, ApprovalError>)
      requires Valid()
      modifies this
      ensures Valid()
      ensures r == (if requestId !in old(requests) then Err(RequestNotFound)
                    else match ApprovedItems(old(requests)[requestId], rt)
                         case Err(e) => Err(e)
                         case Ok(_) => Ok(old(nextKey)))
      ensures r.Err? ==> unchanged(this)
      ensures r.Ok? ==> requestId in old(requests) && ApprovedItems(old(requests)[requestId], rt).Ok?
      ensures r.Ok? ==>
        && r.value in history
        && history == old(history)[r.value := ApprovalRecord(requestId, old(requests)[requestId], approver, currentUid, now, rt)]
      ensures r.Ok? ==>
        requests == old(requests)[requestId := SetAll(old(requests)[requestId], ApprovalFields(approver, currentUid, now))]
      ensures r.Ok? ==>
        Logged(old(writes), old(notifications), requestId, ApprovalFields(approver, currentUid, now),
               r.value, history[r.value], now)
    {
      if requestId !in requests {
        return Err(RequestNotFound);
      }
      var req := requests[requestId];
      var normalized := NormalizeItems(req, rt);
      if normalized.Err? {
        return Err(NoItemsFound);
      }
      var items := normalized.value;

      var fields := ApprovalFields(approver, currentUid, now);

      var sum := SumQuantities(Values(items), rt);
      if sum.Err? {
        return Err(ItemIsNull);
      }
      var total := OrZero(sum.value);
      var rec := HistoryFor(requestId, req, items, total, approver, currentUid, now);
      assert rec == ApprovalRecord(requestId, req, approver, currentUid, now, rt);

      var key := RecordApproval(requestId, SetAll(req, fields), fields, rec, now);
      r := Ok(key);
    }

    /** Rejects request `requestId`; the paths are written whether or not the request exists. */
    method Reject(requestId: string, reason: string, currentUid: string, now: int)
      requires Valid()
      modifies this
      ensures Valid()
      ensures var fields := RejectionFields(reason, currentUid, now);
        && requests == old(requests)[requestId := SetAll(if requestId in old(requests) then old(requests)[requestId] else Null, fields)]
        && writes == old(writes) + [RequestUpdate(requestId, fields)]
      ensures history == old(history) && notifications == old(notifications)
      ensures users == old(users) && nextKey == old(nextKey)
    {
      var fields := RejectionFields(reason, currentUid, now);
      var current := if requestId in requests then requests[requestId] else Null;
      requests := requests[requestId := SetAll(current, fields)];
      writes := writes + [RequestUpdate(requestId, fields)];
    }
  }

  // ----- what the writes leave in the request -----

  /** An approved request carries status 'Approved' and the approver audit fields; other fields are kept. */
  lemma ApprovedRequestFields(req: Value, approver: Approver, currentUid: string, now: int, k: string)
    ensures var after := SetAll(req, ApprovalFields(approver, currentUid, now));
      && Get(after, "status") == Some(Str("Approved"))
      && Get(after, "approvedAt") == Some(NumV(Num(now as real)))
      && Get(after, "updatedAt") == Some(NumV(Num(now as real)))
      && Get(after, "approvedBy") == Some(Str(ApprovedBy(approver, currentUid)))
      && Get(after, "approverName") == Some(Str(approver.approverName))
      && Get(after, "approverRole") == Some(Str(approver.approverRole))
      && (k !in {"status", "updatedAt", "approvedAt", "approvedBy", "approverName", "approverRole"} ==>
            Get(after, k) == Get(req, k))
  {
    var ws := ApprovalFields(approver, currentUid, now);
    assert DistinctKeys(ws);
    forall i | 0 <= i < |ws|
      ensures Get(SetAll(req, ws), ws[i].0) == Some(ws[i].1)
    {
      GetSetAll(req, ws, ws[i].0);
      LookupAt(ws, i);
    }
    assert ws[0].0 == "status" && ws[1].0 == "updatedAt" && ws[2].0 == "approvedAt";
    assert ws[3].0 == "approvedBy" && ws[4].0 == "approverName" && ws[5].0 == "approverRole";
    GetSetAll(req, ws, k);
    if k !in {"status", "updatedAt", "approvedAt", "approvedBy", "approverName", "approverRole"} {
      LookupAbsent(ws, k);
    }
  }

  /**
    A rejected request carries status 'Rejected', the rejecting user and a
    reason that defaults to 'Request rejected'; other fields are kept.
   */
  lemma RejectedRequestFields(req: Value, reason: string, currentUid: string, now: int, k: string)
    ensures var after := SetAll(req, RejectionFields(reason, currentUid, now));
      && Get(after, "status") == Some(Str("Rejected"))
      && Get(after, "rejectedBy") == Some(Str(currentUid))
      && Get(after, "rejectionReason") == Some(Str(if reason == "" then "Request rejected" else reason))
      && (k !in {"status", "updatedAt", "rejectedAt", "rejectedBy", "rejectionReason"} ==>
            Get(after, k) == Get(req, k))
  {
    var ws := RejectionFields(reason, currentUid, now);
    assert DistinctKeys(ws);
    forall i | 0 <= i < |ws|
      ensures Get(SetAll(req, ws), ws[i].0) == Some(ws[i].1)
    {
      GetSetAll(req, ws, ws[i].0);
      LookupAt(ws, i);
    }
    assert ws[0].0 == "status" && ws[3].0 == "rejectedBy" && ws[4].0 == "rejectionReason";
    GetSetAll(req, ws, k);
    if k !in {"status", "updatedAt", "rejectedAt", "rejectedBy", "rejectionReason"} {
      LookupAbsent(ws, k);
    }
  }

  /** The approval history record: status, type tag, dispatch flags and the same items mapping. */
  lemma HistoryRecordShape(requestId: string, req: Value, rt: Runtime, approver: Approver, currentUid: string, now: int)
    requires CanonicalItems(req, rt).Ok?
    requires SumQuantities(Values(CanonicalItems(req, rt).value), rt).Ok?
    ensures var items := CanonicalItems(req, rt).value;
      var rec := HistoryFor(requestId, req, items, StoredTotal(Values(items), rt), approver, currentUid, now);
      && rec.status == "Approved" && rec.kind == "direct_rep_sale"
      && !rec.isDispatched && !rec.isCompletedByFG
      && rec.items == items && rec.requestId == requestId
      && (rec.totalQuantity != 0.0 ==> !exists i :: 0 <= i < |Values(items)| && QuantityIsNaN(Values(items)[i], rt))
  {
  }

  // ----- listing -----

  /** The defaults the listing applies over each stored request. */
  function ListingDefaults(data: Value): seq<(string, Value)>
  {
    [ ("requestType", Str("direct_representative")),
      ("items", GetOr(data, "items", Obj([]))),
      ("priority", GetOr(data, "priority", Str("normal"))),
      ("requestedByRole", GetOr(data, "requestedByRole", Str("DirectRepresentative"))) ]
  }

  /** `{ id, ...data, requestType, items, priority, requestedByRole }`. */
  function ListedRequest(id: string, data: Value): Value
  {
    var spread := SetAll(Obj([("id", Str(id))]), if data.Obj? then data.fields else []);
    SetAll(spread, ListingDefaults(data))
  }

  /**
    The listing of `drreqs`, one entry per stored request in the order the
    database returns them, each tagged with its id and given defaults.
   */
  function ListRequests(entries: seq<(string, Value)>): (r: seq<Value>)
    ensures |r| == |entries|
    ensures forall i :: 0 <= i < |entries| ==> r[i] == ListedRequest(entries[i].0, entries[i].1)
  {
    seq(|entries|, i requires 0 <= i < |entries| => ListedRequest(entries[i].0, entries[i].1))
  }

  /**
    A listed request has the type tag, never-empty items/priority/role
    defaults, and every other field of the stored object (or its id).
   */
  lemma ListedRequestFields(id: string, data: Value, k: string)
    requires data.Obj? && DistinctKeys(data.fields)
    ensures var r := ListedRequest(id, data);
      && Get(r, "requestType") == Some(Str("direct_representative"))
      && Get(r, "items") == Some(if Truthy(GetOr(data, "items", Null)) then GetOr(data, "items", Null) else Obj([]))
      && Get(r, "priority") == Some(GetOr(data, "priority", Str("normal")))
      && Get(r, "requestedByRole") == Some(GetOr(data, "requestedByRole", Str("DirectRepresentative")))
      && Truthy(Get(r, "priority").value) && Truthy(Get(r, "requestedByRole").value)
      && (k !in {"requestType", "items", "priority", "requestedByRole"} ==>
            Get(r, k) == if Get(data, k).Some? then Get(data, k) else if k == "id" then Some(Str(id)) else None)
  {
    var ds := ListingDefaults(data);
    assert DistinctKeys(ds);
    var spread := SetAll(Obj([("id", Str(id))]), data.fields);
    forall key | true
      ensures Get(ListedRequest(id, data), key) == if Lookup(ds, key).Some? then Lookup(ds, key) else Get(spread, key)
    {
      GetSetAll(spread, ds, key);
    }
    LookupAt(ds, 0);
    LookupAt(ds, 1);
    LookupAt(ds, 2);
    LookupAt(ds, 3);
    GetSetAll(Obj([("id", Str(id))]), data.fields, k);
    assert Lookup([("id", Str(id))], k) == if k == "id" then Some(Str(id)) else Lookup([], k);
    if k !in {"requestType", "items", "priority", "requestedByRole"} {
      LookupAbsent(ds, k);
    }
    assert GetOr(data, "items", Obj([])) == (if Truthy(GetOr(data, "items", Null)) then GetOr(data, "items", Null) else Obj([]));
  }
}
