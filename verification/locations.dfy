/**
  The storage-location overview of the finished-goods store: every stock
  item is attributed to the first location whose code is the item's
  location, each location's utilisation is its item count as a rounded
  percentage of its capacity, and the page sums these up.
 */
module Locations {
  import opened Js
  import opened Stock

  /** A stored location: its key, its code and its capacity (0 when none is set). */
  datatype Place = Place(id: string, code: string, capacity: nat)

  /** A location on the page: the stored location and the fields the page derives. */
  datatype Loc = Loc(place: Place, items: seq<StockItem>, itemCount: nat, utilization: nat)

  function CodesOf(locs: seq<Loc>): (r: seq<string>)
    ensures |r| == |locs|
    ensures forall j :: 0 <= j < |locs| ==> r[j] == locs[j].place.code
  {
    seq(|locs|, j requires 0 <= j < |locs| => locs[j].place.code)
  }

  /** `locationsList.find(l => l.code === code)`, as an index. */
  function FirstWithCode(codes: seq<string>, code: string): (r: Option<nat>)
    ensures r.Some? ==> r.value < |codes| && codes[r.value] == code
    ensures r.Some? ==> forall j :: 0 <= j < r.value ==> codes[j] != code
    ensures r.None? <==> forall j :: 0 <= j < |codes| ==> codes[j] != code
  {
    if codes == [] then None
    else if codes[0] == code then Some(0)
    else
      var r := FirstWithCode(codes[1..], code);
      if r.Some? then Some(r.value + 1) else None
  }

  /** The items attributed to location `j`, in inventory order. */
  function AttributedTo(codes: seq<string>, items: seq<StockItem>, j: nat): (r: seq<StockItem>)
    ensures |r| <= |items|
  {
    if items == [] then []
    else
      var last := items[|items| - 1];
      AttributedTo(codes, items[..|items| - 1], j)
      + (if FirstWithCode(codes, last.location) == Some(j) then [last] else [])
  }

  /** Every item attributed to location `j` has `j` as the first location with its code. */
  lemma {:induction false} AttributedMatch(codes: seq<string>, items: seq<StockItem>, j: nat, x: StockItem)
    requires x in AttributedTo(codes, items, j)
    ensures x in items && FirstWithCode(codes, x.location) == Some(j)
  {
    if items != [] {
      var init := items[..|items| - 1];
      if x in AttributedTo(codes, init, j) {
        AttributedMatch(codes, init, j, x);
      }
    }
  }

  /** No item is attributed to two locations. */
  lemma AttributedOnce(codes: seq<string>, items: seq<StockItem>, j1: nat, j2: nat, x: StockItem)
    requires x in AttributedTo(codes, items, j1) && x in AttributedTo(codes, items, j2)
    ensures j1 == j2
  {
    AttributedMatch(codes, items, j1, x);
    AttributedMatch(codes, items, j2, x);
  }

  /** The items attributed to some location. */
  function Matched(codes: seq<string>, items: seq<StockItem>): (r: seq<StockItem>)
    ensures |r| <= |items|
  {
    if items == [] then []
    else
      var last := items[|items| - 1];
      Matched(codes, items[..|items| - 1])
      + (if FirstWithCode(codes, last.location).Some? then [last] else [])
  }

  /** `l` after gaining the items `a`. */
  function Gain(l: Loc, a: seq<StockItem>): Loc
  {
    l.(items := l.items + a, itemCount := l.itemCount + |a|)
  }

  /** Attributing one more item extends exactly the list of the location it goes to. */
  lemma AttributedSnoc(codes: seq<string>, items: seq<StockItem>, i: nat)
    requires i < |items|
    ensures forall j: nat :: (AttributedTo(codes, items[..i + 1], j) ==
      AttributedTo(codes, items[..i], j) + (if FirstWithCode(codes, items[i].location) == Some(j) then [items[i]] else []))
  {
    assert items[..i + 1][..i] == items[..i];
  }

  /** `locationsList.find(l => l.code === code)` over the locations. */
  method FindByCode(locs: array<Loc>, code: string) returns (k: Option<nat>)
    ensures k == FirstWithCode(CodesOf(locs[..]), code)
  {
    var i := 0;
    while i < locs.Length && locs[i].place.code != code
      invariant 0 <= i <= locs.Length
      invariant forall j :: 0 <= j < i ==> locs[j].place.code != code
    {
      i := i + 1;
    }
    ghost var codes := CodesOf(locs[..]);
    if i < locs.Length {
      assert codes[i] == code;
      k := Some(i);
    } else {
      k := None;
    }
  }

  lemma GainGain(l: Loc, a: seq<StockItem>, b: seq<StockItem>)
    ensures Gain(Gain(l, a), b) == Gain(l, a + b)
  {
    assert l.items + a + b == l.items + (a + b);
  }

  /** One step of the mapping: `item` goes to the first location with its code, if any. */
  method AttributeItem(locs: array<Loc>, item: StockItem)
    modifies locs
    ensures CodesOf(locs[..]) == CodesOf(old(locs[..]))
    ensures forall j :: 0 <= j < locs.Length ==>
      locs[j] == Gain(old(locs[j]), if FirstWithCode(CodesOf(old(locs[..])), item.location) == Some(j) then [item] else [])
  {
    var found := FindByCode(locs, item.location);
    if found.Some? {
      var k := found.value;
      locs[k] := Gain(locs[k], [item]);
    }
    assert CodesOf(locs[..]) == CodesOf(old(locs[..]));
  }

  /**
    The mapping step of `loadData`: each item goes to the first location
    with its code, which gains the item and one more in its count.
   */
  method Attribute(locs: array<Loc>, items: seq<StockItem>)
    modifies locs
    ensures forall j :: 0 <= j < locs.Length ==>
      locs[j] == Gain(old(locs[j]), AttributedTo(CodesOf(old(locs[..])), items, j))
  {
    ghost var codes := CodesOf(locs[..]);
    var i := 0;
    while i < |items|
      invariant 0 <= i <= |items|
      invariant CodesOf(locs[..]) == codes
      invariant forall j :: 0 <= j < locs.Length ==> locs[j] == Gain(old(locs[j]), AttributedTo(codes, items[..i], j))
    {
      AttributeItem(locs, items[i]);
      AttributedSnoc(codes, items, i);
      forall j | 0 <= j < locs.Length
        ensures locs[j] == Gain(old(locs[j]), AttributedTo(codes, items[..i + 1], j))
      {
        GainGain(old(locs[j]), AttributedTo(codes, items[..i], j),
                 if FirstWithCode(codes, items[i].location) == Some(j) then [items[i]] else []);
      }
      i := i + 1;
    }
    assert items[..i] == items;
  }

  /**
    `Math.round(itemCount / capacity * 100)` for a set capacity, else 100
    for a location holding items and 0 for an empty one.
   */
  function Utilization(count: nat, capacity: nat): (u: nat)
    ensures capacity > 0 ==> 2 * u * capacity <= 200 * count + capacity < 2 * (u + 1) * capacity
    ensures capacity == 0 ==> (u == 100 <==> count > 0) && (u == 0 <==> count == 0)
  {
    if capacity > 0 then (200 * count + capacity) / (2 * capacity)
    else if count > 0 then 100 else 0
  }

  /** Cancelling a positive factor from a strict inequality of products. */
  lemma MulLtCancel(x: int, y: int, d: int)
    requires d > 0 && x * d < y * d
    ensures x < y
  {
    if x >= y {
      MulLe(y, x, d);
    }
  }

  lemma MulLe(x: int, y: int, d: int)
    requires d >= 0 && x <= y
    ensures x * d <= y * d
  {
  }

  /** An empty location is at 0%; one at or over its capacity is at 100% or more. */
  lemma UtilizationBounds(count: nat, capacity: nat)
    ensures count == 0 ==> Utilization(count, capacity) == 0
    ensures (count > 0 && count >= capacity) ==> Utilization(count, capacity) >= 100
    ensures count <= capacity ==> Utilization(count, capacity) <= 100
  {
    if capacity > 0 {
      if count == 0 {
        MulLtCancel(Utilization(count, capacity), 1, 2 * capacity);
      }
      if count >= capacity {
        UtilizationFull(count, capacity);
      }
      if count <= capacity {
        UtilizationWithin(count, capacity);
      }
    }
  }

  lemma UtilizationFull(count: nat, capacity: nat)
    requires 0 < capacity <= count
    ensures Utilization(count, capacity) >= 100
  {
    MulLe(capacity, count, 200);
    MulLtCancel(99, Utilization(count, capacity), 2 * capacity);
  }

  lemma UtilizationWithin(count: nat, capacity: nat)
    requires 0 < capacity && count <= capacity
    ensures Utilization(count, capacity) <= 100
  {
    MulLe(count, capacity, 200);
    MulLtCancel(Utilization(count, capacity), 101, 2 * capacity);
  }

  /** More items never lower a location's utilisation. */
  lemma UtilizationMonotone(c1: nat, c2: nat, capacity: nat)
    requires c1 <= c2
    ensures Utilization(c1, capacity) <= Utilization(c2, capacity)
  {
    if capacity > 0 {
      var u1 := Utilization(c1, capacity);
      var u2 := Utilization(c2, capacity);
      MulLtCancel(u1, u2 + 1, 2 * capacity);
    }
  }

  /** The utilisation step of `loadData`, location by location. */
  method SetUtilization(locs: array<Loc>)
    modifies locs
    ensures forall j :: 0 <= j < locs.Length ==>
      locs[j] == old(locs[j]).(utilization := Utilization(old(locs[j]).itemCount, old(locs[j]).place.capacity))
  {
    var k := 0;
    while k < locs.Length
      invariant 0 <= k <= locs.Length
      invariant forall j :: 0 <= j < k ==>
        locs[j] == old(locs[j]).(utilization := Utilization(old(locs[j]).itemCount, old(locs[j]).place.capacity))
      invariant forall j :: k <= j < locs.Length ==> locs[j] == old(locs[j])
    {
      locs[k] := locs[k].(utilization := Utilization(locs[k].itemCount, locs[k].place.capacity));
      k := k + 1;
    }
  }

  /** The summary of the page. */
  datatype Stats = Stats(
    totalLocations: nat, totalCapacity: nat, usedCapacity: nat, utilization: nat,
    fullLocations: nat, emptyLocations: nat)

  function TotalCapacity(locs: seq<Loc>): nat
  {
    if locs == [] then 0 else TotalCapacity(locs[..|locs| - 1]) + locs[|locs| - 1].place.capacity
  }

  function UsedCapacity(locs: seq<Loc>): nat
  {
    if locs == [] then 0 else UsedCapacity(locs[..|locs| - 1]) + locs[|locs| - 1].itemCount
  }

  function FullCount(locs: seq<Loc>): (n: nat)
    ensures n <= |locs|
  {
    if locs == [] then 0 else FullCount(locs[..|locs| - 1]) + (if locs[|locs| - 1].utilization >= 100 then 1 else 0)
  }

  function EmptyCount(locs: seq<Loc>): (n: nat)
    ensures n <= |locs|
  {
    if locs == [] then 0 else EmptyCount(locs[..|locs| - 1]) + (if locs[|locs| - 1].itemCount == 0 then 1 else 0)
  }

  /** The stats of `loadData`; overall utilisation is 0 when no capacity is set anywhere. */
  function StatsOf(locs: seq<Loc>): (s: Stats)
    ensures s.totalLocations == |locs|
    ensures s.fullLocations <= |locs| && s.emptyLocations <= |locs|
    ensures s.totalCapacity == 0 ==> s.utilization == 0
  {
    var total := TotalCapacity(locs);
    var used := UsedCapacity(locs);
    Stats(|locs|, total, used, if total > 0 then Utilization(used, total) else 0, FullCount(locs), EmptyCount(locs))
  }

  /** A location's derived fields as `loadData` leaves them. */
  predicate Derived(l: Loc, codes: seq<string>, items: seq<StockItem>, j: nat)
  {
    && l.items == AttributedTo(codes, items, j)
    && l.itemCount == |l.items|
    && l.utilization == Utilization(l.itemCount, l.place.capacity)
  }

  /** A location is never both full and empty, so full and empty locations together are at most all of them. */
  lemma {:induction false} FullAndEmptyDisjoint(locs: seq<Loc>)
    requires forall j :: 0 <= j < |locs| ==> locs[j].utilization == Utilization(locs[j].itemCount, locs[j].place.capacity)
    ensures FullCount(locs) + EmptyCount(locs) <= |locs|
  {
    if locs != [] {
      var init := locs[..|locs| - 1];
      assert forall j :: 0 <= j < |init| ==> init[j] == locs[j];
      FullAndEmptyDisjoint(init);
      UtilizationBounds(locs[|locs| - 1].itemCount, locs[|locs| - 1].place.capacity);
    }
  }

  /** The item counts of locations `0 .. n-1`. */
  function CountBelow(codes: seq<string>, items: seq<StockItem>, n: nat): nat
  {
    if n == 0 then 0 else CountBelow(codes, items, n - 1) + |AttributedTo(codes, items, n - 1)|
  }

  /** One more item adds one to the counts below `n` exactly when it goes to a location below `n`. */
  lemma {:induction false} CountBelowSnoc(codes: seq<string>, items: seq<StockItem>, x: StockItem, n: nat)
    ensures var f := FirstWithCode(codes, x.location);
      CountBelow(codes, items + [x], n) == CountBelow(codes, items, n) + (if f.Some? && f.value < n then 1 else 0)
  {
    if n > 0 {
      AttributedAppendOne(codes, items, x, n - 1);
      CountBelowSnoc(codes, items, x, n - 1);
    }
  }

  lemma AttributedAppendOne(codes: seq<string>, items: seq<StockItem>, x: StockItem, j: nat)
    ensures AttributedTo(codes, items + [x], j)
            == AttributedTo(codes, items, j) + (if FirstWithCode(codes, x.location) == Some(j) then [x] else [])
  {
    assert (items + [x])[..|items|] == items;
  }

  /** Summed over all locations, the counts are the number of matched items. */
  lemma {:induction false} CountBelowAll(codes: seq<string>, items: seq<StockItem>)
    ensures CountBelow(codes, items, |codes|) == |Matched(codes, items)|
  {
    if items == [] {
      CountBelowEmpty(codes, |codes|);
    } else {
      var init := items[..|items| - 1];
      var x := items[|items| - 1];
      assert items == init + [x];
      CountBelowAll(codes, init);
      CountBelowSnoc(codes, init, x, |codes|);
    }
  }

  lemma {:induction false} CountBelowEmpty(codes: seq<string>, n: nat)
    ensures CountBelow(codes, [], n) == 0
  {
    if n > 0 {
      CountBelowEmpty(codes, n - 1);
    }
  }

  lemma {:induction false} UsedIsCountBelow(locs: seq<Loc>, codes: seq<string>, items: seq<StockItem>)
    requires forall j :: 0 <= j < |locs| ==> locs[j].itemCount == |AttributedTo(codes, items, j)|
    ensures UsedCapacity(locs) == CountBelow(codes, items, |locs|)
  {
    if locs != [] {
      var init := locs[..|locs| - 1];
      assert forall j :: 0 <= j < |init| ==> init[j] == locs[j];
      UsedIsCountBelow(init, codes, items);
    }
  }

  /**
    After `loadData`, the used capacity is the number of items attributed
    to some location, so never more than the combined inventory.
   */
  lemma UsedCapacityIsMatched(locs: seq<Loc>, items: seq<StockItem>)
    requires forall j :: 0 <= j < |locs| ==> Derived(locs[j], CodesOf(locs), items, j)
    ensures StatsOf(locs).usedCapacity == |Matched(CodesOf(locs), items)| <= |items|
  {
    UsedIsCountBelow(locs, CodesOf(locs), items);
    CountBelowAll(CodesOf(locs), items);
  }

  /**
    `loadData`: the locations with their attributed items, counts and
    utilisation, and the summary stats.
   */
  method LoadData(places: seq<Place>, bulk: seq<StockItem>, packaged: seq<StockItem>)
    returns (locs: array<Loc>, stats: Stats)
    ensures locs.Length == |places|
    ensures forall j :: 0 <= j < |places| ==> locs[j].place == places[j]
    ensures forall j :: 0 <= j < |places| ==> Derived(locs[j], CodesOf(locs[..]), Combine(bulk, packaged), j)
    ensures stats == StatsOf(locs[..])
    ensures stats.usedCapacity <= |bulk| + |packaged|
    ensures stats.fullLocations + stats.emptyLocations <= stats.totalLocations
  {
    locs := new Loc[|places|](j requires 0 <= j < |places| => Loc(places[j], [], 0, 0));
    ghost var codes := CodesOf(locs[..]);
    var items := Combine(bulk, packaged);
    Attribute(locs, items);
    assert CodesOf(locs[..]) == codes;
    SetUtilization(locs);
    assert CodesOf(locs[..]) == codes;
    stats := StatsOf(locs[..]);
    UsedCapacityIsMatched(locs[..], items);
    FullAndEmptyDisjoint(locs[..]);
  }

  datatype Colour = Red | Orange | Yellow | Green

  /** `getUtilizationColor`. */
  function UtilizationColour(percentage: int): (c: Colour)
    ensures c == Red <==> percentage >= 90
    ensures c == Orange <==> 75 <= percentage < 90
    ensures c == Yellow <==> 50 <= percentage < 75
    ensures c == Green <==> percentage < 50
  {
    if percentage >= 90 then Red
    else if percentage >= 75 then Orange
    else if percentage >= 50 then Yellow
    else Green
  }

  function Heat(c: Colour): nat
  {
    match c
    case Green => 0
    case Yellow => 1
    case Orange => 2
    case Red => 3
  }

  /** A higher percentage never shows a cooler colour. */
  lemma ColourMonotone(p1: int, p2: int)
    requires p1 <= p2
    ensures Heat(UtilizationColour(p1)) <= Heat(UtilizationColour(p2))
  {
  }
}
