/**
  The price history page of the finished-goods store: the product-id to
  name map built from the stock, production and pricing sources, the
  enrichment of history records that lack a product name, the sorted
  product list of the filter drop-down, the filtered view and its summary.

  The pricing service's `calculatePriceChange` is not part of this model:
  it is the parameter `priceChange`. The dates typed into the date filters
  are read by the parameter `dateOf`, the `getTime()` of `new Date(text)`,
  `None` for an invalid date.
 */
module PriceHistory {
  import opened Js

  /**
    One price-history record, with the fields the page reads. An absent
    text field is the empty string and an absent price or time is 0: the
    page reads them only through `|| ''` and `|| 0` or as truthy values.
   */
  datatype PriceRecord = PriceRecord(
    productId: string, productName: string, changeReason: string,
    changedByName: string, recordedByName: string,
    timestamp: int, recordedAt: int, previousPrice: real, newPrice: real)

  // ----- the product-id to name map -----

  /** A candidate `(productId, productName)` pair read from one of the sources. */
  type NamePair = (string, string)

  /** The map after a `set` for every pair, in order, whose id and name are both non-empty. */
  function Names(pairs: seq<NamePair>): map<string, string>
  {
    if pairs == [] then map[]
    else
      var m := Names(pairs[..|pairs| - 1]);
      var (id, name) := pairs[|pairs| - 1];
      if id != "" && name != "" then m[id := name] else m
  }

  /** An id is in the map exactly when some pair names it; every name in the map is non-empty. */
  lemma {:induction false} NamesDomain(pairs: seq<NamePair>, k: string)
    ensures k in Names(pairs) <==> exists i :: 0 <= i < |pairs| && pairs[i].0 == k && k != "" && pairs[i].1 != ""
    ensures k in Names(pairs) ==> Names(pairs)[k] != ""
  {
    if pairs != [] {
      var init := pairs[..|pairs| - 1];
      NamesDomain(init, k);
      if k in Names(pairs) && k !in Names(init) {
        assert pairs[|pairs| - 1].0 == k;
      }
      if exists i :: 0 <= i < |pairs| && pairs[i].0 == k && k != "" && pairs[i].1 != "" {
        var i :| 0 <= i < |pairs| && pairs[i].0 == k && k != "" && pairs[i].1 != "";
        if i < |init| {
          assert init[i] == pairs[i];
        }
      }
    }
  }

  /** The name of an id is that of the last pair that names it. */
  lemma {:induction false} NamesLastWins(pairs: seq<NamePair>, i: nat)
    requires i < |pairs| && pairs[i].0 != "" && pairs[i].1 != ""
    requires forall j :: i < j < |pairs| ==> pairs[j].0 != pairs[i].0 || pairs[j].1 == ""
    ensures pairs[i].0 in Names(pairs) && Names(pairs)[pairs[i].0] == pairs[i].1
  {
    var init := pairs[..|pairs| - 1];
    if i < |pairs| - 1 {
      assert init[i] == pairs[i];
      NamesLastWins(init, i);
    }
  }

  /** Pairs read later override pairs read earlier: the map of `a + b` is that of `a` updated by that of `b`. */
  lemma {:induction false} NamesAppend(a: seq<NamePair>, b: seq<NamePair>)
    ensures Names(a + b) == Names(a) + Names(b)
  {
    if b == [] {
      assert a + b == a;
      assert Names(a) + map[] == Names(a);
    } else {
      var init := b[..|b| - 1];
      assert (a + b)[..|a + b| - 1] == a + init;
      assert (a + b)[|a + b| - 1] == b[|b| - 1];
      NamesAppend(a, init);
      var (id, name) := b[|b| - 1];
      if id != "" && name != "" {
        assert (Names(a) + Names(init))[id := name] == Names(a) + Names(init)[id := name];
      }
    }
  }

  /** One source's `forEach`: a `set` for every pair whose id and name are both non-empty. */
  method SetNames(m0: map<string, string>, pairs: seq<NamePair>) returns (m: map<string, string>)
    ensures m == m0 + Names(pairs)
  {
    m := m0;
    var i := 0;
    while i < |pairs|
      invariant 0 <= i <= |pairs|
      invariant m == m0 + Names(pairs[..i])
    {
      var (id, name) := pairs[i];
      assert pairs[..i + 1][..i] == pairs[..i];
      if id != "" && name != "" {
        assert (m0 + Names(pairs[..i]))[id := name] == m0 + Names(pairs[..i])[id := name];
        m := m[id := name];
      }
      i := i + 1;
    }
    assert pairs[..i] == pairs;
  }

  /**
    `loadData`'s `productIdToName`: filled from the bulk stock, then the
    packaged stock, then the production products, then the pricing
    records, so that for an id named by several sources the last one wins.
   */
  method BuildNameMap(bulk: seq<NamePair>, packaged: seq<NamePair>, production: seq<NamePair>, pricing: seq<NamePair>)
    returns (m: map<string, string>)
    ensures m == Names(bulk + packaged + production + pricing)
    ensures forall k :: k in Names(pricing) ==> k in m && m[k] == Names(pricing)[k]
  {
    m := SetNames(map[], bulk);
    assert map[] + Names(bulk) == Names(bulk);
    m := SetNames(m, packaged);
    m := SetNames(m, production);
    m := SetNames(m, pricing);
    NamesAppend(bulk, packaged);
    NamesAppend(bulk + packaged, production);
    NamesAppend(bulk + packaged + production, pricing);
  }

  // ----- enrichment -----

  /** `s.split(c)[0]`: the text before the first `c`, or all of `s` when it has none. */
  function BeforeFirst(s: string, c: char): (r: string)
    ensures r <= s
    ensures c !in r
    ensures |r| < |s| ==> s[|r|] == c
  {
    if s == [] || s[0] == c then [] else [s[0]] + BeforeFirst(s[1..], c)
  }

  /** The name the map gives `id`, when it gives a non-empty one. */
  function NameFor(names: map<string, string>, id: string): (r: Option<string>)
    ensures r.Some? <==> id in names && names[id] != ""
    ensures r.Some? ==> r.value == names[id]
  {
    if id in names && names[id] != "" then Some(names[id]) else None
  }

  /**
    The enrichment of one record: a record without a product name but with
    a product id takes the name of its id, or else, when the id holds a
    `_`, the name of the part before the first `_`.
   */
  function Enrich(h: PriceRecord, names: map<string, string>): (r: PriceRecord)
    ensures r == h.(productName := r.productName)
    ensures r.productName != h.productName ==> h.productName == "" && h.productId != "" && r.productName != ""
    ensures h.productName == "" && h.productId != "" && NameFor(names, h.productId).Some?
            ==> r.productName == names[h.productId]
    ensures var base := BeforeFirst(h.productId, '_');
            h.productName == "" && h.productId != "" && NameFor(names, h.productId).None?
            && '_' in h.productId && NameFor(names, base).Some?
            ==> r.productName == names[base]
    ensures NameFor(names, h.productId).None?
            && ('_' !in h.productId || NameFor(names, BeforeFirst(h.productId, '_')).None?)
            ==> r == h
  {
    if h.productName == "" && h.productId != "" then
      match NameFor(names, h.productId)
      case Some(name) => h.(productName := name)
      case None =>
        if '_' in h.productId then
          match NameFor(names, BeforeFirst(h.productId, '_'))
          case Some(name) => h.(productName := name)
          case None => h
        else h
    else h
  }

  /** Enriching twice is enriching once. */
  lemma EnrichIdempotent(h: PriceRecord, names: map<string, string>)
    ensures Enrich(Enrich(h, names), names) == Enrich(h, names)
  {
  }

  /** The enriched history: one record per record, in the same order. */
  function EnrichAll(history: seq<PriceRecord>, names: map<string, string>): (r: seq<PriceRecord>)
    ensures |r| == |history|
    ensures forall i :: 0 <= i < |history| ==> r[i] == Enrich(history[i], names)
    ensures forall i :: 0 <= i < |history| ==> r[i].(productName := history[i].productName) == history[i]
    ensures forall i :: 0 <= i < |history| && history[i].productName != "" ==> r[i] == history[i]
  {
    seq(|history|, i requires 0 <= i < |history| => Enrich(history[i], names))
  }

  // ----- the product list -----

  /** JavaScript's default string order: character by character, a proper prefix first. */
  predicate Below(a: string, b: string)
  {
    if a == [] then b != []
    else if b == [] then false
    else if a[0] != b[0] then a[0] < b[0]
    else Below(a[1..], b[1..])
  }

  lemma {:induction false} BelowIrreflexive(a: string)
    ensures !Below(a, a)
  {
    if a != [] {
      BelowIrreflexive(a[1..]);
    }
  }

  lemma {:induction false} BelowTransitive(a: string, b: string, c: string)
    requires Below(a, b) && Below(b, c)
    ensures Below(a, c)
  {
    if a != [] && b != [] && c != [] && a[0] == b[0] == c[0] {
      BelowTransitive(a[1..], b[1..], c[1..]);
    }
  }

  lemma {:induction false} BelowTotal(a: string, b: string)
    ensures a == b || Below(a, b) || Below(b, a)
  {
    if a != [] && b != [] && a[0] == b[0] {
      BelowTotal(a[1..], b[1..]);
      if a[1..] == b[1..] {
        assert a == [a[0]] + a[1..] && b == [b[0]] + b[1..];
      }
    }
  }

  predicate StrictlySorted(s: seq<string>)
  {
    forall i, j :: 0 <= i < j < |s| ==> Below(s[i], s[j])
  }

  /** Adds `x` to a strictly sorted list of names, unless it is already there. */
  function InsertName(x: string, s: seq<string>): (r: seq<string>)
    requires StrictlySorted(s)
    ensures StrictlySorted(r)
    ensures forall y :: y in r <==> y == x || y in s
  {
    if s == [] then [x]
    else if x == s[0] then s
    else if Below(x, s[0]) then
      assert forall j :: 0 < j < |s| ==> Below(x, s[j]) by {
        forall j | 0 < j < |s| ensures Below(x, s[j]) {
          BelowTransitive(x, s[0], s[j]);
        }
      }
      [x] + s
    else
      BelowTotal(x, s[0]);
      var rest := InsertName(x, s[1..]);
      assert forall j :: 0 <= j < |rest| ==> Below(s[0], rest[j]) by {
        forall j | 0 <= j < |rest| ensures Below(s[0], rest[j]) {
          assert rest[j] in rest;
          if rest[j] != x {
            var k :| 0 <= k < |s[1..]| && s[1..][k] == rest[j];
            assert s[k + 1] == rest[j];
          }
        }
      }
      [s[0]] + rest
  }

  /** Two strictly sorted lists with the same names are the same list. */
  lemma {:induction false} StrictlySortedUnique(a: seq<string>, b: seq<string>)
    requires StrictlySorted(a) && StrictlySorted(b)
    requires forall s :: s in a <==> s in b
    ensures a == b
  {
    assert a != [] ==> a[0] in a;
    assert b != [] ==> b[0] in b;
    if a != [] && b != [] {
      if a[0] != b[0] {
        var i :| 0 <= i < |a| && a[i] == b[0];
        var j :| 0 <= j < |b| && b[j] == a[0];
        BelowTransitive(a[0], b[0], a[0]);
        BelowIrreflexive(a[0]);
      }
      forall s ensures s in a[1..] <==> s in b[1..] {
        if s in a[1..] {
          var i :| 0 <= i < |a[1..]| && a[1..][i] == s;
          assert Below(a[0], a[i + 1]);
          BelowIrreflexive(s);
          assert s in a;
          var k :| 0 <= k < |b| && b[k] == s;
          assert b[1..][k - 1] == s;
        }
        if s in b[1..] {
          var i :| 0 <= i < |b[1..]| && b[1..][i] == s;
          assert Below(b[0], b[i + 1]);
          BelowIrreflexive(s);
          assert s in b;
          var k :| 0 <= k < |a| && a[k] == s;
          assert a[1..][k - 1] == s;
        }
      }
      StrictlySortedUnique(a[1..], b[1..]);
      assert a == [a[0]] + a[1..] && b == [b[0]] + b[1..];
    }
  }

  /** `Array.from(set).sort()`: the names of the set, in order, each once. */
  method SortNames(all: set<string>) returns (r: seq<string>)
    ensures StrictlySorted(r)
    ensures forall s :: s in r <==> s in all
  {
    r := [];
    var rest := all;
    while rest != {}
      invariant rest <= all
      invariant StrictlySorted(r)
      invariant forall s :: s in r <==> s in all - rest
      decreases |rest|
    {
      var x :| x in rest;
      r := InsertName(x, r);
      rest := rest - {x};
    }
  }

  /** Some record of `history` is named `s`. */
  predicate NamedIn(history: seq<PriceRecord>, s: string)
  {
    exists i :: 0 <= i < |history| && history[i].productName == s
  }

  /**
    `loadData`'s product list: the names of the map and the non-empty
    names of the enriched history, collected in a `Set`, then sorted.
   */
  method ProductList(names: map<string, string>, history: seq<PriceRecord>) returns (r: seq<string>)
    ensures StrictlySorted(r)
    ensures forall s :: s in r <==> s in names.Values || (s != "" && NamedIn(history, s))
  {
    var all: set<string> := {};
    var rest := names.Values;
    while rest != {}
      invariant rest <= names.Values
      invariant all == names.Values - rest
      decreases |rest|
    {
      var v :| v in rest;
      all := all + {v};
      rest := rest - {v};
    }
    var i := 0;
    while i < |history|
      invariant 0 <= i <= |history|
      invariant forall s :: s in all <==> s in names.Values || (s != "" && NamedIn(history[..i], s))
    {
      assert forall s :: NamedIn(history[..i + 1], s) <==> NamedIn(history[..i], s) || history[i].productName == s by {
        forall s ensures NamedIn(history[..i + 1], s) <==> NamedIn(history[..i], s) || history[i].productName == s {
          if NamedIn(history[..i + 1], s) {
            var j :| 0 <= j < i + 1 && history[..i + 1][j].productName == s;
            if j < i {
              assert history[..i][j] == history[j];
            }
          }
          if NamedIn(history[..i], s) {
            var j :| 0 <= j < i && history[..i][j].productName == s;
            assert history[..i + 1][j] == history[j];
          }
          assert history[..i + 1][i] == history[i];
        }
      }
      if history[i].productName != "" {
        all := all + {history[i].productName};
      }
      i := i + 1;
    }
    assert history[..i] == history;
    r := SortNames(all);
  }

  // ----- the filtered view -----

  /** `history.productName || history.productId || 'Unknown Product'`. */
  function DisplayName(h: PriceRecord): (r: string)
    ensures r != ""
  {
    if h.productName != "" then h.productName
    else if h.productId != "" then h.productId
    else "Unknown Product"
  }

  /** `history.changedByName || history.recordedByName || ''`. */
  function Editor(h: PriceRecord): string
  {
    if h.changedByName != "" then h.changedByName else h.recordedByName
  }

  /** `history.timestamp || history.recordedAt || 0`. */
  function When(h: PriceRecord): int
  {
    if h.timestamp != 0 then h.timestamp else h.recordedAt
  }

  /** One day in milliseconds: the end date of the date filter includes its whole day. */
  const DayMs: int := 24 * 60 * 60 * 1000

  /** The filter inputs: the search box, the product drop-down, the two dates and the change type. */
  datatype Filters = Filters(search: string, product: string, dateFrom: string, dateTo: string, changeType: string)

  /** The search ignores case and looks at the name, the id, the reason and the editor. */
  predicate MatchesSearch(h: PriceRecord, term: string)
  {
    var t := Lower(term);
    || Contains(Lower(DisplayName(h)), t)
    || Contains(Lower(h.productId), t)
    || Contains(Lower(h.changeReason), t)
    || Contains(Lower(Editor(h)), t)
  }

  /** The product filter is a case-sensitive substring test on the shown name. */
  predicate MatchesProduct(h: PriceRecord, product: string)
  {
    product == "" || Contains(DisplayName(h), product)
  }

  predicate MatchesDates(h: PriceRecord, f: Filters, dateOf: string -> Option<int>)
  {
    && (f.dateFrom == "" || (dateOf(f.dateFrom).Some? && When(h) >= dateOf(f.dateFrom).value))
    && (f.dateTo == "" || (dateOf(f.dateTo).Some? && When(h) <= dateOf(f.dateTo).value + DayMs))
  }

  /** 'increase' keeps a positive change, 'decrease' a negative one; any other type keeps every record. */
  predicate MatchesChangeType(h: PriceRecord, changeType: string, priceChange: (real, real) -> real)
  {
    changeType == ""
    || (var c := priceChange(h.previousPrice, h.newPrice);
        if changeType == "increase" then c > 0.0
        else if changeType == "decrease" then c < 0.0
        else true)
  }

  predicate Keep(h: PriceRecord, f: Filters, dateOf: string -> Option<int>, priceChange: (real, real) -> real)
  {
    && MatchesSearch(h, f.search)
    && MatchesProduct(h, f.product)
    && MatchesDates(h, f, dateOf)
    && MatchesChangeType(h, f.changeType, priceChange)
  }

  function KeepFn(f: Filters, dateOf: string -> Option<int>, priceChange: (real, real) -> real): PriceRecord -> bool
  {
    (h: PriceRecord) => Keep(h, f, dateOf, priceChange)
  }

  /** `filteredHistory`: the records every filter keeps, in order. */
  function Filtered(history: seq<PriceRecord>, f: Filters, dateOf: string -> Option<int>,
                    priceChange: (real, real) -> real): (r: seq<PriceRecord>)
    ensures |r| <= |history|
    ensures forall h :: h in r <==> h in history && Keep(h, f, dateOf, priceChange)
  {
    Filter(history, KeepFn(f, dateOf, priceChange))
  }

  /** Filtering a concatenation filters each part: the filter keeps the input order. */
  lemma FilteredAppend(a: seq<PriceRecord>, b: seq<PriceRecord>, f: Filters,
                       dateOf: string -> Option<int>, priceChange: (real, real) -> real)
    ensures Filtered(a + b, f, dateOf, priceChange) == Filtered(a, f, dateOf, priceChange) + Filtered(b, f, dateOf, priceChange)
  {
    FilterAppend(a, b, KeepFn(f, dateOf, priceChange));
  }

  lemma {:induction false} ContainsEmpty(s: string)
    ensures Contains(s, "")
  {
  }

  /** With every filter input empty, the whole history is shown. */
  lemma {:induction false} NoFiltersShowAll(history: seq<PriceRecord>, dateOf: string -> Option<int>,
                                            priceChange: (real, real) -> real)
    ensures Filtered(history, Filters("", "", "", "", ""), dateOf, priceChange) == history
  {
    if history != [] {
      ContainsEmpty(Lower(DisplayName(history[0])));
      assert Lower("") == "";
      NoFiltersShowAll(history[1..], dateOf, priceChange);
      assert history == [history[0]] + history[1..];
    }
  }

  /** A date typed into either date filter that does not parse hides every record. */
  lemma {:induction false} InvalidDateHidesAll(history: seq<PriceRecord>, f: Filters, dateOf: string -> Option<int>,
                            priceChange: (real, real) -> real)
    requires (f.dateFrom != "" && dateOf(f.dateFrom).None?) || (f.dateTo != "" && dateOf(f.dateTo).None?)
    ensures Filtered(history, f, dateOf, priceChange) == []
  {
    if history != [] {
      InvalidDateHidesAll(history[1..], f, dateOf, priceChange);
    }
  }

  /** A record from any moment of the end date's day passes the upper date bound. */
  lemma EndDayIncluded(h: PriceRecord, f: Filters, dateOf: string -> Option<int>)
    requires f.dateTo != "" && dateOf(f.dateTo).Some?
    requires dateOf(f.dateTo).value <= When(h) < dateOf(f.dateTo).value + DayMs
    requires f.dateFrom == "" || (dateOf(f.dateFrom).Some? && dateOf(f.dateFrom).value <= dateOf(f.dateTo).value)
    ensures MatchesDates(h, f, dateOf)
  {
  }

  // ----- the summary -----

  function Increases(history: seq<PriceRecord>): nat
  {
    if history == [] then 0
    else (if history[0].newPrice > history[0].previousPrice then 1 else 0) + Increases(history[1..])
  }

  function Decreases(history: seq<PriceRecord>): nat
  {
    if history == [] then 0
    else (if history[0].newPrice < history[0].previousPrice then 1 else 0) + Decreases(history[1..])
  }

  function Unchanged(history: seq<PriceRecord>): nat
  {
    if history == [] then 0
    else (if history[0].newPrice == history[0].previousPrice then 1 else 0) + Unchanged(history[1..])
  }

  /** Every record is an increase, a decrease or unchanged, and exactly one of them. */
  lemma {:induction false} ChangesPartition(history: seq<PriceRecord>)
    ensures Increases(history) + Decreases(history) + Unchanged(history) == |history|
  {
    if history != [] {
      ChangesPartition(history[1..]);
    }
  }

  /** The sum of the percentage changes of the records. */
  function SumChange(history: seq<PriceRecord>, priceChange: (real, real) -> real): real
  {
    if history == [] then 0.0
    else priceChange(history[0].previousPrice, history[0].newPrice) + SumChange(history[1..], priceChange)
  }

  /**
    The distinct product names of the records. A missing name is read as
    the empty string, so a record without a name and one whose name is ""
    count once here, where `new Set(...)` counts undefined and "" as two
    values.
   */
  function ProductNames(history: seq<PriceRecord>): (r: set<string>)
    ensures |r| <= |history|
    ensures |r| == 0 <==> history == []
    ensures forall s :: s in r <==> exists i :: 0 <= i < |history| && history[i].productName == s
  {
    if history == [] then {}
    else
      var rest := ProductNames(history[1..]);
      assert history == [history[0]] + history[1..];
      {history[0].productName} + rest
  }

  datatype Summary = Summary(totalChanges: nat, increaseCount: nat, decreaseCount: nat, avgChange: real, uniqueProducts: nat)

  /** `calculateSummaryStats` over the filtered history. */
  function SummaryOf(history: seq<PriceRecord>, priceChange: (real, real) -> real): (r: Summary)
    ensures r.totalChanges == |history|
    ensures r.increaseCount + r.decreaseCount <= r.totalChanges
    ensures r.uniqueProducts <= r.totalChanges
    ensures r.totalChanges > 0 <==> r.uniqueProducts > 0
    ensures r.totalChanges == 0 ==> r.avgChange == 0.0
  {
    ChangesPartition(history);
    Summary(|history|, Increases(history), Decreases(history),
            if |history| > 0 then SumChange(history, priceChange) / (|history| as real) else 0.0,
            |ProductNames(history)|)
  }

  lemma {:induction false} SumChangeWithin(history: seq<PriceRecord>, priceChange: (real, real) -> real, lo: real, hi: real)
    requires forall i :: 0 <= i < |history| ==> lo <= priceChange(history[i].previousPrice, history[i].newPrice) <= hi
    ensures lo * (|history| as real) <= SumChange(history, priceChange) <= hi * (|history| as real)
  {
    if history != [] {
      assert forall i :: 0 <= i < |history[1..]| ==> history[1..][i] == history[i + 1];
      SumChangeWithin(history[1..], priceChange, lo, hi);
      assert history[0] == history[0];
    }
  }

  /** The average change lies between the smallest and the largest change. */
  lemma AverageWithin(history: seq<PriceRecord>, priceChange: (real, real) -> real, lo: real, hi: real)
    requires history != []
    requires forall i :: 0 <= i < |history| ==> lo <= priceChange(history[i].previousPrice, history[i].newPrice) <= hi
    ensures lo <= SummaryOf(history, priceChange).avgChange <= hi
  {
    SumChangeWithin(history, priceChange, lo, hi);
    DivWithin(SumChange(history, priceChange), |history| as real, lo, hi);
  }

  lemma DivWithin(s: real, n: real, lo: real, hi: real)
    requires n > 0.0 && lo * n <= s <= hi * n
    ensures lo <= s / n <= hi
  {
    assert (s / n) * n == s;
  }

  /** `getPriceChangeInfo`'s amount: the size of the change, whichever its direction. */
  function ChangeAmount(h: PriceRecord): (r: real)
    ensures r >= 0.0
    ensures r == 0.0 <==> h.newPrice == h.previousPrice
    ensures r == h.newPrice - h.previousPrice || r == h.previousPrice - h.newPrice
  {
    if h.newPrice >= h.previousPrice then h.newPrice - h.previousPrice else h.previousPrice - h.newPrice
  }

  /** Swapping the old and the new price leaves the amount as it is. */
  lemma ChangeAmountSymmetric(h: PriceRecord)
    ensures ChangeAmount(h.(previousPrice := h.newPrice, newPrice := h.previousPrice)) == ChangeAmount(h)
  {
  }
}
