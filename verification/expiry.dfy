/**
  Expiry tracking of finished goods: the dated stock in expiry order, a
  four-way status by days to expiry, the status and search filter, and the
  summary counts.

  Dates are day numbers: `dayOf(expiryDate)` is the day an expiry date
  falls on (the parsing of the date text is the caller's), and `today` is
  the current day, so `dayOf(d) - today` is the number of days to expiry.
 */
module Expiry {
  import opened Js
  import opened Stock
  import Sorting

  datatype Status = Expired | Critical | Warning | Good

  /** How severe a status is: expired is the most severe, good the least. */
  function Severity(s: Status): nat
  {
    match s
    case Expired => 3
    case Critical => 2
    case Warning => 1
    case Good => 0
  }

  /** The status of an item with `days` days to expiry. */
  function Classify(days: int): (s: Status)
    ensures s == Expired <==> days < 0
    ensures s == Critical <==> 0 <= days <= 7
    ensures s == Warning <==> 7 < days <= 30
    ensures s == Good <==> 30 < days
  {
    if days < 0 then Expired
    else if days <= 7 then Critical
    else if days <= 30 then Warning
    else Good
  }

  /** More days to expiry never gives a more severe status. */
  lemma ClassifyMonotone(d1: int, d2: int)
    requires d1 <= d2
    ensures Severity(Classify(d2)) <= Severity(Classify(d1))
  {
  }

  /** `getExpiryStatus`: no status for an item without an expiry date. */
  function ExpiryStatus(expiryDate: string, today: int, dayOf: string -> int): (r: Option<Status>)
    ensures r.None? <==> expiryDate == ""
    ensures r.Some? ==> r.value == Classify(dayOf(expiryDate) - today)
  {
    if expiryDate == "" then None else Some(Classify(dayOf(expiryDate) - today))
  }

  function HasExpiry(items: seq<StockItem>): (r: seq<StockItem>)
    ensures |r| <= |items|
    ensures forall x :: x in r <==> x in items && x.expiryDate != ""
    ensures multiset(r) <= multiset(items)
  {
    if items == [] then []
    else
      assert items == [items[0]] + items[1..];
      (if items[0].expiryDate != "" then [items[0]] else []) + HasExpiry(items[1..])
  }

  function ExpiryKey(dayOf: string -> int): StockItem -> int
  {
    (x: StockItem) => dayOf(x.expiryDate)
  }

  /**
    The tracked stock: the combined inventory restricted to records with an
    expiry date, in ascending order of expiry day.
   */
  function Tracked(bulk: seq<StockItem>, packaged: seq<StockItem>, dayOf: string -> int): (r: seq<StockItem>)
    ensures multiset(r) == multiset(HasExpiry(Combine(bulk, packaged)))
    ensures Sorting.SortedBy(r, ExpiryKey(dayOf))
    ensures forall x :: x in r ==> x.expiryDate != ""
  {
    var dated := HasExpiry(Combine(bulk, packaged));
    var r := Sorting.SortBy(dated, ExpiryKey(dayOf));
    assert forall x :: x in r ==> x.expiryDate != "" by {
      forall x | x in r ensures x.expiryDate != "" {
        assert x in multiset(dated);
      }
    }
    r
  }

  /** The status filter: every status, or one of them. */
  datatype StatusFilter = All | Only(status: Status)

  /** `x?.toLowerCase().includes(t)`: an absent field never matches. */
  predicate FieldMatches(field: Option<string>, term: string)
  {
    field.Some? && Contains(Lower(field.value), Lower(term))
  }

  predicate MatchesSearch(item: StockItem, term: string)
  {
    FieldMatches(item.productName, term) || FieldMatches(item.batchNumber, term)
  }

  predicate Keep(item: StockItem, term: string, filter: StatusFilter, today: int, dayOf: string -> int)
  {
    && MatchesSearch(item, term)
    && (filter.All? || Classify(dayOf(item.expiryDate) - today) == filter.status)
  }

  function KeepFn(term: string, filter: StatusFilter, today: int, dayOf: string -> int): StockItem -> bool
  {
    (x: StockItem) => Keep(x, term, filter, today, dayOf)
  }

  /** `filteredInventory`: the items that match the search and the status filter, in order. */
  function Filtered(items: seq<StockItem>, term: string, filter: StatusFilter, today: int, dayOf: string -> int)
    : (r: seq<StockItem>)
    ensures |r| <= |items|
    ensures forall x :: x in r <==> x in items && Keep(x, term, filter, today, dayOf)
  {
    Filter(items, KeepFn(term, filter, today, dayOf))
  }

  /** Filtering a concatenation filters each part: the filter keeps the input order. */
  lemma FilteredAppend(a: seq<StockItem>, b: seq<StockItem>, term: string, filter: StatusFilter,
                       today: int, dayOf: string -> int)
    ensures Filtered(a + b, term, filter, today, dayOf)
            == Filtered(a, term, filter, today, dayOf) + Filtered(b, term, filter, today, dayOf)
  {
    FilterAppend(a, b, KeepFn(term, filter, today, dayOf));
  }

  /** With filter 'all' only the search decides. */
  lemma FilterAllIsSearchOnly(items: seq<StockItem>, term: string, today: int, dayOf: string -> int)
    ensures forall x :: x in Filtered(items, term, All, today, dayOf) <==> x in items && MatchesSearch(x, term)
  {
  }

  /** An item with neither a product name nor a batch number is never shown, whatever the search. */
  lemma UnnamedItemsAreHidden(item: StockItem, term: string, filter: StatusFilter, today: int, dayOf: string -> int)
    requires item.productName.None? && item.batchNumber.None?
    ensures !Keep(item, term, filter, today, dayOf)
  {
  }

  /** How many of `items` have status `s`. */
  function CountStatus(items: seq<StockItem>, s: Status, today: int, dayOf: string -> int): (n: nat)
    ensures n <= |items|
  {
    if items == [] then 0
    else (if Classify(dayOf(items[0].expiryDate) - today) == s then 1 else 0)
         + CountStatus(items[1..], s, today, dayOf)
  }

  datatype Summary = Summary(total: nat, expired: nat, critical: nat, warning: nat)

  /** `getSummary`. */
  function SummaryOf(items: seq<StockItem>, today: int, dayOf: string -> int): (r: Summary)
    ensures r.total == |items|
    ensures r.expired + r.critical + r.warning <= r.total
  {
    StatusCountsBounded(items, today, dayOf);
    Summary(|items|, CountStatus(items, Expired, today, dayOf), CountStatus(items, Critical, today, dayOf),
            CountStatus(items, Warning, today, dayOf))
  }

  /** Every item has exactly one status, so the four counts add up to the number of items. */
  lemma {:induction false} StatusCountsPartition(items: seq<StockItem>, today: int, dayOf: string -> int)
    ensures CountStatus(items, Expired, today, dayOf) + CountStatus(items, Critical, today, dayOf)
            + CountStatus(items, Warning, today, dayOf) + CountStatus(items, Good, today, dayOf) == |items|
  {
    if items != [] {
      StatusCountsPartition(items[1..], today, dayOf);
    }
  }

  lemma StatusCountsBounded(items: seq<StockItem>, today: int, dayOf: string -> int)
    ensures CountStatus(items, Expired, today, dayOf) + CountStatus(items, Critical, today, dayOf)
            + CountStatus(items, Warning, today, dayOf) <= |items|
  {
    StatusCountsPartition(items, today, dayOf);
  }
}
