/**
  The finished-goods stock as the store pages read it: the bulk inventory
  and the packaged inventory, combined into one list in which every record
  is tagged with the inventory it came from.
 */
module Stock {
  import opened Js

  datatype StockKind = BulkStock | UnitsStock

  /**
    One inventory record, with the fields the pages read. A field that is
    absent is `None` (text fields that are only read for truthiness use
    the empty string instead).
   */
  datatype StockItem = StockItem(
    kind: StockKind, productName: Option<string>, batchNumber: Option<string>,
    location: string, expiryDate: string)

  /** The bulk records tagged 'bulk', followed by the packaged records tagged 'units'. */
  function Combine(bulk: seq<StockItem>, packaged: seq<StockItem>): (r: seq<StockItem>)
    ensures |r| == |bulk| + |packaged|
    ensures forall i :: 0 <= i < |bulk| ==> r[i] == bulk[i].(kind := BulkStock)
    ensures forall i :: 0 <= i < |packaged| ==> r[|bulk| + i] == packaged[i].(kind := UnitsStock)
  {
    seq(|bulk|, i requires 0 <= i < |bulk| => bulk[i].(kind := BulkStock))
    + seq(|packaged|, i requires 0 <= i < |packaged| => packaged[i].(kind := UnitsStock))
  }
}
