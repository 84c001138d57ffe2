/**
  The spreadsheet upload of finished-goods products and prices: every data
  row is checked against the required fields and the domains of the
  template (errors make the row invalid, warnings never do), and the valid
  rows are then turned into inventory and pricing calls.
 */
module ProductUpload {
  import opened Js

  /**
    A cell as the spreadsheet reader returns it: text, or a number together
    with its JavaScript string form.
   */
  datatype Cell = Text(s: string) | Numeric(value: real, text: string)

  /** One data row: column header to cell; an empty cell is absent. */
  type Row = map<string, Cell>

  predicate CellTruthy(c: Cell)
  {
    if c.Text? then c.s != "" else c.value != 0.0
  }

  /** `String(cell)`. */
  function CellText(c: Cell): string
  {
    if c.Text? then c.s else c.text
  }

  /** `row[a] || row[b]`, when one of the two is truthy. */
  function Either(row: Row, a: string, b: string): (r: Option<Cell>)
    ensures r.None? <==> !(a in row && CellTruthy(row[a])) && !(b in row && CellTruthy(row[b]))
    ensures r.Some? ==> CellTruthy(r.value)
    ensures r.Some? && a in row && CellTruthy(row[a]) ==> r.value == row[a]
  {
    if a in row && CellTruthy(row[a]) then Some(row[a])
    else if b in row && CellTruthy(row[b]) then Some(row[b])
    else None
  }

  /** `(row[a] || row[b] || dflt).toString()`. */
  function TextOr(row: Row, a: string, b: string, dflt: string): string
  {
    var c := Either(row, a, b);
    if c.Some? then CellText(c.value) else dflt
  }

  /** `parseFloat(row[a] || row[b] || 0)`; `parseFloat` of a text is supplied by the caller. */
  function NumberOr0(row: Row, a: string, b: string, parseFloat: string -> Number): Number
  {
    var c := Either(row, a, b);
    if c.None? then Num(0.0)
    else if c.value.Numeric? then Num(c.value.value)
    else parseFloat(c.value.s)
  }

  /** `!x || x <= 0` is false: a number that is not NaN and positive. */
  predicate Positive(n: Number)
  {
    n.Num? && n.value > 0.0
  }

  // ----- the fields of a row -----

  function ProductType(row: Row): string
  {
    Trim(Lower(TextOr(row, "Product Type", "productType", "")))
  }

  function ProductName(row: Row): string
  {
    Trim(TextOr(row, "Product Name", "productName", ""))
  }

  function ProductId(row: Row): string
  {
    Trim(TextOr(row, "Product ID", "productId", ""))
  }

  function BatchNumber(row: Row): string
  {
    Trim(TextOr(row, "Batch Number", "batchNumber", ""))
  }

  function LocationField(row: Row): string
  {
    Trim(TextOr(row, "Location", "location", "FG-A1"))
  }

  function Unit(row: Row): string
  {
    Trim(TextOr(row, "Unit", "unit", "kg"))
  }

  function VariantName(row: Row): string
  {
    Trim(TextOr(row, "Variant Name", "variantName", ""))
  }

  function VariantSize(row: Row): string
  {
    Trim(TextOr(row, "Variant Size", "variantSize", ""))
  }

  function VariantUnit(row: Row): string
  {
    Trim(TextOr(row, "Variant Unit", "variantUnit", ""))
  }

  function QualityGrade(row: Row): string
  {
    Upper(Trim(TextOr(row, "Quality Grade", "qualityGrade", "A")))
  }

  function ExpiryDate(row: Row): string
  {
    Trim(TextOr(row, "Expiry Date (YYYY-MM-DD)", "expiryDate", ""))
  }

  function Currency(row: Row): string
  {
    Upper(Trim(TextOr(row, "Currency", "currency", "LKR")))
  }

  function PriceType(row: Row): string
  {
    Lower(Trim(TextOr(row, "Price Type", "priceType", "retail")))
  }

  // ----- expiry dates -----

  predicate IsDigit(c: char)
  {
    '0' <= c <= '9'
  }

  function DigitsValue(s: string): nat
    requires forall i :: 0 <= i < |s| ==> IsDigit(s[i])
  {
    if s == [] then 0
    else
      assert IsDigit(s[|s| - 1]);
      DigitsValue(s[..|s| - 1]) * 10 + (s[|s| - 1] as int - '0' as int)
  }

  /** `/^\d{4}-\d{2}-\d{2}$/`. */
  predicate IsoDateShape(s: string)
  {
    && |s| == 10 && s[4] == '-' && s[7] == '-'
    && (forall i :: 0 <= i < 10 && i != 4 && i != 7 ==> IsDigit(s[i]))
  }

  /**
    `new Date(s)` is a valid date, for a string of the ISO date shape, as
    the V8 engine parses it: month 1 to 12 and day 1 to 31.
   */
  predicate DateParses(s: string)
    requires IsoDateShape(s)
  {
    var month := DigitsValue(s[5..7]);
    var day := DigitsValue(s[8..10]);
    1 <= month <= 12 && 1 <= day <= 31
  }

  // ----- validation -----

  /** The columns each product type adds to the common ones. */
  datatype Kind =
    | Bulk(quantity: Number, unit: string)
    | Units(variantName: string, variantSize: string, variantUnit: string, unitsInStock: Number)
    | UnknownType

  /** The cells of a row that validation reads, after trimming and case mapping. */
  datatype Fields = Fields(
    kind: Kind, productName: string, productId: string, batchNumber: string,
    qualityGrade: string, expiryDate: string, price: Option<Number>)

  /** `parseFloat` of a truthy cell. */
  function CellNumber(c: Cell, parseFloat: string -> Number): Number
  {
    if c.Numeric? then Num(c.value) else parseFloat(c.s)
  }

  function KindOf(row: Row, parseFloat: string -> Number): (k: Kind)
    ensures k.Bulk? <==> ProductType(row) == "bulk"
    ensures k.Units? <==> ProductType(row) == "units"
  {
    var t := ProductType(row);
    if t == "bulk" then Bulk(NumberOr0(row, "Quantity", "quantity", parseFloat), Unit(row))
    else if t == "units" then
      Units(VariantName(row), VariantSize(row), VariantUnit(row),
            NumberOr0(row, "Units in Stock", "unitsInStock", parseFloat))
    else UnknownType
  }

  function FieldsOf(row: Row, parseFloat: string -> Number): Fields
  {
    var p := Either(row, "Price", "price");
    Fields(KindOf(row, parseFloat), ProductName(row), ProductId(row), BatchNumber(row),
           QualityGrade(row), ExpiryDate(row),
           if p.Some? then Some(CellNumber(p.value, parseFloat)) else None)
  }

  datatype RowError =
    | BadProductType | MissingProductName | MissingProductId | MissingBatchNumber
    | BadQuantity | MissingUnit
    | MissingVariantName | MissingVariantSizeOrUnit | BadUnitsInStock
    | BadQualityGrade | BadExpiryFormat | InvalidExpiryDate | BadPrice

  datatype RowWarning =
    | UnknownLocation(location: string)
    | VariantNameOnBulk | UnitsInStockOnBulk | QuantityOnUnits
    | NonStandardCurrency(currency: string) | NonStandardPriceType(priceType: string)

  function KindErrors(k: Kind): seq<RowError>
  {
    match k
    case Bulk(quantity, unit) =>
      (if !Positive(quantity) then [BadQuantity] else [])
      + (if unit == "" then [MissingUnit] else [])
    case Units(name, size, unit, units) =>
      (if name == "" then [MissingVariantName] else [])
      + (if size == "" || unit == "" then [MissingVariantSizeOrUnit] else [])
      + (if !Positive(units) then [BadUnitsInStock] else [])
    case UnknownType => []
  }

  function ExpiryErrors(e: string): seq<RowError>
  {
    if e == "" then []
    else if !IsoDateShape(e) then [BadExpiryFormat]
    else if !DateParses(e) then [InvalidExpiryDate]
    else []
  }

  predicate GradeOk(grade: string)
  {
    grade in ["", "A", "B", "C", "D"]
  }

  /** The errors of a row's fields, in the order they are found. */
  function Errors(f: Fields): seq<RowError>
  {
    (if f.kind.UnknownType? then [BadProductType] else [])
    + (if f.productName == "" then [MissingProductName] else [])
    + (if f.productId == "" then [MissingProductId] else [])
    + (if f.batchNumber == "" then [MissingBatchNumber] else [])
    + KindErrors(f.kind)
    + (if !GradeOk(f.qualityGrade) then [BadQualityGrade] else [])
    + ExpiryErrors(f.expiryDate)
    + (if !(f.price.Some? && Positive(f.price.value)) then [BadPrice] else [])
  }

  /** The errors of one row. */
  function RowErrors(row: Row, parseFloat: string -> Number): seq<RowError>
  {
    Errors(FieldsOf(row, parseFloat))
  }

  predicate StandardCurrency(c: string)
  {
    c in ["LKR", "USD", "EUR"]
  }

  predicate StandardPriceType(t: string)
  {
    t in ["retail", "wholesale", "distributor", "special"]
  }

  /** The cells of a row that the warnings read, after trimming and case mapping. */
  datatype WarningFields = WarningFields(
    location: string, productType: string,
    hasVariantName: bool, hasUnitsInStock: bool, hasQuantity: bool,
    currency: string, priceType: string)

  function WarningFieldsOf(row: Row): WarningFields
  {
    WarningFields(LocationField(row), ProductType(row),
                  Either(row, "Variant Name", "variantName").Some?,
                  Either(row, "Units in Stock", "unitsInStock").Some?,
                  Either(row, "Quantity", "quantity").Some?,
                  Currency(row), PriceType(row))
  }

  function LocationWarnings(loc: string, available: seq<string>): (r: seq<RowWarning>)
    ensures forall w :: w in r ==> w.UnknownLocation?
    ensures forall l :: UnknownLocation(l) in r <==> l == loc && loc != "" && loc !in available
  {
    if loc != "" && loc !in available then [UnknownLocation(loc)] else []
  }

  function TypeWarnings(f: WarningFields): (r: seq<RowWarning>)
    ensures forall w :: w in r ==> w.VariantNameOnBulk? || w.UnitsInStockOnBulk? || w.QuantityOnUnits?
    ensures VariantNameOnBulk in r <==> f.productType == "bulk" && f.hasVariantName
    ensures UnitsInStockOnBulk in r <==> f.productType == "bulk" && f.hasUnitsInStock
    ensures QuantityOnUnits in r <==> f.productType == "units" && f.hasQuantity
  {
    if f.productType == "bulk" then
      (if f.hasVariantName then [VariantNameOnBulk] else []) + (if f.hasUnitsInStock then [UnitsInStockOnBulk] else [])
    else if f.productType == "units" then
      (if f.hasQuantity then [QuantityOnUnits] else [])
    else []
  }

  function CurrencyWarnings(currency: string): (r: seq<RowWarning>)
    ensures forall w :: w in r ==> w.NonStandardCurrency?
    ensures forall c :: NonStandardCurrency(c) in r <==> c == currency && !StandardCurrency(c)
  {
    if !StandardCurrency(currency) then [NonStandardCurrency(currency)] else []
  }

  function PriceTypeWarnings(priceType: string): (r: seq<RowWarning>)
    ensures forall w :: w in r ==> w.NonStandardPriceType?
    ensures forall t :: NonStandardPriceType(t) in r <==> t == priceType && !StandardPriceType(t)
  {
    if !StandardPriceType(priceType) then [NonStandardPriceType(priceType)] else []
  }

  /**
    The warnings of a row's fields, in the order they are found: each is
    raised exactly when its condition holds, and none makes the row invalid.
   */
  function Warnings(f: WarningFields, available: seq<string>): (r: seq<RowWarning>)
    ensures forall loc :: UnknownLocation(loc) in r <==>
              loc == f.location && loc != "" && loc !in available
    ensures VariantNameOnBulk in r <==> f.productType == "bulk" && f.hasVariantName
    ensures UnitsInStockOnBulk in r <==> f.productType == "bulk" && f.hasUnitsInStock
    ensures QuantityOnUnits in r <==> f.productType == "units" && f.hasQuantity
    ensures forall c :: NonStandardCurrency(c) in r <==> c == f.currency && !StandardCurrency(c)
    ensures forall t :: NonStandardPriceType(t) in r <==> t == f.priceType && !StandardPriceType(t)
  {
    LocationWarnings(f.location, available) + TypeWarnings(f)
    + CurrencyWarnings(f.currency) + PriceTypeWarnings(f.priceType)
  }

  /** The warnings of one row. */
  function RowWarnings(row: Row, available: seq<string>): seq<RowWarning>
  {
    Warnings(WarningFieldsOf(row), available)
  }

  /** Each warning of a row is raised exactly when its condition holds of the row's cells. */
  lemma RowWarningConditions(row: Row, available: seq<string>)
    ensures var r := RowWarnings(row, available);
      && (forall loc :: UnknownLocation(loc) in r <==> loc == LocationField(row) && loc != "" && loc !in available)
      && (VariantNameOnBulk in r <==>
            ProductType(row) == "bulk" && Either(row, "Variant Name", "variantName").Some?)
      && (UnitsInStockOnBulk in r <==>
            ProductType(row) == "bulk" && Either(row, "Units in Stock", "unitsInStock").Some?)
      && (QuantityOnUnits in r <==>
            ProductType(row) == "units" && Either(row, "Quantity", "quantity").Some?)
      && (forall c :: NonStandardCurrency(c) in r <==> c == Currency(row) && !StandardCurrency(c))
      && (forall t :: NonStandardPriceType(t) in r <==> t == PriceType(row) && !StandardPriceType(t))
  {
  }

  /**
    What the template demands of a row, stated positively: a known product
    type with its own fields filled in and a positive amount, the
    identifying fields, a grade A to D (or none), a well-formed expiry
    date if any, and a positive price.
   */
  predicate Acceptable(f: Fields)
  {
    && (match f.kind
        case Bulk(quantity, unit) => Positive(quantity) && unit != ""
        case Units(name, size, unit, units) => name != "" && size != "" && unit != "" && Positive(units)
        case UnknownType => false)
    && f.productName != "" && f.productId != "" && f.batchNumber != ""
    && f.qualityGrade in ["", "A", "B", "C", "D"]
    && (f.expiryDate != "" ==> IsoDateShape(f.expiryDate) && DateParses(f.expiryDate))
    && f.price.Some? && Positive(f.price.value)
  }

  /** A row has no errors exactly when its fields are acceptable. */
  lemma NoErrorsIffAcceptable(f: Fields)
    ensures Errors(f) == [] <==> Acceptable(f)
  {
    if f.kind.UnknownType? {
      assert Errors(f)[0] == BadProductType;
    }
  }

  /** A valid row names a product type that reads 'bulk' or 'units' once trimmed and lowercased. */
  lemma ValidRowHasKnownType(row: Row, parseFloat: string -> Number)
    requires RowErrors(row, parseFloat) == []
    ensures ProductType(row) == "bulk" || ProductType(row) == "units"
    ensures ProductName(row) != "" && ProductId(row) != "" && BatchNumber(row) != ""
  {
    NoErrorsIffAcceptable(FieldsOf(row, parseFloat));
  }

  /** The columns validated for every row, under both of their names. */
  const CommonColumns: set<string> := {
    "Product Type", "productType", "Product Name", "productName", "Product ID", "productId",
    "Batch Number", "batchNumber", "Quality Grade", "qualityGrade",
    "Expiry Date (YYYY-MM-DD)", "expiryDate", "Price", "price"}

  /** The columns validated only for a bulk row. */
  const BulkColumns: set<string> := {"Quantity", "quantity", "Unit", "unit"}

  /** The columns validated only for a units row. */
  const UnitsColumns: set<string> := {
    "Variant Name", "variantName", "Variant Size", "variantSize",
    "Variant Unit", "variantUnit", "Units in Stock", "unitsInStock"}

  /**
    A cell outside the columns validated for the row's product type
    changes neither the row's fields nor, so, its errors.
   */
  lemma UnvalidatedColumnsDoNotMatter(row: Row, k: string, c: Cell, parseFloat: string -> Number)
    requires k !in CommonColumns
    requires ProductType(row) == "bulk" ==> k !in BulkColumns
    requires ProductType(row) == "units" ==> k !in UnitsColumns
    ensures FieldsOf(row[k := c], parseFloat) == FieldsOf(row, parseFloat)
    ensures RowErrors(row[k := c], parseFloat) == RowErrors(row, parseFloat)
  {
    var row' := row[k := c];
    SameEither(row, k, c, "Product Type", "productType");
    SameEither(row, k, c, "Product Name", "productName");
    SameEither(row, k, c, "Product ID", "productId");
    SameEither(row, k, c, "Batch Number", "batchNumber");
    SameEither(row, k, c, "Quality Grade", "qualityGrade");
    SameEither(row, k, c, "Expiry Date (YYYY-MM-DD)", "expiryDate");
    SameEither(row, k, c, "Price", "price");
    assert ProductType(row') == ProductType(row);
    if ProductType(row) == "bulk" {
      SameEither(row, k, c, "Quantity", "quantity");
      SameEither(row, k, c, "Unit", "unit");
    } else if ProductType(row) == "units" {
      SameEither(row, k, c, "Variant Name", "variantName");
      SameEither(row, k, c, "Variant Size", "variantSize");
      SameEither(row, k, c, "Variant Unit", "variantUnit");
      SameEither(row, k, c, "Units in Stock", "unitsInStock");
    }
  }

  lemma SameEither(row: Row, k: string, c: Cell, a: string, b: string)
    requires a != k && b != k
    ensures Either(row[k := c], a, b) == Either(row, a, b)
  {
    assert (a in row[k := c] <==> a in row) && (b in row[k := c] <==> b in row);
  }

  /**
    The columns that only give warnings (location, currency, price type,
    notes) are never validated, so they never decide whether a row is valid.
   */
  lemma WarningColumnsAreNotValidated(row: Row, k: string, c: Cell, parseFloat: string -> Number)
    requires k in {"Location", "location", "Currency", "currency", "Price Type", "priceType", "Notes"}
    ensures RowErrors(row[k := c], parseFloat) == RowErrors(row, parseFloat)
  {
    assert k !in CommonColumns && k !in BulkColumns && k !in UnitsColumns;
    UnvalidatedColumnsDoNotMatter(row, k, c, parseFloat);
  }
  /** One entry of `validationResults`. */
  datatype ValidationResult = ValidationResult(
    rowNumber: nat, data: Row, isValid: bool, errors: seq<RowError>, warnings: seq<RowWarning>)

  function ResultFor(index: nat, row: Row, available: seq<string>, parseFloat: string -> Number): (r: ValidationResult)
    ensures r.rowNumber == index + 2 && r.data == row
    ensures r.errors == RowErrors(row, parseFloat) && r.warnings == RowWarnings(row, available)
    ensures r.isValid <==> r.errors == []
  {
    var errors := RowErrors(row, parseFloat);
    ValidationResult(index + 2, row, errors == [], errors, RowWarnings(row, available))
  }

  function CountValid(results: seq<ValidationResult>): (n: nat)
    ensures n <= |results|
  {
    if results == [] then 0
    else CountValid(results[..|results| - 1]) + (if results[|results| - 1].isValid then 1 else 0)
  }

  /** Every result is valid exactly when all of them count as valid. */
  lemma {:induction false} AllValidIffCount(results: seq<ValidationResult>)
    ensures CountValid(results) == |results| <==> forall i :: 0 <= i < |results| ==> results[i].isValid
  {
    if results != [] {
      var init := results[..|results| - 1];
      AllValidIffCount(init);
      assert forall i :: 0 <= i < |init| ==> init[i] == results[i];
    }
  }

  /** The results of validating `rows`, row by row. */
  function Validated(rows: seq<Row>, available: seq<string>, parseFloat: string -> Number): (r: seq<ValidationResult>)
    ensures |r| == |rows|
  {
    if rows == [] then []
    else Validated(rows[..|rows| - 1], available, parseFloat)
         + [ResultFor(|rows| - 1, rows[|rows| - 1], available, parseFloat)]
  }

  /** Result `i` of validation is row `i`'s, numbered `i + 2`. */
  lemma {:induction false} ValidatedAt(rows: seq<Row>, available: seq<string>, parseFloat: string -> Number, i: nat)
    requires i < |rows|
    ensures Validated(rows, available, parseFloat)[i] == ResultFor(i, rows[i], available, parseFloat)
  {
    if i < |rows| - 1 {
      var init := rows[..|rows| - 1];
      ValidatedAt(init, available, parseFloat, i);
      assert init[i] == rows[i];
    }
  }

  /**
    `validateData(rows)`: one result per row, numbered from 2 (the header
    is row 1), and true exactly when every row is valid.
   */
  method ValidateData(rows: seq<Row>, available: seq<string>, parseFloat: string -> Number)
    returns (results: seq<ValidationResult>, allValid: bool)
    ensures results == Validated(rows, available, parseFloat)
    ensures allValid <==> forall i :: 0 <= i < |results| ==> results[i].isValid
  {
    results := [];
    var i := 0;
    while i < |rows|
      invariant 0 <= i <= |rows|
      invariant results == Validated(rows[..i], available, parseFloat)
    {
      assert rows[..i + 1][..i] == rows[..i];
      results := results + [ResultFor(i, rows[i], available, parseFloat)];
      i := i + 1;
    }
    assert rows[..i] == rows;
    var validCount := CountValidRows(results);
    AllValidIffCount(results);
    allValid := validCount == |results|;
  }

  /** `validationResults.filter(r => r.isValid).length`. */
  method CountValidRows(results: seq<ValidationResult>) returns (validCount: nat)
    ensures validCount == CountValid(results)
  {
    validCount := 0;
    var i := 0;
    while i < |results|
      invariant 0 <= i <= |results|
      invariant validCount == CountValid(results[..i])
    {
      assert results[..i + 1][..i] == results[..i];
      if results[i].isValid {
        validCount := validCount + 1;
      }
      i := i + 1;
    }
    assert results[..i] == results;
  }

  // ----- save-time derivations -----

  /** A record of `fgStorageLocations`. */
  datatype StorageLocation = StorageLocation(code: string, status: string)

  const DefaultLocations: seq<string> := ["FG-A1", "FG-A2", "FG-B1", "FG-B2"]

  function ActiveCodes(stored: seq<StorageLocation>): (r: seq<string>)
    ensures |r| <= |stored|
    ensures forall c :: c in r <==> exists i :: 0 <= i < |stored| && stored[i].status == "active" && stored[i].code == c
    ensures r == [] <==> forall i :: 0 <= i < |stored| ==> stored[i].status != "active"
  {
    if stored == [] then []
    else
      var rest := ActiveCodes(stored[1..]);
      assert forall i :: 0 < i < |stored| ==> stored[i] == stored[1..][i - 1];
      (if stored[0].status == "active" then [stored[0].code] else []) + rest
  }

  /**
    The locations rows may name: the codes of the active storage locations,
    or the four default locations when there is none (or the table is
    missing, which reads as an empty table).
   */
  function AvailableLocations(stored: seq<StorageLocation>): (r: seq<string>)
    ensures |r| > 0
    ensures (exists i :: 0 <= i < |stored| && stored[i].status == "active") ==> r == ActiveCodes(stored)
    ensures (forall i :: 0 <= i < |stored| ==> stored[i].status != "active") ==> r == DefaultLocations
  {
    var codes := ActiveCodes(stored);
    if |codes| > 0 then codes else DefaultLocations
  }

  /** The location stored for a row: the named location if available, else 'FG-A1'. */
  function StoredLocation(row: Row, available: seq<string>): (r: string)
    ensures r in available || r == "FG-A1"
    ensures LocationField(row) in available && LocationField(row) != "" ==> r == LocationField(row)
    ensures LocationField(row) !in available ==> r == "FG-A1"
  {
    var loc := LocationField(row);
    var named := if loc != "" then loc else "FG-A1";
    if named in available then named else "FG-A1"
  }

  /**
    The pricing key: `productId_variantName` for a units row whose
    'Variant Name' cell is filled, else the product id.
   */
  function PricingKey(row: Row): (r: string)
    ensures ProductType(row) == "units" && "Variant Name" in row && CellTruthy(row["Variant Name"])
            ==> r == ProductId(row) + "_" + Trim(CellText(row["Variant Name"]))
    ensures !(ProductType(row) == "units" && "Variant Name" in row && CellTruthy(row["Variant Name"]))
            ==> r == ProductId(row)
  {
    if ProductType(row) == "units" && "Variant Name" in row && CellTruthy(row["Variant Name"]) then
      ProductId(row) + "_" + Trim(TextOr(row, "Variant Name", "variantName", ""))
    else ProductId(row)
  }

  /**
    A units row whose variant is given only under `variantName` is valid,
    but its price is keyed by the bare product id.
   */
  lemma VariantAliasNotInKey(row: Row)
    requires ProductType(row) == "units" && "Variant Name" !in row
    ensures PricingKey(row) == ProductId(row)
  {
  }

  /** The entry added to the bulk inventory. */
  datatype BulkEntry = BulkEntry(
    productId: string, productName: string, batchNumber: string, quantity: real, unit: string,
    qualityGrade: string, expiryDate: Option<string>, location: string)

  /** The entry added to the packaged inventory. */
  datatype PackagedEntry = PackagedEntry(
    productId: string, productName: string, variantName: string, batchNumber: string, unitsReceived: real,
    variantSize: string, variantUnit: string, qualityGrade: string, expiryDate: Option<string>, location: string)

  /** A call issued to the inventory or pricing service. */
  datatype SaveCall =
    | AddToInventory(bulk: BulkEntry)
    | AddPackagedUnits(packaged: PackagedEntry)
    | UpdateProductPrice(key: string, price: Number, currency: string, priceType: string)

  function OrDefault(s: string, dflt: string): string
  {
    if s != "" then s else dflt
  }

  /** The calls one row makes, in order: the inventory entry for its type, then its price. */
  function RowCalls(row: Row, available: seq<string>, parseFloat: string -> Number): (r: seq<SaveCall>)
    ensures |r| == (if KindOf(row, parseFloat).UnknownType? then 1 else 2)
    ensures r[|r| - 1].UpdateProductPrice? && r[|r| - 1].key == PricingKey(row)
    ensures KindOf(row, parseFloat).Bulk? ==> r[0].AddToInventory? && r[0].bulk.location == StoredLocation(row, available)
    ensures KindOf(row, parseFloat).Units? ==> r[0].AddPackagedUnits? && r[0].packaged.location == StoredLocation(row, available)
    ensures r[|r| - 1].currency == (if Currency(row) != "" then Currency(row) else "LKR")
    ensures r[|r| - 1].priceType == (if PriceType(row) != "" then PriceType(row) else "retail")
  {
    var f := FieldsOf(row, parseFloat);
    var grade := OrDefault(f.qualityGrade, "A");
    var expiry := if f.expiryDate != "" then Some(f.expiryDate) else None;
    var location := StoredLocation(row, available);
    var inventory :=
      match f.kind
      case Bulk(quantity, unit) =>
        [AddToInventory(BulkEntry(f.productId, f.productName, f.batchNumber, OrZero(quantity), unit,
                                  grade, expiry, location))]
      case Units(name, size, unit, units) =>
        [AddPackagedUnits(PackagedEntry(f.productId, f.productName, name, f.batchNumber, OrZero(units),
                                        size, unit, grade, expiry, location))]
      case UnknownType => [];
    inventory + [UpdateProductPrice(PricingKey(row), if f.price.Some? then f.price.value else Num(0.0),
                                    OrDefault(Currency(row), "LKR"), OrDefault(PriceType(row), "retail"))]
  }

  /**
    The warnings about a non-standard currency or price type announce a
    default, but the save stores the value as read whenever it is not empty.
   */
  lemma NonStandardValuesStoredAsRead(row: Row, available: seq<string>, parseFloat: string -> Number)
    ensures var calls := RowCalls(row, available, parseFloat);
            forall c :: NonStandardCurrency(c) in RowWarnings(row, available) && c != "" ==>
              calls[|calls| - 1].currency == c && !StandardCurrency(c)
    ensures var calls := RowCalls(row, available, parseFloat);
            forall t :: NonStandardPriceType(t) in RowWarnings(row, available) && t != "" ==>
              calls[|calls| - 1].priceType == t && !StandardPriceType(t)
  {
  }

  /**
    The calls a row actually issues when the services answer `accepts`:
    its calls up to and including the first refused one.
   */
  function Attempted(calls: seq<SaveCall>, accepts: SaveCall -> bool): (r: seq<SaveCall>)
    ensures |r| <= |calls| && r == calls[..|r|]
    ensures forall i :: 0 <= i < |r| - 1 ==> accepts(r[i])
  {
    if calls == [] then []
    else if !accepts(calls[0]) then [calls[0]]
    else [calls[0]] + Attempted(calls[1..], accepts)
  }

  predicate AllAccepted(calls: seq<SaveCall>, accepts: SaveCall -> bool)
  {
    forall i :: 0 <= i < |calls| ==> accepts(calls[i])
  }

  /** A row whose calls are all accepted issues all of them. */
  lemma {:induction false} AttemptedAll(calls: seq<SaveCall>, accepts: SaveCall -> bool)
    requires AllAccepted(calls, accepts)
    ensures Attempted(calls, accepts) == calls
  {
    if calls != [] {
      assert AllAccepted(calls[1..], accepts) by {
        forall i | 0 <= i < |calls[1..]| ensures accepts(calls[1..][i]) {
          assert calls[1..][i] == calls[i + 1];
        }
      }
      AttemptedAll(calls[1..], accepts);
    }
  }

  /** `validationResults.filter(r => r.isValid)`: the valid results, all of them, in order. */
  function ValidRows(results: seq<ValidationResult>): (r: seq<ValidationResult>)
    ensures |r| == CountValid(results)
    ensures forall x :: x in r ==> x in results && x.isValid
    ensures forall x :: x in results && x.isValid ==> x in r
  {
    if results == [] then []
    else
      var last := results[|results| - 1];
      ValidRows(results[..|results| - 1]) + (if last.isValid then [last] else [])
  }

  /**
    Filtering keeps order: the valid rows of `a + b` are those of `a`
    followed by those of `b`.
   */
  lemma {:induction false} ValidRowsAppend(a: seq<ValidationResult>, b: seq<ValidationResult>)
    ensures ValidRows(a + b) == ValidRows(a) + ValidRows(b)
  {
    if b != [] {
      ValidRowsAppend(a, b[..|b| - 1]);
      assert (a + b)[..|a + b| - 1] == a + b[..|b| - 1];
    } else {
      assert a + b == a;
    }
  }

  /** The calls each of `rows` would make, row by row. */
  function Plans(rows: seq<ValidationResult>, available: seq<string>, parseFloat: string -> Number): (r: seq<seq<SaveCall>>)
    ensures |r| == |rows|
    ensures forall i :: 0 <= i < |rows| ==> r[i] == RowCalls(rows[i].data, available, parseFloat)
  {
    seq(|rows|, i requires 0 <= i < |rows| => RowCalls(rows[i].data, available, parseFloat))
  }

  /** All the calls issued when the rows' plans are carried out in order. */
  function SaveLog(plans: seq<seq<SaveCall>>, accepts: SaveCall -> bool): seq<SaveCall>
  {
    if plans == [] then []
    else SaveLog(plans[..|plans| - 1], accepts) + Attempted(plans[|plans| - 1], accepts)
  }

  /** How many plans have every call accepted. */
  function Saved(plans: seq<seq<SaveCall>>, accepts: SaveCall -> bool): (n: nat)
    ensures n <= |plans|
  {
    if plans == [] then 0
    else Saved(plans[..|plans| - 1], accepts) + (if AllAccepted(plans[|plans| - 1], accepts) then 1 else 0)
  }

  datatype SaveError = NoValidRows

  /**
    Saving one row: its calls are issued in order until one is refused;
    the row is saved when none is.
   */
  method SaveRow(rowCalls: seq<SaveCall>, accepts: SaveCall -> bool) returns (ok: bool, issued: seq<SaveCall>)
    ensures issued == Attempted(rowCalls, accepts)
    ensures ok <==> AllAccepted(rowCalls, accepts)
  {
    ok := true;
    issued := [];
    var k := 0;
    while k < |rowCalls| && ok
      invariant 0 <= k <= |rowCalls|
      invariant ok ==> issued == rowCalls[..k] && forall j :: 0 <= j < k ==> accepts(rowCalls[j])
      invariant !ok ==> issued == Attempted(rowCalls, accepts) && !AllAccepted(rowCalls, accepts)
    {
      AttemptedPrefix(rowCalls, accepts, k);
      issued := issued + [rowCalls[k]];
      if !accepts(rowCalls[k]) {
        ok := false;
      }
      k := k + 1;
    }
    if ok {
      assert issued == rowCalls;
      AttemptedAll(rowCalls, accepts);
    }
  }

  /**
    The loop of `saveToDatabase`: each plan is carried out in turn, and a
    plan with a refused call counts as an error without stopping the others.
   */
  method SavePlans(plans: seq<seq<SaveCall>>, accepts: SaveCall -> bool)
    returns (successCount: nat, errorCount: nat, calls: seq<SaveCall>)
    ensures successCount == Saved(plans, accepts)
    ensures successCount + errorCount == |plans|
    ensures calls == SaveLog(plans, accepts)
  {
    calls := [];
    successCount := 0;
    errorCount := 0;
    var i := 0;
    while i < |plans|
      invariant 0 <= i <= |plans|
      invariant successCount == Saved(plans[..i], accepts)
      invariant successCount + errorCount == i
      invariant calls == SaveLog(plans[..i], accepts)
    {
      assert plans[..i + 1][..i] == plans[..i];
      var ok, issued := SaveRow(plans[i], accepts);
      calls := calls + issued;
      if ok {
        successCount := successCount + 1;
      } else {
        errorCount := errorCount + 1;
      }
      i := i + 1;
    }
    assert plans[..i] == plans;
  }

  /**
    `saveToDatabase`: refused when no row is valid; otherwise the valid
    rows are saved in order, and the numbers of rows saved and failed are
    reported.
   */
  method SaveToDatabase(results: seq<ValidationResult>, available: seq<string>, parseFloat: string -> Number,
                        accepts: SaveCall -> bool)
    returns (r: Result<(nat, nat), SaveError>, calls: seq<SaveCall>)
    ensures CountValid(results) == 0 <==> r == Err(NoValidRows)
    ensures r.Err? ==> calls == []
    ensures r.Ok? ==>
      var plans := Plans(ValidRows(results), available, parseFloat);
      && r.value.0 == Saved(plans, accepts)
      && r.value.0 + r.value.1 == |plans| == CountValid(results)
      && calls == SaveLog(plans, accepts)
  {
    var plans := Plans(ValidRows(results), available, parseFloat);
    if |plans| == 0 {
      return Err(NoValidRows), [];
    }
    var successCount, errorCount;
    successCount, errorCount, calls := SavePlans(plans, accepts);
    r := Ok((successCount, errorCount));
  }

  /**
    The row's attempted calls continue its first `k` accepted calls with
    the next one, and stop there when it is refused.
   */
  lemma {:induction false} AttemptedPrefix(calls: seq<SaveCall>, accepts: SaveCall -> bool, k: nat)
    requires k < |calls| && forall j :: 0 <= j < k ==> accepts(calls[j])
    ensures |Attempted(calls, accepts)| > k && Attempted(calls, accepts)[..k + 1] == calls[..k + 1]
    ensures !accepts(calls[k]) ==> Attempted(calls, accepts) == calls[..k + 1]
  {
    if k > 0 {
      AttemptedPrefix(calls[1..], accepts, k - 1);
      assert calls[1..][..k] == calls[1..k + 1];
    }
  }
}
