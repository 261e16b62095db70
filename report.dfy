/** What the reconciliation report promises its reader, stated over the
    specification of `process_inventory_data` (main.py:79-183): which columns
    it has, what each data row holds, and what the Grand Total row adds up. */
module ReportFacts {
  import opened Cells
  import opened Seqs
  import opened Aggregation
  import opened ColumnRoles
  import opened Frames
  import opened Reconcile

  // ---------------------------------------------------------------------------
  // The output columns (main.py:119-143, 159-171)
  // ---------------------------------------------------------------------------

  /** The key and the two quantities are always reported; an enrichment column
      exactly when the master has both a SKU column and that role's column; no
      column twice, and all in the fixed final order. */
  lemma {:induction false} OutputColumnsShape(m: Master, role: Role)
    requires role in EnrichmentOrder
    ensures SkuCol in OutputColumns(m) && InventoryQtyCol in OutputColumns(m) && SalesQtyCol in OutputColumns(m)
    ensures RoleColumn(role) in OutputColumns(m) <==>
      Detect(Names(m), Sku).Some? && Detect(Names(m), role).Some?
    ensures NoDup(OutputColumns(m)) && Subseq(OutputColumns(m), FinalOrder)
  {
    FinalOrderNoDup();
    BaseIndices(m);
    RoleNamesMembership(Roles(m), role);
    assert RoleColumn(role) !in BaseNames;
    assert RoleColumn(role) in FinalOrder;
  }

  // ---------------------------------------------------------------------------
  // The data rows
  // ---------------------------------------------------------------------------

  /** A field of a restricted and coerced row is the coerced working cell. */
  lemma {:induction false} FinalField(w: seq<Column>, f: seq<Column>, row: seq<Cell>, c: Column)
    requires |row| == |w| && (forall x :: x in f ==> x in w) && c in f
    ensures c in w
    ensures Field(f, FinalRow(w, f, row), c) == Coerce(c, row[IndexOf(w, c)])
  {
  }

  /** Where an enrichment column sits in the working table, its dtype, and
      the cell it holds for every key. */
  lemma {:induction false} RoleCell(orders: seq<Order>, stock: seq<Stock>, m: Master, role: Role, i: nat)
    requires MasterWellFormed(m) && role in EnrichmentOrder && RoleColumn(role) in WorkNames(m)
    requires i < |StockKeys(stock)|
    ensures role in Roles(m)
    ensures Working(orders, stock, m).rows[i][IndexOf(WorkNames(m), RoleColumn(role))]
      == EnrichCell(m, role, StockKeys(stock)[i])
  {
    var q := RoleSlot(Roles(m), role);
    WorkingLayout(orders, stock, m);
    EnrichedCellAt(m, Roles(m), BaseRow(orders, stock, StockKeys(stock)[i]), StockKeys(stock)[i], q);
  }

  lemma {:induction false} EnrichedCellAt(m: Master, roles: seq<Role>, base: seq<Cell>, key: string, q: nat)
    requires MasterWellFormed(m) && |base| == 3 && q < |roles|
    ensures (base + EnrichCells(m, roles, key))[3 + q] == EnrichCell(m, roles[q], key)
  {
  }

  lemma {:induction false} EnrichedKindAt(m: Master, roles: seq<Role>, q: nat)
    requires q < |roles|
    ensures (BaseKinds + RoleKinds(m, roles))[3 + q] == RoleKind(m, roles[q])
  {
  }


  /** The dtype of an enrichment column in the working table. */
  lemma {:induction false} RoleKindAt(orders: seq<Order>, stock: seq<Stock>, m: Master, role: Role)
    requires MasterWellFormed(m) && role in EnrichmentOrder && RoleColumn(role) in WorkNames(m)
    ensures role in Roles(m)
    ensures Working(orders, stock, m).kinds[IndexOf(WorkNames(m), RoleColumn(role))] == RoleKind(m, role)
  {
    var q := RoleSlot(Roles(m), role);
    WorkingLayout(orders, stock, m);
    EnrichedKindAt(m, Roles(m), q);
  }


  /** An enrichment column comes after the three base columns, at the place
      of its role. */
  lemma {:induction false} RoleSlot(roles: seq<Role>, role: Role) returns (q: nat)
    requires role in EnrichmentOrder && RoleColumn(role) in BaseNames + RoleNames(roles)
    ensures q < |roles| && roles[q] == role
    ensures IndexOf(BaseNames + RoleNames(roles), RoleColumn(role)) == 3 + q
  {
    var w := BaseNames + RoleNames(roles);
    var j := IndexOf(w, RoleColumn(role));
    assert w[0] == SkuCol && w[1] == InventoryQtyCol && w[2] == SalesQtyCol;
    q := j - 3;
    assert w[j] == RoleNames(roles)[q] == RoleColumn(roles[q]);
    ColumnNameInjective(roles[q], role);
  }

  /** Data row `i` of the report, in key order, carries key `i`, its stock
      and its Flipkart sales. */
  lemma {:induction false} ExpectedRowFields(orders: seq<Order>, stock: seq<Stock>, m: Master, i: nat)
    requires MasterWellFormed(m) && i < |StockKeys(stock)|
    ensures |ExpectedRows(orders, stock, m)| == |StockKeys(stock)|
    ensures Field(OutputColumns(m), ExpectedRows(orders, stock, m)[i], SkuCol) == Str(StockKeys(stock)[i])
    ensures Field(OutputColumns(m), ExpectedRows(orders, stock, m)[i], InventoryQtyCol)
      == Int(InventoryHeld(stock, StockKeys(stock)[i]))
    ensures Field(OutputColumns(m), ExpectedRows(orders, stock, m)[i], SalesQtyCol)
      == Int(FlipkartSold(orders, StockKeys(stock)[i]))
  {
    var w, f := WorkNames(m), OutputColumns(m);
    var key := StockKeys(stock)[i];
    var row := Working(orders, stock, m).rows[i];
    assert row == BaseRow(orders, stock, key) + EnrichCells(m, Roles(m), key);
    assert ExpectedRows(orders, stock, m)[i] == FinalRow(w, f, row);
    OutputColumnsShape(m, Cp);
    BaseIndices(m);
    BaseFields(w, f, row, key, InventoryHeld(stock, key), FlipkartSold(orders, key));
  }

  lemma {:induction false} BaseFields(w: seq<Column>, f: seq<Column>, row: seq<Cell>, key: string, held: int, sold: int)
    requires |row| == |w| && (forall x :: x in f ==> x in w)
    requires SkuCol in f && InventoryQtyCol in f && SalesQtyCol in f
    requires SkuCol in w && IndexOf(w, SkuCol) == 0 && row[0] == Str(key)
    requires InventoryQtyCol in w && IndexOf(w, InventoryQtyCol) == 1 && row[1] == Int(held)
    requires SalesQtyCol in w && IndexOf(w, SalesQtyCol) == 2 && row[2] == Int(sold)
    ensures Field(f, FinalRow(w, f, row), SkuCol) == Str(key)
    ensures Field(f, FinalRow(w, f, row), InventoryQtyCol) == Int(held)
    ensures Field(f, FinalRow(w, f, row), SalesQtyCol) == Int(sold)
  {
    FinalField(w, f, row, SkuCol);
    FinalField(w, f, row, InventoryQtyCol);
    FinalField(w, f, row, SalesQtyCol);
  }

  /** A key the master carries gets the master's value in every enrichment
      column the master provides: as text, or as an integer for CP. */
  lemma {:induction false} ExpectedEnrichment(orders: seq<Order>, stock: seq<Stock>, m: Master, i: nat, role: Role, r: nat)
    requires MasterWellFormed(m) && MapsUniquely(m) && i < |StockKeys(stock)| && role in EnrichmentOrder
    requires Detect(Names(m), Sku).Some? && Detect(Names(m), role).Some?
    requires r < |m.rows| && MasterKey(m, Detect(Names(m), Sku).value, r) == Strip(StockKeys(stock)[i])
    ensures RoleColumn(role) in OutputColumns(m)
    ensures Field(OutputColumns(m), ExpectedRows(orders, stock, m)[i], RoleColumn(role)) ==
      var v := m.rows[r][Detect(Names(m), role).value];
      if role == Cp then ToInt(v) else ToText(v)
  {
    var w, f := WorkNames(m), OutputColumns(m);
    var s, c := Detect(Names(m), Sku).value, Detect(Names(m), role).value;
    var key := StockKeys(stock)[i];
    var row := Working(orders, stock, m).rows[i];
    OutputColumnsShape(m, role);
    RoleCell(orders, stock, m, role, i);
    assert |Names(m)| == |m.headers|;
    LookupUnique(m, s, c, key, r);
    assert EnrichCell(m, role, key) == Enriched(role, m.rows[r][c]);
    assert ExpectedRows(orders, stock, m)[i] == FinalRow(w, f, row);
    FinalField(w, f, row, RoleColumn(role));
    CoerceEnriched(role, m.rows[r][c]);
  }

  /** The dtype fix leaves CP an integer and turns the other enrichment
      columns to text. */
  lemma {:induction false} CoerceEnriched(role: Role, v: Cell)
    requires role in EnrichmentOrder
    ensures Coerce(RoleColumn(role), Enriched(role, v)) == if role == Cp then ToInt(v) else ToText(v)
  {
    CoercionsIdempotent(v);
  }

  /** A key no master row carries keeps its row, with NaN in the text
      enrichment columns and 0 in CP. */
  lemma {:induction false} ExpectedEnrichmentUnmatched(orders: seq<Order>, stock: seq<Stock>, m: Master, i: nat, role: Role)
    requires MasterWellFormed(m) && i < |StockKeys(stock)| && role in EnrichmentOrder
    requires Detect(Names(m), Sku).Some? && Detect(Names(m), role).Some?
    requires forall r :: 0 <= r < |m.rows| ==>
      MasterKey(m, Detect(Names(m), Sku).value, r) != Strip(StockKeys(stock)[i])
    ensures RoleColumn(role) in OutputColumns(m)
    ensures Field(OutputColumns(m), ExpectedRows(orders, stock, m)[i], RoleColumn(role)) ==
      if role == Cp then Int(0) else Missing
  {
    var w, f := WorkNames(m), OutputColumns(m);
    var s, c := Detect(Names(m), Sku).value, Detect(Names(m), role).value;
    var key := StockKeys(stock)[i];
    var row := Working(orders, stock, m).rows[i];
    OutputColumnsShape(m, role);
    RoleCell(orders, stock, m, role, i);
    assert |Names(m)| == |m.headers|;
    LookupMissing(m, s, c, key);
    assert EnrichCell(m, role, key) == Enriched(role, Missing);
    assert ExpectedRows(orders, stock, m)[i] == FinalRow(w, f, row);
    FinalField(w, f, row, RoleColumn(role));
    CoerceEnriched(role, Missing);
  }

  // ---------------------------------------------------------------------------
  // The data rows in any order (main.py:93-108, 146)
  // ---------------------------------------------------------------------------

  /** `row` is the report row of inventory key `k`. */
  predicate RowFor(orders: seq<Order>, stock: seq<Stock>, m: Master, row: seq<Cell>, k: string) {
    var f := OutputColumns(m);
    Field(f, row, SkuCol) == Str(k)
    && Field(f, row, InventoryQtyCol) == Int(InventoryHeld(stock, k))
    && Field(f, row, SalesQtyCol) == Int(FlipkartSold(orders, k))
  }

  /** `row` is the report row of the inventory key it carries, a cleaned
      inventory SKU. */
  predicate Keyed(orders: seq<Order>, stock: seq<Stock>, m: Master, row: seq<Cell>) {
    var sku := Field(OutputColumns(m), row, SkuCol);
    sku.Str? && sku.s in CleanSkus(stock) && RowFor(orders, stock, m, row, sku.s)
  }

  /** No two data rows of the specification carry the same key. */
  lemma {:induction false} ExpectedKeysDistinct(orders: seq<Order>, stock: seq<Stock>, m: Master, a: nat, b: nat)
    requires MasterWellFormed(m) && a < b < |StockKeys(stock)|
    ensures Field(OutputColumns(m), ExpectedRows(orders, stock, m)[a], SkuCol)
      != Field(OutputColumns(m), ExpectedRows(orders, stock, m)[b], SkuCol)
  {
    ExpectedRowFields(orders, stock, m, a);
    ExpectedRowFields(orders, stock, m, b);
  }

  /** The data rows of the specification: one per key, in key order, each
      the row of its key, no two alike. */
  lemma {:induction false} ExpectedRowsPerKey(orders: seq<Order>, stock: seq<Stock>, m: Master)
    requires MasterWellFormed(m)
    ensures |ExpectedRows(orders, stock, m)| == |StockKeys(stock)|
    ensures forall a :: 0 <= a < |StockKeys(stock)| ==>
      RowFor(orders, stock, m, ExpectedRows(orders, stock, m)[a], StockKeys(stock)[a])
    ensures NoDup(ExpectedRows(orders, stock, m))
  {
    var e := ExpectedRows(orders, stock, m);
    forall a | 0 <= a < |StockKeys(stock)| ensures RowFor(orders, stock, m, e[a], StockKeys(stock)[a]) {
      ExpectedRowFields(orders, stock, m, a);
    }
    forall x, y | 0 <= x < y < |e| ensures e[x] != e[y] {
      ExpectedKeysDistinct(orders, stock, m, x, y);
    }
  }

  /** However the data rows are reordered (the unstable sort included), there
      is exactly one per distinct cleaned inventory SKU, it carries that SKU's
      stock and Flipkart sales, and a SKU found only in the orders has none. */
  lemma {:induction false} ReportRowsPerKey(orders: seq<Order>, stock: seq<Stock>, m: Master, rows: seq<seq<Cell>>)
    requires MasterWellFormed(m) && multiset(rows) == multiset(ExpectedRows(orders, stock, m))
    ensures |rows| == |StockKeys(stock)|
    ensures forall j :: 0 <= j < |rows| ==> Keyed(orders, stock, m, rows[j])
    ensures forall k :: k in CleanSkus(stock) ==> exists j :: 0 <= j < |rows| && RowFor(orders, stock, m, rows[j], k)
    ensures forall j1, j2 :: 0 <= j1 < j2 < |rows| ==>
      Field(OutputColumns(m), rows[j1], SkuCol) != Field(OutputColumns(m), rows[j2], SkuCol)
  {
    ExpectedRowsPerKey(orders, stock, m);
    PermutedRowsPerKey(orders, stock, m, ExpectedRows(orders, stock, m), rows);
  }

  lemma {:induction false} PermutedRowsPerKey(orders: seq<Order>, stock: seq<Stock>, m: Master, e: seq<seq<Cell>>, rows: seq<seq<Cell>>)
    requires multiset(rows) == multiset(e) && |e| == |StockKeys(stock)| && NoDup(e)
    requires forall a :: 0 <= a < |StockKeys(stock)| ==> RowFor(orders, stock, m, e[a], StockKeys(stock)[a])
    ensures |rows| == |StockKeys(stock)|
    ensures forall j :: 0 <= j < |rows| ==> Keyed(orders, stock, m, rows[j])
    ensures forall k :: k in CleanSkus(stock) ==> exists j :: 0 <= j < |rows| && RowFor(orders, stock, m, rows[j], k)
    ensures forall j1, j2 :: 0 <= j1 < j2 < |rows| ==>
      Field(OutputColumns(m), rows[j1], SkuCol) != Field(OutputColumns(m), rows[j2], SkuCol)
  {
    assert |rows| == |multiset(rows)| == |multiset(e)| == |e|;
    PermutedRowsKeyed(orders, stock, m, e, rows);
    PermutedRowsCover(orders, stock, m, e, rows);
    PermutedRowsDistinct(orders, stock, m, e, rows);
  }

  lemma {:induction false} PermutedRowsKeyed(orders: seq<Order>, stock: seq<Stock>, m: Master, e: seq<seq<Cell>>, rows: seq<seq<Cell>>)
    requires multiset(rows) == multiset(e) && |e| == |StockKeys(stock)|
    requires forall a :: 0 <= a < |StockKeys(stock)| ==> RowFor(orders, stock, m, e[a], StockKeys(stock)[a])
    ensures forall j :: 0 <= j < |rows| ==> Keyed(orders, stock, m, rows[j])
  {
    var keys := StockKeys(stock);
    forall j | 0 <= j < |rows| ensures Keyed(orders, stock, m, rows[j]) {
      assert rows[j] in multiset(e);
      var a :| 0 <= a < |e| && e[a] == rows[j];
      assert keys[a] in CleanSkus(stock);
    }
  }

  lemma {:induction false} PermutedRowsCover(orders: seq<Order>, stock: seq<Stock>, m: Master, e: seq<seq<Cell>>, rows: seq<seq<Cell>>)
    requires multiset(rows) == multiset(e) && |e| == |StockKeys(stock)|
    requires forall a :: 0 <= a < |StockKeys(stock)| ==> RowFor(orders, stock, m, e[a], StockKeys(stock)[a])
    ensures forall k :: k in CleanSkus(stock) ==> exists j :: 0 <= j < |rows| && RowFor(orders, stock, m, rows[j], k)
  {
    var keys := StockKeys(stock);
    forall k | k in CleanSkus(stock) ensures exists j :: 0 <= j < |rows| && RowFor(orders, stock, m, rows[j], k) {
      var a :| 0 <= a < |keys| && keys[a] == k;
      assert e[a] in multiset(rows);
      var j :| 0 <= j < |rows| && rows[j] == e[a];
    }
  }

  lemma {:induction false} PermutedRowsDistinct(orders: seq<Order>, stock: seq<Stock>, m: Master, e: seq<seq<Cell>>, rows: seq<seq<Cell>>)
    requires multiset(rows) == multiset(e) && |e| == |StockKeys(stock)| && NoDup(e)
    requires forall a :: 0 <= a < |StockKeys(stock)| ==> RowFor(orders, stock, m, e[a], StockKeys(stock)[a])
    ensures forall j1, j2 :: 0 <= j1 < j2 < |rows| ==>
      Field(OutputColumns(m), rows[j1], SkuCol) != Field(OutputColumns(m), rows[j2], SkuCol)
  {
    var keys := StockKeys(stock);
    var f := OutputColumns(m);
    PermutationNoDup(e, rows);
    forall j1, j2 | 0 <= j1 < j2 < |rows| ensures Field(f, rows[j1], SkuCol) != Field(f, rows[j2], SkuCol) {
      assert rows[j1] in multiset(e) && rows[j2] in multiset(e);
      var a1 :| 0 <= a1 < |e| && e[a1] == rows[j1];
      var a2 :| 0 <= a2 < |e| && e[a2] == rows[j2];
      assert keys[a1] != keys[a2] || a1 == a2;
    }
  }


  // ---------------------------------------------------------------------------
  // The Grand Total row (main.py:149-156, 174-181)
  // ---------------------------------------------------------------------------

  /** Over one row per key, the Inventory QTY column adds up the keys' stock. */
  lemma {:induction false} HeldColumnSum(stock: seq<Stock>, keys: seq<string>, rows: seq<seq<Cell>>)
    requires |rows| == |keys|
    requires forall i :: 0 <= i < |rows| ==> NumAt(rows[i], 1) == InventoryHeld(stock, keys[i])
    ensures ColumnSum(rows, 1) == SumForKeys(keys, StockPairs(stock))
  {
    if rows != [] {
      StockPairsSum(stock, keys[0]);
      HeldColumnSum(stock, keys[1..], rows[1..]);
    }
  }

  /** Over one row per key, the Sales QTY column adds up the keys' sales. */
  lemma {:induction false} SoldColumnSum(orders: seq<Order>, keys: seq<string>, rows: seq<seq<Cell>>)
    requires |rows| == |keys|
    requires forall i :: 0 <= i < |rows| ==> NumAt(rows[i], 2) == FlipkartSold(orders, keys[i])
    ensures ColumnSum(rows, 2) == SoldPerKey(orders, keys)
  {
    if rows != [] {
      SoldColumnSum(orders, keys[1..], rows[1..]);
    }
  }

  /** The base cells of the working table, column by column. */
  lemma {:induction false} WorkingBaseCells(orders: seq<Order>, stock: seq<Stock>, m: Master)
    requires MasterWellFormed(m)
    ensures Working(orders, stock, m).kinds[..3] == BaseKinds
    ensures forall i :: 0 <= i < |StockKeys(stock)| ==>
      Working(orders, stock, m).rows[i][..3] == BaseRow(orders, stock, StockKeys(stock)[i])
  {
    var work := Working(orders, stock, m);
    var keys := StockKeys(stock);
    forall i | 0 <= i < |keys| ensures work.rows[i][..3] == BaseRow(orders, stock, keys[i]) {
      assert work.rows[i] == BaseRow(orders, stock, keys[i]) + EnrichCells(m, Roles(m), keys[i]);
    }
  }

  /** Column sums of the working table's two quantity columns. */
  lemma {:induction false} WorkingBaseNums(orders: seq<Order>, stock: seq<Stock>, m: Master)
    requires MasterWellFormed(m)
    ensures forall i :: 0 <= i < |StockKeys(stock)| ==>
      NumAt(Working(orders, stock, m).rows[i], 1) == InventoryHeld(stock, StockKeys(stock)[i]) &&
      NumAt(Working(orders, stock, m).rows[i], 2) == FlipkartSold(orders, StockKeys(stock)[i])
  {
    var rows := Working(orders, stock, m).rows;
    WorkingBaseCells(orders, stock, m);
    forall i | 0 <= i < |rows| ensures rows[i][1] == rows[i][..3][1] && rows[i][2] == rows[i][..3][2] {
    }
  }

  lemma {:induction false} WorkingBaseSums(orders: seq<Order>, stock: seq<Stock>, m: Master)
    requires MasterWellFormed(m)
    ensures ColumnSum(Working(orders, stock, m).rows, 1) == TotalHeld(stock)
    ensures ColumnSum(Working(orders, stock, m).rows, 2) == FlipkartSoldTo(orders, set k | k in CleanSkus(stock))
  {
    var rows := Working(orders, stock, m).rows;
    var keys := StockKeys(stock);
    WorkingBaseCells(orders, stock, m);
    WorkingBaseNums(orders, stock, m);
    HeldColumnSum(stock, keys, rows);
    InventoryConserved(stock);
    SoldColumnSum(orders, keys, rows);
    SoldPerKeyIsSoldTo(orders, keys);
    assert (set k | k in keys) == set k | k in CleanSkus(stock);
  }

  /** The Grand Total carries "" as its SKU, the stock of every inventory
      record (nothing is lost or counted twice by the pivot), and the Flipkart
      units sold under any inventory SKU; units of SKUs missing from the
      inventory are not counted. */
  lemma {:induction false} ExpectedTotalFields(orders: seq<Order>, stock: seq<Stock>, m: Master)
    requires MasterWellFormed(m)
    ensures Field(OutputColumns(m), ExpectedTotal(orders, stock, m), SkuCol) == Str("")
    ensures Field(OutputColumns(m), ExpectedTotal(orders, stock, m), InventoryQtyCol) == Int(TotalHeld(stock))
    ensures Field(OutputColumns(m), ExpectedTotal(orders, stock, m), SalesQtyCol)
      == Int(FlipkartSoldTo(orders, set k | k in CleanSkus(stock)))
  {
    var work := Working(orders, stock, m);
    WorkingBaseCells(orders, stock, m);
    WorkingBaseSums(orders, stock, m);
    OutputColumnsShape(m, Cp);
    BaseIndices(m);
    TotalFields(OutputColumns(m), work, TotalHeld(stock), FlipkartSoldTo(orders, set k | k in CleanSkus(stock)));
  }

  lemma {:induction false} TotalFields(f: seq<Column>, work: Frame<Column>, held: int, sold: int)
    requires WellFormed(work) && forall x :: x in f ==> x in work.names
    requires SkuCol in f && InventoryQtyCol in f && SalesQtyCol in f
    requires SkuCol in work.names && IndexOf(work.names, SkuCol) == 0
    requires InventoryQtyCol in work.names && IndexOf(work.names, InventoryQtyCol) == 1
    requires SalesQtyCol in work.names && IndexOf(work.names, SalesQtyCol) == 2
    requires work.kinds[..3] == BaseKinds
    requires ColumnSum(work.rows, 1) == held && ColumnSum(work.rows, 2) == sold
    ensures Field(f, FinalRow(work.names, f, ColumnTotals(work)), SkuCol) == Str("")
    ensures Field(f, FinalRow(work.names, f, ColumnTotals(work)), InventoryQtyCol) == Int(held)
    ensures Field(f, FinalRow(work.names, f, ColumnTotals(work)), SalesQtyCol) == Int(sold)
  {
    var totals := ColumnTotals(work);
    assert work.kinds[0] == work.kinds[..3][0];
    assert work.kinds[1] == work.kinds[..3][1];
    assert work.kinds[2] == work.kinds[..3][2];
    BaseFields(work.names, f, totals, "", held, sold);
  }

  /** A numeric working column: its kind is numeric and each of its cells an
      integer. */
  lemma {:induction false} NumericSlot(orders: seq<Order>, stock: seq<Stock>, m: Master, c: Column)
    requires MasterWellFormed(m) && c in NumericColumns && c in WorkNames(m)
    ensures Working(orders, stock, m).kinds[IndexOf(WorkNames(m), c)] == Numeric
    ensures forall i :: 0 <= i < |StockKeys(stock)| ==> Working(orders, stock, m).rows[i][IndexOf(WorkNames(m), c)].Int?
  {
    if c == CpCol {
      CpSlot(orders, stock, m);
    } else {
      BaseSlot(orders, stock, m, c);
    }
  }

  lemma {:induction false} CpSlot(orders: seq<Order>, stock: seq<Stock>, m: Master)
    requires MasterWellFormed(m) && CpCol in WorkNames(m)
    ensures Working(orders, stock, m).kinds[IndexOf(WorkNames(m), CpCol)] == Numeric
    ensures forall i :: 0 <= i < |StockKeys(stock)| ==> Working(orders, stock, m).rows[i][IndexOf(WorkNames(m), CpCol)].Int?
  {
    var work, keys, w := Working(orders, stock, m), StockKeys(stock), WorkNames(m);
    CpRenamed(w, work.kinds, work.rows);
    RoleKindAt(orders, stock, m, Cp);
    forall i | 0 <= i < |keys| ensures work.rows[i][IndexOf(w, RoleColumn(Cp))].Int? {
      RoleCell(orders, stock, m, Cp, i);
      CpEnrichedInt(m, keys[i]);
    }
  }

  /** The CP column is `RoleColumn(Cp)`, stated over any names, kinds and rows. */
  lemma {:induction false} CpRenamed(w: seq<Column>, kinds: seq<Kind>, rows: seq<seq<Cell>>)
    requires CpCol in w && |kinds| == |w| && Rectangular(rows, |w|)
    ensures RoleColumn(Cp) in w && IndexOf(w, RoleColumn(Cp)) == IndexOf(w, CpCol)
    ensures kinds[IndexOf(w, RoleColumn(Cp))] == kinds[IndexOf(w, CpCol)]
    ensures forall i :: 0 <= i < |rows| ==> rows[i][IndexOf(w, RoleColumn(Cp))] == rows[i][IndexOf(w, CpCol)]
  {
    assert RoleColumn(Cp) == CpCol;
  }

  /** A CP cell is always an integer, matched or not. */
  lemma {:induction false} CpEnrichedInt(m: Master, key: string)
    requires MasterWellFormed(m) && Cp in Roles(m)
    ensures EnrichCell(m, Cp, key).Int?
  {
  }

  lemma {:induction false} BaseSlot(orders: seq<Order>, stock: seq<Stock>, m: Master, c: Column)
    requires MasterWellFormed(m) && (c == InventoryQtyCol || c == SalesQtyCol)
    ensures c in WorkNames(m)
    ensures Working(orders, stock, m).kinds[IndexOf(WorkNames(m), c)] == Numeric
    ensures forall i :: 0 <= i < |StockKeys(stock)| ==> Working(orders, stock, m).rows[i][IndexOf(WorkNames(m), c)].Int?
  {
    var work := Working(orders, stock, m);
    BaseIndices(m);
    WorkingBaseCells(orders, stock, m);
    var j := IndexOf(WorkNames(m), c);
    assert work.kinds[j] == work.kinds[..3][j];
    forall i | 0 <= i < |StockKeys(stock)| ensures work.rows[i][j].Int? {
      assert work.rows[i][j] == work.rows[i][..3][j];
    }
  }


  /** Restricting and coercing the rows keeps the sum of an integer column. */
  lemma {:induction false} FinalColumnSum(w: seq<Column>, f: seq<Column>, rows: seq<seq<Cell>>, c: Column)
    requires Rectangular(rows, |w|) && (forall x :: x in f ==> x in w) && c in f && c in NumericColumns
    requires forall i :: 0 <= i < |rows| ==> rows[i][IndexOf(w, c)].Int?
    ensures ColumnSum(FinalRows(w, f, rows), IndexOf(f, c)) == ColumnSum(rows, IndexOf(w, c))
  {
    if rows != [] {
      var out := FinalRows(w, f, rows);
      assert out[0] == FinalRow(w, f, rows[0]);
      assert out[1..] == FinalRows(w, f, rows[1..]);
      FinalField(w, f, rows[0], c);
      FinalColumnSum(w, f, rows[1..], c);
    }
  }

  /** Every numeric column's Grand Total is the sum of that column over the
      data rows above it, whatever their order. */
  lemma {:induction false} TotalIsColumnSum(orders: seq<Order>, stock: seq<Stock>, m: Master, rows: seq<seq<Cell>>, c: Column)
    requires MasterWellFormed(m) && c in NumericColumns && c in OutputColumns(m)
    requires multiset(rows) == multiset(ExpectedRows(orders, stock, m))
    ensures Field(OutputColumns(m), ExpectedTotal(orders, stock, m), c) == Int(ColumnSum(rows, IndexOf(OutputColumns(m), c)))
  {
    var w, f := WorkNames(m), OutputColumns(m);
    var work := Working(orders, stock, m);
    var k := IndexOf(f, c);
    NumericSlot(orders, stock, m, c);
    FinalField(w, f, ColumnTotals(work), c);
    FinalColumnSum(w, f, work.rows, c);
    ColumnSumPermutation(rows, ExpectedRows(orders, stock, m), k);
  }

  /** Every text column's Grand Total is "". */
  lemma {:induction false} TextTotalIsBlank(orders: seq<Order>, stock: seq<Stock>, m: Master, c: Column)
    requires MasterWellFormed(m) && c in OutputColumns(m)
    requires Working(orders, stock, m).kinds[IndexOf(WorkNames(m), c)] == Text
    ensures Field(OutputColumns(m), ExpectedTotal(orders, stock, m), c) == Str("")
  {
    var w, f := WorkNames(m), OutputColumns(m);
    if c in NumericColumns {
      NumericSlot(orders, stock, m, c);
      assert false;
    }
    Classified(c);
    FinalField(w, f, ColumnTotals(Working(orders, stock, m)), c);
  }

  /** An enrichment column other than CP whose master column is numeric gets
      the integer sum of its cells as Grand Total, which the text dtype fix
      then turns into decimal text. */
  lemma {:induction false} NumericTextTotal(orders: seq<Order>, stock: seq<Stock>, m: Master, role: Role)
    requires MasterWellFormed(m) && role in EnrichmentOrder && role != Cp
    requires RoleColumn(role) in OutputColumns(m) && RoleKind(m, role) == Numeric
    ensures Field(OutputColumns(m), ExpectedTotal(orders, stock, m), RoleColumn(role)) ==
      Str(IntToString(ColumnSum(Working(orders, stock, m).rows, IndexOf(WorkNames(m), RoleColumn(role)))))
  {
    var work, f := Working(orders, stock, m), OutputColumns(m);
    var c := RoleColumn(role);
    assert c in work.names;
    RoleKindAt(orders, stock, m, role);
    TextRoleColumn(role);
    NumericTotalAsText(work, f, c);
    assert ExpectedTotal(orders, stock, m) == FinalRow(work.names, f, ColumnTotals(work));
  }

  /** Every enrichment column but CP is fixed to text. */
  lemma {:induction false} TextRoleColumn(role: Role)
    requires role in EnrichmentOrder && role != Cp
    ensures RoleColumn(role) in TextColumns && RoleColumn(role) !in NumericColumns
  {
  }

  /** In any frame, a text column whose dtype is numeric gets the decimal
      text of its column sum as final Grand Total. */
  lemma {:induction false} NumericTotalAsText(work: Frame<Column>, f: seq<Column>, c: Column)
    requires WellFormed(work) && (forall x :: x in f ==> x in work.names) && c in f
    requires c !in NumericColumns && c in TextColumns
    requires work.kinds[IndexOf(work.names, c)] == Numeric
    ensures Field(f, FinalRow(work.names, f, ColumnTotals(work)), c) ==
      Str(IntToString(ColumnSum(work.rows, IndexOf(work.names, c))))
  {
    FinalField(work.names, f, ColumnTotals(work), c);
  }
}
