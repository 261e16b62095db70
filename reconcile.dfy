/** The reconciliation report: inventory per SKU, its Flipkart sales, the
    purchase-master attributes of the SKU, sorted by sales and closed by a
    Grand Total row (main.py:79-183). */
module Reconcile {
  import opened Cells
  import opened Seqs
  import opened Aggregation
  import opened ColumnRoles
  import opened Frames

  // ---------------------------------------------------------------------------
  // The purchase master
  // ---------------------------------------------------------------------------

  /** A purchase-master column: its header and its dtype. */
  datatype Header = Header(name: string, kind: Kind)

  /** The purchase master as read from its sheet. */
  datatype Master = Master(headers: seq<Header>, rows: seq<seq<Cell>>)

  predicate MasterWellFormed(m: Master) {
    Rectangular(m.rows, |m.headers|)
  }

  /** A numeric master column holds only integers and NaN, as a pandas
      numeric dtype does; text lives in text columns. */
  predicate MasterTyped(m: Master)
    requires MasterWellFormed(m)
  {
    forall r, j :: 0 <= r < |m.rows| && 0 <= j < |m.headers| && m.headers[j].kind == Numeric ==> !m.rows[r][j].Str?
  }

  /** `pm_df.columns`. */
  function Names(m: Master): seq<string> {
    seq(|m.headers|, i requires 0 <= i < |m.headers| => m.headers[i].name)
  }

  /** `pm_df[pm_sku].astype(str).str.strip()` in master row `r`. */
  function MasterKey(m: Master, s: nat, r: nat): string
    requires MasterWellFormed(m) && s < |m.headers| && r < |m.rows|
  {
    Strip(CellText(m.rows[r][s]))
  }

  /** No two master rows share a SKU. */
  predicate UniqueKeys(m: Master, s: nat)
    requires MasterWellFormed(m) && s < |m.headers|
  {
    NoDup(MasterKeys(m, s))
  }

  /** `Series.map` through `pm_df.set_index(pm_sku)` raises on a repeated SKU,
      so the source runs to completion only when the master's SKUs are unique
      or no enrichment column is mapped at all. */
  predicate MapsUniquely(m: Master)
    requires MasterWellFormed(m)
    ensures MapsUniquely(m) && Detect(Names(m), Sku).Some? && EnrichRoles(Names(m)) != [] ==>
      forall r1, r2 :: 0 <= r1 < r2 < |m.rows| ==>
        MasterKey(m, Detect(Names(m), Sku).value, r1) != MasterKey(m, Detect(Names(m), Sku).value, r2)
  {
    var names := Names(m);
    match Detect(names, Sku)
    case None => true
    case Some(s) =>
      assert s < |m.headers|;
      if EnrichRoles(names) == [] then true
      else UniqueKeysPairwise(m, s); UniqueKeys(m, s)
  }

  lemma {:induction false} UniqueKeysPairwise(m: Master, s: nat)
    requires MasterWellFormed(m) && s < |m.headers|
    ensures UniqueKeys(m, s) ==> forall r1, r2 :: 0 <= r1 < r2 < |m.rows| ==> MasterKey(m, s, r1) != MasterKey(m, s, r2)
  {
    var keys := MasterKeys(m, s);
    assert forall q :: 0 <= q < |keys| ==> keys[q] == MasterKey(m, s, q);
  }

  /** `pm_df.set_index(pm_sku)` moves the SKU column into the index, so
      `pm_map[pm_x]` raises KeyError when the header detected for an
      enrichment role is the SKU header itself ("Vendor EasycomSKU", say).
      The source runs to completion only when no such header exists. */
  predicate KeepsMappedColumns(m: Master) {
    forall role :: role in Roles(m) ==> Detect(Names(m), role) != Detect(Names(m), Sku)
  }

  /** One header can play the SKU role and an enrichment role at once. */
  lemma SkuHeaderMayPlayVendorSku()
    ensures Rule(Sku, "vendor easycomsku") && Rule(VendorSku, "vendor easycomsku")
  {
    var h := "vendor easycomsku";
    assert OccursAt(h, "easycomsku", 7);
    assert OccursAt(h, "vendor", 0);
    assert OccursAt(h, "sku", 14);
  }

  /** The first position at or after `from` where `keys` holds `x`. */
  function MatchFrom(keys: seq<string>, x: string, from: nat): (r: Option<nat>)
    requires from <= |keys|
    ensures r.Some? ==> from <= r.value < |keys| && keys[r.value] == x
    ensures r.Some? ==> forall q :: from <= q < r.value ==> keys[q] != x
    ensures r.None? ==> forall q :: from <= q < |keys| ==> keys[q] != x
    decreases |keys| - from
  {
    if from == |keys| then None
    else if keys[from] == x then Some(from)
    else MatchFrom(keys, x, from + 1)
  }

  /** The index of `pm_df.set_index(pm_sku)`: each master row's stripped SKU. */
  function MasterKeys(m: Master, s: nat): (keys: seq<string>)
    requires MasterWellFormed(m) && s < |m.headers|
    ensures |keys| == |m.rows|
  {
    seq(|m.rows|, r requires 0 <= r < |m.rows| => MasterKey(m, s, r))
  }

  /** `sku_series.map(pm_map[col])` for one inventory key: column `c` of the
      first master row whose stripped SKU equals the stripped key, NaN when
      there is none. */
  function Lookup(m: Master, s: nat, c: nat, key: string): Cell
    requires MasterWellFormed(m) && s < |m.headers| && c < |m.headers|
  {
    match MatchFrom(MasterKeys(m, s), Strip(key), 0)
    case None => Missing
    case Some(r) => m.rows[r][c]
  }

  /** Master row `r` is the first whose stripped SKU equals the stripped key. */
  predicate FirstMatch(m: Master, s: nat, key: string, r: int)
    requires MasterWellFormed(m) && s < |m.headers|
  {
    0 <= r < |m.rows| && MasterKey(m, s, r) == Strip(key) &&
    forall q :: 0 <= q < r ==> MasterKey(m, s, q) != Strip(key)
  }

  /** A non-missing lookup result is the cell of the first master row whose
      stripped SKU equals the stripped key. */
  lemma {:induction false} LookupFirstMatch(m: Master, s: nat, c: nat, key: string)
    requires MasterWellFormed(m) && s < |m.headers| && c < |m.headers|
    requires Lookup(m, s, c, key) != Missing
    ensures exists r :: FirstMatch(m, s, key, r) && Lookup(m, s, c, key) == m.rows[r][c]
  {
    var keys := MasterKeys(m, s);
    var found := MatchFrom(keys, Strip(key), 0);
    assert found.Some?;
    var r := found.value;
    assert Lookup(m, s, c, key) == m.rows[r][c];
    forall q | 0 <= q < r ensures MasterKey(m, s, q) != Strip(key) {
      assert keys[q] == MasterKey(m, s, q);
    }
    assert keys[r] == MasterKey(m, s, r);
    assert FirstMatch(m, s, key, r);
  }

  /** In a duplicate-free sequence the first match is the only one. */
  lemma {:induction false} MatchFromUnique(keys: seq<string>, x: string, r: nat)
    requires NoDup(keys) && r < |keys| && keys[r] == x
    ensures MatchFrom(keys, x, 0) == Some(r)
  {
    assert forall q :: 0 <= q < r ==> keys[q] != keys[r];
  }

  /** With unique master SKUs, the lookup finds the one matching row. */
  lemma {:induction false} LookupUnique(m: Master, s: nat, c: nat, key: string, r: nat)
    requires MasterWellFormed(m) && s < |m.headers| && c < |m.headers| && UniqueKeys(m, s)
    requires r < |m.rows| && MasterKey(m, s, r) == Strip(key)
    ensures Lookup(m, s, c, key) == m.rows[r][c]
  {
    MatchFromUnique(MasterKeys(m, s), Strip(key), r);
  }

  /** A key no master row carries maps to NaN. */
  lemma {:induction false} LookupMissing(m: Master, s: nat, c: nat, key: string)
    requires MasterWellFormed(m) && s < |m.headers| && c < |m.headers|
    requires forall r :: 0 <= r < |m.rows| ==> MasterKey(m, s, r) != Strip(key)
    ensures Lookup(m, s, c, key) == Missing
  {
    var keys := MasterKeys(m, s);
    assert forall q :: 0 <= q < |keys| ==> keys[q] == MasterKey(m, s, q);
  }

  /** The value an enrichment column takes for one inventory key: the looked-up
      master cell, coerced to a number (NaN as 0) for CP. */
  function EnrichCell(m: Master, role: Role, key: string): Cell
    requires MasterWellFormed(m)
  {
    var names := Names(m);
    match Detect(names, Sku)
    case None => Missing
    case Some(s) =>
      match Detect(names, role)
      case None => Missing
      case Some(c) =>
        Enriched(role, Lookup(m, s, c, key))
  }

  /** The value an enrichment column takes from the looked-up master cell `v`:
      CP goes through `to_numeric(..., errors="coerce").fillna(0)`. */
  function Enriched(role: Role, v: Cell): Cell {
    if role == Cp then ToInt(v) else v
  }

  /** The dtype of an enrichment column: CP is numeric after `to_numeric`,
      the others keep the dtype of the master column they come from. */
  function RoleKind(m: Master, role: Role): Kind {
    if role == Cp then Numeric
    else match Detect(Names(m), role)
      case None => Text
      case Some(c) => m.headers[c].kind
  }

  // ---------------------------------------------------------------------------
  // The working table before the final column selection
  // ---------------------------------------------------------------------------

  /** The columns the working table and the report can have. */
  datatype Column = SkuCol | ManagerCol | BrandCol | ProductNameCol | FnsCol | VendorSkuCol
                  | InventoryQtyCol | SalesQtyCol | CpCol

  /** The header each column carries. */
  function Label(c: Column): string {
    match c
    case SkuCol => "sku"
    case ManagerCol => "Manager"
    case BrandCol => "Brand"
    case ProductNameCol => "Product Name"
    case FnsCol => "FNS"
    case VendorSkuCol => "Vendor SKU"
    case InventoryQtyCol => "Inventory QTY"
    case SalesQtyCol => "Sales QTY"
    case CpCol => "CP"
  }

  /** Distinct columns carry distinct headers, so comparing columns is
      comparing their header strings. */
  lemma {:induction false} LabelInjective(a: Column, b: Column)
    ensures Label(a) == Label(b) <==> a == b
  {
  }

  /** The column each enrichment role fills. */
  function RoleColumn(role: Role): Column {
    match role
    case Sku => SkuCol
    case Manager => ManagerCol
    case Brand => BrandCol
    case ProductName => ProductNameCol
    case Fns => FnsCol
    case VendorSku => VendorSkuCol
    case Cp => CpCol
  }

  const BaseNames: seq<Column> := [SkuCol, InventoryQtyCol, SalesQtyCol]
  const BaseKinds: seq<Kind> := [Text, Numeric, Numeric]

  /** The enrichment roles the master provides, in the order their columns
      are added. */
  function Roles(m: Master): seq<Role> {
    EnrichRoles(Names(m))
  }

  function RoleNames(roles: seq<Role>): seq<Column> {
    seq(|roles|, q requires 0 <= q < |roles| => RoleColumn(roles[q]))
  }

  function RoleKinds(m: Master, roles: seq<Role>): seq<Kind> {
    seq(|roles|, q requires 0 <= q < |roles| => RoleKind(m, roles[q]))
  }

  function EnrichCells(m: Master, roles: seq<Role>, key: string): seq<Cell>
    requires MasterWellFormed(m)
  {
    seq(|roles|, q requires 0 <= q < |roles| => EnrichCell(m, roles[q], key))
  }

  /** What the merged pivots hold for one inventory key: the key, the stock
      recorded under it and the Flipkart units sold under it. */
  function BaseRow(orders: seq<Order>, stock: seq<Stock>, key: string): seq<Cell> {
    [Str(key), Int(InventoryHeld(stock, key)), Int(FlipkartSold(orders, key))]
  }

  /** The column names of the working table. */
  function WorkNames(m: Master): seq<Column> {
    BaseNames + RoleNames(Roles(m))
  }

  /** The working table just before sorting: one row per inventory key, in
      key order. */
  function Working(orders: seq<Order>, stock: seq<Stock>, m: Master): (f: Frame<Column>)
    requires MasterWellFormed(m)
    ensures WellFormed(f) && f.names == WorkNames(m) && |f.rows| == |StockKeys(stock)|
  {
    var keys := StockKeys(stock);
    var roles := Roles(m);
    Frame(WorkNames(m), BaseKinds + RoleKinds(m, roles),
      seq(|keys|, i requires 0 <= i < |keys| => BaseRow(orders, stock, keys[i]) + EnrichCells(m, roles, keys[i])))
  }

  // ---------------------------------------------------------------------------
  // The final report
  // ---------------------------------------------------------------------------

  const FinalOrder: seq<Column> :=
    [SkuCol, ManagerCol, BrandCol, ProductNameCol, FnsCol, VendorSkuCol, InventoryQtyCol, SalesQtyCol, CpCol]
  const TextColumns: seq<Column> := [SkuCol, ManagerCol, BrandCol, ProductNameCol, FnsCol, VendorSkuCol]
  const NumericColumns: seq<Column> := [InventoryQtyCol, SalesQtyCol, CpCol]

  /** `[c for c in final_cols if c in inventory.columns]`. */
  function OutputColumns(m: Master): seq<Column> {
    Present(FinalOrder, WorkNames(m))
  }

  /** Every column is fixed to text or to an integer, never both. */
  lemma {:induction false} Classified(c: Column)
    ensures c in TextColumns <==> c !in NumericColumns
  {
  }

  /** The dtype fix applied to a cell of column `name`. */
  function Coerce(name: Column, c: Cell): Cell {
    if name in NumericColumns then ToInt(c)
    else if name in TextColumns then ToText(c)
    else c
  }

  /** A working row restricted to the columns `f`, each cell coerced. */
  function FinalRow(w: seq<Column>, f: seq<Column>, row: seq<Cell>): seq<Cell>
    requires |row| == |w| && forall c :: c in f ==> c in w
  {
    seq(|f|, k requires 0 <= k < |f| => Coerce(f[k], row[IndexOf(w, f[k])]))
  }

  function FinalRows(w: seq<Column>, f: seq<Column>, rows: seq<seq<Cell>>): seq<seq<Cell>>
    requires Rectangular(rows, |w|) && forall c :: c in f ==> c in w
  {
    seq(|rows|, i requires 0 <= i < |rows| => FinalRow(w, f, rows[i]))
  }

  /** The report's data rows, in inventory-key order. */
  function ExpectedRows(orders: seq<Order>, stock: seq<Stock>, m: Master): seq<seq<Cell>>
    requires MasterWellFormed(m)
  {
    FinalRows(WorkNames(m), OutputColumns(m), Working(orders, stock, m).rows)
  }

  /** The report's Grand Total row. */
  function ExpectedTotal(orders: seq<Order>, stock: seq<Stock>, m: Master): seq<Cell>
    requires MasterWellFormed(m)
  {
    FinalRow(WorkNames(m), OutputColumns(m), ColumnTotals(Working(orders, stock, m)))
  }

  // ---------------------------------------------------------------------------
  // Facts about the column layout
  // ---------------------------------------------------------------------------

  lemma {:induction false} BaseIndices(m: Master)
    ensures SkuCol in WorkNames(m) && IndexOf(WorkNames(m), SkuCol) == 0
    ensures InventoryQtyCol in WorkNames(m) && IndexOf(WorkNames(m), InventoryQtyCol) == 1
    ensures SalesQtyCol in WorkNames(m) && IndexOf(WorkNames(m), SalesQtyCol) == 2
  {
    var w := WorkNames(m);
    assert w[0] == SkuCol && w[1] == InventoryQtyCol && w[2] == SalesQtyCol;
  }

  lemma {:induction false} ColumnNameInjective(a: Role, b: Role)
    ensures RoleColumn(a) == RoleColumn(b) ==> a == b
  {
  }

  /** An enrichment role's column is among `RoleNames(roles)` exactly when the
      role is among `roles`. */
  lemma {:induction false} RoleNamesMembership(roles: seq<Role>, role: Role)
    ensures RoleColumn(role) in RoleNames(roles) <==> role in roles
  {
    if RoleColumn(role) in RoleNames(roles) {
      var q :| 0 <= q < |roles| && RoleNames(roles)[q] == RoleColumn(role);
      ColumnNameInjective(roles[q], role);
    }
    if role in roles {
      var q :| 0 <= q < |roles| && roles[q] == role;
      assert RoleNames(roles)[q] == RoleColumn(role);
    }
  }

  lemma {:induction false} FinalOrderNoDup()
    ensures NoDup(FinalOrder)
  {
  }

  lemma {:induction false} RolesExtended(m: Master, roles: seq<Role>, role: Role)
    ensures RoleNames(roles + [role]) == RoleNames(roles) + [RoleColumn(role)]
    ensures RoleKinds(m, roles + [role]) == RoleKinds(m, roles) + [RoleKind(m, role)]
  {
  }

  lemma {:induction false} CellsExtended(m: Master, roles: seq<Role>, role: Role, key: string, base: seq<Cell>, row: seq<Cell>)
    requires MasterWellFormed(m)
    requires row == base + EnrichCells(m, roles, key)
    ensures row + [EnrichCell(m, role, key)] == base + EnrichCells(m, roles + [role], key)
  {
    assert EnrichCells(m, roles + [role], key) == EnrichCells(m, roles, key) + [EnrichCell(m, role, key)];
  }

  // ---------------------------------------------------------------------------
  // The processing steps
  // ---------------------------------------------------------------------------

  /** The Flipkart sales pivot and the inventory pivot, merged on the
      inventory key. */
  method Pivot(orders: seq<Order>, stock: seq<Stock>) returns (frame: Frame<Column>)
    ensures WellFormed(frame) && frame.names == BaseNames && frame.kinds == BaseKinds
    ensures |frame.rows| == |StockKeys(stock)|
    ensures forall i :: 0 <= i < |StockKeys(stock)| ==>
      frame.rows[i] == BaseRow(orders, stock, StockKeys(stock)[i])
  {
    // Flipkart orders only, summed per SKU
    var sales := GroupSum(SalesPairs(FlipkartOrders(orders)));
    // stock records summed per backtick-free SKU
    var inventory := GroupSum(StockPairs(stock));
    var keys := StockKeys(stock);
    forall i | 0 <= i < |keys|
      ensures keys[i] in inventory && inventory[keys[i]] == InventoryHeld(stock, keys[i])
      ensures SalesQty(sales, keys[i]) == FlipkartSold(orders, keys[i])
    {
      InventoryTableIsHeld(stock, keys[i]);
      SalesQtyIsFlipkartSold(orders, keys[i]);
    }
    frame := Frame([SkuCol, InventoryQtyCol], [Text, Numeric],
      seq(|keys|, i requires 0 <= i < |keys| => [Str(keys[i]), Int(inventory[keys[i]])]));
    frame := AddColumn(frame, SalesQtyCol, Numeric,
      seq(|keys|, i requires 0 <= i < |keys| => Int(SalesQty(sales, keys[i]))));
  }

  /** The `if pm_sku:` block: one column per enrichment role the master
      provides, added in the fixed role order, holding each key's looked-up
      master value. */
  method Enrich(frame: Frame<Column>, keys: seq<string>, master: Master) returns (g: Frame<Column>)
    requires WellFormed(frame) && MasterWellFormed(master) && |keys| == |frame.rows|
    requires forall role :: role in EnrichmentOrder ==> RoleColumn(role) !in frame.names
    ensures WellFormed(g)
    ensures g.names == frame.names + RoleNames(Roles(master))
    ensures g.kinds == frame.kinds + RoleKinds(master, Roles(master))
    ensures |g.rows| == |frame.rows|
    ensures forall i :: 0 <= i < |keys| ==> g.rows[i] == frame.rows[i] + EnrichCells(master, Roles(master), keys[i])
  {
    // the columns detected in the master, empty when it has no SKU column
    var roles := Roles(master);
    g := frame;
    assert RoleNames(roles[..0]) == [] && RoleKinds(master, roles[..0]) == [];
    forall i | 0 <= i < |keys| ensures g.rows[i] == frame.rows[i] + EnrichCells(master, roles[..0], keys[i]) {
      assert EnrichCells(master, roles[..0], keys[i]) == [];
    }
    for t := 0 to |roles|
      invariant WellFormed(g) && |g.rows| == |keys|
      invariant g.names == frame.names + RoleNames(roles[..t])
      invariant g.kinds == frame.kinds + RoleKinds(master, roles[..t])
      invariant forall i :: 0 <= i < |keys| ==> g.rows[i] == frame.rows[i] + EnrichCells(master, roles[..t], keys[i])
    {
      var role := roles[t];
      assert roles[..t + 1] == roles[..t] + [role];
      assert role !in roles[..t];
      RoleNamesMembership(roles[..t], role);
      var column := seq(|keys|, i requires 0 <= i < |keys| => EnrichCell(master, role, keys[i]));
      var previous := g;
      g := AddColumn(g, RoleColumn(role), RoleKind(master, role), column);
      RolesExtended(master, roles[..t], role);
      forall i | 0 <= i < |keys|
        ensures g.rows[i] == frame.rows[i] + EnrichCells(master, roles[..t + 1], keys[i])
      {
        CellsExtended(master, roles[..t], role, keys[i], frame.rows[i], previous.rows[i]);
      }
    }
    assert roles[..|roles|] == roles;
  }

  /** Both dtype fixes applied to one cell amount to `Coerce`. */
  lemma {:induction false} DtypeLoopsAreCoerce(name: Column, c: Cell)
    ensures (if name in NumericColumns then ToInt(if name in TextColumns then ToText(c) else c)
             else if name in TextColumns then ToText(c) else c) == Coerce(name, c)
  {
    Classified(name);
  }

  /** The two dtype loops: text columns to `astype("string")`, numeric columns
      to `to_numeric(errors="coerce").fillna(0).astype(int)`. */
  method FixDtypes(f: Frame<Column>) returns (g: Frame<Column>)
    requires WellFormed(f) && NoDup(f.names)
    ensures WellFormed(g) && g.names == f.names && |g.rows| == |f.rows|
    ensures forall k :: 0 <= k < |f.names| ==>
      g.kinds[k] == if f.names[k] in NumericColumns then Numeric else if f.names[k] in TextColumns then Text else f.kinds[k]
    ensures forall i, k :: 0 <= i < |f.rows| && 0 <= k < |f.names| ==> g.rows[i][k] == Coerce(f.names[k], f.rows[i][k])
  {
    var texts := CoerceColumns(f, TextColumns, ToText, Text);
    g := CoerceColumns(texts, NumericColumns, ToInt, Numeric);
    forall i, k | 0 <= i < |f.rows| && 0 <= k < |f.names|
      ensures g.rows[i][k] == Coerce(f.names[k], f.rows[i][k])
    {
      DtypeLoopsAreCoerce(f.names[k], f.rows[i][k]);
    }
  }

  /** The final column order and the dtype fixes. */
  method FinalColumns(work: Frame<Column>) returns (report: Frame<Column>)
    requires WellFormed(work)
    ensures WellFormed(report) && report.names == Present(FinalOrder, work.names)
    ensures forall k :: 0 <= k < |report.names| ==>
      report.kinds[k] == if report.names[k] in NumericColumns then Numeric else Text
    ensures |report.rows| == |work.rows|
    ensures forall i :: 0 <= i < |work.rows| ==> report.rows[i] == FinalRow(work.names, report.names, work.rows[i])
  {
    var cols := Present(FinalOrder, work.names);
    FinalOrderNoDup();
    var selected := Select(work, cols);
    report := FixDtypes(selected);
    forall k | 0 <= k < |cols|
      ensures report.kinds[k] == if cols[k] in NumericColumns then Numeric else Text
    {
      Classified(cols[k]);
    }
    forall i | 0 <= i < |work.rows|
      ensures report.rows[i] == FinalRow(work.names, cols, work.rows[i])
    {
      forall k | 0 <= k < |cols|
        ensures report.rows[i][k] == Coerce(cols[k], work.rows[i][IndexOf(work.names, cols[k])])
      {
        assert selected.rows[i][k] == work.rows[i][IndexOf(work.names, cols[k])];
      }
    }
  }

  /** Sorting by Sales QTY, the Grand Total row, then the final columns. */
  method Finish(frame: Frame<Column>) returns (report: Frame<Column>)
    requires WellFormed(frame) && SalesQtyCol in frame.names
    requires forall i :: 0 <= i < |frame.rows| ==> frame.rows[i][IndexOf(frame.names, SalesQtyCol)].Int?
    ensures WellFormed(report) && report.names == Present(FinalOrder, frame.names)
    ensures forall k :: 0 <= k < |report.names| ==>
      report.kinds[k] == if report.names[k] in NumericColumns then Numeric else Text
    ensures |report.rows| == |frame.rows| + 1
    ensures multiset(report.rows[..|frame.rows|]) == multiset(FinalRows(frame.names, report.names, frame.rows))
    ensures SalesQtyCol in report.names
    ensures SortedOn(report.rows[..|frame.rows|], IndexOf(report.names, SalesQtyCol))
    ensures report.rows[|frame.rows|] == FinalRow(frame.names, report.names, ColumnTotals(frame))
  {
    var s := IndexOf(frame.names, SalesQtyCol);
    // sort by sales
    var sorted := SortOn(frame.rows, s);
    ColumnTotalsPermutation(frame, sorted);
    var work := frame.(rows := sorted);
    // the Grand Total row
    var totals := Totals(work);
    work := work.(rows := work.rows + [totals]);
    report := FinalColumns(work);

    var n := |frame.rows|;
    var cols := report.names;
    forall i | 0 <= i < n ensures report.rows[i] == FinalRow(frame.names, cols, sorted[i]) {
      assert work.rows[i] == sorted[i];
    }
    assert work.rows[n] == totals;
    FinalPrefix(frame.names, cols, frame.rows, sorted, report.rows);
  }

  /** The first rows of the report are the sorted working rows, restricted
      and coerced: a rearrangement of the unsorted ones, still sorted. */
  lemma {:induction false} FinalPrefix(w: seq<Column>, f: seq<Column>, rows: seq<seq<Cell>>, sorted: seq<seq<Cell>>, out: seq<seq<Cell>>)
    requires Rectangular(rows, |w|) && (forall c :: c in f ==> c in w)
    requires SalesQtyCol in f && SalesQtyCol in w
    requires IntColumn(rows, IndexOf(w, SalesQtyCol))
    requires multiset(sorted) == multiset(rows) && SortedOn(sorted, IndexOf(w, SalesQtyCol))
    requires |sorted| <= |out|
    requires forall i :: 0 <= i < |sorted| ==> |sorted[i]| == |w| && out[i] == FinalRow(w, f, sorted[i])
    ensures multiset(out[..|sorted|]) == multiset(FinalRows(w, f, rows))
    ensures SortedOn(out[..|sorted|], IndexOf(f, SalesQtyCol))
  {
    assert out[..|sorted|] == FinalRows(w, f, sorted);
    FinalRowsPermutation(w, f, sorted, rows);
    IntColumnPermutation(rows, sorted, IndexOf(w, SalesQtyCol));
    FinalRowsSorted(w, f, sorted);
  }

  /** The cells of column `j` are integers. */
  predicate IntColumn(rows: seq<seq<Cell>>, j: nat) {
    forall i :: 0 <= i < |rows| ==> j < |rows[i]| && rows[i][j].Int?
  }

  lemma IntColumnPermutation(a: seq<seq<Cell>>, b: seq<seq<Cell>>, j: nat)
    requires IntColumn(a, j) && multiset(a) == multiset(b)
    ensures IntColumn(b, j)
  {
    forall i | 0 <= i < |b| ensures j < |b[i]| && b[i][j].Int? {
      assert b[i] in multiset(a);
    }
  }

  /** Coercing Sales QTY keeps its integers, so rows sorted on it stay sorted. */
  lemma {:induction false} FinalRowsSorted(w: seq<Column>, f: seq<Column>, rows: seq<seq<Cell>>)
    requires Rectangular(rows, |w|) && (forall c :: c in f ==> c in w)
    requires SalesQtyCol in f && SalesQtyCol in w
    requires IntColumn(rows, IndexOf(w, SalesQtyCol)) && SortedOn(rows, IndexOf(w, SalesQtyCol))
    ensures SortedOn(FinalRows(w, f, rows), IndexOf(f, SalesQtyCol))
  {
    var r := FinalRows(w, f, rows);
    var s, ks := IndexOf(w, SalesQtyCol), IndexOf(f, SalesQtyCol);
    forall a | 0 <= a < |rows| ensures NumAt(r[a], ks) == NumAt(rows[a], s) {
      assert r[a][ks] == ToInt(rows[a][s]);
    }
  }

  /** `process_inventory_data`: the report has the output columns with their
      fixed dtypes, one data row per inventory key, the data rows being those
      of `ExpectedRows` sorted by Sales QTY, and the Grand Total row last. */
  method ProcessInventoryData(orders: seq<Order>, stock: seq<Stock>, master: Master) returns (report: Frame<Column>)
    requires MasterWellFormed(master) && MapsUniquely(master) && KeepsMappedColumns(master) && MasterTyped(master)
    ensures WellFormed(report) && report.names == OutputColumns(master)
    ensures forall k :: 0 <= k < |report.names| ==>
      report.kinds[k] == if report.names[k] in NumericColumns then Numeric else Text
    ensures |report.rows| == |StockKeys(stock)| + 1
    ensures multiset(report.rows[..|StockKeys(stock)|]) == multiset(ExpectedRows(orders, stock, master))
    ensures SalesQtyCol in report.names
    ensures SortedOn(report.rows[..|StockKeys(stock)|], IndexOf(report.names, SalesQtyCol))
    ensures report.rows[|StockKeys(stock)|] == ExpectedTotal(orders, stock, master)
  {
    var frame := Pivot(orders, stock);
    BaseHasNoRoleColumn();
    frame := Enrich(frame, StockKeys(stock), master);
    StagedIsWorking(orders, stock, master, frame);
    WorkingSalesAreInts(orders, stock, master);
    report := Finish(frame);
  }

  // ---------------------------------------------------------------------------
  // Proof helpers for the processing steps
  // ---------------------------------------------------------------------------

  lemma {:induction false} BaseHasNoRoleColumn()
    ensures forall role :: role in EnrichmentOrder ==> RoleColumn(role) !in BaseNames
  {
  }

  /** The working table column by column: the base cells, then one cell per
      detected enrichment role. */
  lemma {:induction false} WorkingLayout(orders: seq<Order>, stock: seq<Stock>, m: Master)
    requires MasterWellFormed(m)
    ensures Working(orders, stock, m).kinds == BaseKinds + RoleKinds(m, Roles(m))
    ensures forall i :: 0 <= i < |StockKeys(stock)| ==>
      Working(orders, stock, m).rows[i] == BaseRow(orders, stock, StockKeys(stock)[i]) + EnrichCells(m, Roles(m), StockKeys(stock)[i])
  {
  }

  /** The pivoted and enriched frame is the working table. */
  lemma {:induction false} StagedIsWorking(orders: seq<Order>, stock: seq<Stock>, m: Master, g: Frame<Column>)
    requires MasterWellFormed(m)
    requires g.names == BaseNames + RoleNames(Roles(m))
    requires g.kinds == BaseKinds + RoleKinds(m, Roles(m))
    requires |g.rows| == |StockKeys(stock)|
    requires forall i :: 0 <= i < |StockKeys(stock)| ==>
      g.rows[i] == BaseRow(orders, stock, StockKeys(stock)[i]) + EnrichCells(m, Roles(m), StockKeys(stock)[i])
    ensures g == Working(orders, stock, m)
  {
    var w := Working(orders, stock, m);
    assert g.rows == w.rows;
  }

  /** The working table's Sales QTY cells are integers. */
  lemma {:induction false} WorkingSalesAreInts(orders: seq<Order>, stock: seq<Stock>, m: Master)
    requires MasterWellFormed(m)
    ensures SalesQtyCol in Working(orders, stock, m).names
    ensures forall i :: 0 <= i < |Working(orders, stock, m).rows| ==>
      Working(orders, stock, m).rows[i][IndexOf(Working(orders, stock, m).names, SalesQtyCol)].Int?
  {
    BaseIndices(m);
  }

  /** Restricting and coercing rows commutes with reordering them. */
  lemma {:induction false} FinalRowsPermutation(w: seq<Column>, f: seq<Column>, a: seq<seq<Cell>>, b: seq<seq<Cell>>)
    requires Rectangular(a, |w|) && Rectangular(b, |w|) && forall c :: c in f ==> c in w
    requires multiset(a) == multiset(b)
    ensures multiset(FinalRows(w, f, a)) == multiset(FinalRows(w, f, b))
  {
    var g := (row: seq<Cell>) => if |row| == |w| then FinalRow(w, f, row) else row;
    assert FinalRows(w, f, a) == Apply(g, a);
    assert FinalRows(w, f, b) == Apply(g, b);
    ApplyPermutation(g, a, b);
  }

}
