/** The two group-by-sum aggregations of the reconciliation: Flipkart sales
    per order SKU and on-hand stock per cleaned inventory SKU (main.py:81-108). */
module Aggregation {
  import opened Cells
  import opened Seqs

  /** One shipped-order record: the `Marketplace`, `SKU` and `Quantity` cells
      (a missing quantity is NaN). */
  datatype Order = Order(marketplace: Cell, sku: Cell, quantity: Option<int>)

  /** One inventory-report record: the `sku` and `old_quantity` cells. */
  datatype Stock = Stock(sku: Cell, oldQuantity: Option<int>)

  const Flipkart: string := "Flipkart"

  /** A pandas sum skips NaN, so a missing quantity adds nothing. */
  function Measure(q: Option<int>): int {
    match q
    case Some(v) => v
    case None => 0
  }

  // ---------------------------------------------------------------------------
  // Group-by-sum over (key, value) pairs
  // ---------------------------------------------------------------------------

  /** Sum of the values paired with `k`. */
  function SumFor<K(==)>(pairs: seq<(K, int)>, k: K): int {
    if pairs == [] then 0
    else (if pairs[0].0 == k then pairs[0].1 else 0) + SumFor(pairs[1..], k)
  }

  /** Sum of all values. */
  function SumAll<K>(pairs: seq<(K, int)>): int {
    if pairs == [] then 0 else pairs[0].1 + SumAll(pairs[1..])
  }

  /** Sum of the values whose key lies in `ks`. */
  function SumWhereIn<K(==)>(pairs: seq<(K, int)>, ks: set<K>): int {
    if pairs == [] then 0
    else (if pairs[0].0 in ks then pairs[0].1 else 0) + SumWhereIn(pairs[1..], ks)
  }

  /** `groupby(key).sum()`: one entry per key that occurs, holding the sum of
      that key's values. */
  function GroupSum<K(==,!new)>(pairs: seq<(K, int)>): (m: map<K, int>)
    ensures forall k :: k in m <==> exists i :: 0 <= i < |pairs| && pairs[i].0 == k
    ensures forall k :: k in m ==> m[k] == SumFor(pairs, k)
    ensures forall k :: k !in m ==> SumFor(pairs, k) == 0
  {
    if pairs == [] then map[]
    else
      var m := GroupSum(pairs[1..]);
      var k := pairs[0].0;
      m[k := pairs[0].1 + (if k in m then m[k] else 0)]
  }

  lemma {:induction false} SumForIsSumWhereIn<K>(pairs: seq<(K, int)>, k: K)
    ensures SumFor(pairs, k) == SumWhereIn(pairs, {k})
  {
    if pairs != [] {
      SumForIsSumWhereIn(pairs[1..], k);
    }
  }

  lemma {:induction false} SumWhereInUnion<K>(pairs: seq<(K, int)>, a: set<K>, b: set<K>)
    requires a !! b
    ensures SumWhereIn(pairs, a) + SumWhereIn(pairs, b) == SumWhereIn(pairs, a + b)
  {
    if pairs != [] {
      SumWhereInUnion(pairs[1..], a, b);
    }
  }

  lemma {:induction false} SumWhereInAll<K>(pairs: seq<(K, int)>, ks: set<K>)
    requires forall i :: 0 <= i < |pairs| ==> pairs[i].0 in ks
    ensures SumWhereIn(pairs, ks) == SumAll(pairs)
  {
    if pairs != [] {
      SumWhereInAll(pairs[1..], ks);
    }
  }

  /** Sum, over a list of keys, of each key's group sum. */
  function SumForKeys<K(==)>(keys: seq<K>, pairs: seq<(K, int)>): int {
    if keys == [] then 0 else SumFor(pairs, keys[0]) + SumForKeys(keys[1..], pairs)
  }

  /** Adding up the group sums of distinct keys adds each value whose key is
      among them exactly once. */
  lemma {:induction false} SumForKeysIsSumWhereIn<K>(keys: seq<K>, pairs: seq<(K, int)>)
    requires NoDup(keys)
    ensures SumForKeys(keys, pairs) == SumWhereIn(pairs, set k | k in keys)
  {
    if keys == [] {
      SumWhereInEmpty(pairs);
      assert (set k | k in keys) == {};
    } else {
      var rest := set k | k in keys[1..];
      assert keys[0] !in rest;
      assert (set k | k in keys) == {keys[0]} + rest;
      SumForKeysIsSumWhereIn(keys[1..], pairs);
      SumForIsSumWhereIn(pairs, keys[0]);
      SumWhereInUnion(pairs, {keys[0]}, rest);
    }
  }

  lemma {:induction false} SumWhereInEmpty<K>(pairs: seq<(K, int)>)
    ensures SumWhereIn(pairs, {}) == 0
  {
    if pairs != [] {
      SumWhereInEmpty(pairs[1..]);
    }
  }

  // ---------------------------------------------------------------------------
  // Sales pivot (main.py:81-90)
  // ---------------------------------------------------------------------------

  predicate IsFlipkart(o: Order) {
    o.marketplace == Str(Flipkart)
  }

  /** `shipped_df[shipped_df["Marketplace"] == "Flipkart"]`. */
  function FlipkartOrders(orders: seq<Order>): (r: seq<Order>)
    ensures forall o :: multiset(r)[o] == if IsFlipkart(o) then multiset(orders)[o] else 0
  {
    if orders == [] then []
    else
      assert orders == [orders[0]] + orders[1..];
      (if IsFlipkart(orders[0]) then [orders[0]] else []) + FlipkartOrders(orders[1..])
  }

  /** The (SKU, quantity) pairs the sales group-by adds up; `groupby` drops
      rows whose key is NaN. */
  function SalesPairs(orders: seq<Order>): seq<(Cell, int)> {
    if orders == [] then []
    else
      (if orders[0].sku.Missing? then [] else [(orders[0].sku, Measure(orders[0].quantity))])
      + SalesPairs(orders[1..])
  }

  /** The sales pivot: SKU to its total Flipkart quantity. */
  function SalesTable(orders: seq<Order>): map<Cell, int> {
    GroupSum(SalesPairs(FlipkartOrders(orders)))
  }

  /** `inventory["sku"].map(sales["Sales QTY"]).fillna(0)` for one key: the
      inventory key is looked up as a string, exactly. */
  function SalesQty(sales: map<Cell, int>, key: string): int {
    if Str(key) in sales then sales[Str(key)] else 0
  }

  /** Reference definition: total quantity of the orders whose marketplace
      is exactly "Flipkart" and whose SKU is exactly the string `key`. */
  function FlipkartSold(orders: seq<Order>, key: string): int {
    if orders == [] then 0
    else
      (if IsFlipkart(orders[0]) && orders[0].sku == Str(key) then Measure(orders[0].quantity) else 0)
      + FlipkartSold(orders[1..], key)
  }

  lemma {:induction false} SalesPairsSum(orders: seq<Order>, key: string)
    ensures SumFor(SalesPairs(FlipkartOrders(orders)), Str(key)) == FlipkartSold(orders, key)
  {
    if orders != [] {
      var o := orders[0];
      var rest := FlipkartOrders(orders[1..]);
      SalesPairsSum(orders[1..], key);
      if IsFlipkart(o) {
        assert FlipkartOrders(orders) == [o] + rest;
        assert ([o] + rest)[0] == o && ([o] + rest)[1..] == rest;
        var head := if o.sku.Missing? then [] else [(o.sku, Measure(o.quantity))];
        assert SalesPairs([o] + rest) == head + SalesPairs(rest);
        SumForConcat(head, SalesPairs(rest), Str(key));
      } else {
        assert FlipkartOrders(orders) == rest;
      }
    }
  }

  lemma {:induction false} SumForConcat<K>(a: seq<(K, int)>, b: seq<(K, int)>, k: K)
    ensures SumFor(a + b, k) == SumFor(a, k) + SumFor(b, k)
  {
    if a == [] {
      assert a + b == b;
    } else {
      assert (a + b)[0] == a[0] && (a + b)[1..] == a[1..] + b;
      SumForConcat(a[1..], b, k);
    }
  }

  /** The `Sales QTY` of an inventory key is the total of its Flipkart orders,
      0 when there are none. */
  lemma SalesQtyIsFlipkartSold(orders: seq<Order>, key: string)
    ensures SalesQty(SalesTable(orders), key) == FlipkartSold(orders, key)
  {
    SalesPairsSum(orders, key);
  }

  lemma {:induction false} FlipkartSoldConcat(a: seq<Order>, b: seq<Order>, key: string)
    ensures FlipkartSold(a + b, key) == FlipkartSold(a, key) + FlipkartSold(b, key)
  {
    if a == [] {
      assert a + b == b;
    } else {
      assert (a + b)[0] == a[0] && (a + b)[1..] == a[1..] + b;
      FlipkartSoldConcat(a[1..], b, key);
    }
  }

  /** A key without Flipkart orders of its own sells 0, whatever the other
      SKUs sell. */
  lemma {:induction false} FlipkartSoldNone(orders: seq<Order>, key: string)
    requires forall o :: o in orders ==> !(IsFlipkart(o) && o.sku == Str(key))
    ensures FlipkartSold(orders, key) == 0
    ensures SalesQty(SalesTable(orders), key) == 0
  {
    if orders != [] {
      assert orders[0] in orders;
      assert forall o :: o in orders[1..] ==> o in orders;
      FlipkartSoldNone(orders[1..], key);
    }
    SalesQtyIsFlipkartSold(orders, key);
  }

  /** A SKU has an entry in the sales pivot exactly when some Flipkart order
      carries it; `groupby` never keeps a NaN key. */
  lemma {:induction false} SalesTableKeys(orders: seq<Order>, k: Cell)
    ensures k in SalesTable(orders) <==> !k.Missing? && exists o :: o in orders && IsFlipkart(o) && o.sku == k
  {
    SalesPairsKeys(FlipkartOrders(orders), k);
    FlipkartOrdersCarry(orders, k);
  }


  lemma {:induction false} FlipkartOrdersCarry(orders: seq<Order>, k: Cell)
    ensures (exists o :: o in FlipkartOrders(orders) && o.sku == k)
      <==> exists o :: o in orders && IsFlipkart(o) && o.sku == k
  {
    var fk := FlipkartOrders(orders);
    if exists o :: o in fk && o.sku == k {
      var o :| o in fk && o.sku == k;
      assert multiset(fk)[o] > 0;
    }
    if exists o :: o in orders && IsFlipkart(o) && o.sku == k {
      var o :| o in orders && IsFlipkart(o) && o.sku == k;
      assert multiset(orders)[o] > 0;
      assert multiset(fk)[o] > 0;
    }
  }

  lemma {:induction false} SalesPairsKeys(os: seq<Order>, k: Cell)
    ensures k in GroupSum(SalesPairs(os)) <==> !k.Missing? && exists o :: o in os && o.sku == k
  {
    SalesPairsHold(os, k);
  }

  lemma {:induction false} SalesPairsHold(os: seq<Order>, k: Cell)
    ensures (exists i :: 0 <= i < |SalesPairs(os)| && SalesPairs(os)[i].0 == k)
      <==> !k.Missing? && exists o :: o in os && o.sku == k
  {
    if os != [] {
      SalesPairsHold(os[1..], k);
      var head := if os[0].sku.Missing? then [] else [(os[0].sku, Measure(os[0].quantity))];
      var p := SalesPairs(os);
      assert p == head + SalesPairs(os[1..]);
      assert forall o :: o in os <==> o == os[0] || o in os[1..];
      if exists i :: 0 <= i < |p| && p[i].0 == k {
        var i :| 0 <= i < |p| && p[i].0 == k;
        if i >= |head| {
          assert SalesPairs(os[1..])[i - |head|].0 == k;
        }
      }
      if !k.Missing? && exists o :: o in os && o.sku == k {
        if os[0].sku == k {
          assert p[0].0 == k;
        } else {
          var o :| o in os[1..] && o.sku == k;
          var i :| 0 <= i < |SalesPairs(os[1..])| && SalesPairs(os[1..])[i].0 == k;
          assert p[|head| + i].0 == k;
        }
      }
    }
  }

  /** Orders from other marketplaces never contribute to sales. */
  lemma OtherMarketplacesIgnored(orders: seq<Order>, others: seq<Order>, key: string)
    requires forall o :: o in others ==> !IsFlipkart(o)
    ensures FlipkartSold(orders + others, key) == FlipkartSold(orders, key)
  {
    FlipkartSoldConcat(orders, others, key);
    FlipkartSoldNone(others, key);
  }

  /** Sales do not depend on the order of the order records. */
  lemma {:induction false} FlipkartSoldPermutation(a: seq<Order>, b: seq<Order>, key: string)
    requires multiset(a) == multiset(b)
    ensures FlipkartSold(a, key) == FlipkartSold(b, key)
    decreases |a|
  {
    if a == [] {
      assert |b| == |multiset(b)| == 0;
    } else {
      var i := PermutationSplit(a, b);
      var b' := b[..i] + b[i + 1..];
      FlipkartSoldPermutation(a[1..], b', key);
      FlipkartSoldConcat(b[..i], [a[0]] + b[i + 1..], key);
      FlipkartSoldConcat([a[0]], b[i + 1..], key);
      FlipkartSoldConcat(b[..i], b[i + 1..], key);
      assert b[..i] + ([a[0]] + b[i + 1..]) == b;
    }
  }

  /** Reference definition: total quantity of the Flipkart orders whose SKU is
      one of the strings in `keys`. */
  function FlipkartSoldTo(orders: seq<Order>, keys: set<string>): int {
    if orders == [] then 0
    else
      (if IsFlipkart(orders[0]) && orders[0].sku.Str? && orders[0].sku.s in keys
       then Measure(orders[0].quantity) else 0)
      + FlipkartSoldTo(orders[1..], keys)
  }

  /** Sum, over a list of keys, of each key's Flipkart sales. */
  function SoldPerKey(orders: seq<Order>, keys: seq<string>): int {
    if keys == [] then 0 else FlipkartSold(orders, keys[0]) + SoldPerKey(orders, keys[1..])
  }

  lemma {:induction false} FlipkartSoldToEmpty(orders: seq<Order>)
    ensures FlipkartSoldTo(orders, {}) == 0
  {
    if orders != [] {
      FlipkartSoldToEmpty(orders[1..]);
    }
  }

  lemma {:induction false} FlipkartSoldToSplit(orders: seq<Order>, k: string, keys: set<string>)
    requires k !in keys
    ensures FlipkartSoldTo(orders, {k} + keys) == FlipkartSold(orders, k) + FlipkartSoldTo(orders, keys)
  {
    if orders != [] {
      FlipkartSoldToSplit(orders[1..], k, keys);
    }
  }

  /** Adding up the sales of distinct SKUs counts every Flipkart order for one
      of them exactly once. */
  lemma {:induction false} SoldPerKeyIsSoldTo(orders: seq<Order>, keys: seq<string>)
    requires NoDup(keys)
    ensures SoldPerKey(orders, keys) == FlipkartSoldTo(orders, set k | k in keys)
  {
    if keys == [] {
      FlipkartSoldToEmpty(orders);
      assert (set k | k in keys) == {};
    } else {
      var rest := set k | k in keys[1..];
      assert keys[0] !in rest;
      assert (set k | k in keys) == {keys[0]} + rest;
      SoldPerKeyIsSoldTo(orders, keys[1..]);
      FlipkartSoldToSplit(orders, keys[0], rest);
    }
  }

  // ---------------------------------------------------------------------------
  // Inventory pivot (main.py:92-99)
  // ---------------------------------------------------------------------------

  /** `astype(str).str.replace("`", "")` on one inventory SKU. */
  function CleanSku(c: Cell): (r: string)
    ensures '`' !in r
  {
    RemoveAll(CellText(c), '`')
  }

  function CleanSkus(stock: seq<Stock>): seq<string> {
    seq(|stock|, i requires 0 <= i < |stock| => CleanSku(stock[i].sku))
  }

  /** The (cleaned SKU, old_quantity) pairs the inventory group-by adds up. */
  function StockPairs(stock: seq<Stock>): seq<(string, int)> {
    seq(|stock|, i requires 0 <= i < |stock| => (CleanSku(stock[i].sku), Measure(stock[i].oldQuantity)))
  }

  /** The inventory pivot: cleaned SKU to its total `old_quantity`. */
  function InventoryTable(stock: seq<Stock>): map<string, int> {
    GroupSum(StockPairs(stock))
  }

  /** The distinct elements of `s`. */
  function Distinct(s: seq<string>): (r: seq<string>)
    ensures forall x :: x in r <==> x in s
    ensures NoDup(r)
  {
    if s == [] then []
    else
      var rest := Distinct(s[1..]);
      assert forall x :: x in s <==> x == s[0] || x in s[1..];
      if s[0] in rest then rest else [s[0]] + rest
  }

  /** The keys of the inventory pivot, one per distinct cleaned SKU. */
  function StockKeys(stock: seq<Stock>): (r: seq<string>)
    ensures NoDup(r)
    ensures forall k :: k in r <==> k in CleanSkus(stock)
  {
    Distinct(CleanSkus(stock))
  }

  /** The keys are exactly the keys of the inventory pivot. */
  lemma StockKeysInTable(stock: seq<Stock>, key: string)
    ensures key in StockKeys(stock) <==> key in InventoryTable(stock)
  {
    var pairs := StockPairs(stock);
    var skus := CleanSkus(stock);
    assert forall i :: 0 <= i < |stock| ==> pairs[i].0 == skus[i];
    if key in skus {
      var i :| 0 <= i < |stock| && skus[i] == key;
      assert pairs[i].0 == key;
    }
  }

  /** Reference definition: total `old_quantity` of the records whose cleaned
      SKU is `key`. */
  function InventoryHeld(stock: seq<Stock>, key: string): int {
    if stock == [] then 0
    else (if CleanSku(stock[0].sku) == key then Measure(stock[0].oldQuantity) else 0) + InventoryHeld(stock[1..], key)
  }

  /** Reference definition: total `old_quantity` of all records. */
  function TotalHeld(stock: seq<Stock>): int {
    if stock == [] then 0 else Measure(stock[0].oldQuantity) + TotalHeld(stock[1..])
  }

  lemma {:induction false} InventoryHeldConcat(a: seq<Stock>, b: seq<Stock>, key: string)
    ensures InventoryHeld(a + b, key) == InventoryHeld(a, key) + InventoryHeld(b, key)
  {
    if a == [] {
      assert a + b == b;
    } else {
      assert (a + b)[0] == a[0] && (a + b)[1..] == a[1..] + b;
      InventoryHeldConcat(a[1..], b, key);
    }
  }

  lemma {:induction false} TotalHeldConcat(a: seq<Stock>, b: seq<Stock>)
    ensures TotalHeld(a + b) == TotalHeld(a) + TotalHeld(b)
  {
    if a == [] {
      assert a + b == b;
    } else {
      assert (a + b)[0] == a[0] && (a + b)[1..] == a[1..] + b;
      TotalHeldConcat(a[1..], b);
    }
  }

  /** A key's held stock does not depend on the order of the inventory
      records. */
  lemma {:induction false} InventoryHeldPermutation(a: seq<Stock>, b: seq<Stock>, key: string)
    requires multiset(a) == multiset(b)
    ensures InventoryHeld(a, key) == InventoryHeld(b, key)
    decreases |a|
  {
    if a == [] {
      assert |b| == |multiset(b)| == 0;
    } else {
      var i := PermutationSplit(a, b);
      var b' := b[..i] + b[i + 1..];
      InventoryHeldPermutation(a[1..], b', key);
      InventoryHeldHead(a, key);
      InventoryHeldSplit(b, i, key);
    }
  }

  lemma {:induction false} InventoryHeldHead(a: seq<Stock>, key: string)
    requires a != []
    ensures InventoryHeld(a, key) == InventoryHeld([a[0]], key) + InventoryHeld(a[1..], key)
  {
    assert [a[0]] + a[1..] == a;
    InventoryHeldConcat([a[0]], a[1..], key);
  }

  /** Taking record `i` out of the middle. */
  lemma {:induction false} InventoryHeldSplit(b: seq<Stock>, i: nat, key: string)
    requires i < |b|
    ensures InventoryHeld(b, key) == InventoryHeld([b[i]], key) + InventoryHeld(b[..i] + b[i + 1..], key)
  {
    assert b[..i] + ([b[i]] + b[i + 1..]) == b;
    InventoryHeldConcat(b[..i], [b[i]] + b[i + 1..], key);
    InventoryHeldConcat([b[i]], b[i + 1..], key);
    InventoryHeldConcat(b[..i], b[i + 1..], key);
  }

  /** Nor does the total held stock. */
  lemma {:induction false} TotalHeldPermutation(a: seq<Stock>, b: seq<Stock>)
    requires multiset(a) == multiset(b)
    ensures TotalHeld(a) == TotalHeld(b)
    decreases |a|
  {
    if a == [] {
      assert |b| == |multiset(b)| == 0;
    } else {
      var i := PermutationSplit(a, b);
      var b' := b[..i] + b[i + 1..];
      TotalHeldPermutation(a[1..], b');
      TotalHeldConcat(b[..i], [a[0]] + b[i + 1..]);
      TotalHeldConcat([a[0]], b[i + 1..]);
      TotalHeldConcat(b[..i], b[i + 1..]);
      assert b[..i] + ([a[0]] + b[i + 1..]) == b;
    }
  }

  lemma {:induction false} StockPairsSum(stock: seq<Stock>, key: string)
    ensures SumFor(StockPairs(stock), key) == InventoryHeld(stock, key)
    ensures SumAll(StockPairs(stock)) == TotalHeld(stock)
  {
    if stock != [] {
      assert StockPairs(stock)[1..] == StockPairs(stock[1..]);
      StockPairsSum(stock[1..], key);
    }
  }

  /** Every cleaned SKU gets an `Inventory QTY` equal to the sum of its records'
      `old_quantity`. */
  lemma InventoryTableIsHeld(stock: seq<Stock>, key: string)
    requires key in StockKeys(stock)
    ensures key in InventoryTable(stock) && InventoryTable(stock)[key] == InventoryHeld(stock, key)
  {
    StockKeysInTable(stock, key);
    StockPairsSum(stock, key);
  }

  /** Conservation: over the distinct keys, the inventory pivot adds up to the
      sum of every record's `old_quantity`. */
  lemma InventoryConserved(stock: seq<Stock>)
    ensures SumForKeys(StockKeys(stock), StockPairs(stock)) == TotalHeld(stock)
  {
    var keys := StockKeys(stock);
    var pairs := StockPairs(stock);
    SumForKeysIsSumWhereIn(keys, pairs);
    assert forall i :: 0 <= i < |pairs| ==> pairs[i].0 in keys by {
      forall i | 0 <= i < |pairs| ensures pairs[i].0 in keys {
        assert pairs[i].0 == CleanSkus(stock)[i];
      }
    }
    SumWhereInAll(pairs, set k | k in keys);
    StockPairsSum(stock, "");
  }
}
