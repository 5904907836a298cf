/**
  Brand figures (core/kpi_engine.py): sales and inventory totals, the deal deductions,
  the best-selling product and size, and the per-product status ladder.
 */
module KpiEngine {
  import opened Wrappers
  import opened Text
  import opened Tables

  /** `calculate_sales_totals`: (Σ quantity, Σ total), a missing cell counting as 0. */
  function CalculateSalesTotals(sales: seq<SalesRow>): (totals: (real, real))
    ensures sales == [] ==> totals == (0.0, 0.0)
  {
    if sales == [] then (0.0, 0.0) else (Sum(sales, Qty), Sum(sales, Money))
  }

  /** The totals of two tables put together are the sums of their totals. */
  lemma SalesTotalsAdd(a: seq<SalesRow>, b: seq<SalesRow>)
    ensures CalculateSalesTotals(a + b).0 == CalculateSalesTotals(a).0 + CalculateSalesTotals(b).0
    ensures CalculateSalesTotals(a + b).1 == CalculateSalesTotals(a).1 + CalculateSalesTotals(b).1
  {
    SumAppend(a, b, Qty);
    SumAppend(a, b, Money);
    if a == [] { assert a + b == b; }
    if b == [] { assert a + b == a; }
  }

  /** The totals of one row are its own quantity and money. */
  lemma SalesTotalsOfRow(row: SalesRow)
    ensures CalculateSalesTotals([row]) == (Qty(row), Money(row))
  {
    assert [row][..0] == [];
    assert Sum([row], Qty) == Sum([], Qty) + Qty(row);
    assert Sum([row], Money) == Sum([], Money) + Money(row);
  }

  /**
    `calculate_inventory_totals`: (Σ available quantity, Σ available quantity × unit price);
    a row with either cell missing adds nothing to the value.
   */
  function CalculateInventoryTotals(inventory: seq<InventoryRow>): (totals: (real, real))
    ensures inventory == [] ==> totals == (0.0, 0.0)
  {
    if inventory == [] then (0.0, 0.0) else (Sum(inventory, Stock), Sum(inventory, StockValue))
  }

  lemma InventoryTotalsAdd(a: seq<InventoryRow>, b: seq<InventoryRow>)
    ensures CalculateInventoryTotals(a + b).0 == CalculateInventoryTotals(a).0 + CalculateInventoryTotals(b).0
    ensures CalculateInventoryTotals(a + b).1 == CalculateInventoryTotals(a).1 + CalculateInventoryTotals(b).1
  {
    SumAppend(a, b, Stock);
    SumAppend(a, b, StockValue);
    if a == [] { assert a + b == b; }
    if b == [] { assert a + b == a; }
  }

  lemma InventoryTotalsOfRow(row: InventoryRow)
    ensures CalculateInventoryTotals([row]) == (Stock(row), Stock(row) * Price(row))
    ensures row.availableQuantity.None? || row.unitPrice.None? ==> CalculateInventoryTotals([row]).1 == 0.0
  {
    assert [row][..0] == [];
    assert Sum([row], Stock) == Sum([], Stock) + Stock(row);
    assert Sum([row], StockValue) == Sum([], StockValue) + StockValue(row);
    assert StockValue(row) == Stock(row) * Price(row);
  }

  /**
    `apply_deal`: the percentage comes off the sales money first, then the rent; the
    result is not clamped at zero.
   */
  function ApplyDeal(money: real, percentage: real, rent: real): (r: (real, real))
    ensures r.0 == money * (100.0 - percentage) / 100.0
    ensures r.1 == r.0 - rent
    ensures r.1 < 0.0 <==> rent > r.0
    ensures 0.0 <= percentage <= 100.0 && money >= 0.0 ==> 0.0 <= r.0 <= money
  {
    var afterPercentage := money - money * percentage / 100.0;
    (afterPercentage, afterPercentage - rent)
  }

  lemma ApplyDealExample()
    ensures ApplyDeal(1000.0, 10.0, 50.0) == (900.0, 850.0)
  {
  }

  /** Taking the rent before the percentage would give a different figure whenever both apply. */
  lemma RentLastMatters(money: real, percentage: real, rent: real)
    requires percentage != 0.0 && rent != 0.0
    ensures ApplyDeal(money, percentage, rent).1 != ApplyDeal(money - rent, percentage, 0.0).1
  {
    var a := ApplyDeal(money, percentage, rent).1;
    var b := ApplyDeal(money - rent, percentage, 0.0).1;
    assert a - b == -rent * percentage / 100.0;
  }

  /**
    The distinct keys of the rows, in order of first appearance; a row whose key is None
    (a NaN group label, or a name without a size) has none.
   */
  function Groups(rows: seq<SalesRow>, keyOf: SalesRow -> Option<string>): seq<string> {
    if rows == [] then []
    else
      var prev := Groups(rows[..|rows| - 1], keyOf);
      var key := keyOf(rows[|rows| - 1]);
      if key.None? || key.value in prev then prev else prev + [key.value]
  }

  /** The summed quantity of the rows whose key is `k`. */
  function GroupQty(rows: seq<SalesRow>, keyOf: SalesRow -> Option<string>, k: string): real {
    if rows == [] then 0.0
    else
      var last := rows[|rows| - 1];
      GroupQty(rows[..|rows| - 1], keyOf, k) + (if keyOf(last) == Some(k) then Qty(last) else 0.0)
  }

  /** A key is a group exactly when some row carries it. */
  lemma {:induction false} GroupsComplete(rows: seq<SalesRow>, keyOf: SalesRow -> Option<string>, k: string)
    ensures k in Groups(rows, keyOf) <==> exists i :: 0 <= i < |rows| && keyOf(rows[i]) == Some(k)
  {
    if rows != [] {
      var init := rows[..|rows| - 1];
      GroupsComplete(init, keyOf, k);
      if exists i :: 0 <= i < |init| && keyOf(init[i]) == Some(k) {
        var i :| 0 <= i < |init| && keyOf(init[i]) == Some(k);
        assert rows[i] == init[i];
      }
      if exists i :: 0 <= i < |rows| && keyOf(rows[i]) == Some(k) {
        var i :| 0 <= i < |rows| && keyOf(rows[i]) == Some(k);
        if i < |init| { assert init[i] == rows[i]; }
      }
    }
  }

  /** Each key is listed once. */
  lemma {:induction false} GroupsDistinct(rows: seq<SalesRow>, keyOf: SalesRow -> Option<string>)
    ensures forall a, b :: 0 <= a < b < |Groups(rows, keyOf)| ==> Groups(rows, keyOf)[a] != Groups(rows, keyOf)[b]
  {
    if rows != [] {
      GroupsDistinct(rows[..|rows| - 1], keyOf);
    }
  }

  /** A key no row carries has summed quantity 0. */
  lemma {:induction false} GroupQtyAbsent(rows: seq<SalesRow>, keyOf: SalesRow -> Option<string>, k: string)
    requires k !in Groups(rows, keyOf)
    ensures GroupQty(rows, keyOf, k) == 0.0
  {
    if rows != [] {
      var init := rows[..|rows| - 1];
      var key := keyOf(rows[|rows| - 1]);
      assert forall x :: x in Groups(init, keyOf) ==> x in Groups(rows, keyOf);
      GroupQtyAbsent(init, keyOf, k);
    }
  }

  /**
    The position of the first heaviest key among the first `n` keys: nothing before it
    weighs as much, nothing after it weighs more. This is `max` over a dictionary with
    `key=`, which keeps the first maximum it meets.
   */
  function FirstMaxIndex(keys: seq<string>, weight: string -> real, n: nat): (b: nat)
    requires 0 < n <= |keys|
    ensures b < n
    ensures forall k :: 0 <= k < n ==> weight(keys[k]) <= weight(keys[b])
    ensures forall k :: 0 <= k < b ==> weight(keys[k]) < weight(keys[b])
  {
    if n == 1 then 0
    else
      var b := FirstMaxIndex(keys, weight, n - 1);
      if weight(keys[n - 1]) > weight(keys[b]) then n - 1 else b
  }

  function ProductOf(row: SalesRow): Option<string> { row.productName }

  /**
    `get_best_selling_product`: "" for a table without a named product; otherwise a product
    whose summed quantity no other product's exceeds (the first such in row order).
   */
  function BestSellingProduct(sales: seq<SalesRow>): (best: string)
    ensures Groups(sales, ProductOf) == [] ==> best == ""
    ensures Groups(sales, ProductOf) != [] ==> exists k :: (0 <= k < |Groups(sales, ProductOf)|
      && Groups(sales, ProductOf)[k] == best
      && forall k' :: 0 <= k' < |Groups(sales, ProductOf)| ==>
        GroupQty(sales, ProductOf, Groups(sales, ProductOf)[k']) <= GroupQty(sales, ProductOf, best))
  {
    var names := Groups(sales, ProductOf);
    if names == [] then ""
    else names[FirstMaxIndex(names, k => GroupQty(sales, ProductOf, k), |names|)]
  }

  /** `str(row.get("product_name", ""))`: a NaN name reads as "nan". */
  function NameText(cell: Option<string>): string {
    if cell.Some? then cell.value else "nan"
  }

  /** `name.split("-")[-1]`: what follows the last '-'. */
  function AfterLastDash(s: string): (r: string)
    ensures |r| <= |s| && r == s[|s| - |r|..]
    ensures '-' !in r
    ensures |r| < |s| ==> s[|s| - |r| - 1] == '-'
  {
    if s == [] then []
    else if s[|s| - 1] == '-' then []
    else AfterLastDash(s[..|s| - 1]) + [s[|s| - 1]]
  }

  /** The size of a product name: the stripped text after its last '-', if there is a '-' and that text is not empty. */
  function SizeOf(name: string): (size: Option<string>)
    ensures size.Some? ==> '-' in name && size.value != [] && Stripped(size.value)
    ensures '-' !in name ==> size.None?
  {
    if '-' in name && Strip(AfterLastDash(name)) != "" then Some(Strip(AfterLastDash(name))) else None
  }

  /**
    The size of a row's product, read from `str(product_name)`; a NaN name reads as "nan",
    which has no size (lemma `NanHasNoSize`).
   */
  function RowSize(row: SalesRow): Option<string> {
    if row.productName.Some? then SizeOf(row.productName.value) else None
  }

  lemma NanHasNoSize(row: SalesRow)
    ensures RowSize(row) == SizeOf(NameText(row.productName))
  {
    if row.productName.None? {
      assert '-' !in "nan";
    }
  }

  /**
    The dictionary loop of `get_best_selling_size`: adds each row's quantity to the entry of
    its key, creating the entry at 0 first; `order` is the dictionary's insertion order.
   */
  method SumByKey(rows: seq<SalesRow>, keyOf: SalesRow -> Option<string>)
    returns (totals: map<string, real>, order: seq<string>)
    ensures order == Groups(rows, keyOf)
    ensures forall k :: k in totals <==> k in order
    ensures forall k :: k in totals ==> totals[k] == GroupQty(rows, keyOf, k)
  {
    totals := map[];
    order := [];
    var i := 0;
    while i < |rows|
      invariant 0 <= i <= |rows|
      invariant order == Groups(rows[..i], keyOf)
      invariant forall k :: k in totals <==> k in order
      invariant forall k :: k in totals ==> totals[k] == GroupQty(rows[..i], keyOf, k)
    {
      assert rows[..i + 1][..i] == rows[..i];
      var qty := ValueOr0(rows[i].quantity);
      var key := keyOf(rows[i]);
      if key.Some? {
        if key.value !in totals {
          GroupQtyAbsent(rows[..i], keyOf, key.value);
        }
        var current := if key.value in totals then totals[key.value] else 0.0;
        totals := totals[key.value := current + qty];
        order := if key.value in order then order else order + [key.value];
      }
      i := i + 1;
    }
    assert rows[..|rows|] == rows;
  }

  /**
    `get_best_selling_size`: sums the quantity of every size in a dictionary filled in row
    order, then returns the size with the largest sum, the first one inserted among equals;
    "" when no product name carries a size.
   */
  method GetBestSellingSize(sales: seq<SalesRow>) returns (best: string)
    ensures best == "" <==> Groups(sales, RowSize) == []
    ensures best != "" ==> exists k :: (0 <= k < |Groups(sales, RowSize)|
      && Groups(sales, RowSize)[k] == best
      && (forall k' :: 0 <= k' < |Groups(sales, RowSize)| ==>
        GroupQty(sales, RowSize, Groups(sales, RowSize)[k']) <= GroupQty(sales, RowSize, best))
      && (forall k' :: 0 <= k' < k ==>
        GroupQty(sales, RowSize, Groups(sales, RowSize)[k']) < GroupQty(sales, RowSize, best)))
  {
    if sales == [] {
      return "";
    }
    var sizeSales, order := SumByKey(sales, RowSize);
    if order == [] {
      return "";
    }
    var weight := k => if k in sizeSales then sizeSales[k] else 0.0;
    var b := FirstMaxIndex(order, weight, |order|);
    best := order[b];
    forall k' | 0 <= k' < |order|
      ensures weight(order[k']) == GroupQty(sales, RowSize, order[k'])
    {
    }
    SizesNonEmpty(sales);
    assert best in Groups(sales, RowSize);
  }

  /** No size is the empty string, so "" can only mean that no name carries a size. */
  lemma {:induction false} SizesNonEmpty(rows: seq<SalesRow>)
    ensures forall k :: k in Groups(rows, RowSize) ==> k != ""
  {
    if rows != [] {
      SizesNonEmpty(rows[..|rows| - 1]);
    }
  }

  datatype Status = LowStock | SlowMoving | NoDeal | Healthy

  /** `calculate_status`: the first rule that applies, in the order low stock, slow moving, no deal. */
  function CalculateStatus(salesQty: real, inventoryQty: real, hasDeal: bool): (s: Status)
    ensures s == LowStock <==> inventoryQty < 5.0
    ensures s == SlowMoving <==> inventoryQty >= 5.0 && salesQty <= 3.0
    ensures s == NoDeal <==> inventoryQty >= 5.0 && salesQty > 3.0 && !hasDeal
    ensures s == Healthy <==> inventoryQty >= 5.0 && salesQty > 3.0 && hasDeal
  {
    if inventoryQty < 5.0 then LowStock
    else if salesQty <= 3.0 then SlowMoving
    else if !hasDeal then NoDeal
    else Healthy
  }

  /** The label the sheets print. */
  function StatusText(s: Status): (t: string)
    ensures t in {"Low Stock", "Slow Moving", "No Deal", "Healthy"}
  {
    match s
    case LowStock => "Low Stock"
    case SlowMoving => "Slow Moving"
    case NoDeal => "No Deal"
    case Healthy => "Healthy"
  }

  /** Distinct statuses print distinct labels. */
  lemma StatusTextInjective(s: Status, t: Status)
    ensures StatusText(s) == StatusText(t) ==> s == t
  {
  }
}
