/**
  The "Performance" sheet of the branch summary (reports/branch_summary_performance.py):
  two KPI cards (the branch's sales money, and what is left after every brand's deal),
  and a table with one line per brand sold, ranked by sales money. Brand selection is
  pandas' `==`, so a NaN brand selects no row; deals are looked up under the raw brand.
 */
module BranchPerformance {
  import opened Wrappers
  import opened Tables
  import opened Worksheets
  import opened ExcelHelpers
  import opened KpiEngine
  import DealsEngine

  /** `sales_df["brand"].unique()`: each brand once, in order of first appearance; NaN counts once. */
  function UniqueBrands(rows: seq<SalesRow>): (brands: seq<Option<string>>)
    ensures forall b :: b in brands ==> exists r :: r in rows && r.brand == b
    ensures forall r :: r in rows ==> r.brand in brands
    ensures forall i, j :: 0 <= i < j < |brands| ==> brands[i] != brands[j]
  {
    if rows == [] then []
    else
      var prev := UniqueBrands(rows[..|rows| - 1]);
      var b := rows[|rows| - 1].brand;
      assert forall r :: r in rows[..|rows| - 1] ==> r in rows;
      assert forall r :: r in rows ==> r in rows[..|rows| - 1] || r == rows[|rows| - 1];
      if b in prev then prev else prev + [b]
  }

  /** The money of one sales row if `brand` selects it (a NaN brand selects nothing). */
  function MoneyHit(brand: Option<string>): SalesRow -> real {
    (r: SalesRow) => if SameValue(r.brand, brand) then Money(r) else 0.0
  }

  function QtyHit(brand: Option<string>): SalesRow -> real {
    (r: SalesRow) => if SameValue(r.brand, brand) then Qty(r) else 0.0
  }

  function StockHit(brand: Option<string>): InventoryRow -> real {
    (r: InventoryRow) => if SameValue(r.brand, brand) then Stock(r) else 0.0
  }

  /** `available_quantity * sale_price` of one row; NaN in either makes a NaN the sum skips. */
  function ValueHit(brand: Option<string>): InventoryRow -> real {
    (r: InventoryRow) => if SameValue(r.brand, brand) then ValueOr0(r.availableQuantity) * ValueOr0(r.salePrice) else 0.0
  }

  /** `sales_df[sales_df["brand"] == brand]["total"].sum()`. */
  function BrandMoney(rows: seq<SalesRow>, brand: Option<string>): real {
    Sum(rows, MoneyHit(brand))
  }

  /** `deals_dict.get(brand, {"percentage": 0, "rent": 0})`, under the brand as it is written. */
  function DealOf(deals: map<string, DealsEngine.Deal>, brand: Option<string>): (d: DealsEngine.Deal)
    ensures brand.Some? && brand.value in deals ==> d == deals[brand.value]
    ensures !(brand.Some? && brand.value in deals) ==> d == DealsEngine.Deal(0.0, 0.0)
  {
    if brand.Some? && brand.value in deals then deals[brand.value] else DealsEngine.Deal(0.0, 0.0)
  }

  /**
    Deals are looked up under the brand as the sales table spells it, while the deals
    dictionary is keyed by normalised names: a lower-case "nike" finds no terms under
    "Nike" here, although `has_deal` reports a deal for it.
   */
  lemma RawLookupMissesNormalizedKey()
    ensures var deals := map["Nike" := DealsEngine.Deal(10.0, 0.0)];
      DealsEngine.HasDeal("nike", deals) && DealOf(deals, Some("nike")) == DealsEngine.Deal(0.0, 0.0)
  {
    Text.StripStripped("nike");
    assert Text.TitleFrom("e", true) == "e";
    assert Text.TitleFrom("ke", true) == "ke";
    assert Text.TitleFrom("ike", true) == "ike";
    assert Text.TitleFrom("nike", false) == "Nike";
  }

  /** What the card loop deducts for one brand as percentage. */
  function PercentageDeduction(rows: seq<SalesRow>, deals: map<string, DealsEngine.Deal>): Option<string> -> real {
    b => BrandMoney(rows, b) * (DealOf(deals, b).percentage / 100.0)
  }

  /** What the card loop deducts for one brand as rent. */
  function RentDeduction(deals: map<string, DealsEngine.Deal>): Option<string> -> real {
    b => DealOf(deals, b).rent
  }

  /** The figures of the two cards. */
  datatype Cards = Cards(totalSales: real, afterAll: real)

  /** Total Branch Sales, and Sales After All Deductions, which sums the deductions over the distinct brands. */
  function CardFigures(rows: seq<SalesRow>, deals: map<string, DealsEngine.Deal>): (cards: Cards)
    ensures cards.totalSales - cards.afterAll == Sum(UniqueBrands(rows), DeductionOf(rows, deals))
  {
    var brands := UniqueBrands(rows);
    SumPointwise(brands, DeductionOf(rows, deals), PercentageDeduction(rows, deals), RentDeduction(deals));
    Cards(Sum(rows, Money),
          Sum(rows, Money) - Sum(brands, PercentageDeduction(rows, deals)) - Sum(brands, RentDeduction(deals)))
  }

  /** With no deal entries nothing is deducted: both cards show the branch's sales money. */
  lemma {:induction false} CardsWithoutDeals(rows: seq<SalesRow>)
    ensures CardFigures(rows, map[]).afterAll == CardFigures(rows, map[]).totalSales
  {
    var brands := UniqueBrands(rows);
    forall b | b in brands
      ensures PercentageDeduction(rows, map[])(b) == 0.0 && RentDeduction(map[])(b) == 0.0
    {
      assert DealOf(map[], b) == DealsEngine.Deal(0.0, 0.0);
    }
    SumZero(brands, PercentageDeduction(rows, map[]));
    SumZero(brands, RentDeduction(map[]));
  }

  /** The card loop: both deductions accumulated brand by brand. */
  method ComputeCards(rows: seq<SalesRow>, deals: map<string, DealsEngine.Deal>) returns (cards: Cards)
    ensures cards == CardFigures(rows, deals)
  {
    var totalSalesMoney := Sum(rows, Money);
    var brands := UniqueBrands(rows);
    var percentageDeduction, rentDeduction := 0.0, 0.0;
    var i := 0;
    while i < |brands|
      invariant 0 <= i <= |brands|
      invariant percentageDeduction == Sum(brands[..i], PercentageDeduction(rows, deals))
      invariant rentDeduction == Sum(brands[..i], RentDeduction(deals))
    {
      var brandTotal := BrandMoney(rows, brands[i]);
      var deal := DealOf(deals, brands[i]);
      SumPrefixStep(brands, i, PercentageDeduction(rows, deals));
      SumPrefixStep(brands, i, RentDeduction(deals));
      percentageDeduction := percentageDeduction + brandTotal * (deal.percentage / 100.0);
      rentDeduction := rentDeduction + deal.rent;
      i := i + 1;
    }
    assert brands[..|brands|] == brands;
    cards := Cards(totalSalesMoney, totalSalesMoney - percentageDeduction - rentDeduction);
  }

  /** One line of `table_data`. */
  datatype BrandLine = BrandLine(
    brand: Option<string>,
    salesQty: real,
    salesMoney: real,
    afterPercentage: real,
    afterRent: real,
    afterAll: real,
    inventoryQty: real,
    inventoryValue: real)

  /** The line the table loop builds for one brand. */
  function LineOf(sales: seq<SalesRow>, inventory: seq<InventoryRow>, deals: map<string, DealsEngine.Deal>): (lineOf: Option<string> -> BrandLine)
    ensures forall b :: lineOf(b).brand == b && lineOf(b).afterAll == lineOf(b).afterRent
  {
    b =>
      var money := BrandMoney(sales, b);
      var deal := DealOf(deals, b);
      var afterPercentage := money - money * deal.percentage / 100.0;
      var afterRent := afterPercentage - deal.rent;
      BrandLine(b, Sum(sales, QtyHit(b)), money, afterPercentage, afterRent, afterRent,
                Sum(inventory, StockHit(b)), Sum(inventory, ValueHit(b)))
  }

  /** A table line applies the brand's deal as `apply_deal` does, and After All is After Rent. */
  lemma LineAppliesDeal(sales: seq<SalesRow>, inventory: seq<InventoryRow>, deals: map<string, DealsEngine.Deal>, b: Option<string>)
    ensures var line := LineOf(sales, inventory, deals)(b);
      && line.brand == b
      && line.salesMoney == BrandMoney(sales, b)
      && (line.afterPercentage, line.afterRent)
         == ApplyDeal(line.salesMoney, DealOf(deals, b).percentage, DealOf(deals, b).rent)
      && line.afterAll == line.afterRent
  {
    var money := BrandMoney(sales, b);
    var deal := DealOf(deals, b);
    var afterPercentage := money - money * deal.percentage / 100.0;
    assert LineOf(sales, inventory, deals)(b).salesMoney == money;
    assert LineOf(sales, inventory, deals)(b).afterPercentage == afterPercentage;
    var applied := ApplyDeal(money, deal.percentage, deal.rent);
    assert applied.0 == afterPercentage;
    assert applied.1 == afterPercentage - deal.rent;
  }

  /** The table loop: one line per distinct brand, in order of first appearance. */
  method BuildTable(sales: seq<SalesRow>, inventory: seq<InventoryRow>, deals: map<string, DealsEngine.Deal>)
    returns (table: seq<BrandLine>)
    ensures table == Each(UniqueBrands(sales), LineOf(sales, inventory, deals))
  {
    var brands := UniqueBrands(sales);
    var lineOf := LineOf(sales, inventory, deals);
    table := [];
    var i := 0;
    while i < |brands|
      invariant 0 <= i <= |brands|
      invariant table == Each(brands[..i], lineOf)
    {
      EachPrefixStep(brands, i, lineOf);
      table := table + [lineOf(brands[i])];
      i := i + 1;
    }
    assert brands[..|brands|] == brands;
  }

  predicate SortedByMoney(lines: seq<BrandLine>) {
    forall i, j :: 0 <= i < j < |lines| ==> lines[i].salesMoney >= lines[j].salesMoney
  }

  /** Puts `x` after every line with at least its money. */
  function InsertByMoney(x: BrandLine, sorted: seq<BrandLine>): (r: seq<BrandLine>)
    ensures |r| == |sorted| + 1
    ensures multiset(r) == multiset(sorted) + multiset{x}
  {
    if sorted == [] then [x]
    else if sorted[0].salesMoney >= x.salesMoney then
      assert sorted == [sorted[0]] + sorted[1..];
      [sorted[0]] + InsertByMoney(x, sorted[1..])
    else [x] + sorted
  }

  lemma {:induction false} InsertKeepsSorted(x: BrandLine, sorted: seq<BrandLine>)
    requires SortedByMoney(sorted)
    ensures SortedByMoney(InsertByMoney(x, sorted))
  {
    if sorted != [] && sorted[0].salesMoney >= x.salesMoney {
      var rest := InsertByMoney(x, sorted[1..]);
      InsertKeepsSorted(x, sorted[1..]);
      forall j | 0 <= j < |rest|
        ensures sorted[0].salesMoney >= rest[j].salesMoney
      {
        assert rest[j] in multiset(rest);
        assert rest[j] in multiset(sorted[1..]) || rest[j] == x;
        if rest[j] != x {
          var k :| 0 <= k < |sorted[1..]| && sorted[1..][k] == rest[j];
          assert sorted[k + 1] == rest[j];
        }
      }
      assert InsertByMoney(x, sorted) == [sorted[0]] + rest;
    }
  }

  /**
    `sort_values(by="Sales Money", ascending=False)`, as a stable insertion sort: lines
    with equal money keep their table order.
   */
  function SortByMoney(lines: seq<BrandLine>): (sorted: seq<BrandLine>)
    ensures |sorted| == |lines|
    ensures multiset(sorted) == multiset(lines)
  {
    if lines == [] then []
    else
      assert lines == lines[..|lines| - 1] + [lines[|lines| - 1]];
      InsertByMoney(lines[|lines| - 1], SortByMoney(lines[..|lines| - 1]))
  }

  lemma {:induction false} SortByMoneySorted(lines: seq<BrandLine>)
    ensures SortedByMoney(SortByMoney(lines))
  {
    if lines != [] {
      SortByMoneySorted(lines[..|lines| - 1]);
      InsertKeepsSorted(lines[|lines| - 1], SortByMoney(lines[..|lines| - 1]));
    }
  }

  /** Inserting a line adds its summand. */
  lemma {:induction false} InsertSum(x: BrandLine, sorted: seq<BrandLine>, f: BrandLine -> real)
    ensures Sum(InsertByMoney(x, sorted), f) == Sum(sorted, f) + f(x)
  {
    if sorted == [] {
      SumCons(x, [], f);
    } else if sorted[0].salesMoney >= x.salesMoney {
      InsertSum(x, sorted[1..], f);
      SumCons(sorted[0], InsertByMoney(x, sorted[1..]), f);
      SumCons(sorted[0], sorted[1..], f);
      assert [sorted[0]] + sorted[1..] == sorted;
    } else {
      SumCons(x, sorted, f);
    }
  }

  /** Ranking moves lines but keeps every column total. */
  lemma {:induction false} SortByMoneySum(lines: seq<BrandLine>, f: BrandLine -> real)
    ensures Sum(SortByMoney(lines), f) == Sum(lines, f)
  {
    if lines != [] {
      SortByMoneySum(lines[..|lines| - 1], f);
      InsertSum(lines[|lines| - 1], SortByMoney(lines[..|lines| - 1]), f);
    }
  }

  /** The money of a sales row whose brand is NaN: in the branch total, but in no brand's line. */
  function Unbranded(r: SalesRow): real {
    if r.brand.None? then Money(r) else 0.0
  }

  function Branded(r: SalesRow): real {
    if r.brand.Some? then Money(r) else 0.0
  }

  function BrandMoneyOf(rows: seq<SalesRow>): Option<string> -> real {
    b => BrandMoney(rows, b)
  }

  /** The money one sales row brings to each brand. */
  function RowHit(r: SalesRow): Option<string> -> real {
    b => MoneyHit(b)(r)
  }

  /** Over distinct brands a row is counted once, under its own brand, or not at all. */
  lemma {:induction false} RowCountedOnce(brands: seq<Option<string>>, r: SalesRow)
    requires forall i, j :: 0 <= i < j < |brands| ==> brands[i] != brands[j]
    ensures Sum(brands, RowHit(r)) == if r.brand in brands then Branded(r) else 0.0
  {
    if brands != [] {
      var init := brands[..|brands| - 1];
      var last := brands[|brands| - 1];
      assert forall i, j :: 0 <= i < j < |init| ==> init[i] != init[j] by {
        forall i, j | 0 <= i < j < |init| ensures init[i] != init[j] {
          assert init[i] == brands[i] && init[j] == brands[j];
        }
      }
      RowCountedOnce(init, r);
      var hit := RowHit(r)(last);
      assert hit == MoneyHit(last)(r);
      assert hit == if SameValue(r.brand, last) then Money(r) else 0.0;
      assert Sum(brands, RowHit(r)) == Sum(init, RowHit(r)) + hit;
      assert r.brand in brands <==> r.brand in init || r.brand == last by {
        assert brands == init + [last];
      }
      if last == r.brand {
        assert hit == Branded(r);
        assert r.brand !in init;
      } else {
        assert hit == 0.0;
      }
    }
  }

  /** No row of `rows` has `brand`, so the brand's money is 0. */
  lemma AbsentBrandMoney(rows: seq<SalesRow>, brand: Option<string>)
    requires forall r :: r in rows ==> r.brand != brand
    ensures BrandMoney(rows, brand) == 0.0
  {
    SumZero(rows, MoneyHit(brand));
  }

  /** Summed over the distinct brands, the brands' money is the money of every branded row. */
  lemma {:induction false} BrandMoneyGrouped(rows: seq<SalesRow>)
    ensures Sum(UniqueBrands(rows), BrandMoneyOf(rows)) == Sum(rows, Branded)
  {
    if rows != [] {
      var init := rows[..|rows| - 1];
      var r := rows[|rows| - 1];
      var prev := UniqueBrands(init);
      var brands := UniqueBrands(rows);
      BrandMoneyGrouped(init);
      forall b | b in brands
        ensures BrandMoneyOf(rows)(b) == BrandMoneyOf(init)(b) + RowHit(r)(b)
      {
      }
      SumPointwise(brands, BrandMoneyOf(rows), BrandMoneyOf(init), RowHit(r));
      RowCountedOnce(brands, r);
      if r.brand in prev {
        assert brands == prev;
      } else {
        assert brands == prev + [r.brand];
        AbsentBrandMoney(init, r.brand);
        RowCountedOnce(prev, r);
        assert brands[..|brands| - 1] == prev;
      }
    }
  }

  function SalesMoneyOf(l: BrandLine): real { l.salesMoney }

  function AfterRentOf(l: BrandLine): real { l.afterRent }

  function AfterRentOfBrand(sales: seq<SalesRow>, inventory: seq<InventoryRow>, deals: map<string, DealsEngine.Deal>): Option<string> -> real {
    b => LineOf(sales, inventory, deals)(b).afterRent
  }

  function DeductionOf(rows: seq<SalesRow>, deals: map<string, DealsEngine.Deal>): Option<string> -> real {
    b => PercentageDeduction(rows, deals)(b) + RentDeduction(deals)(b)
  }

  /**
    The Total Sales card agrees with the ranked table: it is the table's Sales Money
    plus the money of rows without a brand.
   */
  lemma CardsTotalMatchesTable(sales: seq<SalesRow>, inventory: seq<InventoryRow>, deals: map<string, DealsEngine.Deal>)
    ensures CardFigures(sales, deals).totalSales
      == Sum(RankedTable(sales, inventory, deals), SalesMoneyOf) + Sum(sales, Unbranded)
  {
    var brands := UniqueBrands(sales);
    var lineOf := LineOf(sales, inventory, deals);
    SumPointwise(sales, Money, Branded, Unbranded);
    BrandMoneyGrouped(sales);
    SumEach(brands, lineOf, SalesMoneyOf, BrandMoneyOf(sales));
    SortByMoneySum(Each(brands, lineOf), SalesMoneyOf);
  }

  /** One brand's table line and its card deductions account for all of its sales money. */
  lemma BrandSplit(sales: seq<SalesRow>, inventory: seq<InventoryRow>, deals: map<string, DealsEngine.Deal>, b: Option<string>)
    ensures BrandMoneyOf(sales)(b) == AfterRentOfBrand(sales, inventory, deals)(b) + DeductionOf(sales, deals)(b)
  {
    var m := BrandMoney(sales, b);
    var deal := DealOf(deals, b);
    var line := LineOf(sales, inventory, deals)(b);
    assert line.afterRent == m - m * deal.percentage / 100.0 - deal.rent;
    assert AfterRentOfBrand(sales, inventory, deals)(b) == line.afterRent;
    assert m * deal.percentage / 100.0 == m * (deal.percentage / 100.0);
    assert PercentageDeduction(sales, deals)(b) == m * (deal.percentage / 100.0);
    assert RentDeduction(deals)(b) == deal.rent;
    assert DeductionOf(sales, deals)(b) == PercentageDeduction(sales, deals)(b) + RentDeduction(deals)(b);
  }

  /** For each brand, its sales money is its After Rent plus what its deal deducts. */
  lemma BrandMoneySplits(sales: seq<SalesRow>, inventory: seq<InventoryRow>, deals: map<string, DealsEngine.Deal>)
    ensures Sum(UniqueBrands(sales), BrandMoneyOf(sales))
      == Sum(UniqueBrands(sales), AfterRentOfBrand(sales, inventory, deals))
       + Sum(UniqueBrands(sales), PercentageDeduction(sales, deals))
       + Sum(UniqueBrands(sales), RentDeduction(deals))
  {
    var brands := UniqueBrands(sales);
    var money := BrandMoneyOf(sales);
    var afterRent := AfterRentOfBrand(sales, inventory, deals);
    var deduction := DeductionOf(sales, deals);
    forall b | b in brands
      ensures money(b) == afterRent(b) + deduction(b)
    {
      BrandSplit(sales, inventory, deals, b);
    }
    SumPointwise(brands, money, afterRent, deduction);
    SumPointwise(brands, deduction, PercentageDeduction(sales, deals), RentDeduction(deals));
  }

  /**
    The Sales After All Deductions card agrees with the ranked table: it is the table's
    After Rent column plus the money of rows without a brand.
   */
  lemma CardsAfterAllMatchesTable(sales: seq<SalesRow>, inventory: seq<InventoryRow>, deals: map<string, DealsEngine.Deal>)
    ensures CardFigures(sales, deals).afterAll
      == Sum(RankedTable(sales, inventory, deals), AfterRentOf) + Sum(sales, Unbranded)
  {
    var brands := UniqueBrands(sales);
    var lineOf := LineOf(sales, inventory, deals);
    SumPointwise(sales, Money, Branded, Unbranded);
    BrandMoneyGrouped(sales);
    BrandMoneySplits(sales, inventory, deals);
    SumEach(brands, lineOf, AfterRentOf, AfterRentOfBrand(sales, inventory, deals));
    SortByMoneySum(Each(brands, lineOf), AfterRentOf);
  }

  /** The table has a line for exactly the brands that occur in the sales, each once. */
  lemma RankedTableBrands(sales: seq<SalesRow>, inventory: seq<InventoryRow>, deals: map<string, DealsEngine.Deal>, b: Option<string>)
    ensures (exists l :: l in RankedTable(sales, inventory, deals) && l.brand == b)
      <==> (exists r :: r in sales && r.brand == b)
    ensures |RankedTable(sales, inventory, deals)| == |UniqueBrands(sales)|
  {
    var lineOf := LineOf(sales, inventory, deals);
    forall x
      ensures lineOf(x).brand == x
    {
    }
    SortedLineBrands(UniqueBrands(sales), lineOf, b);
  }

  /** Sorting the lines of some brands keeps a line for each of them and for nothing else. */
  lemma SortedLineBrands(brands: seq<Option<string>>, lineOf: Option<string> -> BrandLine, b: Option<string>)
    requires forall x :: lineOf(x).brand == x
    ensures (exists l :: l in SortByMoney(Each(brands, lineOf)) && l.brand == b) <==> b in brands
  {
    var table := Each(brands, lineOf);
    var ranked := SortByMoney(table);
    if b in brands {
      var k :| 0 <= k < |brands| && brands[k] == b;
      MultisetMember(table[k], table, ranked);
      assert table[k].brand == b;
    }
    if exists l :: l in ranked && l.brand == b {
      var l :| l in ranked && l.brand == b;
      MultisetMember(l, ranked, table);
      var k :| 0 <= k < |table| && table[k] == l;
      assert l == lineOf(brands[k]);
    }
  }

  /** Sequences with one multiset have one set of members. */
  lemma MultisetMember<T>(x: T, a: seq<T>, b: seq<T>)
    requires multiset(a) == multiset(b) && x in a
    ensures x in b
  {
    assert x in multiset(a);
  }

  /** The sheet line of a ranked table line: `row.tolist()` after `df.insert(0, "Rank", ...)`. */
  function RankedLine(rank: nat, l: BrandLine): seq<Cell> {
    [Number(rank as real), TextCell(l.brand), Number(l.salesQty), Number(l.salesMoney), Number(l.afterPercentage),
     Number(l.afterRent), Number(l.afterAll), Number(l.inventoryQty), Number(l.inventoryValue)]
  }

  /** `df.index + 1` after `reset_index`: the ranks run 1, 2, ... down the sorted lines. */
  function RankedLines(sorted: seq<BrandLine>): (lines: seq<seq<Cell>>)
    ensures |lines| == |sorted|
    ensures forall i :: 0 <= i < |sorted| ==> lines[i] == RankedLine(i + 1, sorted[i])
  {
    seq(|sorted|, i requires 0 <= i < |sorted| => RankedLine(i + 1, sorted[i]))
  }

  /**
    The table lines go down by sales money, and the rank column counts 1, 2, ... in
    that order, next to each line's own money.
   */
  lemma RankedTableOrdered(sales: seq<SalesRow>, inventory: seq<InventoryRow>, deals: map<string, DealsEngine.Deal>)
    ensures SortedByMoney(RankedTable(sales, inventory, deals))
    ensures var ranked := RankedTable(sales, inventory, deals);
      forall i :: 0 <= i < |ranked| ==>
        RankedLines(ranked)[i][0] == Number((i + 1) as real)
        && RankedLines(ranked)[i][3] == Number(ranked[i].salesMoney)
  {
    SortByMoneySorted(Each(UniqueBrands(sales), LineOf(sales, inventory, deals)));
    var ranked := RankedTable(sales, inventory, deals);
    var lines := RankedLines(ranked);
    forall i | 0 <= i < |ranked|
      ensures lines[i][0] == Number((i + 1) as real) && lines[i][3] == Number(ranked[i].salesMoney)
    {
      assert lines[i] == RankedLine(i + 1, ranked[i]);
    }
  }

  const PerformanceHeaders: seq<string> :=
    ["Rank", "Brand", "Sales Qty", "Sales Money", "After Percentage", "After Rent",
     "After All Deductions", "Inventory Qty", "Inventory Value"]

  /** A1/C1 hold the card titles and A2/C2 their figures. */
  function CardRows(cards: Cards): seq<seq<Cell>> {
    [[Text("Total Branch Sales"), Blank, Text("Sales After All Deductions")],
     [Number(cards.totalSales), Blank, Number(cards.afterAll)]]
  }

  /** The lines of the brand table, ranked. */
  function RankedTable(sales: seq<SalesRow>, inventory: seq<InventoryRow>, deals: map<string, DealsEngine.Deal>): (ranked: seq<BrandLine>)
    ensures |ranked| == |UniqueBrands(sales)|
    ensures SortedByMoney(ranked)
  {
    SortByMoneySorted(Each(UniqueBrands(sales), LineOf(sales, inventory, deals)));
    SortByMoney(Each(UniqueBrands(sales), LineOf(sales, inventory, deals)))
  }

  /**
    Row 5: the header styling loop reaches it through `ws.cell(row=5, column=c)` for each
    header column, which creates those cells empty, so the ranked lines start at row 6.
   */
  const StyledRow: seq<Cell> := BlankRow(|PerformanceHeaders|)

  /** A row of `n` cells that exist but hold nothing. */
  function BlankRow(n: nat): (row: seq<Cell>)
    ensures |row| == n && forall c :: 0 <= c < n ==> row[c] == Blank
  {
    seq(n, c => Blank)
  }

  /**
    The rows of the finished sheet: the cards, an empty row, the headers, the empty styled
    row, the ranked lines.
   */
  function PerformanceRows(sales: seq<SalesRow>, inventory: seq<InventoryRow>, deals: map<string, DealsEngine.Deal>): (rows: seq<seq<Cell>>)
    ensures |rows| == 5 + |UniqueBrands(sales)|
  {
    CardRows(CardFigures(sales, deals)) + [[], TextRow(PerformanceHeaders), StyledRow]
      + RankedLines(RankedTable(sales, inventory, deals))
  }

  /**
    Where things sit on the sheet (row r of the workbook is index r - 1): the cards in rows
    1-2, the headers in row 4, nine empty cells in row 5, and the line ranked i + 1 in row 6 + i.
   */
  lemma PerformanceLayout(sales: seq<SalesRow>, inventory: seq<InventoryRow>, deals: map<string, DealsEngine.Deal>)
    ensures var rows := PerformanceRows(sales, inventory, deals);
      var ranked := RankedTable(sales, inventory, deals);
      && |rows| == 5 + |ranked|
      && rows[0][0] == Text("Total Branch Sales") && rows[1][0] == Number(CardFigures(sales, deals).totalSales)
      && rows[0][2] == Text("Sales After All Deductions") && rows[1][2] == Number(CardFigures(sales, deals).afterAll)
      && rows[2] == []
      && rows[3] == TextRow(PerformanceHeaders)
      && |rows[4]| == 9 && (forall c :: 0 <= c < 9 ==> rows[4][c] == Blank)
      && forall i :: 0 <= i < |ranked| ==> rows[5 + i] == RankedLine(i + 1, ranked[i])
  {
    var figures := CardFigures(sales, deals);
    var cards := CardRows(figures);
    var lines := RankedLines(RankedTable(sales, inventory, deals));
    var head := cards + [[], TextRow(PerformanceHeaders), StyledRow];
    assert cards[0][0] == Text("Total Branch Sales") && cards[1][0] == Number(figures.totalSales);
    assert cards[0][2] == Text("Sales After All Deductions") && cards[1][2] == Number(figures.afterAll);
    assert head[0] == cards[0] && head[1] == cards[1];
    assert head[2] == [] && head[3] == TextRow(PerformanceHeaders) && head[4] == StyledRow;
    assert |PerformanceHeaders| == 9;
    assert PerformanceRows(sales, inventory, deals) == head + lines;
    TableBelowHead(head, lines);
  }

  lemma TableBelowHead(head: seq<seq<Cell>>, lines: seq<seq<Cell>>)
    ensures forall r :: 0 <= r < |head| ==> (head + lines)[r] == head[r]
    ensures forall i :: 0 <= i < |lines| ==> (head + lines)[|head| + i] == lines[i]
  {
  }


  /** The first sales column the cards read that is missing (pandas raises a KeyError). */
  function SalesColumnError(sales: Frame<SalesRow>): (missing: Option<string>)
    ensures missing.None? <==> "total" in sales.columns && "quantity" in sales.columns && "brand" in sales.columns
    ensures missing.Some? ==> missing.value !in sales.columns
  {
    if "total" !in sales.columns then Some("total")
    else if "quantity" !in sales.columns then Some("quantity")
    else if "brand" !in sales.columns then Some("brand")
    else None
  }

  /** The first inventory column the table loop reads that is missing; with no brand it reads none. */
  function InventoryColumnError(sales: Frame<SalesRow>, inventory: Frame<InventoryRow>): (missing: Option<string>)
    ensures missing.None? <==> (UniqueBrands(sales.rows) == []
      || ("brand" in inventory.columns && "available_quantity" in inventory.columns && "sale_price" in inventory.columns))
    ensures missing.Some? ==> missing.value !in inventory.columns
  {
    if UniqueBrands(sales.rows) == [] then None
    else if "brand" !in inventory.columns then Some("brand")
    else if "available_quantity" !in inventory.columns then Some("available_quantity")
    else if "sale_price" !in inventory.columns then Some("sale_price")
    else None
  }

  /** The loop appending the ranked lines. */
  method AppendRanked(ws: Worksheet, sorted: seq<BrandLine>)
    modifies ws
    ensures ws.title == old(ws.title) && ws.widths == old(ws.widths)
    ensures ws.rows == old(ws.rows) + RankedLines(sorted)
  {
    var i := 0;
    while i < |sorted|
      invariant 0 <= i <= |sorted|
      invariant ws.title == old(ws.title) && ws.widths == old(ws.widths)
      invariant ws.rows == old(ws.rows) + RankedLines(sorted)[..i]
    {
      assert RankedLines(sorted)[..i + 1] == RankedLines(sorted)[..i] + [RankedLine(i + 1, sorted[i])];
      ws.Append(RankedLine(i + 1, sorted[i]));
      i := i + 1;
    }
  }

  /**
    `create_branch_performance_sheet`: the cards, then the ranked brand table below an
    empty row, the headers and the empty styled row, then the column widths. A missing sales column stops it
    before anything is written; a missing inventory column after the cards are.
   */
  method CreateBranchPerformanceSheet(sales: Frame<SalesRow>, inventory: Frame<InventoryRow>,
                                      deals: map<string, DealsEngine.Deal>, numText: real -> string)
    returns (ws: Worksheet, error: Option<string>)
    ensures fresh(ws) && ws.title == "Performance"
    ensures SalesColumnError(sales).Some? ==> error == SalesColumnError(sales) && ws.rows == []
    ensures SalesColumnError(sales).None? && InventoryColumnError(sales, inventory).Some? ==>
      error == InventoryColumnError(sales, inventory) && ws.rows == CardRows(CardFigures(sales.rows, deals))
    ensures SalesColumnError(sales).None? && InventoryColumnError(sales, inventory).None? ==>
      error.None? && ws.rows == PerformanceRows(sales.rows, inventory.rows, deals)
      && ws.widths == FitWidths(map[], ws.rows, numText, MaxColumn(ws.rows))
  {
    ws := new Worksheet("Performance");
    error := SalesColumnError(sales);
    if error.Some? {
      return;
    }
    var cards := ComputeCards(sales.rows, deals);
    ws.SetRows(CardRows(cards));
    error := InventoryColumnError(sales, inventory);
    if error.Some? {
      return;
    }
    AppendTable(ws, sales.rows, inventory.rows, deals);
    AutoFitColumns(ws, numText);
  }

  /** An empty row, the headers, and the row of empty cells the header styling creates. */
  method AppendHeaders(ws: Worksheet)
    modifies ws
    ensures ws.title == old(ws.title) && ws.widths == old(ws.widths)
    ensures ws.rows == old(ws.rows) + [[], TextRow(PerformanceHeaders), StyledRow]
  {
    ws.Append([]);
    ws.Append(TextRow(PerformanceHeaders));
    ws.Append(StyledRow);
  }

  /**
    The performance table: an empty row, the headers, the row of empty cells the header
    styling creates, then the ranked brand lines.
   */
  method AppendTable(ws: Worksheet, sales: seq<SalesRow>, inventory: seq<InventoryRow>,
                     deals: map<string, DealsEngine.Deal>)
    modifies ws
    ensures ws.title == old(ws.title) && ws.widths == old(ws.widths)
    ensures ws.rows == old(ws.rows) + [[], TextRow(PerformanceHeaders), StyledRow]
      + RankedLines(RankedTable(sales, inventory, deals))
  {
    var table := BuildTable(sales, inventory, deals);
    var ranked := SortByMoney(table);
    assert ranked == RankedTable(sales, inventory, deals);
    AppendHeaders(ws);
    ghost var head := ws.rows;
    AppendRanked(ws, ranked);
    assert ws.rows == head + RankedLines(ranked);
  }
}
