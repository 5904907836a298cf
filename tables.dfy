/**
  Uploaded tables after column detection, as sequences of row records.
  A cell that pandas would read as NaN (or that is absent) is `None`.
 */
module Tables {
  import opened Wrappers

  /** A DataFrame: its column labels and its rows, in index order. */
  datatype Frame<R> = Frame(columns: seq<string>, rows: seq<R>)

  /** A sales row under the standard names brand, product_name, barcode, quantity, total. */
  datatype SalesRow = SalesRow(
    brand: Option<string>,
    productName: Option<string>,
    barcode: Option<string>,
    quantity: Option<real>,
    total: Option<real>)

  /**
    An inventory row under brand, product_name, barcode, unit_price, available_quantity;
    `salePrice` is a raw `sale_price` column, which one report reads directly.
   */
  datatype InventoryRow = InventoryRow(
    brand: Option<string>,
    productName: Option<string>,
    barcode: Option<string>,
    unitPrice: Option<real>,
    availableQuantity: Option<real>,
    salePrice: Option<real>)

  /** A missing number counts as 0, as in `row.get(col, 0)` and in pandas' NaN-skipping sum. */
  function ValueOr0(x: Option<real>): real {
    if x.Some? then x.value else 0.0
  }

  /** pandas `==` on two cells: NaN equals nothing, not even NaN. */
  predicate SameValue<T(==)>(a: Option<T>, b: Option<T>) {
    a.Some? && b.Some? && a.value == b.value
  }

  function Qty(r: SalesRow): real { ValueOr0(r.quantity) }

  function Money(r: SalesRow): real { ValueOr0(r.total) }

  function Stock(r: InventoryRow): real { ValueOr0(r.availableQuantity) }

  function Price(r: InventoryRow): real { ValueOr0(r.unitPrice) }

  function StockValue(r: InventoryRow): real { Stock(r) * Price(r) }

  /** The sum of `f` over the rows, in row order. */
  function Sum<R>(rows: seq<R>, f: R -> real): real {
    if rows == [] then 0.0 else Sum(rows[..|rows| - 1], f) + f(rows[|rows| - 1])
  }

  lemma {:induction false} SumAppend<R>(a: seq<R>, b: seq<R>, f: R -> real)
    ensures Sum(a + b, f) == Sum(a, f) + Sum(b, f)
  {
    if b == [] {
      assert a + b == a;
    } else {
      assert (a + b)[..|a + b| - 1] == a + b[..|b| - 1];
      SumAppend(a, b[..|b| - 1], f);
    }
  }

  /** A sum over a longer prefix adds the next row. */
  lemma SumPrefixStep<R>(rows: seq<R>, i: nat, f: R -> real)
    requires i < |rows|
    ensures Sum(rows[..i + 1], f) == Sum(rows[..i], f) + f(rows[i])
  {
    assert rows[..i + 1][..i] == rows[..i];
  }

  /** Sums of two summands that agree on every row are equal. */
  lemma {:induction false} SumCongruent<R>(rows: seq<R>, f: R -> real, g: R -> real)
    requires forall r :: r in rows ==> f(r) == g(r)
    ensures Sum(rows, f) == Sum(rows, g)
  {
    if rows != [] {
      SumCongruent(rows[..|rows| - 1], f, g);
    }
  }

  /** `row.get(name, default)`: the cell when the column exists, the default otherwise. */
  function Get<T>(columns: seq<string>, name: string, cell: Option<T>, default: T): (v: Option<T>)
    ensures name in columns ==> v == cell
    ensures name !in columns ==> v == Some(default)
  {
    if name in columns then cell else Some(default)
  }

  /** `f` applied to every row, in order. */
  function Each<R, T>(rows: seq<R>, f: R -> T): (r: seq<T>)
    ensures |r| == |rows|
    ensures forall i :: 0 <= i < |rows| ==> r[i] == f(rows[i])
  {
    seq(|rows|, i requires 0 <= i < |rows| => f(rows[i]))
  }

  /** One more row gives one more result, at the end. */
  lemma EachPrefixStep<R, T>(rows: seq<R>, i: nat, f: R -> T)
    requires i < |rows|
    ensures Each(rows[..i + 1], f) == Each(rows[..i], f) + [f(rows[i])]
  {
    assert Each(rows[..i + 1], f)[..i] == Each(rows[..i], f);
  }

  /** A sum over a row followed by more rows. */
  lemma SumCons<R>(x: R, rows: seq<R>, f: R -> real)
    ensures Sum([x] + rows, f) == f(x) + Sum(rows, f)
  {
    SumAppend([x], rows, f);
    assert [x][..0] == [];
  }

  /** The sum of a pointwise sum is the sum of the sums. */
  lemma {:induction false} SumPointwise<R>(rows: seq<R>, f: R -> real, g: R -> real, h: R -> real)
    requires forall r :: r in rows ==> f(r) == g(r) + h(r)
    ensures Sum(rows, f) == Sum(rows, g) + Sum(rows, h)
  {
    if rows != [] {
      SumPointwise(rows[..|rows| - 1], f, g, h);
    }
  }

  /** Rows that all contribute 0 sum to 0. */
  lemma {:induction false} SumZero<R>(rows: seq<R>, f: R -> real)
    requires forall r :: r in rows ==> f(r) == 0.0
    ensures Sum(rows, f) == 0.0
  {
    if rows != [] {
      SumZero(rows[..|rows| - 1], f);
    }
  }

  /** Summing over the results of `f` is summing `g` after `f` over the rows. */
  lemma {:induction false} SumEach<R, T>(rows: seq<R>, f: R -> T, g: T -> real, h: R -> real)
    requires forall r :: r in rows ==> h(r) == g(f(r))
    ensures Sum(Each(rows, f), g) == Sum(rows, h)
  {
    if rows != [] {
      var init := rows[..|rows| - 1];
      SumEach(init, f, g, h);
      assert Each(rows, f)[..|rows| - 1] == Each(init, f);
    }
  }
}
