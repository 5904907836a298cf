/**
  Refund cancellation (core/refund_engine.py): every row with a negative quantity is removed,
  and each refund takes with it the first not-yet-removed row of the same barcode and brand
  whose quantity equals the refund's magnitude. Row positions stand in for the pandas index.
 */
module RefundEngine {
  import opened Wrappers
  import opened Tables

  /** The KeyError raised when a refund has to be matched and the table has no brand column. */
  datatype RefundError = MissingColumn(column: string)

  /** The triple `clean_refunds` returns: cleaned table, refund_count, removed_total_count. */
  datatype Cleaned = Cleaned(table: Frame<SalesRow>, refundCount: nat, removedTotalCount: nat)

  predicate IsRefund(r: SalesRow) {
    r.quantity.Some? && r.quantity.value < 0.0
  }

  function Abs(x: real): real {
    if x < 0.0 then -x else x
  }

  /** `orig` is a candidate original sale for `refund`: same barcode, same brand, quantity == |refund|. */
  predicate Cancels(orig: SalesRow, refund: SalesRow) {
    && SameValue(orig.barcode, refund.barcode)
    && orig.quantity.Some? && refund.quantity.Some?
    && orig.quantity.value == Abs(refund.quantity.value)
    && SameValue(orig.brand, refund.brand)
  }

  /** The positions among the first `n` rows that hold a refund, ascending. */
  function RefundIndices(rows: seq<SalesRow>, n: nat): (ks: seq<nat>)
    requires n <= |rows|
    ensures forall k :: 0 <= k < |ks| ==> ks[k] < n && IsRefund(rows[ks[k]])
    ensures forall a, b :: 0 <= a < b < |ks| ==> ks[a] < ks[b]
  {
    if n == 0 then []
    else RefundIndices(rows, n - 1) + (if IsRefund(rows[n - 1]) then [n - 1] else [])
  }

  /** The first position at or after `from`, not yet removed, whose row cancels `refund`. */
  function FirstEligible(rows: seq<SalesRow>, refund: SalesRow, removed: set<nat>, from: nat): (c: Option<nat>)
    decreases |rows| - from
    ensures c.Some? ==> from <= c.value < |rows| && c.value !in removed && Cancels(rows[c.value], refund)
    ensures c.Some? ==> forall j :: from <= j < c.value ==> j in removed || !Cancels(rows[j], refund)
    ensures c.None? ==> forall j :: from <= j < |rows| ==> j in removed || !Cancels(rows[j], refund)
  {
    if from >= |rows| then None
    else if from !in removed && Cancels(rows[from], refund) then Some(from)
    else FirstEligible(rows, refund, removed, from + 1)
  }

  predicate InRange(rows: seq<SalesRow>, refs: seq<nat>) {
    forall k :: 0 <= k < |refs| ==> refs[k] < |rows|
  }

  /** The removal set after the refunds `refs` have each claimed their first eligible original. */
  function Sweep(rows: seq<SalesRow>, refs: seq<nat>, removed: set<nat>): set<nat>
    requires InRange(rows, refs)
    decreases |refs|
  {
    if refs == [] then removed
    else
      var c := FirstEligible(rows, rows[refs[0]], removed, 0);
      Sweep(rows, refs[1..], if c.Some? then removed + {c.value} else removed)
  }

  /** The positions below `n` that are not removed, ascending. */
  function KeptIndices(n: nat, removed: set<nat>): (ks: seq<nat>)
    ensures |ks| <= n
    ensures forall k :: 0 <= k < |ks| ==> ks[k] < n && ks[k] !in removed
    ensures forall a, b :: 0 <= a < b < |ks| ==> ks[a] < ks[b]
  {
    if n == 0 then []
    else KeptIndices(n - 1, removed) + (if n - 1 in removed then [] else [n - 1])
  }

  /** `sales_df[~sales_df.index.isin(removed)]`: the surviving rows, in table order. */
  function Keep(rows: seq<SalesRow>, removed: set<nat>): seq<SalesRow> {
    var ks := KeptIndices(|rows|, removed);
    seq(|ks|, k requires 0 <= k < |ks| => rows[ks[k]])
  }

  /** `indices_to_remove` after the sweep: every refund and the original each one cancelled. */
  function RemovedPositions(rows: seq<SalesRow>): set<nat> {
    var refs := RefundIndices(rows, |rows|);
    Sweep(rows, refs, Elems(refs))
  }

  /** The rows `clean_refunds` keeps when both key columns exist. */
  function CleanedRows(rows: seq<SalesRow>): seq<SalesRow> {
    Keep(rows, RemovedPositions(rows))
  }

  method CleanRefunds(sales: Frame<SalesRow>) returns (r: Result<Cleaned, RefundError>)
    ensures !("quantity" in sales.columns && "barcode" in sales.columns) ==> r == Success(Cleaned(sales, 0, 0))
    ensures "quantity" in sales.columns && "barcode" in sales.columns ==>
      var refs := RefundIndices(sales.rows, |sales.rows|);
      if refs == [] then r == Success(Cleaned(sales, 0, 0))
      else if "brand" !in sales.columns then r == Failure(MissingColumn("brand"))
      else
        var kept := CleanedRows(sales.rows);
        r == Success(Cleaned(Frame(sales.columns, kept), |refs|, |sales.rows| - |kept|))
    ensures r.Success? && "quantity" in sales.columns && "barcode" in sales.columns ==>
      && (forall row :: row in r.value.table.rows ==> !IsRefund(row))
      && r.value.refundCount <= r.value.removedTotalCount <= 2 * r.value.refundCount
  {
    if !("quantity" in sales.columns && "barcode" in sales.columns) {
      return Success(Cleaned(sales, 0, 0));
    }
    var rows := sales.rows;
    var refunds := RefundIndices(rows, |rows|);
    if |refunds| == 0 {
      NoRefundIndicesNoRefunds(rows);
      return Success(Cleaned(sales, 0, 0));
    }
    if "brand" !in sales.columns {
      return Failure(MissingColumn("brand"));
    }
    var indicesToRemove := Elems(refunds);
    var i := 0;
    while i < |refunds|
      invariant 0 <= i <= |refunds|
      invariant Sweep(rows, refunds[i..], indicesToRemove) == Sweep(rows, refunds, Elems(refunds))
    {
      var m := FirstEligible(rows, rows[refunds[i]], indicesToRemove, 0);
      if m.Some? {
        indicesToRemove := indicesToRemove + {m.value};
      }
      assert refunds[i..][1..] == refunds[i + 1..];
      i := i + 1;
    }
    var cleaned := Keep(rows, indicesToRemove);
    CleanedHasNoRefunds(rows);
    RemovedCountBounds(rows);
    r := Success(Cleaned(Frame(sales.columns, cleaned), |refunds|, |rows| - |cleaned|));
  }

  /** The sweep only adds positions, each of them a row that cancels one of the refunds. */
  lemma {:induction false} SweepShape(rows: seq<SalesRow>, refs: seq<nat>, removed: set<nat>)
    requires InRange(rows, refs)
    ensures removed <= Sweep(rows, refs, removed)
    ensures |Sweep(rows, refs, removed)| <= |removed| + |refs|
    ensures forall j :: j in Sweep(rows, refs, removed) && j !in removed ==>
      j < |rows| && exists k :: 0 <= k < |refs| && Cancels(rows[j], rows[refs[k]])
  {
    if refs != [] {
      var c := FirstEligible(rows, rows[refs[0]], removed, 0);
      var next := if c.Some? then removed + {c.value} else removed;
      SweepShape(rows, refs[1..], next);
      forall j | j in Sweep(rows, refs, removed) && j !in removed
        ensures j < |rows| && exists k :: 0 <= k < |refs| && Cancels(rows[j], rows[refs[k]])
      {
        if j in next {
          assert Cancels(rows[j], rows[refs[0]]);
        } else {
          var k' :| 0 <= k' < |refs[1..]| && Cancels(rows[j], rows[refs[1..][k']]);
          assert Cancels(rows[j], rows[refs[k' + 1]]);
        }
      }
    }
  }

  /** The positions below `n`. */
  function Below(n: nat): (s: set<nat>)
    ensures forall i: nat :: i in s <==> i < n
  {
    if n == 0 then {} else Below(n - 1) + {n - 1}
  }

  lemma {:induction false} KeptCount(n: nat, removed: set<nat>)
    ensures |KeptIndices(n, removed)| + |removed * Below(n)| == n
  {
    if n > 0 {
      KeptCount(n - 1, removed);
      var before := removed * Below(n - 1);
      assert n - 1 !in before;
      if n - 1 in removed {
        assert removed * Below(n) == before + {n - 1};
        assert |KeptIndices(n, removed)| == |KeptIndices(n - 1, removed)|;
      } else {
        assert removed * Below(n) == before;
        assert |KeptIndices(n, removed)| == |KeptIndices(n - 1, removed)| + 1;
      }
    }
  }

  /** Removing a set of positions that all exist shortens the table by exactly its size. */
  lemma KeepSize(rows: seq<SalesRow>, removed: set<nat>)
    requires forall j :: j in removed ==> j < |rows|
    ensures |Keep(rows, removed)| == |rows| - |removed|
  {
    KeptCount(|rows|, removed);
    assert removed * Below(|rows|) == removed;
  }

  /** The positions a sequence lists, as a set: `set(refunds.index.tolist())`. */
  function Elems(s: seq<nat>): set<nat> {
    set k | k in s
  }

  lemma {:induction false} AscendingCard(s: seq<nat>)
    requires forall a, b :: 0 <= a < b < |s| ==> s[a] < s[b]
    ensures |Elems(s)| == |s|
  {
    if s != [] {
      var init := s[..|s| - 1];
      var last := s[|s| - 1];
      AscendingCard(init);
      assert s == init + [last];
      assert Elems(s) == Elems(init) + {last};
      assert last !in Elems(init) by {
        forall x | x in init ensures x < last {
          var a :| 0 <= a < |init| && init[a] == x;
        }
      }
      assert |Elems(init) + {last}| == |Elems(init)| + 1;
    }
  }

  lemma SubsetCard(a: set<nat>, b: set<nat>)
    requires a <= b
    ensures |a| <= |b|
  {
    assert b == a + (b - a);
  }

  /** Every refund position is listed. */
  lemma {:induction false} RefundIndicesComplete(rows: seq<SalesRow>, n: nat, i: nat)
    requires i < n <= |rows| && IsRefund(rows[i])
    ensures i in RefundIndices(rows, n)
  {
    if i < n - 1 {
      RefundIndicesComplete(rows, n - 1, i);
    }
  }

  /** Every position that is not removed is kept. */
  lemma {:induction false} KeptIndicesComplete(n: nat, removed: set<nat>, i: nat)
    requires i < n && i !in removed
    ensures i in KeptIndices(n, removed)
  {
    if i < n - 1 {
      KeptIndicesComplete(n - 1, removed, i);
    }
  }

  lemma KeepContains(rows: seq<SalesRow>, removed: set<nat>, j: nat)
    requires j < |rows| && j !in removed
    ensures rows[j] in Keep(rows, removed)
  {
    var ks := KeptIndices(|rows|, removed);
    KeptIndicesComplete(|rows|, removed, j);
    var k :| 0 <= k < |ks| && ks[k] == j;
    assert Keep(rows, removed)[k] == rows[j];
  }

  /** No row with a negative quantity survives: every refund position is in the removal set. */
  lemma CleanedHasNoRefunds(rows: seq<SalesRow>)
    ensures forall row :: row in CleanedRows(rows) ==> !IsRefund(row)
  {
    var refs := RefundIndices(rows, |rows|);
    var seed := Elems(refs);
    SweepShape(rows, refs, seed);
    var removed := Sweep(rows, refs, seed);
    var ks := KeptIndices(|rows|, removed);
    forall row | row in CleanedRows(rows) ensures !IsRefund(row) {
      var k :| 0 <= k < |ks| && Keep(rows, removed)[k] == row;
      assert ks[k] !in seed;
      if IsRefund(row) {
        RefundIndicesComplete(rows, |rows|, ks[k]);
        assert false;
      }
    }
  }

  /** refund_count <= removed_total_count <= 2 * refund_count. */
  lemma RemovedCountBounds(rows: seq<SalesRow>)
    ensures var refs := RefundIndices(rows, |rows|);
      |refs| <= |rows| - |CleanedRows(rows)| <= 2 * |refs|
  {
    var refs := RefundIndices(rows, |rows|);
    var seed := Elems(refs);
    AscendingCard(refs);
    SweepShape(rows, refs, seed);
    var removed := Sweep(rows, refs, seed);
    SubsetCard(seed, removed);
    assert forall j :: j in removed ==> j < |rows|;
    KeepSize(rows, removed);
  }

  /** Without refund positions there is no refund row. */
  lemma NoRefundIndicesNoRefunds(rows: seq<SalesRow>)
    requires RefundIndices(rows, |rows|) == []
    ensures forall row :: row in rows ==> !IsRefund(row)
  {
    forall row | row in rows ensures !IsRefund(row) {
      var i :| 0 <= i < |rows| && rows[i] == row;
      if IsRefund(row) {
        RefundIndicesComplete(rows, |rows|, i);
        assert false;
      }
    }
  }

  /**
    Every position the sweep removes is a row of the table, and it is either a refund or
    an original that cancels some refund of the table.
   */
  lemma RemovedOriginalsMatch(rows: seq<SalesRow>, j: nat)
    requires j in RemovedPositions(rows)
    ensures j < |rows|
    ensures !IsRefund(rows[j]) ==> exists k :: 0 <= k < |rows| && IsRefund(rows[k]) && Cancels(rows[j], rows[k])
  {
    var refs := RefundIndices(rows, |rows|);
    var seed := Elems(refs);
    SweepShape(rows, refs, seed);
    if j !in seed {
      var k :| 0 <= k < |refs| && Cancels(rows[j], rows[refs[k]]);
      assert IsRefund(rows[refs[k]]);
    }
  }

}
