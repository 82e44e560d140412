/** The movement timeline of one product (pages/ProductDetail.tsx): its
    purchases, sales and tester adjustments as signed stock movements, newest
    first, each with the stock the product had right after it. */
module Movements {
  import opened Collections
  import opened Sorting
  import opened Types

  /** 'Compra', 'Venta', 'Ajuste por Tester' and 'Ajuste por Consumo'. */
  datatype MovementKind = PurchaseIn | SaleOut | TesterAdjustment | TesterUse

  /** One row of the timeline; `quantity` is the signed effect on sellable stock. */
  datatype Movement = Movement(date: Date, kind: MovementKind, quantity: int, id: string)

  /** A timeline row with the stock right after its movement. */
  datatype StockRow = StockRow(movement: Movement, stockAfter: int)

  function PurchaseQuantity(p: Purchase): int { p.quantity }
  function SaleQuantity(s: Sale): int { s.quantity }

  /** The units a tester adjustment takes out of sellable stock: its quantity for a
      conversion, nothing for a consumption. */
  function ConversionUnits(a: Adjustment): int
  {
    if a.kind == TesterConversion then a.quantity else 0
  }

  function MovementQuantity(m: Movement): int { m.quantity }

  /** Each purchase of the product, as an incoming movement. */
  function PurchaseMovements(pus: seq<Purchase>, productId: string): (r: seq<Movement>)
    ensures Sum(r, MovementQuantity) == Sum(Filter(pus, (p: Purchase) => p.productId == productId), PurchaseQuantity)
    ensures |r| == Count(pus, (p: Purchase) => p.productId == productId)
    ensures forall i :: 0 <= i < |r| ==> r[i].kind == PurchaseIn
    ensures var f := Filter(pus, (p: Purchase) => p.productId == productId);
            |r| == |f| && forall i :: 0 <= i < |r| ==>
              r[i].date == f[i].date && r[i].quantity == f[i].quantity && r[i].id == f[i].id
  {
    var f := Filter(pus, (p: Purchase) => p.productId == productId);
    var r := seq(|f|, i requires 0 <= i < |f| => Movement(f[i].date, PurchaseIn, f[i].quantity, f[i].id));
    SumPointwise(r, f, MovementQuantity, PurchaseQuantity);
    r
  }

  /** Each sale of the product, as an outgoing movement. */
  function SaleMovements(ss: seq<Sale>, productId: string): (r: seq<Movement>)
    ensures Sum(r, MovementQuantity) == -Sum(Filter(ss, (s: Sale) => s.productId == productId), SaleQuantity)
    ensures |r| == Count(ss, (s: Sale) => s.productId == productId)
    ensures forall i :: 0 <= i < |r| ==> r[i].kind == SaleOut
    ensures var f := Filter(ss, (s: Sale) => s.productId == productId);
            |r| == |f| && forall i :: 0 <= i < |r| ==>
              r[i].date == f[i].date && r[i].quantity == -f[i].quantity && r[i].id == f[i].id
  {
    var f := Filter(ss, (s: Sale) => s.productId == productId);
    var r := seq(|f|, i requires 0 <= i < |f| => Movement(f[i].date, SaleOut, -f[i].quantity, f[i].id));
    SumPointwise(r, f, MovementQuantity, (s: Sale) => -s.quantity);
    SumNegate(f, SaleQuantity, (s: Sale) => -s.quantity);
    r
  }

  /** Each tester adjustment of the product: a conversion takes its quantity out of
      sellable stock, a consumption takes nothing. */
  function AdjustmentMovements(adjs: seq<Adjustment>, productId: string): (r: seq<Movement>)
    ensures Sum(r, MovementQuantity) == -Sum(Filter(adjs, (a: Adjustment) => a.productId == productId), ConversionUnits)
    ensures |r| == Count(adjs, (a: Adjustment) => a.productId == productId)
    ensures forall i :: 0 <= i < |r| ==> r[i].kind == TesterAdjustment || (r[i].kind == TesterUse && r[i].quantity == 0)
    ensures var f := Filter(adjs, (a: Adjustment) => a.productId == productId);
            |r| == |f| && forall i :: 0 <= i < |r| ==>
              r[i].date == f[i].date && r[i].id == f[i].id &&
              r[i].quantity == (if f[i].kind == TesterConversion then -f[i].quantity else 0)
  {
    var f := Filter(adjs, (a: Adjustment) => a.productId == productId);
    var r := seq(|f|, i requires 0 <= i < |f| =>
      if f[i].kind == TesterConversion then Movement(f[i].date, TesterAdjustment, -f[i].quantity, f[i].id)
      else Movement(f[i].date, TesterUse, 0, f[i].id));
    SumPointwise(r, f, MovementQuantity, (a: Adjustment) => -ConversionUnits(a));
    SumNegate(f, ConversionUnits, (a: Adjustment) => -ConversionUnits(a));
    r
  }

  /** `movements`: nothing when the product does not exist; otherwise its purchases,
      then its sales, then its adjustments. */
  function ProductMovements(ps: seq<Product>, pus: seq<Purchase>, ss: seq<Sale>, adjs: seq<Adjustment>, productId: string)
    : (r: seq<Movement>)
    ensures FindProduct(ps, productId).None? ==> r == []
    ensures FindProduct(ps, productId).Some? ==>
              r == PurchaseMovements(pus, productId) + SaleMovements(ss, productId) + AdjustmentMovements(adjs, productId)
  {
    if FindProduct(ps, productId).None? then []
    else PurchaseMovements(pus, productId) + SaleMovements(ss, productId) + AdjustmentMovements(adjs, productId)
  }

  /** The movements of an existing product add up to its purchased units minus its
      sold units minus the units converted to testers; each purchase, sale and
      adjustment of the product appears exactly once. */
  lemma MovementsNet(ps: seq<Product>, pus: seq<Purchase>, ss: seq<Sale>, adjs: seq<Adjustment>, productId: string)
    requires FindProduct(ps, productId).Some?
    ensures Sum(ProductMovements(ps, pus, ss, adjs, productId), MovementQuantity) ==
            Sum(Filter(pus, (p: Purchase) => p.productId == productId), PurchaseQuantity)
            - Sum(Filter(ss, (s: Sale) => s.productId == productId), SaleQuantity)
            - Sum(Filter(adjs, (a: Adjustment) => a.productId == productId), ConversionUnits)
    ensures |ProductMovements(ps, pus, ss, adjs, productId)| ==
            Count(pus, (p: Purchase) => p.productId == productId) +
            Count(ss, (s: Sale) => s.productId == productId) +
            Count(adjs, (a: Adjustment) => a.productId == productId)
  {
    var a, b, c := PurchaseMovements(pus, productId), SaleMovements(ss, productId), AdjustmentMovements(adjs, productId);
    SumAppend(a + b, c, MovementQuantity);
    SumAppend(a, b, MovementQuantity);
  }

  function DateKey(m: Movement): SortKey { Num(m.date) }

  /** The movements the rows carry, in row order. */
  function RowMovements(rows: seq<StockRow>): (r: seq<Movement>)
    ensures |r| == |rows| && forall i :: 0 <= i < |rows| ==> r[i] == rows[i].movement
  {
    seq(|rows|, i requires 0 <= i < |rows| => rows[i].movement)
  }

  /** The rows of the `runningStock` walk: row k carries `start` minus the
      movements before it. */
  function RunningRows(start: int, sorted: seq<Movement>): (rows: seq<StockRow>)
    ensures |rows| == |sorted|
  {
    seq(|sorted|, k requires 0 <= k < |sorted| => StockRow(sorted[k], start - Sum(sorted[..k], MovementQuantity)))
  }

  /** The first row carries `start`, each later row the previous stock minus the
      previous movement, and the stock left after the last row is `start` minus all
      the movements. */
  lemma RunningRowsChain(start: int, sorted: seq<Movement>)
    ensures RowMovements(RunningRows(start, sorted)) == sorted
    ensures |sorted| > 0 ==> RunningRows(start, sorted)[0].stockAfter == start
    ensures forall i :: 0 < i < |sorted| ==>
              RunningRows(start, sorted)[i].stockAfter ==
              RunningRows(start, sorted)[i - 1].stockAfter - RunningRows(start, sorted)[i - 1].movement.quantity
    ensures |sorted| > 0 ==>
              RunningRows(start, sorted)[|sorted| - 1].stockAfter - sorted[|sorted| - 1].quantity ==
              start - Sum(sorted, MovementQuantity)
  {
    var rows := RunningRows(start, sorted);
    forall i | 0 < i < |sorted|
      ensures rows[i].stockAfter == rows[i - 1].stockAfter - rows[i - 1].movement.quantity
    {
      PrefixSumStep(sorted, i);
    }
    if |sorted| > 0 {
      PrefixSumStep(sorted, |sorted|);
      assert sorted[..|sorted|] == sorted;
      assert sorted[..0] == [];
    }
  }

  /** A prefix one movement longer adds that movement. */
  lemma PrefixSumStep(sorted: seq<Movement>, i: nat)
    requires 0 < i <= |sorted|
    ensures Sum(sorted[..i], MovementQuantity) == Sum(sorted[..i - 1], MovementQuantity) + sorted[i - 1].quantity
  {
    assert sorted[..i] == sorted[..i - 1] + [sorted[i - 1]];
    SumAppendOne(sorted[..i - 1], sorted[i - 1], MovementQuantity);
  }

  /** The `runningStock` walk as the page performs it: one pass, carrying the
      stock left after each movement. */
  method RunningStock(start: int, sorted: seq<Movement>) returns (rows: seq<StockRow>)
    ensures rows == RunningRows(start, sorted)
  {
    var running := start;
    rows := [];
    var i := 0;
    while i < |sorted|
      invariant 0 <= i <= |sorted|
      invariant rows == RunningRows(start, sorted[..i])
      invariant running == start - Sum(sorted[..i], MovementQuantity)
    {
      assert sorted[..i + 1][..i] == sorted[..i];
      assert forall k :: 0 <= k < i ==> sorted[..i + 1][..k] == sorted[..i][..k];
      rows := rows + [StockRow(sorted[i], running)];
      running := running - sorted[i].quantity;
      i := i + 1;
    }
    assert sorted[..|sorted|] == sorted;
  }

  /** `movementsWithRunningStock`: nothing without a product; otherwise every
      movement once, newest first, the first row carrying the product's current
      stock and each later one the previous stock minus the previous movement; the
      stock implied before the oldest movement is the current stock minus all of
      them. */
  method WithRunningStock(product: Option<Product>, movements: seq<Movement>) returns (rows: seq<StockRow>)
    ensures product.None? ==> rows == []
    ensures product.Some? ==>
              multiset(RowMovements(rows)) == multiset(movements) && Sorted(RowMovements(rows), DateKey, Descending)
    ensures product.Some? ==> RowMovements(rows) == SortBy(movements, DateKey, Descending)
    ensures product.Some? && |rows| > 0 ==> rows[0].stockAfter == product.value.stock
    ensures forall i :: 0 < i < |rows| ==> rows[i].stockAfter == rows[i - 1].stockAfter - rows[i - 1].movement.quantity
    ensures product.Some? && |rows| > 0 ==>
              rows[|rows| - 1].stockAfter - rows[|rows| - 1].movement.quantity ==
              product.value.stock - Sum(movements, MovementQuantity)
  {
    if product.None? {
      return [];
    }
    var sorted := SortBy(movements, DateKey, Descending);
    rows := RunningStock(product.value.stock, sorted);
    RunningRowsChain(product.value.stock, sorted);
    SumPermutation(sorted, movements, MovementQuantity);
  }
}
