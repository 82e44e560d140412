/** The report generator (src/pages/Reports.tsx; pages/Reports.tsx holds the same
    computation): a sales report and a profit report over a date range, and an
    inventory report over the current products. */
module Reports {
  import opened Collections
  import opened Types
  import opened Ledger
  import CashFlow

  /** The sales dated within the range, in their stored order. */
  function SalesInRange(ss: seq<Sale>, start: Date, end: Date): (r: seq<Sale>)
    ensures forall i :: 0 <= i < |r| ==> r[i] in ss && InRange(r[i].date, start, end)
    ensures forall i :: 0 <= i < |ss| && InRange(ss[i].date, start, end) ==> ss[i] in r
  {
    Filter(ss, SaleInRange(start, end))
  }

  /** The tester conversions dated within the range. */
  function ConversionsInRange(adjs: seq<Adjustment>, start: Date, end: Date): (r: seq<Adjustment>)
    ensures forall i :: 0 <= i < |r| ==> r[i] in adjs && InRange(r[i].date, start, end) && r[i].kind == TesterConversion
    ensures forall i :: 0 <= i < |adjs| && InRange(adjs[i].date, start, end) && adjs[i].kind == TesterConversion ==>
              adjs[i] in r
  {
    Filter(adjs, ConversionInRange(start, end))
  }

  function SaleQuantity(s: Sale): int { s.quantity }

  datatype SalesReport = SalesReport(data: seq<Sale>, totalRevenue: int, totalItemsSold: int)

  /** The sales report: the in-range sales with the sum of their totals and of
      their quantities. */
  function SalesSummary(ss: seq<Sale>, start: Date, end: Date): (r: SalesReport)
    ensures r.data == SalesInRange(ss, start, end)
    ensures r.totalRevenue == Sum(r.data, SaleTotal) && r.totalItemsSold == Sum(r.data, SaleQuantity)
  {
    var data := SalesInRange(ss, start, end);
    SalesReport(data, Sum(data, SaleTotal), Sum(data, SaleQuantity))
  }

  function LineValue(s: Sale): int { s.unitPrice * s.quantity }

  /** Since the ledger keeps every total equal to price times quantity, the revenue
      of the report is the in-range sum of price times quantity, and it counts each
      in-range sale once. */
  lemma SalesRevenueIsPriceTimesQuantity(ss: seq<Sale>, start: Date, end: Date)
    requires TotalsConsistent(ss)
    ensures SalesSummary(ss, start, end).totalRevenue == Sum(ss, (s: Sale) => if InRange(s.date, start, end) then LineValue(s) else 0)
  {
    var inRange := SaleInRange(start, end);
    var data := SalesInRange(ss, start, end);
    forall i | 0 <= i < |data|
      ensures SaleTotal(data[i]) == LineValue(data[i])
    {
      var j :| 0 <= j < |ss| && ss[j] == data[i];
    }
    SumCongruent(data, SaleTotal, LineValue);
    SumFilter(ss, inRange, LineValue, (s: Sale) => if InRange(s.date, start, end) then LineValue(s) else 0);
  }

  function StockValue(p: Product): int { p.stock * p.costPrice }
  function Units(p: Product): int { p.stock }
  function Testers(p: Product): int { p.testerStock }

  datatype InventoryReport = InventoryReport(data: seq<Product>, stockValue: int, totalUnits: int, totalTesters: int)

  /** The inventory report ignores the dates: every product, with the value of its
      stock at cost, the sellable units and the testers. */
  function InventorySummary(ps: seq<Product>): (r: InventoryReport)
    ensures r.data == ps
    ensures r.stockValue == Sum(ps, StockValue) && r.totalUnits == Sum(ps, Units) && r.totalTesters == Sum(ps, Testers)
  {
    InventoryReport(ps, Sum(ps, StockValue), Sum(ps, Units), Sum(ps, Testers))
  }

  /** Converting a unit to a tester leaves sellable units plus testers unchanged
      in the inventory report. */
  lemma ConversionKeepsInventoryUnits(ps: seq<Product>, id: string)
    ensures InventorySummary(MoveStock(ps, id, -1, 1)).totalUnits + InventorySummary(MoveStock(ps, id, -1, 1)).totalTesters ==
            InventorySummary(ps).totalUnits + InventorySummary(ps).totalTesters
  {
    var moved := MoveStock(ps, id, -1, 1);
    var both := (p: Product) => p.stock + p.testerStock;
    SumAdd(ps, Units, Testers, both);
    SumAdd(moved, Units, Testers, both);
    ConversionConservesUnits(ps, id);
    SumPointwise(moved, ps, both, both);
  }

  /** A stock with no negative counts and no negative cost is worth at least 0. */
  lemma {:induction false} StockValueNonNegative(ps: seq<Product>)
    requires StocksNonNegative(ps)
    requires forall i :: 0 <= i < |ps| ==> ps[i].costPrice >= 0
    ensures InventorySummary(ps).stockValue >= 0 && InventorySummary(ps).totalUnits >= 0
  {
    if ps != [] {
      var init := ps[..|ps| - 1];
      assert forall i :: 0 <= i < |init| ==> init[i] == ps[i];
      StockValueNonNegative(init);
    }
  }

  /** The cost of goods of a sale: the product's current cost price times the
      quantity, or 0 when the product no longer exists. */
  function CostOfSale(ps: seq<Product>, s: Sale): int
  {
    match FindProduct(ps, s.productId)
    case Some(p) => p.costPrice * s.quantity
    case None => 0
  }

  /** The cost of goods of each sale, as a function to sum over. */
  function SaleCost(ps: seq<Product>): Sale -> int
  {
    s => CostOfSale(ps, s)
  }

  datatype ProfitRow = ProfitRow(sale: Sale, productName: string, cost: int, profit: int)

  /** One row of the profit table: `product?.name || 'N/A'`, the cost, and the
      total less the cost. */
  function ProfitRowFor(ps: seq<Product>, s: Sale): (row: ProfitRow)
    ensures row.sale == s && row.profit == s.total - row.cost && row.cost == CostOfSale(ps, s)
  {
    ProfitRow(s, ProductNameOrIfBlank(ps, s.productId, "N/A"), CostOfSale(ps, s), s.total - CostOfSale(ps, s))
  }

  function ProfitRows(ps: seq<Product>, sales: seq<Sale>): (rows: seq<ProfitRow>)
    ensures |rows| == |sales|
  {
    seq(|sales|, i requires 0 <= i < |sales| => ProfitRowFor(ps, sales[i]))
  }

  datatype ProfitReport = ProfitReport(
    data: seq<ProfitRow>, totalRevenue: int, totalCostOfGoods: int, totalTesterCost: int,
    netProfit: int, profitMargin: real)

  /** `(netProfit / totalRevenue) * 100` when there is revenue, else 0. */
  function Margin(netProfit: int, totalRevenue: int): (m: real)
    ensures totalRevenue <= 0 ==> m == 0.0
    ensures totalRevenue > 0 ==> (m >= 0.0 <==> netProfit >= 0) && (m == 100.0 <==> netProfit == totalRevenue)
  {
    if totalRevenue > 0 then
      var q := netProfit as real / totalRevenue as real;
      QuotientSign(netProfit as real, totalRevenue as real);
      q * 100.0
    else 0.0
  }

  /** Dividing by a positive amount keeps the sign, and gives 1 exactly when the
      two amounts are equal. */
  lemma QuotientSign(a: real, b: real)
    requires b > 0.0
    ensures (a / b >= 0.0 <==> a >= 0.0) && (a / b == 1.0 <==> a == b)
  {
    var q := a / b;
    assert q * b == a;
    if q < 0.0 {
      assert q * b < 0.0;
    }
    if a < 0.0 {
      assert q < 0.0;
    }
  }

  /** The profit report: one row per in-range sale; revenue and cost of goods summed
      in the same pass; the in-range conversion costs; the net profit after both;
      and the margin. */
  method ProfitSummary(ps: seq<Product>, ss: seq<Sale>, adjs: seq<Adjustment>, start: Date, end: Date)
    returns (report: ProfitReport)
    ensures report.data == ProfitRows(ps, SalesInRange(ss, start, end))
    ensures report.totalRevenue == Sum(SalesInRange(ss, start, end), SaleTotal)
    ensures report.totalRevenue == SalesSummary(ss, start, end).totalRevenue == CashFlow.TotalIncome(ps, ss, start, end)
    ensures report.totalCostOfGoods == Sum(SalesInRange(ss, start, end), SaleCost(ps))
    ensures report.totalTesterCost == Sum(ConversionsInRange(adjs, start, end), AdjustmentCost)
    ensures report.netProfit == report.totalRevenue - report.totalCostOfGoods - report.totalTesterCost
    ensures report.profitMargin == Margin(report.netProfit, report.totalRevenue)
  {
    var filtered := SalesInRange(ss, start, end);
    var conversions := ConversionsInRange(adjs, start, end);
    var totalRevenue, totalCostOfGoods := 0, 0;
    var data: seq<ProfitRow> := [];
    var i := 0;
    while i < |filtered|
      invariant 0 <= i <= |filtered|
      invariant data == ProfitRows(ps, filtered[..i])
      invariant totalRevenue == Sum(filtered[..i], SaleTotal)
      invariant totalCostOfGoods == Sum(filtered[..i], SaleCost(ps))
    {
      var row := ProfitRowFor(ps, filtered[i]);
      ProfitStep(ps, filtered, i);
      totalRevenue := totalRevenue + filtered[i].total;
      totalCostOfGoods := totalCostOfGoods + row.cost;
      data := data + [row];
      i := i + 1;
    }
    assert filtered[..|filtered|] == filtered;
    var totalTesterCost := Sum(conversions, AdjustmentCost);
    var netProfit := (totalRevenue - totalCostOfGoods) - totalTesterCost;
    report := ProfitReport(data, totalRevenue, totalCostOfGoods, totalTesterCost, netProfit, Margin(netProfit, totalRevenue));
  }

  /** One more sale extends the rows by its row and the sums by its total and cost. */
  lemma ProfitStep(ps: seq<Product>, sales: seq<Sale>, i: nat)
    requires i < |sales|
    ensures ProfitRows(ps, sales[..i + 1]) == ProfitRows(ps, sales[..i]) + [ProfitRowFor(ps, sales[i])]
    ensures Sum(sales[..i + 1], SaleTotal) == Sum(sales[..i], SaleTotal) + sales[i].total
    ensures Sum(sales[..i + 1], SaleCost(ps)) == Sum(sales[..i], SaleCost(ps)) + CostOfSale(ps, sales[i])
  {
    assert sales[..i + 1] == sales[..i] + [sales[i]];
    SumAppendOne(sales[..i], sales[i], SaleTotal);
    SumAppendOne(sales[..i], sales[i], SaleCost(ps));
  }
}
