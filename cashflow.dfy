/** The cash-flow view (src/pages/CashFlow.tsx; pages/CashFlow.tsx holds the same
    computation): money in from sales and money out for purchases and tester
    conversions within a date range, in date order with a running balance, a
    balance per day for the chart, and the totals. */
module CashFlow {
  import opened Collections
  import opened Sorting
  import opened Types

  datatype Flow = Income | Expense

  datatype Transaction = Transaction(date: Date, flow: Flow, description: string, amount: int)

  /** A transaction with the balance after it. */
  datatype BalanceRow = BalanceRow(transaction: Transaction, balance: int)

  /** One chart point: a day and the balance at the end of it. */
  datatype ChartPoint = ChartPoint(date: Date, balance: int)

  function Amount(t: Transaction): int { t.amount }

  /** What a transaction does to the balance. */
  function Signed(t: Transaction): int
  {
    if t.flow == Income then t.amount else -t.amount
  }

  /** The income rows: one per in-range sale, for its total. */
  function IncomeTransactions(ps: seq<Product>, ss: seq<Sale>, start: Date, end: Date): (r: seq<Transaction>)
    ensures |r| == Count(ss, SaleInRange(start, end))
    ensures forall i :: 0 <= i < |r| ==> r[i].flow == Income && InRange(r[i].date, start, end)
    ensures Sum(r, Amount) == Sum(Filter(ss, SaleInRange(start, end)), SaleTotal)
    ensures var f := Filter(ss, SaleInRange(start, end));
            |r| == |f| && forall i :: 0 <= i < |r| ==> r[i].date == f[i].date && r[i].amount == f[i].total
  {
    var f := Filter(ss, SaleInRange(start, end));
    var r := seq(|f|, i requires 0 <= i < |f| =>
      Transaction(f[i].date, Income, "Venta - " + ProductNameOrIfBlank(ps, f[i].productId, f[i].productId), f[i].total));
    SumPointwise(r, f, Amount, SaleTotal);
    r
  }

  /** The purchase expense rows: one per in-range purchase, for unit cost times quantity. */
  function PurchaseExpenses(ps: seq<Product>, pus: seq<Purchase>, start: Date, end: Date): (r: seq<Transaction>)
    ensures |r| == Count(pus, PurchaseInRange(start, end))
    ensures forall i :: 0 <= i < |r| ==> r[i].flow == Expense && InRange(r[i].date, start, end)
    ensures Sum(r, Amount) == Sum(Filter(pus, PurchaseInRange(start, end)), PurchaseCost)
    ensures var f := Filter(pus, PurchaseInRange(start, end));
            |r| == |f| && forall i :: 0 <= i < |r| ==> r[i].date == f[i].date && r[i].amount == f[i].unitCost * f[i].quantity
  {
    var f := Filter(pus, PurchaseInRange(start, end));
    var r := seq(|f|, i requires 0 <= i < |f| =>
      Transaction(f[i].date, Expense, "Compra - " + ProductNameOrIfBlank(ps, f[i].productId, f[i].productId),
                  f[i].unitCost * f[i].quantity));
    SumPointwise(r, f, Amount, PurchaseCost);
    r
  }

  /** The tester expense rows: one per in-range conversion, for its cost; consumed
      testers cost nothing and do not appear. */
  function TesterExpenses(ps: seq<Product>, adjs: seq<Adjustment>, start: Date, end: Date): (r: seq<Transaction>)
    ensures |r| == Count(adjs, ConversionInRange(start, end))
    ensures forall i :: 0 <= i < |r| ==> r[i].flow == Expense && InRange(r[i].date, start, end)
    ensures Sum(r, Amount) ==
            Sum(Filter(adjs, ConversionInRange(start, end)), AdjustmentCost)
    ensures var f := Filter(adjs, ConversionInRange(start, end));
            |r| == |f| && forall i :: 0 <= i < |r| ==> r[i].date == f[i].date && r[i].amount == f[i].cost
  {
    var f := Filter(adjs, ConversionInRange(start, end));
    var r := seq(|f|, i requires 0 <= i < |f| =>
      Transaction(f[i].date, Expense, "Inversión Tester - " + ProductNameOrIfBlank(ps, f[i].productId, f[i].productId),
                  f[i].cost));
    SumPointwise(r, f, Amount, AdjustmentCost);
    r
  }

  function TransactionDate(t: Transaction): SortKey { Num(t.date) }

  /** `allTransactions`: the three lists merged and put in ascending date order. */
  function AllTransactions(ps: seq<Product>, ss: seq<Sale>, pus: seq<Purchase>, adjs: seq<Adjustment>, start: Date, end: Date)
    : (r: seq<Transaction>)
    ensures multiset(r) == multiset(IncomeTransactions(ps, ss, start, end) + PurchaseExpenses(ps, pus, start, end) +
                                    TesterExpenses(ps, adjs, start, end))
    ensures Sorted(r, TransactionDate, Ascending)
  {
    SortBy(IncomeTransactions(ps, ss, start, end) + PurchaseExpenses(ps, pus, start, end) + TesterExpenses(ps, adjs, start, end),
           TransactionDate, Ascending)
  }

  /** Row k carries the balance after the first k + 1 transactions. */
  function BalanceRows(ts: seq<Transaction>): (rows: seq<BalanceRow>)
    ensures |rows| == |ts|
  {
    seq(|ts|, k requires 0 <= k < |ts| => BalanceRow(ts[k], Sum(ts[..k + 1], Signed)))
  }

  /** The balance starts from 0: the first row's balance is its own signed amount,
      each later one is the previous balance plus its signed amount, and the last is
      the signed sum of everything. */
  lemma BalanceChain(ts: seq<Transaction>)
    ensures forall k :: 0 <= k < |ts| ==> BalanceRows(ts)[k].transaction == ts[k]
    ensures |ts| > 0 ==> BalanceRows(ts)[0].balance == Signed(ts[0])
    ensures forall k :: 0 < k < |ts| ==> BalanceRows(ts)[k].balance == BalanceRows(ts)[k - 1].balance + Signed(ts[k])
    ensures |ts| > 0 ==> BalanceRows(ts)[|ts| - 1].balance == Sum(ts, Signed)
  {
    forall k | 0 <= k < |ts|
      ensures Sum(ts[..k + 1], Signed) == Sum(ts[..k], Signed) + Signed(ts[k])
    {
      assert ts[..k + 1][..k] == ts[..k];
    }
    assert ts[..|ts|] == ts;
    assert ts[..0] == [];
  }

  /** `transactionsWithBalance`: the `runningBalance` pass. */
  method WithBalance(ts: seq<Transaction>) returns (rows: seq<BalanceRow>)
    ensures rows == BalanceRows(ts)
  {
    var running := 0;
    rows := [];
    var i := 0;
    while i < |ts|
      invariant 0 <= i <= |ts|
      invariant rows == BalanceRows(ts[..i])
      invariant running == Sum(ts[..i], Signed)
    {
      assert ts[..i + 1][..i] == ts[..i];
      forall k | 0 <= k < i ensures BalanceRows(ts[..i + 1])[k] == BalanceRows(ts[..i])[k] {
        assert ts[..i + 1][..k + 1] == ts[..k + 1] == ts[..i][..k + 1];
      }
      running := running + Signed(ts[i]);
      assert ts[..i + 1][..i + 1] == ts[..i + 1];
      rows := rows + [BalanceRow(ts[i], running)];
      assert rows == BalanceRows(ts[..i + 1]);
      i := i + 1;
    }
    assert ts[..|ts|] == ts;
  }

  /** The balance of the last row dated `d`, if any row is. */
  function LastBalanceOn(rows: seq<BalanceRow>, d: Date): Option<int>
  {
    if rows == [] then None
    else if rows[|rows| - 1].transaction.date == d then Some(rows[|rows| - 1].balance)
    else LastBalanceOn(rows[..|rows| - 1], d)
  }

  lemma {:induction false} LastBalanceOnSome(rows: seq<BalanceRow>, d: Date)
    ensures LastBalanceOn(rows, d).Some? <==> exists i :: 0 <= i < |rows| && rows[i].transaction.date == d
  {
    if rows != [] {
      var init := rows[..|rows| - 1];
      LastBalanceOnSome(init, d);
      assert forall i :: 0 <= i < |init| ==> init[i] == rows[i];
    }
  }

  /** The chart has a point for day `d`. */
  predicate HasPoint(points: seq<ChartPoint>, d: Date)
  {
    exists j :: 0 <= j < |points| && points[j].date == d
  }

  /** The chart of `rows`: one point per day that has a transaction, and no other
      point, each carrying the balance of that day's last transaction. */
  ghost predicate ChartOf(points: seq<ChartPoint>, rows: seq<BalanceRow>)
  {
    DistinctDays(points) && EveryDayCharted(points, rows) && PointsCarryLast(points, rows)
  }

  ghost predicate DistinctDays(points: seq<ChartPoint>)
  {
    forall i, j :: 0 <= i < j < |points| ==> points[i].date != points[j].date
  }

  ghost predicate EveryDayCharted(points: seq<ChartPoint>, rows: seq<BalanceRow>)
  {
    forall i :: 0 <= i < |rows| ==> HasPoint(points, rows[i].transaction.date)
  }

  ghost predicate PointsCarryLast(points: seq<ChartPoint>, rows: seq<BalanceRow>)
  {
    forall j :: 0 <= j < |points| ==> Some(points[j].balance) == LastBalanceOn(rows, points[j].date)
  }

  /** The rows are in date order, as `AllTransactions` puts them. */
  ghost predicate RowsByDate(rows: seq<BalanceRow>)
  {
    forall i, j :: 0 <= i < j < |rows| ==> rows[i].transaction.date <= rows[j].transaction.date
  }

  /** The chart's days strictly increase. */
  ghost predicate Chronological(points: seq<ChartPoint>)
  {
    forall i, j :: 0 <= i < j < |points| ==> points[i].date < points[j].date
  }

  /** Where the next row's point goes: the slot of its day, or a new one at the end. */
  function PlaceRow(points: seq<ChartPoint>, j: nat, row: BalanceRow): seq<ChartPoint>
    requires j <= |points|
  {
    if j < |points| then points[j := ChartPoint(row.transaction.date, row.balance)]
    else points + [ChartPoint(row.transaction.date, row.balance)]
  }

  /** Placing row i at the slot of its day, or at the end when no point has its
      day, keeps the chart the chart of the rows seen so far. */
  lemma ChartStep(points: seq<ChartPoint>, rows: seq<BalanceRow>, i: nat, j: nat)
    requires i < |rows| && ChartOf(points, rows[..i])
    requires j <= |points| && forall a :: 0 <= a < j ==> points[a].date != rows[i].transaction.date
    requires j < |points| ==> points[j].date == rows[i].transaction.date
    ensures ChartOf(PlaceRow(points, j, rows[i]), rows[..i + 1])
  {
    var next := PlaceRow(points, j, rows[i]);
    var d := rows[i].transaction.date;
    assert rows[..i + 1][..i] == rows[..i];
    assert forall a :: 0 <= a < |points| ==> next[a].date == points[a].date;
    assert next[j].date == d;
    assert DistinctDays(next) by {
      if j == |points| {
        assert forall a :: 0 <= a < |points| ==> points[a].date != d;
      }
    }
    forall k | 0 <= k <= i
      ensures HasPoint(next, rows[k].transaction.date)
    {
      if k < i {
        assert rows[..i][k] == rows[k];
        assert HasPoint(points, rows[k].transaction.date);
        var a :| 0 <= a < |points| && points[a].date == rows[k].transaction.date;
        assert next[a].date == rows[k].transaction.date;
      }
    }
    assert EveryDayCharted(next, rows[..i + 1]);
  }

  /** Over date-ordered rows, a new day can only be later than every charted day,
      so placing a row keeps the chart chronological. */
  lemma ChartStepOrdered(points: seq<ChartPoint>, rows: seq<BalanceRow>, i: nat, j: nat)
    requires i < |rows| && ChartOf(points, rows[..i]) && RowsByDate(rows) && Chronological(points)
    requires j <= |points| && forall a :: 0 <= a < j ==> points[a].date != rows[i].transaction.date
    requires j < |points| ==> points[j].date == rows[i].transaction.date
    ensures Chronological(PlaceRow(points, j, rows[i]))
  {
    var d := rows[i].transaction.date;
    var next := PlaceRow(points, j, rows[i]);
    assert forall a :: 0 <= a < |points| ==> next[a].date == points[a].date;
    if j == |points| {
      forall a | 0 <= a < |points| ensures points[a].date < d {
        LastBalanceOnSome(rows[..i], points[a].date);
        var k :| 0 <= k < |rows[..i]| && rows[..i][k].transaction.date == points[a].date;
        assert rows[k].transaction.date <= d;
      }
      assert next[|points|].date == d;
    }
  }

  /** `chartData`: the entries of `chartDataMap` in insertion order — one point per
      day that has a transaction, carrying the balance of that day's last
      transaction; over rows in date order the days strictly increase. */
  method ChartData(rows: seq<BalanceRow>) returns (points: seq<ChartPoint>)
    ensures ChartOf(points, rows)
    ensures RowsByDate(rows) ==> Chronological(points)
  {
    points := [];
    var i := 0;
    while i < |rows|
      invariant 0 <= i <= |rows|
      invariant ChartOf(points, rows[..i])
      invariant RowsByDate(rows) ==> Chronological(points)
    {
      var t := rows[i];
      var j := 0;
      while j < |points| && points[j].date != t.transaction.date
        invariant 0 <= j <= |points|
        invariant forall a :: 0 <= a < j ==> points[a].date != t.transaction.date
      {
        j := j + 1;
      }
      ChartStep(points, rows, i, j);
      if RowsByDate(rows) {
        ChartStepOrdered(points, rows, i, j);
      }
      if j < |points| {
        points := points[j := ChartPoint(t.transaction.date, t.balance)];
      } else {
        points := points + [ChartPoint(t.transaction.date, t.balance)];
      }
      i := i + 1;
    }
    assert rows[..|rows|] == rows;
  }

  /** The income total less the expense total is the signed sum of all the
      merged transactions, whatever order they were put in. */
  lemma CashFlowTotals(ps: seq<Product>, ss: seq<Sale>, pus: seq<Purchase>, adjs: seq<Adjustment>, start: Date, end: Date)
    ensures Sum(AllTransactions(ps, ss, pus, adjs, start, end), Signed) ==
            Sum(IncomeTransactions(ps, ss, start, end), Amount) -
            Sum(PurchaseExpenses(ps, pus, start, end) + TesterExpenses(ps, adjs, start, end), Amount)
  {
    NetOfThree(IncomeTransactions(ps, ss, start, end), PurchaseExpenses(ps, pus, start, end),
               TesterExpenses(ps, adjs, start, end), AllTransactions(ps, ss, pus, adjs, start, end));
  }

  /** The income rows followed by two lists of expense rows, ordered any way. */
  lemma NetOfThree(income: seq<Transaction>, purchases: seq<Transaction>, testers: seq<Transaction>, all: seq<Transaction>)
    requires forall i :: 0 <= i < |income| ==> income[i].flow == Income
    requires forall i :: 0 <= i < |purchases| ==> purchases[i].flow == Expense
    requires forall i :: 0 <= i < |testers| ==> testers[i].flow == Expense
    requires multiset(all) == multiset(income + purchases + testers)
    ensures Sum(all, Signed) == Sum(income, Amount) - Sum(purchases + testers, Amount)
  {
    var expenses: seq<Transaction> := purchases + testers;
    assert income + purchases + testers == income + expenses;
    forall i | 0 <= i < |expenses|
      ensures expenses[i].flow == Expense
    {
      if i < |purchases| {
        assert expenses[i] == purchases[i];
      } else {
        assert expenses[i] == testers[i - |purchases|];
      }
    }
    NetIsFinalBalance(income, expenses, all);
  }

  /** `totalIncome`: the totals of the in-range sales. */
  function TotalIncome(ps: seq<Product>, ss: seq<Sale>, start: Date, end: Date): (r: int)
    ensures r == Sum(Filter(ss, SaleInRange(start, end)), SaleTotal)
  {
    Sum(IncomeTransactions(ps, ss, start, end), Amount)
  }

  /** `totalExpenses`: in-range purchases at unit cost times quantity plus in-range
      tester conversions at their cost. */
  function TotalExpenses(ps: seq<Product>, pus: seq<Purchase>, adjs: seq<Adjustment>, start: Date, end: Date): (r: int)
    ensures r == Sum(Filter(pus, PurchaseInRange(start, end)), PurchaseCost) +
                 Sum(Filter(adjs, ConversionInRange(start, end)), AdjustmentCost)
  {
    SumAppend(PurchaseExpenses(ps, pus, start, end), TesterExpenses(ps, adjs, start, end), Amount);
    Sum(PurchaseExpenses(ps, pus, start, end) + TesterExpenses(ps, adjs, start, end), Amount)
  }

  /** The balance the rows end on is the income total less the expense total. */
  lemma FinalBalanceIsNet(ps: seq<Product>, ss: seq<Sale>, pus: seq<Purchase>, adjs: seq<Adjustment>, start: Date, end: Date)
    ensures ClosingBalance(BalanceRows(AllTransactions(ps, ss, pus, adjs, start, end))) ==
            TotalIncome(ps, ss, start, end) - TotalExpenses(ps, pus, adjs, start, end)
  {
    CashFlowTotals(ps, ss, pus, adjs, start, end);
    LastBalanceIsSignedSum(AllTransactions(ps, ss, pus, adjs, start, end));
  }

  /** Transactions sorted by date ascending give date-ordered balance rows. */
  lemma SortedRowsByDate(ts: seq<Transaction>)
    requires Sorted(ts, TransactionDate, Ascending)
    ensures RowsByDate(BalanceRows(ts))
  {
    var rows := BalanceRows(ts);
    forall i, j | 0 <= i < j < |rows|
      ensures rows[i].transaction.date <= rows[j].transaction.date
    {
      assert !Before(TransactionDate(ts[j]), TransactionDate(ts[i]), Ascending);
    }
  }

  /** The balance the rows end on: the last row's, or 0 when there are none. */
  function ClosingBalance(rows: seq<BalanceRow>): int
  {
    if rows == [] then 0 else rows[|rows| - 1].balance
  }

  /** The rows end on the signed sum of all the transactions. */
  lemma LastBalanceIsSignedSum(ts: seq<Transaction>)
    ensures ClosingBalance(BalanceRows(ts)) == Sum(ts, Signed)
  {
    BalanceChain(ts);
  }

  /** What the view shows. */
  datatype CashFlowReport = CashFlowReport(
    rows: seq<BalanceRow>, chart: seq<ChartPoint>, totalIncome: int, totalExpenses: int, netCashFlow: int)

  /** `processedData`: the rows with their running balance, the chart points, and
      the totals; the net flow is income less expenses, and it is also the balance
      the last row ends on. */
  method ProcessedData(ps: seq<Product>, ss: seq<Sale>, pus: seq<Purchase>, adjs: seq<Adjustment>, start: Date, end: Date)
    returns (report: CashFlowReport)
    ensures report.rows == BalanceRows(AllTransactions(ps, ss, pus, adjs, start, end))
    ensures report.totalIncome == TotalIncome(ps, ss, start, end)
    ensures report.totalExpenses == TotalExpenses(ps, pus, adjs, start, end)
    ensures report.netCashFlow == report.totalIncome - report.totalExpenses
    ensures ClosingBalance(report.rows) == report.netCashFlow
    ensures ChartOf(report.chart, report.rows)
    ensures Chronological(report.chart)
  {
    var rows := WithBalance(AllTransactions(ps, ss, pus, adjs, start, end));
    SortedRowsByDate(AllTransactions(ps, ss, pus, adjs, start, end));
    var chart := ChartData(rows);
    var totalIncome := TotalIncome(ps, ss, start, end);
    var totalExpenses := TotalExpenses(ps, pus, adjs, start, end);
    FinalBalanceIsNet(ps, ss, pus, adjs, start, end);
    report := CashFlowReport(rows, chart, totalIncome, totalExpenses, totalIncome - totalExpenses);
  }

  /** Ordered any way, income rows less expense rows sum to income less expenses. */
  lemma NetIsFinalBalance(income: seq<Transaction>, expenses: seq<Transaction>, all: seq<Transaction>)
    requires forall i :: 0 <= i < |income| ==> income[i].flow == Income
    requires forall i :: 0 <= i < |expenses| ==> expenses[i].flow == Expense
    requires multiset(all) == multiset(income + expenses)
    ensures Sum(all, Signed) == Sum(income, Amount) - Sum(expenses, Amount)
  {
    SumPermutation(all, income + expenses, Signed);
    SumAppend(income, expenses, Signed);
    SumCongruent(income, Signed, Amount);
    SumNegate(expenses, Amount, Signed);
  }
}
