# Parfum — a verified model of the perfume-shop ledger

Parfum is a single-user React application for a small perfume shop. It
tracks the catalogue of products (each with a stock of sellable units and
a stock of open testers), purchases from suppliers, sales to walk-in or
registered customers, tester adjustments, and the customer book. All of
this state lives in one data context. Every page reads it and changes it
only through the context's operations. The pages derive reports from it:
inventory, sales, profit, cash flow, dashboard charts and a per-product
movement history.

This project models that core in Dafny:

- **Ledger** (`ledger.dfy`): the data context as the class `Ledger.Store`.
  - Its five collections are `seq` fields that every operation reassigns.
  - Each operation returns a `DataResult`: `Ok`, or `Fail` with a tag that names the error.
  - Contracts state the new state of every collection, the stock movement of the affected product, and the exact refusal conditions.
  - `Valid()` is the invariant every operation keeps: SKUs are unique and every sale's total is its unit price times its quantity.
  - The batch sale used by the point of sale is split into its three phases:
    - checking every line (`CheckBatch`);
    - collecting the new sales and per-SKU quantities (`CollectBatch`);
    - applying the deductions (`ApplyUpdates`).
- **LedgerScenarios** (`ledger_scenarios.dfy`): short concrete runs on small stores. They show a sale and a refused oversell, a refused second tester conversion, a purchase corrected and then deleted, a batch refused whole because one line is short, and three runs that leave stock negative.
- **PointOfSale** (`pos.dfy`): the cart as the class `PointOfSale.Register`.
  - Its operations are adding to the cart, changing a line's quantity, removing a line, clearing the cart, choosing the customer and finalizing the sale against a `Store`.
  - Each operation is specified by a pure function on the cart, with lemmas about cart validity and the cart total.
- **Movements** (`movements.dfy`): the product-detail page's movement list and its running-stock walk.
- **CashFlow** (`cashflow.dfy`): the cash-flow page's transactions, running balance, chart points and totals.
- **Reports** (`reports.dfy`): the sales, inventory and profit reports.
- **Dashboard** (`dashboard.dfy`): the dashboard's cards, the sales grouped by product (top ten) and the sales grouped by day.
- **Customers, Inventory, PurchasesView, SalesView** (`customers.dfy`, `inventory.dfy`, `purchases_view.dfy`, `sales_view.dfy`): each list page's derived rows, search, filters and sort, its sort toggle and its form submission.
- **Sorting, Text, Types, Collections**: shared definitions.
  - Sorting: the column comparators, a stable sort, and the ascending/descending toggle.
  - Text: ASCII lower-casing and substring search.
  - Types: the records and enumerations of `src/types.ts` and the lookups by id.
  - Collections: sums, filters and counts, with their algebra.

Identifiers (`s${Date.now()}` and the like) and today's date are
parameters. Dates are day ordinals (`Date = int`) and date ranges are
inclusive at both ends. Money amounts are integers. The profit margin is a
`real`.

The repository ships two copies of several pages: the copy under
`pages/` and the copy under `src/pages/`. Their logic is the same apart
from line offsets. Each page is modelled once, and the table cites the
copy that was read.

## Model

| member | source | states |
|---|---|---|
| Types.EnumerationsAreClosed | src/types.ts:1-17 | each enumeration has exactly its listed cases and its labels are pairwise distinct |
| Types.FindProduct | context/DataContext.tsx:104 | the lookup finds nothing iff no product has the id; otherwise it returns the first product with that id |
| Types.FindProductUnique | context/DataContext.tsx:104 | with unique SKUs, looking up a product's own id returns that product |
| Types.FindById | context/DataContext.tsx:90 | the `find` by id used for customers, purchases and sales: nothing iff no record has the id; otherwise the first record with that id |
| Types.FindByIdAppended | context/DataContext.tsx:193 | a record appended under a fresh id is found by that id |
| Text.Lower | src/pages/Customers.tsx:35-37 | lower-casing keeps the length and maps each character through the ASCII case map |
| Text.LowerIdempotent | src/pages/Customers.tsx:35-37 | lower-casing twice is the same as lower-casing once |
| Text.ContainsAt | src/pages/Customers.tsx:35-37 | `includes` holds iff the term occurs at some position |
| Text.ContainsEmpty | pages/POS.tsx:27 | every text includes the empty term |
| Sorting.KeyLessStrictTotal | src/pages/Inventory.tsx:42-48 | the `<`/`>` comparison used by every table is a strict total order on numbers and on texts |
| Sorting.TextLessTransitive | src/pages/Customers.tsx:45-50 | string comparison is transitive |
| Sorting.SortBy | src/pages/Customers.tsx:41-55 | the sort returns a permutation of its input, ordered by the chosen column and direction |
| Sorting.SortByKeepsTies | src/pages/Customers.tsx:41-55 | the sort is stable: the rows sharing any one key come out in their input order |
| Sorting.ApplySort | src/pages/Inventory.tsx:35-52 | with no sort config the list is unchanged; otherwise it is a permutation sorted by the configured column |
| Sorting.RequestSort | src/pages/Customers.tsx:57-63 | the new config sorts by the clicked column, descending exactly when that column was already sorted ascending |
| Sorting.RequestSortFlips | src/pages/Inventory.tsx:54-60 | clicking the same column twice toggles ascending/descending |
| Ledger.MoveStockRoundTrip | context/DataContext.tsx:115-121 | moving a product's stock by a delta and then by its negation restores the catalogue |
| Ledger.MoveStockCompose | context/DataContext.tsx:182-188 | two stock moves on one product equal one move by their sum |
| Ledger.BatchRefusal | context/DataContext.tsx:126-131 | the batch check passes iff every line names a known product with enough stock; a refusal is the first refused line's error |
| Ledger.CheckBatch | context/DataContext.tsx:126-131 | the checking loop returns exactly that refusal |
| Ledger.RefusalFrom | context/DataContext.tsx:126-131 | the loop stops at the first refused line and otherwise continues with the next line |
| Ledger.BatchKeepsValid | context/DataContext.tsx:133-156 | a batch sale keeps SKUs unique and every sale total equal to price times quantity |
| Ledger.CollectBatch | context/DataContext.tsx:136-147 | one new sale per line, each with its id, the customer and price times quantity; the per-SKU tally equals the summed quantity of that SKU's lines |
| Ledger.ApplyUpdates | context/DataContext.tsx:150-156 | the catalogue after applying the tally is the batch deduction of all lines |
| Ledger.BatchSale | context/DataContext.tsx:136-145 | a batch sale carries the line's product, date, quantity and price under the generated id, its total is price times quantity, and it is tagged with the batch customer when one is given, else keeps the line's own |
| Ledger.DeductBatch | context/DataContext.tsx:146-156 | the products keep their order and every field but stock; each stock drops by the summed quantity of the batch lines naming that SKU |
| Ledger.DeductBatchLeavesOthers | context/DataContext.tsx:150-156 | a product the batch does not name keeps its record unchanged |
| Ledger.QuantityForDistinct | context/DataContext.tsx:146 | when SKUs in a batch are distinct, each SKU's tally is its line's quantity |
| Ledger.BatchWithDistinctSkusKeepsStock | context/DataContext.tsx:126-156 | a checked batch whose lines name distinct products leaves no stock negative |
| Ledger.BatchCheckLetsStockGoNegative | context/DataContext.tsx:126-156 | two lines of 1 unit for a product with stock 1 both pass the per-line check and leave stock −1 |
| Ledger.ConversionRefusal | context/DataContext.tsx:206-216 | conversion is allowed iff the product exists, has no active tester and has at least one unit; otherwise the first failing check's error |
| Ledger.ConversionConservesUnits | context/DataContext.tsx:228 | a conversion moves one unit from stock to testers of the converted product, leaves every other product unchanged, and keeps every product's stock plus tester stock |
| Ledger.SecondConversionRefused | context/DataContext.tsx:211-213 | after a successful conversion a second one on the same product is refused with "tester already active" |
| Ledger.SaleRoundTrip | context/DataContext.tsx:103-123 | a recorded sale is found by its id; deleting it restores the sales list; restocking undoes its deduction |
| Ledger.FilterUniqueSkus | context/DataContext.tsx:58-61 | deleting a product keeps SKUs unique and stocks non-negative |
| Ledger.FilterTotalsConsistent | context/DataContext.tsx:192-204 | deleting a sale keeps every total equal to price times quantity |
| Ledger.Store.constructor | context/DataContext.tsx:38-42 | a store holds exactly the given collections and satisfies the invariant |
| Ledger.Store.AddProduct | context/DataContext.tsx:44-51 | refused with the duplicate SKU iff the id is taken; otherwise the product is appended with stock 0 and tester stock 0; nothing else changes |
| Ledger.Store.UpdateProduct | context/DataContext.tsx:53-56 | every product with the id is replaced and the rest is untouched; an unknown id changes nothing |
| Ledger.Store.DeleteProduct | context/DataContext.tsx:58-61 | the catalogue is filtered to the products whose id differs; other collections unchanged |
| Ledger.Store.AddPurchase | context/DataContext.tsx:63-74 | the purchase is appended and its product's stock rises by the quantity |
| Ledger.Store.UpdatePurchase | context/DataContext.tsx:76-87 | the purchase is replaced in place and the ORIGINAL purchase's product moves by new minus old quantity, without a floor |
| Ledger.Store.DeletePurchase | context/DataContext.tsx:89-101 | refused iff the id is unknown; otherwise the purchase is removed and its product's stock falls by its quantity, even below zero |
| Ledger.Store.AddSale | context/DataContext.tsx:103-123 | accepted iff the product exists with enough stock; then the sale is appended with total price times quantity and the stock falls; refused otherwise with nothing changed |
| Ledger.Store.AddMultipleSales | context/DataContext.tsx:125-159 | accepted iff every line passes the check against the starting stock; then one sale per line is appended and the catalogue is the batch deduction; refused as a whole with the first line's error |
| Ledger.Store.UpdateSale | context/DataContext.tsx:161-190 | refused when the original product is gone or its reverted stock is below the new quantity; otherwise the sale is replaced and the original product moves by old minus new quantity |
| Ledger.Store.DeleteSale | context/DataContext.tsx:192-204 | refused iff the id is unknown; otherwise the sale is removed and its quantity restocked |
| Ledger.Store.ConvertToTester | context/DataContext.tsx:206-231 | refused with the conversion error; otherwise a conversion adjustment at cost price is logged and one unit moves from stock to testers |
| Ledger.Store.ConsumeTester | context/DataContext.tsx:233-255 | refused when the product is unknown or has no tester; otherwise a zero-cost consumption is logged and one tester is removed |
| Ledger.Store.AddCustomer | context/DataContext.tsx:257-261 | the customer is appended with the new id and returned |
| Ledger.Store.UpdateCustomer | context/DataContext.tsx:263-266 | every customer with the id is replaced; the rest is untouched |
| Ledger.Store.DeleteCustomer | context/DataContext.tsx:268-271 | the customer book is filtered to the other ids |
| Ledger.Store.AddThenDeletePurchase | context/DataContext.tsx:63-101 | recording a purchase and deleting it restores every collection |
| Ledger.Store.AddThenDeleteSale | context/DataContext.tsx:103-204 | recording an accepted sale and deleting it restores every collection |
| LedgerScenarios.SellThenOversell | context/DataContext.tsx:103-123 | a sale within stock succeeds; a second sale beyond the remaining stock is refused |
| LedgerScenarios.ConvertTwice | context/DataContext.tsx:206-231 | the first conversion logs one adjustment at cost; the second is refused |
| LedgerScenarios.PurchaseCorrectedThenDeleted | context/DataContext.tsx:76-101 | receiving 4 units, correcting the purchase to 2 units leaves stock 2, and deleting it returns stock to 0 |
| LedgerScenarios.BatchRefusedAsAWhole | context/DataContext.tsx:126-131 | one short line refuses the whole batch and records nothing |
| LedgerScenarios.DeletedPurchaseLeavesNegativeStock | context/DataContext.tsx:89-101 | deleting a purchase whose units were sold drives stock negative |
| LedgerScenarios.CorrectedPurchaseLeavesNegativeStock | context/DataContext.tsx:76-87 | correcting a purchase down after its units were sold drives stock negative |
| LedgerScenarios.BatchOverdraw | context/DataContext.tsx:125-159 | two lines for the same product, each within stock, are both recorded and overdraw it |
| PointOfSale.FindLine | pages/POS.tsx:43 | no line iff no cart line has the product; otherwise the first line of that product |
| PointOfSale.WithProductAdded | pages/POS.tsx:37-57 | a product with zero stock leaves the cart unchanged; a new product is appended as one unit; a known product keeps the cart's length |
| PointOfSale.AddToCartIncrements | pages/POS.tsx:43-53 | adding a product already in the cart raises its quantity by one only while below stock |
| PointOfSale.AddToCartKeepsValid | pages/POS.tsx:37-57 | adding keeps the cart free of duplicate products and every quantity between 1 and stock |
| PointOfSale.AddToCartTotal | pages/POS.tsx:37-57 | adding raises the cart total by the unit price exactly when a unit was added |
| PointOfSale.WithQuantity | pages/POS.tsx:59-72 | after a quantity change every remaining line has a positive quantity |
| PointOfSale.UpdateQuantityDropsNothing | pages/POS.tsx:59-72 | the trailing filter never drops a line that the clamped update produced |
| PointOfSale.UpdateQuantityOnValidCart | pages/POS.tsx:59-72 | on a valid cart only the chosen line changes: to n when 0 < n <= stock, to the stock when n exceeds it, and not at all when n <= 0; an absent product leaves the cart unchanged |
| PointOfSale.UpdateQuantityKeepsValid | pages/POS.tsx:59-72 | a quantity change keeps the cart valid |
| PointOfSale.WithoutProduct | pages/POS.tsx:74-76 | removal keeps exactly the lines of the other products, and leaves a cart without that product unchanged |
| PointOfSale.RemoveFromCartKeepsValid | pages/POS.tsx:74-76 | removal keeps the cart valid and lowers the total by the removed line's total |
| PointOfSale.SaleLines | pages/POS.tsx:95-100 | each cart line becomes one sale line with the same product, quantity and price, dated today |
| PointOfSale.CustomerChoice | pages/POS.tsx:102 | an empty selection means no customer; anything else is that customer |
| PointOfSale.FinalizedSalesTotal | pages/POS.tsx:88-111 | the finalized sales' totals add up to the cart total |
| PointOfSale.ValidCartSellsSafely | pages/POS.tsx:92-111 | a valid cart whose stock snapshots are current passes the batch check and leaves no stock negative |
| PointOfSale.SearchProducts | pages/POS.tsx:26-33 | an empty term lists every product; otherwise exactly the products whose name, id or brand contains the term, ignoring case |
| PointOfSale.Register.constructor | pages/POS.tsx:21-23 | a register starts with an empty cart and no customer |
| PointOfSale.Register.AddToCart | pages/POS.tsx:37-57 | the cart becomes the cart with the product added |
| PointOfSale.Register.UpdateQuantity | pages/POS.tsx:59-72 | the cart becomes the cart with the quantity set |
| PointOfSale.Register.RemoveFromCart | pages/POS.tsx:74-76 | the cart becomes the cart without the product |
| PointOfSale.Register.ClearCart | pages/POS.tsx:78-86 | a non-empty cart is emptied only when the clearing is confirmed |
| PointOfSale.Register.SelectCustomer | pages/POS.tsx:23 | the selected customer changes and the cart does not |
| PointOfSale.Register.FinalizeSale | pages/POS.tsx:92-111 | an empty cart does nothing; otherwise the batch goes to the store, succeeding iff it passes the check; success records exactly one sale per cart line, in cart order, tagged with the selected customer when one is chosen, deducts the batch from the stock, and empties the cart and the customer; failure keeps both |
| Movements.PurchaseMovements | pages/ProductDetail.tsx:17-25 | one inbound movement per purchase of the product, in order, each with that purchase's date, quantity and id, adding up to its purchased units |
| Movements.SaleMovements | pages/ProductDetail.tsx:27-35 | one outbound movement per sale of the product, in order, each with that sale's date, minus its quantity and its id, adding up to minus its sold units |
| Movements.AdjustmentMovements | pages/ProductDetail.tsx:37-59 | one movement per adjustment of the product, in order, each with that adjustment's date and id; a conversion counts minus its quantity and a consumption counts 0 |
| Movements.ProductMovements | pages/ProductDetail.tsx:14-63 | an unknown product has no movements; otherwise purchases, then sales, then adjustments |
| Movements.MovementsNet | pages/ProductDetail.tsx:14-63 | the movements add up to purchased minus sold minus converted units |
| Movements.RunningRowsChain | pages/ProductDetail.tsx:65-80 | the first row shows the current stock and each later row the previous row's stock minus the previous movement, i.e. current stock minus the earlier movements |
| Movements.RunningStock | pages/ProductDetail.tsx:70-79 | the walk produces exactly the running rows |
| Movements.WithRunningStock | pages/ProductDetail.tsx:65-80 | no product gives no rows; otherwise the rows are the movements in the stable newest-first sort (same-day movements keep purchases, sales, adjustments order) walked back from the current stock |
| CashFlow.IncomeTransactions | src/pages/CashFlow.tsx:24-34 | one income per sale in range, in order, each with that sale's date and total, adding up to those totals |
| CashFlow.PurchaseExpenses | src/pages/CashFlow.tsx:36-46 | one expense per purchase in range, in order, each with that purchase's date and cost times quantity |
| CashFlow.TesterExpenses | src/pages/CashFlow.tsx:48-58 | one expense per tester conversion in range, in order, each with that conversion's date and cost, adding up to the conversions' costs |
| CashFlow.AllTransactions | src/pages/CashFlow.tsx:60-61 | the three lists merged as a permutation sorted by date ascending |
| CashFlow.BalanceChain | src/pages/CashFlow.tsx:63-67 | each row's balance is the previous balance plus the signed amount; the last is the signed sum |
| CashFlow.WithBalance | src/pages/CashFlow.tsx:63-67 | the loop produces exactly the balance rows |
| CashFlow.LastBalanceOnSome | src/pages/CashFlow.tsx:70-75 | a day has a balance iff some transaction falls on it |
| CashFlow.ChartStepOrdered | src/pages/CashFlow.tsx:70-75 | over date-ordered rows, placing one more row keeps the points in strictly increasing date order |
| CashFlow.SortedRowsByDate | src/pages/CashFlow.tsx:60-67 | the balance rows of the date-sorted transactions are in date order |
| CashFlow.ChartStep | src/pages/CashFlow.tsx:70-75 | placing one more row keeps one point per day carrying that day's last balance |
| CashFlow.ChartData | src/pages/CashFlow.tsx:70-75 | the chart has one point per distinct day, and each point carries that day's last balance; over date-ordered rows the points are in strictly increasing date order |
| CashFlow.CashFlowTotals | src/pages/CashFlow.tsx:60-79 | the signed sum of all transactions is income minus purchase and tester expenses |
| CashFlow.TotalIncome | src/pages/CashFlow.tsx:77 | income is the sum of the totals of the sales in range |
| CashFlow.TotalExpenses | src/pages/CashFlow.tsx:78 | expenses are purchase costs in range plus tester costs in range |
| CashFlow.FinalBalanceIsNet | src/pages/CashFlow.tsx:63-79 | the final running balance equals the net cash flow |
| CashFlow.ProcessedData | src/pages/CashFlow.tsx:19-89 | the page's rows, chart and totals, with net = income − expenses = closing balance, and the chart points in strictly increasing date order |
| Reports.SalesInRange | src/pages/Reports.tsx:25-32 | exactly the sales dated within the range |
| Reports.SalesSummary | src/pages/Reports.tsx:25-32 | revenue and items sold are the sums over the sales in range |
| Reports.SalesRevenueIsPriceTimesQuantity | src/pages/Reports.tsx:25-32 | with consistent totals, revenue is the sum of price times quantity over the range |
| Reports.InventorySummary | src/pages/Reports.tsx:35-40 | stock value, units and testers are the catalogue sums |
| Reports.ConversionKeepsInventoryUnits | src/pages/Reports.tsx:35-40 | a tester conversion leaves units plus testers unchanged |
| Reports.StockValueNonNegative | src/pages/Reports.tsx:35-40 | non-negative stocks and costs give a non-negative stock value and unit count |
| Reports.ConversionsInRange | src/pages/Reports.tsx:48-51 | exactly the tester conversions dated within the range |
| Reports.ProfitRowFor | src/pages/Reports.tsx:53-58 | a row's cost is cost price times quantity (0 for an unknown product) and its profit is total minus cost |
| Reports.Margin | src/pages/Reports.tsx:69 | zero without revenue; otherwise non-negative iff profit is, and 100 iff profit equals revenue |
| Reports.ProfitSummary | src/pages/Reports.tsx:42-72 | revenue agrees with the sales report and the cash flow; net profit is revenue minus goods cost minus tester cost |
| Dashboard.TotalStockValueNonNegative | src/pages/Dashboard.tsx:12 | with no negative stock and no negative cost price the stock-value card is never negative |
| Dashboard.TotalRevenue | src/pages/Dashboard.tsx:13 | the card is the sum of sale totals |
| Dashboard.TotalProfitIsReportProfit | src/pages/Dashboard.tsx:14-20 | with consistent totals, the dashboard profit is the profit of the sales whose product still exists |
| Dashboard.LowStockItems | src/pages/Dashboard.tsx:22 | exactly the products with 1 to 3 units |
| Dashboard.GroupIndex | src/pages/Dashboard.tsx:27 | finds the group with the key, or reports that none has it |
| Dashboard.Accumulate | src/pages/Dashboard.tsx:27-30 | an existing group keeps its place; a new key is appended; the key then has a group |
| Dashboard.AccumulateKeepsGroups | src/pages/Dashboard.tsx:24-32 | after each sale the groups have distinct keys, cover every sale seen, and hold those sales' totals |
| Dashboard.GroupTotals | src/pages/Dashboard.tsx:24-32 | the reduction yields one group per key with the total of that key's sales |
| Dashboard.SalesByProduct | src/pages/Dashboard.tsx:24-32 | groups by product name ("Unknown" for a missing product) with totals adding up to the revenue |
| Dashboard.TopTen | src/pages/Dashboard.tsx:34 | the first ten groups, or all when fewer |
| Dashboard.TopTenExclusion | src/pages/Dashboard.tsx:34 | a product left out of the top ten sold no more than the tenth |
| Dashboard.TopProducts | src/pages/Dashboard.tsx:34 | at most ten distinct products sorted by sales descending, with true totals, and none left out outsells them |
| Dashboard.SalesOverTime | src/pages/Dashboard.tsx:36-45 | one group per day with that day's total, days strictly increasing, totals adding up to the revenue |
| Customers.Extend | src/pages/Customers.tsx:21-31 | a customer's total spent and purchase count come from the sales with their id |
| Customers.ExtendedCustomers | src/pages/Customers.tsx:21-31 | one extended row per customer, in order |
| Customers.NoSalesNoTotals | src/pages/Customers.tsx:21-31 | a customer without sales has zero spent and zero purchases |
| Customers.FilteredCustomers | src/pages/Customers.tsx:33-39 | exactly the customers whose name, email or phone contains the term, ignoring case |
| Customers.EmptySearchKeepsAll | src/pages/Customers.tsx:33-39 | an empty search keeps every customer |
| Customers.SearchFindsByName | src/pages/Customers.tsx:33-39 | searching a customer's own name finds them |
| Customers.SortedCustomers | src/pages/Customers.tsx:41-55 | a permutation sorted by the configured column |
| Customers.SubmitCustomer | src/pages/Customers.tsx:92-104 | creating adds the form; editing updates the edited customer's id with the form's fields |
| Customers.UnchangedFormKeepsCustomer | src/pages/Customers.tsx:92-104 | saving an unchanged edit form updates the customer to itself |
| Customers.HistoryRows | pages/CustomerDetail.tsx:17-20 | one history row per sale with its product name |
| Customers.CustomerHistory | pages/CustomerDetail.tsx:13-22 | no rows for an unknown customer; otherwise the customer's sales, newest first |
| Customers.DetailAgreesWithList | pages/CustomerDetail.tsx:24-28 | the detail page's total and count equal the list page's |
| Inventory.Brands | src/pages/Inventory.tsx:22 | one brand per product, in order |
| Inventory.BrandOptions | src/pages/Inventory.tsx:22 | every product's brand appears; every option is some product's brand; options strictly increase |
| Inventory.DistinctOfSorted | src/pages/Inventory.tsx:22 | de-duplicating a sorted list gives a strictly increasing list |
| Inventory.FilteredProducts | src/pages/Inventory.tsx:24-33 | the products on the active tab that match the brand filter |
| Inventory.FilterTwice | src/pages/Inventory.tsx:24-33 | the two successive filters equal the one combined filter |
| Inventory.TesterTabCount | src/pages/Inventory.tsx:199 | the tab's count equals the length of the testers tab's list |
| Inventory.SortedProducts | src/pages/Inventory.tsx:35-52 | a permutation sorted by the configured column |
| Inventory.StockValueOrder | src/pages/Inventory.tsx:39-40 | sorting by stock value orders by stock times cost price |
| Inventory.ConvertButtonMatchesLedger | src/pages/Inventory.tsx:247 | the convert button is disabled iff the ledger would refuse the conversion |
| PurchasesView.RowOf | src/pages/Purchases.tsx:18-25 | a row carries the product's name ("N/A" if unknown) and total cost times quantity |
| PurchasesView.ExtendedPurchases | src/pages/Purchases.tsx:18-25 | one row per purchase, in order |
| PurchasesView.RowTotalsAreCosts | src/pages/Purchases.tsx:18-25 | the rows' totals add up to the purchases' costs |
| PurchasesView.SortedPurchases | src/pages/Purchases.tsx:27-44 | a permutation sorted by the configured column |
| PurchasesView.InitialSortNewestFirst | src/pages/Purchases.tsx:16 | the initial sort lists purchases newest first |
| PurchasesView.InitialForm | src/pages/Purchases.tsx:61-69 | a new form is dated today for 1 unit of the first product at its cost |
| PurchasesView.SelectProduct | src/pages/Purchases.tsx:112-120 | choosing a product sets its cost price and keeps the other fields |
| PurchasesView.InitialFormPicksFirstProduct | src/pages/Purchases.tsx:61-120 | reselecting the first product leaves a new form unchanged |
| PurchasesView.Submit | src/pages/Purchases.tsx:122-124 | creating calls add; editing calls update with the edited purchase |
| PurchasesView.UnchangedEditKeepsPurchase | src/pages/Purchases.tsx:73-124 | saving an unchanged edit form updates the purchase with its own fields |
| SalesView.CustomerNameOf | src/pages/Sales.tsx:21 | the customer's name, or "Cliente General" when there is none or it is unknown |
| SalesView.RowOf | src/pages/Sales.tsx:19-27 | a row carries the product name ("N/A" if unknown) and the customer's name |
| SalesView.ExtendedSales | src/pages/Sales.tsx:19-27 | one row per sale, in order |
| SalesView.RowTotalsAreRevenue | src/pages/Sales.tsx:19-27 | the rows' totals add up to the revenue |
| SalesView.SortedSales | src/pages/Sales.tsx:29-46 | a permutation sorted by the configured column |
| SalesView.InitialSortNewestFirst | src/pages/Sales.tsx:17 | the initial sort lists sales newest first |
| SalesView.InitialForm | src/pages/Sales.tsx:63-69 | a new form is dated today for 1 unit of the first product at its sale price, with no customer |
| SalesView.SelectProduct | src/pages/Sales.tsx:111-119 | choosing a product sets its sale price and keeps the other fields |
| SalesView.InitialFormPicksFirstProduct | src/pages/Sales.tsx:63-119 | reselecting the first product leaves a new form unchanged |
| SalesView.NormaliseCustomerId | src/pages/Sales.tsx:123 | an empty selection becomes no customer, anything else that customer |
| SalesView.Submit | src/pages/Sales.tsx:121-124 | the call carries the form's fields and normalised customer; add when creating, update of the edited sale when editing |
| SalesView.UnchangedEditKeepsSale | src/pages/Sales.tsx:73-124 | saving an unchanged edit form updates the sale with its own fields |

## Left out

- Persistence (`useLocalStorage`, `localStorage`) is I/O. The store's collections are plain fields.
- The AI analytics page and `services/geminiService.ts` call a remote service over the network. They are not part of this model.
- Generated ids (`Date.now()`) and today's date are parameters of the operations.
- Date parsing, ISO strings and time zones are left out. A date is a day ordinal.
- Floating-point money and `parseFloat` are left out. Amounts are integers and the profit margin is a `real`.
- React mechanics are left out: hooks, memoisation, re-rendering, and the stale closures between consecutive `setState` calls. Each operation reads the state as it was when it was called.
- Text: case folding covers ASCII letters only. JavaScript's full Unicode `toLowerCase` is not modelled.
- Ledger.Store: the toast message strings are replaced by error tags (`LedgerError`). `InsufficientStockFor` keeps the product name and stock that the batch message shows.
- Sorting by a sale's optional `customerId` is left out. JavaScript's `<` on `undefined` is always false, so that sort is not an ordering.
- Dashboard.SalesByProduct: groups keep first-appearance order. JavaScript's `Object.values` puts integer-like keys first, and that order is not modelled. The page's stable sort keeps that order among equal totals, so when totals tie the model's list, and which tied name takes the tenth place, can differ from the page's. The totals and the top-ten contract (a product left out sold no more than the tenth) hold for any order.
- Dashboard.SalesByProduct: the accumulator is a plain object, so a product named like an `Object.prototype` member (`toString`, `constructor`, `valueOf`, …) finds an inherited, truthy value. The page then creates no bar for that name and its sales drop out of the chart. The model groups every name, so its groups always add up to the revenue.
- Ledger.CollectBatch: the per-SKU tally `productUpdates` is a plain object too. A SKU named like an `Object.prototype` member starts from the inherited function instead of 0, and that product's stock becomes `NaN`. The model starts every tally at 0.
- Sorting.TextLess: JavaScript's `<` compares UTF-16 code units, while the model compares Unicode scalar values. The two orders agree unless one string has a character above U+FFFF where the other has one from U+E000 to U+FFFF (for example U+FF21 against U+1F600).
- Dashboard.SalesOverTime: day groups are keyed by day ordinal, not by the ISO string of the parsed date.
- The UI layer is left out: layout, routing, modals, toasts and `NotificationContext`.
- The product form's field parsing is left out. So is the blank-name check in `QuickAddCustomerModal`, because it only gates the call to `addCustomer`.
- PointOfSale.Register.ClearCart: the confirmation dialog is a `bool` parameter.
- The seed data in `src/data/mockData.ts` is left out. The scenarios use small stores of their own.
- Ledger.Store.UpdateProduct: the product form's parsing of numeric fields is not modelled. The contract covers the replacement only.
