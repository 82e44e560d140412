/** The purchases page (src/pages/Purchases.tsx): the table rows with product name
    and line total, their sorting, the purchase form's defaults and product picker,
    and which ledger operation a submitted form calls. */
module PurchasesView {
  import opened Collections
  import opened Sorting
  import opened Types
  import Ledger

  /** A purchase with the name of its product and its line total. */
  datatype PurchaseRow = PurchaseRow(purchase: Purchase, productName: string, total: int)

  function RowTotal(r: PurchaseRow): int { r.total }

  /** One row of `extendedPurchases`: the name, or 'N/A' when the SKU no longer
      resolves, and quantity times unit cost. */
  function RowOf(ps: seq<Product>, p: Purchase): (row: PurchaseRow)
    ensures row.purchase == p && row.total == PurchaseCost(p)
    ensures FindProduct(ps, p.productId).None? ==> row.productName == "N/A"
    ensures FindProduct(ps, p.productId).Some? ==> row.productName == FindProduct(ps, p.productId).value.name
  {
    PurchaseRow(p, ProductNameOr(ps, p.productId, "N/A"), p.quantity * p.unitCost)
  }

  /** `extendedPurchases`: one row per purchase, in the stored order. */
  function ExtendedPurchases(ps: seq<Product>, purchases: seq<Purchase>): (rows: seq<PurchaseRow>)
    ensures |rows| == |purchases|
    ensures forall i :: 0 <= i < |purchases| ==> rows[i] == RowOf(ps, purchases[i])
  {
    seq(|purchases|, i requires 0 <= i < |purchases| => RowOf(ps, purchases[i]))
  }

  /** The totals column adds up to what the purchases cost, the amount the cash
      flow books as purchase expenses. */
  lemma {:induction false} RowTotalsAreCosts(ps: seq<Product>, purchases: seq<Purchase>)
    ensures Sum(ExtendedPurchases(ps, purchases), RowTotal) == Sum(purchases, PurchaseCost)
  {
    if purchases != [] {
      var init := purchases[..|purchases| - 1];
      RowTotalsAreCosts(ps, init);
      var rows := ExtendedPurchases(ps, purchases);
      assert rows == ExtendedPurchases(ps, init) + [rows[|rows| - 1]];
      SumAppend(ExtendedPurchases(ps, init), [rows[|rows| - 1]], RowTotal);
      assert purchases == init + [purchases[|purchases| - 1]];
      SumAppend(init, [purchases[|purchases| - 1]], PurchaseCost);
    }
  }

  /** The sortable columns: the purchase's own fields, the product name and the
      line total. */
  datatype PurchaseKey =
    | ById | ByProductId | ByDate | ByQuantity | ByUnitCost | BySupplier
    | ByDocumentType | ByDocumentNumber | ByProductName | ByTotal

  /** The value a row shows in a column; the document type compares as its stored
      string. */
  function PurchaseColumn(k: PurchaseKey, r: PurchaseRow): SortKey
  {
    match k
    case ById => Text(r.purchase.id)
    case ByProductId => Text(r.purchase.productId)
    case ByDate => Num(r.purchase.date)
    case ByQuantity => Num(r.purchase.quantity)
    case ByUnitCost => Num(r.purchase.unitCost)
    case BySupplier => Text(r.purchase.supplier)
    case ByDocumentType => Text(DocumentTypeLabel(r.purchase.documentType))
    case ByDocumentNumber => Text(r.purchase.documentNumber)
    case ByProductName => Text(r.productName)
    case ByTotal => Num(r.total)
  }

  /** The page opens sorted by date, newest first. */
  const InitialSort: SortConfigChoice<PurchaseKey> := Configured(SortConfig(ByDate, Descending))

  /** `sortedPurchases`: the rows reordered by the chosen column. */
  function SortedPurchases(rows: seq<PurchaseRow>, config: SortConfigChoice<PurchaseKey>): (r: seq<PurchaseRow>)
    ensures multiset(r) == multiset(rows)
    ensures config.NoConfig? ==> r == rows
    ensures config.Configured? ==> Sorted(r, t => PurchaseColumn(config.config.key, t), config.config.direction)
  {
    ApplySort(rows, PurchaseColumn, config)
  }

  /** Under the initial sort no purchase is listed above a newer one. */
  lemma InitialSortNewestFirst(rows: seq<PurchaseRow>)
    ensures var r := SortedPurchases(rows, InitialSort);
            forall i, j :: 0 <= i < j < |r| ==> r[i].purchase.date >= r[j].purchase.date
  {
    var r := SortedPurchases(rows, InitialSort);
    forall i, j | 0 <= i < j < |r|
      ensures r[i].purchase.date >= r[j].purchase.date
    {
      assert !Before(PurchaseColumn(ByDate, r[j]), PurchaseColumn(ByDate, r[i]), Descending);
    }
  }

  /** A fresh form: the first product with its cost price, or no product and cost
      0; one unit; today; a receipt (boleta) with no supplier or number. */
  function InitialForm(ps: seq<Product>, today: Date): (f: Ledger.PurchaseInput)
    ensures f.quantity == 1 && f.date == today && f.documentType == Boleta
    ensures f.supplier == "" && f.documentNumber == ""
    ensures ps == [] ==> f.productId == "" && f.unitCost == 0
    ensures ps != [] ==> f.productId == ps[0].id && f.unitCost == ps[0].costPrice
  {
    Ledger.PurchaseInput(
      if |ps| > 0 then ps[0].id else "", today, 1, if |ps| > 0 then ps[0].costPrice else 0,
      "", Boleta, "")
  }

  /** `handleProductSelect`: the form takes the SKU and that product's cost price,
      or 0 when the SKU does not resolve; every other field stays. */
  function SelectProduct(ps: seq<Product>, f: Ledger.PurchaseInput, productId: string): (g: Ledger.PurchaseInput)
    ensures g.productId == productId
    ensures FindProduct(ps, productId).Some? ==> g.unitCost == FindProduct(ps, productId).value.costPrice
    ensures FindProduct(ps, productId).None? ==> g.unitCost == 0
    ensures g.date == f.date && g.quantity == f.quantity && g.supplier == f.supplier
    ensures g.documentType == f.documentType && g.documentNumber == f.documentNumber
  {
    var cost := match FindProduct(ps, productId) case Some(p) => p.costPrice case None => 0;
    f.(productId := productId, unitCost := cost)
  }

  /** A fresh form is the form with the first product picked. */
  lemma InitialFormPicksFirstProduct(ps: seq<Product>, today: Date)
    requires ps != []
    ensures SelectProduct(ps, InitialForm(ps, today), ps[0].id) == InitialForm(ps, today)
  {
  }

  /** The form filled from the purchase being edited. */
  function FormOf(p: Purchase): Ledger.PurchaseInput
  {
    Ledger.PurchaseInput(p.productId, p.date, p.quantity, p.unitCost, p.supplier, p.documentType, p.documentNumber)
  }

  /** What submitting the form asks of the ledger. */
  datatype PurchaseCall =
    | UpdatePurchaseCall(input: Ledger.PurchaseInput, original: Purchase)
    | AddPurchaseCall(input: Ledger.PurchaseInput)

  /** `handleSubmit`: the form updates the purchase being edited, given as the
      original record, or else is added as a new purchase. */
  function Submit(editing: Option<Purchase>, f: Ledger.PurchaseInput): (call: PurchaseCall)
    ensures call.input == f
    ensures editing.None? <==> call.AddPurchaseCall?
    ensures editing.Some? ==> call == UpdatePurchaseCall(f, editing.value)
  {
    match editing
    case None => AddPurchaseCall(f)
    case Some(p) => UpdatePurchaseCall(f, p)
  }

  /** Saving an edit form unchanged hands the ledger the very purchase it stores:
      the update rebuilds it under its own id. */
  lemma UnchangedEditKeepsPurchase(p: Purchase)
    ensures var call := Submit(Some(p), FormOf(p));
            call.UpdatePurchaseCall? && Ledger.NewPurchase(call.original.id, call.input) == p
  {
  }
}
