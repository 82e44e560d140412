/** The sales page (src/pages/Sales.tsx): the table rows with product and customer
    names, their sorting, the sale form's defaults and product picker, and how a
    submitted form reaches the ledger. */
module SalesView {
  import opened Collections
  import opened Sorting
  import opened Types
  import Ledger

  /** A sale with the name of its product and of its customer. */
  datatype SaleRow = SaleRow(sale: Sale, productName: string, customerName: string)

  /** `customers.find(c => c.id === sale.customerId)`, then `customer ? customer.name
      : 'Cliente General'`: a walk-in sale matches no customer. */
  function CustomerNameOf(cs: seq<Customer>, customerId: Option<string>): (name: string)
    ensures customerId.None? ==> name == "Cliente General"
    ensures customerId.Some? && FindCustomer(cs, customerId.value).None? ==> name == "Cliente General"
    ensures customerId.Some? && FindCustomer(cs, customerId.value).Some? ==>
              exists i :: 0 <= i < |cs| && cs[i].id == customerId.value && cs[i].name == name
  {
    match customerId
    case None => "Cliente General"
    case Some(id) =>
      match FindCustomer(cs, id)
      case None => "Cliente General"
      case Some(c) => c.name
  }

  /** One row of `extendedSales`: the product's name or 'N/A', and the customer's
      name or 'Cliente General'. */
  function RowOf(ps: seq<Product>, cs: seq<Customer>, s: Sale): (row: SaleRow)
    ensures row.sale == s && row.customerName == CustomerNameOf(cs, s.customerId)
    ensures FindProduct(ps, s.productId).None? ==> row.productName == "N/A"
    ensures FindProduct(ps, s.productId).Some? ==> row.productName == FindProduct(ps, s.productId).value.name
  {
    SaleRow(s, ProductNameOr(ps, s.productId, "N/A"), CustomerNameOf(cs, s.customerId))
  }

  /** `extendedSales`: one row per sale, in the stored order. */
  function ExtendedSales(ps: seq<Product>, cs: seq<Customer>, ss: seq<Sale>): (rows: seq<SaleRow>)
    ensures |rows| == |ss|
    ensures forall i :: 0 <= i < |ss| ==> rows[i] == RowOf(ps, cs, ss[i])
  {
    seq(|ss|, i requires 0 <= i < |ss| => RowOf(ps, cs, ss[i]))
  }

  function RowTotal(r: SaleRow): int { r.sale.total }

  /** The totals column adds up to the revenue the other views report. */
  lemma {:induction false} RowTotalsAreRevenue(ps: seq<Product>, cs: seq<Customer>, ss: seq<Sale>)
    ensures Sum(ExtendedSales(ps, cs, ss), RowTotal) == Sum(ss, SaleTotal)
  {
    if ss != [] {
      var init := ss[..|ss| - 1];
      RowTotalsAreRevenue(ps, cs, init);
      var rows := ExtendedSales(ps, cs, ss);
      assert rows == ExtendedSales(ps, cs, init) + [rows[|rows| - 1]];
      SumAppend(ExtendedSales(ps, cs, init), [rows[|rows| - 1]], RowTotal);
      assert ss == init + [ss[|ss| - 1]];
      SumAppend(init, [ss[|ss| - 1]], SaleTotal);
    }
  }

  /** The sortable columns: the sale's own fields except the optional customer id,
      and the two names. */
  datatype SaleKey =
    | ById | ByProductId | ByDate | ByQuantity | ByUnitPrice | ByTotal
    | ByProductName | ByCustomerName

  function SaleColumn(k: SaleKey, r: SaleRow): SortKey
  {
    match k
    case ById => Text(r.sale.id)
    case ByProductId => Text(r.sale.productId)
    case ByDate => Num(r.sale.date)
    case ByQuantity => Num(r.sale.quantity)
    case ByUnitPrice => Num(r.sale.unitPrice)
    case ByTotal => Num(r.sale.total)
    case ByProductName => Text(r.productName)
    case ByCustomerName => Text(r.customerName)
  }

  /** The page opens sorted by date, newest first. */
  const InitialSort: SortConfigChoice<SaleKey> := Configured(SortConfig(ByDate, Descending))

  /** `sortedSales`: the rows reordered by the chosen column. */
  function SortedSales(rows: seq<SaleRow>, config: SortConfigChoice<SaleKey>): (r: seq<SaleRow>)
    ensures multiset(r) == multiset(rows)
    ensures config.NoConfig? ==> r == rows
    ensures config.Configured? ==> Sorted(r, t => SaleColumn(config.config.key, t), config.config.direction)
  {
    ApplySort(rows, SaleColumn, config)
  }

  /** Under the initial sort no sale is listed above a newer one. */
  lemma InitialSortNewestFirst(rows: seq<SaleRow>)
    ensures var r := SortedSales(rows, InitialSort);
            forall i, j :: 0 <= i < j < |r| ==> r[i].sale.date >= r[j].sale.date
  {
    var r := SortedSales(rows, InitialSort);
    forall i, j | 0 <= i < j < |r|
      ensures r[i].sale.date >= r[j].sale.date
    {
      assert !Before(SaleColumn(ByDate, r[j]), SaleColumn(ByDate, r[i]), Descending);
    }
  }

  /** The sale form; an empty `customerId` stands for a walk-in customer. */
  datatype SaleForm = SaleForm(productId: string, date: Date, quantity: int, unitPrice: int, customerId: string)

  /** A fresh form: the first product with its sale price, or no product and price
      0; one unit; today; no customer. */
  function InitialForm(ps: seq<Product>, today: Date): (f: SaleForm)
    ensures f.quantity == 1 && f.date == today && f.customerId == ""
    ensures ps == [] ==> f.productId == "" && f.unitPrice == 0
    ensures ps != [] ==> f.productId == ps[0].id && f.unitPrice == ps[0].salePrice
  {
    SaleForm(if |ps| > 0 then ps[0].id else "", today, 1, if |ps| > 0 then ps[0].salePrice else 0, "")
  }

  /** `handleProductSelect`: the form takes the SKU and that product's sale price,
      or 0 when the SKU does not resolve; every other field stays. */
  function SelectProduct(ps: seq<Product>, f: SaleForm, productId: string): (g: SaleForm)
    ensures g.productId == productId
    ensures FindProduct(ps, productId).Some? ==> g.unitPrice == FindProduct(ps, productId).value.salePrice
    ensures FindProduct(ps, productId).None? ==> g.unitPrice == 0
    ensures g.date == f.date && g.quantity == f.quantity && g.customerId == f.customerId
  {
    var price := match FindProduct(ps, productId) case Some(p) => p.salePrice case None => 0;
    f.(productId := productId, unitPrice := price)
  }

  /** A fresh form is the form with the first product picked. */
  lemma InitialFormPicksFirstProduct(ps: seq<Product>, today: Date)
    requires ps != []
    ensures SelectProduct(ps, InitialForm(ps, today), ps[0].id) == InitialForm(ps, today)
  {
  }

  /** The form filled from the sale being edited (`customerId || ''`). */
  function FormOf(s: Sale): SaleForm
  {
    SaleForm(s.productId, s.date, s.quantity, s.unitPrice, match s.customerId case Some(c) => c case None => "")
  }

  /** `formData.customerId || undefined`: an empty customer id is no customer. */
  function NormaliseCustomerId(id: string): (r: Option<string>)
    ensures r.None? <==> id == ""
    ensures r.Some? ==> r.value == id
  {
    if id == "" then None else Some(id)
  }

  /** What submitting the form asks of the ledger. */
  datatype SaleCall =
    | UpdateSaleCall(input: Ledger.SaleInput, original: Sale)
    | AddSaleCall(input: Ledger.SaleInput)

  /** `handleSubmit`: the form, with its customer id normalised, updates the sale
      being edited or is added as a new sale. */
  function Submit(editing: Option<Sale>, f: SaleForm): (call: SaleCall)
    ensures call.input.productId == f.productId && call.input.date == f.date
    ensures call.input.quantity == f.quantity && call.input.unitPrice == f.unitPrice
    ensures call.input.customerId == NormaliseCustomerId(f.customerId)
    ensures editing.None? <==> call.AddSaleCall?
    ensures editing.Some? ==> call.UpdateSaleCall? && call.original == editing.value
  {
    var input := Ledger.SaleInput(f.productId, f.date, f.quantity, f.unitPrice, NormaliseCustomerId(f.customerId));
    match editing
    case None => AddSaleCall(input)
    case Some(s) => UpdateSaleCall(input, s)
  }

  /** Saving an edit form unchanged hands the ledger the very sale it stores, as
      long as its total is price times quantity and it does not name the empty
      customer id, which the round trip turns into a walk-in sale. */
  lemma UnchangedEditKeepsSale(s: Sale)
    requires s.total == s.unitPrice * s.quantity
    ensures var call := Submit(Some(s), FormOf(s));
            call.UpdateSaleCall? &&
            (Ledger.NewSale(call.original.id, call.input) == s <==> s.customerId != Some(""))
  {
  }
}
