/** The stock ledger of context/DataContext.tsx: five in-memory collections that
    change only through the operations below.  Every operation answers
    `{success, message}`; a refused operation leaves all five collections as
    they were.  The generated ids (`p${Date.now()}`, ...) and today's date are
    parameters. */
module Ledger {
  import opened Collections
  import opened Types

  /** Why an operation was refused; the application shows each as a message. */
  datatype LedgerError =
    | DuplicateSku(sku: string)
    | PurchaseNotFound
    | SaleNotFound
    | ProductNotFound
    | InsufficientStock
    | InsufficientStockFor(productName: string, stock: int)
    | InsufficientStockAfterRevert(available: int, required: int)
    | TesterAlreadyActive
    | NoSellableStock
    | NoActiveTester

  /** `{success: true, ...}` or `{success: false, message}`. */
  datatype DataResult = Ok | Fail(error: LedgerError)

  /** A product as the form submits it: everything but the two stock counters. */
  datatype ProductInfo = ProductInfo(
    id: string, name: string, brand: string, gender: Gender, costPrice: int, salePrice: int)

  /** A purchase without its id. */
  datatype PurchaseInput = PurchaseInput(
    productId: string, date: Date, quantity: int, unitCost: int,
    supplier: string, documentType: DocumentType, documentNumber: string)

  /** A sale without its id and total. */
  datatype SaleInput = SaleInput(
    productId: string, date: Date, quantity: int, unitPrice: int, customerId: Option<string>)

  /** A customer without its id. */
  datatype CustomerInput = CustomerInput(name: string, phone: string, email: string, notes: string)

  /** The records a delete keeps: those not carrying the deleted id. */
  function ProductIdIsNot(id: string): Product -> bool { (p: Product) => p.id != id }
  function PurchaseIdIsNot(id: string): Purchase -> bool { (p: Purchase) => p.id != id }
  function SaleIdIsNot(id: string): Sale -> bool { (s: Sale) => s.id != id }
  function CustomerIdIsNot(id: string): Customer -> bool { (c: Customer) => c.id != id }

  /** Neither sellable stock nor tester stock is negative anywhere. */
  ghost predicate StocksNonNegative(ps: seq<Product>)
  {
    forall i :: 0 <= i < |ps| ==> ps[i].stock >= 0 && ps[i].testerStock >= 0
  }

  /** Every stored sale carries `total == unitPrice * quantity`. */
  ghost predicate TotalsConsistent(ss: seq<Sale>)
  {
    forall i :: 0 <= i < |ss| ==> ss[i].total == ss[i].unitPrice * ss[i].quantity
  }

  /** `prev.map(p => p.id === id ? {...p, stock: p.stock + ds, testerStock: p.testerStock + dt} : p)` */
  function MoveStock(ps: seq<Product>, id: string, ds: int, dt: int): (r: seq<Product>)
    ensures |r| == |ps|
    ensures forall i :: 0 <= i < |ps| ==> r[i].id == ps[i].id
  {
    seq(|ps|, i requires 0 <= i < |ps| =>
      if ps[i].id == id then ps[i].(stock := ps[i].stock + ds, testerStock := ps[i].testerStock + dt)
      else ps[i])
  }

  /** Moving stock and moving it back restores every product exactly. */
  lemma MoveStockRoundTrip(ps: seq<Product>, id: string, ds: int, dt: int)
    ensures MoveStock(MoveStock(ps, id, ds, dt), id, -ds, -dt) == ps
  {
    var back := MoveStock(MoveStock(ps, id, ds, dt), id, -ds, -dt);
    assert forall i :: 0 <= i < |ps| ==> back[i] == ps[i];
  }

  /** Two moves on the same SKU add up. */
  lemma MoveStockCompose(ps: seq<Product>, id: string, a: int, b: int)
    ensures MoveStock(MoveStock(ps, id, a, 0), id, b, 0) == MoveStock(ps, id, a + b, 0)
  {
  }

  /** With unique SKUs, a product found by SKU is the only one a move touches. */
  lemma FoundIsOnlyMatch(ps: seq<Product>, id: string)
    requires UniqueSkus(ps) && FindProduct(ps, id).Some?
    ensures forall i :: 0 <= i < |ps| && ps[i].id == id ==> ps[i] == FindProduct(ps, id).value
  {
  }

  /** The product `addProduct` creates: no stock and no tester yet. */
  function NewProduct(info: ProductInfo): Product
  {
    Product(info.id, info.name, info.brand, info.gender, 0, 0, info.costPrice, info.salePrice)
  }

  function NewPurchase(id: string, input: PurchaseInput): Purchase
  {
    Purchase(id, input.productId, input.date, input.quantity, input.unitCost,
             input.supplier, input.documentType, input.documentNumber)
  }

  /** A stored sale: its total is always recomputed from price and quantity. */
  function NewSale(id: string, input: SaleInput): (s: Sale)
    ensures s.total == s.unitPrice * s.quantity
  {
    Sale(id, input.productId, input.date, input.quantity, input.unitPrice,
         input.unitPrice * input.quantity, input.customerId)
  }

  // ---------------------------------------------------------------------------
  // addMultipleSales

  /** `!(!product || product.stock < item.quantity)`: the per-line check. */
  predicate LineAccepted(ps: seq<Product>, line: SaleInput)
  {
    match FindProduct(ps, line.productId)
    case None => false
    case Some(p) => p.stock >= line.quantity
  }

  /** The batch passes when each line passes on its own. */
  predicate BatchAccepted(ps: seq<Product>, lines: seq<SaleInput>)
  {
    forall i :: 0 <= i < |lines| ==> LineAccepted(ps, lines[i])
  }

  /** The message of the first refused line: the product's name (or "producto
      desconocido" when it is missing or unnamed) and its stock (0 when missing). */
  function LineRefusal(ps: seq<Product>, line: SaleInput): LedgerError
  {
    match FindProduct(ps, line.productId)
    case None => InsufficientStockFor("producto desconocido", 0)
    case Some(p) => InsufficientStockFor(if p.name != "" then p.name else "producto desconocido", p.stock)
  }

  /** Line `k` is the first line that fails its check. */
  predicate FirstRefused(ps: seq<Product>, lines: seq<SaleInput>, k: int)
  {
    0 <= k < |lines| && !LineAccepted(ps, lines[k]) && forall j :: 0 <= j < k ==> LineAccepted(ps, lines[j])
  }

  /** The refusal of the first line that fails its check, if any does. */
  function BatchRefusal(ps: seq<Product>, lines: seq<SaleInput>): (e: Option<LedgerError>)
    ensures e.None? <==> BatchAccepted(ps, lines)
    ensures e.Some? ==> exists k :: FirstRefused(ps, lines, k) && e.value == LineRefusal(ps, lines[k])
  {
    if lines == [] then None
    else if !LineAccepted(ps, lines[0]) then
      assert FirstRefused(ps, lines, 0);
      Some(LineRefusal(ps, lines[0]))
    else
      var e := BatchRefusal(ps, lines[1..]);
      FirstRefusedShift(ps, lines, e);
      e
  }

  /** A first line that passes moves the first refusal of the rest one place on. */
  lemma FirstRefusedShift(ps: seq<Product>, lines: seq<SaleInput>, e: Option<LedgerError>)
    requires lines != [] && LineAccepted(ps, lines[0])
    requires e.None? <==> BatchAccepted(ps, lines[1..])
    requires e.Some? ==> exists k :: FirstRefused(ps, lines[1..], k) && e.value == LineRefusal(ps, lines[1..][k])
    ensures e.None? <==> BatchAccepted(ps, lines)
    ensures e.Some? ==> exists k :: FirstRefused(ps, lines, k) && e.value == LineRefusal(ps, lines[k])
  {
    assert forall k :: 1 <= k < |lines| ==> lines[k] == lines[1..][k - 1];
    if e.Some? {
      var k :| FirstRefused(ps, lines[1..], k) && e.value == LineRefusal(ps, lines[1..][k]);
      assert FirstRefused(ps, lines, k + 1);
    }
  }

  /** The first refusal from line `i` on: line `i`'s own when it fails, else the
      first refusal after it. */
  lemma RefusalFrom(ps: seq<Product>, lines: seq<SaleInput>, i: nat)
    requires i < |lines|
    ensures !LineAccepted(ps, lines[i]) ==> BatchRefusal(ps, lines[i..]) == Some(LineRefusal(ps, lines[i]))
    ensures LineAccepted(ps, lines[i]) ==> BatchRefusal(ps, lines[i..]) == BatchRefusal(ps, lines[i + 1..])
  {
    assert lines[i..][0] == lines[i];
    assert lines[i..][1..] == lines[i + 1..];
  }

  /** The checking loop of `addMultipleSales`: the first line whose product is
      missing or short of stock stops the batch with its refusal. */
  method CheckBatch(ps: seq<Product>, lines: seq<SaleInput>) returns (refusal: Option<LedgerError>)
    ensures refusal == BatchRefusal(ps, lines)
  {
    var i := 0;
    while i < |lines|
      invariant 0 <= i <= |lines|
      invariant BatchRefusal(ps, lines) == BatchRefusal(ps, lines[i..])
    {
      var product := FindProduct(ps, lines[i].productId);
      RefusalFrom(ps, lines, i);
      if product.None? || product.value.stock < lines[i].quantity {
        var name := if product.Some? && product.value.name != "" then product.value.name else "producto desconocido";
        var stock := if product.Some? then product.value.stock else 0;
        return Some(InsufficientStockFor(name, stock));
      }
      i := i + 1;
    }
    assert lines[|lines|..] == [];
    return None;
  }

  /** An accepted batch keeps the store valid: SKUs untouched, and every new sale's
      total is its price times its quantity. */
  lemma BatchKeepsValid(ps: seq<Product>, ss: seq<Sale>, lines: seq<SaleInput>, newSales: seq<Sale>)
    requires UniqueSkus(ps) && TotalsConsistent(ss)
    requires forall k :: 0 <= k < |newSales| ==> newSales[k].total == newSales[k].unitPrice * newSales[k].quantity
    ensures UniqueSkus(DeductBatch(ps, lines)) && TotalsConsistent(ss + newSales)
  {
    var all := ss + newSales;
    forall i | 0 <= i < |all|
      ensures all[i].total == all[i].unitPrice * all[i].quantity
    {
      if i >= |ss| {
        assert all[i] == newSales[i - |ss|];
      }
    }
  }

  /** `productUpdates[id]`: the summed quantity of the lines selling that SKU. */
  function QuantityFor(lines: seq<SaleInput>, id: string): int
  {
    if lines == [] then 0
    else QuantityFor(lines[..|lines| - 1], id) +
         (if lines[|lines| - 1].productId == id then lines[|lines| - 1].quantity else 0)
  }

  /** One generated sale of a batch: tagged with the batch customer when one is given. */
  function BatchSale(line: SaleInput, id: string, customerId: Option<string>): (s: Sale)
    ensures s.id == id && s.productId == line.productId && s.date == line.date
    ensures s.quantity == line.quantity && s.unitPrice == line.unitPrice
    ensures s.total == s.unitPrice * s.quantity
    ensures customerId.Some? && customerId.value != "" ==> s.customerId == customerId
    ensures customerId.None? || customerId.value == "" ==> s.customerId == line.customerId
  {
    var tagged := if customerId.Some? && customerId.value != "" then customerId else line.customerId;
    Sale(id, line.productId, line.date, line.quantity, line.unitPrice, line.unitPrice * line.quantity, tagged)
  }

  /** The stock each product has after a batch: lowered by the batch's summed quantity. */
  function DeductBatch(ps: seq<Product>, lines: seq<SaleInput>): (r: seq<Product>)
    ensures |r| == |ps| && forall i :: 0 <= i < |ps| ==> r[i].id == ps[i].id
    ensures forall i :: 0 <= i < |ps| ==> r[i].(stock := ps[i].stock) == ps[i]
    ensures forall i :: 0 <= i < |ps| ==> r[i].stock + QuantityFor(lines, ps[i].id) == ps[i].stock
  {
    seq(|ps|, i requires 0 <= i < |ps| => ps[i].(stock := ps[i].stock - QuantityFor(lines, ps[i].id)))
  }

  /** A product the batch does not name keeps its record unchanged. */
  lemma DeductBatchLeavesOthers(ps: seq<Product>, lines: seq<SaleInput>, i: nat)
    requires i < |ps|
    requires forall k :: 0 <= k < |lines| ==> lines[k].productId != ps[i].id
    ensures DeductBatch(ps, lines)[i] == ps[i]
  {
    QuantityForAbsent(lines, ps[i].id);
  }

  /** When no SKU occurs twice in the batch, its summed quantity is that of its one line. */
  lemma {:induction false} QuantityForDistinct(lines: seq<SaleInput>, k: nat)
    requires k < |lines|
    requires forall i, j :: 0 <= i < j < |lines| ==> lines[i].productId != lines[j].productId
    ensures QuantityFor(lines, lines[k].productId) == lines[k].quantity
  {
    var init := lines[..|lines| - 1];
    if k == |lines| - 1 {
      QuantityForAbsent(init, lines[k].productId);
    } else {
      QuantityForDistinct(init, k);
    }
  }

  lemma {:induction false} QuantityForAbsent(lines: seq<SaleInput>, id: string)
    requires forall i :: 0 <= i < |lines| ==> lines[i].productId != id
    ensures QuantityFor(lines, id) == 0
  {
    if lines != [] {
      QuantityForAbsent(lines[..|lines| - 1], id);
    }
  }

  /** A batch that names each SKU at most once keeps every stock non-negative. */
  lemma BatchWithDistinctSkusKeepsStock(ps: seq<Product>, lines: seq<SaleInput>)
    requires UniqueSkus(ps) && StocksNonNegative(ps) && BatchAccepted(ps, lines)
    requires forall i, j :: 0 <= i < j < |lines| ==> lines[i].productId != lines[j].productId
    ensures StocksNonNegative(DeductBatch(ps, lines))
  {
    var r := DeductBatch(ps, lines);
    forall i | 0 <= i < |ps| ensures r[i].stock >= 0 {
      if k :| 0 <= k < |lines| && lines[k].productId == ps[i].id {
        QuantityForDistinct(lines, k);
        assert LineAccepted(ps, lines[k]);
        FindProductUnique(ps, i);
      } else {
        QuantityForAbsent(lines, ps[i].id);
      }
    }
  }

  /** The batch check is per line while the deduction is summed: two lines of one
      unit each for a product holding one unit both pass, and the stock ends at -1. */
  lemma BatchCheckLetsStockGoNegative()
    ensures var ps := [Product("P1", "Eclaire", "Lattafa", Female, 1, 0, 100, 200)];
            var line := SaleInput("P1", 0, 1, 200, None);
            UniqueSkus(ps) && StocksNonNegative(ps) &&
            BatchAccepted(ps, [line, line]) &&
            DeductBatch(ps, [line, line])[0].stock == -1
  {
    var ps := [Product("P1", "Eclaire", "Lattafa", Female, 1, 0, 100, 200)];
    var line := SaleInput("P1", 0, 1, 200, None);
    assert [line, line][..1] == [line];
    assert [line][..0] == [];
    assert QuantityFor([line], "P1") == 1;
    assert QuantityFor([line, line], "P1") == 2;
  }

  /** `productUpdates[id] || 0` */
  function UpdateFor(updates: map<string, int>, id: string): int
  {
    if id in updates then updates[id] else 0
  }

  /** The second pass of `addMultipleSales`: one new sale per line, and the summed
      quantity per SKU in `productUpdates`. */
  method CollectBatch(lines: seq<SaleInput>, ids: seq<string>, customerId: Option<string>)
    returns (newSales: seq<Sale>, updates: map<string, int>)
    requires |ids| == |lines|
    ensures |newSales| == |lines|
    ensures forall k :: 0 <= k < |lines| ==> newSales[k] == BatchSale(lines[k], ids[k], customerId)
    ensures forall id :: UpdateFor(updates, id) == QuantityFor(lines, id)
  {
    newSales, updates := [], map[];
    var i := 0;
    while i < |lines|
      invariant 0 <= i <= |lines|
      invariant |newSales| == i
      invariant forall k :: 0 <= k < i ==> newSales[k] == BatchSale(lines[k], ids[k], customerId)
      invariant forall id :: UpdateFor(updates, id) == QuantityFor(lines[..i], id)
    {
      var line := lines[i];
      newSales := newSales + [BatchSale(line, ids[i], customerId)];
      updates := updates[line.productId := UpdateFor(updates, line.productId) + line.quantity];
      assert lines[..i + 1][..i] == lines[..i];
      i := i + 1;
    }
    assert lines[..|lines|] == lines;
  }

  /** The last step of `addMultipleSales`: every product with a non-zero update
      loses that many units; the result is the batch deduction. */
  method ApplyUpdates(ps: seq<Product>, updates: map<string, int>, lines: seq<SaleInput>)
    returns (r: seq<Product>)
    requires forall id :: UpdateFor(updates, id) == QuantityFor(lines, id)
    ensures r == DeductBatch(ps, lines)
  {
    r := seq(|ps|, k requires 0 <= k < |ps| =>
      if ps[k].id in updates && updates[ps[k].id] != 0
      then ps[k].(stock := ps[k].stock - updates[ps[k].id])
      else ps[k]);
    assert forall k :: 0 <= k < |ps| ==> UpdateFor(updates, ps[k].id) == QuantityFor(lines, ps[k].id);
  }

  // ---------------------------------------------------------------------------
  // Tester conversion

  /** The checks of `convertToTester`, in the order the application makes them. */
  function ConversionRefusal(ps: seq<Product>, id: string): (e: Option<LedgerError>)
    ensures e.None? <==> exists i :: 0 <= i < |ps| && ps[i].id == id &&
                                     FindProduct(ps, id) == Some(ps[i]) &&
                                     ps[i].testerStock <= 0 && ps[i].stock >= 1
  {
    match FindProduct(ps, id)
    case None => Some(ProductNotFound)
    case Some(p) =>
      if p.testerStock > 0 then Some(TesterAlreadyActive)
      else if p.stock < 1 then Some(NoSellableStock)
      else None
  }

  /** A conversion moves one unit from sellable to tester stock of the converted
      product and leaves every other product as it was, so every product's
      `stock + testerStock` is what it was. */
  lemma ConversionConservesUnits(ps: seq<Product>, id: string)
    ensures forall i :: 0 <= i < |ps| && ps[i].id != id ==> MoveStock(ps, id, -1, 1)[i] == ps[i]
    ensures forall i :: 0 <= i < |ps| && ps[i].id == id ==>
              MoveStock(ps, id, -1, 1)[i].stock == ps[i].stock - 1 &&
              MoveStock(ps, id, -1, 1)[i].testerStock == ps[i].testerStock + 1
    ensures forall i :: 0 <= i < |ps| ==>
              MoveStock(ps, id, -1, 1)[i].stock + MoveStock(ps, id, -1, 1)[i].testerStock ==
              ps[i].stock + ps[i].testerStock
  {
  }

  /** After a successful conversion the same product is refused a second one,
      because its tester is now active. */
  lemma {:induction false} SecondConversionRefused(ps: seq<Product>, id: string)
    requires UniqueSkus(ps) && StocksNonNegative(ps)
    requires ConversionRefusal(ps, id).None?
    ensures ConversionRefusal(MoveStock(ps, id, -1, 1), id) == Some(TesterAlreadyActive)
  {
    var p := FindProduct(ps, id).value;
    var i :| 0 <= i < |ps| && ps[i] == p && ps[i].id == id && forall j :: 0 <= j < i ==> ps[j].id != id;
    var moved := MoveStock(ps, id, -1, 1);
    assert moved[i].testerStock == p.testerStock + 1;
    assert forall j :: 0 <= j < i ==> moved[j].id != id;
    assert FindProduct(moved, id) == Some(moved[i]) by {
      var q := FindProduct(moved, id).value;
      var k :| 0 <= k < |moved| && moved[k] == q && moved[k].id == id && forall j :: 0 <= j < k ==> moved[j].id != id;
      assert k == i;
    }
  }

  // ---------------------------------------------------------------------------
  // The store

  /** The data provider's state: the five collections. */
  class Store {
    var products: seq<Product>
    var purchases: seq<Purchase>
    var sales: seq<Sale>
    var adjustments: seq<Adjustment>
    var customers: seq<Customer>

    /** SKUs are unique and every sale's total matches its price and quantity. */
    ghost predicate Valid()
      reads this
    {
      UniqueSkus(products) && TotalsConsistent(sales)
    }

    /** Loads the five collections (from storage or the seed data). */
    constructor (ps: seq<Product>, pus: seq<Purchase>, ss: seq<Sale>, adjs: seq<Adjustment>, cs: seq<Customer>)
      requires UniqueSkus(ps) && TotalsConsistent(ss)
      ensures Valid()
      ensures products == ps && purchases == pus && sales == ss && adjustments == adjs && customers == cs
    {
      products, purchases, sales, adjustments, customers := ps, pus, ss, adjs, cs;
    }

    /** `addProduct`: refuses a SKU already in use; otherwise appends the product
        with no stock and no tester. */
    method AddProduct(info: ProductInfo) returns (r: DataResult)
      requires Valid()
      modifies this
      ensures Valid()
      ensures r.Ok? <==> forall i :: 0 <= i < |old(products)| ==> old(products)[i].id != info.id
      ensures r.Ok? ==> products == old(products) + [NewProduct(info)]
      ensures r.Ok? ==> products[|old(products)|].stock == 0 && products[|old(products)|].testerStock == 0
      ensures r.Fail? ==> r.error == DuplicateSku(info.id) && products == old(products)
      ensures StocksNonNegative(old(products)) ==> StocksNonNegative(products)
      ensures purchases == old(purchases) && sales == old(sales)
      ensures adjustments == old(adjustments) && customers == old(customers)
    {
      if exists i :: 0 <= i < |products| && products[i].id == info.id {
        return Fail(DuplicateSku(info.id));
      }
      products := products + [NewProduct(info)];
      r := Ok;
    }

    /** `updateProduct`: overwrites name, brand, gender and prices of the product
        with that SKU, never its stock counters; an unknown SKU changes nothing
        and still succeeds. */
    method UpdateProduct(info: ProductInfo) returns (r: DataResult)
      requires Valid()
      modifies this
      ensures Valid() && r == Ok
      ensures |products| == |old(products)|
      ensures forall i :: 0 <= i < |products| ==>
                products[i] == if old(products)[i].id == info.id
                               then old(products)[i].(name := info.name, brand := info.brand, gender := info.gender,
                                                      costPrice := info.costPrice, salePrice := info.salePrice)
                               else old(products)[i]
      ensures (forall i :: 0 <= i < |old(products)| ==> old(products)[i].id != info.id) ==> products == old(products)
      ensures StocksNonNegative(old(products)) ==> StocksNonNegative(products)
      ensures purchases == old(purchases) && sales == old(sales)
      ensures adjustments == old(adjustments) && customers == old(customers)
    {
      var ps := products;
      products := seq(|ps|, i requires 0 <= i < |ps| =>
        if ps[i].id == info.id
        then ps[i].(name := info.name, brand := info.brand, gender := info.gender,
                    costPrice := info.costPrice, salePrice := info.salePrice)
        else ps[i]);
      r := Ok;
    }

    /** `deleteProduct`: removes the product; purchases, sales and adjustments that
        reference it are kept. */
    method DeleteProduct(id: string) returns (r: DataResult)
      requires Valid()
      modifies this
      ensures Valid() && r == Ok
      ensures products == Filter(old(products), ProductIdIsNot(id))
      ensures forall i :: 0 <= i < |products| ==> products[i].id != id
      ensures StocksNonNegative(old(products)) ==> StocksNonNegative(products)
      ensures purchases == old(purchases) && sales == old(sales)
      ensures adjustments == old(adjustments) && customers == old(customers)
    {
      var before := products;
      products := Filter(products, ProductIdIsNot(id));
      FilterUniqueSkus(before, id);
      r := Ok;
    }

    /** `addPurchase`: appends the purchase and raises the stock of its product by
        the purchased quantity; an unknown SKU raises nothing. */
    method AddPurchase(input: PurchaseInput, newId: string) returns (r: DataResult)
      requires Valid()
      modifies this
      ensures Valid() && r == Ok
      ensures purchases == old(purchases) + [NewPurchase(newId, input)]
      ensures products == MoveStock(old(products), input.productId, input.quantity, 0)
      ensures input.quantity >= 0 && StocksNonNegative(old(products)) ==> StocksNonNegative(products)
      ensures sales == old(sales) && adjustments == old(adjustments) && customers == old(customers)
    {
      purchases := purchases + [NewPurchase(newId, input)];
      products := MoveStock(products, input.productId, input.quantity, 0);
      r := Ok;
    }

    /** `updatePurchase`: rewrites every stored purchase carrying the original id
        (keeping that id) and moves the stock of the ORIGINAL product by the change
        in quantity, even when the product was changed.  There is no floor check. */
    method UpdatePurchase(input: PurchaseInput, original: Purchase) returns (r: DataResult)
      requires Valid()
      modifies this
      ensures Valid() && r == Ok
      ensures |purchases| == |old(purchases)|
      ensures forall i :: 0 <= i < |purchases| ==>
                purchases[i] == if old(purchases)[i].id == original.id
                                then NewPurchase(original.id, input) else old(purchases)[i]
      ensures products == MoveStock(old(products), original.productId, input.quantity - original.quantity, 0)
      ensures sales == old(sales) && adjustments == old(adjustments) && customers == old(customers)
    {
      var pus := purchases;
      purchases := seq(|pus|, i requires 0 <= i < |pus| =>
        if pus[i].id == original.id then NewPurchase(original.id, input) else pus[i]);
      products := MoveStock(products, original.productId, input.quantity - original.quantity, 0);
      r := Ok;
    }

    /** `deletePurchase`: refuses an unknown id; otherwise removes the purchase and
        lowers its product's stock by its quantity, with no floor check. */
    method DeletePurchase(id: string) returns (r: DataResult)
      requires Valid()
      modifies this
      ensures Valid()
      ensures r.Ok? <==> exists i :: 0 <= i < |old(purchases)| && old(purchases)[i].id == id
      ensures r.Fail? ==> r.error == PurchaseNotFound && purchases == old(purchases) && products == old(products)
      ensures r.Ok? ==>
                var found := FindPurchase(old(purchases), id).value;
                purchases == Filter(old(purchases), PurchaseIdIsNot(id)) &&
                products == MoveStock(old(products), found.productId, -found.quantity, 0)
      ensures sales == old(sales) && adjustments == old(adjustments) && customers == old(customers)
    {
      var found := FindPurchase(purchases, id);
      if found.None? {
        return Fail(PurchaseNotFound);
      }
      purchases := Filter(purchases, PurchaseIdIsNot(id));
      products := MoveStock(products, found.value.productId, -found.value.quantity, 0);
      r := Ok;
    }

    /** `addSale`: refuses a missing product or a stock below the quantity; otherwise
        appends the sale with its computed total and lowers that product's stock. */
    method AddSale(input: SaleInput, newId: string) returns (r: DataResult)
      requires Valid()
      modifies this
      ensures Valid()
      ensures r.Ok? <==> LineAccepted(old(products), input)
      ensures r.Ok? ==> sales == old(sales) + [NewSale(newId, input)] &&
                        products == MoveStock(old(products), input.productId, -input.quantity, 0)
      ensures r.Fail? ==> r.error == InsufficientStock && sales == old(sales) && products == old(products)
      ensures r.Ok? ==> forall i :: 0 <= i < |products| && products[i].id == input.productId ==> products[i].stock >= 0
      ensures StocksNonNegative(old(products)) ==> StocksNonNegative(products)
      ensures purchases == old(purchases) && adjustments == old(adjustments) && customers == old(customers)
    {
      var product := FindProduct(products, input.productId);
      if product.None? || product.value.stock < input.quantity {
        return Fail(InsufficientStock);
      }
      FoundIsOnlyMatch(products, input.productId);
      sales := sales + [NewSale(newId, input)];
      products := MoveStock(products, input.productId, -input.quantity, 0);
      r := Ok;
    }

    /** `addMultipleSales`: checks every line against the current stock before
        changing anything; then appends one sale per line and lowers each product's
        stock once, by the summed quantity of its lines. */
    method AddMultipleSales(lines: seq<SaleInput>, customerId: Option<string>, ids: seq<string>) returns (r: DataResult)
      requires Valid()
      requires |ids| == |lines|
      modifies this
      ensures Valid()
      ensures r.Ok? <==> BatchAccepted(old(products), lines)
      ensures r.Ok? ==> |sales| == |old(sales)| + |lines| && sales[..|old(sales)|] == old(sales) &&
                        (forall k :: 0 <= k < |lines| ==> sales[|old(sales)| + k] == BatchSale(lines[k], ids[k], customerId))
      ensures r.Ok? ==> products == DeductBatch(old(products), lines)
      ensures r.Fail? ==> Some(r.error) == BatchRefusal(old(products), lines) &&
                          sales == old(sales) && products == old(products)
      ensures purchases == old(purchases) && adjustments == old(adjustments) && customers == old(customers)
    {
      var refusal := CheckBatch(products, lines);
      if refusal.Some? {
        return Fail(refusal.value);
      }
      var newSales, updates := CollectBatch(lines, ids, customerId);
      BatchKeepsValid(products, sales, lines, newSales);
      sales := sales + newSales;
      products := ApplyUpdates(products, updates, lines);
      r := Ok;
    }

    /** `updateSale`: refuses when the original product is gone or when its stock,
        with the original quantity given back, cannot cover the new quantity;
        otherwise rewrites the sale under its id with a recomputed total and moves
        the original product's stock by the change in quantity. */
    method UpdateSale(input: SaleInput, original: Sale) returns (r: DataResult)
      requires Valid()
      modifies this
      ensures Valid()
      ensures FindProduct(old(products), original.productId).None? ==>
                r == Fail(ProductNotFound)
      ensures FindProduct(old(products), original.productId).Some? ==>
                var reverted := FindProduct(old(products), original.productId).value.stock + original.quantity;
                (r.Ok? <==> reverted >= input.quantity) &&
                (r.Fail? ==> r.error == InsufficientStockAfterRevert(reverted, input.quantity))
      ensures r.Fail? ==> sales == old(sales) && products == old(products)
      ensures r.Ok? ==> |sales| == |old(sales)| &&
                        (forall i :: 0 <= i < |sales| ==>
                           sales[i] == if old(sales)[i].id == original.id
                                       then NewSale(original.id, input) else old(sales)[i]) &&
                        products == MoveStock(old(products), original.productId, -(input.quantity - original.quantity), 0)
      ensures r.Ok? ==> forall i :: 0 <= i < |products| && products[i].id == original.productId ==> products[i].stock >= 0
      ensures StocksNonNegative(old(products)) ==> StocksNonNegative(products)
      ensures purchases == old(purchases) && adjustments == old(adjustments) && customers == old(customers)
    {
      var product := FindProduct(products, original.productId);
      if product.None? {
        return Fail(ProductNotFound);
      }
      var reverted := product.value.stock + original.quantity;
      if reverted < input.quantity {
        return Fail(InsufficientStockAfterRevert(reverted, input.quantity));
      }
      FoundIsOnlyMatch(products, original.productId);
      var ss := sales;
      sales := seq(|ss|, i requires 0 <= i < |ss| =>
        if ss[i].id == original.id then NewSale(original.id, input) else ss[i]);
      products := MoveStock(products, original.productId, -(input.quantity - original.quantity), 0);
      r := Ok;
    }

    /** `deleteSale`: refuses an unknown id; otherwise removes the sale and gives
        its quantity back to the product's stock. */
    method DeleteSale(id: string) returns (r: DataResult)
      requires Valid()
      modifies this
      ensures Valid()
      ensures r.Ok? <==> exists i :: 0 <= i < |old(sales)| && old(sales)[i].id == id
      ensures r.Fail? ==> r.error == SaleNotFound && sales == old(sales) && products == old(products)
      ensures r.Ok? ==>
                var found := FindSale(old(sales), id).value;
                sales == Filter(old(sales), SaleIdIsNot(id)) &&
                products == MoveStock(old(products), found.productId, found.quantity, 0)
      ensures purchases == old(purchases) && adjustments == old(adjustments) && customers == old(customers)
    {
      var found := FindSale(sales, id);
      if found.None? {
        return Fail(SaleNotFound);
      }
      var before := sales;
      sales := Filter(sales, SaleIdIsNot(id));
      FilterTotalsConsistent(before, id);
      products := MoveStock(products, found.value.productId, found.value.quantity, 0);
      r := Ok;
    }

    /** `convertToTester`: refuses, in this order, a missing product, a product that
        already has a tester, and a product without sellable stock; otherwise records
        a TESTER_CONVERSION of one unit at the cost price and moves one unit from
        sellable stock to tester stock. */
    method ConvertToTester(productId: string, newId: string, today: Date) returns (r: DataResult)
      requires Valid()
      modifies this
      ensures Valid()
      ensures ConversionRefusal(old(products), productId).Some? ==>
                r == Fail(ConversionRefusal(old(products), productId).value) &&
                adjustments == old(adjustments) && products == old(products)
      ensures ConversionRefusal(old(products), productId).None? ==>
                var p := FindProduct(old(products), productId).value;
                r == Ok &&
                adjustments == old(adjustments) + [Adjustment(newId, productId, today, TesterConversion, 1, p.costPrice)] &&
                products == MoveStock(old(products), productId, -1, 1)
      ensures StocksNonNegative(old(products)) ==> StocksNonNegative(products)
      ensures purchases == old(purchases) && sales == old(sales) && customers == old(customers)
    {
      var product := FindProduct(products, productId);
      if product.None? {
        return Fail(ProductNotFound);
      }
      if product.value.testerStock > 0 {
        return Fail(TesterAlreadyActive);
      }
      if product.value.stock < 1 {
        return Fail(NoSellableStock);
      }
      FoundIsOnlyMatch(products, productId);
      adjustments := adjustments + [Adjustment(newId, productId, today, TesterConversion, 1, product.value.costPrice)];
      products := MoveStock(products, productId, -1, 1);
      r := Ok;
    }

    /** `consumeTester`: refuses a missing product or one without a tester;
        otherwise records a cost-free TESTER_CONSUMED and removes the tester unit,
        leaving sellable stock alone. */
    method ConsumeTester(productId: string, newId: string, today: Date) returns (r: DataResult)
      requires Valid()
      modifies this
      ensures Valid()
      ensures FindProduct(old(products), productId).None? ==> r == Fail(ProductNotFound)
      ensures FindProduct(old(products), productId).Some? ==>
                (r.Ok? <==> FindProduct(old(products), productId).value.testerStock >= 1) &&
                (r.Fail? ==> r == Fail(NoActiveTester))
      ensures r.Fail? ==> adjustments == old(adjustments) && products == old(products)
      ensures r.Ok? ==> adjustments == old(adjustments) + [Adjustment(newId, productId, today, TesterConsumed, 1, 0)] &&
                        products == MoveStock(old(products), productId, 0, -1)
      ensures StocksNonNegative(old(products)) ==> StocksNonNegative(products)
      ensures purchases == old(purchases) && sales == old(sales) && customers == old(customers)
    {
      var product := FindProduct(products, productId);
      if product.None? {
        return Fail(ProductNotFound);
      }
      if product.value.testerStock < 1 {
        return Fail(NoActiveTester);
      }
      FoundIsOnlyMatch(products, productId);
      adjustments := adjustments + [Adjustment(newId, productId, today, TesterConsumed, 1, 0)];
      products := MoveStock(products, productId, 0, -1);
      r := Ok;
    }

    /** `addCustomer`: always succeeds and hands back the new record. */
    method AddCustomer(input: CustomerInput, newId: string) returns (r: DataResult, created: Customer)
      requires Valid()
      modifies this
      ensures Valid() && r == Ok
      ensures created == Customer(newId, input.name, input.phone, input.email, input.notes)
      ensures customers == old(customers) + [created]
      ensures products == old(products) && purchases == old(purchases)
      ensures sales == old(sales) && adjustments == old(adjustments)
    {
      created := Customer(newId, input.name, input.phone, input.email, input.notes);
      customers := customers + [created];
      r := Ok;
    }

    /** `updateCustomer`: replaces every customer carrying that id. */
    method UpdateCustomer(c: Customer) returns (r: DataResult)
      requires Valid()
      modifies this
      ensures Valid() && r == Ok
      ensures |customers| == |old(customers)|
      ensures forall i :: 0 <= i < |customers| ==>
                customers[i] == if old(customers)[i].id == c.id then c else old(customers)[i]
      ensures products == old(products) && purchases == old(purchases)
      ensures sales == old(sales) && adjustments == old(adjustments)
    {
      var cs := customers;
      customers := seq(|cs|, i requires 0 <= i < |cs| => if cs[i].id == c.id then c else cs[i]);
      r := Ok;
    }

    /** `deleteCustomer`: removes the customer; sales keep the dangling id. */
    method DeleteCustomer(id: string) returns (r: DataResult)
      requires Valid()
      modifies this
      ensures Valid() && r == Ok
      ensures customers == Filter(old(customers), CustomerIdIsNot(id))
      ensures products == old(products) && purchases == old(purchases)
      ensures sales == old(sales) && adjustments == old(adjustments)
    {
      customers := Filter(customers, CustomerIdIsNot(id));
      r := Ok;
    }

    /** Registering a purchase under a fresh id and deleting it again restores the
        purchases and every product's stock exactly. */
    method AddThenDeletePurchase(input: PurchaseInput, newId: string)
      requires Valid()
      requires forall i :: 0 <= i < |purchases| ==> purchases[i].id != newId
      modifies this
      ensures Valid()
      ensures products == old(products) && purchases == old(purchases)
      ensures sales == old(sales) && adjustments == old(adjustments) && customers == old(customers)
    {
      var before := purchases;
      var _ := AddPurchase(input, newId);
      FindByIdAppended(before, PurchaseId, NewPurchase(newId, input));
      var r := DeletePurchase(newId);
      FilterAppendOne(before, NewPurchase(newId, input), PurchaseIdIsNot(newId));
      FilterKeepsAll(before, PurchaseIdIsNot(newId));
      MoveStockRoundTrip(old(products), input.productId, input.quantity, 0);
    }

    /** A sale that is accepted under a fresh id and then deleted leaves the sales
        and every product's stock exactly as before. */
    method AddThenDeleteSale(input: SaleInput, newId: string) returns (accepted: bool)
      requires Valid()
      requires forall i :: 0 <= i < |sales| ==> sales[i].id != newId
      modifies this
      ensures Valid()
      ensures accepted <==> LineAccepted(old(products), input)
      ensures products == old(products) && sales == old(sales)
      ensures purchases == old(purchases) && adjustments == old(adjustments) && customers == old(customers)
    {
      var before := sales;
      var added := AddSale(input, newId);
      accepted := added.Ok?;
      if accepted {
        SaleRoundTrip(before, old(products), input, newId);
        var r := DeleteSale(newId);
      }
    }
  }

  /** What deleting a freshly appended sale undoes: the appended record and its
      stock movement. */
  lemma SaleRoundTrip(ss: seq<Sale>, ps: seq<Product>, input: SaleInput, newId: string)
    requires forall i :: 0 <= i < |ss| ==> ss[i].id != newId
    ensures FindSale(ss + [NewSale(newId, input)], newId) == Some(NewSale(newId, input))
    ensures Filter(ss + [NewSale(newId, input)], SaleIdIsNot(newId)) == ss
    ensures MoveStock(MoveStock(ps, input.productId, -input.quantity, 0), input.productId, input.quantity, 0) == ps
  {
    FindByIdAppended(ss, SaleId, NewSale(newId, input));
    MoveStockRoundTrip(ps, input.productId, -input.quantity, 0);
    FilterAppendOne(ss, NewSale(newId, input), SaleIdIsNot(newId));
    FilterKeepsAll(ss, SaleIdIsNot(newId));
  }

  /** Removing products keeps the remaining SKUs unique. */
  lemma {:induction false} FilterUniqueSkus(ps: seq<Product>, id: string)
    requires UniqueSkus(ps)
    ensures UniqueSkus(Filter(ps, ProductIdIsNot(id)))
    ensures StocksNonNegative(ps) ==> StocksNonNegative(Filter(ps, ProductIdIsNot(id)))
  {
    if ps != [] {
      var init, last := ps[..|ps| - 1], ps[|ps| - 1];
      FilterUniqueSkus(init, id);
      var f := Filter(init, ProductIdIsNot(id));
      forall i | 0 <= i < |f| ensures f[i].id != last.id {
        var k :| 0 <= k < |init| && init[k] == f[i];
      }
    }
  }

  lemma FilterTotalsConsistent(ss: seq<Sale>, id: string)
    requires TotalsConsistent(ss)
    ensures TotalsConsistent(Filter(ss, SaleIdIsNot(id)))
  {
  }
}
