/** The records and enumerations of the application (src/types.ts), and the
    `find(x => x.id === id)` lookups every screen performs on them.

    Amounts are whole currency units and dates are day numbers: a date compares
    with another exactly as the `YYYY-MM-DD` strings the application stores. */
module Types {
  import opened Collections

  datatype Gender = Male | Female | Unisex

  /** The string value each gender is stored and compared as. */
  function GenderLabel(g: Gender): string
  {
    match g
    case Male => "HOMBRE"
    case Female => "MUJER"
    case Unisex => "UNISEX"
  }

  datatype DocumentType = Factura | Boleta | GuiaDespacho | Otro

  function DocumentTypeLabel(t: DocumentType): string
  {
    match t
    case Factura => "FACTURA"
    case Boleta => "BOLETA"
    case GuiaDespacho => "GUIA DE DESPACHO"
    case Otro => "OTRO"
  }

  datatype AdjustmentType = TesterConversion | TesterConsumed

  function AdjustmentTypeLabel(t: AdjustmentType): string
  {
    match t
    case TesterConversion => "CONVERSION_TESTER"
    case TesterConsumed => "CONSUMO_TESTER"
  }

  /** The three enumerations have exactly the members the application lists,
      and their stored strings tell the members apart. */
  lemma EnumerationsAreClosed(g: Gender, d: DocumentType, a: AdjustmentType)
    ensures g == Male || g == Female || g == Unisex
    ensures d == Factura || d == Boleta || d == GuiaDespacho || d == Otro
    ensures a == TesterConversion || a == TesterConsumed
    ensures forall h: Gender :: GenderLabel(h) == GenderLabel(g) ==> h == g
    ensures forall e: DocumentType :: DocumentTypeLabel(e) == DocumentTypeLabel(d) ==> e == d
    ensures forall b: AdjustmentType :: AdjustmentTypeLabel(b) == AdjustmentTypeLabel(a) ==> b == a
  {
  }

  type Date = int

  /** A product; `id` is its SKU. Sellable stock and tester stock are kept apart. */
  datatype Product = Product(
    id: string,
    name: string,
    brand: string,
    gender: Gender,
    stock: int,
    testerStock: int,
    costPrice: int,
    salePrice: int)

  datatype Purchase = Purchase(
    id: string,
    productId: string,
    date: Date,
    quantity: int,
    unitCost: int,
    supplier: string,
    documentType: DocumentType,
    documentNumber: string)

  /** A sale stores its `total`; `customerId` is absent for walk-in customers. */
  datatype Sale = Sale(
    id: string,
    productId: string,
    date: Date,
    quantity: int,
    unitPrice: int,
    total: int,
    customerId: Option<string>)

  datatype Adjustment = Adjustment(
    id: string,
    productId: string,
    date: Date,
    kind: AdjustmentType,
    quantity: int,
    cost: int)

  datatype Customer = Customer(
    id: string,
    name: string,
    phone: string,
    email: string,
    notes: string)

  /** A date within `[start, end]`; the views extend the end to the last moment of
      its day, so the whole end day is included. */
  predicate InRange(d: Date, start: Date, end: Date)
  {
    start <= d <= end
  }

  /** The date filters of the views over sales, purchases and tester conversions. */
  function SaleInRange(start: Date, end: Date): Sale -> bool
  {
    (s: Sale) => InRange(s.date, start, end)
  }

  function PurchaseInRange(start: Date, end: Date): Purchase -> bool
  {
    (p: Purchase) => InRange(p.date, start, end)
  }

  function ConversionInRange(start: Date, end: Date): Adjustment -> bool
  {
    (a: Adjustment) => InRange(a.date, start, end) && a.kind == TesterConversion
  }

  /** The amount each record contributes to the money totals of the views. */
  function SaleTotal(s: Sale): int { s.total }
  function PurchaseCost(p: Purchase): int { p.unitCost * p.quantity }
  function AdjustmentCost(a: Adjustment): int { a.cost }

  /** `xs.find(x => x.id === id)` for any record whose id is `idOf(x)`: the first
      record with that id, or nothing when no record has it. */
  function FindById<T>(xs: seq<T>, idOf: T -> string, id: string): (r: Option<T>)
    ensures r.None? <==> forall i :: 0 <= i < |xs| ==> idOf(xs[i]) != id
    ensures r.Some? ==> exists i :: 0 <= i < |xs| && xs[i] == r.value && idOf(xs[i]) == id &&
                                    forall j :: 0 <= j < i ==> idOf(xs[j]) != id
  {
    if xs == [] then None
    else if idOf(xs[0]) == id then Some(xs[0])
    else
      var r := FindById(xs[1..], idOf, id);
      assert r.Some? ==> exists i :: 1 <= i < |xs| && xs[i] == r.value && idOf(xs[i]) == id &&
                                     forall j :: 0 <= j < i ==> idOf(xs[j]) != id by {
        if r.Some? {
          var i :| 0 <= i < |xs[1..]| && xs[1..][i] == r.value && idOf(xs[1..][i]) == id &&
                   forall j :: 0 <= j < i ==> idOf(xs[1..][j]) != id;
          assert xs[i + 1] == r.value;
          assert forall j :: 1 <= j < i + 1 ==> idOf(xs[j]) != id by {
            forall j | 1 <= j < i + 1 ensures idOf(xs[j]) != id {
              assert xs[j] == xs[1..][j - 1];
            }
          }
        }
      }
      r
  }

  /** A record appended under an id no earlier record has is the one the lookup
      finds. */
  lemma {:induction false} FindByIdAppended<T>(xs: seq<T>, idOf: T -> string, x: T)
    requires forall i :: 0 <= i < |xs| ==> idOf(xs[i]) != idOf(x)
    ensures FindById(xs + [x], idOf, idOf(x)) == Some(x)
  {
    if xs != [] {
      FindByIdAppended(xs[1..], idOf, x);
      assert (xs + [x])[1..] == xs[1..] + [x];
    }
  }

  function ProductId(p: Product): string { p.id }
  function CustomerId(c: Customer): string { c.id }
  function PurchaseId(p: Purchase): string { p.id }
  function SaleId(s: Sale): string { s.id }

  /** `products.find(p => p.id === id)`: the first product with that SKU. */
  function FindProduct(ps: seq<Product>, id: string): (r: Option<Product>)
    ensures r.None? <==> forall i :: 0 <= i < |ps| ==> ps[i].id != id
    ensures r.Some? ==> exists i :: 0 <= i < |ps| && ps[i] == r.value && ps[i].id == id &&
                                    forall j :: 0 <= j < i ==> ps[j].id != id
  {
    FindById(ps, ProductId, id)
  }

  /** The display name of a referenced product, or `fallback` when the SKU no
      longer resolves (`product ? product.name : fallback`). */
  function ProductNameOr(ps: seq<Product>, id: string, fallback: string): string
  {
    match FindProduct(ps, id)
    case Some(p) => p.name
    case None => fallback
  }

  /** `product?.name || fallback`: as above, but an empty name also falls back. */
  function ProductNameOrIfBlank(ps: seq<Product>, id: string, fallback: string): string
  {
    match FindProduct(ps, id)
    case Some(p) => if p.name != "" then p.name else fallback
    case None => fallback
  }

  /** `customers.find(c => c.id === id)`. */
  function FindCustomer(cs: seq<Customer>, id: string): Option<Customer>
  {
    FindById(cs, CustomerId, id)
  }

  /** `purchases.find(p => p.id === id)`. */
  function FindPurchase(ps: seq<Purchase>, id: string): Option<Purchase>
  {
    FindById(ps, PurchaseId, id)
  }

  /** `sales.find(s => s.id === id)`. */
  function FindSale(ss: seq<Sale>, id: string): Option<Sale>
  {
    FindById(ss, SaleId, id)
  }

  /** No two products share a SKU. */
  ghost predicate UniqueSkus(ps: seq<Product>)
  {
    forall i, j :: 0 <= i < j < |ps| ==> ps[i].id != ps[j].id
  }

  /** With unique SKUs the lookup returns the one product carrying the SKU. */
  lemma FindProductUnique(ps: seq<Product>, k: nat)
    requires UniqueSkus(ps) && k < |ps|
    ensures FindProduct(ps, ps[k].id) == Some(ps[k])
  {
  }
}
