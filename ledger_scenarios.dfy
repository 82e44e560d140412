/** Concrete runs of the ledger from small stores: a sale lowers the stock and an
    oversell is refused, a second tester conversion is refused, correcting and then
    deleting a purchase takes its units back out, a batch with one short line is
    refused whole, and three ways the ledger as written lets sellable stock fall
    below zero (deleting or lowering a purchase already sold, and a batch naming one
    product twice). */
module LedgerScenarios {
  import opened Collections
  import opened Types
  import opened Ledger

  function Perfume(id: string, stock: int, costPrice: int, salePrice: int): Product
  {
    Product(id, "Eau " + id, "Maison", Unisex, stock, 0, costPrice, salePrice)
  }

  /** A sale of 3 from a stock of 5 is accepted and records a total of 600; a
      following sale of 10 is refused and the stock stays at 2. */
  method SellThenOversell() returns (first: DataResult, second: DataResult, stock: int, total: int)
    ensures first == Ok && second == Fail(InsufficientStock)
    ensures stock == 2 && total == 600
  {
    var store := new Store([Perfume("P1", 5, 100, 200)], [], [], [], []);
    first := store.AddSale(SaleInput("P1", 10, 3, 200, None), "s1");
    assert store.products[0].stock == 2;
    second := store.AddSale(SaleInput("P1", 10, 10, 200, None), "s2");
    stock := store.products[0].stock;
    total := store.sales[0].total;
  }

  /** Converting the single unit of a product gives it a tester and records one
      conversion at the cost price; converting again is refused. */
  method ConvertTwice() returns (first: DataResult, second: DataResult, stock: int, testers: int, logged: seq<Adjustment>)
    ensures first == Ok && second == Fail(TesterAlreadyActive)
    ensures stock == 0 && testers == 1
    ensures logged == [Adjustment("a1", "P2", 20, TesterConversion, 1, 50)]
  {
    var store := new Store([Perfume("P2", 1, 50, 90)], [], [], [], []);
    first := store.ConvertToTester("P2", "a1", 20);
    second := store.ConvertToTester("P2", "a2", 21);
    stock, testers, logged := store.products[0].stock, store.products[0].testerStock, store.adjustments;
  }

  /** Receiving 4 units, correcting the purchase to 2 and then deleting it leaves
      the stock at 2 and then 0. */
  method PurchaseCorrectedThenDeleted() returns (afterUpdate: int, afterDelete: int, deleted: DataResult)
    ensures afterUpdate == 2 && afterDelete == 0 && deleted == Ok
  {
    var store := new Store([Perfume("P3", 0, 10, 30)], [], [], [], []);
    var input := PurchaseInput("P3", 30, 4, 10, "Proveedor", Boleta, "B-1");
    var _ := store.AddPurchase(input, "c1");
    var original := store.purchases[0];
    var _ := store.UpdatePurchase(input.(quantity := 2), original);
    afterUpdate := store.products[0].stock;
    assert store.purchases[0].quantity == 2;
    deleted := store.DeletePurchase("c1");
    afterDelete := store.products[0].stock;
  }

  /** A batch whose second line asks for more than its product holds is refused as
      a whole, naming that product; no stock moves and no sale is recorded. */
  method BatchRefusedAsAWhole() returns (r: DataResult, stocks: seq<int>, recorded: nat)
    ensures r == Fail(InsufficientStockFor("Eau P4", 5))
    ensures stocks == [5, 5] && recorded == 0
  {
    var store := new Store([Perfume("P1", 5, 100, 200), Perfume("P4", 5, 80, 150)], [], [], [], []);
    var lines := [SaleInput("P1", 40, 1, 200, None), SaleInput("P4", 40, 100, 150, None)];
    assert !LineAccepted(store.products, lines[1]);
    r := store.AddMultipleSales(lines, None, ["s1", "s2"]);
    stocks := [store.products[0].stock, store.products[1].stock];
    recorded := |store.sales|;
  }

  /** Selling the units of a purchase and then deleting the purchase is accepted,
      and the stock ends at -2: deletion has no floor check. */
  method DeletedPurchaseLeavesNegativeStock() returns (sold: DataResult, deleted: DataResult, stock: int)
    ensures sold == Ok && deleted == Ok
    ensures stock == -2
  {
    var store := new Store([Perfume("P5", 0, 10, 30)], [], [], [], []);
    var _ := store.AddPurchase(PurchaseInput("P5", 50, 4, 10, "Proveedor", Factura, "F-7"), "c1");
    sold := store.AddSale(SaleInput("P5", 51, 2, 30, None), "s1");
    assert store.purchases[0].id == "c1";
    deleted := store.DeletePurchase("c1");
    stock := store.products[0].stock;
  }

  /** Lowering a purchase below what has already been sold is accepted, and the
      stock ends at -1: the correction has no floor check either. */
  method CorrectedPurchaseLeavesNegativeStock() returns (sold: DataResult, stock: int)
    ensures sold == Ok && stock == -1
  {
    var store := new Store([Perfume("P6", 0, 10, 30)], [], [], [], []);
    var input := PurchaseInput("P6", 60, 3, 10, "Proveedor", Factura, "F-8");
    var _ := store.AddPurchase(input, "c1");
    sold := store.AddSale(SaleInput("P6", 61, 3, 30, None), "s1");
    var _ := store.UpdatePurchase(input.(quantity := 2), store.purchases[0]);
    stock := store.products[0].stock;
  }

  /** Two cart lines of one unit each for a product holding one unit pass the
      per-line check; both sales are recorded and the stock ends at -1. */
  method BatchOverdraw() returns (r: DataResult, stock: int, recorded: nat)
    ensures r == Ok && stock == -1 && recorded == 2
  {
    var store := new Store([Perfume("P1", 1, 100, 200)], [], [], [], []);
    var line := SaleInput("P1", 70, 1, 200, None);
    assert [line, line][..1] == [line];
    assert [line][..0] == [];
    assert QuantityFor([line], "P1") == 1;
    assert QuantityFor([line, line], "P1") == 2;
    r := store.AddMultipleSales([line, line], Some("C1"), ["s1", "s2"]);
    stock := store.products[0].stock;
    recorded := |store.sales|;
  }
}
