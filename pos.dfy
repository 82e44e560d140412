/** The point-of-sale screen (pages/POS.tsx): a cart of product lines that the
    cashier fills, adjusts and finally sends to the ledger as one batch sale. */
module PointOfSale {
  import opened Collections
  import opened Types
  import opened Text
  import opened Ledger

  /** A cart line; `stock` is the product's stock when the line was created. */
  datatype CartItem = CartItem(
    productId: string, quantity: int, name: string, brand: string, unitPrice: int, stock: int)

  /** The cart invariant: one line per product, each with a quantity between 1 and
      the stock the line recorded. */
  ghost predicate CartValid(cart: seq<CartItem>)
  {
    (forall i, j :: 0 <= i < j < |cart| ==> cart[i].productId != cart[j].productId) &&
    (forall i :: 0 <= i < |cart| ==> 1 <= cart[i].quantity <= cart[i].stock)
  }

  function LineProductId(item: CartItem): string { item.productId }

  /** `prevCart.find(item => item.productId === id)`: the first line of the product. */
  function FindLine(cart: seq<CartItem>, id: string): (r: Option<CartItem>)
    ensures r.None? <==> forall i :: 0 <= i < |cart| ==> cart[i].productId != id
    ensures r.Some? ==> exists i :: 0 <= i < |cart| && cart[i] == r.value && cart[i].productId == id &&
                                    forall j :: 0 <= j < i ==> cart[j].productId != id
  {
    FindById(cart, LineProductId, id)
  }

  /** In a valid cart the line found for an id is the one line carrying it. */
  lemma FindLineUnique(cart: seq<CartItem>, k: nat)
    requires CartValid(cart) && k < |cart|
    ensures FindLine(cart, cart[k].productId) == Some(cart[k])
  {
  }

  /** The line a product starts with: one unit at its sale price. */
  function NewLine(p: Product): CartItem
  {
    CartItem(p.id, 1, p.name, p.brand, p.salePrice, p.stock)
  }

  /** `addToCart(product)`: nothing for a product whose stock is 0; one more unit on
      its line while the line is below the product's stock; a new one-unit line for
      a product not yet in the cart. */
  function WithProductAdded(cart: seq<CartItem>, p: Product): (r: seq<CartItem>)
    ensures p.stock == 0 ==> r == cart
    ensures p.stock != 0 && FindLine(cart, p.id).None? ==> r == cart + [NewLine(p)]
    ensures FindLine(cart, p.id).Some? ==> |r| == |cart|
  {
    if p.stock == 0 then cart
    else match FindLine(cart, p.id)
      case None => cart + [NewLine(p)]
      case Some(line) =>
        if line.quantity < p.stock
        then seq(|cart|, i requires 0 <= i < |cart| =>
               if cart[i].productId == p.id then cart[i].(quantity := cart[i].quantity + 1) else cart[i])
        else cart
  }

  /** On a valid cart, adding a product already in it touches only that line, and
      by exactly one unit, and only while the line is below the product's stock. */
  lemma AddToCartIncrements(cart: seq<CartItem>, p: Product, k: nat)
    requires CartValid(cart) && k < |cart| && cart[k].productId == p.id && p.stock != 0
    ensures WithProductAdded(cart, p) ==
            if cart[k].quantity < p.stock then cart[k := cart[k].(quantity := cart[k].quantity + 1)] else cart
  {
    FindLineUnique(cart, k);
  }

  /** Adding a product keeps the cart valid as long as the product's stock is not
      negative and matches the stock its line recorded. */
  lemma AddToCartKeepsValid(cart: seq<CartItem>, p: Product)
    requires CartValid(cart) && p.stock >= 0
    requires forall i :: 0 <= i < |cart| && cart[i].productId == p.id ==> cart[i].stock == p.stock
    ensures CartValid(WithProductAdded(cart, p))
  {
    if p.stock != 0 && FindLine(cart, p.id).Some? {
      var k :| 0 <= k < |cart| && cart[k].productId == p.id;
      AddToCartIncrements(cart, p, k);
      if cart[k].quantity < p.stock {
        IncrementKeepsValid(cart, k);
      }
    }
  }

  /** One more unit on a line below its recorded stock keeps the cart valid. */
  lemma IncrementKeepsValid(cart: seq<CartItem>, k: nat)
    requires CartValid(cart) && k < |cart| && cart[k].quantity < cart[k].stock
    ensures CartValid(cart[k := cart[k].(quantity := cart[k].quantity + 1)])
  {
    var r := cart[k := cart[k].(quantity := cart[k].quantity + 1)];
    assert forall i :: 0 <= i < |r| ==> r[i].productId == cart[i].productId;
  }

  /** The amount a line adds to the cart total. */
  function LineTotal(item: CartItem): int
  {
    item.unitPrice * item.quantity
  }

  /** `cartTotal`: the sum of unit price times quantity over the cart. */
  function CartTotal(cart: seq<CartItem>): int
  {
    Sum(cart, LineTotal)
  }

  /** An accepted add raises the total by one unit price: the sale price for a
      product not yet in the cart, the line's own price for one already in it. */
  lemma AddToCartTotal(cart: seq<CartItem>, p: Product)
    requires CartValid(cart)
    ensures p.stock == 0 ==> CartTotal(WithProductAdded(cart, p)) == CartTotal(cart)
    ensures p.stock != 0 && FindLine(cart, p.id).None? ==>
              CartTotal(WithProductAdded(cart, p)) == CartTotal(cart) + p.salePrice
    ensures forall k :: 0 <= k < |cart| && cart[k].productId == p.id && p.stock != 0 ==>
              CartTotal(WithProductAdded(cart, p)) ==
              CartTotal(cart) + (if cart[k].quantity < p.stock then cart[k].unitPrice else 0)
  {
    if p.stock != 0 && FindLine(cart, p.id).None? {
      SumAppendOne(cart, NewLine(p), LineTotal);
    }
    forall k | 0 <= k < |cart| && cart[k].productId == p.id && p.stock != 0
      ensures CartTotal(WithProductAdded(cart, p)) ==
              CartTotal(cart) + (if cart[k].quantity < p.stock then cart[k].unitPrice else 0)
    {
      IncrementTotal(cart, p, k);
    }
  }

  lemma IncrementTotal(cart: seq<CartItem>, p: Product, k: nat)
    requires CartValid(cart) && k < |cart| && cart[k].productId == p.id && p.stock != 0
    ensures CartTotal(WithProductAdded(cart, p)) ==
            CartTotal(cart) + (if cart[k].quantity < p.stock then cart[k].unitPrice else 0)
  {
    AddToCartIncrements(cart, p, k);
    if cart[k].quantity < p.stock {
      OneMoreUnit(cart, k);
    }
  }

  /** One more unit on a line adds its unit price to the cart total. */
  lemma OneMoreUnit(cart: seq<CartItem>, k: nat)
    requires k < |cart|
    ensures CartTotal(cart[k := cart[k].(quantity := cart[k].quantity + 1)]) == CartTotal(cart) + cart[k].unitPrice
  {
    var line := cart[k].(quantity := cart[k].quantity + 1);
    SumUpdate(cart, k, line, LineTotal);
    var u, q := line.unitPrice, cart[k].quantity;
    assert u * (q + 1) == u * q + u;
  }

  /** The line after `updateQuantity(productId, n)`: n when it is positive and
      within the recorded stock, the recorded stock when n exceeds it, and the line
      unchanged otherwise. */
  function SetQuantity(item: CartItem, productId: string, n: int): CartItem
  {
    if item.productId == productId && n > 0 && n <= item.stock then item.(quantity := n)
    else if item.productId == productId && n > item.stock then item.(quantity := item.stock)
    else item
  }

  /** `updateQuantity(productId, n)`: every line passes through `SetQuantity`, then
      lines without a positive quantity are dropped. */
  function WithQuantity(cart: seq<CartItem>, productId: string, n: int): (r: seq<CartItem>)
    ensures |r| <= |cart|
    ensures forall i :: 0 <= i < |r| ==> r[i].quantity > 0
  {
    Filter(QuantitySet(cart, productId, n), (item: CartItem) => item.quantity > 0)
  }

  /** The lines of a cart after `SetQuantity`, before anything is dropped. */
  function QuantitySet(cart: seq<CartItem>, productId: string, n: int): (r: seq<CartItem>)
    ensures |r| == |cart|
    ensures forall i :: 0 <= i < |cart| ==> r[i] == SetQuantity(cart[i], productId, n)
  {
    seq(|cart|, i requires 0 <= i < |cart| => SetQuantity(cart[i], productId, n))
  }

  /** On a valid cart no line is dropped. */
  lemma UpdateQuantityDropsNothing(cart: seq<CartItem>, productId: string, n: int)
    requires CartValid(cart)
    ensures WithQuantity(cart, productId, n) == QuantitySet(cart, productId, n)
  {
    FilterKeepsAll(QuantitySet(cart, productId, n), (item: CartItem) => item.quantity > 0);
  }

  /** On a valid cart the product's line takes the requested quantity, clamped to
      its recorded stock, or stays as it was for n <= 0; every other line is
      untouched, and a product not in the cart changes nothing. */
  lemma UpdateQuantityOnValidCart(cart: seq<CartItem>, productId: string, n: int)
    requires CartValid(cart)
    ensures forall k :: 0 <= k < |cart| && cart[k].productId == productId ==>
              WithQuantity(cart, productId, n) ==
              cart[k := cart[k].(quantity := if 0 < n <= cart[k].stock then n
                                            else if n > cart[k].stock then cart[k].stock
                                            else cart[k].quantity)]
    ensures (forall k :: 0 <= k < |cart| ==> cart[k].productId != productId) ==> WithQuantity(cart, productId, n) == cart
  {
    UpdateQuantityDropsNothing(cart, productId, n);
    forall k | 0 <= k < |cart| && cart[k].productId == productId
      ensures QuantitySet(cart, productId, n) ==
              cart[k := cart[k].(quantity := if 0 < n <= cart[k].stock then n
                                            else if n > cart[k].stock then cart[k].stock
                                            else cart[k].quantity)]
    {
      QuantitySetOneLine(cart, productId, n, k);
    }
    if forall k :: 0 <= k < |cart| ==> cart[k].productId != productId {
      assert QuantitySet(cart, productId, n) == cart;
    }
  }

  /** With one line per product, a quantity change rewrites only the product's line. */
  lemma QuantitySetOneLine(cart: seq<CartItem>, productId: string, n: int, k: nat)
    requires forall i, j :: 0 <= i < j < |cart| ==> cart[i].productId != cart[j].productId
    requires k < |cart| && cart[k].productId == productId
    ensures QuantitySet(cart, productId, n) ==
            cart[k := cart[k].(quantity := if 0 < n <= cart[k].stock then n
                                          else if n > cart[k].stock then cart[k].stock
                                          else cart[k].quantity)]
  {
    var r := QuantitySet(cart, productId, n);
    forall i | 0 <= i < |cart| && i != k
      ensures r[i] == cart[i]
    {
      assert cart[i].productId != productId by {
        if i < k { assert cart[i].productId != cart[k].productId; }
        else { assert cart[k].productId != cart[i].productId; }
      }
    }
  }

  /** Changing a quantity keeps the cart valid. */
  lemma UpdateQuantityKeepsValid(cart: seq<CartItem>, productId: string, n: int)
    requires CartValid(cart)
    ensures CartValid(WithQuantity(cart, productId, n))
  {
    UpdateQuantityDropsNothing(cart, productId, n);
    var r := QuantitySet(cart, productId, n);
    forall i | 0 <= i < |r|
      ensures r[i].productId == cart[i].productId && 1 <= r[i].quantity <= r[i].stock
    {
      SetQuantityInBounds(cart[i], productId, n);
    }
  }

  /** A quantity change keeps a line's product and its quantity between 1 and the
      recorded stock. */
  lemma SetQuantityInBounds(item: CartItem, productId: string, n: int)
    requires 1 <= item.quantity <= item.stock
    ensures var r := SetQuantity(item, productId, n);
            r.productId == item.productId && 1 <= r.quantity <= r.stock
  {
  }

  /** `removeFromCart(productId)`: the lines of other products, in their order. */
  function WithoutProduct(cart: seq<CartItem>, productId: string): (r: seq<CartItem>)
    ensures forall i :: 0 <= i < |r| ==> r[i].productId != productId && r[i] in cart
    ensures forall i :: 0 <= i < |cart| && cart[i].productId != productId ==> cart[i] in r
    ensures (forall i :: 0 <= i < |cart| ==> cart[i].productId != productId) ==> r == cart
  {
    var keep := (item: CartItem) => item.productId != productId;
    if forall i :: 0 <= i < |cart| ==> keep(cart[i]) then
      FilterKeepsAll(cart, keep);
      Filter(cart, keep)
    else
      Filter(cart, keep)
  }

  /** Removing a product keeps the cart valid and takes exactly its line's amount
      off the total. */
  lemma RemoveFromCartKeepsValid(cart: seq<CartItem>, productId: string)
    requires CartValid(cart)
    ensures CartValid(WithoutProduct(cart, productId))
    ensures forall k :: 0 <= k < |cart| && cart[k].productId == productId ==>
              WithoutProduct(cart, productId) == cart[..k] + cart[k + 1..] &&
              CartTotal(WithoutProduct(cart, productId)) == CartTotal(cart) - LineTotal(cart[k])
  {
    FilterKeepsDistinct(cart, (item: CartItem) => item.productId != productId, (item: CartItem) => item.productId);
    forall k | 0 <= k < |cart| && cart[k].productId == productId
      ensures WithoutProduct(cart, productId) == cart[..k] + cart[k + 1..]
      ensures CartTotal(WithoutProduct(cart, productId)) == CartTotal(cart) - LineTotal(cart[k])
    {
      FilterRemovesOne(cart, (item: CartItem) => item.productId != productId, k);
      SumRemove(cart, k, LineTotal);
    }
  }

  /** The batch sent to the ledger: one line per cart item with its product,
      quantity and unit price, dated today and without a customer of its own. */
  function SaleLines(cart: seq<CartItem>, today: Date): (lines: seq<SaleInput>)
    ensures |lines| == |cart|
    ensures forall i :: 0 <= i < |cart| ==>
              lines[i].productId == cart[i].productId && lines[i].quantity == cart[i].quantity &&
              lines[i].unitPrice == cart[i].unitPrice && lines[i].date == today && lines[i].customerId.None?
  {
    seq(|cart|, i requires 0 <= i < |cart| =>
      SaleInput(cart[i].productId, today, cart[i].quantity, cart[i].unitPrice, None))
  }

  /** `selectedCustomerId || undefined`. */
  function CustomerChoice(selected: string): (r: Option<string>)
    ensures r.None? <==> selected == ""
  {
    if selected != "" then Some(selected) else None
  }

  /** The sales a finalized cart records add up to the cart total. */
  lemma FinalizedSalesTotal(cart: seq<CartItem>, today: Date, ids: seq<string>, customerId: Option<string>)
    requires |ids| == |cart|
    ensures var lines := SaleLines(cart, today);
            Sum(seq(|cart|, k requires 0 <= k < |cart| => BatchSale(lines[k], ids[k], customerId)), (s: Sale) => s.total)
            == CartTotal(cart)
  {
    var lines := SaleLines(cart, today);
    var recorded := seq(|cart|, k requires 0 <= k < |cart| => BatchSale(lines[k], ids[k], customerId));
    SumPointwise(recorded, cart, (s: Sale) => s.total, LineTotal);
  }

  /** Every line of the cart still records the product's current stock. */
  ghost predicate SnapshotsCurrent(cart: seq<CartItem>, ps: seq<Product>)
  {
    forall i :: 0 <= i < |cart| ==>
      FindProduct(ps, cart[i].productId).Some? && FindProduct(ps, cart[i].productId).value.stock == cart[i].stock
  }

  /** A valid cart whose recorded stocks are current is accepted by the ledger, and
      since it names each product once, the batch keeps every stock non-negative. */
  lemma ValidCartSellsSafely(cart: seq<CartItem>, ps: seq<Product>, today: Date)
    requires CartValid(cart) && SnapshotsCurrent(cart, ps)
    requires UniqueSkus(ps) && StocksNonNegative(ps)
    ensures BatchAccepted(ps, SaleLines(cart, today))
    ensures StocksNonNegative(DeductBatch(ps, SaleLines(cart, today)))
  {
    var lines := SaleLines(cart, today);
    assert forall i :: 0 <= i < |lines| ==> LineAccepted(ps, lines[i]);
    BatchWithDistinctSkusKeepsStock(ps, lines);
  }

  /** `filteredProducts`: every product for an empty term, otherwise those whose
      name, SKU or brand contains the term, ignoring case. */
  function SearchProducts(ps: seq<Product>, term: string): (r: seq<Product>)
    ensures term == "" ==> r == ps
    ensures term != "" ==> forall i :: 0 <= i < |r| ==>
              r[i] in ps && (MatchesTerm(r[i].name, term) || MatchesTerm(r[i].id, term) || MatchesTerm(r[i].brand, term))
    ensures term != "" ==> forall i :: 0 <= i < |ps| ==>
              (MatchesTerm(ps[i].name, term) || MatchesTerm(ps[i].id, term) || MatchesTerm(ps[i].brand, term)) ==>
              ps[i] in r
  {
    if term == "" then ps
    else Filter(ps, (p: Product) => MatchesTerm(p.name, term) || MatchesTerm(p.id, term) || MatchesTerm(p.brand, term))
  }

  /** The screen's state: the cart and the customer chosen for the sale. */
  class Register {
    var cart: seq<CartItem>
    var selectedCustomerId: string

    constructor ()
      ensures cart == [] && selectedCustomerId == ""
    {
      cart, selectedCustomerId := [], "";
    }

    method AddToCart(p: Product)
      modifies this
      ensures cart == WithProductAdded(old(cart), p)
      ensures selectedCustomerId == old(selectedCustomerId)
    {
      if p.stock == 0 {
        return;
      }
      var existing := FindLine(cart, p.id);
      if existing.Some? {
        if existing.value.quantity < p.stock {
          var c := cart;
          cart := seq(|c|, i requires 0 <= i < |c| =>
            if c[i].productId == p.id then c[i].(quantity := c[i].quantity + 1) else c[i]);
        }
        return;
      }
      cart := cart + [NewLine(p)];
    }

    method UpdateQuantity(productId: string, n: int)
      modifies this
      ensures cart == WithQuantity(old(cart), productId, n)
      ensures selectedCustomerId == old(selectedCustomerId)
    {
      var c := cart;
      cart := Filter(QuantitySet(c, productId, n), (item: CartItem) => item.quantity > 0);
    }

    method RemoveFromCart(productId: string)
      modifies this
      ensures cart == WithoutProduct(old(cart), productId)
      ensures selectedCustomerId == old(selectedCustomerId)
    {
      cart := Filter(cart, (item: CartItem) => item.productId != productId);
    }

    /** `clearCart`: nothing for an empty cart; otherwise the cart is emptied when
        the cashier confirms. */
    method ClearCart(confirmed: bool)
      modifies this
      ensures old(cart) != [] && confirmed ==> cart == []
      ensures old(cart) == [] || !confirmed ==> cart == old(cart)
      ensures selectedCustomerId == old(selectedCustomerId)
    {
      if cart == [] {
        return;
      }
      if confirmed {
        cart := [];
      }
    }

    /** Choosing a customer in the selector, or the one just created in the quick-add form. */
    method SelectCustomer(id: string)
      modifies this
      ensures selectedCustomerId == id && cart == old(cart)
    {
      selectedCustomerId := id;
    }

    /** `handleFinalizeSale`: nothing for an empty cart; otherwise the cart goes to
        the ledger as one batch for the selected customer, and the cart and the
        customer are cleared only when the ledger accepts it. */
    method FinalizeSale(store: Store, today: Date, ids: seq<string>) returns (r: Option<DataResult>)
      requires store.Valid() && |ids| == |cart|
      modifies this, store
      ensures store.Valid()
      ensures old(cart) == [] ==>
                r.None? && cart == old(cart) && selectedCustomerId == old(selectedCustomerId) &&
                store.products == old(store.products) && store.sales == old(store.sales)
      ensures old(cart) != [] ==> r.Some? && (r.value.Ok? <==> BatchAccepted(old(store.products), SaleLines(old(cart), today)))
      ensures r == Some(Ok) ==>
                cart == [] && selectedCustomerId == "" &&
                store.products == DeductBatch(old(store.products), SaleLines(old(cart), today)) &&
                store.sales == old(store.sales) +
                  seq(|old(cart)|, k requires 0 <= k < |old(cart)| && k < |ids| =>
                    BatchSale(SaleLines(old(cart), today)[k], ids[k], CustomerChoice(old(selectedCustomerId)))) &&
                Sum(store.sales[|old(store.sales)|..], (s: Sale) => s.total) == CartTotal(old(cart))
      ensures r.Some? && r.value.Fail? ==>
                cart == old(cart) && selectedCustomerId == old(selectedCustomerId) &&
                store.products == old(store.products) && store.sales == old(store.sales)
      ensures store.purchases == old(store.purchases) && store.adjustments == old(store.adjustments)
      ensures store.customers == old(store.customers)
    {
      if cart == [] {
        return None;
      }
      var lines := SaleLines(cart, today);
      var customerId := CustomerChoice(selectedCustomerId);
      var before := store.sales;
      var result := store.AddMultipleSales(lines, customerId, ids);
      r := Some(result);
      if result.Ok? {
        var c := cart;
        var recorded := seq(|c|, k requires 0 <= k < |c| => BatchSale(lines[k], ids[k], customerId));
        assert store.sales[|before|..] == recorded;
        assert store.sales == before + recorded;
        FinalizedSalesTotal(c, today, ids, customerId);
        cart, selectedCustomerId := [], "";
      }
    }
  }
}
