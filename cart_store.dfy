/** The cart state manager: the stored cart and the three operations that change
    it. Each operation reads the stored cart, looks the product up by id, changes
    the array in place or appends to it, and writes the cart back, or reports an
    error and leaves the stored cart as it was. The stock level and the catalogue
    record, which the operations fetch over the network, are parameters here. */
module Cart {
  import opened Types
  import opened CartSeq

  class CartStore {
    /** Whether a cart is stored at all (the stored blob is present). */
    var saved: bool
    /** The stored cart, in insertion order. */
    var items: seq<Product>

    /** An absent stored cart holds no products. */
    ghost predicate Valid()
      reads this
    {
      !saved ==> items == []
    }

    /** A session starts from whatever is stored: nothing, or a saved cart. */
    constructor (stored: seq<Product>, present: bool)
      requires !present ==> stored == []
      ensures Valid() && saved == present && items == stored
    {
      saved := present;
      items := stored;
    }

    /** Add one unit of product `productId`, given its current `stock` and its
        catalogue record `fetched`. A product in the cart gets one more unit
        while its amount is below the stock; a product not in the cart is
        appended with amount 1, without a stock check. */
    method AddProduct(productId: int, stock: int, fetched: ProductData) returns (r: Outcome)
      requires Valid()
      modifies this
      ensures Valid() && saved
      ensures r == Done || r == Failed(OutOfStock)
      // in the cart and below stock: exactly that line gains one unit
      ensures var i := FindIndex(old(items), productId);
        i >= 0 && old(items)[i].amount < stock ==>
          r == Done && AmountSetAt(old(items), items, i, old(items)[i].amount + 1) &&
          items[i].amount <= stock
      // in the cart and at or above stock: rejected, nothing changes
      ensures var i := FindIndex(old(items), productId);
        i >= 0 && old(items)[i].amount >= stock ==>
          r == Failed(OutOfStock) && items == old(items)
      // not in the cart (or no cart stored): the new line goes at the end
      ensures !HasId(old(items), productId) ==>
          r == Done && items == old(items) + [NewProduct(fetched)]
      ensures !old(saved) ==> items == [NewProduct(fetched)]
      ensures r == Failed(OutOfStock) ==> items == old(items)
      ensures (fetched.id == productId || HasId(old(items), productId)) && DistinctIds(old(items)) ==>
          DistinctIds(items)
    {
      if saved {
        var i := FindIndex(items, productId);
        if i > -1 {
          var updated := items[i];
          if updated.amount < stock {
            updated := updated.(amount := updated.amount + 1);
            items := items[i := updated];
            r := Done;
            AmountSetKeepsLookup(old(items), items, i, updated.amount, productId);
          } else {
            r := Failed(OutOfStock);
          }
        } else {
          if fetched.id == productId { AppendFresh(items, NewProduct(fetched)); }
          items := items + [NewProduct(fetched)];
          r := Done;
        }
      } else {
        items := [NewProduct(fetched)];
        saved := true;
        r := Done;
      }
    }

    /** Remove the first line with product `productId`. With no cart stored
        nothing happens; with a stored cart that lacks the product, an error. */
    method RemoveProduct(productId: int) returns (r: Outcome)
      requires Valid()
      modifies this
      ensures Valid() && saved == old(saved)
      ensures !old(saved) ==> r == NoStoredCart && items == old(items)
      ensures old(saved) && !HasId(old(items), productId) ==>
          r == Failed(RemoveFailed) && items == old(items)
      ensures HasId(old(items), productId) ==>
          r == Done && items == Splice(old(items), FindIndex(old(items), productId))
      // with distinct ids: the product is gone and every other product stays
      ensures r == Done ==> OtherIdsKept(old(items), items, productId)
      ensures r == Done && DistinctIds(old(items)) ==> DistinctIds(items) && !HasId(items, productId)
    {
      if saved {
        var i := FindIndex(items, productId);
        if i > -1 {
          ghost var before := items;
          items := items[..i] + items[i + 1..];  // splice(i, 1), specified by Splice
          r := Done;
          assert items == Splice(before, i) && OtherIdsKept(before, items, productId) &&
            (DistinctIds(before) ==> DistinctIds(items) && !HasId(items, productId)) by {
            SpliceFirstMatch(before, productId);
          }
        } else {
          r := Failed(RemoveFailed);
        }
      } else {
        r := NoStoredCart;
      }
    }

    /** Set the amount of product `productId` to `amount`, given its current
        `stock`. The product must be in the cart (checked first) and `amount`
        must not exceed the stock; an amount of zero or below is accepted. */
    method UpdateProductAmount(productId: int, amount: int, stock: int) returns (r: Outcome)
      requires Valid()
      modifies this
      ensures Valid() && saved == old(saved)
      ensures !old(saved) ==> r == NoStoredCart && items == old(items)
      ensures old(saved) && !HasId(old(items), productId) ==>
          r == Failed(UpdateFailed) && items == old(items)
      ensures HasId(old(items), productId) && amount > stock ==>
          r == Failed(OutOfStock) && items == old(items)
      ensures HasId(old(items), productId) && amount <= stock ==>
          r == Done && AmountSetAt(old(items), items, FindIndex(old(items), productId), amount)
      ensures DistinctIds(old(items)) ==> DistinctIds(items)
    {
      if saved {
        var i := FindIndex(items, productId);
        if i > -1 {
          var updated := items[i];
          if amount > stock {
            r := Failed(OutOfStock);
          } else {
            updated := updated.(amount := amount);
            items := items[i := updated];
            r := Done;
            AmountSetKeepsLookup(old(items), items, i, amount, productId);
          }
        } else {
          r := Failed(UpdateFailed);
        }
      } else {
        r := NoStoredCart;
      }
    }
  }

  /** A caller's view: five adds against a stock of five fill the line, a sixth
      is refused, and lowering the amount is accepted while raising it above the
      stock is not. */
  method StockLimitScenario(shoe: ProductData)
  {
    var cart := new CartStore([], false);
    var r := cart.AddProduct(shoe.id, 5, shoe);
    assert r == Done && cart.items == [NewProduct(shoe)];
    var n := 1;
    while n < 5
      invariant 1 <= n <= 5 && cart.Valid() && cart.saved
      invariant cart.items == [NewProduct(shoe).(amount := n)]
    {
      assert FindIndex(cart.items, shoe.id) == 0 by { FindIndexUnique(cart.items, 0); }
      r := cart.AddProduct(shoe.id, 5, shoe);
      n := n + 1;
    }
    assert FindIndex(cart.items, shoe.id) == 0 by { FindIndexUnique(cart.items, 0); }
    r := cart.AddProduct(shoe.id, 5, shoe);
    assert r == Failed(OutOfStock) && cart.items[0].amount == 5;
    r := cart.UpdateProductAmount(shoe.id, 10, 5);
    assert r == Failed(OutOfStock) && cart.items[0].amount == 5;
    r := cart.UpdateProductAmount(shoe.id, 2, 5);
    assert r == Done && cart.items == [NewProduct(shoe).(amount := 2)];
    r := cart.RemoveProduct(shoe.id);
    assert r == Done && cart.items == [] && cart.saved;
    r := cart.RemoveProduct(shoe.id);
    assert r == Failed(RemoveFailed);
  }
}
