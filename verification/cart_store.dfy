/**
 * The live cart of the storefront: the in-memory list of entries, the
 * "cart" storage slot it is mirrored to, and the "lastOrder" slot checkout
 * writes. Each mutating operation changes the list in place and then saves it.
 */
module Cart {
  import opened Wrappers
  import opened LineItems
  import opened Storage
  import opened NumberInput

  datatype Rejection = EmptyCart | MissingDetails

  datatype CheckoutOutcome = Rejected(reason: Rejection) | Completed(order: Order)

  /**
   * Where `splice(index, 1)` removes from in a list of length `n`: a negative
   * index counts back from the end, and the result is clamped to [0, n].
   */
  function SpliceStart(index: int, n: nat): (k: nat)
    ensures k <= n
    ensures 0 <= index < n ==> k == index
    ensures index < 0 && n + index >= 0 ==> k == n + index
    ensures n + index < 0 ==> k == 0
    ensures index >= n ==> k == n
  {
    if index < 0 then (if n + index < 0 then 0 else n + index)
    else if index > n then n
    else index
  }

  class CartStore {
    /** The entries, in the order they were first added. */
    var cart: seq<Item>
    /** The "cart" storage slot: None when nothing is stored. */
    var stored: Option<string>
    /** The "lastOrder" storage slot. */
    var lastOrder: Option<string>

    /** `let cart = loadCart()`: start from whatever the storage slots hold. */
    constructor (slot: Option<string>, orderSlot: Option<string>)
      ensures cart == LoadCart(slot)
      ensures stored == slot && lastOrder == orderSlot
    {
      cart := LoadCart(slot);
      stored := slot;
      lastOrder := orderSlot;
    }

    /** The storage slot holds the in-memory cart. */
    predicate Persisted()
      reads this
      ensures Persisted() ==> LoadCart(stored) == cart
    {
      LoadSaved(cart);
      stored == Some(Encode(cart))
    }

    /** saveCart(cart): overwrite the slot with the cart's JSON text. */
    method SaveCart()
      modifies this`stored
      ensures Persisted()
    {
      stored := Some(Encode(cart));
    }

    /** addToCart(product) */
    method AddToCart(p: Product)
      modifies this
      ensures cart == AddItem(old(cart), p)
      ensures Persisted() && lastOrder == old(lastOrder)
      ensures UniqueIds(old(cart)) ==> UniqueIds(cart) && Ids(cart) == Ids(old(cart)) + {p.id}
      ensures QuantitiesValid(old(cart)) ==> QuantitiesValid(cart) && ItemCount(cart) == ItemCount(old(cart)) + 1
    {
      var idx := FindIndex(cart, p.id);
      if idx > -1 {
        cart := cart[idx := cart[idx].(quantity := Some(EffectiveQuantity(cart[idx].quantity) + 1))];
      } else {
        cart := cart + [NewItem(p)];
      }
      AddItemFacts(old(cart), p);
      SaveCart();
    }

    /**
     * removeFromCart(index): `splice(index, 1)` deletes the entry at
     * SpliceStart(index, |cart|) when there is one, and nothing otherwise.
     */
    method RemoveFromCart(index: int)
      modifies this
      ensures var k := SpliceStart(index, |old(cart)|);
        && (k < |old(cart)| ==> cart == old(cart)[..k] + old(cart)[k + 1..])
        && (k == |old(cart)| ==> cart == old(cart))
        && (k < |old(cart)| ==> ItemCount(cart) == ItemCount(old(cart)) - EffectiveQuantity(old(cart)[k].quantity))
        && (k < |old(cart)| ==> Total(cart) == Total(old(cart)) - LineAmount(old(cart)[k]))
      ensures UniqueIds(old(cart)) ==> UniqueIds(cart)
      ensures QuantitiesValid(old(cart)) ==> QuantitiesValid(cart)
      ensures Persisted() && lastOrder == old(lastOrder)
    {
      var k := SpliceStart(index, |cart|);
      if k < |cart| {
        RemoveAt(cart, k);
        cart := cart[..k] + cart[k + 1..];
      }
      SaveCart();
    }

    /** updateQuantity(index, text): `Math.max(1, parseInt(text || "1", 10))` written to one entry. */
    method UpdateQuantity(index: int, text: string)
      requires 0 <= index < |cart|
      modifies this
      ensures cart == old(cart)[index := old(cart)[index].(quantity := QuantityFromInput(text))]
      ensures EffectiveQuantity(cart[index].quantity) >= 1
      ensures ItemCount(cart) == ItemCount(old(cart)) - EffectiveQuantity(old(cart)[index].quantity) + EffectiveQuantity(cart[index].quantity)
      ensures UniqueIds(old(cart)) ==> UniqueIds(cart)
      ensures QuantitiesValid(old(cart)) ==> QuantitiesValid(cart)
      ensures Persisted() && lastOrder == old(lastOrder)
    {
      var q := QuantityFromInput(text);
      WriteQuantity(index, q);
    }

    /** `cart[index].quantity = q; saveCart(cart)` for a quantity that counts at least once. */
    method WriteQuantity(index: int, q: Option<int>)
      requires 0 <= index < |cart| && EffectiveQuantity(q) >= 1
      modifies this
      ensures cart == old(cart)[index := old(cart)[index].(quantity := q)]
      ensures ItemCount(cart) == ItemCount(old(cart)) - EffectiveQuantity(old(cart)[index].quantity) + EffectiveQuantity(q)
      ensures UniqueIds(old(cart)) ==> UniqueIds(cart)
      ensures QuantitiesValid(old(cart)) ==> QuantitiesValid(cart)
      ensures Persisted() && lastOrder == old(lastOrder)
    {
      SetQuantityAt(cart, index, q);
      cart := cart[index := cart[index].(quantity := q)];
      SaveCart();
    }

    /**
     * handleCheckout: refuse an empty cart, then refuse unless name, email,
     * address and payment are all non-empty; otherwise record the order with
     * the cart as it is, then empty the cart and save it.
     */
    method HandleCheckout(name: string, email: string, address: string, payment: string, date: string)
      returns (outcome: CheckoutOutcome)
      modifies this
      ensures outcome == Rejected(EmptyCart) <==> old(cart) == []
      ensures outcome == Rejected(MissingDetails) <==>
        old(cart) != [] && (name == "" || email == "" || address == "" || payment == "")
      ensures outcome.Completed? <==>
        old(cart) != [] && name != "" && email != "" && address != "" && payment != ""
      ensures outcome.Rejected? ==> cart == old(cart) && stored == old(stored) && lastOrder == old(lastOrder)
      ensures outcome.Completed? ==>
        && outcome.order == Order(Customer(name, email, address), old(cart), payment, date)
        && lastOrder == Some(EncodeOrder(outcome.order))
        && cart == [] && stored == Some("[]") && Persisted()
    {
      if cart == [] {
        return Rejected(EmptyCart);
      }
      if name != "" && email != "" && address != "" && payment != "" {
        var order := Order(Customer(name, email, address), cart, payment, date);
        lastOrder := Some(EncodeOrder(order));
        cart := [];
        SaveCart();
        EncodeEmpty();
        outcome := Completed(order);
      } else {
        outcome := Rejected(MissingDetails);
      }
    }
  }
}
