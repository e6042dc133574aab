/**
 * Cart entries and the pure computations on a cart: the item count, the
 * total, the search by id, and what addToCart, removeFromCart and
 * updateQuantity do to the sequence of entries.
 */
module LineItems {
  import opened Wrappers

  /** What addToCart is given: `{id, name, price, image?}`. Prices are integers (minor units). */
  datatype Product = Product(id: string, name: string, price: int, image: Option<string>)

  /**
   * One cart entry. A `quantity` of `None` is a quantity that is not a number:
   * NaN in memory, `null` once written as JSON.
   */
  datatype Item = Item(id: string, name: string, price: int, image: Option<string>, quantity: Option<int>)

  /** `quantity || 1`: a missing, NaN or zero quantity counts as 1. */
  function EffectiveQuantity(q: Option<int>): (n: int)
    ensures n != 0
  {
    match q
    case None => 1
    case Some(v) => if v == 0 then 1 else v
  }

  /** `{...product, quantity: 1}` */
  function NewItem(p: Product): (it: Item)
    ensures it.id == p.id && it.name == p.name && it.price == p.price && it.image == p.image
    ensures EffectiveQuantity(it.quantity) == 1
  {
    Item(p.id, p.name, p.price, p.image, Some(1))
  }

  /** Every entry counts at least once. */
  predicate QuantitiesValid(c: seq<Item>) {
    forall i :: 0 <= i < |c| ==> EffectiveQuantity(c[i].quantity) >= 1
  }

  /** At most one entry per product id. */
  predicate UniqueIds(c: seq<Item>) {
    forall i, j :: 0 <= i < j < |c| ==> c[i].id != c[j].id
  }

  predicate PricesNonNegative(c: seq<Item>) {
    forall i :: 0 <= i < |c| ==> c[i].price >= 0
  }

  function Ids(c: seq<Item>): set<string> {
    set i | 0 <= i < |c| :: c[i].id
  }

  /** cartItemCount: the left fold `sum + (quantity || 1)` from 0. */
  function ItemCount(c: seq<Item>): (n: int)
    ensures QuantitiesValid(c) ==> n >= |c|
  {
    if c == [] then 0 else ItemCount(c[..|c| - 1]) + EffectiveQuantity(c[|c| - 1].quantity)
  }

  /** One entry's contribution to the total: `price * (quantity || 1)`. */
  function LineAmount(it: Item): (a: int)
    ensures it.price >= 0 && EffectiveQuantity(it.quantity) >= 1 ==> a >= it.price
  {
    it.price * EffectiveQuantity(it.quantity)
  }

  /** cartTotal: the left fold `sum + price * (quantity || 1)` from 0. */
  function Total(c: seq<Item>): (t: int)
    ensures PricesNonNegative(c) && QuantitiesValid(c) ==> t >= 0
  {
    if c == [] then 0 else Total(c[..|c| - 1]) + LineAmount(c[|c| - 1])
  }

  /** The count of two carts put end to end is the sum of their counts. */
  lemma {:induction false} ItemCountAppend(a: seq<Item>, b: seq<Item>)
    ensures ItemCount(a + b) == ItemCount(a) + ItemCount(b)
    decreases |b|
  {
    if b == [] {
      assert a + b == a;
    } else {
      var ab := a + b;
      assert ab[..|ab| - 1] == a + b[..|b| - 1];
      assert ab[|ab| - 1] == b[|b| - 1];
      ItemCountAppend(a, b[..|b| - 1]);
    }
  }

  /** The total of two carts put end to end is the sum of their totals. */
  lemma {:induction false} TotalAppend(a: seq<Item>, b: seq<Item>)
    ensures Total(a + b) == Total(a) + Total(b)
    decreases |b|
  {
    if b == [] {
      assert a + b == a;
    } else {
      var ab := a + b;
      assert ab[..|ab| - 1] == a + b[..|b| - 1];
      assert ab[|ab| - 1] == b[|b| - 1];
      TotalAppend(a, b[..|b| - 1]);
    }
  }

  /** The count and the total of a cart, split around its entry at `k`. */
  lemma SplitAt(c: seq<Item>, k: nat)
    requires k < |c|
    ensures ItemCount(c) == ItemCount(c[..k]) + EffectiveQuantity(c[k].quantity) + ItemCount(c[k + 1..])
    ensures Total(c) == Total(c[..k]) + LineAmount(c[k]) + Total(c[k + 1..])
  {
    var front, back := c[..k] + [c[k]], c[k + 1..];
    assert c == front + back;
    assert front[..k] == c[..k];
    ItemCountAppend(front, back);
    TotalAppend(front, back);
  }

  /** Replacing one entry changes the count and the total by the difference between the two entries. */
  lemma ReplaceAt(c: seq<Item>, k: nat, x: Item)
    requires k < |c|
    ensures ItemCount(c[k := x]) == ItemCount(c) - EffectiveQuantity(c[k].quantity) + EffectiveQuantity(x.quantity)
    ensures Total(c[k := x]) == Total(c) - LineAmount(c[k]) + LineAmount(x)
  {
    var d := c[k := x];
    assert d[..k] == c[..k] && d[k + 1..] == c[k + 1..];
    SplitAt(c, k);
    SplitAt(d, k);
  }

  /**
   * Setting one entry's quantity changes the count by the difference of the
   * two quantities, and keeps ids unique and, for a quantity counting at
   * least once, quantities valid.
   */
  lemma SetQuantityAt(c: seq<Item>, k: nat, q: Option<int>)
    requires k < |c|
    ensures ItemCount(c[k := c[k].(quantity := q)]) == ItemCount(c) - EffectiveQuantity(c[k].quantity) + EffectiveQuantity(q)
    ensures UniqueIds(c) ==> UniqueIds(c[k := c[k].(quantity := q)])
    ensures QuantitiesValid(c) && EffectiveQuantity(q) >= 1 ==> QuantitiesValid(c[k := c[k].(quantity := q)])
  {
    ReplaceAt(c, k, c[k].(quantity := q));
  }

  /**
   * Deleting one entry lowers the count by its quantity and the total by its
   * line amount, and keeps ids unique and quantities valid.
   */
  lemma RemoveAt(c: seq<Item>, k: nat)
    requires k < |c|
    ensures ItemCount(c[..k] + c[k + 1..]) == ItemCount(c) - EffectiveQuantity(c[k].quantity)
    ensures Total(c[..k] + c[k + 1..]) == Total(c) - LineAmount(c[k])
    ensures UniqueIds(c) ==> UniqueIds(c[..k] + c[k + 1..])
    ensures QuantitiesValid(c) ==> QuantitiesValid(c[..k] + c[k + 1..])
  {
    RemoveAtSums(c, k);
    RemoveAtKeeps(c, k);
  }

  lemma RemoveAtSums(c: seq<Item>, k: nat)
    requires k < |c|
    ensures ItemCount(c[..k] + c[k + 1..]) == ItemCount(c) - EffectiveQuantity(c[k].quantity)
    ensures Total(c[..k] + c[k + 1..]) == Total(c) - LineAmount(c[k])
  {
    SplitAt(c, k);
    ItemCountAppend(c[..k], c[k + 1..]);
    TotalAppend(c[..k], c[k + 1..]);
  }

  lemma RemoveAtKeeps(c: seq<Item>, k: nat)
    requires k < |c|
    ensures UniqueIds(c) ==> UniqueIds(c[..k] + c[k + 1..])
    ensures QuantitiesValid(c) ==> QuantitiesValid(c[..k] + c[k + 1..])
  {
    var d := c[..k] + c[k + 1..];
    assert forall j :: 0 <= j < |d| ==> d[j] == c[if j < k then j else j + 1];
  }

  /** `findIndex(p => p.id === id)`: the first position holding `id`, or -1. */
  function IndexOfId(c: seq<Item>, id: string): (k: int)
    ensures -1 <= k < |c|
    ensures k >= 0 ==> c[k].id == id && forall j :: 0 <= j < k ==> c[j].id != id
    ensures k == -1 <==> id !in Ids(c)
  {
    if c == [] then -1
    else if c[0].id == id then 0
    else
      var k := IndexOfId(c[1..], id);
      assert forall j :: 1 <= j < |c| ==> c[j] == c[1..][j - 1];
      if k == -1 then -1 else k + 1
  }

  /** The search addToCart runs over the cart, front to back. */
  method FindIndex(c: seq<Item>, id: string) returns (k: int)
    ensures k == IndexOfId(c, id)
  {
    k := 0;
    while k < |c| && c[k].id != id
      invariant 0 <= k <= |c|
      invariant forall j :: 0 <= j < k ==> c[j].id != id
    {
      k := k + 1;
    }
    if k == |c| {
      k := -1;
    }
  }

  /** The entry after addToCart finds it again: `(quantity || 1) + 1`. */
  function Bumped(it: Item): (b: Item)
    ensures b.id == it.id && b.name == it.name && b.price == it.price && b.image == it.image
    ensures EffectiveQuantity(it.quantity) >= 1 ==> EffectiveQuantity(b.quantity) == EffectiveQuantity(it.quantity) + 1
  {
    it.(quantity := Some(EffectiveQuantity(it.quantity) + 1))
  }

  /** addToCart on the sequence of entries: merge into the first entry with the id, else append. */
  function AddItem(c: seq<Item>, p: Product): (r: seq<Item>)
    ensures |r| == if p.id in Ids(c) then |c| else |c| + 1
    ensures p.id in Ids(r)
  {
    var k := IndexOfId(c, p.id);
    if k >= 0 then
      var r := c[k := Bumped(c[k])];
      assert r[k].id == p.id;
      r
    else
      var r := c + [NewItem(p)];
      assert r[|c|].id == p.id;
      r
  }

  /**
   * Adding a product already present keeps the length, raises the quantity of
   * the first entry with its id to `(quantity || 1) + 1`, and leaves every
   * other entry as it was.
   */
  lemma AddMerges(c: seq<Item>, p: Product)
    requires p.id in Ids(c)
    ensures var k := IndexOfId(c, p.id);
      && 0 <= k && c[k].id == p.id
      && |AddItem(c, p)| == |c|
      && AddItem(c, p)[k] == c[k].(quantity := Some(EffectiveQuantity(c[k].quantity) + 1))
      && forall j :: 0 <= j < |c| && j != k ==> AddItem(c, p)[j] == c[j]
  {
  }

  /** Adding a product not present appends exactly `{...product, quantity: 1}`. */
  lemma AddAppends(c: seq<Item>, p: Product)
    requires p.id !in Ids(c)
    ensures AddItem(c, p) == c + [NewItem(p)]
  {
  }

  /** addToCart keeps one entry per id, and afterwards the ids are those before plus the product's. */
  lemma AddKeepsUniqueIds(c: seq<Item>, p: Product)
    requires UniqueIds(c)
    ensures UniqueIds(AddItem(c, p))
    ensures Ids(AddItem(c, p)) == Ids(c) + {p.id}
  {
    var r := AddItem(c, p);
    var k := IndexOfId(c, p.id);
    if k >= 0 {
      assert forall j :: 0 <= j < |c| ==> r[j].id == c[j].id;
      assert Ids(r) == Ids(c);
    } else {
      assert r[|c|].id == p.id;
      assert forall j :: 0 <= j < |c| ==> r[j] == c[j];
      assert Ids(r) == Ids(c) + {p.id};
    }
  }

  /** addToCart keeps every quantity counting at least once. */
  lemma AddKeepsQuantitiesValid(c: seq<Item>, p: Product)
    requires QuantitiesValid(c)
    ensures QuantitiesValid(AddItem(c, p))
  {
  }

  /** Every addToCart raises the item count by exactly one. */
  lemma AddIncrementsCount(c: seq<Item>, p: Product)
    requires QuantitiesValid(c)
    ensures ItemCount(AddItem(c, p)) == ItemCount(c) + 1
  {
    var k := IndexOfId(c, p.id);
    if k >= 0 {
      ReplaceAt(c, k, Bumped(c[k]));
    } else {
      ItemCountAppend(c, [NewItem(p)]);
      assert [NewItem(p)][..0] == [];
    }
  }

  /**
   * Why AddIncrementsCount needs valid quantities: merging into an entry whose
   * stored quantity is -1 writes 0, which counts as 1, so the count rises by 2.
   */
  lemma AddAfterMinusOne(it: Item, p: Product)
    requires it.id == p.id && it.quantity == Some(-1)
    ensures AddItem([it], p) == [it.(quantity := Some(0))]
    ensures ItemCount(AddItem([it], p)) == ItemCount([it]) + 2
  {
    assert IndexOfId([it], p.id) == 0;
    assert [it][..0] == [] && [it.(quantity := Some(0))][..0] == [];
  }

  /** addToCart raises the total by the unit price of the entry it merged into or appended. */
  lemma AddRaisesTotal(c: seq<Item>, p: Product)
    requires QuantitiesValid(c)
    ensures var k := IndexOfId(c, p.id);
      Total(AddItem(c, p)) == Total(c) + (if k >= 0 then c[k].price else p.price)
  {
    var k := IndexOfId(c, p.id);
    if k >= 0 {
      assert AddItem(c, p) == c[k := Bumped(c[k])];
      assert EffectiveQuantity(c[k].quantity) >= 1;
      MergedTotal(c, k);
    } else {
      assert AddItem(c, p) == c + [NewItem(p)];
      AppendedTotal(c, NewItem(p));
    }
  }

  lemma MergedTotal(c: seq<Item>, k: nat)
    requires k < |c| && EffectiveQuantity(c[k].quantity) >= 1
    ensures Total(c[k := Bumped(c[k])]) == Total(c) + c[k].price
  {
    ReplaceAt(c, k, Bumped(c[k]));
    BumpedLineAmount(c[k]);
  }

  lemma AppendedTotal(c: seq<Item>, it: Item)
    ensures Total(c + [it]) == Total(c) + LineAmount(it)
  {
    TotalAppend(c, [it]);
    assert [it][..0] == [];
  }

  lemma BumpedLineAmount(it: Item)
    requires EffectiveQuantity(it.quantity) >= 1
    ensures LineAmount(Bumped(it)) == LineAmount(it) + it.price
  {
    var q := EffectiveQuantity(it.quantity);
    assert it.price * (q + 1) == it.price * q + it.price;
  }

  /** What addToCart keeps: one entry per id, and every quantity counting at least once, with one more in all. */
  lemma AddItemFacts(c: seq<Item>, p: Product)
    ensures UniqueIds(c) ==> UniqueIds(AddItem(c, p)) && Ids(AddItem(c, p)) == Ids(c) + {p.id}
    ensures QuantitiesValid(c) ==> QuantitiesValid(AddItem(c, p)) && ItemCount(AddItem(c, p)) == ItemCount(c) + 1
  {
    if UniqueIds(c) {
      AddKeepsUniqueIds(c, p);
    }
    if QuantitiesValid(c) {
      AddKeepsQuantitiesValid(c, p);
      AddIncrementsCount(c, p);
    }
  }

  /** A run of addToCart calls, in order. */
  function AddAll(c: seq<Item>, ps: seq<Product>): seq<Item>
    decreases |ps|
  {
    if ps == [] then c else AddAll(AddItem(c, ps[0]), ps[1..])
  }

  function ProductIds(ps: seq<Product>): set<string> {
    set i | 0 <= i < |ps| :: ps[i].id
  }

  /** Each of n additions raises the count by one. */
  lemma {:induction false} AddAllCount(c: seq<Item>, ps: seq<Product>)
    requires QuantitiesValid(c)
    ensures QuantitiesValid(AddAll(c, ps))
    ensures ItemCount(AddAll(c, ps)) == ItemCount(c) + |ps|
    decreases |ps|
  {
    if ps != [] {
      AddIncrementsCount(c, ps[0]);
      AddKeepsQuantitiesValid(c, ps[0]);
      AddAllCount(AddItem(c, ps[0]), ps[1..]);
    }
  }

  /** A run of additions keeps one entry per id and ends with the ids before plus those added. */
  lemma {:induction false} AddAllIds(c: seq<Item>, ps: seq<Product>)
    requires UniqueIds(c)
    ensures UniqueIds(AddAll(c, ps))
    ensures Ids(AddAll(c, ps)) == Ids(c) + ProductIds(ps)
    decreases |ps|
  {
    if ps != [] {
      AddKeepsUniqueIds(c, ps[0]);
      AddAllIds(AddItem(c, ps[0]), ps[1..]);
      assert ProductIds(ps) == {ps[0].id} + ProductIds(ps[1..]) by {
        assert forall i :: 1 <= i < |ps| ==> ps[i] == ps[1..][i - 1];
      }
    }
  }

  /** With one entry per id, the number of entries is the number of ids. */
  lemma {:induction false} UniqueIdsCardinality(c: seq<Item>)
    requires UniqueIds(c)
    ensures |Ids(c)| == |c|
    decreases |c|
  {
    if c != [] {
      var init := c[..|c| - 1];
      UniqueIdsCardinality(init);
      assert Ids(c) == Ids(init) + {c[|c| - 1].id};
      assert c[|c| - 1].id !in Ids(init);
    }
  }

  /** Starting from an empty cart, n additions give a count of n and one entry per distinct id. */
  lemma AddsFromEmpty(ps: seq<Product>)
    ensures ItemCount(AddAll([], ps)) == |ps|
    ensures |AddAll([], ps)| == |ProductIds(ps)|
  {
    AddAllCount([], ps);
    AddAllIds([], ps);
    UniqueIdsCardinality(AddAll([], ps));
    assert Ids([]) == {};
  }
}
