/**
 * What the storefront keeps in its storage slots: the cart under "cart", as
 * saveCart writes it with JSON.stringify and loadCart reads it back with
 * JSON.parse, and the last order under "lastOrder", as checkout writes it.
 */
module Storage {
  import opened Wrappers
  import opened Json
  import opened LineItems

  datatype Customer = Customer(name: string, email: string, address: string)

  /** The record checkout saves; `date` is the clock's rendering, taken as given. */
  datatype Order = Order(customer: Customer, items: seq<Item>, payment: string, date: string)

  // ---------------------------------------------------------------- writing

  /** A quantity that is not a number (NaN) is written as null. */
  function QuantityValue(q: Option<int>): Value {
    match q
    case None => Null
    case Some(n) => Number(n)
  }

  /** The keys in the order `{...product, quantity: 1}` creates them; an absent image has no key. */
  function ItemMembers(it: Item): seq<(string, Value)> {
    var head := [("id", Str(it.id))] + [("name", Str(it.name))] + [("price", Number(it.price))];
    var withImage := match it.image
      case None => head
      case Some(s) => head + [("image", Str(s))];
    withImage + [("quantity", QuantityValue(it.quantity))]
  }

  function ItemValues(c: seq<Item>): (vs: seq<Value>)
    ensures |vs| == |c|
  {
    if c == [] then [] else [Object(ItemMembers(c[0]))] + ItemValues(c[1..])
  }

  function CartValue(c: seq<Item>): Value {
    Array(ItemValues(c))
  }

  /** JSON.stringify(cart), the text saveCart stores. */
  function Encode(c: seq<Item>): (text: string)
    ensures Parse(text) == Some(CartValue(c))
  {
    ParseSerialize(CartValue(c));
    Serialize(CartValue(c))
  }

  /** `{customer: {name, email, address}, items: cart, payment, date}` */
  function OrderValue(o: Order): Value {
    var customer := Object([("name", Str(o.customer.name)), ("email", Str(o.customer.email)), ("address", Str(o.customer.address))]);
    Object([("customer", customer), ("items", CartValue(o.items)), ("payment", Str(o.payment)), ("date", Str(o.date))])
  }

  /** JSON.stringify(order), the text checkout stores under "lastOrder". */
  function EncodeOrder(o: Order): (text: string)
    ensures Parse(text) == Some(OrderValue(o))
  {
    ParseSerialize(OrderValue(o));
    Serialize(OrderValue(o))
  }

  // ---------------------------------------------------------------- reading

  /** A property of a parsed object: JSON.parse keeps the last of repeated keys; None when absent. */
  function Lookup(ms: seq<(string, Value)>, key: string): Option<Value>
    decreases |ms|
  {
    if ms == [] then None
    else if ms[|ms| - 1].0 == key then Some(ms[|ms| - 1].1)
    else Lookup(ms[..|ms| - 1], key)
  }

  function StringField(ms: seq<(string, Value)>, key: string): Option<string> {
    match Lookup(ms, key)
    case Some(Str(s)) => Some(s)
    case _ => None
  }

  function NumberField(ms: seq<(string, Value)>, key: string): Option<int> {
    match Lookup(ms, key)
    case Some(Number(n)) => Some(n)
    case _ => None
  }

  /** An absent image; a string; or (None) a value the entry type does not hold. */
  function ImageField(ms: seq<(string, Value)>): Option<Option<string>> {
    match Lookup(ms, "image")
    case None => Some(None)
    case Some(Str(s)) => Some(Some(s))
    case _ => None
  }

  /** An absent or null quantity reads as NaN; a number as itself; anything else is not held. */
  function QuantityField(ms: seq<(string, Value)>): Option<Option<int>> {
    match Lookup(ms, "quantity")
    case None => Some(None)
    case Some(Null) => Some(None)
    case Some(Number(n)) => Some(Some(n))
    case _ => None
  }

  /** A parsed cart entry, when it has the fields an entry has. */
  function ToItem(v: Value): Option<Item> {
    match v
    case Object(ms) =>
      var id :- StringField(ms, "id");
      var name :- StringField(ms, "name");
      var price :- NumberField(ms, "price");
      var image :- ImageField(ms);
      var quantity :- QuantityField(ms);
      Some(Item(id, name, price, image, quantity))
    case _ => None
  }

  function ToItems(vs: seq<Value>): (r: Option<seq<Item>>)
    ensures r.Some? ==> |r.value| == |vs|
  {
    if vs == [] then Some([])
    else
      var first :- ToItem(vs[0]);
      var more :- ToItems(vs[1..]);
      Some([first] + more)
  }

  /** A parsed cart: an array of entries. */
  function ToCart(v: Value): Option<seq<Item>> {
    match v
    case Array(elems) => ToItems(elems)
    case _ => None
  }

  /** The values JavaScript's `||` treats as false. */
  predicate Falsy(v: Value) {
    v == Null || v == Bool(false) || v == Number(0) || v == Str("")
  }

  /**
   * loadCart: `JSON.parse(slot) || []`, and [] when JSON.parse throws. An
   * absent slot parses as null. A truthy value that is not an array of
   * entries is outside what a cart can hold and also gives [].
   */
  function LoadCart(slot: Option<string>): (c: seq<Item>)
    ensures c != [] ==> slot.Some? && Parse(slot.value).Some? && ToCart(Parse(slot.value).value) == Some(c)
  {
    match slot
    case None => []
    case Some(text) =>
      match Parse(text)
      case None => []
      case Some(v) =>
        if Falsy(v) then []
        else
          match ToCart(v)
          case None => []
          case Some(c) => c
  }

  // ---------------------------------------------------------------- lemmas

  /** Appending a member makes it the value of its key and leaves other keys alone. */
  lemma LookupSnoc(ms: seq<(string, Value)>, m: (string, Value))
    ensures forall key :: Lookup(ms + [m], key) == if m.0 == key then Some(m.1) else Lookup(ms, key)
  {
    assert (ms + [m])[..|ms|] == ms;
  }

  /** The lookups of an entry's first three properties, whatever follows them. */
  lemma HeadLookups(it: Item)
    ensures var head := [("id", Str(it.id))] + [("name", Str(it.name))] + [("price", Number(it.price))];
      && Lookup(head, "id") == Some(Str(it.id))
      && Lookup(head, "name") == Some(Str(it.name))
      && Lookup(head, "price") == Some(Number(it.price))
      && Lookup(head, "image") == None
      && Lookup(head, "quantity") == None
  {
    var m0, m1, m2 := ("id", Str(it.id)), ("name", Str(it.name)), ("price", Number(it.price));
    assert Lookup([], "id") == None;
    assert [m0] == [] + [m0];
    LookupSnoc([], m0);
    LookupSnoc([m0], m1);
    LookupSnoc([m0] + [m1], m2);
    assert "price"[0] != "image"[0] && "name"[0] != "id"[0];
  }

  /** The saved array holds, at each position, the JSON object of the entry there. */
  lemma {:induction false} ItemValuesAt(c: seq<Item>)
    ensures forall i :: 0 <= i < |c| ==> ItemValues(c)[i] == Object(ItemMembers(c[i]))
    decreases |c|
  {
    if c != [] {
      ItemValuesAt(c[1..]);
      assert forall i :: 1 <= i < |c| ==> c[i] == c[1..][i - 1];
    }
  }

  /** An entry's properties read back as the entry's fields. */
  lemma ItemRead(it: Item)
    ensures ToItem(Object(ItemMembers(it))) == Some(it)
  {
    var head := [("id", Str(it.id))] + [("name", Str(it.name))] + [("price", Number(it.price))];
    var last := ("quantity", QuantityValue(it.quantity));
    HeadLookups(it);
    match it.image
    case None =>
      assert ItemMembers(it) == head + [last];
      LookupSnoc(head, last);
    case Some(s) =>
      var m3 := ("image", Str(s));
      assert ItemMembers(it) == head + [m3] + [last];
      LookupSnoc(head, m3);
      LookupSnoc(head + [m3], last);
      assert Lookup(ItemMembers(it), "image") == Some(Str(s));
  }

  lemma {:induction false} ItemsRead(c: seq<Item>)
    ensures ToItems(ItemValues(c)) == Some(c)
  {
    if c != [] {
      var vs := ItemValues(c);
      assert vs[0] == Object(ItemMembers(c[0])) && vs[1..] == ItemValues(c[1..]);
      ItemRead(c[0]);
      ItemsRead(c[1..]);
      assert [c[0]] + c[1..] == c;
    }
  }

  lemma CartRead(c: seq<Item>)
    ensures ToCart(CartValue(c)) == Some(c)
  {
    ItemsRead(c);
  }

  /** The empty cart is saved as `[]`. */
  lemma EncodeEmpty()
    ensures Encode([]) == "[]"
  {
    assert ItemValues([]) == [];
  }

  /** Loading what saveCart wrote gives back the saved cart: same entries, same order, same fields. */
  lemma LoadSaved(c: seq<Item>)
    ensures LoadCart(Some(Encode(c))) == c
  {
    ParseSerialize(CartValue(c));
    CartRead(c);
  }

  /** Two different carts are never saved as the same text. */
  lemma EncodeInjective(a: seq<Item>, b: seq<Item>)
    requires Encode(a) == Encode(b)
    ensures a == b
  {
    LoadSaved(a);
    LoadSaved(b);
  }

  /** An absent slot, a text JSON.parse rejects, and a null all load as the empty cart. */
  lemma LoadFallsBack()
    ensures LoadCart(None) == []
    ensures LoadCart(Some("")) == []
    ensures LoadCart(Some("null")) == []
  {
    LiteralRoundTrip("null", []);
    assert "null" == "null" + [];
  }

  /** Every text JSON.parse rejects, and every value that is falsy or is not an array of entries, loads as the empty cart. */
  lemma LoadRejects(text: string)
    ensures Parse(text).None? ==> LoadCart(Some(text)) == []
    ensures Parse(text).Some? && (Falsy(Parse(text).value) || ToCart(Parse(text).value).None?) ==> LoadCart(Some(text)) == []
  {
  }

  /** The saved order holds the cart as it was at checkout, and it reads back. */
  lemma SavedOrderItems(o: Order)
    ensures Parse(EncodeOrder(o)) == Some(OrderValue(o))
    ensures Lookup(OrderValue(o).members, "items") == Some(CartValue(o.items))
  {
    ParseSerialize(OrderValue(o));
    var ms := OrderValue(o).members;
    var firstTwo := [ms[0]] + [ms[1]];
    LookupSnoc([ms[0]], ms[1]);
    LookupSnoc(firstTwo, ms[2]);
    LookupSnoc(firstTwo + [ms[2]], ms[3]);
    assert ms == firstTwo + [ms[2]] + [ms[3]];
    assert "items"[0] != "date"[0] && "items"[0] != "payment"[0];
  }
}
