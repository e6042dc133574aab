# Storefront cart — a Dafny model

This project models the shopping cart of a small static storefront, `Ecommerce/js/script.js`.
The page keeps the cart in memory as a list of entries `{id, name, price, image?, quantity}`.
Each change is mirrored to the browser storage slot `"cart"` as JSON text, and the cart is
read back from that slot when the page loads. The operations modelled are:

- `addToCart`: merges into the first entry with the product's id, or appends a new entry
  with quantity 1.
- `removeFromCart`: `splice(index, 1)`.
- `updateQuantity`: `Math.max(1, parseInt(text || "1", 10))` written to one entry.
- The item count and the total: folds that count a missing, NaN or zero quantity as 1.
- Checkout: rejects an empty cart or a missing detail. Otherwise it writes the order as
  JSON under `"lastOrder"` and empties the cart.

Modules:

- `Wrappers`: `Option`, usable with `:-`.
- `Decimal`: decimal writing and reading of integers.
- `NumberInput`: JavaScript's `parseInt(s, 10)` and the quantity field's clamp.
- `LineItems`: entries, count, total, the id search, and what each operation does to the
  sequence of entries, with the lemmas about them.
- `Json`: the JSON values the page stores, `JSON.stringify` as `Serialize` and
  `JSON.parse` as `Parse`, and the round trip between them.
- `Storage`: how a cart and an order become JSON values, and `loadCart`.
- `Cart`: the class `CartStore`. Its fields are the in-memory cart and the two storage slots.
  Its methods change them in place as the page's functions do.

In three places the code behaves in a way one might not expect; the model follows the code:

- Checkout refuses a field only when it is empty. A field of blanks is accepted, because
  JavaScript's `&&` tests truthiness.
- `updateQuantity` given text that is not a number stores NaN (`None` here), not 1. NaN
  then counts as 1 in the count and the total.
- `removeFromCart` has the full `splice` behaviour:
  - a negative index counts from the end;
  - an index past the end removes nothing.

## Model

| member | source | states |
|---|---|---|
| LineItems.NewItem | Ecommerce/js/script.js:32 | `{...product, quantity: 1}` keeps the product's fields and counts exactly once |
| LineItems.Bumped | Ecommerce/js/script.js:30 | `(quantity \|\| 1) + 1` keeps every other field and, for a quantity counting at least once, counts one more |
| LineItems.LineAmount | Ecommerce/js/script.js:55 | `price * (quantity \|\| 1)` is at least the price when the price is non-negative and the quantity counts at least once |
| LineItems.AddItem | Ecommerce/js/script.js:28-32 | addToCart on the entries: the length grows by one exactly when the id was absent, and the id is present afterwards |
| LineItems.EffectiveQuantity | Ecommerce/js/script.js:17 | `quantity \|\| 1` is never 0: missing, NaN and 0 count as 1 |
| LineItems.ItemCount | Ecommerce/js/script.js:16-18 | the count of a cart whose quantities each count at least once is at least its number of entries |
| LineItems.Total | Ecommerce/js/script.js:54-56 | with non-negative prices and valid quantities the total is non-negative |
| LineItems.ItemCountAppend | Ecommerce/js/script.js:16-18 | the count is additive over concatenation |
| LineItems.TotalAppend | Ecommerce/js/script.js:54-56 | the total is additive over concatenation |
| LineItems.SplitAt | Ecommerce/js/script.js:16-18 | count and total split around any entry |
| LineItems.ReplaceAt | Ecommerce/js/script.js:54-56 | replacing one entry changes count and total by the difference of the two entries |
| LineItems.SetQuantityAt | Ecommerce/js/script.js:48 | writing one quantity changes the count by the difference of the quantities and keeps ids unique; it keeps quantities valid when the written quantity counts at least once |
| LineItems.RemoveAt | Ecommerce/js/script.js:40 | deleting an entry lowers the count by its quantity and the total by its line amount; unique ids and valid quantities are kept |
| LineItems.RemoveAtSums | Ecommerce/js/script.js:40 | the count and total half of RemoveAt |
| LineItems.RemoveAtKeeps | Ecommerce/js/script.js:40 | the invariant half of RemoveAt |
| LineItems.IndexOfId | Ecommerce/js/script.js:28 | `findIndex` gives the first position holding the id, and -1 exactly when the id is absent |
| LineItems.FindIndex | Ecommerce/js/script.js:28 | the front-to-back search loop returns IndexOfId |
| LineItems.AddMerges | Ecommerce/js/script.js:28-30 | adding a present id keeps the length, raises the first matching entry's quantity to `(quantity \|\| 1) + 1`, and leaves the other entries alone |
| LineItems.AddAppends | Ecommerce/js/script.js:31-32 | adding an absent id appends exactly `{...product, quantity: 1}` |
| LineItems.AddKeepsUniqueIds | Ecommerce/js/script.js:26-33 | adding keeps one entry per id; the ids become the old ids plus the product's |
| LineItems.AddKeepsQuantitiesValid | Ecommerce/js/script.js:26-33 | adding keeps every quantity counting at least once |
| LineItems.AddIncrementsCount | Ecommerce/js/script.js:26-33 | for quantities counting at least once, each addition raises the item count by exactly one |
| LineItems.AddAfterMinusOne | Ecommerce/js/script.js:30 | a stored quantity of -1 becomes 0 on merge, and the count rises by 2 |
| LineItems.AddRaisesTotal | Ecommerce/js/script.js:26-33 | for quantities counting at least once, each addition raises the total by the unit price of the merged or appended entry |
| LineItems.MergedTotal | Ecommerce/js/script.js:30 | bumping one entry whose quantity counts at least once raises the total by its price |
| LineItems.AppendedTotal | Ecommerce/js/script.js:32 | appending an entry raises the total by its line amount |
| LineItems.BumpedLineAmount | Ecommerce/js/script.js:30 | for a quantity counting at least once, a bumped entry's line amount grows by its price |
| LineItems.AddItemFacts | Ecommerce/js/script.js:26-33 | the unique-ids and count facts of an addition together |
| LineItems.AddAllCount | Ecommerce/js/script.js:26-33 | for quantities counting at least once, n additions raise the count by n and keep them counting at least once |
| LineItems.AddAllIds | Ecommerce/js/script.js:26-33 | a run of additions keeps ids unique; the ids become the old ones plus the added ones |
| LineItems.UniqueIdsCardinality | Ecommerce/js/script.js:28 | with unique ids the number of entries is the number of ids |
| LineItems.AddsFromEmpty | Ecommerce/js/script.js:26-33 | from an empty cart, n additions give count n and one entry per distinct product id |
| Decimal.DigitValue | Ecommerce/js/script.js:47 | a digit's value is below 10 |
| Decimal.DigitChar | Ecommerce/js/script.js:9 | the digit written for d reads back as d |
| Decimal.NatToDecimal | Ecommerce/js/script.js:9 | a natural is written as digits without a leading zero |
| Decimal.IntToDecimal | Ecommerce/js/script.js:9 | an integer is written as digits, with a leading '-' when negative |
| Decimal.DigitSpan | Ecommerce/js/script.js:47 | the digit prefix is maximal |
| Decimal.DecimalRoundTrip | Ecommerce/js/script.js:47 | reading the decimal writing of n gives n |
| Decimal.DigitSpanOfDecimal | Ecommerce/js/script.js:47 | the digit prefix of a written number followed by a non-digit is exactly the number |
| Decimal.ReadDecimal | Ecommerce/js/script.js:47 | reading a written natural stops right after it and gives it back |
| NumberInput.TrimStart | Ecommerce/js/script.js:47 | parseInt skips exactly the leading white space |
| NumberInput.ParseInt | Ecommerce/js/script.js:47 | `parseInt(s, 10)` gives a number only when the text after white space starts with a digit or a sign, and a negative one only after '-' |
| NumberInput.QuantityFromInput | Ecommerce/js/script.js:47 | the quantity typed in is NaN or at least 1 |
| NumberInput.ParseIntOfDecimal | Ecommerce/js/script.js:47 | `parseInt` reads back any written integer, whatever non-digit follows |
| NumberInput.SignedOfDecimal | Ecommerce/js/script.js:47 | the signed part of ParseIntOfDecimal |
| NumberInput.QuantityOfDecimal | Ecommerce/js/script.js:47 | typing n sets the quantity to max(1, n) |
| NumberInput.QuantityOfEmpty | Ecommerce/js/script.js:47 | an empty field means 1 |
| NumberInput.QuantityOfNegative | Ecommerce/js/script.js:47 | "-5" is raised to 1 |
| NumberInput.QuantityOfNonNumber | Ecommerce/js/script.js:47 | "abc" gives NaN |
| Json.Parse | Ecommerce/js/script.js:5 | JSON.parse rejects a text that is empty or all white space |
| Json.ParseUnicodeEscape | Ecommerce/js/script.js:5 | a `\u` escape consumes text; what it reads is stated by the two lemmas below |
| Json.UnicodeEscapeRoundTrip | Ecommerce/js/script.js:5 | four hex digits of any code point outside the surrogate range read as that character |
| Json.SurrogatePairRoundTrip | Ecommerce/js/script.js:5 | any high surrogate escape followed by a low surrogate escape reads as the one character the pair encodes |
| Json.QuadRoundTrip | Ecommerce/js/script.js:5 | four hex digits read back as the number they write |
| Json.SurrogatePair | Ecommerce/js/script.js:5 | `\ud83d\ude00` reads as the single character U+1F600 |
| Json.HexRoundTrip | Ecommerce/js/script.js:5 | a hex digit of a `\u` escape reads back as its value |
| Json.EscapeCharRoundTrip | Ecommerce/js/script.js:5 | an escaped character reads back as itself and never looks like the closing quote |
| Json.StringBodyStep | Ecommerce/js/script.js:5 | one escaped character extends a string body that reads back |
| Json.StringBodyRoundTrip | Ecommerce/js/script.js:5 | an escaped string body reads back up to its closing quote |
| Json.StringRoundTrip | Ecommerce/js/script.js:5 | every string literal reads back as its string |
| Json.NaturalRoundTrip | Ecommerce/js/script.js:5-9 | a natural number's digits read back as it, with no leading minus sign |
| Json.NumberRoundTrip | Ecommerce/js/script.js:5 | every integer reads back as itself |
| Json.LiteralRoundTrip | Ecommerce/js/script.js:5 | null, true and false read back |
| Json.SkipSpace | Ecommerce/js/script.js:5 | skipping white space never lengthens the text |
| Json.SerializeStart | Ecommerce/js/script.js:9 | written text is non-empty and starts with the character that selects its kind |
| Json.ValueRoundTrip | Ecommerce/js/script.js:5-9 | every value reads back from its text, whatever may follow it in a document |
| Json.ArrayRoundTrip | Ecommerce/js/script.js:5-9 | every array reads back |
| Json.ElementsStep | Ecommerce/js/script.js:5 | how the element list continues after one value |
| Json.ElementsRoundTrip | Ecommerce/js/script.js:5-9 | a non-empty element list reads back |
| Json.LastElementRoundTrip | Ecommerce/js/script.js:5-9 | the last element and the closing bracket read back |
| Json.ElementsConsRoundTrip | Ecommerce/js/script.js:5-9 | an element followed by more elements reads back |
| Json.ObjectStep | Ecommerce/js/script.js:5 | an object whose first key follows its opening brace reads as its member list |
| Json.ObjectRoundTrip | Ecommerce/js/script.js:5-9 | every object reads back with its members in order |
| Json.MembersStep | Ecommerce/js/script.js:5 | how the member list continues after one member |
| Json.MemberRoundTrip | Ecommerce/js/script.js:5-9 | one member reads back before '}' or ',' |
| Json.MembersRoundTrip | Ecommerce/js/script.js:5-9 | a non-empty member list reads back |
| Json.ParseSerialize | Ecommerce/js/script.js:5-9 | `JSON.parse(JSON.stringify(v))` is v: Parse undoes Serialize, the model of JSON.stringify, for every value |
| Json.SerializeInjective | Ecommerce/js/script.js:9 | different values are never written as the same text |
| Storage.Encode | Ecommerce/js/script.js:9 | `JSON.stringify(cart)` is a text that JSON.parse reads back as the cart's JSON value |
| Storage.EncodeOrder | Ecommerce/js/script.js:147 | `JSON.stringify(order)` is a text that JSON.parse reads back as the order's JSON value |
| Storage.LoadCart | Ecommerce/js/script.js:4-7 | a non-empty loaded cart is exactly the array of entries the stored text parses to |
| Storage.ItemValues | Ecommerce/js/script.js:9 | one value per entry |
| Storage.ItemValuesAt | Ecommerce/js/script.js:9 | the value at each position is the JSON object of the entry at that position |
| Storage.ToItems | Ecommerce/js/script.js:5 | a read array gives one entry per element |
| Storage.LookupSnoc | Ecommerce/js/script.js:5 | the last of repeated keys wins |
| Storage.HeadLookups | Ecommerce/js/script.js:5 | an entry's id, name and price read back, and image and quantity are absent from that prefix |
| Storage.ItemRead | Ecommerce/js/script.js:5-9 | an entry's JSON object reads back as the entry |
| Storage.ItemsRead | Ecommerce/js/script.js:5-9 | a list of entries reads back |
| Storage.CartRead | Ecommerce/js/script.js:5-9 | a cart's JSON array reads back as the cart |
| Storage.EncodeEmpty | Ecommerce/js/script.js:9 | the empty cart is saved as `[]` |
| Storage.LoadSaved | Ecommerce/js/script.js:4-10 | `loadCart` after `saveCart(c)` gives c |
| Storage.EncodeInjective | Ecommerce/js/script.js:8-10 | different carts are saved as different texts |
| Storage.LoadFallsBack | Ecommerce/js/script.js:4-7 | an absent slot, the text `""` and the text `null` load as the empty cart |
| Storage.LoadRejects | Ecommerce/js/script.js:4-7 | every text JSON.parse rejects, and every value that is falsy or is not an array of entries, loads as the empty cart |
| Storage.SavedOrderItems | Ecommerce/js/script.js:141-147 | the saved order reads back, and its items are the cart at checkout |
| Cart.SpliceStart | Ecommerce/js/script.js:40 | where `splice(index, 1)` removes: the index itself, counted from the end when negative, clamped to the length |
| Cart.CartStore.constructor | Ecommerce/js/script.js:13 | the cart starts as what `loadCart` gives for the stored slot |
| Cart.CartStore.Persisted | Ecommerce/js/script.js:8-13 | when the slot holds the cart's JSON text, reloading the page gives back the same cart |
| Cart.CartStore.SaveCart | Ecommerce/js/script.js:8-10 | afterwards the slot holds the cart's JSON text |
| Cart.CartStore.AddToCart | Ecommerce/js/script.js:26-37 | the cart becomes AddItem of the old one; it is saved; unique ids and valid quantities are kept; the count rises by 1 |
| Cart.CartStore.RemoveFromCart | Ecommerce/js/script.js:39-44 | the entry at SpliceStart is deleted, or nothing when past the end; count and total drop by its amounts; it is saved |
| Cart.CartStore.UpdateQuantity | Ecommerce/js/script.js:46-52 | only the indexed entry's quantity changes, to QuantityFromInput(text), which counts at least once; the count moves by the difference; it is saved |
| Cart.CartStore.WriteQuantity | Ecommerce/js/script.js:48-49 | writes one quantity and saves; the count moves by the difference |
| Cart.CartStore.HandleCheckout | Ecommerce/js/script.js:127-157 | refuses exactly an empty cart, then exactly a missing detail, changing nothing, and completes exactly when the cart is non-empty and every field is filled. Then it records the order with the cart as it was, stores the order's JSON, and empties and saves the cart as `[]`, so the slot again holds the cart |

## Left out

- Rendering, `money`, the cart-count badge, `alert`, page navigation and the login and
  register forms. None of them change the cart.
- The real `localStorage` is not modelled. Each slot is a field holding the text or `None`.
- The order's date (`new Date().toLocaleString()`) is a parameter of checkout.
- Numbers are unbounded integers (a price is in minor units), not JavaScript's doubles.
  Above 2^53, `parseInt`, the count and the total do not round here as they do in JavaScript.
  JSON.stringify writes 1e21 and above in exponent form, and the model writes all the digits.
  Fractions and exponents are rejected when reading, so a stored cart holding them loads as
  the empty cart.
- Storage.LoadCart: a stored value that is truthy but is not an array of entries gives the
  empty cart. JavaScript would keep that value as `cart`.
- Storage.ToItem: some stored entries are not held, and any one of them makes the whole cart
  load as empty, where JavaScript keeps the cart:
  - an id or a name that is not a string;
  - a price that is not a number;
  - an image that is present but is not a string;
  - a quantity that is neither a number nor null, such as `"2"` or `false`. In JavaScript
    `false` counts as 1, and `"2"` turns the count into string concatenation.
- Storage.ToItem: an entry keeps only id, name, price, image and quantity. Any other property
  of a stored entry, or of a product copied in by `{...product}`, is dropped and is not saved
  again. JavaScript keeps it and saves it again.
- Storage.QuantityField: an absent quantity and a `null` one are both read as NaN (`None`).
  Saving such an entry again writes `"quantity":null`, where JavaScript leaves an absent
  quantity absent. The keys are always written in the order id, name, price, image,
  quantity, where JavaScript keeps the order the entry was parsed in. Loading the text again
  gives the same cart either way; only the stored text differs.
- LineItems.Product: every product id is taken to be a string. Ids that are numbers, which
  `===` would compare as numbers, are not modelled.
- Strings are sequences of Unicode scalar values, not UTF-16 code units. A `\u` escape of a
  surrogate half that is not part of a high-low pair is rejected. JavaScript keeps it as a
  lone code unit, so a stored cart holding one loads as the empty cart here. Valid pairs are
  read as the character they encode. Raw lone surrogates cannot occur in a model string, and
  JSON.stringify's escaping of them is not modelled.
- NumberInput.ParseInt: the digits are ASCII `0`-`9`, so only radix 10 is modelled.
- LineItems.AddIncrementsCount: requires every quantity to count at least once. A stored
  quantity of -1 breaks it (LineItems.AddAfterMinusOne).
- LineItems.AddRaisesTotal: requires every quantity to count at least once, for the same
  reason.
- LineItems.AddAllCount: requires every quantity to count at least once, for the same reason.
  A run of additions that merges into a stored -1 raises the count by more than n.
- LineItems.MergedTotal and LineItems.BumpedLineAmount: require the bumped quantity to count
  at least once. Bumping a stored -1 with price p raises the line amount and the total by 2p.
- Cart.CartStore.AddToCart: the count clause is stated only for carts whose quantities are
  valid.
- Cart.CartStore.UpdateQuantity: requires an index of an existing entry. The page only calls
  it for a rendered row, and `cart[index]` would throw otherwise.
- Json.Serialize carries no contract of its own. Its meaning is stated by Json.ParseSerialize,
  Json.SerializeInjective and Json.SerializeStart.
- `cartItemCount` and `cartTotal` are the functions LineItems.ItemCount and LineItems.Total
  on the cart's entries. There is no separate accessor on the class.
