# Colonia della Furia shopping cart, modelled in Dafny

The website keeps a merchandise cart in the browser: one localStorage slot
(`coloniaFuriaCart`) holds a JSON list of line items `{name, description,
price, image, quantity}`. cart.js reads the slot (`getCart`) and writes it
back whole (`saveCart`). Four handlers change the list:

- an add-to-cart click merges by name: an item that is already there gets
  one more, and a new product is appended with quantity 1;
- the remove button filters out every item with that name;
- the clear button empties the cart;
- the quantity field sets one item's quantity.

The navigation counter and the cart page show the sum of the quantities.

The project has two modules:

- `CartItems` (cart_items.dfy) holds the line-item datatypes and the pure
  list operations that cart.js uses: the lookup by name (`find`), the
  removal (`filter`) and the quantity sum (`reduce`). It also states the
  add and set-quantity edits as functions (`Merge`, `WithQuantity`), and
  holds the lemmas about all of these.
- `CartStore` (cart_store.dfy) is the persisted slot: `Slot = Absent |
  Malformed | Stored(items)`. The class `Store` owns that slot, and each
  handler is one of its methods. Every method's postcondition gives the new
  slot in terms of the old one. The add, remove and set-quantity handlers
  load the slot, change the list and save it; their postconditions also say
  that the two invariants survive: at most one item per name, and every
  quantity at least 1. Clearing deletes the slot and then saves the empty
  list.

Prices are whole cents, and only their sign matters to the handlers.
Writes to storage can fail (for example when the quota is full). Each
saving method takes a parameter `accepted`, which says whether the browser
takes that write. When it does not, `saveCart` swallows the error and the
slot keeps its old content.

Two behaviours of cart.js are worth stating exactly:

- A quantity below 1 (or one that is not a number) is rejected, and the
  item stays as it was (cart.js:194-197). The item is not removed.
- An add raises the quantity by 1 (exactly 1 for every quantity below 2^53,
  the limit of JavaScript's exact integers). It never updates the stored
  description or price (cart.js:79-80).

## Model

| member | source | states |
|---|---|---|
| CartItems.ProductOf | cart.js:64-71 | the product built from a button is accepted exactly when the button has a non-empty name and a price that parses to a positive number; NaN and a missing price count as 0 and are rejected; a missing image becomes "" |
| CartItems.IsValid | cart.js:71 | reference definition of the add handler's guard: a product is valid when its name is present and non-empty and its price is positive |
| CartItems.NewLine | cart.js:83 | a new line item copies the product's name, description, price and image, and has quantity 1 |
| CartItems.IndexOf | cart.js:77 | `find` by name returns the first matching position, or none exactly when no item has that name |
| CartItems.WithoutName | cart.js:92 | the filter keeps exactly the items of the cart whose name differs, so no item with the removed name is left |
| CartItems.TotalQuantity | cart.js:39 | reference definition of the item count (the `reduce` over quantities) that the lemmas are about; when every quantity is at least 1, the count is at least the number of lines and is 0 exactly when the cart is empty |
| CartItems.Merge | cart.js:76-85 | reference definition of the add handler's change to the loaded list, which the Merge lemmas are about; the product's name is in the result, the length grows by 1 exactly when the name was absent, and every item with another name stays where it was |
| CartItems.WithQuantity | cart.js:199-202 | reference definition of the quantity listener's change to the loaded list, which the WithQuantity lemmas are about; the length stays the same, each item is either unchanged or is an item with that name whose quantity is now n, and a known name ends with quantity n |
| CartItems.TotalQuantityAppend | cart.js:39 | the quantity sum of two lists joined is the sum of their sums |
| CartItems.TotalQuantityUpdate | cart.js:168 | replacing one item changes the quantity sum by the difference of the two quantities |
| CartItems.WithoutNameAppend | cart.js:92 | removal distributes over concatenation, so it keeps the order of the items it keeps |
| CartItems.WithoutNameAbsent | cart.js:90-93 | removing a name that is not in the cart leaves the cart as it was |
| CartItems.WithoutNameIdempotent | cart.js:90-93 | removing the same name twice is the same as removing it once |
| CartItems.WithoutNameAt | cart.js:92 | with one item per name, removing item i's name gives exactly the items before i followed by those after i ([A, B, C] becomes [A, C]) |
| CartItems.WithoutNameCount | cart.js:92 | with one item per name, removing an item lowers the item count by exactly that item's quantity |
| CartItems.WithoutNameKeepsUniqueNames | cart.js:92 | removal keeps at most one item per name |
| CartItems.WithoutNamePreservesWellFormed | cart.js:90-93 | removal keeps both invariants (unique names, quantities at least 1) |
| CartItems.MergeExisting | cart.js:77-81 | adding a product already in the cart raises the first matching item's quantity by exactly 1; the length, every other item and that item's description, price and image stay as they were |
| CartItems.MergeNew | cart.js:82-83 | adding a product not yet in the cart appends it with quantity 1 after the unchanged earlier items |
| CartItems.MergePreservesWellFormed | cart.js:76-87 | adding keeps at most one item per name and every quantity at least 1 |
| CartItems.MergeCount | cart.js:76-87 | every valid add raises the item count by exactly 1 |
| CartItems.MergeTwice | cart.js:77-83 | adding the same new product twice gives one line with quantity 2, not two lines |
| CartItems.MergeThenRemove | cart.js:83-92 | removing a product that was just appended gives back the cart from before the add |
| CartItems.WithQuantityAt | cart.js:199-202 | a valid new quantity replaces only the first matching item's quantity; nothing else changes |
| CartItems.WithQuantityUnknown | cart.js:200-201 | setting the quantity of a name that is not in the cart changes nothing |
| CartItems.WithQuantityPreservesWellFormed | cart.js:199-203 | setting a quantity of at least 1 keeps both invariants |
| CartItems.WithQuantityCount | cart.js:199-202 | setting item i's quantity to n changes the item count by n minus the old quantity |
| CartStore.Load | cart.js:12-15 | reference definition of how a slot reads: the stored list, or the empty list when the slot is absent or does not parse |
| CartStore.Store.GetCart | cart.js:9-17 | loading gives what the slot reads as (`Load`): the stored list, and the empty list when the slot is absent or does not parse; no error is raised |
| CartStore.Store.SaveCart | cart.js:19-31 | saving overwrites the whole slot with the list, so the next load returns that list; a refused write leaves the slot as it was |
| CartStore.Store.HandleAddToCartClick | cart.js:62-88 | invalid product data leaves the slot untouched; a valid add stores the merged list, raises the count by 1 and keeps both invariants |
| CartStore.Store.RemoveItem | cart.js:90-95 | removal stores the filtered list; it changes nothing that loads when the name is absent, and it keeps both invariants |
| CartStore.Store.ClearCart | cart.js:97-101 | after clearing, the cart loads as empty with count 0, whether or not the final write succeeds |
| CartStore.Store.ChangeQuantity | cart.js:190-205 | a value below 1 or NaN leaves the slot unchanged; an unknown name saves nothing; otherwise only the matching item's quantity is set, and both invariants are kept |
| CartStore.Store.CartCount | cart.js:37-39 | the item count is the sum of the quantities; for a well-formed cart it is 0 exactly when the cart is empty |

## Left out

- Merge: quantities in cart.js are JavaScript doubles. The model's unbounded `int` agrees
  with them only below 2^53. At 2^53, `quantity += 1` (cart.js:80) leaves the value as it
  is, while the model adds 1.
- MergeCount: its "count rises by exactly 1" holds in cart.js only while the count stays
  below 2^53.
- TotalQuantity: the `reduce` sums (cart.js:39, 168) are double additions. They are exact
  only while every partial sum stays below 2^53; above that, cart.js rounds and the model
  does not.
- HandleAddToCartClick: its count promise has the same 2^53 bound. Its prices are whole
  cents, so a price like `Infinity` or `1e400` is not modelled. Such a price passes the
  guard (cart.js:67, 71), but JSON.stringify writes it as `null`, so it does not survive a
  save and load.
- ChangeQuantity: `parseInt` can yield a quantity of 2^53 or more, and cart.js stores it
  (cart.js:192, 202). Later arithmetic on that value is inexact in cart.js, but exact in
  the model.
- CartCount: the count equals the double sum only while every partial sum stays below 2^53.

- Rendering: the cart page's HTML, the toasts and their timer, and the counter's text
  (cart.js:40-56, cart.js:111-183). These are DOM side effects. Resetting the quantity
  field to 1 after a rejected value (cart.js:195) only changes the display, so it is not
  modelled.
- The mail-to order request and `encodeURIComponent` (cart.js:125, 160, 173-180). This
  is presentation text handed to the browser.
- The money total `price * quantity` and `toFixed` (cart.js:139-140, 165). This is
  floating-point arithmetic. Prices are whole cents, and the model uses only the check
  that the price is positive.
- JSON.parse, JSON.stringify, parseFloat and parseInt are library calls. The slot is
  abstract (Absent, Malformed or Stored). A button's price is the already-parsed value,
  and the quantity field is the already-parsed `Option<int>`, where None stands for NaN.
  An empty-string slot is falsy and reads like Absent. Stored JSON that parses to
  something other than a list (such as `null`) is not modelled.
- Stored items are assumed to have the item shape. Values written by other code with
  other field types are not modelled.
- Where the name comes from: `removeItem` and the quantity listener read the item's name
  back from the `data-name="${item.name}"` attribute that the cart page writes (cart.js:153-154,
  191, 210). A name containing `"` or `&` can come back changed, and then remove and
  set-quantity miss that item. The model takes the name as given.
- Whether a write is accepted is a per-call parameter. The model does not relate it to
  the size of the list being written, which is what decides a quota failure in the browser.
- Writes by other tabs to the same slot (last write wins) are not modelled. This is
  concurrency outside the sequential model.
- The page-load wiring of the listeners (cart.js:220-234) is event binding only.
- script.js (the games loader, the cookie banner, the scroll handlers) is not part of
  this model. It is fetch, dates, timers and DOM code.
