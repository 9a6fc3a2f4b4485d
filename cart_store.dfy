/** The persisted cart, the one localStorage slot under the key 'coloniaFuriaCart',
    and the handlers of cart.js that load that slot, change the list and save it back. */
module CartStore {
  import opened CartItems

  /** What the storage slot holds: nothing, text that JSON.parse rejects, or a stored list. */
  datatype Slot = Absent | Malformed | Stored(items: seq<Item>)

  /** The list getCart produces from a slot; a parse failure is swallowed. */
  function Load(slot: Slot): (cart: seq<Item>)
    ensures slot.Stored? ==> cart == slot.items
    ensures !slot.Stored? ==> cart == []
  {
    match slot
    case Stored(items) => items
    case _ => []
  }

  class Store {
    /** The slot's current content. */
    var slot: Slot

    constructor (initial: Slot)
      ensures slot == initial
    {
      slot := initial;
    }

    /** The cart as the next getCart will see it. */
    function Contents(): (cart: seq<Item>)
      reads this
    {
      Load(slot)
    }

    /** getCart: the stored list, or the empty list when the slot is absent or does
        not parse; no error reaches the caller. */
    method GetCart() returns (cart: seq<Item>)
      ensures cart == Contents()
    {
      match slot {
        case Stored(items) => cart := items;
        case Absent => cart := [];
        case Malformed => cart := [];
      }
    }

    /** saveCart: overwrites the whole slot with the list. `accepted` says whether the
        browser takes this write; when it does not (a full quota), setItem throws, the
        error is logged and the slot keeps its old content. */
    method SaveCart(cart: seq<Item>, accepted: bool)
      modifies this`slot
      ensures slot == if accepted then Stored(cart) else old(slot)
      ensures accepted ==> Contents() == cart
    {
      if accepted {
        slot := Stored(cart);
      }
    }

    /** handleAddToCartClick: invalid product data leaves the slot untouched; otherwise the
        first item with the product's name gets one more, or the product is appended with
        quantity 1, and the list is saved. */
    method HandleAddToCartClick(b: Button, accepted: bool)
      modifies this`slot
      ensures !IsValid(ProductOf(b)) ==> slot == old(slot)
      ensures IsValid(ProductOf(b)) && accepted ==> slot == Stored(Merge(old(Contents()), ProductOf(b)))
      ensures !accepted ==> slot == old(slot)
      ensures IsValid(ProductOf(b)) && accepted ==> TotalQuantity(Contents()) == TotalQuantity(old(Contents())) + 1
      ensures WellFormed(old(Contents())) ==> WellFormed(Contents())
    {
      var p := ProductOf(b);
      if !IsValid(p) {
        return;
      }
      var cart := GetCart();
      ghost var before := cart;
      var existing := IndexOf(cart, p.name.value);
      match existing {
        case Some(i) =>
          cart := cart[i := cart[i].(quantity := cart[i].quantity + 1)];
        case None =>
          cart := cart + [NewLine(p)];
      }
      assert cart == Merge(before, p);
      MergeCount(before, p);
      if WellFormed(before) {
        MergePreservesWellFormed(before, p);
      }
      SaveCart(cart, accepted);
    }

    /** removeItem: keeps the items with other names, in order, and saves the result
        (also when nothing was removed). */
    method RemoveItem(name: string, accepted: bool)
      modifies this`slot
      ensures slot == if accepted then Stored(WithoutName(old(Contents()), name)) else old(slot)
      ensures !Contains(old(Contents()), name) ==> Contents() == old(Contents())
      ensures WellFormed(old(Contents())) ==> WellFormed(Contents())
    {
      var cart := GetCart();
      ghost var before := cart;
      cart := WithoutName(cart, name);
      if !Contains(before, name) {
        WithoutNameAbsent(before, name);
      }
      if WellFormed(before) {
        WithoutNamePreservesWellFormed(before, name);
      }
      SaveCart(cart, accepted);
    }

    /** clearCart: deletes the slot, then saves the empty list; the cart reads as empty
        afterwards whether or not that write succeeds. */
    method ClearCart(accepted: bool)
      modifies this`slot
      ensures slot == if accepted then Stored([]) else Absent
      ensures Contents() == [] && TotalQuantity(Contents()) == 0
    {
      slot := Absent;
      SaveCart([], accepted);
    }

    /** The change listener of a quantity field. A value below 1 or NaN is rejected and
        the slot is left as it was; a valid n sets the first matching item's quantity
        and saves; an unknown name saves nothing. */
    method ChangeQuantity(name: string, input: Option<int>, accepted: bool)
      modifies this`slot
      ensures input.None? || input.value < 1 ==> slot == old(slot)
      ensures !Contains(old(Contents()), name) ==> slot == old(slot)
      ensures input.Some? && input.value >= 1 && Contains(old(Contents()), name) && accepted ==>
                slot == Stored(WithQuantity(old(Contents()), name, input.value))
      ensures !accepted ==> slot == old(slot)
      ensures WellFormed(old(Contents())) ==> WellFormed(Contents())
    {
      if input.None? || input.value < 1 {
        return;
      }
      var n := input.value;
      var cart := GetCart();
      ghost var before := cart;
      var item := IndexOf(cart, name);
      if item.Some? {
        var i := item.value;
        cart := cart[i := cart[i].(quantity := n)];
        assert cart == WithQuantity(before, name, n);
        if WellFormed(before) {
          WithQuantityPreservesWellFormed(before, name, n);
        }
        SaveCart(cart, accepted);
      }
    }

    /** The item count shown in the navigation and on the cart page: the sum of the
        quantities. For a well-formed cart it is at least the number of lines and is 0
        exactly when the cart is empty. */
    method CartCount() returns (n: int)
      ensures n == TotalQuantity(Contents())
      ensures WellFormed(Contents()) ==> n >= |Contents()| && (n == 0 <==> Contents() == [])
    {
      var cart := GetCart();
      n := TotalQuantity(cart);
    }
  }
}
