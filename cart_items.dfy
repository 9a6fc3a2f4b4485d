/** The line items of the shopping cart and the pure operations on a list of them:
    the lookup by name (`find`), the removal by name (`filter`), the quantity sum
    (`reduce`), and the two in-place edits the handlers make to a loaded list
    (merge-by-name on add, and setting one item's quantity). */
module CartItems {

  datatype Option<T> = None | Some(value: T)

  /** One line item as cart.js stores it: the product fields plus a quantity.
      Prices are whole cents; a missing data-description stays missing (null). */
  datatype Item = Item(name: string, description: Option<string>, price: int, image: string, quantity: int)

  /** The data attributes of an add-to-cart button. None is an absent attribute.
      `price` is what parseFloat makes of data-price, in cents; None stands for NaN. */
  datatype Button = Button(name: Option<string>, description: Option<string>, price: Option<int>, image: Option<string>)

  /** The product object built from a button before it is validated. */
  datatype Product = Product(name: Option<string>, description: Option<string>, price: int, image: string)

  /** Reads a button's attributes: `parseFloat(..) || 0` turns NaN (and 0) into 0,
      and a missing image becomes the empty string. The product is accepted exactly
      when it has a non-empty name and a positive price, that is, when both the name
      and a positive price are present on the button. */
  function ProductOf(b: Button): (p: Product)
    ensures p.name == b.name && p.description == b.description
    ensures IsValid(p) <==> b.name.Some? && b.name.value != "" && b.price.Some? && b.price.value > 0
    ensures b.image.Some? ==> p.image == b.image.value
    ensures b.image.None? ==> p.image == ""
    ensures IsValid(p) ==> p.price == b.price.value
  {
    Product(b.name,
            b.description,
            match b.price case None => 0 case Some(x) => x,
            match b.image case None => "" case Some(s) => s)
  }

  /** The guard of the add handler: a falsy name (missing or empty) or a price
      that is not positive is invalid product data. */
  predicate IsValid(p: Product)
  {
    p.name.Some? && p.name.value != "" && p.price > 0
  }

  /** The line item appended for a product not yet in the cart: `{...product, quantity: 1}`. */
  function NewLine(p: Product): (item: Item)
    requires IsValid(p)
    ensures item.name == p.name.value && item.quantity == 1 && item.price > 0
    ensures item.description == p.description && item.price == p.price && item.image == p.image
  {
    Item(p.name.value, p.description, p.price, p.image, 1)
  }

  /** Some item of the cart carries this name. */
  ghost predicate Contains(cart: seq<Item>, name: string)
  {
    exists j :: 0 <= j < |cart| && cart[j].name == name
  }

  /** At most one item per name. */
  ghost predicate UniqueNames(cart: seq<Item>)
  {
    forall i, j :: 0 <= i < j < |cart| ==> cart[i].name != cart[j].name
  }

  /** Every quantity is at least 1. */
  ghost predicate PositiveQuantities(cart: seq<Item>)
  {
    forall i :: 0 <= i < |cart| ==> cart[i].quantity >= 1
  }

  /** The two invariants every cart written by cart.js keeps. */
  ghost predicate WellFormed(cart: seq<Item>)
  {
    UniqueNames(cart) && PositiveQuantities(cart)
  }

  /** `cart.find(item => item.name === name)`, as the position of the first match. */
  function IndexOf(cart: seq<Item>, name: string): (r: Option<nat>)
    ensures r.Some? ==> r.value < |cart| && cart[r.value].name == name
    ensures r.Some? ==> forall j :: 0 <= j < r.value ==> cart[j].name != name
    ensures r.None? <==> !Contains(cart, name)
  {
    if cart == [] then None
    else if cart[0].name == name then Some(0)
    else match IndexOf(cart[1..], name)
      case None => None
      case Some(i) => Some(i + 1)
  }

  /** `cart.filter(item => item.name !== name)`. An item survives exactly when it was
      in the cart under another name. */
  function WithoutName(cart: seq<Item>, name: string): (r: seq<Item>)
    ensures |r| <= |cart|
    ensures forall j :: 0 <= j < |r| ==> r[j].name != name
    ensures forall x :: x in r <==> x in cart && x.name != name
  {
    if cart == [] then []
    else (if cart[0].name == name then [] else [cart[0]]) + WithoutName(cart[1..], name)
  }

  /** `cart.reduce((sum, item) => sum + item.quantity, 0)`: a left fold. In a cart whose
      quantities are all at least 1 the item count is at least the number of lines, so
      the count is 0 exactly when the cart is empty. */
  function TotalQuantity(cart: seq<Item>): (n: int)
    ensures PositiveQuantities(cart) ==> n >= |cart|
    ensures PositiveQuantities(cart) ==> (n == 0 <==> cart == [])
  {
    if cart == [] then 0 else TotalQuantity(cart[..|cart| - 1]) + cart[|cart| - 1].quantity
  }

  /** The add handler's edit of the loaded list: the first item with the product's
      name gets one more; otherwise the new line is pushed at the end. */
  function Merge(cart: seq<Item>, p: Product): (r: seq<Item>)
    requires IsValid(p)
    ensures Contains(r, p.name.value)
    ensures |r| == if Contains(cart, p.name.value) then |cart| else |cart| + 1
    ensures forall j :: 0 <= j < |cart| && cart[j].name != p.name.value ==> r[j] == cart[j]
  {
    match IndexOf(cart, p.name.value)
    case Some(i) =>
      var r := cart[i := cart[i].(quantity := cart[i].quantity + 1)];
      assert r[i].name == p.name.value;
      r
    case None =>
      var r := cart + [NewLine(p)];
      assert r[|cart|].name == p.name.value;
      r
  }

  /** The quantity listener's edit of the loaded list: the first item with the name
      gets quantity n; an unknown name leaves the list as it is. */
  function WithQuantity(cart: seq<Item>, name: string, n: int): (r: seq<Item>)
    ensures |r| == |cart|
    ensures forall j :: 0 <= j < |r| ==> r[j] == cart[j] || (cart[j].name == name && r[j] == cart[j].(quantity := n))
    ensures Contains(cart, name) ==> exists j :: 0 <= j < |r| && r[j].name == name && r[j].quantity == n
  {
    match IndexOf(cart, name)
    case Some(i) => cart[i := cart[i].(quantity := n)]
    case None => cart
  }

  // ----- the quantity sum -----

  lemma {:induction false} TotalQuantityAppend(a: seq<Item>, b: seq<Item>)
    ensures TotalQuantity(a + b) == TotalQuantity(a) + TotalQuantity(b)
    decreases |b|
  {
    if b == [] {
      assert a + b == a;
    } else {
      var b' := b[..|b| - 1];
      assert (a + b)[..|a + b| - 1] == a + b';
      TotalQuantityAppend(a, b');
      assert b[..|b| - 1] == b';
    }
  }

  /** A one-item cart counts that item's quantity. */
  lemma TotalQuantitySingle(x: Item)
    ensures TotalQuantity([x]) == x.quantity
  {
    assert [x][..0] == [];
  }

  /** Replacing one item changes the sum by the difference of the two quantities. */
  lemma TotalQuantityUpdate(cart: seq<Item>, i: nat, x: Item)
    requires i < |cart|
    ensures TotalQuantity(cart[i := x]) == TotalQuantity(cart) - cart[i].quantity + x.quantity
  {
    var pre, post := cart[..i], cart[i + 1..];
    assert cart == pre + [cart[i]] + post;
    assert cart[i := x] == pre + [x] + post;
    TotalQuantityAppend(pre + [cart[i]], post);
    TotalQuantityAppend(pre, [cart[i]]);
    TotalQuantityAppend(pre + [x], post);
    TotalQuantityAppend(pre, [x]);
    TotalQuantitySingle(cart[i]);
    TotalQuantitySingle(x);
  }

  // ----- removal by name -----

  /** The filter distributes over concatenation: it keeps the order of what it keeps. */
  lemma {:induction false} WithoutNameAppend(a: seq<Item>, b: seq<Item>, name: string)
    ensures WithoutName(a + b, name) == WithoutName(a, name) + WithoutName(b, name)
  {
    if a == [] {
      assert a + b == b;
    } else {
      assert (a + b)[0] == a[0];
      assert (a + b)[1..] == a[1..] + b;
      WithoutNameAppend(a[1..], b, name);
    }
  }

  /** Removing a name the cart does not hold is a no-op. */
  lemma {:induction false} WithoutNameAbsent(cart: seq<Item>, name: string)
    requires !Contains(cart, name)
    ensures WithoutName(cart, name) == cart
  {
    if cart != [] {
      assert !Contains(cart[1..], name) by {
        forall j | 0 <= j < |cart[1..]| ensures cart[1..][j].name != name {
          assert cart[1..][j] == cart[j + 1];
        }
      }
      WithoutNameAbsent(cart[1..], name);
      assert cart == [cart[0]] + cart[1..];
    }
  }

  /** Removing twice is removing once. */
  lemma WithoutNameIdempotent(cart: seq<Item>, name: string)
    ensures WithoutName(WithoutName(cart, name), name) == WithoutName(cart, name)
  {
    WithoutNameAbsent(WithoutName(cart, name), name);
  }

  /** In a cart with one item per name, removing the name of item i deletes exactly
      that item and keeps all others in their order: [A, B, C] becomes [A, C]. */
  lemma WithoutNameAt(cart: seq<Item>, i: nat, name: string)
    requires UniqueNames(cart)
    requires i < |cart| && cart[i].name == name
    ensures WithoutName(cart, name) == cart[..i] + cart[i + 1..]
  {
    var pre, mid, post := cart[..i], [cart[i]] + cart[i + 1..], cart[i + 1..];
    assert cart == pre + mid;
    WithoutNameAppend(pre, mid, name);
    assert !Contains(pre, name) by {
      forall j | 0 <= j < |pre| ensures pre[j].name != name {
        assert pre[j] == cart[j];
      }
    }
    WithoutNameAbsent(pre, name);
    assert !Contains(post, name) by {
      forall j | 0 <= j < |post| ensures post[j].name != name {
        assert post[j] == cart[i + 1 + j];
      }
    }
    WithoutNameAbsent(post, name);
    assert WithoutName(mid, name) == post by {
      assert mid[0] == cart[i] && mid[1..] == post;
    }
  }

  /** Removing an item lowers the item count by that item's quantity. */
  lemma WithoutNameCount(cart: seq<Item>, i: nat, name: string)
    requires UniqueNames(cart)
    requires i < |cart| && cart[i].name == name
    ensures TotalQuantity(WithoutName(cart, name)) == TotalQuantity(cart) - cart[i].quantity
  {
    WithoutNameAt(cart, i, name);
    assert cart == cart[..i] + [cart[i]] + cart[i + 1..];
    TotalQuantityAppend(cart[..i] + [cart[i]], cart[i + 1..]);
    TotalQuantityAppend(cart[..i], [cart[i]]);
    TotalQuantityAppend(cart[..i], cart[i + 1..]);
    TotalQuantitySingle(cart[i]);
  }

  /** Removal keeps at most one item per name. */
  lemma {:induction false} WithoutNameKeepsUniqueNames(cart: seq<Item>, name: string)
    requires UniqueNames(cart)
    ensures UniqueNames(WithoutName(cart, name))
  {
    if cart != [] {
      var rest := cart[1..];
      assert UniqueNames(rest) by {
        forall i, j | 0 <= i < j < |rest| ensures rest[i].name != rest[j].name {
          assert rest[i] == cart[i + 1] && rest[j] == cart[j + 1];
        }
      }
      WithoutNameKeepsUniqueNames(rest, name);
      var tail := WithoutName(rest, name);
      if cart[0].name != name {
        var r := [cart[0]] + tail;
        forall i, j | 0 <= i < j < |r| ensures r[i].name != r[j].name {
          assert r[j] == tail[j - 1];
          if i == 0 {
            assert tail[j - 1] in rest;
            var k :| 0 <= k < |rest| && rest[k] == tail[j - 1];
            assert rest[k] == cart[k + 1];
          } else {
            assert r[i] == tail[i - 1];
          }
        }
      } else {
        assert WithoutName(cart, name) == tail;
      }
    }
  }

  /** Removal keeps both invariants. */
  lemma WithoutNamePreservesWellFormed(cart: seq<Item>, name: string)
    requires WellFormed(cart)
    ensures WellFormed(WithoutName(cart, name))
  {
    WithoutNameKeepsUniqueNames(cart, name);
    var r := WithoutName(cart, name);
    forall j | 0 <= j < |r| ensures r[j].quantity >= 1 {
      assert r[j] in cart;
    }
  }

  // ----- add with merge-by-name -----

  /** Adding a product whose name is already in the cart raises the first such item's
      quantity by exactly 1; the length, the other items and that item's description,
      price and image stay as they were. */
  lemma MergeExisting(cart: seq<Item>, p: Product, i: nat)
    requires IsValid(p)
    requires i < |cart| && cart[i].name == p.name.value
    requires forall j :: 0 <= j < i ==> cart[j].name != p.name.value
    ensures Merge(cart, p) == cart[i := cart[i].(quantity := cart[i].quantity + 1)]
  {
    assert Contains(cart, p.name.value);
  }

  /** Adding a product whose name is not in the cart appends it with quantity 1 and
      leaves the earlier items in place. */
  lemma MergeNew(cart: seq<Item>, p: Product)
    requires IsValid(p) && !Contains(cart, p.name.value)
    ensures Merge(cart, p) == cart + [NewLine(p)]
    ensures Merge(cart, p)[|cart|].quantity == 1
  {
  }

  /** Adding keeps at most one item per name and every quantity at least 1. */
  lemma MergePreservesWellFormed(cart: seq<Item>, p: Product)
    requires IsValid(p) && WellFormed(cart)
    ensures WellFormed(Merge(cart, p))
  {
    var name := p.name.value;
    match IndexOf(cart, name)
    case Some(i) =>
      var r := Merge(cart, p);
      forall j, k | 0 <= j < k < |r| ensures r[j].name != r[k].name {
        assert r[j].name == cart[j].name && r[k].name == cart[k].name;
      }
    case None =>
      var r := cart + [NewLine(p)];
      forall j, k | 0 <= j < k < |r| ensures r[j].name != r[k].name {
        if k == |cart| {
          assert r[j] == cart[j];
        } else {
          assert r[j] == cart[j] && r[k] == cart[k];
        }
      }
  }

  /** Every valid add raises the item count by exactly 1. */
  lemma MergeCount(cart: seq<Item>, p: Product)
    requires IsValid(p)
    ensures TotalQuantity(Merge(cart, p)) == TotalQuantity(cart) + 1
  {
    match IndexOf(cart, p.name.value)
    case Some(i) =>
      TotalQuantityUpdate(cart, i, cart[i].(quantity := cart[i].quantity + 1));
    case None =>
      TotalQuantityAppend(cart, [NewLine(p)]);
      TotalQuantitySingle(NewLine(p));
  }

  /** Adding the same new product twice gives one line with quantity 2, not two lines. */
  lemma MergeTwice(cart: seq<Item>, p: Product)
    requires IsValid(p) && !Contains(cart, p.name.value)
    ensures Merge(Merge(cart, p), p) == cart + [NewLine(p).(quantity := 2)]
  {
    MergeNew(cart, p);
    var once := cart + [NewLine(p)];
    MergeExisting(once, p, |cart|);
  }

  /** Removing a product that was just added as a new line restores the cart. */
  lemma MergeThenRemove(cart: seq<Item>, p: Product)
    requires IsValid(p) && !Contains(cart, p.name.value)
    ensures WithoutName(Merge(cart, p), p.name.value) == cart
  {
    MergeNew(cart, p);
    WithoutNameAppend(cart, [NewLine(p)], p.name.value);
    WithoutNameAbsent(cart, p.name.value);
  }

  // ----- setting a quantity -----

  /** A known name: only the first matching item's quantity changes, to n. */
  lemma WithQuantityAt(cart: seq<Item>, name: string, n: int, i: nat)
    requires i < |cart| && cart[i].name == name
    requires forall j :: 0 <= j < i ==> cart[j].name != name
    ensures WithQuantity(cart, name, n) == cart[i := cart[i].(quantity := n)]
  {
    assert Contains(cart, name);
  }

  /** An unknown name changes nothing. */
  lemma WithQuantityUnknown(cart: seq<Item>, name: string, n: int)
    requires !Contains(cart, name)
    ensures WithQuantity(cart, name, n) == cart
  {
  }

  /** Setting a quantity n >= 1 keeps both invariants. */
  lemma WithQuantityPreservesWellFormed(cart: seq<Item>, name: string, n: int)
    requires WellFormed(cart) && n >= 1
    ensures WellFormed(WithQuantity(cart, name, n))
  {
    var r := WithQuantity(cart, name, n);
    assert |r| == |cart|;
    forall j, k | 0 <= j < k < |r| ensures r[j].name != r[k].name {
      assert r[j].name == cart[j].name && r[k].name == cart[k].name;
    }
  }

  /** Setting item i's quantity to n changes the item count by n minus its old quantity. */
  lemma WithQuantityCount(cart: seq<Item>, name: string, n: int, i: nat)
    requires i < |cart| && cart[i].name == name
    requires forall j :: 0 <= j < i ==> cart[j].name != name
    ensures TotalQuantity(WithQuantity(cart, name, n)) == TotalQuantity(cart) - cart[i].quantity + n
  {
    WithQuantityAt(cart, name, n, i);
    TotalQuantityUpdate(cart, i, cart[i].(quantity := n));
  }
}
