/** The cart snapshot store of `cart-service.ts`: one optional cart whose items
    are kept in insertion order, derived totals computed as sums, and the local
    patch each server-confirmed operation applies. Prices are whole cents. */
module CartStore {
  import opened Common

  datatype CartItem = CartItem(id: int, productId: int, quantity: int, unitPrice: int, totalPrice: int)

  datatype Cart = Cart(id: int, appUserId: string, cartItems: seq<CartItem>, totalAmount: int, createdOn: string)

  /** The remote calls the store issues, with the body or path parameter each carries. */
  datatype CartCall =
    | GetUserCart                                   // GET api/cart/user
    | PostCart(appUserId: string, createdBy: string) // POST api/cart
    | PostCartItem(cartId: int, productId: int, quantity: int, unitPrice: int, totalPrice: int, createdBy: string)
    | PutCartItem(id: int, quantity: int)           // PUT api/CartItem
    | DeleteCartItem(id: int)                       // DELETE api/cartitem/{id}
    | DeleteCartContents(cartId: int)               // DELETE api/cart/clear/{id}

  /** How `addToCart` ends: it throws for a signed-out user, it finds no cart
      even after creating one, or it posts the item. */
  datatype AddOutcome = NotLoggedIn | NoCart | Posted

  function Quantity(i: CartItem): int { i.quantity }
  function TotalPrice(i: CartItem): int { i.totalPrice }
  function LineTotal(i: CartItem): int { i.unitPrice * i.quantity }
  function ItemId(i: CartItem): int { i.id }
  function ProductId(i: CartItem): int { i.productId }

  /** `items.reduce((sum, i) => sum + f(i), 0)`, folded from the left. */
  function Sum(items: seq<CartItem>, f: CartItem -> int): int
  {
    if items == [] then 0 else Sum(items[..|items| - 1], f) + f(items[|items| - 1])
  }

  lemma SumAppend(items: seq<CartItem>, x: CartItem, f: CartItem -> int)
    ensures Sum(items + [x], f) == Sum(items, f) + f(x)
  {
    assert (items + [x])[..|items|] == items;
  }

  /** Replacing one item changes a sum by the difference of that item's terms. */
  lemma {:induction false} SumUpdate(items: seq<CartItem>, i: nat, x: CartItem, f: CartItem -> int)
    requires i < |items|
    ensures Sum(items[i := x], f) == Sum(items, f) - f(items[i]) + f(x)
  {
    var n := |items|;
    if i == n - 1 {
      assert items[i := x][..n - 1] == items[..n - 1];
    } else {
      assert items[i := x][..n - 1] == items[..n - 1][i := x];
      SumUpdate(items[..n - 1], i, x, f);
    }
  }

  /** At most one item per product. */
  predicate UniqueProducts(items: seq<CartItem>)
  {
    forall i, j :: 0 <= i < j < |items| ==> items[i].productId != items[j].productId
  }

  /** `items.find(i => key(i) === k)`, as the index of the first match. */
  function IndexOf(items: seq<CartItem>, key: CartItem -> int, k: int): (r: Option<nat>)
    ensures r.Some? ==> r.value < |items| && key(items[r.value]) == k
    ensures r.Some? ==> forall j :: 0 <= j < r.value ==> key(items[j]) != k
    ensures r.None? ==> forall j :: 0 <= j < |items| ==> key(items[j]) != k
  {
    if items == [] then None
    else if key(items[0]) == k then Some(0)
    else match IndexOf(items[1..], key, k)
      case None => None
      case Some(i) => Some(i + 1)
  }

  // ---------------------------------------------------------------------------
  // loadCart normalisation
  // ---------------------------------------------------------------------------

  /** The cart `loadCart` publishes: every `totalPrice` recomputed as
      `unitPrice * quantity`, then `totalAmount` recomputed as their sum. */
  function Normalized(c: Cart): (r: Cart)
    ensures r.id == c.id && r.appUserId == c.appUserId && r.createdOn == c.createdOn
    ensures |r.cartItems| == |c.cartItems|
    ensures forall i :: 0 <= i < |c.cartItems| ==>
      r.cartItems[i] == c.cartItems[i].(totalPrice := c.cartItems[i].unitPrice * c.cartItems[i].quantity)
  {
    var items := seq(|c.cartItems|, i requires 0 <= i < |c.cartItems| =>
      c.cartItems[i].(totalPrice := c.cartItems[i].unitPrice * c.cartItems[i].quantity));
    c.(cartItems := items, totalAmount := Sum(items, TotalPrice))
  }

  /** Items whose stored total agrees with their price and quantity. */
  predicate Consistent(items: seq<CartItem>)
  {
    forall i :: 0 <= i < |items| ==> items[i].totalPrice == items[i].unitPrice * items[i].quantity
  }

  /** The sum of stored totals equals the sum of line totals exactly when each item is consistent. */
  lemma {:induction false} ConsistentSums(items: seq<CartItem>)
    requires Consistent(items)
    ensures Sum(items, TotalPrice) == Sum(items, LineTotal)
  {
    if items != [] {
      ConsistentSums(items[..|items| - 1]);
    }
  }

  /** After normalisation the cart is internally consistent: every item total is
      its line total, and the stored `totalAmount` is both the sum of item totals
      and the sum of the original items' line totals. Nothing else about an item
      changes, so normalising twice is normalising once. */
  lemma NormalizedIsConsistent(c: Cart)
    ensures Consistent(Normalized(c).cartItems)
    ensures Normalized(c).totalAmount == Sum(Normalized(c).cartItems, TotalPrice)
    ensures Normalized(c).totalAmount == Sum(c.cartItems, LineTotal)
    ensures UniqueProducts(c.cartItems) ==> UniqueProducts(Normalized(c).cartItems)
    ensures Normalized(Normalized(c)) == Normalized(c)
  {
    var r := Normalized(c);
    ConsistentSums(r.cartItems);
    SameLineTotals(c.cartItems, r.cartItems);
    var rr := Normalized(r);
    assert rr.cartItems == r.cartItems by {
      forall i | 0 <= i < |r.cartItems| ensures rr.cartItems[i] == r.cartItems[i] {
        assert r.cartItems[i].totalPrice == r.cartItems[i].unitPrice * r.cartItems[i].quantity;
      }
    }
  }

  /** Two item lists that agree on every price and quantity have the same line-total sum. */
  lemma {:induction false} SameLineTotals(a: seq<CartItem>, b: seq<CartItem>)
    requires |a| == |b|
    requires forall i :: 0 <= i < |a| ==> a[i].unitPrice == b[i].unitPrice && a[i].quantity == b[i].quantity
    ensures Sum(a, LineTotal) == Sum(b, LineTotal)
  {
    if a != [] {
      SameLineTotals(a[..|a| - 1], b[..|b| - 1]);
    }
  }

  // ---------------------------------------------------------------------------
  // addToCart: merge or append
  // ---------------------------------------------------------------------------

  /** The item list after a confirmed add: the first item for the same product
      takes the added quantity and total and the latest unit price; with no such
      item the added one goes at the end. */
  function MergeAdded(items: seq<CartItem>, added: CartItem): (r: seq<CartItem>)
    ensures |r| == |items| || r == items + [added]
    ensures (exists j :: 0 <= j < |items| && items[j].productId == added.productId) ==> |r| == |items|
    ensures (forall j :: 0 <= j < |items| ==> items[j].productId != added.productId) ==> r == items + [added]
    ensures forall j :: 0 <= j < |items| && items[j].productId != added.productId ==> r[j] == items[j]
  {
    match IndexOf(items, ProductId, added.productId)
    case Some(i) =>
      items[i := items[i].(quantity := items[i].quantity + added.quantity,
                           unitPrice := added.unitPrice,
                           totalPrice := items[i].totalPrice + added.totalPrice)]
    case None => items + [added]
  }

  /** A merge into the first item for the product replaces that item in place,
      with the summed quantity and total and the new unit price, and keeps its
      id; every other item, including later ones for the same product, stays. */
  lemma MergeIntoExisting(items: seq<CartItem>, added: CartItem, i: nat)
    requires i < |items| && items[i].productId == added.productId
    requires forall j :: 0 <= j < i ==> items[j].productId != added.productId
    ensures MergeAdded(items, added) == items[i := CartItem(items[i].id, added.productId,
      items[i].quantity + added.quantity, added.unitPrice, items[i].totalPrice + added.totalPrice)]
  {
    var k := IndexOf(items, ProductId, added.productId);
    assert k == Some(i) by {
      assert ProductId(items[i]) == added.productId;
      assert forall j :: 0 <= j < i ==> ProductId(items[j]) != added.productId;
    }
  }

  /** Both computed totals grow by exactly what the add reports. */
  lemma MergeAddsToTotals(items: seq<CartItem>, added: CartItem)
    ensures Sum(MergeAdded(items, added), Quantity) == Sum(items, Quantity) + added.quantity
    ensures Sum(MergeAdded(items, added), TotalPrice) == Sum(items, TotalPrice) + added.totalPrice
  {
    match IndexOf(items, ProductId, added.productId)
    case Some(i) =>
      var merged := items[i].(quantity := items[i].quantity + added.quantity,
                              unitPrice := added.unitPrice,
                              totalPrice := items[i].totalPrice + added.totalPrice);
      SumUpdate(items, i, merged, Quantity);
      SumUpdate(items, i, merged, TotalPrice);
    case None =>
      SumAppend(items, added, Quantity);
      SumAppend(items, added, TotalPrice);
  }

  /** If no product appears twice before an add, none appears twice after it. */
  lemma MergeKeepsProductsUnique(items: seq<CartItem>, added: CartItem)
    requires UniqueProducts(items)
    ensures UniqueProducts(MergeAdded(items, added))
  {
    var r := MergeAdded(items, added);
    match IndexOf(items, ProductId, added.productId)
    case Some(i) =>
      assert forall j :: 0 <= j < |items| ==> r[j].productId == items[j].productId;
    case None =>
      assert forall j :: 0 <= j < |items| ==> ProductId(items[j]) != added.productId;
  }

  /** Adding the same new product twice leaves one line at the end of the list
      holding both quantities, both totals and the later unit price. */
  lemma AddSameProductTwice(items: seq<CartItem>, first: CartItem, second: CartItem)
    requires first.productId == second.productId
    requires forall j :: 0 <= j < |items| ==> items[j].productId != first.productId
    ensures MergeAdded(MergeAdded(items, first), second) ==
      items + [first.(quantity := first.quantity + second.quantity,
                      unitPrice := second.unitPrice,
                      totalPrice := first.totalPrice + second.totalPrice)]
  {
    var once := MergeAdded(items, first);
    assert once == items + [first];
    var k := IndexOf(once, ProductId, second.productId);
    assert k == Some(|items|) by {
      assert ProductId(once[|items|]) == second.productId;
      assert forall j :: 0 <= j < |items| ==> ProductId(once[j]) != second.productId;
    }
  }

  // ---------------------------------------------------------------------------
  // updateQuantity: field patch
  // ---------------------------------------------------------------------------

  /** The item list after a confirmed quantity update: the first item with the
      given id takes the server's quantity and total; nothing else changes. */
  function PatchQuantity(items: seq<CartItem>, cartItemId: int, quantity: int, totalPrice: int): (r: seq<CartItem>)
    ensures |r| == |items|
    ensures forall j :: 0 <= j < |items| ==>
      r[j].id == items[j].id && r[j].productId == items[j].productId && r[j].unitPrice == items[j].unitPrice
    ensures forall j :: 0 <= j < |items| && items[j].id != cartItemId ==> r[j] == items[j]
    ensures (forall j :: 0 <= j < |items| ==> items[j].id != cartItemId) ==> r == items
    ensures forall j :: 0 <= j < |items| && r[j] != items[j] ==> r[j].quantity == quantity && r[j].totalPrice == totalPrice
  {
    match IndexOf(items, ItemId, cartItemId)
    case None => items
    case Some(i) => items[i := items[i].(quantity := quantity, totalPrice := totalPrice)]
  }

  /** The patched item is the first one with that id, and the computed amount
      moves by the difference between its new and old totals. */
  lemma PatchFirstMatch(items: seq<CartItem>, cartItemId: int, quantity: int, totalPrice: int, i: nat)
    requires i < |items| && items[i].id == cartItemId
    requires forall j :: 0 <= j < i ==> items[j].id != cartItemId
    ensures PatchQuantity(items, cartItemId, quantity, totalPrice)[i].quantity == quantity
    ensures PatchQuantity(items, cartItemId, quantity, totalPrice)[i].totalPrice == totalPrice
    ensures Sum(PatchQuantity(items, cartItemId, quantity, totalPrice), TotalPrice)
      == Sum(items, TotalPrice) - items[i].totalPrice + totalPrice
  {
    assert IndexOf(items, ItemId, cartItemId) == Some(i) by {
      assert ItemId(items[i]) == cartItemId;
      assert forall j :: 0 <= j < i ==> ItemId(items[j]) != cartItemId;
    }
    SumUpdate(items, i, items[i].(quantity := quantity, totalPrice := totalPrice), TotalPrice);
  }

  // ---------------------------------------------------------------------------
  // removeItem: filter
  // ---------------------------------------------------------------------------

  /** `items.filter(i => i.id !== cartItemId)`. */
  function WithoutItem(items: seq<CartItem>, cartItemId: int): (r: seq<CartItem>)
    ensures |r| <= |items|
    ensures forall x :: x in r <==> x in items && x.id != cartItemId
  {
    if items == [] then []
    else
      var front := WithoutItem(items[..|items| - 1], cartItemId);
      var last := items[|items| - 1];
      assert items == items[..|items| - 1] + [last];
      if last.id != cartItemId then front + [last] else front
  }

  /** Filtering distributes over concatenation, so the kept items stay in
      their original order and keep their multiplicity. */
  lemma {:induction false} WithoutItemDistributes(a: seq<CartItem>, b: seq<CartItem>, cartItemId: int)
    ensures WithoutItem(a + b, cartItemId) == WithoutItem(a, cartItemId) + WithoutItem(b, cartItemId)
  {
    if b == [] {
      assert a + b == a;
    } else {
      var front := b[..|b| - 1];
      var last := b[|b| - 1];
      assert (a + b)[..|a + b| - 1] == a + front;
      assert (a + b)[|a + b| - 1] == last;
      WithoutItemDistributes(a, front, cartItemId);
    }
  }

  /** Removing an id no item carries leaves the list as it was. */
  lemma {:induction false} RemoveAbsentIsNoop(items: seq<CartItem>, cartItemId: int)
    requires forall j :: 0 <= j < |items| ==> items[j].id != cartItemId
    ensures WithoutItem(items, cartItemId) == items
  {
    if items != [] {
      RemoveAbsentIsNoop(items[..|items| - 1], cartItemId);
      assert items == items[..|items| - 1] + [items[|items| - 1]];
    }
  }

  /** Removing items never introduces a duplicate product. */
  lemma {:induction false} RemoveKeepsProductsUnique(items: seq<CartItem>, cartItemId: int)
    requires UniqueProducts(items)
    ensures UniqueProducts(WithoutItem(items, cartItemId))
  {
    if items != [] {
      var front := items[..|items| - 1];
      var last := items[|items| - 1];
      RemoveKeepsProductsUnique(front, cartItemId);
      var kept := WithoutItem(front, cartItemId);
      forall x | x in kept ensures x.productId != last.productId {
        var j :| 0 <= j < |front| && front[j] == x;
        assert items[j] == x;
      }
    }
  }

  /** The computed totals drop by exactly the removed items' share. */
  lemma {:induction false} RemoveSubtracts(items: seq<CartItem>, cartItemId: int, f: CartItem -> int)
    ensures Sum(WithoutItem(items, cartItemId), f) == Sum(items, f) - SumOfId(items, cartItemId, f)
  {
    if items != [] {
      var front := items[..|items| - 1];
      var last := items[|items| - 1];
      RemoveSubtracts(front, cartItemId, f);
      if last.id != cartItemId {
        SumAppend(WithoutItem(front, cartItemId), last, f);
      }
    }
  }

  /** The sum of `f` over the items that carry `cartItemId`. */
  function SumOfId(items: seq<CartItem>, cartItemId: int, f: CartItem -> int): int
  {
    if items == [] then 0
    else
      var last := items[|items| - 1];
      SumOfId(items[..|items| - 1], cartItemId, f) + (if last.id == cartItemId then f(last) else 0)
  }

  // ---------------------------------------------------------------------------
  // clearCart
  // ---------------------------------------------------------------------------

  /** The cart `clearCart` publishes: same identity, owner and creation time, no items, amount 0. */
  function Cleared(c: Cart): (r: Cart)
    ensures r.id == c.id && r.appUserId == c.appUserId && r.createdOn == c.createdOn
    ensures r.cartItems == [] && r.totalAmount == 0
    ensures Sum(r.cartItems, Quantity) == 0 && Sum(r.cartItems, TotalPrice) == 0
  {
    Cart(c.id, c.appUserId, [], 0, c.createdOn)
  }

  // ---------------------------------------------------------------------------
  // The store
  // ---------------------------------------------------------------------------

  /** Whether a reply reached the `next` callback with `isSuccess` set. */
  predicate Accepted<T>(reply: Delivery<ApiEnvelope<T>>)
  {
    reply.Delivered? && reply.value.isSuccess
  }

  /** The cart slot after `createCart`'s reply when no cart was held before. */
  function CreatedCart(reply: Delivery<ApiEnvelope<Cart>>): Option<Cart>
  {
    if Accepted(reply) then reply.value.result else None
  }

  predicate UniqueCart(c: Option<Cart>)
  {
    c.None? || UniqueProducts(c.value.cartItems)
  }

  /** `CartService`: the `cartSignal` slot and the operations that replace it.
      Each operation issues its call and then applies its reply in one step. */
  class CartService {
    var cart: Option<Cart>

    constructor()
      ensures cart == None
    {
      cart := None;
    }

    /** The computed `totalItems`: the sum of quantities, 0 without a cart. */
    function TotalItems(): (n: int)
      reads this
      ensures cart.None? ==> n == 0
      ensures cart.Some? ==> n == Sum(cart.value.cartItems, Quantity)
    {
      if cart.None? then 0 else Sum(cart.value.cartItems, Quantity)
    }

    /** The computed `totalAmount`: the sum of item totals, 0 without a cart. */
    function TotalAmount(): (n: int)
      reads this
      ensures cart.None? ==> n == 0
      ensures cart.Some? ==> n == Sum(cart.value.cartItems, TotalPrice)
    {
      if cart.None? then 0 else Sum(cart.value.cartItems, TotalPrice)
    }

    /** `loadCart`: fetch the user's cart; publish it normalised on success; on a
        failed or errored fetch fall back to `createCart`. */
    method LoadCart(user: Option<User>, loadReply: Delivery<ApiEnvelope<Cart>>,
                    createReply: Delivery<ApiEnvelope<Cart>>) returns (calls: seq<CartCall>)
      modifies this
      ensures Accepted(loadReply) && loadReply.value.result.Some? ==>
        calls == [GetUserCart] && cart == Some(Normalized(loadReply.value.result.value))
        && cart.value.totalAmount == TotalAmount() && Consistent(cart.value.cartItems)
      ensures Accepted(loadReply) && loadReply.value.result.None? ==>
        calls == [GetUserCart] && cart == old(cart)
      ensures !Accepted(loadReply) && user.None? ==> calls == [GetUserCart] && cart == old(cart)
      ensures !Accepted(loadReply) && user.Some? ==>
        calls == [GetUserCart, PostCart(user.value.id, user.value.id)]
        && cart == (if Accepted(createReply) then createReply.value.result else old(cart))
    {
      calls := [GetUserCart];
      if loadReply.Delivered? && loadReply.value.isSuccess {
        match loadReply.value.result
        case Some(c) =>
          NormalizedIsConsistent(c);
          cart := Some(Normalized(c));
        case None =>
          // reading `cart.cartItems` of a missing result throws in the callback,
          // so nothing is published
      } else {
        var created := CreateCart(user, createReply);
        calls := calls + created;
      }
    }

    /** `createCart`: nothing without a user; otherwise post a cart for the user
        and hold the reply's result when it reports success. */
    method CreateCart(user: Option<User>, reply: Delivery<ApiEnvelope<Cart>>) returns (calls: seq<CartCall>)
      modifies this
      ensures user.None? ==> calls == [] && cart == old(cart)
      ensures user.Some? ==> calls == [PostCart(user.value.id, user.value.id)]
      ensures user.Some? && Accepted(reply) ==> cart == reply.value.result
      ensures !(user.Some? && Accepted(reply)) ==> cart == old(cart)
    {
      calls := [];
      if user.None? {
        return;
      }
      calls := [PostCart(user.value.id, user.value.id)];
      if reply.Delivered? && reply.value.isSuccess {
        cart := reply.value.result;
      }
    }

    /** `addToCart`: throws for a signed-out user; without a cart, creates one and
        retries once; then posts the item with its real total and merges the
        confirmed item into the cart. */
    method AddToCart(user: Option<User>, productId: int, quantity: int, unitPrice: int,
                     createReply: Delivery<ApiEnvelope<Cart>>, addReply: Delivery<ApiEnvelope<CartItem>>)
      returns (outcome: AddOutcome, calls: seq<CartCall>)
      modifies this
      ensures user.None? ==> outcome == NotLoggedIn && calls == [] && cart == old(cart)
      ensures user.Some? && old(cart).None? && CreatedCart(createReply).None? ==>
        outcome == NoCart && calls == [PostCart(user.value.id, user.value.id)] && cart == None
      ensures user.Some? && (old(cart).Some? || CreatedCart(createReply).Some?) ==>
        var held := if old(cart).Some? then old(cart).value else CreatedCart(createReply).value;
        && outcome == Posted
        && calls == (if old(cart).Some? then [] else [PostCart(user.value.id, user.value.id)])
                    + [PostCartItem(held.id, productId, quantity, unitPrice, unitPrice * quantity, user.value.id)]
        && cart == (if Accepted(addReply) && addReply.value.result.Some?
                    then Some(held.(cartItems := MergeAdded(held.cartItems, addReply.value.result.value)))
                    else Some(held))
      ensures |calls| <= 2
      ensures UniqueCart(old(cart)) && UniqueCart(CreatedCart(createReply)) ==> UniqueCart(cart)
    {
      calls := [];
      if user.None? {
        outcome := NotLoggedIn;
        return;
      }
      if cart.None? {
        calls := CreateCart(user, createReply);
        if cart.None? {
          outcome := NoCart;
          return;
        }
      }
      var posted := PostItem(user.value, productId, quantity, unitPrice, addReply);
      calls := calls + [posted];
      outcome := Posted;
    }

    /** The part of `addToCart` that runs once a cart is held: post the item and
        apply the confirmed item. */
    method PostItem(user: User, productId: int, quantity: int, unitPrice: int,
                    addReply: Delivery<ApiEnvelope<CartItem>>) returns (call: CartCall)
      requires cart.Some?
      modifies this
      ensures call == PostCartItem(old(cart).value.id, productId, quantity, unitPrice, unitPrice * quantity, user.id)
      ensures Accepted(addReply) && addReply.value.result.Some? ==>
        cart == Some(old(cart).value.(cartItems := MergeAdded(old(cart).value.cartItems, addReply.value.result.value)))
        && TotalItems() == old(TotalItems()) + addReply.value.result.value.quantity
        && TotalAmount() == old(TotalAmount()) + addReply.value.result.value.totalPrice
      ensures !(Accepted(addReply) && addReply.value.result.Some?) ==> cart == old(cart)
      ensures UniqueCart(old(cart)) ==> UniqueCart(cart)
    {
      var c := cart.value;
      call := PostCartItem(c.id, productId, quantity, unitPrice, unitPrice * quantity, user.id);
      if !addReply.Delivered? || !addReply.value.isSuccess || addReply.value.result.None? {
        return;
      }
      var added := addReply.value.result.value;
      var items := c.cartItems;
      var existing := IndexOf(items, ProductId, added.productId);
      if existing.Some? {
        var i := existing.value;
        items := items[i := items[i].(quantity := items[i].quantity + added.quantity,
                                      unitPrice := added.unitPrice,
                                      totalPrice := items[i].totalPrice + added.totalPrice)];
      } else {
        items := items + [added];
      }
      assert items == MergeAdded(c.cartItems, added);
      MergeAddsToTotals(c.cartItems, added);
      if UniqueProducts(c.cartItems) {
        MergeKeepsProductsUnique(c.cartItems, added);
      }
      cart := Some(c.(cartItems := items));
    }

    /** `updateQuantity`: send the requested quantity; when the reply carries a
        result, overwrite quantity and total of the matching item with the
        server's figures. The reply's `isSuccess` flag is not consulted. */
    method UpdateQuantity(cartItemId: int, quantity: int, reply: Delivery<ApiEnvelope<CartItem>>)
      returns (calls: seq<CartCall>)
      modifies this
      ensures calls == [PutCartItem(cartItemId, quantity)]
      ensures reply.Delivered? && reply.value.result.Some? && old(cart).Some? ==>
        cart == Some(old(cart).value.(cartItems := PatchQuantity(old(cart).value.cartItems, cartItemId,
          reply.value.result.value.quantity, reply.value.result.value.totalPrice)))
      ensures !(reply.Delivered? && reply.value.result.Some?) || old(cart).None? ==> cart == old(cart)
      ensures old(cart).Some? && (forall j :: 0 <= j < |old(cart).value.cartItems| ==> old(cart).value.cartItems[j].id != cartItemId)
        ==> cart == old(cart)
      ensures UniqueCart(old(cart)) ==> UniqueCart(cart)
    {
      calls := [PutCartItem(cartItemId, quantity)];
      if !reply.Delivered? || reply.value.result.None? || cart.None? {
        return;
      }
      var c := cart.value;
      var patched := PatchQuantity(c.cartItems, cartItemId, reply.value.result.value.quantity,
                                   reply.value.result.value.totalPrice);
      cart := Some(c.(cartItems := patched));
    }

    /** `removeItem`: delete the item remotely; once acknowledged, keep exactly
        the items with a different id. */
    method RemoveItem(cartItemId: int, acknowledged: bool) returns (calls: seq<CartCall>)
      modifies this
      ensures calls == [DeleteCartItem(cartItemId)]
      ensures acknowledged && old(cart).Some? ==>
        cart == Some(old(cart).value.(cartItems := WithoutItem(old(cart).value.cartItems, cartItemId)))
      ensures !acknowledged || old(cart).None? ==> cart == old(cart)
      ensures old(cart).Some? && (forall j :: 0 <= j < |old(cart).value.cartItems| ==> old(cart).value.cartItems[j].id != cartItemId)
        ==> cart == old(cart)
      ensures UniqueCart(old(cart)) ==> UniqueCart(cart)
    {
      calls := [DeleteCartItem(cartItemId)];
      if !acknowledged || cart.None? {
        return;
      }
      var c := cart.value;
      RemoveAbsentIsNoopWhenAbsent(c.cartItems, cartItemId);
      if UniqueProducts(c.cartItems) {
        RemoveKeepsProductsUnique(c.cartItems, cartItemId);
      }
      cart := Some(c.(cartItems := WithoutItem(c.cartItems, cartItemId)));
    }

    /** `clearCart`: nothing without a cart; otherwise clear it remotely and,
        once acknowledged, publish the emptied cart with the same identity. */
    method ClearCart(acknowledged: bool) returns (calls: seq<CartCall>)
      modifies this
      ensures old(cart).None? ==> calls == [] && cart == None
      ensures old(cart).Some? ==> calls == [DeleteCartContents(old(cart).value.id)]
      ensures old(cart).Some? && acknowledged ==> cart == Some(Cleared(old(cart).value)) && TotalItems() == 0 && TotalAmount() == 0
      ensures !acknowledged ==> cart == old(cart)
    {
      calls := [];
      if cart.None? {
        return;
      }
      var c := cart.value;
      calls := [DeleteCartContents(c.id)];
      if acknowledged {
        cart := Some(Cleared(c));
      }
    }
  }

  lemma RemoveAbsentIsNoopWhenAbsent(items: seq<CartItem>, cartItemId: int)
    ensures (forall j :: 0 <= j < |items| ==> items[j].id != cartItemId) ==> WithoutItem(items, cartItemId) == items
  {
    if forall j :: 0 <= j < |items| ==> items[j].id != cartItemId {
      RemoveAbsentIsNoop(items, cartItemId);
    }
  }

  // ---------------------------------------------------------------------------
  // addToCart as written: the retry after createCart
  // ---------------------------------------------------------------------------

  /** Where the source's `addToCart` ends up after `depth` nested calls. */
  datatype AsWrittenEnd = Threw | PostedItem | StillRecursing

  /** `addToCart` exactly as written, unrolled `depth` times. `createCart` only
      sends its request; its reply is handled after the synchronous call chain,
      so every retry sees the same missing cart. */
  function AddToCartAsWritten(depth: nat, user: Option<User>, cart: Option<Cart>,
                              productId: int, quantity: int, unitPrice: int): (r: (seq<CartCall>, AsWrittenEnd))
    ensures r.1 == Threw <==> user.None?
    ensures r.1 == PostedItem <==> user.Some? && cart.Some?
    ensures |r.0| <= depth + 1
  {
    if user.None? then ([], Threw)
    else if cart.None? then
      if depth == 0 then ([], StillRecursing)
      else
        var rest := AddToCartAsWritten(depth - 1, user, cart, productId, quantity, unitPrice);
        ([PostCart(user.value.id, user.value.id)] + rest.0, rest.1)
    else
      ([PostCartItem(cart.value.id, productId, quantity, unitPrice, unitPrice * quantity, user.value.id)], PostedItem)
  }

  /** For a signed-in user with no cart held, the source's retry never posts the
      item however deep the recursion goes: each level only sends one more
      create-cart request. */
  lemma {:induction false} RetryNeverReachesPost(depth: nat, user: User, productId: int, quantity: int, unitPrice: int)
    ensures var (calls, end) := AddToCartAsWritten(depth, Some(user), None, productId, quantity, unitPrice);
      && end == StillRecursing
      && |calls| == depth
      && forall k :: 0 <= k < depth ==> calls[k] == PostCart(user.id, user.id)
  {
    if depth > 0 {
      RetryNeverReachesPost(depth - 1, user, productId, quantity, unitPrice);
    }
  }
}
