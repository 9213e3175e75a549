/** The wishlist store of `wishlist-service.ts`: an ordered list of entries that
    each confirmed request replaces wholesale. */
module WishlistStore {
  import opened Common

  datatype WishlistItem = WishlistItem(id: int, productId: int)

  /** The remote calls the store issues. */
  datatype WishlistCall =
    | GetWishlist                  // GET wishlist
    | PostWishlistItem(productId: int) // POST wishlist/add
    | DeleteWishlistItem(id: int)  // DELETE wishlist/items/{id}

  /** `items.filter(i => i.id !== id)`. */
  function WithoutEntry(items: seq<WishlistItem>, id: int): (r: seq<WishlistItem>)
    ensures |r| <= |items|
    ensures forall x :: x in r <==> x in items && x.id != id
  {
    if items == [] then []
    else
      var front := WithoutEntry(items[..|items| - 1], id);
      var last := items[|items| - 1];
      assert items == items[..|items| - 1] + [last];
      if last.id != id then front + [last] else front
  }

  /** Filtering distributes over concatenation, so the kept entries stay in
      their original order. */
  lemma {:induction false} WithoutEntryDistributes(a: seq<WishlistItem>, b: seq<WishlistItem>, id: int)
    ensures WithoutEntry(a + b, id) == WithoutEntry(a, id) + WithoutEntry(b, id)
  {
    if b == [] {
      assert a + b == a;
    } else {
      var front := b[..|b| - 1];
      var last := b[|b| - 1];
      assert (a + b)[..|a + b| - 1] == a + front;
      assert (a + b)[|a + b| - 1] == last;
      WithoutEntryDistributes(a, front, id);
    }
  }

  /** Removing an id no entry carries leaves the list as it was. */
  lemma {:induction false} RemoveAbsentEntryIsNoop(items: seq<WishlistItem>, id: int)
    requires forall j :: 0 <= j < |items| ==> items[j].id != id
    ensures WithoutEntry(items, id) == items
  {
    if items != [] {
      RemoveAbsentEntryIsNoop(items[..|items| - 1], id);
      assert items == items[..|items| - 1] + [items[|items| - 1]];
    }
  }

  /** Removing an entry just added under a fresh id restores the list. */
  lemma AddThenRemoveRestores(items: seq<WishlistItem>, added: WishlistItem)
    requires forall j :: 0 <= j < |items| ==> items[j].id != added.id
    ensures WithoutEntry(items + [added], added.id) == items
  {
    WithoutEntryDistributes(items, [added], added.id);
    RemoveAbsentEntryIsNoop(items, added.id);
  }

  /** `WishlistService`: the `wishlistSignal` list and the operations that replace it. */
  class WishlistService {
    var items: seq<WishlistItem>

    constructor()
      ensures items == []
    {
      items := [];
    }

    /** The computed `totalItems`. */
    function TotalItems(): (n: nat)
      reads this
      ensures n == |items|
      ensures n == 0 <==> items == []
    {
      |items|
    }

    /** `loadWishlist`: a delivered list replaces the held one wholesale. */
    method LoadWishlist(reply: Delivery<seq<WishlistItem>>) returns (call: WishlistCall)
      modifies this
      ensures call == GetWishlist
      ensures reply.Delivered? ==> items == reply.value
      ensures reply.Errored? ==> items == old(items)
    {
      call := GetWishlist;
      if reply.Delivered? {
        items := reply.value;
      }
    }

    /** `addToWishlist`: the returned entry goes at the end, with no de-duplication. */
    method AddToWishlist(productId: int, reply: Delivery<WishlistItem>) returns (call: WishlistCall)
      modifies this
      ensures call == PostWishlistItem(productId)
      ensures reply.Delivered? ==> items == old(items) + [reply.value] && TotalItems() == old(TotalItems()) + 1
      ensures reply.Errored? ==> items == old(items)
    {
      call := PostWishlistItem(productId);
      if reply.Delivered? {
        items := items + [reply.value];
      }
    }

    /** `removeFromWishlist`: once acknowledged, keep exactly the entries with a different id. */
    method RemoveFromWishlist(wishlistItemId: int, acknowledged: bool) returns (call: WishlistCall)
      modifies this
      ensures call == DeleteWishlistItem(wishlistItemId)
      ensures acknowledged ==> items == WithoutEntry(old(items), wishlistItemId)
      ensures !acknowledged ==> items == old(items)
      ensures (forall j :: 0 <= j < |old(items)| ==> old(items)[j].id != wishlistItemId) ==> items == old(items)
    {
      call := DeleteWishlistItem(wishlistItemId);
      if acknowledged {
        if forall j :: 0 <= j < |items| ==> items[j].id != wishlistItemId {
          RemoveAbsentEntryIsNoop(items, wishlistItemId);
        }
        items := WithoutEntry(items, wishlistItemId);
      }
    }

    /** `clearWishlist`: empties the list locally, with no remote call. */
    method ClearWishlist()
      modifies this
      ensures items == [] && TotalItems() == 0
    {
      items := [];
    }
  }
}
