/** The storefront's top-level component state (App.tsx): the current view,
    the cart, the logged-in user, and the tracking requests it sends. */
module App {
  import opened Schema
  import opened Checkout

  /** The page the app shows. */
  datatype ViewState = Home | ProductPage(product: Product) | JournalPage | CheckoutPage | LoginPage | AdminPage

  /** The user kept after login: the server's `{ id, username }` payload. */
  datatype SessionUser = SessionUser(id: int, username: string)

  /** The body of one POST /api/track request; the tracked user is the
      session's username. */
  datatype TrackRequest = TrackRequest(userId: string, actionType: string, productId: string)

  /** `splice(start, 1)` normalises its start index: a negative one counts
      from the end and is clamped at 0. */
  function SpliceStart(index: int, length: nat): (k: nat)
    ensures index >= 0 ==> k == index
    ensures index < 0 && length as int + index >= 0 ==> k == length as int + index
    ensures index < 0 && length as int + index < 0 ==> k == 0
  {
    if index >= 0 then index
    else if length as int + index >= 0 then length as int + index
    else 0
  }

  /** The cart after `splice(index, 1)`: the entry at the normalised index
      is removed, or nothing when it is past the end. */
  function SpliceOne(items: seq<Product>, index: int): (r: seq<Product>)
    ensures |items| > 0 && index < |items| ==> |r| == |items| - 1
    ensures (index >= |items| || |items| == 0) ==> r == items
  {
    var k := SpliceStart(index, |items|);
    if k < |items| then items[..k] + items[k + 1..] else items
  }

  /** With a valid index, exactly the i-th entry goes and the others keep
      their order; the subtotal falls by that entry's price. */
  lemma SpliceOneRemovesEntry(items: seq<Product>, i: int)
    requires 0 <= i < |items|
    ensures |SpliceOne(items, i)| == |items| - 1
    ensures forall j :: 0 <= j < i ==> SpliceOne(items, i)[j] == items[j]
    ensures forall j :: i <= j < |items| - 1 ==> SpliceOne(items, i)[j] == items[j + 1]
    ensures multiset(SpliceOne(items, i)) + multiset{items[i]} == multiset(items)
    ensures Subtotal(SpliceOne(items, i)) == Subtotal(items) - items[i].price
  {
    assert SpliceOne(items, i) == items[..i] + items[i + 1..];
    MultisetWithout(items, i);
    SubtotalWithout(items, i);
  }

  /** An index at or past the end removes nothing. */
  lemma SpliceOnePastEnd(items: seq<Product>, i: int)
    requires i >= |items|
    ensures SpliceOne(items, i) == items
  {
  }

  /** The buy requests checkout sends: one per cart entry, duplicates
      included, in cart order. */
  function BuyRequests(username: string, items: seq<Product>): (reqs: seq<TrackRequest>)
    ensures |reqs| == |items|
    ensures forall i :: 0 <= i < |items| ==> reqs[i] == TrackRequest(username, BuyAction, items[i].id)
  {
    seq(|items|, i requires 0 <= i < |items| => TrackRequest(username, BuyAction, items[i].id))
  }

  /** `splice(k, 1)` on the copied array: every entry after k moves one
      place left, so the first Length - 1 slots hold the array without
      entry k. */
  method RemoveAt(a: array<Product>, k: nat)
    requires k < a.Length
    modifies a
    ensures a[..a.Length - 1] == old(a[..k]) + old(a[k + 1..])
  {
    var j := k;
    while j < a.Length - 1
      invariant k <= j <= a.Length - 1
      invariant forall m :: 0 <= m < k ==> a[m] == old(a[m])
      invariant forall m :: k <= m < j ==> a[m] == old(a[m + 1])
      invariant forall m :: j <= m < a.Length ==> a[m] == old(a[m])
    {
      a[j] := a[j + 1];
      j := j + 1;
    }
    ghost var front, back := old(a[..k]), old(a[k + 1..]);
    assert forall m :: 0 <= m < a.Length - 1 ==> a[m] == (front + back)[m];
  }

  class AppState {
    var view: ViewState
    var cartItems: seq<Product>
    var isCartOpen: bool
    var user: Option<SessionUser>
    /** The tracking requests sent so far, in order. */
    var sentTracks: seq<TrackRequest>

    /** The initial state, with the user restored from local storage if
        one was saved. */
    constructor (savedUser: Option<SessionUser>)
      ensures view == Home && cartItems == [] && !isCartOpen
      ensures user == savedUser && sentTracks == []
    {
      view := Home;
      cartItems := [];
      isCartOpen := false;
      user := savedUser;
      sentTracks := [];
    }

    /** `trackAction`: without a logged-in user nothing is sent; otherwise
        one request naming the user is sent. */
    method TrackAction(actionType: string, productId: string)
      modifies this
      ensures view == old(view) && cartItems == old(cartItems)
      ensures isCartOpen == old(isCartOpen) && user == old(user)
      ensures user.None? ==> sentTracks == old(sentTracks)
      ensures user.Some? ==> sentTracks == old(sentTracks) + [TrackRequest(user.value.username, actionType, productId)]
    {
      if user.None? {
        return;
      }
      sentTracks := sentTracks + [TrackRequest(user.value.username, actionType, productId)];
    }

    /** `addToCart`: the product is appended and the drawer opens. */
    method AddToCart(product: Product)
      modifies this
      ensures cartItems == old(cartItems) + [product]
      ensures isCartOpen
      ensures view == old(view) && user == old(user) && sentTracks == old(sentTracks)
      ensures Subtotal(cartItems) == Subtotal(old(cartItems)) + product.price
    {
      SubtotalAppend(cartItems, [product]);
      assert [product][..0] == [];
      cartItems := cartItems + [product];
      isCartOpen := true;
    }

    /** `removeFromCart`: copies the cart into a fresh array, removes one
        entry from the copy in place, and installs the copy. */
    method RemoveFromCart(index: int)
      modifies this
      ensures cartItems == SpliceOne(old(cartItems), index)
      ensures view == old(view) && isCartOpen == old(isCartOpen)
      ensures user == old(user) && sentTracks == old(sentTracks)
    {
      var n := |cartItems|;
      var newItems := new Product[n];
      forall i | 0 <= i < n {
        newItems[i] := cartItems[i];
      }
      assert newItems[..] == cartItems;
      var k := SpliceStart(index, n);
      if k < n {
        RemoveAt(newItems, k);
        assert newItems[..n - 1] == SpliceOne(old(cartItems), index);
        cartItems := newItems[..n - 1];
      } else {
        cartItems := newItems[..];
      }
    }

    /** Adding from the product page also records a view. */
    method AddToCartFromDetail(product: Product)
      modifies this
      ensures cartItems == old(cartItems) + [product] && isCartOpen
      ensures view == old(view) && user == old(user)
      ensures user.Some? ==> sentTracks == old(sentTracks) + [TrackRequest(user.value.username, ViewAction, product.id)]
      ensures user.None? ==> sentTracks == old(sentTracks)
    {
      AddToCart(product);
      TrackAction(ViewAction, product.id);
    }

    /** Clicking a grid card records a click and opens the product page. */
    method OpenProduct(product: Product)
      modifies this
      ensures view == ProductPage(product)
      ensures cartItems == old(cartItems) && isCartOpen == old(isCartOpen) && user == old(user)
      ensures user.Some? ==> sentTracks == old(sentTracks) + [TrackRequest(user.value.username, ClickAction, product.id)]
      ensures user.None? ==> sentTracks == old(sentTracks)
    {
      TrackAction(ClickAction, product.id);
      view := ProductPage(product);
    }

    /** Checkout's `onComplete`: one buy request per cart entry, then an
        empty cart and the home page. */
    method CompleteCheckout()
      modifies this
      ensures cartItems == [] && view == Home
      ensures isCartOpen == old(isCartOpen) && user == old(user)
      ensures user.Some? ==> sentTracks == old(sentTracks) + BuyRequests(user.value.username, old(cartItems))
      ensures user.None? ==> sentTracks == old(sentTracks)
    {
      var items := cartItems;
      var i := 0;
      while i < |items|
        invariant 0 <= i <= |items|
        invariant cartItems == items && view == old(view)
        invariant isCartOpen == old(isCartOpen) && user == old(user)
        invariant user.Some? ==> sentTracks == old(sentTracks) + BuyRequests(user.value.username, items[..i])
        invariant user.None? ==> sentTracks == old(sentTracks)
      {
        TrackAction(BuyAction, items[i].id);
        assert user.Some? ==>
          BuyRequests(user.value.username, items[..i + 1])
          == BuyRequests(user.value.username, items[..i]) + [TrackRequest(user.value.username, BuyAction, items[i].id)];
        i := i + 1;
      }
      assert items[..|items|] == items;
      cartItems := [];
      view := Home;
    }
  }
}
