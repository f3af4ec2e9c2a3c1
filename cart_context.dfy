/** The cart store (context/CartContext.jsx): a client-side mirror of the server cart. Every
    mutation is a request followed by a full re-read of the cart; a failed read resets the mirror
    to empty. Each method takes the outcomes of the requests it awaits. */
module CartContext {
  import opened Wrappers

  /** The product a cart line refers to, as the server populates it. */
  datatype Product = Product(id: string, name: string, price: int, discountRate: Option<int>,
                             images: Option<seq<string>>)

  /** One cart line; `productId` is missing when the product behind it is gone. */
  datatype CartItem = CartItem(id: string, productId: Option<Product>, size: int, quantity: int,
                               selectedImage: Option<string>)

  /** The body of `GET /cart`. */
  datatype CartReply = CartReply(items: Option<seq<CartItem>>)

  /** The body of `POST /cart`. */
  datatype Line = Line(productId: string, size: int, quantity: int, selectedImage: Option<string>)

  datatype Notice = LoginRequired | AddFailed | OrderPlaced | OrderFailed

  /** What the store sends or shows, in order: requests, alerts and navigations. */
  datatype Event =
    | GetCart
    | PostCart(line: Line)
    | PutQuantity(itemId: string, quantity: int)
    | DeleteItem(itemId: string)
    | PostOrder
    | Alert(notice: Notice)
    | Navigate(path: string)

  /** `items.reduce((acc, item) => acc + item.quantity, 0)` */
  function QuantitySum(items: seq<CartItem>): int {
    if |items| == 0 then 0 else QuantitySum(items[..|items| - 1]) + items[|items| - 1].quantity
  }

  lemma {:induction false} QuantitySumAppend(a: seq<CartItem>, b: seq<CartItem>)
    ensures QuantitySum(a + b) == QuantitySum(a) + QuantitySum(b)
    decreases |b|
  {
    if |b| == 0 {
      assert a + b == a;
    } else {
      assert (a + b)[..|a + b| - 1] == a + b[..|b| - 1];
      QuantitySumAppend(a, b[..|b| - 1]);
    }
  }

  /** Every line holds at least one unit, so the count is at least the number of lines,
      and it equals the number of lines exactly when every line holds one unit. */
  lemma {:induction false} LinesAtMostCount(items: seq<CartItem>)
    requires forall i :: 0 <= i < |items| ==> items[i].quantity >= 1
    ensures |items| <= QuantitySum(items)
    ensures |items| == QuantitySum(items) <==> forall i :: 0 <= i < |items| ==> items[i].quantity == 1
    decreases |items|
  {
    if |items| > 0 {
      var init := items[..|items| - 1];
      LinesAtMostCount(init);
      if |items| == QuantitySum(items) {
        forall i | 0 <= i < |items| ensures items[i].quantity == 1 {
          if i < |items| - 1 {
            assert items[i] == init[i];
          }
        }
      }
    }
  }

  /** What the mirror holds after a re-read: the server's items (`[]` when the body has none),
      or `[]` when the read failed. */
  function Resynced(reply: Response<CartReply>): (r: seq<CartItem>)
    ensures reply.Ok? && reply.data.items.Some? ==> r == reply.data.items.value
    ensures reply.Ok? && reply.data.items.None? ==> r == []
    ensures reply.Failed? ==> r == []
  {
    if reply.Ok? && reply.data.items.Some? then reply.data.items.value else []
  }

  class CartStore {
    var cartItems: seq<CartItem>
    var cartCount: int
    var isCartOpen: bool
    var log: seq<Event>

    /** The displayed count is always the sum of the quantities of the mirrored lines. */
    ghost predicate Valid()
      reads this
    {
      cartCount == QuantitySum(cartItems)
    }

    constructor()
      ensures Valid()
      ensures cartItems == [] && cartCount == 0 && !isCartOpen && log == []
    {
      cartItems, cartCount, isCartOpen, log := [], 0, false, [];
    }

    /** `fetchCart`, also run once when the provider mounts. */
    method FetchCart(reply: Response<CartReply>)
      modifies this
      ensures Valid()
      ensures cartItems == Resynced(reply) && cartCount == QuantitySum(Resynced(reply))
      ensures reply.Failed? ==> cartItems == [] && cartCount == 0
      ensures isCartOpen == old(isCartOpen)
      ensures log == old(log) + [GetCart]
    {
      log := log + [GetCart];
      if reply.Ok? {
        cartItems := if reply.data.items.Some? then reply.data.items.value else [];
        cartCount := if reply.data.items.Some? then QuantitySum(reply.data.items.value) else 0;
      } else {
        cartItems := [];
        cartCount := 0;
      }
    }

    /** `addToCart(productId, size, quantity = 1, selectedImage)`: post the line; on success re-read
        the cart and open the sidebar; on a 401 ask for a login and go to `/login`; on any other
        failure only report it. */
    method AddToCart(productId: string, size: int, quantity: Option<int>, selectedImage: Option<string>,
                     post: Response<()>, refetch: Response<CartReply>)
      requires Valid()
      modifies this
      ensures Valid()
      ensures post.Ok? ==> cartItems == Resynced(refetch) && isCartOpen
      ensures post.Ok? ==> log == old(log) + [PostCart(Line(productId, size, DefaultQuantity(quantity), selectedImage)), GetCart]
      ensures post.Failed? ==>
        cartItems == old(cartItems) && cartCount == old(cartCount) && isCartOpen == old(isCartOpen)
      ensures post.Failed? && post.status == Some(401) ==>
        log == old(log) + [PostCart(Line(productId, size, DefaultQuantity(quantity), selectedImage)),
                           Alert(LoginRequired), Navigate("/login")]
      ensures post.Failed? && post.status != Some(401) ==>
        log == old(log) + [PostCart(Line(productId, size, DefaultQuantity(quantity), selectedImage)), Alert(AddFailed)]
    {
      var q := if quantity.Some? then quantity.value else 1;
      log := log + [PostCart(Line(productId, size, q, selectedImage))];
      if post.Ok? {
        FetchCart(refetch);
        isCartOpen := true;
      } else if post.status == Some(401) {
        log := log + [Alert(LoginRequired), Navigate("/login")];
      } else {
        log := log + [Alert(AddFailed)];
      }
    }

    /** `updateQuantity(itemId, newQuantity)`: a quantity below 1 is dropped before any request;
        otherwise put the quantity and, on success, re-read the cart. */
    method UpdateQuantity(itemId: string, newQuantity: int, put: Response<()>, refetch: Response<CartReply>)
      requires Valid()
      modifies this
      ensures Valid()
      ensures isCartOpen == old(isCartOpen)
      ensures newQuantity < 1 ==>
        cartItems == old(cartItems) && cartCount == old(cartCount) && log == old(log)
      ensures newQuantity >= 1 && put.Ok? ==>
        cartItems == Resynced(refetch) && log == old(log) + [PutQuantity(itemId, newQuantity), GetCart]
      ensures newQuantity >= 1 && put.Failed? ==>
        cartItems == old(cartItems) && cartCount == old(cartCount) && log == old(log) + [PutQuantity(itemId, newQuantity)]
    {
      if newQuantity < 1 {
        return;
      }
      log := log + [PutQuantity(itemId, newQuantity)];
      if put.Ok? {
        FetchCart(refetch);
      }
    }

    /** `removeFromCart(itemId)`: delete the line and, on success, re-read the cart. */
    method RemoveFromCart(itemId: string, delete: Response<()>, refetch: Response<CartReply>)
      requires Valid()
      modifies this
      ensures Valid()
      ensures isCartOpen == old(isCartOpen)
      ensures delete.Ok? ==> cartItems == Resynced(refetch) && log == old(log) + [DeleteItem(itemId), GetCart]
      ensures delete.Failed? ==>
        cartItems == old(cartItems) && cartCount == old(cartCount) && log == old(log) + [DeleteItem(itemId)]
    {
      log := log + [DeleteItem(itemId)];
      if delete.Ok? {
        FetchCart(refetch);
      }
    }

    /** `checkout`: on success the mirror is emptied without a re-read, the sidebar closes and the
        page moves to `/mypage`; on failure nothing but the alert happens. */
    method Checkout(post: Response<()>)
      requires Valid()
      modifies this
      ensures Valid()
      ensures post.Ok? ==> cartItems == [] && cartCount == 0 && !isCartOpen
      ensures post.Ok? ==> log == old(log) + [PostOrder, Alert(OrderPlaced), Navigate("/mypage")]
      ensures post.Failed? ==>
        cartItems == old(cartItems) && cartCount == old(cartCount) && isCartOpen == old(isCartOpen)
      ensures post.Failed? ==> log == old(log) + [PostOrder, Alert(OrderFailed)]
    {
      log := log + [PostOrder];
      if post.Ok? {
        log := log + [Alert(OrderPlaced)];
        cartItems := [];
        cartCount := 0;
        isCartOpen := false;
        log := log + [Navigate("/mypage")];
      } else {
        log := log + [Alert(OrderFailed)];
      }
    }

    /** `toggleCart` */
    method ToggleCart()
      modifies this`isCartOpen
      ensures isCartOpen == !old(isCartOpen)
    {
      isCartOpen := !isCartOpen;
    }

    /** `setIsCartOpen`, exported as is and used by the sidebar's close controls. */
    method SetCartOpen(open: bool)
      modifies this`isCartOpen
      ensures isCartOpen == open
    {
      isCartOpen := open;
    }
  }

  /** The default parameter of `addToCart`: a quantity left out means 1. */
  function DefaultQuantity(quantity: Option<int>): (q: int)
    ensures quantity.None? ==> q == 1
    ensures quantity.Some? ==> q == quantity.value
  {
    if quantity.Some? then quantity.value else 1
  }

  /** Toggling twice restores whether the sidebar is open. */
  method ToggleTwice(store: CartStore)
    modifies store`isCartOpen
    ensures store.isCartOpen == old(store.isCartOpen)
  {
    store.ToggleCart();
    store.ToggleCart();
  }

  /** A worked scenario: with the server holding the line at quantity 3 afterwards, raising a
      line from 2 to 3 sends one PUT and one GET, and the count grows by one. */
  method RaiseQuantityScenario(store: CartStore, others: seq<CartItem>, item: CartItem, put: Response<()>)
    requires item.quantity == 2 && store.Valid()
    requires store.cartItems == others + [item]
    requires put.Ok?
    modifies store
    ensures store.log == old(store.log) + [PutQuantity(item.id, 3), GetCart]
    ensures store.cartCount == old(store.cartCount) + 1
  {
    var raised := item.(quantity := 3);
    QuantitySumAppend(others, [item]);
    QuantitySumAppend(others, [raised]);
    store.UpdateQuantity(item.id, 3, put, Ok(CartReply(Some(others + [raised]))));
  }
}
