/** The account page (pages/MyPage.jsx): the user's past orders, the review attached to each
    ordered product, the review dialog, review deletion and logout. */
module MyPage {
  import opened Wrappers
  import AuthContext
  import CartContext
  import ReviewModal

  type Review = ReviewModal.ExistingReview

  /** One ordered line; it is also what the review dialog is opened for. */
  datatype OrderItem = OrderItem(productId: string, name: string, image: string, price: int, quantity: int)

  datatype Order = Order(id: string, items: seq<OrderItem>)

  datatype Notice = LoggedOut | ReviewDeleted | DeleteFailed

  datatype Event =
    | GetOrders
    | GetMyReviews
    | DeleteReview(reviewId: string)
    | Alert(notice: Notice)
    | Navigate(path: string)

  /** `reviews.find(r => r.productId === item.productId)`: the first review of the product. */
  function FindReview(reviews: seq<Review>, productId: string): (r: Option<Review>)
    ensures r.None? <==> forall i :: 0 <= i < |reviews| ==> reviews[i].productId != productId
    ensures r.Some? ==> exists k :: 0 <= k < |reviews| && reviews[k] == r.value && r.value.productId == productId &&
                                    forall i :: 0 <= i < k ==> reviews[i].productId != productId
  {
    if |reviews| == 0 then None
    else if reviews[0].productId == productId then Some(reviews[0])
    else
      var rest := FindReview(reviews[1..], productId);
      assert rest.Some? ==> exists k :: 1 <= k < |reviews| && reviews[k] == rest.value && rest.value.productId == productId &&
                                        forall i :: 1 <= i < k ==> reviews[i].productId != productId by {
        if rest.Some? {
          var k :| 0 <= k < |reviews[1..]| && reviews[1..][k] == rest.value && rest.value.productId == productId &&
                   forall i :: 0 <= i < k ==> reviews[1..][i].productId != productId;
          assert reviews[k + 1] == rest.value;
          assert forall i :: 1 <= i < k + 1 ==> reviews[i].productId != productId by {
            forall i | 1 <= i < k + 1 ensures reviews[i].productId != productId {
              assert reviews[i] == reviews[1..][i - 1];
            }
          }
        }
      }
      rest
  }

  /** The button under an ordered line: edit the product's review when there is one, else write one. */
  datatype ReviewButton = EditReview(review: Review) | WriteReview

  function ButtonFor(reviews: seq<Review>, item: OrderItem): (b: ReviewButton)
    ensures b.WriteReview? <==> forall i :: 0 <= i < |reviews| ==> reviews[i].productId != item.productId
    ensures b.EditReview? ==> b.review in reviews && b.review.productId == item.productId
  {
    match FindReview(reviews, item.productId)
    case Some(r) => EditReview(r)
    case None => WriteReview
  }

  /** The amount shown for a line. */
  function PaymentAmount(item: OrderItem): int
  {
    item.price * item.quantity
  }

  /** Every ordered line, order by order, as the list renders them. */
  function ItemRows(orders: seq<Order>): (rows: seq<OrderItem>)
    ensures forall o, it :: o in orders && it in o.items ==> it in rows
    ensures forall it :: it in rows ==> exists o :: o in orders && it in o.items
  {
    if |orders| == 0 then []
    else
      var rest := ItemRows(orders[1..]);
      assert forall o :: o in orders[1..] ==> o in orders;
      orders[0].items + rest
  }

  /** The nested `map` keeps the orders' order and every line of each: the rows of a
      concatenation are the rows of each part, and one order gives exactly its lines. */
  lemma {:induction false} ItemRowsAppend(a: seq<Order>, b: seq<Order>)
    ensures ItemRows(a + b) == ItemRows(a) + ItemRows(b)
    decreases |a|
  {
    if |a| == 0 {
      assert a + b == b;
    } else {
      assert (a + b)[0] == a[0];
      assert (a + b)[1..] == a[1..] + b;
      ItemRowsAppend(a[1..], b);
    }
  }

  lemma ItemRowsSingle(o: Order)
    ensures ItemRows([o]) == o.items
  {
    assert [o][1..] == [];
  }

  /** "No orders" is shown only for an empty order list. */
  predicate EmptyMessageShown(orders: seq<Order>) {
    |orders| == 0
  }

  /** The empty-list message and the rows never show together; but an order list whose orders
      hold no items shows neither. */
  lemma {:induction false} EmptyMessageExcludesRows(orders: seq<Order>)
    ensures EmptyMessageShown(orders) ==> ItemRows(orders) == []
    ensures (forall i :: 0 <= i < |orders| ==> orders[i].items == []) ==> ItemRows(orders) == []
  {
    if |orders| > 0 {
      EmptyMessageExcludesRows(orders[1..]);
      if forall i :: 0 <= i < |orders| ==> orders[i].items == [] {
        assert forall i :: 0 <= i < |orders[1..]| ==> orders[1..][i].items == [] by {
          forall i | 0 <= i < |orders[1..]| ensures orders[1..][i].items == [] {
            assert orders[1..][i] == orders[i + 1];
          }
        }
        assert orders[0].items == [];
      }
    }
  }

  class Page {
    var orders: seq<Order>
    var reviews: seq<Review>
    var loading: bool
    var isModalOpen: bool
    var selectedProduct: Option<OrderItem>
    var targetReview: Option<Review>
    var log: seq<Event>

    constructor()
      ensures orders == [] && reviews == [] && loading
      ensures !isModalOpen && selectedProduct == None && targetReview == None && log == []
    {
      orders, reviews, loading := [], [], true;
      isModalOpen, selectedProduct, targetReview := false, None, None;
      log := [];
    }

    /** `fetchData`: both lists are fetched together; they are replaced only when both requests
        succeed, and loading ends in every case. */
    method FetchData(ordersReply: Response<seq<Order>>, reviewsReply: Response<seq<Review>>)
      modifies this`orders, this`reviews, this`loading, this`log
      ensures ordersReply.Ok? && reviewsReply.Ok? ==> orders == ordersReply.data && reviews == reviewsReply.data
      ensures ordersReply.Failed? || reviewsReply.Failed? ==> orders == old(orders) && reviews == old(reviews)
      ensures !loading
      ensures log == old(log) + [GetOrders, GetMyReviews]
    {
      log := log + [GetOrders, GetMyReviews];
      if ordersReply.Ok? && reviewsReply.Ok? {
        orders := ordersReply.data;
        reviews := reviewsReply.data;
      }
      loading := false;
    }

    /** The effect on the session's user: fetch for a logged-in user, otherwise only stop loading. */
    method UserChanged(user: Option<AuthContext.User>, ordersReply: Response<seq<Order>>, reviewsReply: Response<seq<Review>>)
      modifies this`orders, this`reviews, this`loading, this`log
      ensures user.None? ==> orders == old(orders) && reviews == old(reviews) && log == old(log)
      ensures user.Some? ==> log == old(log) + [GetOrders, GetMyReviews]
      ensures user.Some? && ordersReply.Ok? && reviewsReply.Ok? ==>
                orders == ordersReply.data && reviews == reviewsReply.data
      ensures user.Some? && (ordersReply.Failed? || reviewsReply.Failed?) ==>
                orders == old(orders) && reviews == old(reviews)
      ensures !loading
    {
      if user.Some? {
        FetchData(ordersReply, reviewsReply);
      } else {
        loading := false;
      }
    }

    /** `openReviewModal`: the dialog opens for the line, with its existing review or none. */
    method OpenReviewModal(item: OrderItem, existing: Option<Review>)
      modifies this`isModalOpen, this`selectedProduct, this`targetReview
      ensures isModalOpen && selectedProduct == Some(item) && targetReview == existing
      ensures ReviewModal.Renders(isModalOpen, if selectedProduct.Some? then Some(ReviewModal.OrderLine(selectedProduct.value.productId, selectedProduct.value.name)) else None)
    {
      selectedProduct := Some(item);
      targetReview := existing;
      isModalOpen := true;
    }

    /** Clicking a line's review button opens the dialog with exactly the review the button found. */
    method ClickReviewButton(item: OrderItem)
      modifies this`isModalOpen, this`selectedProduct, this`targetReview
      ensures isModalOpen && selectedProduct == Some(item)
      ensures targetReview == FindReview(reviews, item.productId)
    {
      match ButtonFor(reviews, item)
      case EditReview(r) => OpenReviewModal(item, Some(r));
      case WriteReview => OpenReviewModal(item, None);
    }

    /** The dialog's `onClose`. */
    method CloseModal()
      modifies this`isModalOpen
      ensures !isModalOpen
    {
      isModalOpen := false;
    }

    /** `handleDeleteReview`: nothing without the user's confirmation; otherwise the delete
        request, then on success an alert and a refetch, on failure only an alert. */
    method HandleDeleteReview(reviewId: string, confirmed: bool, reply: Response<()>,
                              ordersReply: Response<seq<Order>>, reviewsReply: Response<seq<Review>>)
      modifies this`orders, this`reviews, this`loading, this`log
      ensures !confirmed ==>
                log == old(log) && orders == old(orders) && reviews == old(reviews) && loading == old(loading)
      ensures confirmed && reply.Ok? ==>
                log == old(log) + [DeleteReview(reviewId), Alert(ReviewDeleted), GetOrders, GetMyReviews]
      ensures confirmed && reply.Ok? && ordersReply.Ok? && reviewsReply.Ok? ==>
                orders == ordersReply.data && reviews == reviewsReply.data
      ensures confirmed && reply.Ok? && (ordersReply.Failed? || reviewsReply.Failed?) ==>
                orders == old(orders) && reviews == old(reviews)
      ensures confirmed && reply.Ok? ==> !loading
      ensures confirmed && reply.Failed? ==>
                log == old(log) + [DeleteReview(reviewId), Alert(DeleteFailed)] &&
                orders == old(orders) && reviews == old(reviews) && loading == old(loading)
    {
      if !confirmed {
        return;
      }
      log := log + [DeleteReview(reviewId)];
      if reply.Failed? {
        log := log + [Alert(DeleteFailed)];
        return;
      }
      log := log + [Alert(ReviewDeleted)];
      FetchData(ordersReply, reviewsReply);
    }

    /** Clicking a product image opens its detail page. */
    method HandleImageClick(productId: string)
      modifies this`log
      ensures log == old(log) + [Navigate("/products/" + productId)]
    {
      log := log + [Navigate("/products/" + productId)];
    }

    /** `handleLogout` as written: after the logout request succeeds the handler calls the cart's
        `clearCart`, which the cart provider does not supply; the call throws, the handler's catch
        swallows it, and neither the alert nor the navigation happens. A failed logout is
        swallowed the same way. */
    method HandleLogout(auth: AuthContext.AuthStore, reply: Response<()>)
      modifies auth`user, auth`requests
      ensures reply.Ok? ==> auth.user == None
      ensures reply.Failed? ==> auth.user == old(auth.user)
      ensures auth.requests == old(auth.requests) + [AuthContext.PostLogout]
      ensures log == old(log)
    {
      var r := auth.Logout(reply);
      if r.Ok? {
        // `clearCart` is undefined here: the call raises and control goes to the catch block.
      }
    }

    /** `handleLogout` as evidently intended: after a successful logout the local cart is
        emptied, the user is told, and the page goes home; a failed logout changes nothing here. */
    method HandleLogoutCorrected(auth: AuthContext.AuthStore, cart: CartContext.CartStore, reply: Response<()>)
      requires auth != cart as object
      modifies auth`user, auth`requests, cart`cartItems, cart`cartCount, this`log
      ensures reply.Ok? ==> auth.user == None && cart.cartItems == [] && cart.cartCount == 0 && cart.Valid()
      ensures reply.Ok? ==> log == old(log) + [Alert(LoggedOut), Navigate("/")]
      ensures reply.Failed? ==> auth.user == old(auth.user) && log == old(log)
      ensures reply.Failed? ==> cart.cartItems == old(cart.cartItems) && cart.cartCount == old(cart.cartCount)
      ensures auth.requests == old(auth.requests) + [AuthContext.PostLogout]
    {
      var r := auth.Logout(reply);
      if r.Ok? {
        ClearLocalCart(cart);
        log := log + [Alert(LoggedOut), Navigate("/")];
      }
    }
  }

  /** The cart clearing the logout handler expects. The cart store's provider value has no such
      operation (see README, Findings); this is what the corrected handler does in its place:
      empty the local mirror, without a request, keeping the count in step with the lines. */
  method ClearLocalCart(cart: CartContext.CartStore)
    modifies cart`cartItems, cart`cartCount
    ensures cart.Valid()
    ensures cart.cartItems == [] && cart.cartCount == 0
  {
    cart.cartItems, cart.cartCount := [], 0;
  }

  /** The logout as written, from a logged-in session with a successful logout request: the
      session ends, yet the page neither tells the user nor leaves. */
  method LogoutAsWrittenScenario(who: AuthContext.User) returns (loggedOut: bool, navigated: bool)
    ensures loggedOut && !navigated
  {
    var auth := new AuthContext.AuthStore();
    auth.CheckLoginStatus(Ok(AuthContext.SessionReply(true, Some(who))));
    var page := new Page();
    page.HandleLogout(auth, Ok(()));
    loggedOut := auth.user == None;
    navigated := Navigate("/") in page.log;
  }

  /** The corrected logout under the same conditions: the session ends, the cart is empty and
      the page goes home. */
  method LogoutCorrectedScenario(who: AuthContext.User) returns (loggedOut: bool, navigated: bool, cartEmpty: bool)
    ensures loggedOut && navigated && cartEmpty
  {
    var auth := new AuthContext.AuthStore();
    auth.CheckLoginStatus(Ok(AuthContext.SessionReply(true, Some(who))));
    var cart := new CartContext.CartStore();
    var page := new Page();
    page.HandleLogoutCorrected(auth, cart, Ok(()));
    loggedOut := auth.user == None;
    navigated := Navigate("/") in page.log;
    cartEmpty := cart.cartCount == 0;
  }
}
