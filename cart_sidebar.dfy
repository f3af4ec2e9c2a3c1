/** The cart sidebar (components/common/CartSidebar.jsx): what it derives from the cart store's
    lines, and the store calls behind its buttons. */
module CartSidebar {
  import opened Wrappers
  import opened CartContext
  import ApiClient

  /** `product.price * (1 - (product.discountRate || 0) / 100)`, as an exact number. */
  function UnitPrice(p: Product): real {
    (p.price as real) * (1.0 - (OrZero(p.discountRate) as real) / 100.0)
  }

  /** What one line adds to the total: nothing for a line whose product is gone. */
  function Contribution(item: CartItem): real {
    if item.productId.None? then 0.0 else UnitPrice(item.productId.value) * (item.quantity as real)
  }

  /** `totalPrice`, the left-to-right `reduce` over the lines. */
  function TotalPrice(items: seq<CartItem>): real {
    if |items| == 0 then 0.0 else TotalPrice(items[..|items| - 1]) + Contribution(items[|items| - 1])
  }

  /** The lines the list renders: those whose product is still there, in order. */
  function VisibleLines(items: seq<CartItem>): (r: seq<CartItem>)
    ensures forall i :: 0 <= i < |r| ==> r[i].productId.Some? && r[i] in items
    ensures forall i :: 0 <= i < |items| && items[i].productId.Some? ==> items[i] in r
  {
    if |items| == 0 then []
    else
      var init := VisibleLines(items[..|items| - 1]);
      var last := items[|items| - 1];
      assert forall i :: 0 <= i < |items| - 1 ==> items[..|items| - 1][i] == items[i];
      if last.productId.Some? then init + [last] else init
  }

  /** `filter` keeps the order and the multiplicity of the lines: filtering a concatenation is
      filtering each part, and a single line is kept exactly when its product is there. */
  lemma {:induction false} VisibleLinesAppend(a: seq<CartItem>, b: seq<CartItem>)
    ensures VisibleLines(a + b) == VisibleLines(a) + VisibleLines(b)
    decreases |b|
  {
    if |b| == 0 {
      assert a + b == a;
    } else {
      var b' := b[..|b| - 1];
      assert (a + b)[..|a + b| - 1] == a + b';
      assert (a + b)[|a + b| - 1] == b[|b| - 1];
      VisibleLinesAppend(a, b');
    }
  }

  lemma VisibleLinesSingle(item: CartItem)
    ensures VisibleLines([item]) == if item.productId.Some? then [item] else []
  {
    assert [item][..0] == [];
  }

  lemma {:induction false} TotalPriceAppend(a: seq<CartItem>, b: seq<CartItem>)
    ensures TotalPrice(a + b) == TotalPrice(a) + TotalPrice(b)
    decreases |b|
  {
    if |b| == 0 {
      assert a + b == a;
    } else {
      assert (a + b)[..|a + b| - 1] == a + b[..|b| - 1];
      TotalPriceAppend(a, b[..|b| - 1]);
    }
  }

  /** Lines without a product add nothing: the total over all lines equals the total over the
      rendered ones. */
  lemma {:induction false} TotalPriceOverVisible(items: seq<CartItem>)
    ensures TotalPrice(items) == TotalPrice(VisibleLines(items))
    decreases |items|
  {
    if |items| > 0 {
      var init := items[..|items| - 1];
      var last := items[|items| - 1];
      TotalPriceOverVisible(init);
      if last.productId.Some? {
        TotalPriceAppend(VisibleLines(init), [last]);
        assert TotalPrice([last]) == Contribution(last) by {
          assert [last][..0] == [];
        }
      }
    }
  }

  predicate WellPriced(items: seq<CartItem>) {
    forall i :: 0 <= i < |items| && items[i].productId.Some? ==>
      items[i].productId.value.price >= 0 && 0 <= OrZero(items[i].productId.value.discountRate) <= 100
      && items[i].quantity >= 0
  }

  /** With non-negative prices and quantities and discounts of at most 100 percent, the total
      is never negative. */
  lemma {:induction false} TotalPriceNonNegative(items: seq<CartItem>)
    requires WellPriced(items)
    ensures TotalPrice(items) >= 0.0
    decreases |items|
  {
    if |items| > 0 {
      var init := items[..|items| - 1];
      assert WellPriced(init) by {
        forall i | 0 <= i < |init| ensures init[i] == items[i] { }
      }
      TotalPriceNonNegative(init);
      var last := items[|items| - 1];
      if last.productId.Some? {
        var p := last.productId.value;
        var f := 1.0 - (OrZero(p.discountRate) as real) / 100.0;
        assert 0.0 <= f;
        assert (p.price as real) * f >= 0.0;
        assert UnitPrice(p) * (last.quantity as real) >= 0.0;
      }
    }
  }

  /** `price * quantity` summed over the rendered lines, in whole won. */
  function UndiscountedSubtotal(items: seq<CartItem>): int {
    if |items| == 0 then 0
    else
      var last := items[|items| - 1];
      UndiscountedSubtotal(items[..|items| - 1])
        + (if last.productId.Some? then last.productId.value.price * last.quantity else 0)
  }

  /** When no line carries a discount, the total is the plain sum of price times quantity. */
  lemma {:induction false} TotalPriceWithoutDiscounts(items: seq<CartItem>)
    requires forall i :: 0 <= i < |items| && items[i].productId.Some? ==> OrZero(items[i].productId.value.discountRate) == 0
    ensures TotalPrice(items) == UndiscountedSubtotal(items) as real
    decreases |items|
  {
    if |items| > 0 {
      var init := items[..|items| - 1];
      assert forall i :: 0 <= i < |init| ==> init[i] == items[i];
      TotalPriceWithoutDiscounts(init);
      var last := items[|items| - 1];
      if last.productId.Some? {
        var p := last.productId.value;
        assert UnitPrice(p) == p.price as real;
        assert (p.price as real) * (last.quantity as real) == (p.price * last.quantity) as real;
      }
    }
  }

  /** The footer with the total and the checkout button. */
  predicate FooterShown(items: seq<CartItem>) {
    |items| > 0
  }

  /** An empty cart totals 0 and shows no checkout button. */
  lemma EmptyCartShowsNoFooter()
    ensures TotalPrice([]) == 0.0 && !FooterShown([])
  {
  }

  /** The header shows the number of lines, `cartItems.length`; when every line holds at least one
      unit this is at most the store's count, and equal to it only if every line holds one unit. */
  function HeaderCount(items: seq<CartItem>): (n: nat)
    ensures n == |items|
  {
    |items|
  }

  lemma HeaderCountVersusStoreCount(items: seq<CartItem>)
    requires forall i :: 0 <= i < |items| ==> items[i].quantity >= 1
    ensures HeaderCount(items) <= QuantitySum(items)
    ensures HeaderCount(items) == QuantitySum(items) <==> forall i :: 0 <= i < |items| ==> items[i].quantity == 1
  {
    LinesAtMostCount(items);
  }

  /** `product.images?.[0]` */
  function FirstImage(p: Product): (r: Option<string>)
    ensures r.Some? <==> p.images.Some? && |p.images.value| > 0
    ensures r.Some? ==> r.value == p.images.value[0]
  {
    if p.images.Some? && |p.images.value| > 0 then Some(p.images.value[0]) else None
  }

  /** The picture of a rendered line: the image chosen when it was added, if any, else the
      product's first image through the API client's `getImageUrl`. */
  function DisplayImage(item: CartItem): (r: string)
    requires item.productId.Some?
    ensures Present(item.selectedImage) ==> r == item.selectedImage.value
    ensures !Present(item.selectedImage) ==> r == ApiClient.ImageUrl(FirstImage(item.productId.value))
  {
    if Present(item.selectedImage) then item.selectedImage.value
    else ApiClient.ImageUrl(FirstImage(item.productId.value))
  }

  /** The minus button asks for one unit less; at quantity 1 the store drops the request, so
      nothing changes. */
  method ClickMinus(store: CartStore, item: CartItem, put: Response<()>, refetch: Response<CartReply>)
    requires store.Valid()
    modifies store
    ensures store.Valid()
    ensures item.quantity <= 1 ==>
      store.cartItems == old(store.cartItems) && store.cartCount == old(store.cartCount)
      && store.isCartOpen == old(store.isCartOpen) && store.log == old(store.log)
    ensures item.quantity > 1 ==>
      store.log == old(store.log) + [PutQuantity(item.id, item.quantity - 1)] + (if put.Ok? then [GetCart] else [])
    ensures item.quantity > 1 && put.Ok? ==> store.cartItems == Resynced(refetch)
    ensures item.quantity > 1 && put.Failed? ==>
      store.cartItems == old(store.cartItems) && store.cartCount == old(store.cartCount)
    ensures store.isCartOpen == old(store.isCartOpen)
  {
    store.UpdateQuantity(item.id, item.quantity - 1, put, refetch);
  }

  /** The plus button asks for one unit more. */
  method ClickPlus(store: CartStore, item: CartItem, put: Response<()>, refetch: Response<CartReply>)
    requires store.Valid()
    modifies store
    ensures store.Valid()
    ensures item.quantity + 1 < 1 ==>
      store.cartItems == old(store.cartItems) && store.cartCount == old(store.cartCount) && store.log == old(store.log)
    ensures item.quantity + 1 >= 1 ==>
      store.log == old(store.log) + [PutQuantity(item.id, item.quantity + 1)] + (if put.Ok? then [GetCart] else [])
    ensures item.quantity + 1 >= 1 && put.Ok? ==> store.cartItems == Resynced(refetch)
    ensures item.quantity + 1 >= 1 && put.Failed? ==>
      store.cartItems == old(store.cartItems) && store.cartCount == old(store.cartCount)
    ensures store.isCartOpen == old(store.isCartOpen)
  {
    store.UpdateQuantity(item.id, item.quantity + 1, put, refetch);
  }
}
