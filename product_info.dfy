/** The purchase panel of the product page (components/productDetail/ProductInfo.jsx): the
    selected size, the large image, and the size gate in front of the cart. */
module ProductInfo {
  import opened Wrappers
  import ApiClient
  import opened CartContext

  datatype DetailProduct = DetailProduct(id: string, name: string, price: int,
                                         images: Option<seq<string>>, availableSizes: Option<seq<int>>)

  /** Nothing is rendered for a missing product. */
  predicate Renders(product: Option<DetailProduct>) {
    product.Some?
  }

  class Panel {
    var product: Option<DetailProduct>
    var selectedSize: Option<int>
    var mainImgUrl: string

    /** `!selectedSize`: no size chosen (the size 0 would count as none as well). */
    predicate NoSize()
      reads this
    {
      selectedSize.None? || selectedSize.value == 0
    }

    /** The add button is disabled exactly while no size is chosen. */
    predicate AddDisabled()
      reads this
    {
      NoSize()
    }

    /** A thumbnail is marked exactly when its URL is the large image's. */
    predicate ThumbnailActive(img: string)
      reads this
    {
      ApiClient.ImageUrl(Some(img)) == mainImgUrl
    }

    constructor(p: Option<DetailProduct>)
      ensures product == p && selectedSize == None && mainImgUrl == ""
      ensures AddDisabled()
    {
      product, selectedSize, mainImgUrl := p, None, "";
    }

    /** The effect on a new product: the first image becomes the large one when there is one;
        otherwise the large image stays as it was (initially ''). */
    method ProductChanged()
      modifies this`mainImgUrl
      ensures product.Some? && product.value.images.Some? && |product.value.images.value| > 0 ==>
        mainImgUrl == ApiClient.ImageUrl(Some(product.value.images.value[0]))
      ensures !(product.Some? && product.value.images.Some? && |product.value.images.value| > 0) ==>
        mainImgUrl == old(mainImgUrl)
    {
      if product.Some? && product.value.images.Some? && |product.value.images.value| > 0 {
        mainImgUrl := ApiClient.ImageUrl(Some(product.value.images.value[0]));
      }
    }

    /** Clicking a thumbnail makes it the large image, and so the active thumbnail. */
    method ClickThumbnail(img: string)
      modifies this`mainImgUrl
      ensures mainImgUrl == ApiClient.ImageUrl(Some(img)) && ThumbnailActive(img)
    {
      mainImgUrl := ApiClient.ImageUrl(Some(img));
    }

    /** Size selection holds one value: a click replaces the previous size. */
    method SelectSize(size: int)
      modifies this`selectedSize
      ensures selectedSize == Some(size)
    {
      selectedSize := Some(size);
    }

    /** `handleAddToCart`: without a size only an alert, and no cart call; with one, the cart's
        `addToCart(product._id, size, 1)` with no chosen image. The button exists only while
        the product renders. */
    method HandleAddToCart(cart: CartStore, post: Response<()>, refetch: Response<CartReply>) returns (alerted: bool)
      requires Renders(product) && cart.Valid()
      modifies cart
      ensures cart.Valid()
      ensures alerted <==> NoSize()
      ensures NoSize() ==>
        cart.cartItems == old(cart.cartItems) && cart.cartCount == old(cart.cartCount)
        && cart.isCartOpen == old(cart.isCartOpen) && cart.log == old(cart.log)
      ensures !NoSize() ==>
        cart.log == old(cart.log) + [PostCart(Line(product.value.id, selectedSize.value, 1, None))] +
                    (if post.Ok? then [GetCart]
                     else if post.status == Some(401) then [Alert(LoginRequired), Navigate("/login")]
                     else [Alert(AddFailed)])
      ensures !NoSize() && post.Ok? ==> cart.isCartOpen && cart.cartItems == Resynced(refetch)
      ensures !NoSize() && post.Failed? ==>
        cart.cartItems == old(cart.cartItems) && cart.cartCount == old(cart.cartCount)
        && cart.isCartOpen == old(cart.isCartOpen)
    {
      if NoSize() {
        return true;
      }
      cart.AddToCart(product.value.id, selectedSize.value, Some(1), None, post, refetch);
      alerted := false;
    }
  }
}
