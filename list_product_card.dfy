/** The product card of the list page (components/ProductListPage/ListProductCard.jsx): which
    image is shown large, which thumbnail is marked, and when the scroll buttons appear. */
module ListProductCard {
  import opened Wrappers
  import CardImage

  /** `product.images || []` */
  function ImagesOf(images: Option<seq<string>>): seq<string> {
    if images.Some? then images.value else []
  }

  /** The initial `selectedImg`: the first image, or none for a product without images. */
  function InitialSelection(images: seq<string>): (r: Option<string>)
    ensures |images| > 0 ==> r == Some(images[0])
    ensures |images| == 0 ==> r == None
  {
    if |images| > 0 then Some(images[0]) else None
  }

  /** The scroll buttons appear from seven thumbnails on. */
  function ShowNavButtons(images: seq<string>): (shown: bool)
    ensures shown <==> |images| >= 7
  {
    |images| >= 7
  }

  class CardState {
    var images: seq<string>
    var selectedImg: Option<string>

    /** A thumbnail is marked exactly when its image is the selected one. */
    predicate ThumbSelected(img: string)
      reads this
    {
      selectedImg == Some(img)
    }

    /** The large picture, through the card's own `getImageUrl`; a card without images shows
        the placeholder. */
    function MainImageUrl(): string
      reads this
    {
      CardImage.ImageUrl(selectedImg)
    }

    constructor(productImages: Option<seq<string>>)
      ensures images == ImagesOf(productImages)
      ensures selectedImg == InitialSelection(images)
      ensures images == [] ==> MainImageUrl() == CardImage.Placeholder
    {
      images := ImagesOf(productImages);
      selectedImg := InitialSelection(ImagesOf(productImages));
    }

    /** The effect on a new product or image list: select the first image when there is one,
        otherwise keep the selection. */
    method ImagesChanged(productImages: Option<seq<string>>)
      modifies this
      ensures images == ImagesOf(productImages)
      ensures |images| > 0 ==> selectedImg == Some(images[0])
      ensures |images| == 0 ==> selectedImg == old(selectedImg)
    {
      images := ImagesOf(productImages);
      if |images| > 0 {
        selectedImg := Some(images[0]);
      }
    }

    /** Clicking a thumbnail selects its image: afterwards exactly the thumbnails showing that
        image are marked. */
    method SelectThumb(img: string)
      modifies this`selectedImg
      ensures selectedImg == Some(img)
      ensures forall i :: 0 <= i < |images| ==> (ThumbSelected(images[i]) <==> images[i] == img)
    {
      selectedImg := Some(img);
    }
  }
}
