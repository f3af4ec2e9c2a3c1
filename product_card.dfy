/** The ranked product card of the main page (components/mainPage/ProductCard.jsx): its `||`
    fallback chains over the loosely shaped items it receives. */
module ProductCard {
  import opened Wrappers
  import opened Text
  import CardImage

  /** An item as the popular-products feed delivers it; every field may be missing. */
  datatype CardItem = CardItem(id: Option<string>, underscoreId: Option<string>, image: Option<string>,
                               images: Option<seq<string>>, sizes: Option<seq<int>>,
                               availableSizes: Option<seq<int>>, rank: Option<int>, price: Option<int>)

  /** `item.image || (item.images && item.images.length > 0 ? item.images[0] : null)` */
  function RawImage(item: CardItem): (r: Option<string>)
    ensures Present(item.image) ==> r == item.image
    ensures !Present(item.image) && item.images.Some? && |item.images.value| > 0 ==> r == Some(item.images.value[0])
    ensures !Present(item.image) && !(item.images.Some? && |item.images.value| > 0) ==> r == None
  {
    if Present(item.image) then item.image
    else if item.images.Some? && |item.images.value| > 0 then Some(item.images.value[0])
    else None
  }

  /** The picture's URL always starts with `http`: an upload path gets the backend host, a
      missing picture the placeholder. */
  function ImageUrl(item: CardItem): (r: string)
    ensures StartsWith(r, CardImage.Http)
    ensures !Present(RawImage(item)) ==> r == CardImage.Placeholder
  {
    CardImage.ImageUrl(RawImage(item))
  }

  /** `item.sizes || item.availableSizes || []`: an array is truthy even when empty. */
  function SizeList(item: CardItem): (r: seq<int>)
    ensures item.sizes.Some? ==> r == item.sizes.value
    ensures item.sizes.None? && item.availableSizes.Some? ==> r == item.availableSizes.value
    ensures item.sizes.None? && item.availableSizes.None? ==> r == []
  {
    if item.sizes.Some? then item.sizes.value
    else if item.availableSizes.Some? then item.availableSizes.value
    else []
  }

  predicate SizeSectionShown(item: CardItem) {
    |SizeList(item)| > 0
  }

  /** An empty `sizes` array hides the size section whatever `availableSizes` holds. */
  lemma EmptySizesWin(item: CardItem)
    requires item.sizes == Some([])
    ensures SizeList(item) == [] && !SizeSectionShown(item)
  {
  }

  /** The link target `item.id || item._id`. */
  function LinkId(item: CardItem): (r: Option<string>)
    ensures Present(item.id) ==> r == item.id
    ensures !Present(item.id) ==> r == item.underscoreId
  {
    if Present(item.id) then item.id else item.underscoreId
  }

  /** The rank badge appears for a truthy rank (0 counts as none). */
  predicate RankBadgeShown(item: CardItem) {
    item.rank.Some? && item.rank.value != 0
  }

  /** `item.price ? item.price : 0`: the shown price, 0 for a missing one. */
  function ShownPrice(item: CardItem): (r: int)
    ensures item.price.Some? ==> r == item.price.value
    ensures item.price.None? ==> r == 0
  {
    if item.price.Some? && item.price.value != 0 then item.price.value else 0
  }
}
