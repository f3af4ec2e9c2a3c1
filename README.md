# AllBirds storefront front end — a Dafny model of its state logic

This project models the behaviour of the React front end of an AllBirds-style shoe store. It
covers the parts of the application that hold state or compute something from it:

- the **cart store**: a client-side mirror of the server cart, with a line count and an
  open/closed sidebar;
- the **session store**: the logged-in user and the gate that holds rendering until the session
  check settles;
- the **product list page**: filter selection, query building, product formatting, and the
  per-size stock table;
- the **cart sidebar**: the total, the rendered lines, and the quantity buttons;
- the two **image URL helpers**: the API client's and the product cards' own;
- the **list and main-page product cards**;
- the **"popular now" slider**;
- the **review section**: the average and its star rendering;
- the **purchase panel** of the product page;
- the **review dialog**;
- the **account page**: orders, reviews, deletion and logout;
- the three **admin panels**: sales statistics, product registration, and per-product editing.

There is one module per source file, except `CardImage`: it models the image helper that the two product card files each define with the same text. Three modules are shared:

- `Wrappers` holds optional values and the outcome of a request.
- `Text` holds join, split and decimal rendering.
- `Lists` holds filter-out and toggle.

How the model is built:

- **Stores and components become classes.** Each store and each stateful component is a class. Its
  React state becomes fields. Each handler or effect is a method with a `modifies` clause that
  names the state it sets.
- **Requests become parameters.** A request's outcome is a `Response` parameter: the body on
  success, or a failure with an optional HTTP status. A `confirm` dialog's answer is a boolean
  parameter too. Where a component's handlers send requests, alert or navigate, these are
  appended, in order, to an event log field. The review list and the slider only load data,
  so they keep no log. A later request in the same handler (a refetch) gets a parameter of its
  own.
- **Expressions become functions.** Pure expressions, such as the image URL helpers, the `||`
  fallback chains and the `reduce` totals, are functions. Lemmas relate them to a partner: an
  inverse, a second definition, or an invariant.
- **Numbers are exact.** `Math.round(price * (1 - rate/100))` is computed over exact rationals.
  The review average is kept in whole tenths, the precision it is displayed with. The sidebar
  total and the admin list's discounted price are exact `real`s.
- **Class invariants.** Where a class has an invariant, `Valid()` states it and every method
  preserves it, with one exception listed under "Left out" (the slider's LoadItems):
  - the cart count equals the sum of the line quantities;
  - the list page's size and material selections have no duplicates;
  - the registration form's categories have no duplicates;
  - the slider index stays within the last full window.

## Model

| member | source | states |
|---|---|---|
| Wrappers.OrZero | src/pages/ProductListPage.jsx:98 | a missing discount rate reads as 0, a present one as itself |
| ApiClient.ImageUrl | src/api/axios.js:11-15 | a missing or empty path gives the empty string; an `http` path and any other path are both returned unchanged (no host is added); the result is empty exactly when the input is |
| ApiClient.ImageUrlIdempotent | src/api/axios.js:11-15 | applying the API client's `getImageUrl` to its own result changes nothing |
| CardImage.ImageUrl | src/components/ProductListPage/ListProductCard.jsx:201-205 | a missing path gives the placeholder URL, an `http` path is kept, any other path gets `http://localhost:5000` in front; every result starts with `http` |
| CardImage.ImageUrlIdempotent | src/components/mainPage/ProductCard.jsx:7-18 | because every result starts with `http`, resolving a resolved URL returns it unchanged |
| CardImage.AgreesWithApiOnAbsolute | src/components/mainPage/ProductCard.jsx:11-13 | on an absolute `http` path the cards' helper and the API client's helper give the same URL, the path itself |
| CardImage.DivergesFromApiOnRelative | src/api/axios.js:12-14 | on a relative or missing path the two helpers always disagree (the API client adds no host and no placeholder) |
| Text.Join | src/pages/ProductListPage.jsx:72 | `join(',')` of an empty selection is the empty string |
| Text.Split | src/components/admin/ProductManage.jsx:179 | the receiving side's split: at least one piece, and no piece contains the separator |
| Text.SplitJoin | src/pages/ProductListPage.jsx:71-77 | splitting a comma-joined list of comma-free pieces gives the pieces back in order |
| Text.NatToString | src/components/admin/ProductDetailManage.jsx:110 | a size number renders as a non-empty string of decimal digits |
| Text.NatToStringRoundTrip | src/components/admin/ProductDetailManage.jsx:110 | reading the digits of a rendered size gives the size back |
| Text.NumbersToStrings | src/pages/ProductListPage.jsx:72 | one rendered string per size, in order, each the decimal rendering of its size |
| Text.NumbersHaveNoComma | src/pages/ProductListPage.jsx:72 | no rendered size contains a comma |
| Lists.RemoveAll | src/components/admin/ProductManage.jsx:153-156 | `filter(x => x !== v)` removes every occurrence of v and keeps every other value present |
| Lists.Toggled | src/pages/ProductListPage.jsx:121-125 | toggling flips membership of the value, keeps every other value, and appends an absent value at the end |
| Lists.RemoveAllAbsent | src/pages/ProductListPage.jsx:123 | filtering out a value that is absent leaves the list unchanged |
| Lists.RemoveAllAppend | src/pages/ProductListPage.jsx:123-124 | filtering out a value distributes over concatenation |
| Lists.ToggleAbsentTwice | src/pages/ProductListPage.jsx:121-131 | toggling an absent value twice restores the exact list |
| Lists.RemoveAllKeepsNoDuplicates | src/pages/ProductListPage.jsx:123 | filtering keeps a duplicate-free list duplicate-free |
| Lists.ToggleKeepsNoDuplicates | src/pages/ProductListPage.jsx:121-131 | toggling keeps a duplicate-free selection duplicate-free |
| CartContext.QuantitySumAppend | src/context/CartContext.jsx:18 | the quantity sum of two runs of lines is the sum of their sums |
| CartContext.LinesAtMostCount | src/context/CartContext.jsx:18 | with every line holding at least one unit, the number of lines is at most the count, with equality exactly when every line holds one |
| CartContext.Resynced | src/context/CartContext.jsx:16-24 | after a re-read the mirror holds the server's items, `[]` when the body has none, and `[]` after a failed read |
| CartContext.CartStore.constructor | src/context/CartContext.jsx:9-11 | an empty mirror, count 0, sidebar closed |
| CartContext.CartStore.FetchCart | src/context/CartContext.jsx:14-25 | items become the server's (or `[]`), the count their quantity sum; a failure empties both whatever they were; one GET |
| CartContext.CartStore.AddToCart | src/context/CartContext.jsx:30-44 | posts the line with quantity defaulting to 1; success re-reads and opens the sidebar; a 401 alerts and navigates to `/login`, another failure only alerts, and neither changes items, count or sidebar |
| CartContext.CartStore.UpdateQuantity | src/context/CartContext.jsx:46-52 | a quantity below 1 sends nothing and changes nothing; otherwise a PUT, then a re-read only on success; a failure keeps items and count |
| CartContext.CartStore.RemoveFromCart | src/context/CartContext.jsx:54-59 | a DELETE, then a re-read only on success; a failure keeps items and count |
| CartContext.CartStore.Checkout | src/context/CartContext.jsx:61-73 | success empties the mirror without a re-read, closes the sidebar, alerts and navigates to `/mypage`; a failure only alerts |
| CartContext.CartStore.ToggleCart | src/context/CartContext.jsx:75 | negates whether the sidebar is open |
| CartContext.CartStore.SetCartOpen | src/context/CartContext.jsx:80 | sets whether the sidebar is open |
| CartContext.DefaultQuantity | src/context/CartContext.jsx:30 | an omitted quantity means 1, a given one is used as is |
| CartContext.ToggleTwice | src/context/CartContext.jsx:75 | toggling twice restores whether the sidebar is open |
| CartContext.RaiseQuantityScenario | src/context/CartContext.jsx:46-52 | raising a line from 2 to 3 sends one PUT and one GET and grows the count by one |
| AuthContext.AuthStore.constructor | src/context/AuthContext.jsx:7-8 | nobody logged in, loading, and the children are not rendered |
| AuthContext.AuthStore.CheckLoginStatus | src/context/AuthContext.jsx:11-25 | the returned user when the server reports a login, nobody otherwise and nobody after a failure; loading ends and the children render in every case |
| AuthContext.AuthStore.Login | src/context/AuthContext.jsx:29-33 | success sets the user from the response and hands the response back; a failure propagates and keeps the user |
| AuthContext.AuthStore.Logout | src/context/AuthContext.jsx:35-38 | the user is cleared only after the request succeeds; a failure propagates and keeps the user |
| ProductListPage.CategoryValue | src/pages/ProductListPage.jsx:47-67 | a mapped Korean tab label gives its English category, any other label is sent as it is |
| ProductListPage.BuildParams | src/pages/ProductListPage.jsx:59-77 | no tab sends no category key; the new-arrivals tab sends only `isNew`, the sale tab only `onSale`, any other tab only `categories`; `sizes` and `materials` are present exactly for non-empty selections and are their comma-joins in order |
| ProductListPage.DescribesFiltersUnique | src/pages/ProductListPage.jsx:59-77 | a filter selection determines its query completely |
| ProductListPage.SizesRecoverable | src/pages/ProductListPage.jsx:71-73 | splitting the `sizes` value at commas gives back the selected sizes' renderings in order |
| ProductListPage.MaterialsRecoverable | src/pages/ProductListPage.jsx:75-77 | splitting the `materials` value gives back the selection when no material contains a comma |
| ProductListPage.DiscountedPrice | src/pages/ProductListPage.jsx:96 | the shown price is within half a unit of the discounted price, halves rounded up |
| ProductListPage.NoDiscountKeepsPrice | src/pages/ProductListPage.jsx:96-97 | with rate 0 the shown price equals the original price |
| ProductListPage.DiscountedPriceBounds | src/pages/ProductListPage.jsx:96 | a rate between 0 and 100 keeps the shown price between 0 and the original price |
| ProductListPage.First | src/pages/ProductListPage.jsx:95 | the first category or material, missing for a missing or empty list |
| ProductListPage.StockHasFifteenKeys | src/pages/ProductListPage.jsx:84-89 | a stock table has exactly the fifteen listed sizes as keys |
| ProductListPage.BuildStock | src/pages/ProductListPage.jsx:84-89 | the loop yields one key per listed size, true exactly for the sizes the product offers |
| ProductListPage.FormatProduct | src/pages/ProductListPage.jsx:91-103 | the card fields: id, first category and material, rounded discounted price, original price, rate or 0, images or `[]`, the stock table, on sale exactly for a positive rate |
| ProductListPage.FormatProducts | src/pages/ProductListPage.jsx:83-104 | one formatted product per server product, in order |
| ProductListPage.NoDiscountNotOnSale | src/pages/ProductListPage.jsx:96-102 | a product without a discount is not on sale and keeps its price |
| ProductListPage.ProductListPage.constructor | src/pages/ProductListPage.jsx:38-44 | no products, not loading, no tab, empty selections |
| ProductListPage.ProductListPage.FetchProducts | src/pages/ProductListPage.jsx:55-115 | the request carries the query of the current selection; success replaces the products by their formatted forms, a failure keeps them; loading ends |
| ProductListPage.ProductListPage.HandleCategoryClick | src/pages/ProductListPage.jsx:118 | clicking the active tab clears it, another tab becomes active |
| ProductListPage.ProductListPage.HandleResetCategory | src/pages/ProductListPage.jsx:119 | clears the tab |
| ProductListPage.ProductListPage.ToggleSize | src/pages/ProductListPage.jsx:121-125 | the size selection is toggled and stays duplicate-free |
| ProductListPage.ProductListPage.ToggleMaterial | src/pages/ProductListPage.jsx:127-131 | the material selection is toggled and stays duplicate-free |
| ProductListPage.ProductListPage.ResetSidebarFilters | src/pages/ProductListPage.jsx:133-136 | empties both selections and leaves the tab alone |
| CartSidebar.VisibleLines | src/components/common/CartSidebar.jsx:160-161 | the rendered lines are exactly the lines whose product is present |
| CartSidebar.VisibleLinesAppend | src/components/common/CartSidebar.jsx:160-161 | `filter` keeps order and multiplicity: the rendered lines of a concatenation are those of each part, in order |
| CartSidebar.VisibleLinesSingle | src/components/common/CartSidebar.jsx:160-161 | a single line is rendered exactly when its product is present |
| CartSidebar.TotalPriceAppend | src/components/common/CartSidebar.jsx:141-145 | the total of two runs of lines is the sum of their totals |
| CartSidebar.TotalPriceOverVisible | src/components/common/CartSidebar.jsx:141-145 | lines without a product add nothing: the total equals the total over the rendered lines |
| CartSidebar.TotalPriceNonNegative | src/components/common/CartSidebar.jsx:141-145 | with non-negative prices and quantities and rates up to 100 the total is never negative |
| CartSidebar.TotalPriceWithoutDiscounts | src/components/common/CartSidebar.jsx:143 | with no discounts the total is the plain sum of price times quantity |
| CartSidebar.EmptyCartShowsNoFooter | src/components/common/CartSidebar.jsx:191 | an empty cart totals 0 and hides the footer with the checkout button |
| CartSidebar.HeaderCountVersusStoreCount | src/components/common/CartSidebar.jsx:152 | the header's line count is at most the store's unit count, equal only when every line holds one unit |
| CartSidebar.FirstImage | src/components/common/CartSidebar.jsx:166 | `images?.[0]`: the first image when there is one |
| CartSidebar.DisplayImage | src/components/common/CartSidebar.jsx:166 | the image chosen when adding, when present; otherwise the API client's URL of the product's first image |
| CartSidebar.ClickMinus | src/components/common/CartSidebar.jsx:179 | asks the store for one unit less: at quantity 1 nothing is sent and nothing changes; above it a PUT, then on success a re-read whose items the mirror takes, while a failure keeps items and count; the sidebar stays as it was |
| CartSidebar.ClickPlus | src/components/common/CartSidebar.jsx:181 | asks the store for one unit more: a PUT, then on success a re-read whose items the mirror takes, while a failure keeps items and count; should the new quantity fall below 1 the store sends nothing and nothing changes; the sidebar stays as it was |
| ListProductCard.InitialSelection | src/components/ProductListPage/ListProductCard.jsx:214 | the first image is selected, none for a product without images |
| ListProductCard.ShowNavButtons | src/components/ProductListPage/ListProductCard.jsx:225 | the scroll buttons show exactly from seven images on |
| ListProductCard.CardState.constructor | src/components/ProductListPage/ListProductCard.jsx:211-214 | images default to `[]`, the first is selected, and a card without images shows the placeholder |
| ListProductCard.CardState.ImagesChanged | src/components/ProductListPage/ListProductCard.jsx:221-223 | a non-empty image list selects its first image; an empty one keeps the selection |
| ListProductCard.CardState.SelectThumb | src/components/ProductListPage/ListProductCard.jsx:262-264 | the clicked image is selected, and exactly the thumbnails showing it are marked |
| ProductCard.RawImage | src/components/mainPage/ProductCard.jsx:144 | `image` when truthy, else the first of `images` when there is one, else none |
| ProductCard.ImageUrl | src/components/mainPage/ProductCard.jsx:147 | the card URL starts with `http`, and is the placeholder when there is no raw image |
| ProductCard.SizeList | src/components/mainPage/ProductCard.jsx:151 | `sizes` when defined, else `availableSizes`, else `[]` |
| ProductCard.EmptySizesWin | src/components/mainPage/ProductCard.jsx:151-171 | an empty `sizes` array wins over `availableSizes` and hides the size section |
| ProductCard.LinkId | src/components/mainPage/ProductCard.jsx:156 | the link uses `id` when truthy, else `_id` |
| ProductCard.ShownPrice | src/components/mainPage/ProductCard.jsx:168 | the price when present, 0 when missing |
| RealTimePopular.MaxIndex | src/components/mainPage/RealTimePopular.jsx:84 | the last index at which a full window of five fits, 0 for short lists |
| RealTimePopular.Slider.constructor | src/components/mainPage/RealTimePopular.jsx:81-82 | no items and index 0 |
| RealTimePopular.Slider.LoadItems | src/components/mainPage/RealTimePopular.jsx:86-90 | success replaces the items, a failure keeps them; the index is left alone |
| RealTimePopular.Slider.NextSlide | src/components/mainPage/RealTimePopular.jsx:92-96 | one step right unless the next button is disabled, in which case nothing changes; the window bound is preserved |
| RealTimePopular.Slider.PrevSlide | src/components/mainPage/RealTimePopular.jsx:98-102 | one step left unless the prev button is disabled, in which case nothing changes; the window bound is preserved |
| RealTimePopular.NextThenPrev | src/components/mainPage/RealTimePopular.jsx:92-102 | an enabled step right followed by a step left returns to the same index |
| ReviewSection.AverageTenths | src/components/productDetail/ReviewSection.jsx:140-144 | 0 for no reviews, otherwise the mean rating rounded to one decimal (in tenths) |
| ReviewSection.RatingSumBounds | src/components/productDetail/ReviewSection.jsx:142 | with ratings from 1 to 5 the sum lies between the count and five times the count |
| ReviewSection.AverageInRange | src/components/productDetail/ReviewSection.jsx:140-144 | with ratings from 1 to 5 and at least one review the average lies between 1.0 and 5.0 |
| ReviewSection.RenderStars | src/components/productDetail/ReviewSection.jsx:146-152 | floor of the score full stars, a half star exactly when the fraction is at least .5, and the rest of the five empty |
| ReviewSection.StarsFitFive | src/components/productDetail/ReviewSection.jsx:148-158 | for a score from 0 to 5 the full, half and empty stars are never negative and total five |
| ReviewSection.StarsOfWholeRating | src/components/productDetail/ReviewSection.jsx:148-152 | a whole rating r gives r full stars, no half star and 5 - r empty stars |
| ReviewSection.AverageStarsFitFive | src/components/productDetail/ReviewSection.jsx:146-158 | the stars rendered for a non-empty average show at least one full star and never a negative count |
| ReviewSection.ReviewList.constructor | src/components/productDetail/ReviewSection.jsx:125-126 | no reviews, loading |
| ReviewSection.ReviewList.Load | src/components/productDetail/ReviewSection.jsx:128-138 | success replaces the reviews, a failure keeps them; loading ends either way |
| ProductInfo.Panel.constructor | src/components/productDetail/ProductInfo.jsx:276-277 | no size, empty large image, add button disabled |
| ProductInfo.Panel.ProductChanged | src/components/productDetail/ProductInfo.jsx:280-284 | the first image's URL becomes the large image when there is one; otherwise the large image stays |
| ProductInfo.Panel.ClickThumbnail | src/components/productDetail/ProductInfo.jsx:341-342 | the clicked thumbnail's URL becomes the large image, so that thumbnail is active |
| ProductInfo.Panel.SelectSize | src/components/productDetail/ProductInfo.jsx:359-360 | a click replaces the selected size |
| ProductInfo.Panel.HandleAddToCart | src/components/productDetail/ProductInfo.jsx:286-289 | without a size only an alert and no cart call; with one, the cart posts the product id, the size, quantity 1 and no image, then re-reads and opens on success, alerts and goes to `/login` on a 401, and only alerts on another failure, keeping items, count and sidebar on both failures |
| ReviewModal.TitleOf | src/components/myPage/ReviewModal.jsx:100 | the review's title, or `''` for a missing or empty one |
| ReviewModal.Form.constructor | src/components/myPage/ReviewModal.jsx:92-94 | five stars, empty title and content |
| ReviewModal.Form.Sync | src/components/myPage/ReviewModal.jsx:96-107 | while closed nothing changes; opening with a review copies rating, title (or `''`) and content; opening without resets to five stars and empty texts |
| ReviewModal.Form.SubmitForm | src/components/myPage/ReviewModal.jsx:111-175 | with a required input empty the browser submits nothing and the log is unchanged; otherwise the whole handling follows: the update or the create, then on success the alert, `onClose` and `onSubmitSuccess`, and on failure only the failure alert |
| ReviewModal.Form.HandleSubmit | src/components/myPage/ReviewModal.jsx:111-138 | with a review a PUT to that review, without one a POST for the line's product; only on success an alert, then `onClose`, then `onSubmitSuccess`; a failure only alerts |
| MyPage.FindReview | src/pages/MyPage.jsx:280 | the first review of the product, and none exactly when no review is of that product |
| MyPage.ButtonFor | src/pages/MyPage.jsx:307-315 | an edit button with the product's review when one exists, otherwise a write button |
| MyPage.ItemRows | src/pages/MyPage.jsx:278-279 | every item of every order is rendered, and nothing else |
| MyPage.ItemRowsAppend | src/pages/MyPage.jsx:278-279 | the nested `map` keeps order and multiplicity: the rows of a concatenation of orders are the rows of each part, in order |
| MyPage.ItemRowsSingle | src/pages/MyPage.jsx:278-279 | one order renders exactly its own lines |
| MyPage.EmptyMessageExcludesRows | src/pages/MyPage.jsx:275-279 | the empty-history message never shows with rows, and orders without items show neither |
| MyPage.Page.constructor | src/pages/MyPage.jsx:195-201 | no orders or reviews, loading, dialog closed with nothing selected |
| MyPage.Page.FetchData | src/pages/MyPage.jsx:203-216 | both lists are replaced only when both requests succeed, otherwise both are kept; loading ends |
| MyPage.Page.UserChanged | src/pages/MyPage.jsx:218-224 | a logged-in user triggers the fetch, whose lists replace the old ones only when both requests succeed; without one no request and no change; loading ends either way |
| MyPage.Page.OpenReviewModal | src/pages/MyPage.jsx:237-241 | the dialog opens for the line with the given review or none, and renders |
| MyPage.Page.ClickReviewButton | src/pages/MyPage.jsx:307-315 | the dialog opens with exactly the review the lookup finds for the line |
| MyPage.Page.CloseModal | src/pages/MyPage.jsx:347 | the dialog closes |
| MyPage.Page.HandleDeleteReview | src/pages/MyPage.jsx:243-253 | without confirmation no request and no change; on success an alert and a refetch, which replaces both lists only when both requests succeed and ends loading; on failure only an alert, with lists and loading kept |
| MyPage.Page.HandleImageClick | src/pages/MyPage.jsx:255-257 | navigates to the product's page |
| MyPage.Page.HandleLogout | src/pages/MyPage.jsx:226-235 | as written: the session ends on a successful logout, but the page neither alerts nor navigates |
| MyPage.Page.HandleLogoutCorrected | src/pages/MyPage.jsx:226-235 | as intended: after a successful logout the cart is empty, the user is told and the page goes to `/`; a failed logout changes nothing |
| MyPage.ClearLocalCart | src/pages/MyPage.jsx:229 | what the corrected handler does in place of the missing `clearCart`: an empty mirror and count 0, with the store invariant kept and no request (see Findings) |
| MyPage.LogoutAsWrittenScenario | src/pages/MyPage.jsx:226-235 | from a logged-in session with a successful logout: logged out, yet not navigated |
| MyPage.LogoutCorrectedScenario | src/pages/MyPage.jsx:226-235 | the same session under the corrected handler: logged out, cart empty, navigated home |
| SalesStats.Total | src/components/admin/SalesStats.jsx:46-47 | 0 without statistics and for an empty list; otherwise the column's sum, the same read from either end |
| SalesStats.SumAppend | src/components/admin/SalesStats.jsx:46 | the sum over two runs of rows is the sum of their sums |
| SalesStats.FoldDirectionIrrelevant | src/components/admin/SalesStats.jsx:46-47 | the left fold of `reduce` equals the right fold over the same rows |
| SalesStats.SumPermutation | src/components/admin/SalesStats.jsx:46-47 | any rearrangement of the same rows has the same sum: the totals do not depend on the order the server sends rows in |
| SalesStats.RowAtMostTotal | src/components/admin/SalesStats.jsx:46-47 | with non-negative figures each product's figure lies between 0 and the total |
| SalesStats.SumNonNegative | src/components/admin/SalesStats.jsx:46-47 | non-negative figures give a non-negative total |
| SalesStats.Panel.constructor | src/components/admin/SalesStats.jsx:29-30 | empty dates, no statistics, no result block |
| SalesStats.Panel.SetStart | src/components/admin/SalesStats.jsx:54 | only the start date changes |
| SalesStats.Panel.SetEnd | src/components/admin/SalesStats.jsx:58 | only the end date changes |
| SalesStats.Panel.FetchStats | src/components/admin/SalesStats.jsx:32-43 | the query carries the current dates; success replaces the statistics and shows the result, a failure alerts and keeps them |
| ProductManage.WithField | src/components/admin/ProductManage.jsx:142-144 | the named input takes the value and every other input and the categories keep theirs |
| ProductManage.TextEntries | src/components/admin/ProductManage.jsx:174-181 | seven text entries, the categories comma-joined in the fifth |
| ProductManage.BuildPayload | src/components/admin/ProductManage.jsx:174-187 | the seven text entries, then one `images` entry per chosen file in order, none without files |
| ProductManage.FilesInAppend | src/components/admin/ProductManage.jsx:183-187 | the files found in two runs of entries are those of each run, in order |
| ProductManage.FilesOfImageEntries | src/components/admin/ProductManage.jsx:183-187 | a run of `images` entries yields exactly its files, in order |
| ProductManage.TextEntriesCarryNoFiles | src/components/admin/ProductManage.jsx:174-181 | the text entries carry no file |
| ProductManage.PayloadFilesRoundTrip | src/components/admin/ProductManage.jsx:183-187 | a receiver finds exactly the chosen files in the payload, in order |
| ProductManage.PayloadCategoriesRoundTrip | src/components/admin/ProductManage.jsx:179 | splitting the `categories` entry at commas gives back the checked categories |
| ProductManage.CheckedCategoriesRoundTrip | src/components/admin/ProductManage.jsx:6-9 | the checkbox values hold no comma, so any non-empty selection of them splits back from the `categories` entry unchanged |
| ProductManage.DiscountLowersPrice | src/components/admin/ProductManage.jsx:304-318 | a positive rate up to 100 lowers a positive price and never below 0 |
| ProductManage.StockLabelOf | src/components/admin/ProductManage.jsx:334-338 | sold out exactly when no size is available, otherwise the sizes |
| ProductManage.Panel.constructor | src/components/admin/ProductManage.jsx:117-127 | no products, nothing selected, the initial form, no files |
| ProductManage.Panel.FetchProducts | src/components/admin/ProductManage.jsx:129-136 | success replaces the list, a failure keeps it |
| ProductManage.Panel.HandleChange | src/components/admin/ProductManage.jsx:142-144 | only the named input changes |
| ProductManage.Panel.HandleCategoryChange | src/components/admin/ProductManage.jsx:146-158 | a checked box appends its value, an unchecked one removes every occurrence; nothing else changes and the categories stay duplicate-free |
| ProductManage.Panel.HandleFileChange | src/components/admin/ProductManage.jsx:160-162 | the chosen files replace the previous ones |
| ProductManage.Panel.HandleSubmit | src/components/admin/ProductManage.jsx:164-209 | no category: only an alert, checked first; no material: only an alert; both leave form, files and list alone; otherwise the full payload is posted (the seven text entries, then one `images` entry per chosen file), and success alerts, refetches the list and resets the form and files while a failure alerts and keeps them |
| ProductManage.Panel.SelectProduct | src/components/admin/ProductManage.jsx:307 | the clicked product's id is selected, and the detail panel replaces the page exactly when that id is non-empty |
| ProductManage.Panel.OnBack | src/components/admin/ProductManage.jsx:214-217 | back to the list with nothing selected, and the list is refetched |
| ProductDetailManage.SizesField | src/components/admin/ProductDetailManage.jsx:110 | an empty size list gives an empty field |
| ProductDetailManage.SizesFieldRoundTrip | src/components/admin/ProductDetailManage.jsx:110 | splitting the loaded sizes field gives back one decimal number per size, in order |
| ProductDetailManage.FindStat | src/components/admin/ProductDetailManage.jsx:129 | the first row of the product, and none exactly when no row is of that product |
| ProductDetailManage.SummaryOf | src/components/admin/ProductDetailManage.jsx:131-136 | the found row's revenue and quantity, zeros when there is no row |
| ProductDetailManage.SummaryWithinTotals | src/components/admin/ProductDetailManage.jsx:129-132 | for the same range the product's figures lie between 0 and the sales panel's totals |
| ProductDetailManage.MainImage | src/components/admin/ProductDetailManage.jsx:177 | the host followed by the first image path |
| ProductDetailManage.Panel.constructor | src/components/admin/ProductDetailManage.jsx:96-101 | no product (nothing rendered), zero figures, rate 0 and no sizes, empty dates |
| ProductDetailManage.Panel.LoadProduct | src/components/admin/ProductDetailManage.jsx:104-114 | success shows the product and fills the form with its rate and its comma-joined sizes; a failure changes nothing |
| ProductDetailManage.Panel.FetchProductStats | src/components/admin/ProductDetailManage.jsx:117-142 | the query carries the current dates; success sets the product's figures or zeros, a failure alerts and keeps them |
| ProductDetailManage.Panel.SetDiscountRate | src/components/admin/ProductDetailManage.jsx:189 | only the rate changes, to the typed text |
| ProductDetailManage.Panel.SetAvailableSizes | src/components/admin/ProductDetailManage.jsx:197 | only the sizes text changes |
| ProductDetailManage.Panel.SetStart | src/components/admin/ProductDetailManage.jsx:220 | only the start date changes |
| ProductDetailManage.Panel.SetEnd | src/components/admin/ProductDetailManage.jsx:226 | only the end date changes |
| ProductDetailManage.Panel.ResetDates | src/components/admin/ProductDetailManage.jsx:229-234 | clears both dates, with no request and the figures kept |
| ProductDetailManage.Panel.HandleUpdate | src/components/admin/ProductDetailManage.jsx:149-163 | sends the form's values as they stand; only success alerts and goes back, a failure only alerts |
| ProductDetailManage.Panel.ClickBack | src/components/admin/ProductDetailManage.jsx:171 | goes back to the list |
| ProductDetailManage.OpenWithoutSales | src/components/admin/ProductDetailManage.jsx:104-146 | opening a product that sold nothing in the range: the form shows its rate and sizes and the figures are zero |

## Left out

- Transport: requests are outcomes passed in as parameters. Nothing models the HTTP cycle, the axios configuration (base URL, credentials, headers) or the hosts and ports.
- Concurrency: overlapping requests, the two requests of `Promise.all` in `src/pages/MyPage.jsx:205-208` and React's batched state updates are out. Each handler is one sequential step, and a fire-and-forget refetch is treated as finished before the handler returns.
- Styling, layout, animations and the purely presentational components are out, as are the login page and the main page's best-seller filter: they hold no state logic beyond a post and a navigation.
- DOM behaviour is out: the thumbnail scroller's `handleScroll`, click propagation (`stopPropagation`), the card-wide click that navigates to a product, and the file input's own file list after a reset.
- Date formatting (`toISOString`, `toLocaleDateString`) and number formatting (`toLocaleString`) are out.
- ReviewSection.AverageTenths: keeps the average in exact tenths with halves rounded up. It does not model `toFixed(1)` on binary doubles, which can round some halves down, and the average is shown as a string.
- ProductListPage.DiscountedPrice: exact rational arithmetic with halves rounded up. JavaScript's `Math.round` over a floating-point product can differ when the product lands next to a half.
- CartSidebar.TotalPriceNonNegative and the other total lemmas are about exact `real` totals, not the floating-point sum the sidebar prints.
- ProductManage.DiscountLowersPrice: about the exact `real` value, not the printed float.
- ReviewModal.Form.HandleSubmit: the rating is an integer. The select's string value and `Number(rating)` are not modelled separately, since the five options parse exactly to 1–5.
- The registration form's initial discount rate is the number 0. The model holds it as the text "0", which is what the multipart body carries either way.
- ProductManage.Panel.HandleSubmit: the browser's `required` checks on this form are not modelled. The handler's own category and material checks are.
- ProductListPage.CategoryValue: looks up only the three listed labels. JavaScript object keys inherited from the prototype (a label such as `constructor`) are not modelled.
- ProductListPage.BuildStock: a product without `availableSizes` gets `false` for every size. The source stores `undefined`, which renders the same.
- RealTimePopular.Slider.LoadItems: the index is not reset when items arrive. The window invariant is stated only for the initial index 0, which is the only index the mount effect ever sees.
- ProductListPage.ProductListPage.FetchProducts: the intermediate `loading = true` state within one fetch is not observable in the model.
- ProductCard.RawImage and ProductCard.LinkId: JavaScript truthiness is modelled for strings and numbers as used (empty string and 0 are falsy). `NaN` is not.
- AuthContext.AuthStore.Login and AuthContext.AuthStore.Logout: a rejected promise is returned as a failed `Response` rather than thrown.
- MyPage.PaymentAmount, ProductCard.RankBadgeShown and ListProductCard.CardState.MainImageUrl are plain display expressions, kept as definitions without separate properties.
- CartSidebar.TotalPrice, CartContext.QuantitySum, SalesStats.Sum and ReviewSection.RatingSum are the source's `reduce` sums, written as definitions without their own contract. Their properties are the lemma rows above: TotalPriceAppend, TotalPriceOverVisible, TotalPriceNonNegative and TotalPriceWithoutDiscounts; QuantitySumAppend and LinesAtMostCount; SumAppend, FoldDirectionIrrelevant, SumPermutation and RowAtMostTotal; RatingSumBounds.
- ProductManage.DiscountShown and ProductManage.DiscountedPrice are the admin list's display expressions (src/components/admin/ProductManage.jsx:304 and 318), kept as definitions; DiscountLowersPrice states their property.
- CartSidebar.HeaderCount, CartSidebar.FooterShown, ProductInfo.Panel.AddDisabled, RealTimePopular.Slider.PrevDisabled, RealTimePopular.Slider.NextDisabled, ProductCard.SizeSectionShown and SalesStats.ResultShown are the render conditions, kept as definitions. They are stated through HeaderCountVersusStoreCount, EmptyCartShowsNoFooter, the purchase panel's constructor, the slider's NextSlide and PrevSlide, EmptySizesWin, and the sales panel's constructor and FetchStats.
- ReviewModal.Renders, ReviewModal.Form.CanSubmit, ProductInfo.Renders, ProductInfo.Panel.NoSize, ProductInfo.Panel.ThumbnailActive, ProductDetailManage.Panel.Renders, AuthContext.AuthStore.RendersChildren, ListProductCard.ImagesOf, ListProductCard.CardState.ThumbSelected, MyPage.EmptyMessageShown and ProductManage.Panel.ShowsDetail are further render and selection conditions, kept as definitions. They are stated through the rows of MyPage.Page.OpenReviewModal; ReviewModal.Form.SubmitForm; ProductInfo.Panel.HandleAddToCart and ProductInfo.Panel.constructor; ProductInfo.Panel.ClickThumbnail; ProductDetailManage.Panel.constructor and LoadProduct; AuthContext.AuthStore.constructor and CheckLoginStatus; ListProductCard.CardState.constructor and ImagesChanged; ListProductCard.CardState.SelectThumb; MyPage.EmptyMessageExcludesRows; and ProductManage.Panel.SelectProduct and OnBack.
- CartSidebar.UnitPrice and CartSidebar.Contribution are the per-line terms of the sidebar total, kept as definitions. TotalPriceOverVisible, TotalPriceNonNegative and TotalPriceWithoutDiscounts state them.

## Findings

| source | as written | input that shows it | evidently intended | confidence | as-written member | corrected member |
|---|---|---|---|---|---|---|
| src/pages/MyPage.jsx:226-235 | the logout handler calls `clearCart` from the cart context, whose provider value (src/context/CartContext.jsx:78-82) has no `clearCart`; the call throws after the session has already ended, the catch block swallows it, and neither the alert nor the navigation to `/` happens | a logged-in user clicks logout and the logout request succeeds | empty the local cart, tell the user, and navigate home | not executed | MyPage.Page.HandleLogout | MyPage.Page.HandleLogoutCorrected |
