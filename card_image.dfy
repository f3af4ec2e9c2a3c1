/** The `getImageUrl` that the two product cards each define for themselves
    (ProductListPage/ListProductCard.jsx and mainPage/ProductCard.jsx hold the same text):
    a placeholder for a missing image, absolute URLs untouched, and relative upload paths
    resolved against the backend host. */
module CardImage {
  import opened Wrappers
  import opened Text
  import ApiClient

  /** The prefix the source tests for with `startsWith('http')`. */
  const Http: string := "http"
  /** `https://via.placeholder.com/300?text=No+Image` */
  const Placeholder: string := Http + "s://via.placeholder.com/300?text=No+Image"
  /** `http://localhost:5000` */
  const Host: string := Http + "://localhost:5000"

  function ImageUrl(path: Option<string>): (r: string)
    ensures !Present(path) ==> r == Placeholder
    ensures Present(path) && StartsWith(path.value, Http) ==> r == path.value
    ensures Present(path) && !StartsWith(path.value, Http) ==> r == Host + path.value
    ensures StartsWith(r, Http)
  {
    if !Present(path) then
      Placeholder
    else if StartsWith(path.value, Http) then path.value
    else
      PrefixOfConcat(Http, Host, path.value);
      Host + path.value
  }

  /** Every result starts with `http`, so resolving a resolved URL again returns it unchanged. */
  lemma ImageUrlIdempotent(path: Option<string>)
    ensures ImageUrl(Some(ImageUrl(path))) == ImageUrl(path)
  {
    var r := ImageUrl(path);
    assert r != "" by { assert |r| >= 4; }
  }

  /** The card copy and the API client copy agree on absolute URLs ... */
  lemma AgreesWithApiOnAbsolute(p: string)
    requires StartsWith(p, Http)
    ensures ImageUrl(Some(p)) == ApiClient.ImageUrl(Some(p)) == p
  {
  }

  /** ... and disagree on every relative path and on a missing one: the API client copy leaves
      the host off and gives '' instead of the placeholder. */
  lemma DivergesFromApiOnRelative(p: Option<string>)
    requires !(Present(p) && StartsWith(p.value, Http))
    ensures ImageUrl(p) != ApiClient.ImageUrl(p)
  {
    if Present(p) {
      assert |ImageUrl(p)| == |Host| + |p.value|;
    } else {
      assert ApiClient.ImageUrl(p) == "";
    }
  }
}
