/** `getImageUrl` as exported by the API client module (api/axios.js). Despite its name it adds no
    host: a relative path comes back exactly as it went in. */
module ApiClient {
  import opened Wrappers
  import opened Text

  /** A missing or empty path gives the empty string; an absolute `http…` path and a relative
      path are both returned unchanged. */
  function ImageUrl(path: Option<string>): (r: string)
    ensures !Present(path) ==> r == ""
    ensures Present(path) && StartsWith(path.value, "http") ==> r == path.value
    ensures Present(path) && !StartsWith(path.value, "http") ==> r == path.value
    ensures r == "" <==> !Present(path)
  {
    if !Present(path) then ""
    else if StartsWith(path.value, "http") then path.value
    else path.value
  }

  /** Normalising an already normalised path changes nothing. */
  lemma ImageUrlIdempotent(path: Option<string>)
    ensures ImageUrl(Some(ImageUrl(path))) == ImageUrl(path)
  {
  }
}
