/** `absoluteUrl`: turning a page path into an absolute URL on the site. */
module Seo {
  import opened Wrappers
  import opened JsString

  const BaseUrl := "https://x402.gives"

  predicate IsAbsolute(u: string) {
    StartsWith(u, "http://") || StartsWith(u, "https://")
  }

  /** The base URL for a missing or empty path; an absolute path as it
      is; otherwise the path under the base URL, with one `/` between. */
  function AbsoluteUrl(path: Option<string>): (u: string)
    ensures IsAbsolute(u)
    ensures !Truthy(path) ==> u == BaseUrl
    ensures Truthy(path) && IsAbsolute(path.value) ==> u == path.value
  {
    if !Truthy(path) then BaseUrl
    else if IsAbsolute(path.value) then path.value
    else
      assert StartsWith(BaseUrl, "https://") by { assert BaseUrl[..8] == "https://"; }
      BaseUrl + (if StartsWith(path.value, "/") then "" else "/") + path.value
  }

  /** A relative path lands under the base URL with exactly one `/`
      between them: the path without its leading `/`, if it has one. */
  lemma RelativeUnderBase(path: string)
    requires path != "" && !IsAbsolute(path)
    ensures StartsWith(path, "/") ==> AbsoluteUrl(Some(path)) == BaseUrl + path
    ensures AbsoluteUrl(Some(path)) == BaseUrl + "/" + (if StartsWith(path, "/") then path[1..] else path)
  {
    if StartsWith(path, "/") {
      assert path == "/" + path[1..];
    }
  }

  /** An absolute URL is left as it is, so applying it twice changes nothing. */
  lemma AbsoluteUrlIdempotent(path: Option<string>)
    ensures AbsoluteUrl(Some(AbsoluteUrl(path))) == AbsoluteUrl(path)
  {
    var u := AbsoluteUrl(path);
    assert |u| > 0 by { assert IsAbsolute(u); }
  }
}
