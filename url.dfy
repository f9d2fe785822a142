/** Turning server file paths into browser URLs: `getImageUrl`
    (utils/url.ts) and the modal's own `getAvatarUrl`
    (components/UserListModal.tsx). The environment variable
    `NEXT_PUBLIC_API_URL` is a parameter. */
module Url {
  import opened Common

  const DefaultApiUrl: string := "http://localhost:8000"

  /** `process.env.NEXT_PUBLIC_API_URL || 'http://localhost:8000'` */
  function ApiBase(env: Option<string>): (base: string)
    ensures Truthy(env) ==> base == env.value
    ensures !Truthy(env) ==> base == DefaultApiUrl
  {
    if Truthy(env) then env.value else DefaultApiUrl
  }

  /** `replace(/\/$/, '')`: at most one trailing slash is removed. */
  function StripTrailingSlash(s: string): (r: string)
    ensures |s| > 0 && s[|s| - 1] == '/' ==> r == s[..|s| - 1]
    ensures !(|s| > 0 && s[|s| - 1] == '/') ==> r == s
  {
    if |s| > 0 && s[|s| - 1] == '/' then s[..|s| - 1] else s
  }

  /** The path with exactly one added leading slash when it had none. */
  function LeadingSlash(path: string): (r: string)
    ensures StartsWith(r, "/")
    ensures StartsWith(path, "/") ==> r == path
    ensures !StartsWith(path, "/") ==> r == "/" + path
  {
    if StartsWith(path, "/") then path else "/" + path
  }

  /** `getImageUrl`: null for a missing or empty path, absolute URLs as they
      are, anything else joined to the API base with one slash. */
  function ImageUrl(url: Option<string>, env: Option<string>): (r: Option<string>)
    ensures r.None? <==> !Truthy(url)
  {
    if !Truthy(url) then None
    else if StartsWith(url.value, "http") || StartsWith(url.value, "https") then url
    else Some(StripTrailingSlash(ApiBase(env)) + LeadingSlash(url.value))
  }

  /** The `https` test is subsumed by the `http` one. */
  lemma HttpsIsHttp(s: string)
    ensures StartsWith(s, "https") ==> StartsWith(s, "http")
  {
    if StartsWith(s, "https") {
      assert s[..4] == s[..5][..4];
    }
  }

  /** An absolute URL is returned unchanged. */
  lemma ImageUrlAbsolute(url: string, env: Option<string>)
    requires StartsWith(url, "http")
    ensures ImageUrl(Some(url), env) == Some(url)
  {
  }

  /** A relative path ends up after the base (without its trailing slash),
      with exactly one slash joining the two when the base does not end in
      a double slash. */
  lemma ImageUrlRelative(url: string, env: Option<string>)
    requires url != [] && !StartsWith(url, "http")
    ensures var base := StripTrailingSlash(ApiBase(env));
      && ImageUrl(Some(url), env) == Some(base + LeadingSlash(url))
      && StartsWith(ImageUrl(Some(url), env).value, base)
      && ImageUrl(Some(url), env).value[|base|] == '/'
      && (!StartsWith(url, "/") ==> ImageUrl(Some(url), env).value[|base| + 1..] == url)
      && (StartsWith(url, "/") ==> ImageUrl(Some(url), env).value[|base|..] == url)
  {
    HttpsIsHttp(url);
    var base := StripTrailingSlash(ApiBase(env));
    var r := base + LeadingSlash(url);
    assert r[..|base|] == base;
    assert LeadingSlash(url)[0] == '/';
  }

  /** Stripping one trailing slash keeps an `http` prefix. */
  lemma StripKeepsHttp(s: string)
    requires StartsWith(s, "http")
    ensures StartsWith(StripTrailingSlash(s), "http")
  {
    if |s| > 0 && s[|s| - 1] == '/' {
      assert s[3] == 'p';
      assert |s| > 4;
      assert s[..|s| - 1][..4] == s[..4];
    }
  }

  /** With an `http` base (the default is one), a produced URL is absolute,
      so resolving it again gives it back. */
  lemma ImageUrlIdempotent(url: Option<string>, env: Option<string>)
    requires StartsWith(ApiBase(env), "http")
    ensures ImageUrl(ImageUrl(url, env), env) == ImageUrl(url, env)
  {
    if Truthy(url) && !(StartsWith(url.value, "http") || StartsWith(url.value, "https")) {
      var base := StripTrailingSlash(ApiBase(env));
      StripKeepsHttp(ApiBase(env));
      var r := base + LeadingSlash(url.value);
      assert r[..4] == base[..4];
      assert StartsWith(r, "http");
    }
  }

  /** A template literal's rendering of an optional string: an unset value
      prints as `undefined`. */
  function Interpolate(s: Option<string>): (r: string)
    ensures s.Some? ==> r == s.value
    ensures s.None? ==> r == "undefined"
  {
    match s
    case Some(v) => v
    case None => "undefined"
  }

  /** `getAvatarUrl` of the user-list modal: no default base, no slash
      handling, so an unset API URL leaves the literal text `undefined` in
      front of the path. */
  function AvatarUrl(url: Option<string>, apiUrl: Option<string>): (r: Option<string>)
    ensures r.None? <==> !Truthy(url)
    ensures Truthy(url) && StartsWith(url.value, "http") ==> r == url
    ensures Truthy(url) && !StartsWith(url.value, "http") ==> r == Some(Interpolate(apiUrl) + url.value)
  {
    if !Truthy(url) then None
    else if StartsWith(url.value, "http") then url
    else Some(Interpolate(apiUrl) + url.value)
  }

  /** The two resolvers agree whenever the API URL is set, has no trailing
      slash and the path already starts with one. */
  lemma AvatarUrlAgreesWithImageUrl(url: Option<string>, apiUrl: string)
    requires apiUrl != [] && apiUrl[|apiUrl| - 1] != '/'
    requires Truthy(url) ==> StartsWith(url.value, "/") || StartsWith(url.value, "http")
    ensures AvatarUrl(url, Some(apiUrl)) == ImageUrl(url, Some(apiUrl))
  {
    if Truthy(url) {
      HttpsIsHttp(url.value);
    }
  }

  /** Without the environment variable the modal requests a broken URL,
      while `getImageUrl` falls back to the local server. */
  lemma AvatarUrlWithoutApiUrl(path: string)
    requires path != [] && !StartsWith(path, "http") && StartsWith(path, "/")
    ensures AvatarUrl(Some(path), None) == Some("undefined" + path)
    ensures ImageUrl(Some(path), None) == Some(DefaultApiUrl + path)
  {
    HttpsIsHttp(path);
  }
}
