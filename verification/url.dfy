/** Request URL resolution, shared by the three generations of `Token`:
    a path is either a HAL resource (followed through its self link) or a
    string resolved against the environment's API root. */
module Url {
  import opened Text

  /** `PathLike`: an object exposing `_links.self.href`, or a string. */
  datatype PathLike = Resource(selfHref: string) | Path(text: string)

  /** Length of a leading `http://` or `https://`, 0 when there is none. */
  function SchemeLength(s: string): (n: nat)
    ensures n == 0 || n == 7 || n == 8
    ensures n <= |s|
  {
    if StartsWith(s, "https://") then 8 else if StartsWith(s, "http://") then 7 else 0
  }

  /** `s.replace(/^https?:\/\/[^/]*\//, "")`: drops a leading scheme, the
      host and the slash after it; leaves `s` alone when there is no such
      prefix. */
  function StripSchemeHost(s: string): (r: string)
    ensures SchemeLength(s) == 0 ==> r == s
    ensures |r| <= |s| && s[|s| - |r|..] == r
  {
    var n := SchemeLength(s);
    if n == 0 then s
    else
      var j := IndexOfFrom(s, "/", n);
      if j == -1 then s else s[j + 1..]
  }

  /** The regular expression removes exactly `scheme + host + "/"` when the
      host holds no slash. */
  lemma StripSchemeHostRebases(scheme: string, host: string, rest: string)
    requires scheme == "http://" || scheme == "https://"
    requires '/' !in host
    ensures StripSchemeHost(scheme + host + "/" + rest) == rest
  {
    var s := scheme + host + "/" + rest;
    var n := |scheme|;
    assert s[..n] == scheme;
    if scheme == "http://" {
      assert s[4] == ':';
      assert !StartsWith(s, "https://");
    }
    assert SchemeLength(s) == n;
    var k := n + |host|;
    assert s[k..][..1] == "/";
    forall j | n <= j < k
      ensures !StartsWith(s[j..], "/")
    {
      assert s[j] == host[j - n];
      assert s[j..][..1] == [s[j]];
    }
    var j := IndexOfFrom(s, "/", n);
    assert j == k;
    assert s[k + 1..] == rest;
  }

  /** `getUrl`'s path rules, in the order the legacy and intermediate code
      test them (`startsWith`). */
  function ResolvePath(apiUrl: string, p: PathLike): (url: string)
    ensures p.Resource? ==> url == p.selfHref
    ensures p.Path? ==> StartsWith(url, apiUrl)
  {
    match p
    case Resource(href) => href
    case Path(s) =>
      if StartsWith(s, apiUrl) then s
      else if StartsWith(s, "/") then apiUrl + s
      else apiUrl + "/" + StripSchemeHost(s)
  }

  /** The same rules as the current code tests them (`indexOf(...) === 0`). */
  function ResolvePathByIndexOf(apiUrl: string, p: PathLike): string {
    match p
    case Resource(href) => href
    case Path(s) =>
      if IndexOf(s, apiUrl) == 0 then s
      else if IndexOf(s, "/") == 0 then apiUrl + s
      else apiUrl + "/" + StripSchemeHost(s)
  }

  /** The three generations resolve every path to the same URL. */
  lemma ResolversAgree(apiUrl: string, p: PathLike)
    ensures ResolvePathByIndexOf(apiUrl, p) == ResolvePath(apiUrl, p)
  {
    if p.Path? {
      IndexOfZeroIffStartsWith(p.text, apiUrl);
      IndexOfZeroIffStartsWith(p.text, "/");
    }
  }

  /** A string already under the API root is used unchanged, the first rule checked. */
  lemma ResolveUnderApiRoot(apiUrl: string, s: string)
    requires StartsWith(s, apiUrl)
    ensures ResolvePath(apiUrl, Path(s)) == s
  {
  }

  /** A leading slash is appended to the API root with no extra separator. */
  lemma ResolveLeadingSlash(apiUrl: string, s: string)
    requires !StartsWith(s, apiUrl) && StartsWith(s, "/")
    ensures ResolvePath(apiUrl, Path(s)) == apiUrl + s
  {
  }

  /** A URL on another host is rebased onto the API root. */
  lemma ResolveOtherHost(apiUrl: string, scheme: string, host: string, rest: string)
    requires scheme == "http://" || scheme == "https://"
    requires '/' !in host
    requires !StartsWith(scheme + host + "/" + rest, apiUrl)
    ensures ResolvePath(apiUrl, Path(scheme + host + "/" + rest)) == apiUrl + "/" + rest
  {
    var s := scheme + host + "/" + rest;
    assert s[..1] == "h";
    StripSchemeHostRebases(scheme, host, rest);
  }

  /** A bare relative path is joined to the API root with one slash. */
  lemma ResolveRelative(apiUrl: string, s: string)
    requires !StartsWith(s, apiUrl) && !StartsWith(s, "/") && SchemeLength(s) == 0
    ensures ResolvePath(apiUrl, Path(s)) == apiUrl + "/" + s
  {
  }

  /** `query ? [url, query].join("?") : url`. */
  function WithQuery(url: string, encodedQuery: string): (r: string)
    ensures encodedQuery == "" ==> r == url
    ensures encodedQuery != "" ==> r == url + "?" + encodedQuery
  {
    if encodedQuery == "" then url else url + "?" + encodedQuery
  }

  /** A resolved URL without `?` stays separable from its query: the first
      `?` of the request URL exists exactly when a query was added, and the
      text on either side of it is the URL and the encoded query. */
  lemma QuerySeparable(url: string, encodedQuery: string)
    requires '?' !in url
    ensures var r := WithQuery(url, encodedQuery);
      (encodedQuery == "" <==> IndexOf(r, "?") == -1)
      && (encodedQuery != "" ==> IndexOf(r, "?") == |url| && r[..|url|] == url && r[|url| + 1..] == encodedQuery)
  {
    var r := WithQuery(url, encodedQuery);
    forall j | 0 <= j < |url|
      ensures !StartsWith(r[j..], "?")
    {
      assert r[j..][..1] == [url[j]];
    }
    if encodedQuery != "" {
      assert r[|url|..][..1] == "?";
      assert r[..|url|] == url;
      assert r[|url| + 1..] == encodedQuery;
    }
  }
}
