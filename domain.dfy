/**
 * The storefront domain handed to the sitemap writer: the configured
 * storefront URL with every trailing '/' removed, as PHP's
 * `rtrim($url, '/')` does.
 */
module Domain {
  import opened Catalog
  import Urls

  predicate EndsInSlash(s: string) {
    Urls.EndsWith(s, "/")
  }

  predicate AllSlashes(s: string) {
    forall i :: 0 <= i < |s| ==> s[i] == '/'
  }

  /** `rtrim(s, '/')`: drop the trailing run of slashes, keep everything before it. */
  function TrimTrailingSlashes(s: string): (r: string)
    ensures r <= s
    ensures !EndsInSlash(r)
    ensures AllSlashes(s[|r|..])
    decreases |s|
  {
    if EndsInSlash(s) then TrimTrailingSlashes(s[..|s| - 1]) else s
  }

  /**
   * The trimmed string is the ONLY split of `s` into a part that does not end
   * in '/' followed by nothing but slashes.
   */
  lemma {:induction false} TrimTrailingSlashesUnique(t: string, u: string)
    requires !EndsInSlash(t) && AllSlashes(u)
    ensures TrimTrailingSlashes(t + u) == t
    decreases |u|
  {
    if u == [] {
      assert t + u == t;
    } else {
      var w := u[..|u| - 1];
      assert (t + u)[..|t + u| - 1] == t + w;
      TrimTrailingSlashesUnique(t, w);
    }
  }

  /** Trimming twice is trimming once. */
  lemma TrimTrailingSlashesIdempotent(s: string)
    ensures TrimTrailingSlashes(TrimTrailingSlashes(s)) == TrimTrailingSlashes(s)
  {
    var r := TrimTrailingSlashes(s);
    assert r + [] == r;
    TrimTrailingSlashesUnique(r, []);
  }

  /** The domain the job passes to the sitemap writer and to its index. */
  function StorefrontDomain(config: Configuration): (d: string)
    ensures !EndsInSlash(d)
    ensures d <= config.vueStorefrontUrl && AllSlashes(config.vueStorefrontUrl[|d|..])
  {
    TrimTrailingSlashes(config.vueStorefrontUrl)
  }

  /**
   * When a root-relative location that starts with '/' is appended to the
   * domain, the domain itself adds no '/' at the seam: the character before
   * the location is not a slash. A corollary of `StorefrontDomain`'s
   * `!EndsInSlash(d)`, stated at the seam.
   */
  lemma SingleSlashAtSeam(config: Configuration, loc: string)
    requires |loc| > 0 && loc[0] == '/'
    ensures var d := StorefrontDomain(config);
      (d + loc)[|d|] == '/' && (|d| == 0 || (d + loc)[|d| - 1] != '/')
  {
  }
}
