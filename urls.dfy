/**
 * The URL builders `generateProductSitemapUrl` and
 * `generateSitemapCategoryUrl`, with the URL suffix already resolved (the
 * resolution and its cache live in the job class).
 */
module Urls {
  import opened Catalog

  predicate StartsWith(s: string, lead: string) {
    |lead| <= |s| && s[..|lead|] == lead
  }

  predicate EndsWith(s: string, suffix: string) {
    |suffix| <= |s| && s[|s| - |suffix|..] == suffix
  }

  /** The product prefix: `p/` unless short catalog URLs are enabled. */
  function ProductPrefix(config: Configuration): (p: string)
    ensures p == "" <==> config.shortCatalogUrlsEnabled
    ensures !config.shortCatalogUrlsEnabled ==> p == "p/"
  {
    if !config.shortCatalogUrlsEnabled then "p/" else ""
  }

  /** The category prefix: `c/` unless short catalog URLs are enabled. */
  function CategoryPrefix(config: Configuration): (p: string)
    ensures p == "" <==> config.shortCatalogUrlsEnabled
    ensures !config.shortCatalogUrlsEnabled ==> p == "c/"
  {
    if !config.shortCatalogUrlsEnabled then "c/" else ""
  }

  /** A product's URL: `/`, the prefix, `sku/` unless SKUs are excluded, the URL key, the suffix. */
  function ProductUrl(config: Configuration, product: Product, suffix: string): (url: string)
    ensures |url| > 0 && url[0] == '/'
    ensures StartsWith(url, "/" + ProductPrefix(config))
    ensures EndsWith(url, suffix)
  {
    var prefix := ProductPrefix(config);
    var path := if !config.excludeProductSkusEnabled
      then "/" + prefix + product.sku + "/" + product.urlKey
      else "/" + prefix + product.urlKey;
    path + suffix
  }

  /**
   * A category's URL: `/`, the prefix, the URL path or the URL key, `-id` when
   * the id suffix is enabled, the suffix.
   */
  function CategoryUrl(config: Configuration, category: Category, suffix: string): (url: string)
    ensures |url| > 0 && url[0] == '/'
    ensures StartsWith(url, "/" + CategoryPrefix(config))
    ensures EndsWith(url, suffix)
    ensures config.categoryIdSuffixEnabled ==> EndsWith(url[..|url| - |suffix|], "-" + category.id)
  {
    var prefix := CategoryPrefix(config);
    var path := if config.vueStorefrontCategoryUrlPath
      then "/" + prefix + category.urlPath
      else "/" + prefix + category.urlKey;
    var withId := if config.categoryIdSuffixEnabled then path + "-" + category.id else path;
    withId + suffix
  }

  /** Decoding: the text between a known lead and a known suffix, if `url` has both. */
  function StripAround(url: string, lead: string, suffix: string): (mid: Option<string>)
    ensures mid.Some? <==> |lead| + |suffix| <= |url| && StartsWith(url, lead) && EndsWith(url, suffix)
    ensures mid.Some? ==> url == lead + mid.value + suffix
  {
    if |lead| + |suffix| <= |url| && StartsWith(url, lead) && EndsWith(url, suffix)
    then
      var mid := url[|lead|..|url| - |suffix|];
      assert url == url[..|lead|] + mid + url[|url| - |suffix|..];
      Some(mid)
    else None
  }

  /** Stripping `/`, the prefix and the suffix off a product URL gives back `sku/urlKey`, or `urlKey` when SKUs are excluded. */
  lemma ProductUrlDecodes(config: Configuration, product: Product, suffix: string)
    ensures StripAround(ProductUrl(config, product, suffix), "/" + ProductPrefix(config), suffix)
      == Some(if config.excludeProductSkusEnabled then product.urlKey else product.sku + "/" + product.urlKey)
  {
    var lead := "/" + ProductPrefix(config);
    var url := ProductUrl(config, product, suffix);
    var mid := if config.excludeProductSkusEnabled then product.urlKey else product.sku + "/" + product.urlKey;
    assert url == lead + mid + suffix;
    assert url[|lead|..|url| - |suffix|] == mid;
  }

  /**
   * Stripping `/`, the prefix and the suffix off a category URL gives back the
   * URL path (or key), followed by `-id` exactly when the id suffix is enabled.
   */
  lemma CategoryUrlDecodes(config: Configuration, category: Category, suffix: string)
    ensures StripAround(CategoryUrl(config, category, suffix), "/" + CategoryPrefix(config), suffix)
      == Some((if config.vueStorefrontCategoryUrlPath then category.urlPath else category.urlKey)
              + (if config.categoryIdSuffixEnabled then "-" + category.id else ""))
  {
    var lead := "/" + CategoryPrefix(config);
    var url := CategoryUrl(config, category, suffix);
    var mid := (if config.vueStorefrontCategoryUrlPath then category.urlPath else category.urlKey)
               + (if config.categoryIdSuffixEnabled then "-" + category.id else "");
    assert url == lead + mid + suffix;
    assert url[|lead|..|url| - |suffix|] == mid;
  }

  /** The four product URL shapes, one per combination of the two switches. */
  lemma ProductUrlShapes(config: Configuration, product: Product, suffix: string)
    ensures !config.shortCatalogUrlsEnabled && !config.excludeProductSkusEnabled ==>
      ProductUrl(config, product, suffix) == "/p/" + product.sku + "/" + product.urlKey + suffix
    ensures !config.shortCatalogUrlsEnabled && config.excludeProductSkusEnabled ==>
      ProductUrl(config, product, suffix) == "/p/" + product.urlKey + suffix
    ensures config.shortCatalogUrlsEnabled && !config.excludeProductSkusEnabled ==>
      ProductUrl(config, product, suffix) == "/" + product.sku + "/" + product.urlKey + suffix
    ensures config.shortCatalogUrlsEnabled && config.excludeProductSkusEnabled ==>
      ProductUrl(config, product, suffix) == "/" + product.urlKey + suffix
  {
  }

  /** With the URL path and the id suffix both on, a category URL is `/{prefix}{urlPath}-{id}{suffix}`. */
  lemma CategoryUrlPathWithId(config: Configuration, category: Category, suffix: string)
    requires config.vueStorefrontCategoryUrlPath && config.categoryIdSuffixEnabled
    ensures CategoryUrl(config, category, suffix)
      == "/" + CategoryPrefix(config) + category.urlPath + "-" + category.id + suffix
  {
  }

  /** Without the id suffix, a category URL never depends on the category id. */
  lemma CategoryUrlIgnoresIdWhenOff(config: Configuration, c1: Category, c2: Category, suffix: string)
    requires !config.categoryIdSuffixEnabled
    requires c1.urlKey == c2.urlKey && c1.urlPath == c2.urlPath
    ensures CategoryUrl(config, c1, suffix) == CategoryUrl(config, c2, suffix)
  {
  }

  /**
   * While SKUs are part of product URLs, two products whose SKUs differ (and
   * contain no '/') never share a URL, whatever their URL keys.
   */
  lemma ProductUrlsSeparateSkus(config: Configuration, p1: Product, p2: Product, suffix: string)
    requires !config.excludeProductSkusEnabled
    requires '/' !in p1.sku && '/' !in p2.sku && p1.sku != p2.sku
    ensures ProductUrl(config, p1, suffix) != ProductUrl(config, p2, suffix)
  {
    var lead := "/" + ProductPrefix(config);
    var u1 := ProductUrl(config, p1, suffix);
    var u2 := ProductUrl(config, p2, suffix);
    assert u1 == lead + p1.sku + ("/" + p1.urlKey + suffix);
    assert u2 == lead + p2.sku + ("/" + p2.urlKey + suffix);
    if |p1.sku| < |p2.sku| {
      var k := |lead| + |p1.sku|;
      assert u1[k] == '/';
      assert u2[k] == p2.sku[|p1.sku|];
      assert p2.sku[|p1.sku|] in p2.sku;
    } else if |p2.sku| < |p1.sku| {
      var k := |lead| + |p2.sku|;
      assert u2[k] == '/';
      assert u1[k] == p1.sku[|p2.sku|];
      assert p1.sku[|p2.sku|] in p1.sku;
    } else {
      var i :| 0 <= i < |p1.sku| && p1.sku[i] != p2.sku[i];
      assert u1[|lead| + i] == p1.sku[i];
      assert u2[|lead| + i] == p2.sku[i];
    }
  }

  /** The worked product example: `/p/ABC/shoe.html`. */
  lemma ProductUrlExample()
    ensures ProductUrl(Configuration("", "", false, false, false, false), Product("ABC", "shoe", ""), ".html")
      == "/p/ABC/shoe.html"
  {
  }

  /** The worked category example: `/c/shoes-7`. */
  lemma CategoryUrlExample()
    ensures CategoryUrl(Configuration("", "", false, false, false, true), Category("7", "shoes", "", ""), "")
      == "/c/shoes-7"
  {
  }
}
