/**
 * The values the sitemap cron job reads: the store configuration, the
 * catalog items it enumerates and the entries it hands to the sitemap writer.
 */
module Catalog {

  datatype Option<+T> = None | Some(value: T)

  /** A product as the job reads it; a missing attribute is the empty string. */
  datatype Product = Product(sku: string, urlKey: string, updatedAt: string)

  /** A category as the job reads it; `id` is concatenated as text. */
  datatype Category = Category(id: string, urlKey: string, urlPath: string, updatedAt: string)

  /** The module's own configuration switches and option strings. */
  datatype Configuration = Configuration(
    vueStorefrontUrl: string,
    vueStorefrontSitemapFolder: string,
    shortCatalogUrlsEnabled: bool,
    excludeProductSkusEnabled: bool,
    vueStorefrontCategoryUrlPath: bool,
    categoryIdSuffixEnabled: bool)

  /**
   * One `addItem` call as the sitemap writer receives it. The homepage passes
   * only its location; catalog items pass priority, change frequency and
   * last-modified. The priority is the exact tag 1.0, not a float.
   */
  datatype Entry = Entry(loc: string, priority: Option<real>, changeFreq: Option<string>, lastMod: Option<string>)

  /** The request `createSitemapIndex` receives, with the entries it will write. */
  datatype IndexRequest = IndexRequest(domain: string, lastMod: string, entries: seq<Entry>)

  /** Scoped configuration: a stable lookup from a configuration path to a value. */
  type ScopeConfig = string -> Option<string>

  const ProductUrlSuffixPath := "catalog/seo/product_url_suffix"
  const CategoryUrlSuffixPath := "catalog/seo/category_url_suffix"
  const SitemapFilename := "sitemap"
  const IndexLastMod := "Today"
  const Daily := "daily"
  const ItemPriority: real := 1.0
}
