# Vue Storefront XML sitemap cron job — Dafny model

This project models the cron job `GenerateSitemap` of the Magento 2 module that
writes an XML sitemap for a Vue Storefront shop. One run of the job:

- trims every trailing `/` off the configured storefront URL to get the domain;
- creates the sitemap writer for that domain, at the pub directory plus the
  configured folder, with file name `sitemap`;
- adds the homepage `/`, then every active category, then every active
  product, each catalog item with priority 1.0, change frequency `daily` and
  its `updatedAt`;
- asks the writer for the sitemap index with the domain and `Today`.

Product and category URLs are built from the configuration switches (short
catalog URLs, SKUs excluded, category URL path, category id suffix) and a URL
suffix. The suffix is read from the store-scoped configuration and cached in
a field of the job.

Modules:

- `Catalog` (catalog.dfy): configuration, products, categories, sitemap entries, constants.
- `Domain` (domain.dfy): `rtrim($url, '/')` and the storefront domain.
- `Suffixes` (suffixes.dfy): PHP truthiness of a configuration value and one step of the suffix cache.
- `Urls` (urls.dfy): the product and category URL builders with the suffix resolved, and a decoder that strips lead and suffix.
- `Entries` (entries.dfy): the entry list one run produces.
- `SitemapSink` (sitemap_sink.dfy): the third-party sitemap writer as a sink that records the domain, path, file name, the entries in order, and the index request.
- `Cron` (cron.dfy): the class `GenerateSitemap` with its two cache fields and its `sitemap` field. Its methods follow the PHP ones. `Execute` is proved to leave exactly `Entries.SitemapEntries(...)` in the sitemap.

Two details of the code that the model keeps:

- A suffix that resolves to `''` leaves the cache falsy (line 144), so every
  later call reads the configuration again. `CacheAfter` stores `Some("")` and
  the getter re-reads the lookup. The lookup is a fixed function, so the result
  is the same each time; see `Suffixes.SuffixGetterIdempotent`.
- The class constant `SITEMAP_NAME` (`sitemap.xml`) is never used. The writer
  gets the file name `sitemap` (line 104).

## Model

| member | source | states |
|---|---|---|
| `Domain.TrimTrailingSlashes` | Cron/GenerateSitemap.php:95 | the result is a prefix of the input, does not end in `/`, and everything it drops is `/` |
| `Domain.TrimTrailingSlashesUnique` | Cron/GenerateSitemap.php:95 | for any split `t + u` where `t` does not end in `/` and `u` is all slashes, trimming gives exactly `t` |
| `Domain.TrimTrailingSlashesIdempotent` | Cron/GenerateSitemap.php:95 | trimming an already trimmed string changes nothing |
| `Domain.StorefrontDomain` | Cron/GenerateSitemap.php:95 | the domain never ends in `/` and is the configured URL minus a run of trailing slashes |
| `Domain.SingleSlashAtSeam` | Cron/GenerateSitemap.php:95 | when a location starting with `/` is appended to the domain, the domain adds no `/` of its own at the join (a location that itself starts with `//` keeps both) |
| `Suffixes.ResolveSuffix` | Cron/GenerateSitemap.php:145-146 | the result is `''` exactly when the configured value is null, `''` or `'0'`; otherwise it is that value |
| `Suffixes.CacheAfter` | Cron/GenerateSitemap.php:144-147 | after a call the cache is set and holds `''` or a truthy string; a truthy cache is left as it was; a falsy one takes the resolved lookup value |
| `Suffixes.SuffixReturned` | Cron/GenerateSitemap.php:142-149 | a truthy cache is returned as is; otherwise the result is the resolved looked-up value, `''` exactly when that value is falsy |
| `Suffixes.CachedSuffixSticks` | Cron/GenerateSitemap.php:144-148 | once a non-empty suffix is cached, later calls return it and leave the field unchanged, whatever the lookup now returns |
| `Suffixes.SuffixGetterIdempotent` | Cron/GenerateSitemap.php:142-149 | with a stable lookup, a second call returns what the first returned and leaves the cache as the first left it |
| `Urls.ProductPrefix` | Cron/GenerateSitemap.php:211-214 | the product prefix is `p/`, or empty exactly when short catalog URLs are enabled |
| `Urls.CategoryPrefix` | Cron/GenerateSitemap.php:229-232 | the category prefix is `c/`, or empty exactly when short catalog URLs are enabled |
| `Urls.ProductUrl` | Cron/GenerateSitemap.php:209-221 | a product URL starts with `/` and the prefix, and ends with the product suffix |
| `Urls.CategoryUrl` | Cron/GenerateSitemap.php:227-243 | a category URL starts with `/` and the prefix, and ends with the category suffix; when the id suffix is on, `-id` sits immediately before that suffix |
| `Urls.ProductUrlDecodes` | Cron/GenerateSitemap.php:215-220 | stripping `/`, the prefix and the suffix gives back `sku/urlKey`, or `urlKey` when SKUs are excluded |
| `Urls.CategoryUrlDecodes` | Cron/GenerateSitemap.php:233-242 | stripping `/`, the prefix and the suffix gives back the URL path (or key), followed by `-id` exactly when the id suffix is on |
| `Urls.ProductUrlShapes` | Cron/GenerateSitemap.php:211-220 | each of the four switch combinations gives its literal shape, such as `/p/{sku}/{urlKey}{suffix}` or `/{urlKey}{suffix}` |
| `Urls.CategoryUrlPathWithId` | Cron/GenerateSitemap.php:229-242 | with URL path and id suffix both on, a category URL is `/{prefix}{urlPath}-{id}{suffix}` |
| `Urls.CategoryUrlIgnoresIdWhenOff` | Cron/GenerateSitemap.php:238-240 | with the id suffix off, two categories that differ only in id get the same URL |
| `Urls.ProductUrlsSeparateSkus` | Cron/GenerateSitemap.php:215-216 | while SKUs are in the URL, products with different SKUs that contain no `/` never share a URL |
| `Urls.ProductUrlExample` | Cron/GenerateSitemap.php:209-221 | long URLs, SKU included, suffix `.html`: product `ABC`/`shoe` gives `/p/ABC/shoe.html` |
| `Urls.CategoryUrlExample` | Cron/GenerateSitemap.php:227-243 | URL key, id suffix on, empty suffix: category 7 `shoes` gives `/c/shoes-7` |
| `Entries.HomepageEntry` | Cron/GenerateSitemap.php:198-203 | the homepage entry is `/` with no priority, change frequency or last-modified |
| `Entries.CategoryEntry` | Cron/GenerateSitemap.php:187-193 | a category's entry has a location starting with `/` and ending with the category suffix, priority 1.0, `daily` and the category's `updatedAt` |
| `Entries.ProductEntry` | Cron/GenerateSitemap.php:158-164 | a product's entry has a location starting with `/` and ending with the product suffix, priority 1.0, `daily` and the product's `updatedAt` |
| `Entries.CategoryEntries` | Cron/GenerateSitemap.php:181-196 | one entry per category, in collection order, each with the category URL, priority 1.0, `daily` and the category's `updatedAt` |
| `Entries.ProductEntries` | Cron/GenerateSitemap.php:151-167 | one entry per product, in collection order, each with the product URL, priority 1.0, `daily` and the product's `updatedAt` |
| `Entries.SitemapEntries` | Cron/GenerateSitemap.php:107-109 | a run yields `1 + categories + products` entries: the homepage first, then the categories, then the products, each in order |
| `Entries.CategoryEntriesSnoc` | Cron/GenerateSitemap.php:186-194 | one more loop iteration adds that category's entry at the end |
| `Entries.ProductEntriesSnoc` | Cron/GenerateSitemap.php:157-165 | one more loop iteration adds that product's entry at the end |
| `Entries.CategoryEntriesAppend` | Cron/GenerateSitemap.php:186-194 | the entries of a concatenated category collection are the concatenation of their entries |
| `Entries.ProductEntriesAppend` | Cron/GenerateSitemap.php:157-165 | the entries of a concatenated product collection are the concatenation of their entries |
| `Entries.EmptyCatalogOnlyHomepage` | Cron/GenerateSitemap.php:155 | with no categories and no products the list is exactly the homepage entry |
| `Entries.SitemapEntriesWellFormed` | Cron/GenerateSitemap.php:159-193 | every location starts with `/`; every entry after the homepage has priority 1.0 and `daily`, and its location ends with the suffix of its kind |
| `SitemapSink.Sitemap.constructor` | Cron/GenerateSitemap.php:102 | a new writer is bound to its domain and holds no entries, path, file name or index |
| `SitemapSink.Sitemap.SetPath` | Cron/GenerateSitemap.php:103 | records the output path |
| `SitemapSink.Sitemap.SetFilename` | Cron/GenerateSitemap.php:104 | records the file name |
| `SitemapSink.Sitemap.AddItem` | Cron/GenerateSitemap.php:159-164 | appends exactly one entry at the end and keeps the earlier ones |
| `SitemapSink.Sitemap.CreateSitemapIndex` | Cron/GenerateSitemap.php:112 | hands the domain, the index date and every accumulated entry, in order, to the writer |
| `Cron.GenerateSitemap.constructor` | Cron/GenerateSitemap.php:73-90 | the job keeps its collaborators and starts with both suffix caches null and no sitemap |
| `Cron.GenerateSitemap.ProductSuffix` | Cron/GenerateSitemap.php:142-149 | the product suffix the getter returns next: the cached value when truthy, else the resolved lookup |
| `Cron.GenerateSitemap.CategorySuffix` | Cron/GenerateSitemap.php:172-179 | the category suffix the getter returns next: the cached value when truthy, else the resolved lookup |
| `Cron.GenerateSitemap.PubPath` | Cron/GenerateSitemap.php:118-121 | the output path is exactly the pub directory followed by the configured sitemap folder, nothing between |
| `Cron.GenerateSitemap.GetProductUrlSuffix` | Cron/GenerateSitemap.php:142-149 | returns the cached product suffix when truthy, else resolves and caches the configured one; a second call would return the same |
| `Cron.GenerateSitemap.GetCategoryUrlSuffix` | Cron/GenerateSitemap.php:172-179 | returns the cached category suffix when truthy, else resolves and caches the configured one; a second call would return the same |
| `Cron.GenerateSitemap.GenerateProductSitemapUrl` | Cron/GenerateSitemap.php:209-221 | returns the product URL for the suffix the getter yields and keeps that suffix stable |
| `Cron.GenerateSitemap.GenerateSitemapCategoryUrl` | Cron/GenerateSitemap.php:227-243 | returns the category URL for the suffix the getter yields and keeps that suffix stable |
| `Cron.GenerateSitemap.AddHomepageToSitemap` | Cron/GenerateSitemap.php:198-203 | appends the homepage entry |
| `Cron.GenerateSitemap.AddCategoriesToSitemap` | Cron/GenerateSitemap.php:181-196 | appends the category entries in collection order; an empty collection appends nothing |
| `Cron.GenerateSitemap.AddProductsToSitemap` | Cron/GenerateSitemap.php:151-167 | appends the product entries in collection order; an empty collection appends nothing |
| `Cron.GenerateSitemap.Execute` | Cron/GenerateSitemap.php:92-113 | a fresh sitemap for the trimmed domain, at the pub path, named `sitemap`, holding exactly homepage + categories + products; its index is requested for the same domain and `Today` |

## Left out

- Joining the domain with each location happens inside the writer, so it is not modelled; `Domain.SingleSlashAtSeam` only states what the trimmed domain contributes.
- Writing XML, splitting files and the index file format are left out. They belong to the third-party `SitemapPHP\Sitemap` library, whose source is not part of this model. `SitemapSink.Sitemap` only records what it receives.
- The directory check and its creation with mode 0775 (line 99) are left out. They are filesystem I/O, and any failure of them would abort the run.
- The `FileSystemException` that `DirectoryList::getPath('pub')` can throw is left out. The pub directory is a constructor parameter.
- Magento dependency injection, the database-backed product and category collections, and store scoping are left out. They become constructor parameters: the configuration record, a fixed lookup function, and two sequences.
- Cron scheduling is left out.
- The priority `1.0` is the exact real `1.0`, not a PHP float. `updatedAt` and `'Today'` are opaque strings, not dates.
- Non-string configuration values are left out. The scoped lookup yields a string or null, and PHP truthiness is modelled only for those.
- Null product and category attributes are not modelled separately. They appear as the empty string, which is what PHP concatenation makes of null for `sku`, `urlKey`, `urlPath` and `id`.
- A null `updatedAt` is recorded as `Some("")`, not as an absent last-modified: lines 163 and 192 pass it to `addItem` as is, so the writer would receive null.
