/**
 * The cron job `GenerateSitemap`: it holds the two lazily cached URL
 * suffixes and the sitemap it fills, and `Execute` runs one generation.
 * The collaborators (configuration, scoped lookup, the pub directory and
 * the active catalog collections) are fixed when the job is built.
 */
module Cron {
  import opened Catalog
  import opened Suffixes
  import Urls
  import Entries
  import Domain
  import opened SitemapSink

  class GenerateSitemap {
    const configuration: Configuration
    const scopeConfig: ScopeConfig
    const pubDirectory: string
    const activeCategories: seq<Category>
    const activeProducts: seq<Product>

    var productUrlSuffix: Option<string>
    var categoryUrlSuffix: Option<string>
    var sitemap: Sitemap?

    constructor (configuration: Configuration, scopeConfig: ScopeConfig, pubDirectory: string,
                 activeCategories: seq<Category>, activeProducts: seq<Product>)
      ensures this.configuration == configuration && this.scopeConfig == scopeConfig
      ensures this.pubDirectory == pubDirectory
      ensures this.activeCategories == activeCategories && this.activeProducts == activeProducts
      ensures productUrlSuffix == None && categoryUrlSuffix == None && sitemap == null
    {
      this.configuration := configuration;
      this.scopeConfig := scopeConfig;
      this.pubDirectory := pubDirectory;
      this.activeCategories := activeCategories;
      this.activeProducts := activeProducts;
      productUrlSuffix, categoryUrlSuffix, sitemap := None, None, null;
    }

    /** The product suffix the next getter call will return: the truthy cache, else the resolved lookup. */
    function ProductSuffix(): (s: string)
      reads this
      ensures IsTruthy(productUrlSuffix) ==> s == productUrlSuffix.value
      ensures !IsTruthy(productUrlSuffix) ==> s == ResolveSuffix(scopeConfig(ProductUrlSuffixPath))
    {
      SuffixReturned(productUrlSuffix, scopeConfig(ProductUrlSuffixPath))
    }

    /** The category suffix the next getter call will return: the truthy cache, else the resolved lookup. */
    function CategorySuffix(): (s: string)
      reads this
      ensures IsTruthy(categoryUrlSuffix) ==> s == categoryUrlSuffix.value
      ensures !IsTruthy(categoryUrlSuffix) ==> s == ResolveSuffix(scopeConfig(CategoryUrlSuffixPath))
    {
      SuffixReturned(categoryUrlSuffix, scopeConfig(CategoryUrlSuffixPath))
    }

    /** The output directory: the pub path followed by the configured folder. */
    function PubPath(): (p: string)
      ensures Urls.StartsWith(p, pubDirectory) && Urls.EndsWith(p, configuration.vueStorefrontSitemapFolder)
      ensures |p| == |pubDirectory| + |configuration.vueStorefrontSitemapFolder|
    {
      pubDirectory + configuration.vueStorefrontSitemapFolder
    }

    method GetProductUrlSuffix() returns (suffix: string)
      modifies this`productUrlSuffix
      ensures suffix == old(ProductSuffix())
      ensures productUrlSuffix == CacheAfter(old(productUrlSuffix), scopeConfig(ProductUrlSuffixPath))
      ensures ProductSuffix() == suffix
    {
      if !IsTruthy(productUrlSuffix) {
        var urlSuffix := scopeConfig(ProductUrlSuffixPath);
        productUrlSuffix := Some(if IsTruthy(urlSuffix) then urlSuffix.value else "");
      }
      suffix := productUrlSuffix.value;
      SuffixGetterIdempotent(old(productUrlSuffix), scopeConfig(ProductUrlSuffixPath));
    }

    method GetCategoryUrlSuffix() returns (suffix: string)
      modifies this`categoryUrlSuffix
      ensures suffix == old(CategorySuffix())
      ensures categoryUrlSuffix == CacheAfter(old(categoryUrlSuffix), scopeConfig(CategoryUrlSuffixPath))
      ensures CategorySuffix() == suffix
    {
      if !IsTruthy(categoryUrlSuffix) {
        var urlSuffix := scopeConfig(CategoryUrlSuffixPath);
        categoryUrlSuffix := Some(if IsTruthy(urlSuffix) then urlSuffix.value else "");
      }
      suffix := categoryUrlSuffix.value;
      SuffixGetterIdempotent(old(categoryUrlSuffix), scopeConfig(CategoryUrlSuffixPath));
    }

    method GenerateProductSitemapUrl(product: Product) returns (url: string)
      modifies this`productUrlSuffix
      ensures url == Urls.ProductUrl(configuration, product, old(ProductSuffix()))
      ensures productUrlSuffix == CacheAfter(old(productUrlSuffix), scopeConfig(ProductUrlSuffixPath))
      ensures ProductSuffix() == old(ProductSuffix())
    {
      var suffix := GetProductUrlSuffix();
      url := Urls.ProductUrl(configuration, product, suffix);
    }

    method GenerateSitemapCategoryUrl(category: Category) returns (url: string)
      modifies this`categoryUrlSuffix
      ensures url == Urls.CategoryUrl(configuration, category, old(CategorySuffix()))
      ensures categoryUrlSuffix == CacheAfter(old(categoryUrlSuffix), scopeConfig(CategoryUrlSuffixPath))
      ensures CategorySuffix() == old(CategorySuffix())
    {
      var suffix := GetCategoryUrlSuffix();
      url := Urls.CategoryUrl(configuration, category, suffix);
    }

    method AddHomepageToSitemap()
      requires sitemap != null
      modifies sitemap`entries
      ensures sitemap.entries == old(sitemap.entries) + [Entries.HomepageEntry()]
    {
      sitemap.AddItem("/", None, None, None);
    }

    method AddCategoriesToSitemap()
      requires sitemap != null
      modifies this`categoryUrlSuffix, sitemap`entries
      ensures sitemap.entries
        == old(sitemap.entries) + Entries.CategoryEntries(configuration, old(CategorySuffix()), activeCategories)
      ensures CategorySuffix() == old(CategorySuffix())
    {
      ghost var suffix := CategorySuffix();
      if |activeCategories| >= 1 {
        for i := 0 to |activeCategories|
          invariant CategorySuffix() == suffix
          invariant sitemap.entries
            == old(sitemap.entries) + Entries.CategoryEntries(configuration, suffix, activeCategories[..i])
        {
          var category := activeCategories[i];
          ghost var done := sitemap.entries;
          var categoryUrl := GenerateSitemapCategoryUrl(category);
          assert categoryUrl == Urls.CategoryUrl(configuration, category, suffix);
          sitemap.AddItem(categoryUrl, Some(ItemPriority), Some(Daily), Some(category.updatedAt));
          assert sitemap.entries == done + [Entries.CategoryEntry(configuration, suffix, category)];
          Entries.CategoryEntriesSnoc(configuration, suffix, activeCategories, i);
        }
      }
      assert activeCategories[..|activeCategories|] == activeCategories;
    }

    method AddProductsToSitemap()
      requires sitemap != null
      modifies this`productUrlSuffix, sitemap`entries
      ensures sitemap.entries
        == old(sitemap.entries) + Entries.ProductEntries(configuration, old(ProductSuffix()), activeProducts)
      ensures ProductSuffix() == old(ProductSuffix())
    {
      ghost var suffix := ProductSuffix();
      if |activeProducts| >= 1 {
        for i := 0 to |activeProducts|
          invariant ProductSuffix() == suffix
          invariant sitemap.entries
            == old(sitemap.entries) + Entries.ProductEntries(configuration, suffix, activeProducts[..i])
        {
          var product := activeProducts[i];
          ghost var done := sitemap.entries;
          var productUrl := GenerateProductSitemapUrl(product);
          assert productUrl == Urls.ProductUrl(configuration, product, suffix);
          sitemap.AddItem(productUrl, Some(ItemPriority), Some(Daily), Some(product.updatedAt));
          assert sitemap.entries == done + [Entries.ProductEntry(configuration, suffix, product)];
          Entries.ProductEntriesSnoc(configuration, suffix, activeProducts, i);
        }
      }
      assert activeProducts[..|activeProducts|] == activeProducts;
    }

    /**
     * One generation: a fresh sitemap for the trimmed storefront domain, at the
     * pub path, named `sitemap`, holding the homepage, the categories and the
     * products, whose index is then requested for the same domain.
     */
    method Execute()
      modifies this
      ensures sitemap != null && fresh(sitemap)
      ensures sitemap.domain == Domain.StorefrontDomain(configuration)
      ensures sitemap.path == Some(PubPath()) && sitemap.filename == Some(SitemapFilename)
      ensures sitemap.entries == Entries.SitemapEntries(configuration, old(CategorySuffix()), old(ProductSuffix()),
                                                        activeCategories, activeProducts)
      ensures sitemap.index == Some(IndexRequest(Domain.StorefrontDomain(configuration), IndexLastMod, sitemap.entries))
      ensures CategorySuffix() == old(CategorySuffix()) && ProductSuffix() == old(ProductSuffix())
    {
      var domain := Domain.TrimTrailingSlashes(configuration.vueStorefrontUrl);
      var path := PubPath();

      sitemap := new Sitemap(domain);
      sitemap.SetPath(path);
      sitemap.SetFilename(SitemapFilename);

      ghost var categorySuffix, productSuffix := CategorySuffix(), ProductSuffix();
      AddHomepageToSitemap();
      assert sitemap.entries == [Entries.HomepageEntry()];
      AddCategoriesToSitemap();
      ghost var categoryEntries := Entries.CategoryEntries(configuration, categorySuffix, activeCategories);
      assert sitemap.entries == [Entries.HomepageEntry()] + categoryEntries;
      AddProductsToSitemap();
      ghost var productEntries := Entries.ProductEntries(configuration, productSuffix, activeProducts);
      assert sitemap.entries == [Entries.HomepageEntry()] + categoryEntries + productEntries;

      sitemap.CreateSitemapIndex(domain, IndexLastMod);
    }
  }
}
