/**
 * The entry list one run of the job hands to the sitemap writer: the
 * homepage, then every category, then every product, each collection in its
 * own iteration order.
 */
module Entries {
  import opened Catalog
  import Urls

  /** The homepage entry carries only its location. */
  function HomepageEntry(): (e: Entry)
    ensures e.loc == "/" && e.priority.None? && e.changeFreq.None? && e.lastMod.None?
  {
    Entry("/", None, None, None)
  }

  /** The entry `addItem` receives for one category. */
  function CategoryEntry(config: Configuration, suffix: string, category: Category): (e: Entry)
    ensures |e.loc| > 0 && e.loc[0] == '/' && Urls.EndsWith(e.loc, suffix)
    ensures e.priority == Some(1.0) && e.changeFreq == Some("daily") && e.lastMod == Some(category.updatedAt)
  {
    Entry(Urls.CategoryUrl(config, category, suffix), Some(ItemPriority), Some(Daily), Some(category.updatedAt))
  }

  /** The entry `addItem` receives for one product. */
  function ProductEntry(config: Configuration, suffix: string, product: Product): (e: Entry)
    ensures |e.loc| > 0 && e.loc[0] == '/' && Urls.EndsWith(e.loc, suffix)
    ensures e.priority == Some(1.0) && e.changeFreq == Some("daily") && e.lastMod == Some(product.updatedAt)
  {
    Entry(Urls.ProductUrl(config, product, suffix), Some(ItemPriority), Some(Daily), Some(product.updatedAt))
  }

  /** The category entries, one per category, in collection order. */
  function CategoryEntries(config: Configuration, suffix: string, categories: seq<Category>): (es: seq<Entry>)
    ensures |es| == |categories|
    ensures forall i :: 0 <= i < |categories| ==> es[i] == CategoryEntry(config, suffix, categories[i])
  {
    if categories == [] then []
    else
      var n := |categories| - 1;
      CategoryEntries(config, suffix, categories[..n]) + [CategoryEntry(config, suffix, categories[n])]
  }

  /** The product entries, one per product, in collection order. */
  function ProductEntries(config: Configuration, suffix: string, products: seq<Product>): (es: seq<Entry>)
    ensures |es| == |products|
    ensures forall i :: 0 <= i < |products| ==> es[i] == ProductEntry(config, suffix, products[i])
  {
    if products == [] then []
    else
      var n := |products| - 1;
      ProductEntries(config, suffix, products[..n]) + [ProductEntry(config, suffix, products[n])]
  }

  /** Everything one run adds: homepage, categories, products. */
  function SitemapEntries(config: Configuration, categorySuffix: string, productSuffix: string,
                          categories: seq<Category>, products: seq<Product>): (es: seq<Entry>)
    ensures |es| == 1 + |categories| + |products|
    ensures es[0] == HomepageEntry()
    ensures forall i :: 0 <= i < |categories| ==> es[1 + i] == CategoryEntry(config, categorySuffix, categories[i])
    ensures forall j :: 0 <= j < |products| ==>
      es[1 + |categories| + j] == ProductEntry(config, productSuffix, products[j])
  {
    [HomepageEntry()] + CategoryEntries(config, categorySuffix, categories) + ProductEntries(config, productSuffix, products)
  }

  /** One more category appended to the collection adds its entry at the end. */
  lemma CategoryEntriesSnoc(config: Configuration, suffix: string, categories: seq<Category>, i: nat)
    requires i < |categories|
    ensures CategoryEntries(config, suffix, categories[..i + 1])
      == CategoryEntries(config, suffix, categories[..i]) + [CategoryEntry(config, suffix, categories[i])]
  {
    assert categories[..i + 1][..i] == categories[..i];
  }

  /** One more product appended to the collection adds its entry at the end. */
  lemma ProductEntriesSnoc(config: Configuration, suffix: string, products: seq<Product>, i: nat)
    requires i < |products|
    ensures ProductEntries(config, suffix, products[..i + 1])
      == ProductEntries(config, suffix, products[..i]) + [ProductEntry(config, suffix, products[i])]
  {
    assert products[..i + 1][..i] == products[..i];
  }

  /** Entries of a concatenation are the concatenation of entries: nothing is reordered or merged. */
  lemma {:induction false} CategoryEntriesAppend(config: Configuration, suffix: string, c1: seq<Category>, c2: seq<Category>)
    ensures CategoryEntries(config, suffix, c1 + c2)
      == CategoryEntries(config, suffix, c1) + CategoryEntries(config, suffix, c2)
    decreases |c2|
  {
    if c2 == [] {
      assert c1 + c2 == c1;
    } else {
      var n := |c2| - 1;
      assert (c1 + c2)[..|c1 + c2| - 1] == c1 + c2[..n];
      CategoryEntriesAppend(config, suffix, c1, c2[..n]);
    }
  }

  /** Entries of a concatenation are the concatenation of entries: nothing is reordered or merged. */
  lemma {:induction false} ProductEntriesAppend(config: Configuration, suffix: string, p1: seq<Product>, p2: seq<Product>)
    ensures ProductEntries(config, suffix, p1 + p2)
      == ProductEntries(config, suffix, p1) + ProductEntries(config, suffix, p2)
    decreases |p2|
  {
    if p2 == [] {
      assert p1 + p2 == p1;
    } else {
      var n := |p2| - 1;
      assert (p1 + p2)[..|p1 + p2| - 1] == p1 + p2[..n];
      ProductEntriesAppend(config, suffix, p1, p2[..n]);
    }
  }

  /** With no categories and no products the sitemap holds the homepage alone. */
  lemma EmptyCatalogOnlyHomepage(config: Configuration, categorySuffix: string, productSuffix: string)
    ensures SitemapEntries(config, categorySuffix, productSuffix, [], []) == [HomepageEntry()]
  {
  }

  /**
   * Every entry's location starts with '/'; every entry after the homepage has
   * priority 1.0 and change frequency daily, and its location ends with the
   * suffix of its kind.
   */
  lemma SitemapEntriesWellFormed(config: Configuration, categorySuffix: string, productSuffix: string,
                                 categories: seq<Category>, products: seq<Product>)
    ensures var es := SitemapEntries(config, categorySuffix, productSuffix, categories, products);
      forall k :: 0 <= k < |es| ==> |es[k].loc| > 0 && es[k].loc[0] == '/'
    ensures var es := SitemapEntries(config, categorySuffix, productSuffix, categories, products);
      forall k :: 1 <= k < |es| ==> es[k].priority == Some(1.0) && es[k].changeFreq == Some("daily")
    ensures var es := SitemapEntries(config, categorySuffix, productSuffix, categories, products);
      forall k :: 1 <= k < 1 + |categories| ==> Urls.EndsWith(es[k].loc, categorySuffix)
    ensures var es := SitemapEntries(config, categorySuffix, productSuffix, categories, products);
      forall k :: 1 + |categories| <= k < |es| ==> Urls.EndsWith(es[k].loc, productSuffix)
  {
    var es := SitemapEntries(config, categorySuffix, productSuffix, categories, products);
    forall k | 1 <= k < |es|
      ensures |es[k].loc| > 0 && es[k].loc[0] == '/'
      ensures es[k].priority == Some(1.0) && es[k].changeFreq == Some("daily")
      ensures k < 1 + |categories| ==> Urls.EndsWith(es[k].loc, categorySuffix)
      ensures 1 + |categories| <= k ==> Urls.EndsWith(es[k].loc, productSuffix)
    {
      if k < 1 + |categories| {
        assert es[1 + (k - 1)] == CategoryEntry(config, categorySuffix, categories[k - 1]);
      } else {
        assert es[1 + |categories| + (k - 1 - |categories|)] == ProductEntry(config, productSuffix, products[k - 1 - |categories|]);
      }
    }
  }
}
