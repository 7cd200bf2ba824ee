/**
 * The sitemap route (src/app/sitemap.ts): the home page and the collections index,
 * then one entry per collection, then one entry per product (the first 100). The
 * environment variable and the clock are parameters: `new Date()` is the marker Now.
 */
module Sitemap {
  import opened Wrappers
  import opened ShopifyTypes
  import Text
  import Shopify

  const DefaultSiteUrl := "https://ecom-shopify-carbonspark.vercel.app"

  /** `process.env.NEXT_PUBLIC_SITE_URL || default`. */
  function SiteUrl(env: Option<string>): (r: string)
    ensures r == DefaultSiteUrl <==> env.None? || env.value == "" || env.value == DefaultSiteUrl
    ensures r != DefaultSiteUrl ==> env == Some(r)
  {
    Text.OrElse(env, DefaultSiteUrl)
  }

  /** The two catalogue reads the route makes. */
  const Reads: seq<Shopify.Operation> := [Shopify.GetProductsOp(100), Shopify.GetCollectionsOp]

  /** Both reads go through the fetch helper's cache, tagged by catalogue. */
  lemma ReadsAreCachedCatalogueReads()
    ensures forall k :: 0 <= k < |Reads| ==> Shopify.RequestFor(Reads[k]).cache == Shopify.ForceCache
    ensures Shopify.RequestFor(Reads[0]).tags == Some(["products"])
    ensures Shopify.RequestFor(Reads[1]).tags == Some(["collections"])
  {
  }

  datatype LastModified = Stamp(text: string) | Now
  datatype Frequency = Daily | Weekly

  /** A sitemap entry; the priority is kept in tenths (1 is 10, 0.8 is 8). */
  datatype Entry = Entry(url: string, lastModified: LastModified, changeFrequency: Frequency, priorityTenths: nat)

  /** `updatedAt ? new Date(updatedAt) : new Date()`. */
  function Modified(updatedAt: string): (r: LastModified)
    ensures r.Now? <==> updatedAt == ""
    ensures r.Stamp? ==> r.text == updatedAt
  {
    if updatedAt != "" then Stamp(updatedAt) else Now
  }

  function ProductUrl(site: string, handle: string): string { site + "/products/" + handle }
  function CollectionUrl(site: string, handle: string): string { site + "/collections/" + handle }
  function CollectionsIndexUrl(site: string): string { site + "/collections" }

  function ProductEntry(site: string, product: Product): Entry
  {
    Entry(ProductUrl(site, product.handle), Modified(product.updatedAt), Weekly, 8)
  }

  function CollectionEntry(site: string, collection: Collection): Entry
  {
    Entry(CollectionUrl(site, collection.handle), Modified(collection.updatedAt), Weekly, 7)
  }

  function ProductEntries(site: string, products: seq<Product>): (r: seq<Entry>)
    ensures |r| == |products|
    ensures forall i :: 0 <= i < |products| ==> r[i] == ProductEntry(site, products[i])
  {
    if products == [] then [] else [ProductEntry(site, products[0])] + ProductEntries(site, products[1..])
  }

  function CollectionEntries(site: string, collections: seq<Collection>): (r: seq<Entry>)
    ensures |r| == |collections|
    ensures forall i :: 0 <= i < |collections| ==> r[i] == CollectionEntry(site, collections[i])
  {
    if collections == [] then [] else [CollectionEntry(site, collections[0])] + CollectionEntries(site, collections[1..])
  }

  /** The sitemap, given the environment and the two catalogue reads' results. */
  function Build(env: Option<string>, products: seq<Product>, collections: seq<Collection>): (r: seq<Entry>)
    ensures |r| == 2 + |collections| + |products|
    ensures r[0] == Entry(SiteUrl(env), Now, Daily, 10)
    ensures r[1] == Entry(CollectionsIndexUrl(SiteUrl(env)), Now, Daily, 9)
    ensures forall i :: 0 <= i < |collections| ==> r[2 + i] == CollectionEntry(SiteUrl(env), collections[i])
    ensures forall j :: 0 <= j < |products| ==> r[2 + |collections| + j] == ProductEntry(SiteUrl(env), products[j])
  {
    var site := SiteUrl(env);
    [Entry(site, Now, Daily, 10), Entry(CollectionsIndexUrl(site), Now, Daily, 9)]
      + CollectionEntries(site, collections) + ProductEntries(site, products)
  }

  /** The character just after the site prefix tells product pages from collection pages. */
  lemma ProductIsNotCollection(site: string, h1: string, h2: string)
    ensures ProductUrl(site, h1) != CollectionUrl(site, h2)
    ensures ProductUrl(site, h1) != CollectionsIndexUrl(site)
  {
    assert ProductUrl(site, h1)[|site| + 1] == 'p';
    assert CollectionUrl(site, h2)[|site| + 1] == 'c';
    assert CollectionsIndexUrl(site)[|site| + 1] == 'c';
  }

  lemma ProductUrlInjective(site: string, h1: string, h2: string)
    requires ProductUrl(site, h1) == ProductUrl(site, h2)
    ensures h1 == h2
  {
    assert ProductUrl(site, h1)[|site| + 10..] == h1;
    assert ProductUrl(site, h2)[|site| + 10..] == h2;
  }

  lemma CollectionUrlInjective(site: string, h1: string, h2: string)
    requires CollectionUrl(site, h1) == CollectionUrl(site, h2)
    ensures h1 == h2
  {
    assert CollectionUrl(site, h1)[|site| + 13..] == h1;
    assert CollectionUrl(site, h2)[|site| + 13..] == h2;
  }

  predicate DistinctProductHandles(products: seq<Product>)
  {
    forall i, j :: 0 <= i < j < |products| ==> products[i].handle != products[j].handle
  }

  predicate DistinctCollectionHandles(collections: seq<Collection>)
  {
    forall i, j :: 0 <= i < j < |collections| ==> collections[i].handle != collections[j].handle
  }

  /** With distinct handles (as the platform guarantees per resource type), no URL is listed twice. */
  lemma UrlsAreDistinct(env: Option<string>, products: seq<Product>, collections: seq<Collection>)
    requires DistinctProductHandles(products) && DistinctCollectionHandles(collections)
    ensures var r := Build(env, products, collections);
      forall i, j :: 0 <= i < j < |r| ==> r[i].url != r[j].url
  {
    var r := Build(env, products, collections);
    var site := SiteUrl(env);
    var c := |collections|;
    forall i, j | 0 <= i < j < |r|
      ensures r[i].url != r[j].url
    {
      if i == 0 {
        // the home page is a proper prefix of every other URL
        assert |r[i].url| == |site| < |r[j].url|;
      } else if i == 1 {
        if j < 2 + c {
          assert |r[i].url| == |site| + 12 < |r[j].url|;
        } else {
          ProductIsNotCollection(site, products[j - 2 - c].handle, "");
        }
      } else if j < 2 + c {
        if r[i].url == r[j].url {
          CollectionUrlInjective(site, collections[i - 2].handle, collections[j - 2].handle);
        }
      } else if i < 2 + c {
        ProductIsNotCollection(site, products[j - 2 - c].handle, collections[i - 2].handle);
      } else {
        if r[i].url == r[j].url {
          ProductUrlInjective(site, products[i - 2 - c].handle, products[j - 2 - c].handle);
        }
      }
    }
  }
}
