/** The worker's fixed configuration: cache generation names, install manifest, offline
    page identity, background-sync tags and their endpoints. */
module Config {

  /** The general (runtime) cache of the current generation. */
  const CacheName: string := "science-capital-sa-v1.0.0"
  /** The static-asset cache of the current generation, filled at install. */
  const StaticCacheName: string := "science-capital-static-v1.0.0"
  /** The two cache names activation keeps. */
  const CurrentCaches: set<string> := {CacheName, StaticCacheName}

  /** The two current cache names differ (first at index 17). */
  lemma CacheNamesDiffer()
    ensures CacheName != StaticCacheName
  {
    assert CacheName[17] == 'a' && StaticCacheName[17] == 't';
  }

  /** Install manifest, in source order; the two CDN entries are not pre-cached. */
  const StaticAssets: seq<string> := [
    "/",
    "/index.html",
    "/products.html",
    "/curriculum.html",
    "/institutional.html",
    "/resources.html",
    "/cart.html",
    "/checkout.html",
    "/css/global.css",
    "/css/fontawesome.css",
    "/manifest.json",
    "https://cdn.tailwindcss.com",
    "https://fonts.googleapis.com/css2" + "?family=Inter:wght@" + "300;400;500;600;700;800" + "&display=swap",
    "/offline.html"
  ]

  /** Key of the offline page the HTML strategy falls back on. */
  const OfflinePage: string := "/offline.html"

  const CartSyncTag: string := "background-sync-cart"
  const QuoteSyncTag: string := "background-sync-quotes"
  const CartEndpoint: string := "/api/cart/sync"
  const QuoteEndpoint: string := "/api/quotes/submit"
}
