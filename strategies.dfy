/** The four fetch strategies (sw.js:113-218), the fetch handler that dispatches to them
    (sw.js:82-110) and the product pre-caching triggered by a page message (sw.js:490-516).
    Each strategy is given as a function of the store before the request and the network
    outcome, and implemented as a method on the host's cache storage. Every write goes to
    the general cache `CacheName`; lookups search every cache. */
module Strategies {
  import opened Http
  import opened Config
  import opened Router
  import opened CacheStore
  import opened Text

  /** What a strategy produces: the response, the store afterwards, and whether the
      network was asked. */
  datatype Served = Served(response: Response, store: Store, fetched: bool)

  const StaticUnavailable: Response := Response(503, Some(TextPlain), "Offline content not available")
  const ContentUnavailable: Response := Response(503, Some(TextPlain), "Content not available offline")

  /** Stand-in for the markup of the built-in offline page; its content is not modelled. */
  const OfflineHtml: string := "<!DOCTYPE html><html><body>offline</body></html>"
  const OfflineDocument: Response := Response(503, Some(TextHtml), OfflineHtml)

  /** The fields of the JSON object the API strategy answers with when offline. */
  const ApiErrorText: string := "Network unavailable"
  const ApiErrorMessage: string := "Please check your internet connection and try again."

  /** `JSON.stringify({error, message, offline: true})` for strings without characters
      that need escaping. */
  function OfflineJson(error: string, message: string): (json: string) {
    "{\"error\":\"" + error + "\",\"message\":\"" + message + "\",\"offline\":true}"
  }

  const ApiUnavailable: Response :=
    Response(503, Some(ApplicationJson), OfflineJson(ApiErrorText, ApiErrorMessage))

  /** A network response is copied into the general cache when, and only when, its status
      is exactly 200. */
  function CacheIfOk(s: Store, key: Key, resp: Response): (r: Store)
    requires WellFormed(s)
    ensures WellFormed(r)
    ensures resp.status != 200 ==> r == s
    ensures r.caches.Keys == s.caches.Keys + if resp.status == 200 then {CacheName} else {}
    ensures forall n :: n in s.caches && n != CacheName ==> r.caches[n] == s.caches[n]
    ensures resp.status == 200 ==>
      && key in r.caches[CacheName] && r.caches[CacheName][key] == resp
      && r.caches[CacheName].Keys == Open(s, CacheName).caches[CacheName].Keys + {key}
      && forall k :: k in r.caches[CacheName] && k != key ==> r.caches[CacheName][k] == Open(s, CacheName).caches[CacheName][k]
    ensures resp.status == 200 && Lookup(s, key).None? ==> Lookup(r, key) == Some(resp)
  {
    if resp.status != 200 then s
    else if Lookup(s, key).None? then
      PutThenLookupFresh(s, CacheName, key, resp);
      Put(s, CacheName, key, resp)
    else Put(s, CacheName, key, resp)
  }

  /** STATIC: cache first, network on a miss, 503 text when both fail. */
  function CacheFirst(s: Store, key: Key, net: NetOutcome): (r: Served)
    requires WellFormed(s)
    ensures WellFormed(r.store)
    ensures r.fetched <==> Lookup(s, key).None?
    ensures r.store != s ==> r.fetched && net == Ok(r.response) && r.store == Put(s, CacheName, key, r.response)
  {
    match Lookup(s, key)
    case Some(hit) => Served(hit, s, false)
    case None =>
      match net
      case Fail => Served(StaticUnavailable, s, true)
      case Ok(resp) => Served(resp, CacheIfOk(s, key, resp), true)
  }

  /** OTHER: network first, then the cache, then 503 text. */
  function NetworkFirst(s: Store, key: Key, net: NetOutcome): (r: Served)
    requires WellFormed(s)
    ensures WellFormed(r.store) && r.fetched
    ensures r.store != s ==> net == Ok(r.response) && r.store == Put(s, CacheName, key, r.response)
  {
    match net
    case Ok(resp) => Served(resp, CacheIfOk(s, key, resp), true)
    case Fail =>
      match Lookup(s, key)
      case Some(hit) => Served(hit, s, true)
      case None => Served(ContentUnavailable, s, true)
  }

  /** HTML: network first, then the cached page, then the cached offline page, then a
      503 HTML document built on the spot. */
  function NetworkFirstOffline(s: Store, key: Key, net: NetOutcome): (r: Served)
    requires WellFormed(s)
    ensures WellFormed(r.store) && r.fetched
    ensures r.store != s ==> net == Ok(r.response) && r.store == Put(s, CacheName, key, r.response)
  {
    match net
    case Ok(resp) => Served(resp, CacheIfOk(s, key, resp), true)
    case Fail =>
      match Lookup(s, key)
      case Some(hit) => Served(hit, s, true)
      case None =>
        match Lookup(s, OfflinePage)
        case Some(page) => Served(page, s, true)
        case None => Served(OfflineDocument, s, true)
  }

  /** API: network first with no write, then the cache, then a 503 JSON error. */
  function NetworkFirstApi(s: Store, key: Key, net: NetOutcome): (r: Served)
    requires WellFormed(s)
    ensures r.store == s && r.fetched
  {
    match net
    case Ok(resp) => Served(resp, s, true)
    case Fail =>
      match Lookup(s, key)
      case Some(hit) => Served(hit, s, true)
      case None => Served(ApiUnavailable, s, true)
  }

  /** The strategy each route selects. */
  function Respond(route: Route, s: Store, key: Key, net: NetOutcome): (r: Served)
    requires WellFormed(s) && route != PassThrough
    ensures WellFormed(r.store)
  {
    match route
    case Api => NetworkFirstApi(s, key, net)
    case Static => CacheFirst(s, key, net)
    case Html => NetworkFirstOffline(s, key, net)
    case Other => NetworkFirst(s, key, net)
  }

  // ---------------------------------------------------------------------------
  // Properties of the strategies

  /** Whenever the network answered, its response goes back to the page unchanged,
      whatever its status. */
  lemma NetworkResponseVerbatim(route: Route, s: Store, key: Key, resp: Response)
    requires WellFormed(s) && route != PassThrough
    ensures var r := Respond(route, s, key, Ok(resp));
      r.fetched ==> r.response == resp
  {
  }

  /** Writes happen only for a 200 network response, only under the request's key and
      only into the general cache; the API strategy never writes. */
  lemma OnlyOkResponsesAreStored(route: Route, s: Store, key: Key, net: NetOutcome)
    requires WellFormed(s) && route != PassThrough
    ensures var r := Respond(route, s, key, net);
      r.store == s
      || (route != Api && net.Ok? && net.response.status == 200
          && r.response == net.response && r.store == Put(s, CacheName, key, net.response))
  {
  }

  /** Conversely, a 200 network response is always stored by the caching strategies
      (by the STATIC one when it had to ask the network). */
  lemma OkResponsesAreStored(route: Route, s: Store, key: Key, resp: Response)
    requires WellFormed(s)
    requires route in {Html, Other} || (route == Static && Lookup(s, key).None?)
    requires resp.status == 200
    ensures Respond(route, s, key, Ok(resp)) == Served(resp, Put(s, CacheName, key, resp), true)
  {
  }

  /** A STATIC hit is served from the cache without asking the network, and nothing changes. */
  lemma StaticHitSkipsNetwork(s: Store, key: Key, net: NetOutcome, hit: Response)
    requires WellFormed(s) && Lookup(s, key) == Some(hit)
    ensures Respond(Static, s, key, net) == Served(hit, s, false)
  {
  }

  /** What each route answers when the network fails: the fallback chains. */
  lemma OfflineFallbacks(s: Store, key: Key)
    requires WellFormed(s)
    ensures Respond(Static, s, key, Fail).response
         == (match Lookup(s, key) case Some(hit) => hit case None => StaticUnavailable)
    ensures Respond(Other, s, key, Fail).response
         == (match Lookup(s, key) case Some(hit) => hit case None => ContentUnavailable)
    ensures Respond(Html, s, key, Fail).response
         == (match Lookup(s, key)
             case Some(hit) => hit
             case None => match Lookup(s, OfflinePage) case Some(page) => page case None => OfflineDocument)
    ensures Respond(Api, s, key, Fail).response
         == (match Lookup(s, key) case Some(hit) => hit case None => ApiUnavailable)
    ensures forall route :: route != PassThrough ==> Respond(route, s, key, Fail).store == s
  {
  }

  /** The synthesized answers: status 503, each with its own content type; the API one is
      the JSON object {error: "Network unavailable", message: <non-empty>, offline: true}. */
  lemma SyntheticResponses()
    ensures StaticUnavailable.status == ContentUnavailable.status == OfflineDocument.status == ApiUnavailable.status == 503
    ensures OfflineDocument.contentType == Some(TextHtml)
    ensures ApiUnavailable.contentType == Some(ApplicationJson)
    ensures ApiUnavailable.body == OfflineJson(ApiErrorText, ApiErrorMessage)
    ensures ApiErrorText == "Network unavailable" && |ApiErrorMessage| > 0
  {
  }

  /** A page fetched with status 200 into a store that had no copy is then served offline
      by every strategy, and by the STATIC one without asking the network. */
  lemma StoredResponseServedOffline(route: Route, s: Store, key: Key, resp: Response, later: Route, net: NetOutcome)
    requires WellFormed(s) && route in {Static, Html, Other} && later != PassThrough
    requires Lookup(s, key).None? && resp.status == 200
    ensures var s' := Respond(route, s, key, Ok(resp)).store;
      && Respond(later, s', key, Fail).response == resp
      && (later == Static ==> Respond(later, s', key, net) == Served(resp, s', false))
  {
    PutThenLookupFresh(s, CacheName, key, resp);
  }

  /** The cache created first wins every lookup. After install the static cache precedes
      the general one, so a fresh 200 copy of an installed page, written to the general
      cache, is not what the HTML strategy serves offline: the install-time copy is. */
  lemma InstalledCopyShadowsFreshCopy(key: Key, installed: Response, renewed: Response)
    requires renewed.status == 200
    ensures var s := Store([StaticCacheName], map[StaticCacheName := map[key := installed]]);
      var s' := Respond(Html, s, key, Ok(renewed)).store;
      && Lookup(s', key) == Some(installed)
      && Respond(Html, s', key, Fail).response == installed
  {
    var s := Store([StaticCacheName], map[StaticCacheName := map[key := installed]]);
    CacheNamesDiffer();
    assert Respond(Html, s, key, Ok(renewed)).store == Put(s, CacheName, key, renewed);
    PutThenLookup(s, CacheName, key, renewed);
    assert Before(s.names, CacheName) == [StaticCacheName];
  }

  // ---------------------------------------------------------------------------
  // The strategies on the host's cache storage

  method CacheFirstWithNetworkFallback(storage: CacheStorage, key: Key, net: NetOutcome)
      returns (resp: Response, fetched: bool)
    requires storage.Valid()
    modifies storage
    ensures storage.Valid()
    ensures Served(resp, storage.View(), fetched) == CacheFirst(old(storage.View()), key, net)
  {
    var cached := storage.Match(key);
    if cached.Some? {
      return cached.value, false;
    }
    fetched := true;
    match net
    case Fail =>
      resp := StaticUnavailable;
    case Ok(r) =>
      if r.status == 200 {
        storage.PutEntry(CacheName, key, r);
      }
      resp := r;
  }

  method NetworkFirstWithCacheFallback(storage: CacheStorage, key: Key, net: NetOutcome)
      returns (resp: Response, fetched: bool)
    requires storage.Valid()
    modifies storage
    ensures storage.Valid()
    ensures Served(resp, storage.View(), fetched) == NetworkFirst(old(storage.View()), key, net)
  {
    fetched := true;
    match net
    case Ok(r) =>
      if r.status == 200 {
        storage.PutEntry(CacheName, key, r);
      }
      resp := r;
    case Fail =>
      var cached := storage.Match(key);
      if cached.Some? {
        return cached.value, true;
      }
      resp := ContentUnavailable;
  }

  method NetworkFirstWithOfflineFallback(storage: CacheStorage, key: Key, net: NetOutcome)
      returns (resp: Response, fetched: bool)
    requires storage.Valid()
    modifies storage
    ensures storage.Valid()
    ensures Served(resp, storage.View(), fetched) == NetworkFirstOffline(old(storage.View()), key, net)
  {
    fetched := true;
    match net
    case Ok(r) =>
      if r.status == 200 {
        storage.PutEntry(CacheName, key, r);
      }
      resp := r;
    case Fail =>
      var cached := storage.Match(key);
      if cached.Some? {
        return cached.value, true;
      }
      var offlinePage := storage.Match(OfflinePage);
      if offlinePage.Some? {
        return offlinePage.value, true;
      }
      resp := OfflineDocument;
  }

  method NetworkFirstWithFallback(storage: CacheStorage, key: Key, net: NetOutcome)
      returns (resp: Response, fetched: bool)
    requires storage.Valid()
    ensures Served(resp, storage.View(), fetched) == NetworkFirstApi(storage.View(), key, net)
  {
    fetched := true;
    match net
    case Ok(r) =>
      resp := r;
    case Fail =>
      var cached := storage.Match(key);
      if cached.Some? {
        return cached.value, true;
      }
      resp := ApiUnavailable;
  }

  /** The fetch handler: declines (None) or answers with the strategy of the request's route. */
  method HandleFetch(storage: CacheStorage, req: Request, net: NetOutcome)
      returns (reply: Option<Response>, fetched: bool)
    requires storage.Valid()
    modifies storage
    ensures storage.Valid()
    ensures Classify(req) == PassThrough ==>
      reply == None && !fetched && storage.View() == old(storage.View())
    ensures Classify(req) != PassThrough ==>
      var r := Respond(Classify(req), old(storage.View()), req.url, net);
      reply == Some(r.response) && fetched == r.fetched && storage.View() == r.store
  {
    if req.verb != "GET" {
      return None, false;
    }
    if !StartsWith(req.protocol, "http") {
      return None, false;
    }
    var resp;
    if IsApiPath(req.pathname) {
      resp, fetched := NetworkFirstWithFallback(storage, req.url, net);
    } else if IsStaticAsset(req.pathname) {
      resp, fetched := CacheFirstWithNetworkFallback(storage, req.url, net);
    } else if IsHtmlRequest(req.accept) {
      resp, fetched := NetworkFirstWithOfflineFallback(storage, req.url, net);
    } else {
      resp, fetched := NetworkFirstWithCacheFallback(storage, req.url, net);
    }
    reply := Some(resp);
  }

  // ---------------------------------------------------------------------------
  // Product pre-caching and page messages

  function ProductUrl(productId: string): (url: Key) {
    "/products/" + productId + ".html"
  }

  /** Opens the general cache first (so it exists even when the fetch fails), then stores
      the product page if it came back with status 200. */
  method CacheProduct(storage: CacheStorage, productId: string, net: NetOutcome)
    requires storage.Valid()
    modifies storage
    ensures storage.Valid()
    ensures storage.View() ==
      if net.Ok? && net.response.status == 200
      then Put(old(storage.View()), CacheName, ProductUrl(productId), net.response)
      else Open(old(storage.View()), CacheName)
  {
    storage.OpenCache(CacheName);
    var productUrl := ProductUrl(productId);
    match net
    case Fail =>
    case Ok(r) =>
      if r.status == 200 {
        storage.PutEntry(CacheName, productUrl, r);
      }
  }

  /** The data of a page message: its `type` and, for "CACHE_PRODUCT", the product id. */
  datatype Message = Message(kind: string, productId: string)

  /** The message handler: "SKIP_WAITING" asks the host to activate the waiting worker
      (reported, not performed), "CACHE_PRODUCT" pre-caches a product page. `data` is
      `None` when the message carries no (or a falsy) payload. */
  method OnMessage(storage: CacheStorage, data: Option<Message>, net: NetOutcome)
      returns (skipWaiting: bool)
    requires storage.Valid()
    modifies storage
    ensures storage.Valid()
    ensures skipWaiting <==> data.Some? && data.value.kind == "SKIP_WAITING"
    ensures storage.View() ==
      if data.Some? && data.value.kind == "CACHE_PRODUCT"
      then (if net.Ok? && net.response.status == 200
            then Put(old(storage.View()), CacheName, ProductUrl(data.value.productId), net.response)
            else Open(old(storage.View()), CacheName))
      else old(storage.View())
  {
    skipWaiting := data.Some? && data.value.kind == "SKIP_WAITING";
    if data.Some? && data.value.kind == "CACHE_PRODUCT" {
      CacheProduct(storage, data.value.productId, net);
    }
  }

  /** A stylesheet fetched once with an empty store is served again, with the same body,
      when the network is down, and without asking the network. */
  method GlobalCssScenario() returns (first: Option<Response>, second: Option<Response>, refetched: bool)
    ensures first == Some(Response(200, Some("text/css"), "body{}"))
    ensures second == first && !refetched
  {
    var storage := new CacheStorage();
    var req := Request("GET", "/css/global.css", "https:", "/css/global.css", None);
    assert OccursAt(req.pathname, ".css", 11);
    ContainsAt(req.pathname, ".css", 11);
    assert ".css" in StaticExtensions;
    assert req.pathname[..5][1] == 'c';
    var fetched;
    first, fetched := HandleFetch(storage, req, Ok(Response(200, Some("text/css"), "body{}")));
    second, refetched := HandleFetch(storage, req, Fail);
  }
}
