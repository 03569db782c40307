# Offline cache policy of the Science Capital SA service worker, in Dafny

This project models the decision layer of the site's service worker (`sw.js`): how an
intercepted request is routed, how each of the four fetch strategies answers it from the
network or from the named caches, how install seeds the static cache and activate deletes
old cache generations, how a page message pre-caches a product page, and how background
sync would replay the queued offline cart and quote records if the queue store could be
read (see "Left out").

The host is abstracted:

- The network is an input. A strategy receives one outcome for its request: `Fail` when
  `fetch` rejects, or `Ok(response)` with any status. Install receives one outcome per URL.
  The drain receives `resolves(j)`, which says whether the `j`-th POST of the run resolved.
- The cache storage is `CacheStore.CacheStorage`, a class with two fields: the cache names
  in creation order and a map from each name to its entries. Its pure counterpart is the
  value `CacheStore.Store`. `caches.match` searches the caches in creation order and
  returns the first entry it finds for the key. Every write goes to the general cache
  `science-capital-sa-v1.0.0`. Install fills only `science-capital-static-v1.0.0`.
- The queued offline records are `Reconcile.OfflineQueues`: a map from kind (`cart`,
  `quotes`) to a list of records.

Each strategy is a pure function (`Strategies.CacheFirst`, `NetworkFirst`,
`NetworkFirstOffline`, `NetworkFirstApi`). Each also has a method on the cache storage,
named after the source function, whose postcondition equates the response, the new
store and "was the network asked" with that function. The properties are lemmas about
the functions. The install and activate handlers, the message handler and the sync
handler are methods. Their postconditions give the new state as a function of the old one.

Some behaviour follows from the code rather than from a plain reading of its intent:

- Extension matching is a substring test, so `/manifest.json` is a static asset through
  `.js` (`Router.JsonIsStatic`, `Router.ManifestIsStatic`).
- Install swallows a failed `addAll`. It does not abort. It only skips asking the host to
  skip waiting (`Lifecycle.Install`).
- The drain removes a record whenever its POST resolves, whatever the HTTP status. It
  removes every record that carries that id (`Reconcile.SyncOffline`,
  `Reconcile.DrainResult`).
- Lookups search caches in creation order, and install creates the static cache first.
  So a fresh 200 copy of an installed page goes into the general cache but never wins a
  lookup: offline, the install-time copy is served
  (`Strategies.InstalledCopyShadowsFreshCopy`, `CacheStore.PutThenLookup`).

## Model

| member | source | states |
|---|---|---|
| `Text.ContainsIff` | code_sandbox_light_42f26986_1758424353/sw.js:223 | `includes` holds exactly when the substring occurs at some index |
| `Text.ContainsAt` | code_sandbox_light_42f26986_1758424353/sw.js:223 | an occurrence at any index makes `includes` true |
| `Text.ContainsWitness` | code_sandbox_light_42f26986_1758424353/sw.js:223 | `includes` is true only at a real occurrence |
| `Text.ContainsPrefix` | code_sandbox_light_42f26986_1758424353/sw.js:222-223 | a string containing `sub` contains every prefix of `sub` (".json" gives ".js") |
| `Router.Classify` | code_sandbox_light_42f26986_1758424353/sw.js:86-109 | pass-through exactly for non-GET or non-"http" protocol; API exactly for intercepted "/api/" paths; STATIC exactly for intercepted non-API paths with a listed extension; HTML only with a text/html Accept and no extension |
| `Router.ApiPrecedence` | code_sandbox_light_42f26986_1758424353/sw.js:97-100 | the "/api/" prefix wins over every extension |
| `Router.ExtensionAnywhereIsStatic` | code_sandbox_light_42f26986_1758424353/sw.js:221-224 | a listed extension at any position of a non-API path routes to STATIC |
| `Router.JsonIsStatic` | code_sandbox_light_42f26986_1758424353/sw.js:221-224 | any non-API path containing ".json" is STATIC |
| `Router.ManifestIsStatic` | code_sandbox_light_42f26986_1758424353/sw.js:100-102 | GET "/manifest.json" is served cache-first |
| `Router.ApiScriptIsApi` | code_sandbox_light_42f26986_1758424353/sw.js:97-102 | "/api/app.js" passes the extension test yet routes to the API strategy |
| `Router.MissingAcceptIsOther` | code_sandbox_light_42f26986_1758424353/sw.js:226-229 | a missing Accept header behaves as the empty string: the request is OTHER |
| `Router.HtmlByAccept` | code_sandbox_light_42f26986_1758424353/sw.js:103-109 | below the API and static tests, HTML iff the Accept header contains "text/html", otherwise OTHER |
| `CacheStore.Before` | code_sandbox_light_42f26986_1758424353/sw.js:115 | the caches searched before a given one are the prefix of the names up to its first occurrence (all names when it is absent) |
| `CacheStore.LookupIn` | code_sandbox_light_42f26986_1758424353/sw.js:115 | `caches.match` finds an entry iff some cache holds the key, and returns the entry of the first cache, in creation order, that holds it |
| `CacheStore.Lookup` | code_sandbox_light_42f26986_1758424353/sw.js:150 | a lookup over the whole storage succeeds iff some named cache holds the key |
| `CacheStore.Open` | code_sandbox_light_42f26986_1758424353/sw.js:124 | `caches.open` adds the name, keeps every existing cache, and a new cache is empty |
| `CacheStore.Put` | code_sandbox_light_42f26986_1758424353/sw.js:124-125 | `put` stores the response under the key in the named cache and changes no other entry and no other cache |
| `CacheStore.PutAll` | code_sandbox_light_42f26986_1758424353/sw.js:46 | `addAll` stores every batch entry in the named cache, keeps that cache's other entries, and leaves other caches alone |
| `CacheStore.FilterOut` | code_sandbox_light_42f26986_1758424353/sw.js:66-71 | the remaining names are exactly those not deleted, still distinct |
| `CacheStore.Drop` | code_sandbox_light_42f26986_1758424353/sw.js:69 | deleting caches removes exactly those names and keeps the others' contents |
| `CacheStore.Retain` | code_sandbox_light_42f26986_1758424353/sw.js:63-72 | after cleanup the cache names are the old ones intersected with the kept set, contents unchanged |
| `CacheStore.FilterOutNothing` | code_sandbox_light_42f26986_1758424353/sw.js:67 | deleting no listed name changes nothing |
| `CacheStore.FilterOutAll` | code_sandbox_light_42f26986_1758424353/sw.js:67 | when every name is excluded, nothing remains |
| `CacheStore.FilterOutTwice` | code_sandbox_light_42f26986_1758424353/sw.js:66-71 | two filters in a row equal one filter by the union |
| `CacheStore.FilterOutAppend` | code_sandbox_light_42f26986_1758424353/sw.js:66-71 | filtering a list extended by one name extends the result by that name unless it is excluded |
| `CacheStore.DropTwice` | code_sandbox_light_42f26986_1758424353/sw.js:66-71 | deleting caches one after another equals deleting them together |
| `CacheStore.RetainIdempotent` | code_sandbox_light_42f26986_1758424353/sw.js:63-72 | a second cleanup with the same kept names changes nothing and finds nothing to delete |
| `CacheStore.LookupInAppendEmpty` | code_sandbox_light_42f26986_1758424353/sw.js:124 | appending an empty cache does not change what a search finds |
| `CacheStore.OpenKeepsLookup` | code_sandbox_light_42f26986_1758424353/sw.js:124 | opening a cache never changes what `match` returns |
| `CacheStore.LookupInAfterPut` | code_sandbox_light_42f26986_1758424353/sw.js:125 | after a put, the search returns an earlier cache's entry if one exists, else the new response |
| `CacheStore.PutThenLookup` | code_sandbox_light_42f26986_1758424353/sw.js:124-125 | `match` after `put` into a cache returns the entry of a cache created before it, if any holds the key, else the stored response |
| `CacheStore.BeforeAbsent` | code_sandbox_light_42f26986_1758424353/sw.js:124 | for a cache not yet created, every existing cache comes before it |
| `CacheStore.BeforeAppend` | code_sandbox_light_42f26986_1758424353/sw.js:124 | a newly created cache comes after all the old ones |
| `CacheStore.LookupInOther` | code_sandbox_light_42f26986_1758424353/sw.js:115 | the contents of an unsearched cache do not affect a search |
| `CacheStore.PutThenLookupFresh` | code_sandbox_light_42f26986_1758424353/sw.js:124-125 | round trip: with no prior copy anywhere, `match` returns exactly what was put |
| `CacheStore.PutIntoFirstCache` | code_sandbox_light_42f26986_1758424353/sw.js:124-125 | a put into the oldest cache is always what `match` returns next |
| `CacheStore.CacheStorage.Keys` | code_sandbox_light_42f26986_1758424353/sw.js:63 | `caches.keys()` lists exactly the existing caches |
| `CacheStore.CacheStorage.OpenCache` | code_sandbox_light_42f26986_1758424353/sw.js:43 | the in-place state after `open` is `Open` of the old state |
| `CacheStore.CacheStorage.PutEntry` | code_sandbox_light_42f26986_1758424353/sw.js:124-125 | the in-place state after open-then-put is `Put` of the old state |
| `CacheStore.CacheStorage.AddAll` | code_sandbox_light_42f26986_1758424353/sw.js:46 | the in-place state after `addAll` is `PutAll` of the old state |
| `CacheStore.CacheStorage.DeleteCache` | code_sandbox_light_42f26986_1758424353/sw.js:69 | `delete` removes that one cache and reports whether it existed |
| `Strategies.CacheIfOk` | code_sandbox_light_42f26986_1758424353/sw.js:123-126 | any status but 200 leaves the store unchanged; a 200 is stored under the key in the general cache, whose other entries and every other cache stay as they were, and is what a later lookup finds when no cache held the key |
| `Strategies.CacheFirst` | code_sandbox_light_42f26986_1758424353/sw.js:113-133 | the network is asked iff no cache holds the key; a change to the store is a put of the network response into the general cache |
| `Strategies.NetworkFirst` | code_sandbox_light_42f26986_1758424353/sw.js:136-157 | always asks the network; a change to the store is a put of the network response |
| `Strategies.NetworkFirstOffline` | code_sandbox_light_42f26986_1758424353/sw.js:160-192 | always asks the network; a change to the store is a put of the network response |
| `Strategies.NetworkFirstApi` | code_sandbox_light_42f26986_1758424353/sw.js:195-218 | always asks the network and never changes the store |
| `Strategies.Respond` | code_sandbox_light_42f26986_1758424353/sw.js:96-109 | every route's strategy keeps the store well formed |
| `Strategies.NetworkResponseVerbatim` | code_sandbox_light_42f26986_1758424353/sw.js:128 | whenever the network answered, its response is returned unchanged, any status |
| `Strategies.OnlyOkResponsesAreStored` | code_sandbox_light_42f26986_1758424353/sw.js:123-126 | the store changes only through a non-API strategy, for a status-200 network response, which is put under the request key in the general cache and returned |
| `Strategies.OkResponsesAreStored` | code_sandbox_light_42f26986_1758424353/sw.js:141-146 | the HTML and OTHER strategies (and STATIC on a miss) always store a status-200 response and return it |
| `Strategies.StaticHitSkipsNetwork` | code_sandbox_light_42f26986_1758424353/sw.js:115-118 | a STATIC cache hit is returned without a network call and without change |
| `Strategies.OfflineFallbacks` | code_sandbox_light_42f26986_1758424353/sw.js:147-155 | on network failure: STATIC and OTHER return the cached entry or their 503 text; HTML tries the entry, then "/offline.html", then the 503 HTML document; API tries the entry, then the 503 JSON; nothing is written |
| `Strategies.SyntheticResponses` | code_sandbox_light_42f26986_1758424353/sw.js:187-216 | the synthesized answers all have status 503; the HTML one is text/html; the API one is application/json with error "Network unavailable", a non-empty message and offline true |
| `Strategies.StoredResponseServedOffline` | code_sandbox_light_42f26986_1758424353/sw.js:120-128 | a 200 response fetched with no prior copy is then served offline by every strategy, and by STATIC without asking the network |
| `Strategies.InstalledCopyShadowsFreshCopy` | code_sandbox_light_42f26986_1758424353/sw.js:165-177 | with the static cache first, a fresh 200 HTML copy in the general cache is not served offline; the installed copy is |
| `Strategies.CacheFirstWithNetworkFallback` | code_sandbox_light_42f26986_1758424353/sw.js:113-133 | the response, new storage and network use equal `CacheFirst` of the old storage |
| `Strategies.NetworkFirstWithCacheFallback` | code_sandbox_light_42f26986_1758424353/sw.js:136-157 | the response, new storage and network use equal `NetworkFirst` of the old storage |
| `Strategies.NetworkFirstWithOfflineFallback` | code_sandbox_light_42f26986_1758424353/sw.js:160-192 | the response, new storage and network use equal `NetworkFirstOffline` of the old storage |
| `Strategies.NetworkFirstWithFallback` | code_sandbox_light_42f26986_1758424353/sw.js:195-218 | the response and network use equal `NetworkFirstApi`, and the storage is not modified |
| `Strategies.HandleFetch` | code_sandbox_light_42f26986_1758424353/sw.js:82-110 | pass-through requests get no answer, no network call and no cache change; the others get the strategy of their route |
| `Strategies.CacheProduct` | code_sandbox_light_42f26986_1758424353/sw.js:503-516 | the general cache is opened even on failure; "/products/<id>.html" is stored only on status 200 |
| `Strategies.OnMessage` | code_sandbox_light_42f26986_1758424353/sw.js:490-500 | skip-waiting is requested iff the message type is SKIP_WAITING; CACHE_PRODUCT pre-caches the product; anything else leaves the caches unchanged |
| `Strategies.GlobalCssScenario` | code_sandbox_light_42f26986_1758424353/sw.js:113-128 | GET /css/global.css fetched once with status 200 is served again offline, with the same body, without a fetch |
| `Lifecycle.SameOrigin` | code_sandbox_light_42f26986_1758424353/sw.js:46 | the pre-cache list is never longer than the manifest |
| `Lifecycle.SameOriginMembers` | code_sandbox_light_42f26986_1758424353/sw.js:46 | an entry is pre-cached iff it is in the manifest and does not start with "http" |
| `Lifecycle.Batch` | code_sandbox_light_42f26986_1758424353/sw.js:46 | `addAll` writes one entry per listed URL: the response fetched for it |
| `Lifecycle.SameOriginAppend` | code_sandbox_light_42f26986_1758424353/sw.js:46 | the install filter works piecewise on a concatenation (order kept) |
| `Lifecycle.SameOriginPaths` | code_sandbox_light_42f26986_1758424353/sw.js:46 | paths starting with "/" are all kept |
| `Lifecycle.SameOriginDropsCdn` | code_sandbox_light_42f26986_1758424353/sw.js:8-27 | a fourteen-entry list whose entries 11 and 12 start with "http" and whose others are paths is filtered down to all but those two |
| `Lifecycle.PrecacheList` | code_sandbox_light_42f26986_1758424353/sw.js:8-27 | the pre-cache list is the manifest without its two CDN URLs, ending with "/offline.html" |
| `Lifecycle.Install` | code_sandbox_light_42f26986_1758424353/sw.js:39-56 | opens the static cache; fills it with every pre-cache URL iff all fetch with an acceptable status, else with none; skip-waiting only on success |
| `Lifecycle.InstallAddsSameOriginEntries` | code_sandbox_light_42f26986_1758424353/sw.js:43-46 | a successful install adds to the static cache exactly the manifest entries not starting with "http"; other caches are unchanged |
| `Lifecycle.Activate` | code_sandbox_light_42f26986_1758424353/sw.js:59-79 | the new storage keeps only the two current names, in order and with their contents; `deleted` lists the other names in order |
| `Lifecycle.CleanedStep` | code_sandbox_light_42f26986_1758424353/sw.js:66-71 | one pass of the cleanup map deletes the visited name unless it is one of the two current names, and lists it as deleted exactly then |
| `Lifecycle.CleanedIsDrop` | code_sandbox_light_42f26986_1758424353/sw.js:63-72 | deleting the visited non-current names one at a time equals deleting all of them at once |
| `Lifecycle.CleanedAll` | code_sandbox_light_42f26986_1758424353/sw.js:63-72 | visiting every cache name deletes exactly the caches whose name is not current |
| `Lifecycle.ActivateTwice` | code_sandbox_light_42f26986_1758424353/sw.js:63-72 | after activation the names are the old ones intersected with the two current names; a second activation deletes nothing |
| `Reconcile.WithoutIds` | code_sandbox_light_42f26986_1758424353/sw.js:297-301 | the kept records are exactly those whose id is not removed |
| `Reconcile.WithoutNoIds` | code_sandbox_light_42f26986_1758424353/sw.js:299 | removing no id keeps the list as it is |
| `Reconcile.WithoutIdsTwice` | code_sandbox_light_42f26986_1758424353/sw.js:297-301 | successive removals equal one removal of the union |
| `Reconcile.WithoutIdsAppend` | code_sandbox_light_42f26986_1758424353/sw.js:299 | removal works piecewise on a concatenation, so the remaining records keep their order |
| `Reconcile.Resolved` | code_sandbox_light_42f26986_1758424353/sw.js:247-260 | the id of every record among the first n whose POST resolved is among the removed ids |
| `Reconcile.ResolvedMembers` | code_sandbox_light_42f26986_1758424353/sw.js:247-260 | an id is removed iff the POST of some snapshot record carrying it resolved |
| `Reconcile.Drained` | code_sandbox_light_42f26986_1758424353/sw.js:243-288 | after the drain, the queue of that kind is the snapshot without the resolved ids; other kinds are unchanged |
| `Reconcile.OfflineQueues.RemoveOfflineAction` | code_sandbox_light_42f26986_1758424353/sw.js:297-301 | writes back the list of that kind without every record having the id |
| `Reconcile.SyncOffline` | code_sandbox_light_42f26986_1758424353/sw.js:243-288 | every snapshot record is POSTed in order, a rejection does not stop the run, and the queue becomes `Drained` |
| `Reconcile.PostsStep` | code_sandbox_light_42f26986_1758424353/sw.js:249-253 | each loop turn appends exactly the POST of the next snapshot record |
| `Reconcile.DrainStep` | code_sandbox_light_42f26986_1758424353/sw.js:255-256 | a resolved POST removes its id from what is left; a rejected one changes nothing |
| `Reconcile.OnSync` | code_sandbox_light_42f26986_1758424353/sw.js:232-240 | the cart and quote tags drain their own kind to their own endpoint; any other tag sends nothing and changes nothing |
| `Reconcile.DrainResult` | code_sandbox_light_42f26986_1758424353/sw.js:247-260 | a record remains after a drain iff it was in the snapshot and no POST for its id resolved |
| `Reconcile.ThreeRecordScenario` | code_sandbox_light_42f26986_1758424353/sw.js:247-260 | with three queued records where only the second POST rejects, all three are sent and the queue is left holding the second |

## Left out

- Push and notification-click handlers (sw.js:304-348). They only call host UI APIs.
- The markup of the built-in offline page (sw.js:351-487). `Strategies.OfflineHtml` is a
  fixed stand-in string; only its status and content type are modelled.
- Host lifecycle calls. The model reports skip-waiting as a boolean, from install and from
  the SKIP_WAITING message. It does not model `clients.claim` (sw.js:76) or
  `clients.openWindow`.
- Concurrency. The un-awaited `cache.put` calls, the parallel deletes of `Promise.all`
  and records appended while a drain runs are not modelled. Each handler is one atomic step.
- Failures of the cache storage itself. `open`, `match`, `put` and `delete` always succeed
  in the model, so cache-first's `catch` (sw.js:129-132) is reached only through a network
  failure.
- URL parsing and request matching. The protocol, path and cache key of a request are
  given strings. The relative keys "/offline.html" and the manifest paths are used as keys
  unresolved. `match` options (Vary, query-ignoring) are not modelled.
- Response bodies are single strings. Body streams, cloning and headers other than
  Content-Type are not modelled.
- `addAll`'s rejection of duplicate requests is not modelled. The manifest has no duplicates.
- The `localStorage` and JSON encoding of the queues (sw.js:291-301). Queues are lists of
  records. The failure of an unparsable stored value is not modelled.
- `Reconcile.SyncOffline` describes the drain as if the queue store worked. `localStorage`
  does not exist in a service worker's global scope, so as written `getOfflineActions`
  (sw.js:291-295) throws on every run, the outer `catch` (sw.js:261-263, 285-287) ends the
  run, and no POST is sent. The model does not capture that failure.
- `RUNTIME_CACHE_URLS` (sw.js:30-36) is declared but never used by the code.
- Logging through `console`.
