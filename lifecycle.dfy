/** Install (sw.js:39-56) and activate (sw.js:59-79): seeding the static cache of the new
    generation and deleting the caches of every other generation. */
module Lifecycle {
  import opened Http
  import opened Text
  import opened Config
  import opened CacheStore

  /** The manifest entries install pre-caches: those not starting with "http", in order. */
  function SameOrigin(urls: seq<string>): (r: seq<string>)
    ensures |r| <= |urls|
  {
    if urls == [] then []
    else if StartsWith(urls[0], "http") then SameOrigin(urls[1..])
    else [urls[0]] + SameOrigin(urls[1..])
  }

  /** The filter keeps exactly the entries that do not start with "http". */
  lemma {:induction false} SameOriginMembers(urls: seq<string>, u: string)
    ensures u in SameOrigin(urls) <==> u in urls && !StartsWith(u, "http")
  {
    if urls != [] {
      SameOriginMembers(urls[1..], u);
      assert u in urls <==> u == urls[0] || u in urls[1..];
    }
  }

  /** `cache.addAll` accepts a fetched response only with an ok status (200-299) other
      than 206 Partial Content, per the Service Workers specification's Cache.addAll. */
  predicate Cacheable(o: NetOutcome) {
    o.Ok? && 200 <= o.response.status <= 299 && o.response.status != 206
  }

  predicate AllCacheable(urls: seq<string>, net: Key -> NetOutcome) {
    forall i :: 0 <= i < |urls| ==> Cacheable(net(urls[i]))
  }

  /** The entries `addAll` writes once every fetch succeeded. */
  function Batch(urls: seq<string>, net: Key -> NetOutcome): (b: map<Key, Response>)
    requires AllCacheable(urls, net)
    ensures b.Keys == set u | u in urls
    ensures forall u :: u in b ==> Ok(b[u]) == net(u)
  {
    map u | u in urls :: net(u).response
  }

  lemma {:induction false} SameOriginAppend(a: seq<string>, b: seq<string>)
    ensures SameOrigin(a + b) == SameOrigin(a) + SameOrigin(b)
  {
    if a != [] {
      assert (a + b)[1..] == a[1..] + b;
      SameOriginAppend(a[1..], b);
    } else {
      assert a + b == b;
    }
  }

  /** Paths that start with "/" are all kept. */
  lemma {:induction false} SameOriginPaths(urls: seq<string>)
    requires forall i :: 0 <= i < |urls| ==> |urls[i]| > 0 && urls[i][0] == '/'
    ensures SameOrigin(urls) == urls
  {
    if urls != [] {
      assert !StartsWith(urls[0], "http") by {
        assert urls[0][0] == '/';
      }
      SameOriginPaths(urls[1..]);
      assert urls == [urls[0]] + urls[1..];
    }
  }

  /** The two CDN entries of the manifest start with "http". */
  lemma CdnEntries()
    ensures StartsWith(StaticAssets[11], "http") && StartsWith(StaticAssets[12], "http")
  {
    var a := StaticAssets;
    assert a[11][..4] == "http";
    assert a[12][0] == 'h' && a[12][1] == 't' && a[12][2] == 't' && a[12][3] == 'p';
    assert a[12][..4] == "http";
  }

  /** Every other manifest entry is a path starting with "/". */
  lemma PathEntries()
    ensures forall i :: 0 <= i < 11 ==> |StaticAssets[i]| > 0 && StaticAssets[i][0] == '/'
    ensures |StaticAssets[13]| > 0 && StaticAssets[13][0] == '/'
  {
  }

  /** A fourteen-entry manifest whose entries 11 and 12 start with "http" and whose others
      are paths keeps all but those two. */
  lemma SameOriginDropsCdn(a: seq<string>)
    requires |a| == 14
    requires forall i :: 0 <= i < 11 ==> |a[i]| > 0 && a[i][0] == '/'
    requires |a[13]| > 0 && a[13][0] == '/'
    requires StartsWith(a[11], "http") && StartsWith(a[12], "http")
    ensures SameOrigin(a) == a[..11] + [a[13]]
  {
    var front, cdn, last := a[..11], a[11..13], a[13..];
    assert a == front + cdn + last;
    SameOriginAppend(front + cdn, last);
    SameOriginAppend(front, cdn);
    SameOriginPaths(front);
    SameOriginPaths(last);
    assert SameOrigin(cdn) == [] by {
      assert cdn[1..][1..] == [];
    }
  }

  /** The pre-cache list is the manifest without its two CDN entries. */
  lemma PrecacheList()
    ensures SameOrigin(StaticAssets) == StaticAssets[..11] + [StaticAssets[13]]
    ensures StaticAssets[13] == OfflinePage
  {
    CdnEntries();
    PathEntries();
    SameOriginDropsCdn(StaticAssets);
  }

  /** The install handler, for the network outcome `net` of each URL: the static cache is
      opened, then filled with every same-origin manifest entry if all of them fetch with
      an acceptable status, and with none of them otherwise. A failure is swallowed:
      install then completes without asking the host to skip waiting. */
  method Install(storage: CacheStorage, net: Key -> NetOutcome) returns (skipWaiting: bool)
    requires storage.Valid()
    modifies storage
    ensures storage.Valid()
    ensures skipWaiting == AllCacheable(SameOrigin(StaticAssets), net)
    ensures storage.View() ==
      if skipWaiting
      then PutAll(old(storage.View()), StaticCacheName, Batch(SameOrigin(StaticAssets), net))
      else Open(old(storage.View()), StaticCacheName)
  {
    storage.OpenCache(StaticCacheName);
    var urls := SameOrigin(StaticAssets);
    if AllCacheable(urls, net) {
      storage.AddAll(StaticCacheName, Batch(urls, net));
      skipWaiting := true;
    } else {
      skipWaiting := false;
    }
  }

  /** A successful install adds to the static cache exactly the manifest entries that do
      not start with "http", leaving every other cache as it was. */
  lemma InstallAddsSameOriginEntries(s: Store, net: Key -> NetOutcome)
    requires WellFormed(s) && AllCacheable(SameOrigin(StaticAssets), net)
    ensures var r := PutAll(s, StaticCacheName, Batch(SameOrigin(StaticAssets), net));
      && r.caches[StaticCacheName].Keys
         == (if StaticCacheName in s.caches then s.caches[StaticCacheName].Keys else {})
            + (set u | u in StaticAssets && !StartsWith(u, "http"))
      && forall n :: n in s.caches && n != StaticCacheName ==> r.caches[n] == s.caches[n]
  {
    var urls := SameOrigin(StaticAssets);
    var b := Batch(urls, net);
    var o := Open(s, StaticCacheName);
    assert o.caches[StaticCacheName].Keys
        == (if StaticCacheName in s.caches then s.caches[StaticCacheName].Keys else {});
    forall u {
      SameOriginMembers(StaticAssets, u);
    }
    assert b.Keys == (set u | u in StaticAssets && !StartsWith(u, "http"));
  }

  /** The names activation deletes from `names`. */
  function Doomed(names: seq<string>): (r: set<string>) {
    set n | n in names && n !in CurrentCaches
  }

  /** The store once the cleanup loop has visited `names` in order: each visited name
      that is not current has been deleted. */
  function Cleaned(s: Store, names: seq<string>): (r: Store)
    requires WellFormed(s)
    ensures WellFormed(r)
    decreases |names|
  {
    if names == [] then s
    else
      var prev := Cleaned(s, names[..|names| - 1]);
      var n := names[|names| - 1];
      if n in CurrentCaches then prev else Drop(prev, {n})
  }

  /** Deleting the visited names one at a time is deleting all of them at once. */
  lemma {:induction false} CleanedIsDrop(s: Store, names: seq<string>)
    requires WellFormed(s)
    ensures Cleaned(s, names) == Drop(s, Doomed(names))
    decreases |names|
  {
    if names == [] {
      FilterOutNothing(s.names, {});
      assert Doomed(names) == {};
      assert s.caches - {} == s.caches;
    } else {
      var init, n := names[..|names| - 1], names[|names| - 1];
      CleanedIsDrop(s, init);
      assert names == init + [n];
      if n in CurrentCaches {
        assert Doomed(names) == Doomed(init);
      } else {
        assert Doomed(names) == Doomed(init) + {n};
        DropTwice(s, Doomed(init), {n});
      }
    }
  }

  /** One turn of the cleanup loop, on the prefix of `names` it has visited. */
  lemma CleanedStep(s: Store, names: seq<string>, i: nat)
    requires WellFormed(s) && i < |names|
    ensures Cleaned(s, names[..i + 1])
      == if names[i] in CurrentCaches then Cleaned(s, names[..i]) else Drop(Cleaned(s, names[..i]), {names[i]})
    ensures FilterOut(names[..i + 1], CurrentCaches)
      == FilterOut(names[..i], CurrentCaches) + if names[i] in CurrentCaches then [] else [names[i]]
  {
    assert names[..i + 1][..i] == names[..i];
    assert names[..i + 1] == names[..i] + [names[i]];
    FilterOutAppend(names[..i], names[i], CurrentCaches);
  }

  /** The activate handler: every cache whose name is neither of the two current names
      is deleted; `deleted` lists them in the order the host listed the caches. */
  method Activate(storage: CacheStorage) returns (deleted: seq<string>)
    requires storage.Valid()
    modifies storage
    ensures storage.Valid()
    ensures storage.View() == Retain(old(storage.View()), CurrentCaches)
    ensures deleted == FilterOut(old(storage.names), CurrentCaches)
  {
    var cacheNames := storage.Keys();
    ghost var s0 := storage.View();
    deleted := [];
    for i := 0 to |cacheNames|
      invariant storage.View() == Cleaned(s0, cacheNames[..i])
      invariant deleted == FilterOut(cacheNames[..i], CurrentCaches)
    {
      var name := cacheNames[i];
      CleanedStep(s0, cacheNames, i);
      if name !in CurrentCaches {
        var _ := storage.DeleteCache(name);
        deleted := deleted + [name];
      }
    }
    assert cacheNames[..|cacheNames|] == cacheNames;
    CleanedAll(s0);
  }

  /** Visiting every cache name deletes exactly the caches that are not current. */
  lemma CleanedAll(s: Store)
    requires WellFormed(s)
    ensures Cleaned(s, s.names) == Retain(s, CurrentCaches)
  {
    CleanedIsDrop(s, s.names);
  }

  /** After activation only current names remain, and a second activation deletes nothing
      and changes nothing. */
  lemma ActivateTwice(s: Store)
    requires WellFormed(s)
    ensures Retain(s, CurrentCaches).caches.Keys == s.caches.Keys * {CacheName, StaticCacheName}
    ensures Retain(Retain(s, CurrentCaches), CurrentCaches) == Retain(s, CurrentCaches)
    ensures FilterOut(Retain(s, CurrentCaches).names, CurrentCaches) == []
  {
    RetainIdempotent(s, CurrentCaches);
  }
}
