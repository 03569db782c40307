/** The named caches the worker reads and writes through the host's CacheStorage:
    `caches.open`, `caches.match`, `cache.put`, `cache.addAll`, `caches.keys` and
    `caches.delete`. The store is a value (`Store`) with pure operations; the class
    `CacheStorage` holds the same state in fields and updates it in place. */
module CacheStore {
  import opened Http

  type Key = string
  type Cache = map<Key, Response>

  /** Cache names in creation order (the order `keys` lists and `match` searches them),
      and the contents of each named cache. */
  datatype Store = Store(names: seq<string>, caches: map<string, Cache>)

  predicate Distinct(s: seq<string>) {
    forall i, j :: 0 <= i < j < |s| ==> s[i] != s[j]
  }

  ghost predicate WellFormed(s: Store) {
    Distinct(s.names) && forall n :: n in s.caches <==> n in s.names
  }

  const Empty: Store := Store([], map[])

  /** The names before the first occurrence of `name` (all of them when it is absent). */
  function Before(names: seq<string>, name: string): (r: seq<string>)
    ensures |r| <= |names| && r == names[..|r|]
    ensures |r| < |names| ==> names[|r|] == name
    ensures forall n :: n in r ==> n in names && n != name
  {
    if names == [] || names[0] == name then [] else [names[0]] + Before(names[1..], name)
  }

  /** `caches.match`: the entry for `key` in the first cache, in creation order, that
      holds one. */
  function LookupIn(names: seq<string>, caches: map<string, Cache>, key: Key): (r: Option<Response>)
    requires forall n :: n in names ==> n in caches
    ensures r.Some? <==> exists n :: n in names && key in caches[n]
    ensures r.Some? ==> exists n :: n in names && key in caches[n] && caches[n][key] == r.value
    ensures r.Some? ==> exists i :: 0 <= i < |names| && key in caches[names[i]] && r.value == caches[names[i]][key]
                                  && (forall j :: 0 <= j < i ==> key !in caches[names[j]])
  {
    if names == [] then None
    else if key in caches[names[0]] then Some(caches[names[0]][key])
    else LookupIn(names[1..], caches, key)
  }

  function Lookup(s: Store, key: Key): (r: Option<Response>)
    requires WellFormed(s)
    ensures r.Some? <==> exists n :: n in s.caches && key in s.caches[n]
  {
    LookupIn(s.names, s.caches, key)
  }

  /** `caches.open(name)`: creates an empty cache, last in order, if none has that name. */
  function Open(s: Store, name: string): (r: Store)
    requires WellFormed(s)
    ensures WellFormed(r)
    ensures r.caches.Keys == s.caches.Keys + {name}
    ensures forall n :: n in s.caches ==> r.caches[n] == s.caches[n]
    ensures name !in s.caches ==> r.caches[name] == map[]
  {
    if name in s.caches then s else Store(s.names + [name], s.caches[name := map[]])
  }

  /** `cache.put(key, resp)` on the cache `name` (opened first): replaces or adds one entry. */
  function Put(s: Store, name: string, key: Key, resp: Response): (r: Store)
    requires WellFormed(s)
    ensures WellFormed(r)
    ensures r.names == Open(s, name).names
    ensures r.caches.Keys == s.caches.Keys + {name}
    ensures r.caches[name].Keys == Open(s, name).caches[name].Keys + {key}
    ensures r.caches[name][key] == resp
    ensures forall k :: k in r.caches[name] && k != key ==> r.caches[name][k] == Open(s, name).caches[name][k]
    ensures forall n :: n in s.caches && n != name ==> r.caches[n] == s.caches[n]
  {
    var o := Open(s, name);
    Store(o.names, o.caches[name := o.caches[name][key := resp]])
  }

  /** `cache.addAll` once every fetch succeeded: all entries of `batch` land in `name`. */
  function PutAll(s: Store, name: string, batch: map<Key, Response>): (r: Store)
    requires WellFormed(s)
    ensures WellFormed(r)
    ensures r.names == Open(s, name).names
    ensures r.caches.Keys == s.caches.Keys + {name}
    ensures r.caches[name].Keys == Open(s, name).caches[name].Keys + batch.Keys
    ensures forall k :: k in batch ==> r.caches[name][k] == batch[k]
    ensures forall k :: k in r.caches[name] && k !in batch ==> r.caches[name][k] == Open(s, name).caches[name][k]
    ensures forall n :: n in s.caches && n != name ==> r.caches[n] == s.caches[n]
  {
    var o := Open(s, name);
    Store(o.names, o.caches[name := o.caches[name] + batch])
  }

  /** The names not in `doomed`, in their original order. */
  function FilterOut(names: seq<string>, doomed: set<string>): (r: seq<string>)
    ensures forall n :: n in r <==> n in names && n !in doomed
    ensures Distinct(names) ==> Distinct(r)
    ensures |r| <= |names|
  {
    if names == [] then []
    else if names[0] in doomed then FilterOut(names[1..], doomed)
    else [names[0]] + FilterOut(names[1..], doomed)
  }

  /** `caches.delete` of every name in `doomed`. */
  function Drop(s: Store, doomed: set<string>): (r: Store)
    requires WellFormed(s)
    ensures WellFormed(r)
    ensures r.caches.Keys == s.caches.Keys - doomed
    ensures forall n :: n in r.caches ==> r.caches[n] == s.caches[n]
  {
    Store(FilterOut(s.names, doomed), s.caches - doomed)
  }

  /** The store with every cache whose name is not in `keep` deleted. */
  function Retain(s: Store, keep: set<string>): (r: Store)
    requires WellFormed(s)
    ensures WellFormed(r)
    ensures r.caches.Keys == s.caches.Keys * keep
    ensures forall n :: n in r.caches ==> r.caches[n] == s.caches[n]
  {
    Drop(s, set n | n in s.names && n !in keep)
  }

  lemma {:induction false} FilterOutNothing(names: seq<string>, doomed: set<string>)
    requires forall n :: n in names ==> n !in doomed
    ensures FilterOut(names, doomed) == names
  {
    if names != [] {
      FilterOutNothing(names[1..], doomed);
      assert names == [names[0]] + names[1..];
    }
  }

  lemma {:induction false} FilterOutAll(names: seq<string>, doomed: set<string>)
    requires forall n :: n in names ==> n in doomed
    ensures FilterOut(names, doomed) == []
  {
    if names != [] {
      FilterOutAll(names[1..], doomed);
    }
  }

  lemma {:induction false} FilterOutTwice(names: seq<string>, a: set<string>, b: set<string>)
    ensures FilterOut(FilterOut(names, a), b) == FilterOut(names, a + b)
  {
    if names != [] {
      FilterOutTwice(names[1..], a, b);
    }
  }

  lemma {:induction false} FilterOutAppend(names: seq<string>, n: string, doomed: set<string>)
    ensures FilterOut(names + [n], doomed) == FilterOut(names, doomed) + (if n in doomed then [] else [n])
  {
    if names != [] {
      assert (names + [n])[1..] == names[1..] + [n];
      FilterOutAppend(names[1..], n, doomed);
    }
  }

  /** Deleting one cache after a batch of deletions is deleting the larger batch. */
  lemma DropTwice(s: Store, a: set<string>, b: set<string>)
    requires WellFormed(s)
    ensures Drop(Drop(s, a), b) == Drop(s, a + b)
  {
    FilterOutTwice(s.names, a, b);
    assert (s.caches - a) - b == s.caches - (a + b);
  }

  /** A second cleanup with the same names to keep deletes nothing. */
  lemma RetainIdempotent(s: Store, keep: set<string>)
    requires WellFormed(s)
    ensures Retain(Retain(s, keep), keep) == Retain(s, keep)
    ensures FilterOut(Retain(s, keep).names, keep) == []
  {
    var r := Retain(s, keep);
    var none := set n | n in r.names && n !in keep;
    assert none == {};
    FilterOutNothing(r.names, none);
    assert r.caches - none == r.caches;
    FilterOutAll(r.names, keep);
  }

  /** Opening a cache never changes what `match` finds: a new cache is empty and last. */
  lemma {:induction false} LookupInAppendEmpty(names: seq<string>, caches: map<string, Cache>, name: string, key: Key)
    requires forall n :: n in names ==> n in caches
    requires name !in caches
    ensures LookupIn(names + [name], caches[name := map[]], key) == LookupIn(names, caches, key)
  {
    if names == [] {
      assert LookupIn([name], caches[name := map[]], key) == LookupIn([], caches[name := map[]], key);
    } else {
      assert (names + [name])[1..] == names[1..] + [name];
      LookupInAppendEmpty(names[1..], caches, name, key);
    }
  }

  lemma OpenKeepsLookup(s: Store, name: string, key: Key)
    requires WellFormed(s)
    ensures Lookup(Open(s, name), key) == Lookup(s, key)
  {
    if name !in s.caches {
      LookupInAppendEmpty(s.names, s.caches, name, key);
    }
  }

  /** What `match` finds for `key` right after `put(key, resp)` into `name`: the entry of
      a cache created before `name`, when one holds `key`, and otherwise `resp`. */
  lemma {:induction false} LookupInAfterPut(names: seq<string>, caches: map<string, Cache>, name: string, key: Key, resp: Response)
    requires forall n :: n in names ==> n in caches
    requires name in names && name in caches
    ensures var m := LookupIn(Before(names, name), caches, key);
      LookupIn(names, caches[name := caches[name][key := resp]], key) == if m.Some? then m else Some(resp)
  {
    if names[0] != name {
      LookupInAfterPut(names[1..], caches, name, key, resp);
    }
  }

  lemma PutThenLookup(s: Store, name: string, key: Key, resp: Response)
    requires WellFormed(s)
    ensures var m := LookupIn(Before(s.names, name), s.caches, key);
      Lookup(Put(s, name, key, resp), key) == if m.Some? then m else Some(resp)
  {
    var o := Open(s, name);
    LookupInAfterPut(o.names, o.caches, name, key, resp);
    if name !in s.caches {
      BeforeAppend(s.names, name);
      BeforeAbsent(s.names, name);
      LookupInOther(s.names, s.caches, name, map[], key);
    }
  }

  lemma {:induction false} BeforeAbsent(names: seq<string>, name: string)
    requires name !in names
    ensures Before(names, name) == names
  {
    if names != [] {
      BeforeAbsent(names[1..], name);
      assert names == [names[0]] + names[1..];
    }
  }

  lemma {:induction false} BeforeAppend(names: seq<string>, name: string)
    requires name !in names
    ensures Before(names + [name], name) == names
  {
    if names != [] {
      assert (names + [name])[1..] == names[1..] + [name];
      BeforeAppend(names[1..], name);
      assert names == [names[0]] + names[1..];
    }
  }

  /** Lookups over names that do not include `name` ignore what `name` holds. */
  lemma {:induction false} LookupInOther(names: seq<string>, caches: map<string, Cache>, name: string, c: Cache, key: Key)
    requires forall n :: n in names ==> n in caches && n != name
    ensures LookupIn(names, caches[name := c], key) == LookupIn(names, caches, key)
  {
    if names != [] {
      assert forall n :: n in names[1..] ==> n in names;
      assert caches[name := c][names[0]] == caches[names[0]];
      LookupInOther(names[1..], caches, name, c, key);
    }
  }

  /** Round trip: when no cache holds `key`, `match` returns exactly what was put. */
  lemma PutThenLookupFresh(s: Store, name: string, key: Key, resp: Response)
    requires WellFormed(s) && Lookup(s, key).None?
    ensures Lookup(Put(s, name, key, resp), key) == Some(resp)
  {
    PutThenLookup(s, name, key, resp);
    var m := LookupIn(Before(s.names, name), s.caches, key);
    if m.Some? {
      assert false;
    }
  }

  /** A put into the cache created first is always what `match` returns next. */
  lemma PutIntoFirstCache(s: Store, key: Key, resp: Response)
    requires WellFormed(s) && s.names != []
    ensures Lookup(Put(s, s.names[0], key, resp), key) == Some(resp)
  {
    PutThenLookup(s, s.names[0], key, resp);
  }

  /** The host's cache storage, updated in place. */
  class CacheStorage {
    var names: seq<string>
    var caches: map<string, Cache>

    function View(): Store
      reads this
    {
      Store(names, caches)
    }

    ghost predicate Valid()
      reads this
    {
      WellFormed(View())
    }

    constructor ()
      ensures Valid() && View() == Empty
    {
      names := [];
      caches := map[];
    }

    /** `caches.keys()`. */
    function Keys(): (r: seq<string>)
      reads this
      requires Valid()
      ensures forall n :: n in r <==> n in caches
    {
      names
    }

    /** `caches.match(key)`. */
    function Match(key: Key): (r: Option<Response>)
      reads this
      requires Valid()
    {
      Lookup(View(), key)
    }

    /** `caches.open(name)`. */
    method OpenCache(name: string)
      requires Valid()
      modifies this
      ensures Valid() && View() == Open(old(View()), name)
    {
      if name !in caches {
        names := names + [name];
        caches := caches[name := map[]];
      }
    }

    /** `caches.open(name)` followed by `cache.put(key, resp)`. */
    method PutEntry(name: string, key: Key, resp: Response)
      requires Valid()
      modifies this
      ensures Valid() && View() == Put(old(View()), name, key, resp)
    {
      OpenCache(name);
      caches := caches[name := caches[name][key := resp]];
    }

    /** `cache.addAll` on `name` once every fetch succeeded. */
    method AddAll(name: string, batch: map<Key, Response>)
      requires Valid()
      modifies this
      ensures Valid() && View() == PutAll(old(View()), name, batch)
    {
      OpenCache(name);
      caches := caches[name := caches[name] + batch];
    }

    /** `caches.delete(name)`; reports whether the cache existed. */
    method DeleteCache(name: string) returns (existed: bool)
      requires Valid()
      modifies this
      ensures Valid() && View() == Drop(old(View()), {name})
      ensures existed == (name in old(caches))
    {
      existed := name in caches;
      names := FilterOut(names, {name});
      caches := caches - {name};
    }
  }
}
