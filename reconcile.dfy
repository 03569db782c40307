/** Background sync (sw.js:232-301): on a "connectivity restored" signal the worker replays
    the queued offline records of one kind against that kind's endpoint, removing each
    record whose POST resolved. The queues are the page's locally stored lists, keyed by
    kind ("cart", "quotes"). */
module Reconcile {
  import opened Config

  /** A queued write: its id and its JSON payload (kept as text). */
  datatype PendingRecord = PendingRecord(id: string, payload: string)

  /** A POST the drain sends: the endpoint and the record it carries as its JSON body. */
  datatype Post = Post(endpoint: string, body: PendingRecord)

  /** `getOfflineActions(kind)`: the stored list of that kind, empty when none is stored. */
  function Actions(stored: map<string, seq<PendingRecord>>, kind: string): (r: seq<PendingRecord>) {
    if kind in stored then stored[kind] else []
  }

  /** The records whose id is not in `ids`, in their original order. */
  function WithoutIds(records: seq<PendingRecord>, ids: set<string>): (r: seq<PendingRecord>)
    ensures forall x :: x in r <==> x in records && x.id !in ids
    ensures |r| <= |records|
  {
    if records == [] then []
    else if records[0].id in ids then WithoutIds(records[1..], ids)
    else [records[0]] + WithoutIds(records[1..], ids)
  }

  lemma {:induction false} WithoutNoIds(records: seq<PendingRecord>)
    ensures WithoutIds(records, {}) == records
  {
    if records != [] {
      WithoutNoIds(records[1..]);
      assert records == [records[0]] + records[1..];
    }
  }

  /** Removing ids one batch after another is removing their union. */
  lemma {:induction false} WithoutIdsTwice(records: seq<PendingRecord>, a: set<string>, b: set<string>)
    ensures WithoutIds(WithoutIds(records, a), b) == WithoutIds(records, a + b)
  {
    if records != [] {
      WithoutIdsTwice(records[1..], a, b);
    }
  }

  /** Removal keeps the order of what remains: it works piecewise on a concatenation. */
  lemma {:induction false} WithoutIdsAppend(a: seq<PendingRecord>, b: seq<PendingRecord>, ids: set<string>)
    ensures WithoutIds(a + b, ids) == WithoutIds(a, ids) + WithoutIds(b, ids)
  {
    if a == [] {
      assert a + b == b;
    } else {
      assert (a + b)[1..] == a[1..] + b;
      WithoutIdsAppend(a[1..], b, ids);
    }
  }

  /** The ids of the first `n` records of `snapshot` whose POST resolved; `resolves(j)`
      says whether the `j`-th POST of the run resolved (whatever its status) rather than
      rejected. */
  function Resolved(snapshot: seq<PendingRecord>, resolves: nat -> bool, n: nat): (ids: set<string>)
    requires n <= |snapshot|
    ensures forall j :: 0 <= j < n && resolves(j) ==> snapshot[j].id in ids
  {
    if n == 0 then {}
    else Resolved(snapshot, resolves, n - 1) + (if resolves(n - 1) then {snapshot[n - 1].id} else {})
  }

  /** An id is removed exactly when the POST of some record carrying it resolved. */
  lemma {:induction false} ResolvedMembers(snapshot: seq<PendingRecord>, resolves: nat -> bool, n: nat, id: string)
    requires n <= |snapshot|
    ensures id in Resolved(snapshot, resolves, n) <==> exists j :: 0 <= j < n && resolves(j) && snapshot[j].id == id
  {
    if n > 0 {
      ResolvedMembers(snapshot, resolves, n - 1, id);
    }
  }

  /** The stored queues once the first `n` records of the snapshot of `kind` were tried:
      untouched while no POST resolved, otherwise the snapshot without the resolved ids. */
  function Drained(stored: map<string, seq<PendingRecord>>, kind: string, resolves: nat -> bool, n: nat)
      : (r: map<string, seq<PendingRecord>>)
    requires n <= |Actions(stored, kind)|
    ensures Actions(r, kind) == WithoutIds(Actions(stored, kind), Resolved(Actions(stored, kind), resolves, n))
    ensures forall k :: k != kind ==> Actions(r, k) == Actions(stored, k)
  {
    var snapshot := Actions(stored, kind);
    var ids := Resolved(snapshot, resolves, n);
    WithoutNoIds(snapshot);
    if ids == {} then stored else stored[kind := WithoutIds(snapshot, ids)]
  }

  /** The POSTs a run sends: one per record of the snapshot, in order. */
  function Posts(endpoint: string, records: seq<PendingRecord>): (r: seq<Post>)
    ensures |r| == |records|
    ensures forall i :: 0 <= i < |r| ==> r[i] == Post(endpoint, records[i])
  {
    seq(|records|, i requires 0 <= i < |records| => Post(endpoint, records[i]))
  }

  lemma PostsStep(endpoint: string, records: seq<PendingRecord>, i: nat)
    requires i < |records|
    ensures Posts(endpoint, records[..i + 1]) == Posts(endpoint, records[..i]) + [Post(endpoint, records[i])]
  {
    assert records[..i + 1][i] == records[i];
  }

  /** The page's local storage of queued records. */
  class OfflineQueues {
    var stored: map<string, seq<PendingRecord>>

    constructor (stored: map<string, seq<PendingRecord>>)
      ensures this.stored == stored
    {
      this.stored := stored;
    }

    function Get(kind: string): (r: seq<PendingRecord>)
      reads this
    {
      Actions(stored, kind)
    }

    /** `removeOfflineAction`: reads the list, drops every record with this id, writes
        the list back (also when nothing was dropped). */
    method RemoveOfflineAction(kind: string, id: string)
      modifies this
      ensures stored == old(stored)[kind := WithoutIds(old(Get(kind)), {id})]
    {
      var actions := Get(kind);
      var filtered := WithoutIds(actions, {id});
      stored := stored[kind := filtered];
    }
  }

  /** One drain of the queue of `kind`: every record of the snapshot taken at the start is
      POSTed to `endpoint` in order, a rejected POST does not stop the run, and each record
      whose POST resolved is removed by id. */
  method SyncOffline(q: OfflineQueues, kind: string, endpoint: string, resolves: nat -> bool)
      returns (sent: seq<Post>)
    modifies q
    ensures sent == Posts(endpoint, old(q.Get(kind)))
    ensures q.stored == Drained(old(q.stored), kind, resolves, |old(q.Get(kind))|)
  {
    var snapshot := q.Get(kind);
    ghost var stored0 := q.stored;
    sent := [];
    WithoutNoIds(snapshot);
    for i := 0 to |snapshot|
      invariant sent == Posts(endpoint, snapshot[..i])
      invariant q.stored == Drained(stored0, kind, resolves, i)
    {
      var record := snapshot[i];
      PostsStep(endpoint, snapshot, i);
      sent := sent + [Post(endpoint, record)];
      DrainStep(stored0, kind, resolves, i);
      if resolves(i) {
        q.RemoveOfflineAction(kind, record.id);
      }
    }
    assert snapshot[..|snapshot|] == snapshot;
  }

  /** One iteration of the drain: a resolved POST removes its id from what the earlier
      iterations left, a rejected one changes nothing. */
  lemma DrainStep(stored: map<string, seq<PendingRecord>>, kind: string, resolves: nat -> bool, i: nat)
    requires i < |Actions(stored, kind)|
    ensures var snapshot := Actions(stored, kind);
      var before := Drained(stored, kind, resolves, i);
      Drained(stored, kind, resolves, i + 1)
        == if resolves(i) then before[kind := WithoutIds(Actions(before, kind), {snapshot[i].id})] else before
  {
    var snapshot := Actions(stored, kind);
    var ids := Resolved(snapshot, resolves, i);
    var before := Drained(stored, kind, resolves, i);
    if resolves(i) {
      var id := snapshot[i].id;
      assert Resolved(snapshot, resolves, i + 1) == ids + {id};
      WithoutIdsTwice(snapshot, ids, {id});
      var after := WithoutIds(snapshot, ids + {id});
      assert Actions(before, kind) == WithoutIds(snapshot, ids);
      assert before[kind := after] == stored[kind := after];
      assert id in Resolved(snapshot, resolves, i + 1);
      assert Drained(stored, kind, resolves, i + 1) == stored[kind := after];
    } else {
      assert Resolved(snapshot, resolves, i + 1) == ids;
    }
  }

  /** The sync handler: the cart and quote tags drain their own queue to their own
      endpoint; any other tag does nothing. */
  method OnSync(q: OfflineQueues, tag: string, resolves: nat -> bool) returns (sent: seq<Post>)
    modifies q
    ensures tag == CartSyncTag ==>
      sent == Posts(CartEndpoint, old(q.Get("cart")))
      && q.stored == Drained(old(q.stored), "cart", resolves, |old(q.Get("cart"))|)
    ensures tag == QuoteSyncTag ==>
      sent == Posts(QuoteEndpoint, old(q.Get("quotes")))
      && q.stored == Drained(old(q.stored), "quotes", resolves, |old(q.Get("quotes"))|)
    ensures tag != CartSyncTag && tag != QuoteSyncTag ==> sent == [] && q.stored == old(q.stored)
  {
    if tag == CartSyncTag {
      sent := SyncOffline(q, "cart", CartEndpoint, resolves);
    } else if tag == QuoteSyncTag {
      sent := SyncOffline(q, "quotes", QuoteEndpoint, resolves);
    } else {
      sent := [];
    }
  }

  /** After one drain the queue is the snapshot without the resolved ids, in order, and a
      record stays exactly when no record with its id was acknowledged. */
  lemma DrainResult(stored: map<string, seq<PendingRecord>>, kind: string, resolves: nat -> bool, x: PendingRecord)
    ensures var snapshot := Actions(stored, kind);
      var after := Actions(Drained(stored, kind, resolves, |snapshot|), kind);
      x in after <==> x in snapshot && forall j :: 0 <= j < |snapshot| && snapshot[j].id == x.id ==> !resolves(j)
  {
    var snapshot := Actions(stored, kind);
    ResolvedMembers(snapshot, resolves, |snapshot|, x.id);
  }

  /** Three queued cart records; the POST of the second rejects, the other two resolve:
      after one sync the queue holds the second record alone, and all three were sent. */
  method ThreeRecordScenario(r1: PendingRecord, r2: PendingRecord, r3: PendingRecord)
      returns (remaining: seq<PendingRecord>, sent: seq<Post>)
    requires r1.id != r2.id && r2.id != r3.id
    ensures remaining == [r2]
    ensures sent == [Post(CartEndpoint, r1), Post(CartEndpoint, r2), Post(CartEndpoint, r3)]
  {
    var q := new OfflineQueues(map["cart" := [r1, r2, r3]]);
    sent := OnSync(q, CartSyncTag, j => j != 1);
    remaining := q.Get("cart");
    var snapshot := [r1, r2, r3];
    assert Resolved(snapshot, j => j != 1, 1) == {r1.id};
    assert Resolved(snapshot, j => j != 1, 2) == {r1.id};
    assert Resolved(snapshot, j => j != 1, 3) == {r1.id, r3.id};
    assert WithoutIds([r3], {r1.id, r3.id}) == [];
    assert WithoutIds([r2, r3], {r1.id, r3.id}) == [r2] + WithoutIds([r3], {r1.id, r3.id});
  }
}
