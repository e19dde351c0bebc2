/**
 * Pools and provided preimages over a round. Every service works on its own copy of the pools, what none of them has
 * taken is pooled still, and blobs answer requests in the accounts put together. A request that its own service leaves
 * pooled while another provides for it is lost, and so is the blob; otherwise all books are right after the round.
 */
module Provision {
  import opened Words
  import opened Sums
  import opened Accounts
  import opened Ledger
  import opened Conservation
  import opened Footprint
  import opened Bookkeeping
  import Availability
  import opened Accumulate
  import opened Merging
  import opened Settlement
  import opened RoundSoundness
  import opened Pools

  type Results = map<ServiceId, Result>

  /** The account has an open request for a blob. */
  predicate Wanted(d: Dict, hash: Bytes -> Bytes, b: Blob)
  {
    b.service in d && KeyOfBlob(hash, b) in d[b.service].lookup && d[b.service].lookup[KeyOfBlob(hash, b)] == []
  }

  function SupplyOne(d: Dict, hash: Bytes -> Bytes, slot: u32, b: Blob): Dict
  {
    if !Wanted(d, hash, b) then d
    else
      var a, key := d[b.service], KeyOfBlob(hash, b);
      d[b.service := a.(lookup := a.lookup[key := [slot]], preimages := a.preimages[key.hash := b.data])]
  }

  /** Blobs supplied by services answer open requests for them. */
  function Supplied(d: Dict, hash: Bytes -> Bytes, slot: u32, blobs: seq<Blob>): Dict
  {
    if blobs == [] then d else SupplyOne(Supplied(d, hash, slot, blobs[..|blobs| - 1]), hash, slot, blobs[|blobs| - 1])
  }

  /** It is the arrival of a preimage that a service supplies. */
  lemma SupplyOneIsSupply(c: Context, hash: Bytes -> Bytes, slot: u32, b: Blob)
    ensures Availability.Supply(c, hash, b.service, b.data, slot)
      == c.(accounts := SupplyOne(c.accounts, hash, slot, b))
  {}

  /** The accounts of one state are those of another, but for preimages and the slots of requests. */
  ghost predicate SameShape(d: Dict, d': Dict)
  {
    d'.Keys == d.Keys && forall id | id in d :: SameAccount(d[id], d'[id])
  }

  ghost predicate SameAccount(a: Account, a': Account)
  {
    a'.info == a.info && a'.storage == a.storage && a'.lookup.Keys == a.lookup.Keys
  }

  lemma {:induction false} SuppliedShape(d: Dict, hash: Bytes -> Bytes, slot: u32, blobs: seq<Blob>)
    ensures SameShape(d, Supplied(d, hash, slot, blobs))
  {
    if blobs != [] { SuppliedShape(d, hash, slot, blobs[..|blobs| - 1]); }
  }

  lemma ShapeKeepsWorth(d: Dict, d': Dict)
    requires SameShape(d, d')
    ensures Worth(d') == Worth(d)
  {
    forall id | id in d ensures BalanceOf(id, d[id]) == BalanceOf(id, d'[id]) { assert SameAccount(d[id], d'[id]); }
    SumSame(d, d', BalanceOf);
  }

  lemma SupplyingKeepsWorth(d: Dict, hash: Bytes -> Bytes, slot: u32, blobs: seq<Blob>)
    ensures Supplied(d, hash, slot, blobs).Keys == d.Keys && Worth(Supplied(d, hash, slot, blobs)) == Worth(d)
  {
    SuppliedShape(d, hash, slot, blobs);
    ShapeKeepsWorth(d, Supplied(d, hash, slot, blobs));
  }

  lemma ShapeKeepsRecount(c: Context, d: Dict, id: ServiceId, m: Measure)
    requires SameShape(c.accounts, d) && id in d
    ensures Recount(c.(accounts := d), id, m) == Recount(c, id, m)
  {
    assert SameAccount(c.accounts[id], d[id]);
    SumSame(c.accounts[id].lookup, d[id].lookup, LookupW(m));
  }

  lemma ShapeKeepsCounted(c: Context, d: Dict, id: ServiceId)
    requires SameShape(c.accounts, d) && id in d
    ensures Counted(c.(accounts := d), id) <==> Counted(c, id)
  {
    assert SameAccount(c.accounts[id], d[id]);
    ShapeKeepsRecount(c, d, id, Items);
    ShapeKeepsRecount(c, d, id, Octets);
  }

  /** What a request of an account looks like after blobs have been supplied. */
  ghost predicate SlotsAfter(was: TimeSlots, now: TimeSlots, supplied: bool, slot: u32)
  {
    now == if was == [] && supplied then [slot] else was
  }

  /** Does some blob answer a request of this key? */
  ghost predicate Supplies(hash: Bytes -> Bytes, blobs: seq<Blob>, id: ServiceId, key: LookupKey)
  {
    exists b :: b in blobs && Answers(hash, b, id, key)
  }

  predicate Answers(hash: Bytes -> Bytes, b: Blob, id: ServiceId, key: LookupKey)
  {
    b.service == id && KeyOfBlob(hash, b) == key
  }

  lemma SuppliesOneMore(hash: Bytes -> Bytes, blobs: seq<Blob>, b: Blob, id: ServiceId, key: LookupKey)
    ensures Supplies(hash, blobs + [b], id, key) <==> Supplies(hash, blobs, id, key) || Answers(hash, b, id, key)
  {
    if Supplies(hash, blobs, id, key) {
      var x :| x in blobs && Answers(hash, x, id, key);
      assert x in blobs + [b];
    }
    assert b in blobs + [b];
  }

  /** Exactly the open requests that some blob answers are answered. */
  lemma {:induction false} SuppliedSlots(
      d: Dict, hash: Bytes -> Bytes, slot: u32, blobs: seq<Blob>, id: ServiceId, key: LookupKey)
    requires id in d && key in d[id].lookup
    ensures var d' := Supplied(d, hash, slot, blobs);
      && id in d' && key in d'[id].lookup
      && SlotsAfter(d[id].lookup[key], d'[id].lookup[key], Supplies(hash, blobs, id, key), slot)
  {
    SuppliedShape(d, hash, slot, blobs);
    assert SameAccount(d[id], Supplied(d, hash, slot, blobs)[id]);
    if blobs != [] {
      var init, b := blobs[..|blobs| - 1], blobs[|blobs| - 1];
      assert blobs == init + [b];
      SuppliedShape(d, hash, slot, init);
      assert SameAccount(d[id], Supplied(d, hash, slot, init)[id]);
      SuppliedSlots(d, hash, slot, init, id, key);
      SuppliesOneMore(hash, init, b, id, key);
    }
  }

  /** Which entries are left of the pools: those that no service has taken. */
  function LookupsLeft(e: Context, results: Results, order: seq<ServiceId>): map<PoolLookupKey, Option<TimeSlots>>
    requires forall s | s in order :: s in results
  {
    if order == [] then e.lookupPool else Common(LookupPools(results), order)
  }

  function StorageLeft(e: Context, results: Results, order: seq<ServiceId>): map<StorageKey, Bytes>
    requires forall s | s in order :: s in results
  {
    if order == [] then e.storagePool else Common(StoragePools(results), order)
  }

  function LookupPools(results: Results): map<ServiceId, map<PoolLookupKey, Option<TimeSlots>>>
  {
    map s | s in results :: results[s].context.lookupPool
  }

  function StoragePools(results: Results): map<ServiceId, map<StorageKey, Bytes>>
  {
    map s | s in results :: results[s].context.storagePool
  }

  /** The state after a round that has these results and blobs, apart from privileges and keys. */
  ghost predicate Leads(
      e: Context, results: Results, order: seq<ServiceId>, hash: Bytes -> Bytes, slot: u32, blobs: seq<Blob>,
      e': Context)
    requires forall s | s in order :: s in results
  {
    && e'.accounts == Supplied(After(e.accounts, results, order), hash, slot, blobs)
    && e'.lookupPool == LookupsLeft(e, results, order) && e'.storagePool == StorageLeft(e, results, order)
  }

  /** All services keep books and pools in order. */
  ghost predicate AllOrderly(e: Context, results: Results)
  {
    forall s | s in results :: Orderly(e, s, results[s].context)
  }

  /** No service has taken the entry. */
  ghost predicate StillPooled(results: Results, pk: PoolLookupKey)
  {
    forall s | s in results :: pk in results[s].context.lookupPool
  }

  lemma LookupsLeftAre(e: Context, results: Results, order: seq<ServiceId>)
    requires AllOrderly(e, results) && EachOnce(order, results.Keys)
    ensures Within(LookupsLeft(e, results, order), e.lookupPool)
    ensures forall pk | pk in e.lookupPool :: pk in LookupsLeft(e, results, order) <==> StillPooled(results, pk)
  {
    if order != [] {
      forall s | s in order ensures s in results && LookupPools(results)[s].Items <= e.lookupPool.Items {
        assert Orderly(e, s, results[s].context);
      }
      CommonHas(e.lookupPool, LookupPools(results), order);
    }
  }

  lemma StorageLeftIs(e: Context, results: Results, order: seq<ServiceId>)
    requires AllOrderly(e, results) && EachOnce(order, results.Keys)
    ensures Within(StorageLeft(e, results, order), e.storagePool)
    ensures forall sk | sk in e.storagePool ::
      sk in StorageLeft(e, results, order) <==> sk in View(e, results, sk.service).storagePool
  {
    if order != [] {
      forall s | s in order ensures s in results && StoragePools(results)[s].Items <= e.storagePool.Items {
        assert Orderly(e, s, results[s].context);
      }
      CommonHas(e.storagePool, StoragePools(results), order);
      forall sk | sk in e.storagePool && sk in View(e, results, sk.service).storagePool
        ensures sk in StorageLeft(e, results, order)
      {
        forall s | s in order ensures sk in StoragePools(results)[s] { assert Orderly(e, s, results[s].context); }
      }
    }
  }

  /** What a service itself makes of the state, if it takes part. */
  function View(e: Context, results: Results, id: ServiceId): Context
  {
    if id in results then results[id].context else e
  }

  /** Of a service that remains, the account is the one it has in its own view. */
  lemma OwnAccountRemains(e: Context, results: Results, order: seq<ServiceId>, id: ServiceId)
    requires AllOrderly(e, results) && EachOnce(order, results.Keys)
    requires id in e.accounts && id in After(e.accounts, results, order)
    ensures id in View(e, results, id).accounts
    ensures After(e.accounts, results, order)[id] == View(e, results, id).accounts[id]
  {
    var d, outs := e.accounts, OutsOf(results);
    if id in results {
      assert Orderly(e, id, results[id].context);
      AddedHas(d, outs, order, id, id);
    }
    if id in Added(d, outs, order) { var s := AddedBy(d, outs, order, id); }
  }

  /** If some entries of a map are left out, its sum stays exactly if these weigh nothing. */
  lemma PartSum<K, V>(p: map<K, V>, q: map<K, V>, f: (K, V) -> int)
    requires Within(p, q) && forall k | k in q :: f(k, q[k]) >= 0
    ensures SumOver(p, f) <= SumOver(q, f)
    ensures SumOver(p, f) == SumOver(q, f) <==> forall k | k in q && k !in p :: f(k, q[k]) == 0
  {
    WithinMeans(p, q);
    SumSplit(q, p.Keys, f);
    assert q - (q.Keys - p.Keys) == p;
    var rest := q - p.Keys;
    SumNonNegative(rest, f);
    if forall k | k in rest :: f(k, rest[k]) == 0 {
      SumZero(rest, f);
    } else {
      var k :| k in rest && f(k, rest[k]) != 0;
      SumAtLeast(rest, f, k);
    }
  }

  /** A request that its service has left pooled, but another service has taken. */
  ghost predicate Lost(e: Context, results: Results, pk: PoolLookupKey)
  {
    pk in View(e, results, pk.service).lookupPool && !StillPooled(results, pk)
  }

  ghost predicate NoneLost(e: Context, results: Results, id: ServiceId)
  {
    forall pk | pk in View(e, results, id).lookupPool && pk.service == id :: !Lost(e, results, pk)
  }

  lemma ViewIsOrderly(e: Context, results: Results, id: ServiceId)
    requires Books(e) && ItemsFit(e) && AllOrderly(e, results)
    ensures var o := View(e, results, id);
      Books(o) && ItemsFit(o) && Within(o.lookupPool, e.lookupPool) && Within(o.storagePool, e.storagePool)
  {
    if id in results { assert Orderly(e, id, results[id].context); }
  }

  /** The pools after a round, as the service sees them that they matter to. */
  lemma LeftOfView(e: Context, results: Results, order: seq<ServiceId>, id: ServiceId)
    requires Books(e) && ItemsFit(e) && AllOrderly(e, results) && EachOnce(order, results.Keys)
    ensures var o := View(e, results, id);
      && Within(LookupsLeft(e, results, order), o.lookupPool) && Within(StorageLeft(e, results, order), o.storagePool)
      && (forall pk | pk in o.lookupPool && pk.service == id ::
            pk in LookupsLeft(e, results, order) <==> !Lost(e, results, pk))
      && (forall sk | sk in o.storagePool && sk.service == id :: sk in StorageLeft(e, results, order))
  {
    var o := View(e, results, id);
    ViewIsOrderly(e, results, id);
    LookupsLeftAre(e, results, order);
    StorageLeftIs(e, results, order);
    WithinMeans(o.lookupPool, e.lookupPool);
    WithinMeans(o.storagePool, e.storagePool);
    WithinMeans(LookupsLeft(e, results, order), e.lookupPool);
    WithinMeans(StorageLeft(e, results, order), e.storagePool);
    WithinMeans(LookupsLeft(e, results, order), o.lookupPool);
    WithinMeans(StorageLeft(e, results, order), o.storagePool);
    forall k | k in StorageLeft(e, results, order) ensures k in o.storagePool {
      if id in results { CommonIsWithin(StoragePools(results), order, id, k); }
    }
  }

  lemma {:induction false} CommonIsWithin<K, V>(
      pools: map<ServiceId, map<K, V>>, order: seq<ServiceId>, s: ServiceId, k: K)
    requires (forall s | s in order :: s in pools) && s in order && k in Common(pools, order)
    ensures k in pools[s]
  {
    if |order| > 1 && s != order[|order| - 1] { CommonIsWithin(pools, order[..|order| - 1], s, k); }
  }

  /** The accounts put together, with what is left of the pools. */
  function Joined(e: Context, results: Results, order: seq<ServiceId>): Context
    requires forall s | s in order :: s in results
  {
    e.(accounts := After(e.accounts, results, order), lookupPool := LookupsLeft(e, results, order),
       storagePool := StorageLeft(e, results, order))
  }

  /** A recount of what is left of a service is less by the requests it has lost. */
  lemma JoinedRecount(e: Context, results: Results, order: seq<ServiceId>, id: ServiceId, m: Measure)
    requires Books(e) && ItemsFit(e) && AllOrderly(e, results) && EachOnce(order, results.Keys)
    requires id in e.accounts && id in After(e.accounts, results, order)
    ensures var o, j := View(e, results, id), Joined(e, results, order);
      && id in o.accounts && j.accounts[id] == o.accounts[id]
      && 0 <= Recount(j, id, m) <= Recount(o, id, m)
      && (Recount(j, id, m) == Recount(o, id, m) <==> NoneLost(e, results, id))
  {
    var o, j := View(e, results, id), Joined(e, results, order);
    OwnAccountRemains(e, results, order, id);
    LeftOfView(e, results, order, id);
    WeightsPositive(o, id, m);
    PartsNonNegative(j, id, m);
    PartSum(j.storagePool, o.storagePool, PooledStorageW(id, m));
    PartSum(j.lookupPool, o.lookupPool, PooledLookupW(id, m));
    LostWeigh(e, results, o.lookupPool, j.lookupPool, id, m);
  }

  lemma LostWeigh(
      e: Context, results: Results, before: map<PoolLookupKey, Option<TimeSlots>>,
      left: map<PoolLookupKey, Option<TimeSlots>>, id: ServiceId, m: Measure)
    requires before == View(e, results, id).lookupPool
    requires forall pk | pk in before && pk.service == id :: pk in left <==> !Lost(e, results, pk)
    ensures NoneLost(e, results, id)
      <==> forall pk | pk in before && pk !in left :: PooledLookupW(id, m)(pk, before[pk]) == 0
  {
    forall pk | pk in before && pk.service == id && Lost(e, results, pk)
      ensures pk !in left && PooledLookupW(id, m)(pk, before[pk]) > 0 {}
  }

  lemma LeftIsDisjoint(e: Context, results: Results, order: seq<ServiceId>, id: ServiceId)
    requires Books(e) && ItemsFit(e) && AllOrderly(e, results) && EachOnce(order, results.Keys)
    requires id in e.accounts && id in After(e.accounts, results, order)
    ensures Disjoint(Joined(e, results, order), id)
  {
    var o, j := View(e, results, id), Joined(e, results, order);
    OwnAccountRemains(e, results, order, id);
    ViewIsOrderly(e, results, id);
    LeftOfView(e, results, order, id);
    WithinMeans(j.lookupPool, o.lookupPool);
    WithinMeans(j.storagePool, o.storagePool);
    assert Counted(o, id);
  }

  lemma SameRemainder(counter: int, count: int, part: int, n: int)
    requires n > 0 && counter == count % n && 0 <= part <= count < n
    ensures counter == part % n <==> part == count
  {}

  /** The counters of a service are right after the round exactly if it has lost no request. */
  lemma JoinedCounted(e: Context, results: Results, order: seq<ServiceId>, id: ServiceId)
    requires Books(e) && ItemsFit(e) && AllOrderly(e, results) && EachOnce(order, results.Keys)
    requires id in e.accounts && id in After(e.accounts, results, order)
    ensures Counted(Joined(e, results, order), id) <==> NoneLost(e, results, id)
  {
    var o, j := View(e, results, id), Joined(e, results, order);
    JoinedRecount(e, results, order, id, Items);
    JoinedRecount(e, results, order, id, Octets);
    ViewIsOrderly(e, results, id);
    LeftIsDisjoint(e, results, order, id);
    assert Counted(o, id);
    SameRemainder(Counter(o.accounts[id], Items), Recount(o, id, Items), Recount(j, id, Items), TWO32);
  }

  lemma PoollessRecount(c: Context, id: ServiceId, m: Measure)
    requires Poolless(c, id)
    ensures InPools(c, id, m) == 0
  {
    SumZero(c.lookupPool, PooledLookupW(id, m));
    SumZero(c.storagePool, PooledStorageW(id, m));
  }

  /** Pools that come from those of e hold nothing for a service that e does not have. */
  lemma NothingForNewcomers(e: Context, c: Context, id: ServiceId)
    requires Books(e) && id !in e.accounts
    requires Within(c.lookupPool, e.lookupPool) && Within(c.storagePool, e.storagePool)
    ensures Poolless(c, id)
  {
    WithinMeans(c.lookupPool, e.lookupPool);
    WithinMeans(c.storagePool, e.storagePool);
  }

  lemma PoollessCounted(c: Context, d: Context, id: ServiceId)
    requires Poolless(c, id) && Poolless(d, id) && Counted(c, id)
    requires id in d.accounts && d.accounts[id] == c.accounts[id]
    ensures Counted(d, id)
  {
    PoollessRecount(c, id, Items);
    PoollessRecount(c, id, Octets);
    PoollessRecount(d, id, Items);
    PoollessRecount(d, id, Octets);
  }

  /** The counters of services created in the round are right. */
  lemma NewcomerCounted(e: Context, results: Results, order: seq<ServiceId>, id: ServiceId)
    requires Books(e) && AllOrderly(e, results) && EachOnce(order, results.Keys)
    requires id !in e.accounts && id in After(e.accounts, results, order)
    ensures Counted(Joined(e, results, order), id)
  {
    var s := AddedBy(e.accounts, OutsOf(results), order, id);
    assert Orderly(e, s, results[s].context);
    LookupsLeftAre(e, results, order);
    StorageLeftIs(e, results, order);
    NothingForNewcomers(e, results[s].context, id);
    NothingForNewcomers(e, Joined(e, results, order), id);
    PoollessCounted(results[s].context, Joined(e, results, order), id);
  }

  /** A pooled entry is of a service that is there. */
  lemma OwnersRemain(e: Context, results: Results, order: seq<ServiceId>)
    requires Books(e) && AllOrderly(e, results) && EachOnce(order, results.Keys)
    ensures var j := Joined(e, results, order);
      && (forall pk | pk in j.lookupPool :: pk.service in j.accounts)
      && (forall sk | sk in j.storagePool :: sk.service in j.accounts)
  {
    var j := Joined(e, results, order);
    LookupsLeftAre(e, results, order);
    StorageLeftIs(e, results, order);
    WithinMeans(j.lookupPool, e.lookupPool);
    WithinMeans(j.storagePool, e.storagePool);
    forall s, pk | s in results && pk in j.lookupPool ensures pk.service in OutsOf(results)[s] {
      assert StillPooled(results, pk) && Orderly(e, s, results[s].context);
    }
    forall s, sk | s in results && sk in j.storagePool ensures sk.service in OutsOf(results)[s] {
      CommonIsWithin(StoragePools(results), order, s, sk);
      assert Orderly(e, s, results[s].context);
    }
  }

  /** The counters of an account are right after the round exactly if its service has lost no request. */
  lemma NextCounted(
      e: Context, results: Results, order: seq<ServiceId>, hash: Bytes -> Bytes, slot: u32, blobs: seq<Blob>,
      e': Context, id: ServiceId)
    requires Books(e) && ItemsFit(e) && AllOrderly(e, results) && EachOnce(order, results.Keys)
    requires Leads(e, results, order, hash, slot, blobs, e') && id in e'.accounts
    ensures Counted(e', id) <==> (id in e.accounts ==> NoneLost(e, results, id))
  {
    var j := Joined(e, results, order);
    SuppliedShape(j.accounts, hash, slot, blobs);
    ShapeKeepsCounted(j, e'.accounts, id);
    SamePools(j.(accounts := e'.accounts), e', id);
    if id in e.accounts { JoinedCounted(e, results, order, id); } else { NewcomerCounted(e, results, order, id); }
  }

  /** Exactly if no service that remains has lost a request, the books of all accounts are right after the round. */
  lemma RoundKeepsBooks(
      e: Context, results: Results, order: seq<ServiceId>, hash: Bytes -> Bytes, slot: u32, blobs: seq<Blob>,
      e': Context)
    requires Books(e) && ItemsFit(e) && AllOrderly(e, results) && EachOnce(order, results.Keys)
    requires Leads(e, results, order, hash, slot, blobs, e')
    ensures Books(e') <==> forall id | id in e.accounts && id in e'.accounts :: NoneLost(e, results, id)
  {
    SuppliedShape(After(e.accounts, results, order), hash, slot, blobs);
    OwnersRemain(e, results, order);
    forall id | id in e'.accounts ensures Counted(e', id) <==> (id in e.accounts ==> NoneLost(e, results, id)) {
      NextCounted(e, results, order, hash, slot, blobs, e', id);
    }
  }

  lemma SamePools(c: Context, d: Context, id: ServiceId)
    requires d.accounts == c.accounts && d.lookupPool == c.lookupPool && d.storagePool == c.storagePool
    ensures Counted(c, id) <==> Counted(d, id)
  {
    if id in c.accounts {
      assert Recount(d, id, Items) == Recount(c, id, Items) && Recount(d, id, Octets) == Recount(c, id, Octets);
    }
  }

  /** An open request for a preimage, in the account or pooled. */
  predicate Requested(c: Context, id: ServiceId, key: LookupKey)
  {
    || (id in c.accounts && key in c.accounts[id].lookup && c.accounts[id].lookup[key] == [])
    || (PoolLookupKey(id, key) in c.lookupPool && c.lookupPool[PoolLookupKey(id, key)] == Some([]))
  }

  /** The request was answered in this slot. */
  predicate Answered(c: Context, id: ServiceId, key: LookupKey, slot: u32)
  {
    id in c.accounts && key in c.accounts[id].lookup && c.accounts[id].lookup[key] == [slot]
  }

  /**
   * A preimage is provided while the request for it is open in the view of its own service. It is integrated exactly if
   * the request is not pooled any more in that view; else request and preimage are lost, and the books are wrong.
   */
  lemma ProvidedIsAnswered(
      e: Context, results: Results, order: seq<ServiceId>, hash: Bytes -> Bytes, slot: u32, blobs: seq<Blob>,
      e': Context, s: ServiceId, b: Blob)
    requires Books(e) && ItemsFit(e) && AllOrderly(e, results) && EachOnce(order, results.Keys)
    requires Leads(e, results, order, hash, slot, blobs, e')
    requires s in results && TakesWhatItProvides(hash, results[s]) && b in results[s].blobs.Values && b in blobs
    requires b.service in e.accounts && b.service in e'.accounts
    requires Requested(View(e, results, b.service), b.service, KeyOfBlob(hash, b))
    ensures var id, key := b.service, KeyOfBlob(hash, b);
      && (Answered(e', id, key, slot) <==> PoolLookupKey(id, key) !in View(e, results, id).lookupPool)
      && (Answered(e', id, key, slot) <==> !Lost(e, results, PoolLookupKey(id, key)))
      && (!Answered(e', id, key, slot) ==>
            key !in e'.accounts[id].lookup && PoolLookupKey(id, key) !in e'.lookupPool && !Books(e'))
  {
    var id, key, o, pk := b.service, KeyOfBlob(hash, b), View(e, results, b.service), PoolKeyOf(hash, b);
    assert pk !in results[s].context.lookupPool;
    OwnRequest(e, results, order, hash, slot, blobs, e', b);
    if pk in o.lookupPool {
      LeftOfView(e, results, order, id);
      RoundKeepsBooks(e, results, order, hash, slot, blobs, e');
    }
  }

  lemma OwnRequest(
      e: Context, results: Results, order: seq<ServiceId>, hash: Bytes -> Bytes, slot: u32, blobs: seq<Blob>,
      e': Context, b: Blob)
    requires Books(e) && ItemsFit(e) && AllOrderly(e, results) && EachOnce(order, results.Keys)
    requires Leads(e, results, order, hash, slot, blobs, e')
    requires b in blobs && b.service in e.accounts && b.service in e'.accounts
    requires Requested(View(e, results, b.service), b.service, KeyOfBlob(hash, b))
    ensures var id, key := b.service, KeyOfBlob(hash, b);
      if PoolLookupKey(id, key) in View(e, results, id).lookupPool then key !in e'.accounts[id].lookup
      else Answered(e', id, key, slot)
  {
    var id, key, o := b.service, KeyOfBlob(hash, b), View(e, results, b.service);
    var d := After(e.accounts, results, order);
    SuppliedShape(d, hash, slot, blobs);
    OwnAccountRemains(e, results, order, id);
    ViewIsOrderly(e, results, id);
    assert Counted(o, id) && SameAccount(d[id], e'.accounts[id]);
    if PoolLookupKey(id, key) !in o.lookupPool {
      assert Answers(hash, b, id, key);
      SuppliedSlots(d, hash, slot, blobs, id, key);
    }
  }

  /** An account whose one request, for a preimage of its own choice, is pooled. */
  function Waiting(key: LookupKey): Account { NewAccount(1, key.hash, key.length, 0, 0, 0).(lookup := map[]) }

  /** A state in which service 2 waits for a preimage, and service 1 is there too. */
  function WaitingState(key: LookupKey, other: Account): Context
  {
    Context(1, map[1 := other, 2 := Waiting(key)], Privileges(1, [], 1, 1, map[]), MIN_SERVICE_INDEX, [], None, map[],
            map[], map[PoolLookupKey(2, key) := Some([])])
  }

  /** If one service takes part and leaves its account as it is, and all others in place, all accounts are as before. */
  lemma AloneUnchanged(d: Dict, s: ServiceId, r: Result)
    requires s in d && r.context.accounts.Keys == d.Keys && r.context.accounts[s] == d[s]
    ensures After(d, map[s := r], [s]) == d
  {
    var outs := OutsOf(map[s := r]);
    assert [s][..0] == [];
    assert Added(d, outs, [s]) == Contribution(d, s, outs[s]);
    assert Removed(d, outs) == {};
  }

  lemma WaitingIsCounted(key: LookupKey, other: Account)
    ensures Counted(WaitingState(key, other), 2) && !Counted(WaitingState(key, other).(lookupPool := map[]), 2)
  {
    var none: map<PoolLookupKey, Option<TimeSlots>> := map[];
    SumPut(none, PooledLookupW(2, Items), PoolLookupKey(2, key), Some([]));
    SumPut(none, PooledLookupW(2, Octets), PoolLookupKey(2, key), Some([]));
  }

  /**
   * Service 1 provides the preimage that service 2 waits for, and succeeds. After the round the request is neither in
   * the account nor pooled, there is no preimage, and service 2 is charged for a request that it does not have.
   */
  lemma ProvidedToAnother(setting: Setting, hash: Bytes -> Bytes, blobId: Bytes, data: Bytes, other: Account)
      returns (e: Context, c: Context, e': Context)
    ensures e == WaitingState(KeyOfBlob(hash, Blob(2, data)), other)
    ensures Apply(setting, e, CallProvide(2, KeyOfBlob(hash, Blob(2, data)), blobId, data)) == (Value(OK), c)
    ensures c.blobs == map[blobId := Blob(2, data)]
    ensures Leads(e, map[1 := Result(c, None, 10, c.blobs)], [1], hash, setting.slot, [Blob(2, data)], e')
    ensures e'.accounts == e.accounts && e'.lookupPool == map[] && Counted(e, 2) && !Counted(e', 2)
  {
    var b := Blob(2, data);
    e := WaitingState(KeyOfBlob(hash, b), other);
    c := Apply(setting, e, CallProvide(2, KeyOfBlob(hash, b), blobId, data)).1;
    e' := e.(lookupPool := map[]);
    AloneUnchanged(e.accounts, 1, Result(c, None, 10, c.blobs));
    WaitingIsCounted(KeyOfBlob(hash, b), other);
    assert [b][..0] == [];
    assert !Wanted(e.accounts, hash, b);
  }
}
