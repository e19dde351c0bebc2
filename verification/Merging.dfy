/**
 * Putting together what the services of a round have done, each to its own copy of the accounts and of the pool of
 * unmatched entries. Services are visited in no particular order.
 */
module Merging {
  import opened Words
  import opened Accounts
  import opened Sums

  type Dict = map<ServiceId, Account>

  /** What each service made of the accounts. */
  type Outcomes = map<ServiceId, Dict>

  /** A service contributes its own account, and accounts that were not there before. */
  predicate Contributes(d: Dict, s: ServiceId, own: Dict, key: ServiceId)
  {
    key in own && (key == s || key !in d)
  }

  function Contribution(d: Dict, s: ServiceId, own: Dict): Dict
  {
    map key | key in own && Contributes(d, s, own, key) :: own[key]
  }

  /** All contributions; a later one replaces an earlier one. */
  function Added(d: Dict, outs: Outcomes, order: seq<ServiceId>): Dict
    requires forall s | s in order :: s in outs
  {
    if order == [] then map[]
    else
      var s := order[|order| - 1];
      Added(d, outs, order[..|order| - 1]) + Contribution(d, s, outs[s])
  }

  /** The accounts that some service removed. */
  function Removed(d: Dict, outs: Outcomes): set<ServiceId>
  {
    set key, s | s in outs && key in d && key !in outs[s] :: key
  }

  function Merged(d: Dict, outs: Outcomes, order: seq<ServiceId>): Dict
    requires forall s | s in order :: s in outs
  {
    (d + Added(d, outs, order)) - Removed(d, outs)
  }

  /** All who contribute an account that is not removed contribute the same. */
  ghost predicate Agreeing(d: Dict, outs: Outcomes)
  {
    forall key, s, s' | s in outs && s' in outs && Contributes(d, s, outs[s], key) && Contributes(d, s', outs[s'], key)
      && key !in Removed(d, outs) :: outs[s][key] == outs[s'][key]
  }

  lemma {:induction false} AddedBy(d: Dict, outs: Outcomes, order: seq<ServiceId>, key: ServiceId)
        returns (s: ServiceId)
    requires forall s | s in order :: s in outs
    requires key in Added(d, outs, order)
    ensures s in order && Contributes(d, s, outs[s], key) && Added(d, outs, order)[key] == outs[s][key]
  {
    var last := order[|order| - 1];
    if Contributes(d, last, outs[last], key) { s := last; } else { s := AddedBy(d, outs, order[..|order| - 1], key); }
  }

  lemma {:induction false} AddedHas(d: Dict, outs: Outcomes, order: seq<ServiceId>, s: ServiceId, key: ServiceId)
    requires forall s | s in order :: s in outs
    requires s in order && Contributes(d, s, outs[s], key)
    ensures key in Added(d, outs, order)
  {
    var init := order[..|order| - 1];
    if s in init { AddedHas(d, outs, init, s, key); }
  }

  /** If contributors agree, every order of visits gives the same accounts. */
  lemma MergedInAnyOrder(d: Dict, outs: Outcomes, o: seq<ServiceId>, o': seq<ServiceId>)
    requires EachOnce(o, outs.Keys) && EachOnce(o', outs.Keys) && Agreeing(d, outs)
    ensures Merged(d, outs, o) == Merged(d, outs, o')
  {
    MergedWithin(d, outs, o, o');
    MergedWithin(d, outs, o', o);
  }

  lemma MergedWithin(d: Dict, outs: Outcomes, o: seq<ServiceId>, o': seq<ServiceId>)
    requires EachOnce(o, outs.Keys) && EachOnce(o', outs.Keys) && Agreeing(d, outs)
    ensures forall key | key in Merged(d, outs, o) ::
      key in Merged(d, outs, o') && Merged(d, outs, o')[key] == Merged(d, outs, o)[key]
  {
    forall key | key in Merged(d, outs, o)
      ensures key in Merged(d, outs, o') && Merged(d, outs, o')[key] == Merged(d, outs, o)[key]
    {
      if key in Added(d, outs, o) {
        var s := AddedBy(d, outs, o, key);
        AddedHas(d, outs, o', s, key);
        var s' := AddedBy(d, outs, o', key);
      } else if key in Added(d, outs, o') {
        var s' := AddedBy(d, outs, o', key);
        AddedHas(d, outs, o, s', key);
      }
    }
  }

  /** An order with a given service last. */
  lemma Last(outs: Outcomes, o: seq<ServiceId>, s: ServiceId) returns (o': seq<ServiceId>)
    requires EachOnce(o, outs.Keys) && s in outs
    ensures EachOnce(o', outs.Keys) && o'[|o'| - 1] == s
  {
    var i :| 0 <= i < |o| && o[i] == s;
    o' := o[..i] + o[i + 1..] + [s];
    forall x ensures x in o' <==> x in outs {
      if x in o {
        var j :| 0 <= j < |o| && o[j] == x;
        if j < i { assert o'[j] == x; } else if j > i { assert o'[j - 1] == x; } else { assert o'[|o'| - 1] == x; }
      }
    }
  }

  /** If they do not agree, there are orders that give different accounts. */
  lemma DisagreementShows(d: Dict, outs: Outcomes, o: seq<ServiceId>) returns (o1: seq<ServiceId>, o2: seq<ServiceId>)
    requires EachOnce(o, outs.Keys) && !Agreeing(d, outs)
    ensures EachOnce(o1, outs.Keys) && EachOnce(o2, outs.Keys) && Merged(d, outs, o1) != Merged(d, outs, o2)
  {
    var key, s, s' :| s in outs && s' in outs && Contributes(d, s, outs[s], key) && Contributes(d, s', outs[s'], key)
      && key !in Removed(d, outs) && outs[s][key] != outs[s'][key];
    o1 := Last(outs, o, s);
    o2 := Last(outs, o, s');
    assert Merged(d, outs, o1)[key] == outs[s][key];
    assert Merged(d, outs, o2)[key] == outs[s'][key];
  }

  /**
   * If no two services create an account of the same identifier, and none creates one for a service of the round,
   * they agree.
   */
  lemma DistinctNewAgree(d: Dict, outs: Outcomes)
    requires forall key, s, s' | s in outs && s' in outs && s != s' && key !in d && key in outs[s] :: key !in outs[s']
    requires forall s | s in outs && s !in d :: s !in outs[s]
    ensures Agreeing(d, outs)
  {}

  /** Which entries survive: those no service removed; as all copies come from one pool, they keep their values. */
  function Common<K, V>(pools: map<ServiceId, map<K, V>>, order: seq<ServiceId>): map<K, V>
    requires forall s | s in order :: s in pools
  {
    if order == [] then map[]
    else if |order| == 1 then pools[order[0]]
    else
      var last := pools[order[|order| - 1]];
      map k | k in last && k in Common(pools, order[..|order| - 1]) :: last[k]
  }

  lemma {:induction false} CommonHas<K, V>(original: map<K, V>, pools: map<ServiceId, map<K, V>>, order: seq<ServiceId>)
    requires order != [] && forall s | s in order :: s in pools && pools[s].Items <= original.Items
    ensures forall k :: k in Common(pools, order) <==> forall s | s in order :: k in pools[s]
    ensures Common(pools, order).Items <= original.Items
  {
    if |order| > 1 {
      var init, s := order[..|order| - 1], order[|order| - 1];
      assert order == init + [s];
      CommonHas(original, pools, init);
      forall k | k in Common(pools, order) ensures (k, Common(pools, order)[k]) in original.Items {
        assert (k, pools[s][k]) in pools[s].Items;
      }
    }
  }

  /** The surviving pool is the same in every order. */
  lemma PoolInAnyOrder<K, V>(original: map<K, V>, pools: map<ServiceId, map<K, V>>, o: seq<ServiceId>,
        o': seq<ServiceId>)
    requires o != [] && o' != [] && (forall s :: s in o <==> s in o')
    requires forall s | s in o :: s in pools && pools[s].Items <= original.Items
    ensures Common(pools, o) == Common(pools, o')
  {
    CommonHas(original, pools, o);
    CommonHas(original, pools, o');
    var c, c' := Common(pools, o), Common(pools, o');
    forall k | k in c ensures k in c' && c[k] == c'[k] {
      assert (k, c[k]) in c.Items && (k, c'[k]) in c'.Items;
      assert (k, c[k]) in original.Items && (k, c'[k]) in original.Items;
    }
  }

  /** The merge as two maps filled while visiting the services. */
  method MergeAccounts(d: Dict, outs: Outcomes, order: seq<ServiceId>) returns (merged: Dict)
    requires EachOnce(order, outs.Keys)
    ensures merged == Merged(d, outs, order)
  {
    var n: Dict, m: set<ServiceId> := map[], {};
    for i := 0 to |order|
      invariant n == Added(d, outs, order[..i]) && m == RemovedBy(d, outs, order[..i])
    {
      var s := order[i];
      assert order[..i + 1][..i] == order[..i];
      n := AddContribution(n, d, s, outs[s]);
      var gone := MissingKeys(d, outs[s]);
      m := m + gone;
    }
    assert order[..|order|] == order;
    RemovedByAll(d, outs, order);
    merged := (d + n) - m;
  }

  function RemovedBy(d: Dict, outs: Outcomes, order: seq<ServiceId>): set<ServiceId>
    requires forall s | s in order :: s in outs
  {
    if order == [] then {}
    else
      var s := order[|order| - 1];
      RemovedBy(d, outs, order[..|order| - 1]) + set key | key in d && key !in outs[s]
  }

  lemma {:induction false} RemovedHas(d: Dict, outs: Outcomes, order: seq<ServiceId>, key: ServiceId)
    requires forall s | s in order :: s in outs
    ensures key in RemovedBy(d, outs, order) <==> key in d && exists s | s in order :: key !in outs[s]
  {
    if order != [] {
      var init, s := order[..|order| - 1], order[|order| - 1];
      assert order == init + [s];
      RemovedHas(d, outs, init, key);
    }
  }

  lemma RemovedByAll(d: Dict, outs: Outcomes, order: seq<ServiceId>)
    requires EachOnce(order, outs.Keys)
    ensures RemovedBy(d, outs, order) == Removed(d, outs)
  {
    forall key ensures key in RemovedBy(d, outs, order) <==> key in Removed(d, outs) {
      RemovedHas(d, outs, order, key);
    }
  }

  method AddContribution(n: Dict, d: Dict, s: ServiceId, own: Dict) returns (n': Dict)
    ensures n' == n + Contribution(d, s, own)
  {
    n' := n;
    var keys := own.Keys;
    while keys != {}
      invariant keys <= own.Keys
      invariant n' == n + map key | key in own && key !in keys && Contributes(d, s, own, key) :: own[key]
    {
      var key :| key in keys;
      if key == s || key !in d { n' := n'[key := own[key]]; }
      keys := keys - {key};
    }
  }

  method MissingKeys(d: Dict, own: Dict) returns (gone: set<ServiceId>)
    ensures gone == set key | key in d && key !in own
  {
    gone := {};
    var keys := d.Keys;
    while keys != {}
      invariant keys <= d.Keys && gone == set key | key in d && key !in keys && key !in own
    {
      var key :| key in keys;
      if key !in own { gone := gone + {key}; }
      keys := keys - {key};
    }
  }

  /** How many of these pools have an entry. */
  function Count<K, V>(pools: map<ServiceId, map<K, V>>, order: seq<ServiceId>, k: K): nat
    requires forall s | s in order :: s in pools
  {
    if order == [] then 0
    else Count(pools, order[..|order| - 1], k) + if k in pools[order[|order| - 1]] then 1 else 0
  }

  lemma {:induction false} CountAll<K, V>(pools: map<ServiceId, map<K, V>>, order: seq<ServiceId>, k: K)
    requires forall s | s in order :: s in pools
    ensures Count(pools, order, k) <= |order|
    ensures order != [] ==> (Count(pools, order, k) == |order| <==> k in Common(pools, order))
  {
    if order != [] { CountAll(pools, order[..|order| - 1], k); }
  }

  ghost predicate Counts<K(!new), V>(pools: map<ServiceId, map<K, V>>, order: seq<ServiceId>, counts: map<K, nat>)
    requires forall s | s in order :: s in pools
  {
    forall k :: CountedRight(pools, order, counts, k)
  }

  ghost predicate CountedRight<K, V>(pools: map<ServiceId, map<K, V>>, order: seq<ServiceId>, counts: map<K, nat>, k: K)
    requires forall s | s in order :: s in pools
  {
    Count(pools, order, k) == if k in counts then counts[k] else 0
  }

  /** The intersection as it is found by counting. */
  method CommonByCounting<K(==, !new), V>(pools: map<ServiceId, map<K, V>>, order: seq<ServiceId>)
        returns (common: map<K, V>)
    requires order != [] && forall s | s in order :: s in pools
    ensures common == Common(pools, order)
  {
    var counts: map<K, nat>, values: map<K, V> := map[], map[];
    for i := 0 to |order|
      invariant Counts(pools, order[..i], counts)
      invariant counts.Keys == values.Keys
      invariant i > 0 ==> forall k | k in pools[order[i - 1]] :: k in values && values[k] == pools[order[i - 1]][k]
    {
      var now := order[..i + 1];
      assert now[..|now| - 1] == order[..i] && now[|now| - 1] == order[i];
      ghost var before := counts;
      counts, values := CountPool(counts, values, pools[order[i]]);
      forall k ensures CountedRight(pools, now, counts, k) {
        assert CountedRight(pools, order[..i], before, k);
      }
    }
    assert order[..|order|] == order;
    var last := pools[order[|order| - 1]];
    forall k ensures k in counts && counts[k] == |order| <==> k in Common(pools, order) {
      assert CountedRight(pools, order, counts, k);
      CountAll(pools, order, k);
    }
    common := map k | k in counts && counts[k] == |order| :: values[k];
  }

  method CountPool<K(==), V>(counts: map<K, nat>, values: map<K, V>, pool: map<K, V>)
        returns (counts': map<K, nat>, values': map<K, V>)
    requires counts.Keys == values.Keys
    ensures counts'.Keys == values'.Keys == counts.Keys + pool.Keys
    ensures forall k | k in counts' ::
      counts'[k] == (if k in counts then counts[k] else 0) + if k in pool then 1 else 0
    ensures forall k | k in pool :: values'[k] == pool[k]
  {
    counts', values' := counts, values;
    var keys := pool.Keys;
    while keys != {}
      invariant keys <= pool.Keys && counts'.Keys == values'.Keys == counts.Keys + (pool.Keys - keys)
      invariant forall k | k in counts' ::
        counts'[k] == (if k in counts then counts[k] else 0) + if k in pool && k !in keys then 1 else 0
      invariant forall k | k in pool && k !in keys :: values'[k] == pool[k]
    {
      var k :| k in keys;
      counts' := counts'[k := (if k in counts' then counts'[k] else 0) + 1];
      values' := values'[k := pool[k]];
      keys := keys - {k};
    }
  }
}
