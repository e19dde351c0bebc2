/**
 * Services of a round are visited in no particular order, and what they list comes in no particular order. What a block
 * makes of its reports does not depend on it, as long as services do not disagree about a new account.
 */
module VisitOrder {
  import opened Words
  import opened Sums
  import opened Accounts
  import opened Ledger
  import opened Accumulate
  import opened Scheduler
  import opened OuterAccumulation
  import Rounds
  import Preimages
  import opened Merging
  import opened Settlement
  import opened RoundSoundness
  import opened Pools
  import opened Provision
  import opened BlockSoundness

  /** Where the preimage of a hash may come from. */
  ghost predicate Kept(d: Dict, hash: Bytes -> Bytes, blobs: seq<Blob>, id: ServiceId, h: Bytes, data: Bytes)
    requires id in d
  {
    || (Blob(id, data) in blobs && hash(data) == h && Wanted(d, hash, Blob(id, data)))
    || (h in d[id].preimages && d[id].preimages[h] == data)
  }

  /** A blob's data is integrated. */
  ghost predicate Integrated(d': Dict, hash: Bytes -> Bytes, b: Blob)
  {
    b.service in d' && hash(b.data) in d'[b.service].preimages && d'[b.service].preimages[hash(b.data)] == b.data
  }

  /** All wanted blobs are integrated, and every preimage is one of those or was there. */
  ghost predicate PreimagesAfter(d: Dict, hash: Bytes -> Bytes, blobs: seq<Blob>, d': Dict)
    requires d'.Keys == d.Keys
  {
    && (forall b | b in blobs && Wanted(d, hash, b) :: Integrated(d', hash, b))
    && (forall id, h | id in d && h in d'[id].preimages :: Kept(d, hash, blobs, id, h, d'[id].preimages[h]))
    && (forall id, h | id in d && h in d[id].preimages :: h in d'[id].preimages)
  }

  lemma {:induction false} SuppliedPreimages(d: Dict, hash: Bytes -> Bytes, slot: u32, blobs: seq<Blob>)
    requires Preimages.Injective(hash)
    ensures Supplied(d, hash, slot, blobs).Keys == d.Keys
    ensures PreimagesAfter(d, hash, blobs, Supplied(d, hash, slot, blobs))
  {
    SuppliedShape(d, hash, slot, blobs);
    if blobs != [] {
      var init, b := blobs[..|blobs| - 1], blobs[|blobs| - 1];
      assert blobs == init + [b];
      SuppliedPreimages(d, hash, slot, init);
      OneMorePreimage(d, hash, slot, init, b);
    }
  }

  lemma OneMorePreimage(d: Dict, hash: Bytes -> Bytes, slot: u32, init: seq<Blob>, b: Blob)
    requires Preimages.Injective(hash) && Supplied(d, hash, slot, init).Keys == d.Keys
    requires PreimagesAfter(d, hash, init, Supplied(d, hash, slot, init))
    ensures SupplyOne(Supplied(d, hash, slot, init), hash, slot, b).Keys == d.Keys
    ensures PreimagesAfter(d, hash, init + [b], SupplyOne(Supplied(d, hash, slot, init), hash, slot, b))
  {
    var d1 := Supplied(d, hash, slot, init);
    WantedBefore(d, hash, slot, init, b);
    if Wanted(d, hash, b) && !Wanted(d1, hash, b) {
      AnsweredBefore(d, hash, slot, init, b);
      assert Integrated(d1, hash, b);
    }
    OneMore(d, d1, hash, slot, init, b);
  }

  /** Supplying never opens a request. */
  lemma WantedBefore(d: Dict, hash: Bytes -> Bytes, slot: u32, init: seq<Blob>, b: Blob)
    ensures Wanted(Supplied(d, hash, slot, init), hash, b) ==> Wanted(d, hash, b)
  {
    SuppliedShape(d, hash, slot, init);
    if b.service in d && KeyOfBlob(hash, b) in d[b.service].lookup {
      SuppliedSlots(d, hash, slot, init, b.service, KeyOfBlob(hash, b));
    }
  }

  lemma OneMore(d: Dict, d1: Dict, hash: Bytes -> Bytes, slot: u32, init: seq<Blob>, b: Blob)
    requires Preimages.Injective(hash) && d1.Keys == d.Keys && PreimagesAfter(d, hash, init, d1)
    requires Wanted(d1, hash, b) ==> Wanted(d, hash, b)
    requires Wanted(d, hash, b) && !Wanted(d1, hash, b) ==> Integrated(d1, hash, b)
    ensures SupplyOne(d1, hash, slot, b).Keys == d.Keys
    ensures PreimagesAfter(d, hash, init + [b], SupplyOne(d1, hash, slot, b))
  {}

  /** If a request is not open any more, the same blob was there before. */
  lemma AnsweredBefore(d: Dict, hash: Bytes -> Bytes, slot: u32, init: seq<Blob>, b: Blob)
    requires Preimages.Injective(hash) && Wanted(d, hash, b) && !Wanted(Supplied(d, hash, slot, init), hash, b)
    ensures b in init
  {
    var id, key := b.service, KeyOfBlob(hash, b);
    SuppliedSlots(d, hash, slot, init, id, key);
    var x :| x in init && Answers(hash, x, id, key);
    assert x == b;
  }

  ghost predicate SameBlobs(blobs: seq<Blob>, blobs': seq<Blob>) { forall b :: b in blobs <==> b in blobs' }

  lemma SameSupplies(hash: Bytes -> Bytes, blobs: seq<Blob>, blobs': seq<Blob>, id: ServiceId, key: LookupKey)
    requires SameBlobs(blobs, blobs')
    ensures Supplies(hash, blobs, id, key) ==> Supplies(hash, blobs', id, key)
  {
    if Supplies(hash, blobs, id, key) {
      var b :| b in blobs && Answers(hash, b, id, key);
      assert b in blobs';
    }
  }

  lemma SameSlots(d: Dict, hash: Bytes -> Bytes, slot: u32, blobs: seq<Blob>, blobs': seq<Blob>, id: ServiceId)
    requires SameBlobs(blobs, blobs') && id in d
    ensures var x, y := Supplied(d, hash, slot, blobs), Supplied(d, hash, slot, blobs');
      id in x && id in y && SameAccount(x[id], y[id]) && x[id].lookup == y[id].lookup
  {
    var x, y := Supplied(d, hash, slot, blobs), Supplied(d, hash, slot, blobs');
    SuppliedShape(d, hash, slot, blobs);
    SuppliedShape(d, hash, slot, blobs');
    assert SameAccount(d[id], x[id]) && SameAccount(d[id], y[id]);
    forall key | key in d[id].lookup ensures x[id].lookup[key] == y[id].lookup[key] {
      SuppliedSlots(d, hash, slot, blobs, id, key);
      SuppliedSlots(d, hash, slot, blobs', id, key);
      SameSupplies(hash, blobs, blobs', id, key);
      SameSupplies(hash, blobs', blobs, id, key);
    }
  }

  /** What one order has integrated, so has the other. */
  lemma SamePreimages(
      d: Dict, hash: Bytes -> Bytes, blobs: seq<Blob>, blobs': seq<Blob>, x: Dict, y: Dict, id: ServiceId)
    requires Preimages.Injective(hash) && SameBlobs(blobs, blobs') && x.Keys == y.Keys == d.Keys && id in d
    requires PreimagesAfter(d, hash, blobs, x) && PreimagesAfter(d, hash, blobs', y)
    ensures forall h | h in x[id].preimages :: h in y[id].preimages && y[id].preimages[h] == x[id].preimages[h]
  {
    forall h | h in x[id].preimages ensures h in y[id].preimages && y[id].preimages[h] == x[id].preimages[h] {
      var data := x[id].preimages[h];
      assert Kept(d, hash, blobs, id, h, data);
      assert h in y[id].preimages;
      var data' := y[id].preimages[h];
      assert Kept(d, hash, blobs', id, h, data');
      if Blob(id, data') in blobs' && Wanted(d, hash, Blob(id, data')) && hash(data') == h {
        assert Integrated(x, hash, Blob(id, data'));
      }
    }
  }

  /** Blobs may be supplied in any order, and any number of times. */
  lemma SuppliedInAnyOrder(d: Dict, hash: Bytes -> Bytes, slot: u32, blobs: seq<Blob>, blobs': seq<Blob>)
    requires Preimages.Injective(hash) && SameBlobs(blobs, blobs')
    ensures Supplied(d, hash, slot, blobs) == Supplied(d, hash, slot, blobs')
  {
    var x, y := Supplied(d, hash, slot, blobs), Supplied(d, hash, slot, blobs');
    SuppliedPreimages(d, hash, slot, blobs);
    SuppliedPreimages(d, hash, slot, blobs');
    forall id | id in d ensures x[id] == y[id] {
      SameSlots(d, hash, slot, blobs, blobs', id);
      SamePreimages(d, hash, blobs, blobs', x, y, id);
      SamePreimages(d, hash, blobs', blobs, y, x, id);
      assert x[id].preimages == y[id].preimages;
    }
  }

  /** The blobs of all services, whatever the order of visits. */
  lemma {:induction false} BlobsListed(n: Node, results: Results, order: seq<ServiceId>, b: Blob)
    requires GoodNode(n) && forall s | s in order :: s in results
    ensures b in BlobsOf(n, results, order) <==> exists s :: s in order && b in results[s].blobs.Values
  {
    if order != [] {
      var init, s := order[..|order| - 1], order[|order| - 1];
      assert order == init + [s];
      BlobsListed(n, results, init, b);
      assert b in n.list(results[s].blobs) <==> b in results[s].blobs.Values;
    }
  }

  lemma {:induction false} SentInAnyOrder(results: Results, o: seq<ServiceId>, o': seq<ServiceId>)
    requires (forall s | s in o :: s in results) && multiset(o) == multiset(o')
    ensures forall s | s in o' :: s in results
    ensures multiset(Outbox(results, o)) == multiset(Outbox(results, o'))
    ensures multiset(UsedList(results, o)) == multiset(UsedList(results, o'))
    decreases |o|
  {
    forall s | s in o' ensures s in results { assert s in multiset(o); }
    if o == [] {
      assert |multiset(o')| == 0;
    } else {
      var last := |o| - 1;
      assert o[last] in multiset(o');
      var i :| 0 <= i < |o'| && o'[i] == o[last];
      OutboxWithout(results, o, last);
      OutboxWithout(results, o', i);
      SameRest(multiset(LeaveOut(o, last)), multiset(LeaveOut(o', i)), o[last]);
      SentInAnyOrder(results, LeaveOut(o, last), LeaveOut(o', i));
    }
  }

  lemma {:induction false} OutboxConcat(results: Results, o: seq<ServiceId>, p: seq<ServiceId>)
    requires forall s | s in o + p :: s in results
    ensures Outbox(results, o + p) == Outbox(results, o) + Outbox(results, p)
    ensures UsedList(results, o + p) == UsedList(results, o) + UsedList(results, p)
  {
    if p == [] {
      assert o + p == o;
    } else {
      var init := p[..|p| - 1];
      assert (o + p)[..|o + p| - 1] == o + init;
      OutboxConcat(results, o, init);
    }
  }

  lemma MiddleOut<T>(a: seq<T>, x: seq<T>, b: seq<T>)
    ensures multiset(a + x + b) == multiset(a + b) + multiset(x)
  {}

  lemma OutboxWithout(results: Results, o: seq<ServiceId>, i: nat)
    requires i < |o| && forall s | s in o :: s in results
    ensures multiset(o) == multiset(LeaveOut(o, i)) + multiset{o[i]}
    ensures multiset(Outbox(results, o))
      == multiset(Outbox(results, LeaveOut(o, i))) + multiset(Outbox(results, [o[i]]))
    ensures multiset(UsedList(results, o))
      == multiset(UsedList(results, LeaveOut(o, i))) + multiset(UsedList(results, [o[i]]))
  {
    var a, x, b := o[..i], [o[i]], o[i + 1..];
    LeavingOut(o, i);
    assert o == a + x + b;
    OutboxConcat(results, a + x, b);
    OutboxConcat(results, a, x);
    OutboxConcat(results, a, b);
    MiddleOut(Outbox(results, a), Outbox(results, x), Outbox(results, b));
    MiddleOut(UsedList(results, a), UsedList(results, x), UsedList(results, b));
  }

  /** Which transfers are delivered does not depend on the order either. */
  lemma {:induction false} DeliveredCount(d: Dict, t: seq<Transfer>, x: Transfer)
    ensures multiset(Delivered(d, t))[x] == if x.sender in d && x.receiver in d then multiset(t)[x] else 0
  {
    if t != [] {
      var init, last := t[..|t| - 1], t[|t| - 1];
      assert t == init + [last];
      DeliveredCount(d, init, x);
    }
  }

  lemma DeliveredInAnyOrder(d: Dict, t: seq<Transfer>, t': seq<Transfer>)
    requires multiset(t) == multiset(t')
    ensures multiset(Delivered(d, t)) == multiset(Delivered(d, t'))
  {
    forall x: Transfer ensures multiset(Delivered(d, t))[x] == multiset(Delivered(d, t'))[x] {
      DeliveredCount(d, t, x);
      DeliveredCount(d, t', x);
    }
  }

  /** An accumulation that depends on what is received only by its sum, and adds nothing to the pools. */
  ghost predicate Unordered(acc: Accumulator)
  {
    forall e, s, gas, incoming, incoming' :: UnorderedAt(acc, e, s, gas, incoming, incoming')
  }

  ghost predicate UnorderedAt(acc: Accumulator, e: Context, s: ServiceId, gas: u64, incoming: seq<u64>,
                              incoming': seq<u64>)
  {
    && (AmountsOf(incoming) == AmountsOf(incoming') ==> acc(e, s, gas, incoming) == acc(e, s, gas, incoming'))
    && (acc(e, s, gas, incoming).Some? ==> Thinned(s, e, acc(e, s, gas, incoming).value.context))
  }

  lemma ServicesAreUnordered(l: Loader)
    requires KeepingRunner(l.run)
    ensures Unordered(Service(l))
  {
    forall e, s, gas: u64, incoming, incoming' ensures UnorderedAt(Service(l), e, s, gas, incoming, incoming') {
      if PsiA(l, e, s, gas, incoming).Some? { AccumulationThins(l, e, s, gas, incoming); }
    }
  }

  /** Two nodes that differ at most in the order in which they visit services and list blobs. */
  ghost predicate SameButOrder(n: Node, n': Node)
  {
    GoodNode(n) && GoodNode(n') && n' == n.(visit := n'.visit, list := n'.list)
  }

  /** The inputs of a round, but for the order of transfers. */
  ghost predicate SameInputs(i: Inputs, i': Inputs)
  {
    multiset(i.transfers) == multiset(i'.transfers) && i' == i.(transfers := i'.transfers)
  }

  lemma SameInvolved(i: Inputs, i': Inputs)
    requires SameInputs(i, i')
    ensures Rounds.Involved(i.transfers, i.reports, i.free) == Rounds.Involved(i'.transfers, i'.reports, i'.free)
  {
    forall t ensures t in i.transfers <==> t in i'.transfers {
      assert t in multiset(i.transfers) <==> t in multiset(i'.transfers);
    }
  }

  lemma SameShare(i: Inputs, i': Inputs, s: ServiceId)
    requires SameInputs(i, i')
    ensures BudgetOf(i, s) == BudgetOf(i', s)
    ensures AmountsOf(Received(s, i.transfers)) == AmountsOf(Received(s, i'.transfers))
  {
    SumSeqPermuted(i.transfers, i'.transfers, Rounds.GasFor(s));
    SumSeqPermuted(i.transfers, i'.transfers, AmountFor(s));
    ReceivedSum(s, i.transfers);
    ReceivedSum(s, i'.transfers);
  }

  lemma SameService(n: Node, e: Context, i: Inputs, i': Inputs, s: ServiceId)
    requires SameInputs(i, i') && Unordered(n.worlds(s))
    ensures n.worlds(s)(e, s, BudgetOf(i, s), Received(s, i.transfers))
      == n.worlds(s)(e, s, BudgetOf(i', s), Received(s, i'.transfers))
  {
    SameShare(i, i', s);
    assert UnorderedAt(n.worlds(s), e, s, BudgetOf(i, s), Received(s, i.transfers), Received(s, i'.transfers));
  }

  lemma SameResults(n: Node, n': Node, e: Context, i: Inputs, i': Inputs)
    requires SameButOrder(n, n') && SameInputs(i, i') && forall s :: Unordered(n.worlds(s))
    ensures AllReturn(n, e, i) <==> AllReturn(n', e, i')
    ensures AllReturn(n, e, i) ==> ResultsOf(n, e, i) == ResultsOf(n', e, i')
  {
    SameInvolved(i, i');
    forall s ensures n.worlds(s)(e, s, BudgetOf(i, s), Received(s, i.transfers))
        == n'.worlds(s)(e, s, BudgetOf(i', s), Received(s, i'.transfers))
    {
      SameService(n, e, i, i', s);
    }
  }

  /** Services that do not collide agree. */
  lemma TidyAgrees(d: Dict, outs: Outcomes)
    requires Tidy(d, outs)
    ensures Agreeing(d, outs)
  {
    forall key, s, s' | s in outs && s' in outs && Contributes(d, s, outs[s], key) && Contributes(d, s', outs[s'], key)
      ensures outs[s][key] == outs[s'][key]
    {
      if s != s' {
        if key != s { Apart(d, outs, s, s', key); } else { Apart(d, outs, s', s, key); }
      }
    }
  }

  /** In what a round does, services agree about every account that more than one of them has put there. */
  ghost predicate AgreeingRound(n: Node, e: Context, i: Inputs)
  {
    AllReturn(n, e, i) ==> Agreeing(e.accounts, OutsOf(ResultsOf(n, e, i)))
  }

  ghost function StaysAgreeing(n: Node): Condition<Context>
  {
    (e: Context, t: seq<Transfer>, r: seq<Report>, f: map<ServiceId, u64>) => AgreeingRound(n, e, Inputs(t, r, f))
  }

  lemma SamePools(e: Context, results: Results, o: seq<ServiceId>, o': seq<ServiceId>)
    requires EachOnce(o, results.Keys) && EachOnce(o', results.Keys)
    requires forall s | s in results :: Thinned(s, e, results[s].context)
    ensures LookupsLeft(e, results, o) == LookupsLeft(e, results, o')
    ensures StorageLeft(e, results, o) == StorageLeft(e, results, o')
  {
    assert o == [] <==> o' == [] by {
      if o != [] { assert o[0] in o'; }
      if o' != [] { assert o'[0] in o; }
    }
    if o != [] {
      forall s | s in o ensures s in results && LookupPools(results)[s].Items <= e.lookupPool.Items
                             && StoragePools(results)[s].Items <= e.storagePool.Items
      {
        assert Thinned(s, e, results[s].context);
      }
      PoolInAnyOrder(e.lookupPool, LookupPools(results), o, o');
      PoolInAnyOrder(e.storagePool, StoragePools(results), o, o');
    }
  }

  lemma OnceIsSet(o: seq<ServiceId>, o': seq<ServiceId>, members: set<ServiceId>)
    requires EachOnce(o, members) && EachOnce(o', members)
    ensures multiset(o) == multiset(o')
  {
    OnceCounts(o);
    OnceCounts(o');
    forall s ensures multiset(o)[s] == multiset(o')[s] { assert s in o <==> s in o'; }
  }

  lemma {:induction false} OnceCounts(o: seq<ServiceId>)
    requires forall i, j | 0 <= i < j < |o| :: o[i] != o[j]
    ensures forall s :: multiset(o)[s] == if s in o then 1 else 0
  {
    if o != [] {
      var init, last := o[..|o| - 1], o[|o| - 1];
      assert o == init + [last];
      OnceCounts(init);
    }
  }

  /** The accounts after a round do not depend on the order. */
  lemma SameAccounts(n: Node, n': Node, d: Dict, results: Results, o: seq<ServiceId>, o': seq<ServiceId>)
    requires SameButOrder(n, n') && Preimages.Injective(n.hash) && Agreeing(d, OutsOf(results))
    requires EachOnce(o, results.Keys) && EachOnce(o', results.Keys)
    ensures NextAccounts(n, d, results, o) == NextAccounts(n', d, results, o')
  {
    MergedInAnyOrder(d, OutsOf(results), o, o');
    forall b ensures b in BlobsOf(n, results, o) <==> b in BlobsOf(n', results, o') {
      BlobsListed(n, results, o, b);
      BlobsListed(n', results, o', b);
    }
    SuppliedInAnyOrder(After(d, results, o), n.hash, n.slot, BlobsOf(n, results, o), BlobsOf(n', results, o'));
  }

  lemma ResultsAreThin(n: Node, e: Context, i: Inputs)
    requires AllReturn(n, e, i) && forall s :: Unordered(n.worlds(s))
    ensures forall s | s in ResultsOf(n, e, i) :: Thinned(s, e, ResultsOf(n, e, i)[s].context)
  {
    forall s | s in ResultsOf(n, e, i) ensures Thinned(s, e, ResultsOf(n, e, i)[s].context) {
      var incoming := Received(s, i.transfers);
      assert UnorderedAt(n.worlds(s), e, s, BudgetOf(i, s), incoming, incoming);
    }
  }

  /** A round in which services agree yields the same in any order of visits. */
  lemma RoundInAnyOrder(n: Node, n': Node, e: Context, i: Inputs, i': Inputs)
    requires SameButOrder(n, n') && SameInputs(i, i') && Preimages.Injective(n.hash)
    requires AgreeingRound(n, e, i) && forall s :: Unordered(n.worlds(s))
    ensures SameRound(Step(n, e, i), Step(n', e, i'))
  {
    SameResults(n, n', e, i, i');
    if AllReturn(n, e, i) {
      var results, o, d, sent := StepLeaves(n, e, i);
      var results', o', d', sent' := StepLeaves(n', e, i');
      ResultsAreThin(n, e, i);
      SameAccounts(n, n', e.accounts, results, o, o');
      SamePools(e, results, o, o');
      OnceIsSet(o, o', results.Keys);
      SentInAnyOrder(results, o, o');
      DeliveredInAnyOrder(d, sent, sent');
      assert NextState(n, e, results, o) == NextState(n', e, results, o');
    }
  }

  /**
   * Two nodes that visit services and list blobs in different orders make the same of a block: the same state, reports,
   * outputs and gas used, or none of them returns.
   */
  lemma BlockInAnyOrder(n: Node, n': Node, g: u64, r: seq<Report>, e: Context, f: map<ServiceId, u64>)
    requires SameButOrder(n, n') && Preimages.Injective(n.hash) && forall s :: Unordered(n.worlds(s))
    requires AlwaysFrugal(RoundsOf(n)) && AlwaysFrugal(RoundsOf(n'))
    requires Throughout(RoundsOf(n), StaysAgreeing(n), g, [], r, e, f)
    ensures SameOutcome(Outer(RoundsOf(n), g, [], r, e, f), Outer(RoundsOf(n'), g, [], r, e, f))
  {
    forall e, t, t', r, f ensures RoundsAgree(RoundsOf(n), RoundsOf(n'), StaysAgreeing(n), e, t, t', r, f) {
      var i, i' := Inputs(t, r, f), Inputs(t', r, f);
      if SameInputs(i, i') && AgreeingRound(n, e, i) { RoundInAnyOrder(n, n', e, i, i'); }
    }
    OuterAgrees(RoundsOf(n), RoundsOf(n'), StaysAgreeing(n), g, [], [], r, e, f);
  }
}
