/**
 * A whole round of accumulation: every service runs its program on its own copy of the state, with the gas and the
 * transfers it is due, and the results are put together. Gas is never exceeded, and tokens are conserved.
 */
module RoundSoundness {
  import opened Words
  import opened Sums
  import opened PageTables
  import opened Accounts
  import opened Ledger
  import opened Identifiers
  import opened Conservation
  import opened Footprint
  import opened HostCalls
  import opened Accumulate
  import opened Scheduler
  import OuterAccumulation
  import Rounds
  import opened Merging
  import opened Settlement

  /** No other service has named this one as the heir it may be ejected by. */
  ghost predicate NoHeirTo(d: Dict, s: ServiceId)
  {
    forall id | id in d && id != s :: d[id].info.codeHash != ToBytes(s, 32)
  }

  /** The other services of d are all still there, with their balances and code. */
  ghost predicate Held(d: Dict, s: ServiceId, own: Dict)
  {
    forall id | id in d && id != s :: HeldAt(d, own, id)
  }

  ghost predicate HeldAt(d: Dict, own: Dict, id: ServiceId)
    requires id in d
  {
    id in own && own[id].info.balance == d[id].info.balance && own[id].info.codeHash == d[id].info.codeHash
  }

  /** What a call does to the account of another service that it does not eject. */
  lemma OtherInfoKept(setting: Setting, c: Context, call: Call, id: ServiceId)
    requires Sound(c) && Roomy(c) && id in c.accounts && id != c.self
      && c.accounts[id].info.codeHash != ToBytes(c.self, 32)
    ensures var d := Apply(setting, c, call).1; id in d.accounts && d.accounts[id].info == c.accounts[id].info
  {
    match call
    case CallNew(_, _, _, _, _, _) => var next, id0, a, balance := NewAdds(c, setting.otherBless, call, setting.slot);
    case CallQuery(key) => QueryOnlyOwn(c, key, KeyOf(c, call).1);
    case CallSolicit(key) => SolicitOnlyOwn(c, key, setting.slot, KeyOf(c, call).1);
    case CallForget(key) => ForgetOnlyOwn(c, key, setting.slot, setting.expunge, KeyOf(c, call).1);
    case CallRead(target, raw) => ReadOnlyOwn(c, target, raw, KeyOf(c, call).0);
    case CallWrite(raw, value) => WriteOnlyOwn(c, raw, value, KeyOf(c, call).0);
    case CallProvide(_, _, _, _) => ProvideKeepsInfo(c, call, id);
    case CallSend(_, _, _, _) =>
    case CallEject(_, _) =>
    case _ =>
  }

  lemma ProvideKeepsInfo(c: Context, call: Call, id: ServiceId)
    requires call.CallProvide? && id in c.accounts
    ensures var d := Provide(c, call.id, call.key, call.blobId, call.data).1;
      id in d.accounts && d.accounts[id].info == c.accounts[id].info
  {}

  /** While funds are conserved, all other services are left in place. */
  ghost function Holding(d: Dict, s: ServiceId, supply: int): (int, Context) -> bool
  {
    (g: int, c: Context) => Funded(s, supply, g, c) && Held(d, s, c.accounts)
  }

  lemma CallHolds(setting: Setting, d: Dict, c: Context, call: Call)
    requires Sound(c) && Roomy(c) && NoHeirTo(d, c.self) && Held(d, c.self, c.accounts)
    ensures Held(d, c.self, Apply(setting, c, call).1.accounts)
  {
    forall id | id in d && id != c.self ensures HeldAt(d, Apply(setting, c, call).1.accounts, id) {
      assert HeldAt(d, c.accounts, id);
      OtherInfoKept(setting, c, call, id);
    }
  }

  lemma HoldingIsKept(d: Dict, s: ServiceId, supply: int)
    requires NoHeirTo(d, s)
    ensures KeptByCalls(Holding(d, s, supply))
  {
    forall g, g', c | g' <= g && Holding(d, s, supply)(g, c) ensures Holding(d, s, supply)(g', c) {}
    forall setting, c, call, g ensures CallKeeps(Holding(d, s, supply), setting, c, call, g) {
      if g >= BASE_COST && Holding(d, s, supply)(g, c) {
        CallKeepsFunds(setting, c, call, supply, g);
        CallHolds(setting, d, c, call);
      }
    }
  }

  /** Accumulating a service that is no heir leaves all others in place, with their balances. */
  lemma OthersHeld(l: Loader, e: Context, s: ServiceId, gas: u64, incoming: seq<u64>)
    requires KeepingRunner(l.run) && s in e.accounts && Room(e, gas) && PsiA(l, e, s, gas, incoming).Some?
    requires NoHeirTo(e.accounts, s)
    ensures Held(e.accounts, s, PsiA(l, e, s, gas, incoming).value.context.accounts)
  {
    var credited := Credited(e, s, incoming);
    var holding := Holding(e.accounts, s, Wrap64(SumOver(credited.accounts, BalanceOf)));
    Prepared(l, e, s, gas, incoming);
    CreditingHolds(e, s, incoming);
    HoldingIsKept(e.accounts, s, Wrap64(SumOver(credited.accounts, BalanceOf)));
    assert holding(gas, InitialContext(credited, s, l.seed).value);
    AccumulationKeeps(l, e, s, gas, incoming, holding);
    if StillKeeps(holding, PsiA(l, e, s, gas, incoming).value.context) {
      var g: int :| holding(g, PsiA(l, e, s, gas, incoming).value.context);
    }
  }

  lemma CreditingHolds(e: Context, s: ServiceId, incoming: seq<u64>)
    requires s in e.accounts
    ensures Held(e.accounts, s, Credited(e, s, incoming).accounts)
  {
    forall id | id in e.accounts && id != s ensures HeldAt(e.accounts, Credited(e, s, incoming).accounts, id) {}
  }

  /** What is sent to a service in a round, in some order. */
  function AmountFor(s: ServiceId): Transfer -> int { (t: Transfer) => if t.receiver == s then t.amount else 0 }

  function Received(s: ServiceId, t: seq<Transfer>): seq<u64>
  {
    if t == [] then []
    else
      var rest, last := Received(s, t[..|t| - 1]), t[|t| - 1];
      if last.receiver == s then rest + [last.amount] else rest
  }

  lemma {:induction false} ReceivedSum(s: ServiceId, t: seq<Transfer>)
    ensures AmountsOf(Received(s, t)) == SumSeq(t, AmountFor(s))
  {
    if t != [] {
      ReceivedSum(s, t[..|t| - 1]);
      AmountsPush(Received(s, t[..|t| - 1]), t[|t| - 1].amount);
    }
  }

  lemma AmountsPush(incoming: seq<u64>, a: u64)
    ensures AmountsOf(incoming + [a]) == AmountsOf(incoming) + a
  {
    assert (incoming + [a])[..|incoming|] == incoming;
  }

  /** The inputs of a round. */
  datatype Inputs = Inputs(transfers: seq<Transfer>, reports: seq<Report>, free: map<ServiceId, u64>)

  function BudgetOf(i: Inputs, s: ServiceId): u64 { Rounds.Budget(s, i.transfers, i.reports, i.free) }

  /** The accumulation of a service, given the state, its gas and the amounts it receives. */
  type Accumulator = (Context, ServiceId, u64, seq<u64>) -> Option<Result>

  /** A result that conserves tokens, and leaves all other services in place if none may be ejected. */
  ghost predicate Settled(d: Dict, s: ServiceId, incoming: seq<u64>, r: Result)
  {
    if s in d then
      && SoundResult(r, s, Wrap64(Worth(d) + AmountsOf(incoming)))
      && (NoHeirTo(d, s) ==> Held(d, s, r.context.accounts))
    else r.context.accounts == d && r.context.transfers == []
  }

  /** An accumulation settles on these inputs, if it returns. */
  ghost predicate Settles(acc: Accumulator, e: Context, s: ServiceId, gas: u64, incoming: seq<u64>)
  {
    Room(e, gas) && acc(e, s, gas, incoming).Some? ==>
    Settled(e.accounts, s, incoming, acc(e, s, gas, incoming).value)
  }

  ghost predicate Dependable(acc: Accumulator) { forall e, s, gas, incoming :: Settles(acc, e, s, gas, incoming) }

  /** An accumulation keeps to its gas on these inputs, if it returns. */
  ghost predicate Pays(acc: Accumulator, e: Context, s: ServiceId, gas: u64, incoming: seq<u64>)
  {
    acc(e, s, gas, incoming).Some? ==> PaidResult(e.accounts.Keys, acc(e, s, gas, incoming).value, gas)
  }

  ghost predicate Paying(acc: Accumulator) { forall e, s, gas, incoming :: Pays(acc, e, s, gas, incoming) }

  function Service(l: Loader): Accumulator
  {
    (e: Context, s: ServiceId, gas: u64, incoming: seq<u64>) => PsiA(l, e, s, gas, incoming)
  }

  lemma ServiceSettles(l: Loader, e: Context, s: ServiceId, gas: u64, incoming: seq<u64>)
    requires KeepingRunner(l.run) && Room(e, gas) && PsiA(l, e, s, gas, incoming).Some?
    ensures Settled(e.accounts, s, incoming, PsiA(l, e, s, gas, incoming).value)
  {
    if s in e.accounts {
      AccumulationIsSound(l, e, s, gas, incoming);
      if NoHeirTo(e.accounts, s) { OthersHeld(l, e, s, gas, incoming); }
    }
  }

  /** Accumulation by an honest runner can be depended on, and keeps to its gas, whatever the services' code is. */
  lemma HonestServices(l: Loader)
    requires HonestRunner(l.run)
    ensures Dependable(Service(l)) && Paying(Service(l))
  {
    forall e, s, gas: u64, incoming
      ensures Settles(Service(l), e, s, gas, incoming) && Pays(Service(l), e, s, gas, incoming)
    {
      if PsiA(l, e, s, gas, incoming).Some? {
        AccumulationPays(l, e, s, gas, incoming);
        if Room(e, gas) { ServiceSettles(l, e, s, gas, incoming); }
      }
    }
  }

  lemma ServicesAreDependable(env: Env, load: Bytes -> Option<Image>, l: Loader)
    requires LoadsWell(load) && l.run == Machine(env, load)
    ensures Dependable(Service(l)) && Paying(Service(l))
  {
    MachinePays(env, load);
    MachineKeeps(env, load);
    HonestServices(l);
  }

  type Worlds = ServiceId -> Accumulator

  /** What is asked before the round: dependable services, and room for what each could create. */
  ghost predicate Ready(w: Worlds, e: Context, i: Inputs)
  {
    forall s | s in Rounds.Involved(i.transfers, i.reports, i.free) :: ServiceReady(w, e, i, s)
  }

  ghost predicate ServiceReady(w: Worlds, e: Context, i: Inputs, s: ServiceId)
  {
    Dependable(w(s)) && Room(e, BudgetOf(i, s))
  }

  /** The result of a service of the round. */
  ghost predicate IsResult(w: Worlds, e: Context, i: Inputs, s: ServiceId, r: Result)
  {
    w(s)(e, s, BudgetOf(i, s), Received(s, i.transfers)) == Some(r)
  }

  /** The results of all services of a round. */
  ghost predicate AreResults(w: Worlds, e: Context, i: Inputs, results: map<ServiceId, Result>)
  {
    && results.Keys == Rounds.Involved(i.transfers, i.reports, i.free)
    && forall s | s in results :: IsResult(w, e, i, s, results[s])
  }

  /** What a service receives: nothing if it does not exist. */
  function AmountHere(d: Dict, s: ServiceId): Transfer -> int
  {
    (t: Transfer) => if t.receiver == s && s in d then t.amount else 0
  }

  ghost function ReceivedBy(d: Dict, i: Inputs, s: ServiceId): int { SumSeq(i.transfers, AmountHere(d, s)) }

  /** By how many turns of a 64-bit counter a service's view is off. */
  ghost function TurnsOf(d: Dict, c: Context, received: int): int
  {
    (Conservation.Supply(c) - Worth(d) - received) / TWO64
  }

  /** What is known of a service's result. */
  ghost predicate Good(d: Dict, i: Inputs, s: ServiceId, r: Result)
  {
    && (if s in d then s in r.context.accounts && (NoHeirTo(d, s) ==> Held(d, s, r.context.accounts))
        else r.context.accounts == d)
    && Conservation.Supply(r.context)
         == Worth(d) + ReceivedBy(d, i, s) + TWO64 * TurnsOf(d, r.context, ReceivedBy(d, i, s))
  }

  ghost predicate AllGood(d: Dict, i: Inputs, results: map<ServiceId, Result>)
  {
    forall s | s in results :: Good(d, i, s, results[s])
  }

  lemma SettledIsGood(d: Dict, i: Inputs, s: ServiceId, r: Result)
    requires Settled(d, s, Received(s, i.transfers), r)
    ensures Good(d, i, s, r)
  {
    if s in d {
      ReceivedSum(s, i.transfers);
      SumSeqSame(i.transfers, AmountFor(s), AmountHere(d, s));
      WholeTurnsApart(Conservation.Supply(r.context), Worth(d) + ReceivedBy(d, i, s));
    } else {
      Rounds.SumSeqZero(i.transfers, AmountHere(d, s));
    }
  }

  lemma WholeTurnsApart(x: int, y: int)
    requires Wrap64(x) == Wrap64(y)
    ensures x == y + TWO64 * ((x - y) / TWO64)
  {}

  /** The results of services that are ready are good. */
  lemma ResultsAreGood(w: Worlds, e: Context, i: Inputs, results: map<ServiceId, Result>)
    requires Ready(w, e, i) && AreResults(w, e, i, results)
    ensures AllGood(e.accounts, i, results)
  {
    forall s | s in results ensures Good(e.accounts, i, s, results[s]) {
      ReadyIsGood(w, e, i, s, results[s]);
    }
  }

  lemma ReadyIsGood(w: Worlds, e: Context, i: Inputs, s: ServiceId, r: Result)
    requires ServiceReady(w, e, i, s) && IsResult(w, e, i, s, r)
    ensures Good(e.accounts, i, s, r)
  {
    assert Settles(w(s), e, s, BudgetOf(i, s), Received(s, i.transfers));
    SettledIsGood(e.accounts, i, s, r);
  }

  lemma HeldIsFaithful(d: Dict, s: ServiceId, own: Dict)
    requires s in d && s in own && Held(d, s, own)
    ensures Faithful(d, s, own) && Gone(d, own) == {}
  {
    forall id | id in d && id != s ensures id in own && own[id].info.balance == d[id].info.balance {
      assert HeldAt(d, own, id);
    }
  }

  function OutsOf(results: map<ServiceId, Result>): Outcomes { map s | s in results :: results[s].context.accounts }

  /** What the services of a round send, in the order of visits. */
  function Outbox(results: map<ServiceId, Result>, order: seq<ServiceId>): seq<Transfer>
    requires forall s | s in order :: s in results
  {
    if order == [] then [] else Outbox(results, order[..|order| - 1]) + results[order[|order| - 1]].context.transfers
  }

  /** Transfers from or to a service that is no longer there are dropped. */
  function Delivered(d: Dict, t: seq<Transfer>): seq<Transfer>
  {
    if t == [] then []
    else
      var rest, last := Delivered(d, t[..|t| - 1]), t[|t| - 1];
      if last.sender in d && last.receiver in d then rest + [last] else rest
  }

  function UsedList(results: map<ServiceId, Result>, order: seq<ServiceId>): seq<OuterAccumulation.GasUsed>
    requires forall s | s in order :: s in results
  {
    if order == [] then []
    else
      var s := order[|order| - 1];
      UsedList(results, order[..|order| - 1]) + [OuterAccumulation.GasUsed(s, Wrap64(results[s].gas))]
  }

  /** The transfers that are dropped. */
  function Dropped(d: Dict, t: seq<Transfer>): seq<Transfer>
  {
    if t == [] then []
    else
      var rest, last := Dropped(d, t[..|t| - 1]), t[|t| - 1];
      if last.sender in d && last.receiver in d then rest else rest + [last]
  }

  /** What is dropped is exactly what is missing from what is delivered. */
  lemma {:induction false} DeliveredAndDropped(d: Dict, t: seq<Transfer>)
    ensures SumSeq(Delivered(d, t), AmountOf) + SumSeq(Dropped(d, t), AmountOf) == SumSeq(t, AmountOf)
  {
    if t != [] {
      DeliveredAndDropped(d, t[..|t| - 1]);
      SumSeqPush(Delivered(d, t[..|t| - 1]), t[|t| - 1], AmountOf);
      SumSeqPush(Dropped(d, t[..|t| - 1]), t[|t| - 1], AmountOf);
    }
  }

  /** All is delivered exactly if all senders and receivers are there. */
  lemma {:induction false} AllDelivered(d: Dict, t: seq<Transfer>)
    ensures |Delivered(d, t)| + |Dropped(d, t)| == |t|
    ensures Dropped(d, t) == [] <==> forall x | x in t :: x.sender in d && x.receiver in d
    ensures Delivered(d, t) == t <==> Dropped(d, t) == []
  {
    if t != [] {
      var init, last := t[..|t| - 1], t[|t| - 1];
      AllDelivered(d, init);
      assert t == init + [last];
    }
  }

  lemma {:induction false} DroppingSaves(d: Dict, t: seq<Transfer>)
    ensures SumSeq(Delivered(d, t), OuterAccumulation.CostOf) <= SumSeq(t, OuterAccumulation.CostOf)
  {
    if t != [] {
      DroppingSaves(d, t[..|t| - 1]);
      SumSeqPush(Delivered(d, t[..|t| - 1]), t[|t| - 1], OuterAccumulation.CostOf);
    }
  }

  ghost predicate AllPaid(ids: set<ServiceId>, i: Inputs, results: map<ServiceId, Result>)
  {
    forall s | s in results :: PaidResult(ids, results[s], BudgetOf(i, s))
  }

  /** The gas that accounts beside some have cost. */
  function NewCost(ids: set<ServiceId>, results: map<ServiceId, Result>, order: seq<ServiceId>): nat
    requires forall s | s in order :: s in results
  {
    if order == [] then 0
    else
      NewCost(ids, results, order[..|order| - 1])
        + BASE_COST * |results[order[|order| - 1]].context.accounts.Keys - ids|
  }

  /** Step by step: what is sent and created is paid for by what is used, and what is used is within the shares. */
  lemma {:induction false} GasAddsUp(
      ids: set<ServiceId>, i: Inputs, results: map<ServiceId, Result>, order: seq<ServiceId>)
    requires AllPaid(ids, i, results) && forall s | s in order :: s in results
    ensures SumSeq(Outbox(results, order), OuterAccumulation.CostOf) + NewCost(ids, results, order)
      <= SumSeq(UsedList(results, order), OuterAccumulation.UsedOf)
      <= SumSeq(order, Rounds.SharesOf(i.transfers, i.reports, i.free))
  {
    if order != [] {
      var init, s := order[..|order| - 1], order[|order| - 1];
      GasAddsUp(ids, i, results, init);
      assert PaidResult(ids, results[s], BudgetOf(i, s));
      OneMorePays(ids, i, results, init, s);
      assert init + [s] == order;
    }
  }

  lemma OneMorePays(
      ids: set<ServiceId>, i: Inputs, results: map<ServiceId, Result>, order: seq<ServiceId>, s: ServiceId)
    requires s in results && forall x | x in order :: x in results
    requires PaidResult(ids, results[s], BudgetOf(i, s))
    ensures SumSeq(Outbox(results, order + [s]), OuterAccumulation.CostOf) + NewCost(ids, results, order + [s])
      <= SumSeq(Outbox(results, order), OuterAccumulation.CostOf) + NewCost(ids, results, order) + results[s].gas
    ensures SumSeq(UsedList(results, order + [s]), OuterAccumulation.UsedOf)
      == SumSeq(UsedList(results, order), OuterAccumulation.UsedOf) + results[s].gas
    ensures SumSeq(order + [s], Rounds.SharesOf(i.transfers, i.reports, i.free))
      >= SumSeq(order, Rounds.SharesOf(i.transfers, i.reports, i.free)) + results[s].gas
  {
    assert (order + [s])[..|order|] == order;
    OneMoreSends(Outbox(results, order), results[s].context);
    OneMoreUses(UsedList(results, order), s, results[s].gas);
    OneMoreShares(i, order, s);
  }

  lemma OneMoreUses(used: seq<OuterAccumulation.GasUsed>, s: ServiceId, gas: u64)
    ensures SumSeq(used + [OuterAccumulation.GasUsed(s, Wrap64(gas))], OuterAccumulation.UsedOf)
      == SumSeq(used, OuterAccumulation.UsedOf) + gas
  {
    SumSeqPush(used, OuterAccumulation.GasUsed(s, gas), OuterAccumulation.UsedOf);
  }

  lemma OneMoreShares(i: Inputs, order: seq<ServiceId>, s: ServiceId)
    ensures SumSeq(order + [s], Rounds.SharesOf(i.transfers, i.reports, i.free))
      >= SumSeq(order, Rounds.SharesOf(i.transfers, i.reports, i.free)) + BudgetOf(i, s)
  {
    SumSeqPush(order, s, Rounds.SharesOf(i.transfers, i.reports, i.free));
    ShareWraps(i, s);
  }

  lemma OneMoreSends(t: seq<Transfer>, c: Context)
    ensures SumSeq(t + c.transfers, OuterAccumulation.CostOf) == SumSeq(t, OuterAccumulation.CostOf) + Prepaid(c)
  {
    SumSeqConcat(t, c.transfers, OuterAccumulation.CostOf);
    SumSeqSame(c.transfers, OuterAccumulation.CostOf, PaidFor);
  }

  lemma ShareWraps(i: Inputs, s: ServiceId)
    ensures BudgetOf(i, s) <= Rounds.Share(s, i.transfers, i.reports, i.free)
  {
    forall r | r in i.reports ensures Rounds.ReportFor(s)(r) >= 0 { SumSeqNonNegative(r.results, Rounds.WorkFor(s)); }
    SumSeqNonNegative(i.reports, Rounds.ReportFor(s));
    SumSeqNonNegative(i.transfers, Rounds.GasFor(s));
    WrapsDown(Rounds.Share(s, i.transfers, i.reports, i.free));
  }

  lemma WrapsDown(x: nat)
    ensures Wrap64(x) <= x
  {}

  /** The accounts after a round; preimages supplied by services change no balance and are left out here. */
  function After(d: Dict, results: map<ServiceId, Result>, order: seq<ServiceId>): Dict
    requires forall s | s in order :: s in results
  {
    Merged(d, OutsOf(results), order)
  }

  /** A round of services that keep to their gas is frugal, which is what makes the rounds of a block come to an end. */
  lemma RoundIsFrugal<S>(
      ids: set<ServiceId>, d: Dict, i: Inputs, results: map<ServiceId, Result>, order: seq<ServiceId>, state: S,
      outputs: set<(ServiceId, Bytes)>)
    requires AllPaid(ids, i, results)
    requires results.Keys == Rounds.Involved(i.transfers, i.reports, i.free) && EachOnce(order, results.Keys)
    ensures OuterAccumulation.Frugal(
      OuterAccumulation.Round(state, Delivered(d, Outbox(results, order)), outputs, UsedList(results, order)),
      i.transfers, i.reports, i.free)
  {
    DroppingSaves(d, Outbox(results, order));
    GasAddsUp(ids, i, results, order);
    Rounds.SharesAddUp(order, i.transfers, i.reports, i.free);
  }

  /** All new accounts cost gas. */
  lemma {:induction false} NewAccountsCost(d: Dict, results: map<ServiceId, Result>, order: seq<ServiceId>)
    requires forall s | s in order :: s in results
    ensures BASE_COST * |Added(d, OutsOf(results), order).Keys - d.Keys| <= NewCost(d.Keys, results, order)
  {
    if order != [] {
      var init, s := order[..|order| - 1], order[|order| - 1];
      NewAccountsCost(d, results, init);
      var before, own := Added(d, OutsOf(results), init).Keys - d.Keys, results[s].context.accounts.Keys - d.Keys;
      Larger(Added(d, OutsOf(results), order).Keys - d.Keys, before + own);
      assert |before + own| + |before * own| == |before| + |own|;
    }
  }

  /** A round adds no more accounts than its gas pays for, beyond what it pays for transfers. */
  lemma RoundGrowsByGas(d: Dict, i: Inputs, results: map<ServiceId, Result>, order: seq<ServiceId>)
    requires AllPaid(d.Keys, i, results) && EachOnce(order, results.Keys)
    ensures var d' := After(d, results, order);
      BASE_COST * |d'| + SumSeq(Delivered(d', Outbox(results, order)), OuterAccumulation.CostOf)
        <= BASE_COST * |d| + SumSeq(UsedList(results, order), OuterAccumulation.UsedOf)
  {
    var d', added := After(d, results, order), Added(d, OutsOf(results), order);
    DroppingSaves(d', Outbox(results, order));
    GasAddsUp(d.Keys, i, results, order);
    NewAccountsCost(d, results, order);
    Larger(d'.Keys, d.Keys + (added.Keys - d.Keys));
    assert |d.Keys + (added.Keys - d.Keys)| == |d.Keys| + |added.Keys - d.Keys|;
    KeysSize(d);
    KeysSize(d');
  }

  /** No two services create an account of the same identifier. */
  ghost predicate NewDistinct(d: Dict, outs: Outcomes)
  {
    forall s, s', key | s in outs && s' in outs && s != s' && key in outs[s] && key !in d :: key !in outs[s']
  }

  ghost function FlowsOf(d: Dict, i: Inputs, results: map<ServiceId, Result>): map<ServiceId, Flow>
  {
    map s | s in results :: FlowOf(d, i, s, results[s].context)
  }

  ghost function FlowOf(d: Dict, i: Inputs, s: ServiceId, c: Context): Flow
  {
    Flow(ReceivedBy(d, i, s), SumSeq(c.transfers, AmountOf), TurnsOf(d, c, ReceivedBy(d, i, s)))
  }

  lemma ResultsTidy(d: Dict, i: Inputs, results: map<ServiceId, Result>)
    requires AllGood(d, i, results) && NewDistinct(d, OutsOf(results)) && forall s | s in results :: NoHeirTo(d, s)
    ensures Tidy(d, OutsOf(results))
  {
    var outs := OutsOf(results);
    forall s | s in outs ensures Faithful(d, s, outs[s]) && Gone(d, outs[s]) == {} {
      assert Good(d, i, s, results[s]);
      if s in d { HeldIsFaithful(d, s, outs[s]); }
    }
    AllHereTidy(d, outs);
  }

  lemma AllHereTidy(d: Dict, outs: Outcomes)
    requires NewDistinct(d, outs) && forall s | s in outs :: Faithful(d, s, outs[s]) && Gone(d, outs[s]) == {}
    ensures Tidy(d, outs)
  {
    forall s, s' | s in outs && s' in outs && s != s' ensures Independent(d, s, outs[s], s', outs[s']) {}
  }

  /** What transfers to services that exist carry, and to those that do not. */
  function Arriving(d: Dict): Transfer -> int { (t: Transfer) => if t.receiver in d then t.amount else 0 }

  function Missing(d: Dict): Transfer -> int { (t: Transfer) => if t.receiver in d then 0 else t.amount }

  function ReceivedPart(d: Dict): ServiceId -> (Transfer -> int) { (s: ServiceId) => AmountHere(d, s) }

  /** The amounts received by all services are those of all transfers to services that exist. */
  lemma ReceivedByAll(d: Dict, i: Inputs, order: seq<ServiceId>)
    requires EachOnce(order, Rounds.Involved(i.transfers, i.reports, i.free))
    ensures SumSeq(order, Rounds.PartsOf(ReceivedPart(d), i.transfers)) == SumSeq(i.transfers, Arriving(d))
  {
    forall t | t in i.transfers ensures SumSeq(order, Rounds.PartAt(ReceivedPart(d), t)) == Arriving(d)(t) {
      forall s | s in order
        ensures Rounds.PartAt(ReceivedPart(d), t)(s) == if s == t.receiver then Arriving(d)(t) else 0
      {
        assert ReceivedPart(d)(s)(t) == if s == t.receiver && s in d then t.amount else 0;
      }
      Rounds.OneClaims(order, t.receiver, Arriving(d)(t), Rounds.PartAt(ReceivedPart(d), t));
    }
    Rounds.SharedOut(i.transfers, order, ReceivedPart(d), Arriving(d));
  }

  function SentBy(results: map<ServiceId, Result>): ServiceId -> int
  {
    (s: ServiceId) => if s in results then SumSeq(results[s].context.transfers, AmountOf) else 0
  }

  ghost function TurnsBy(d: Dict, i: Inputs, results: map<ServiceId, Result>): ServiceId -> int
  {
    (s: ServiceId) => if s in results then TurnsOf(d, results[s].context, ReceivedBy(d, i, s)) else 0
  }

  /** Sending is the same whether it is summed over services or over what they send. */
  lemma {:induction false} OutboxSum(results: map<ServiceId, Result>, order: seq<ServiceId>)
    requires forall s | s in order :: s in results
    ensures SumSeq(Outbox(results, order), AmountOf) == SumSeq(order, SentBy(results))
  {
    if order != [] {
      var init, s := order[..|order| - 1], order[|order| - 1];
      OutboxSum(results, init);
      SumSeqConcat(Outbox(results, init), results[s].context.transfers, AmountOf);
    }
  }

  /** What flows in and out of all services. */
  lemma FlowsSum(d: Dict, i: Inputs, results: map<ServiceId, Result>, order: seq<ServiceId>)
    requires forall s | s in order :: s in results
    ensures SumSeq(order, NetFlow(FlowsOf(d, i, results)))
      == SumSeq(order, Rounds.PartsOf(ReceivedPart(d), i.transfers)) - SumSeq(order, SentBy(results))
         + TWO64 * SumSeq(order, TurnsBy(d, i, results))
    decreases |order|
  {
    if order != [] {
      var init, s := order[..|order| - 1], order[|order| - 1];
      FlowsSum(d, i, results, init);
      assert Rounds.PartsOf(ReceivedPart(d), i.transfers)(s) == ReceivedBy(d, i, s);
    }
  }

  lemma AllBalanced(d: Dict, i: Inputs, results: map<ServiceId, Result>)
    requires AllGood(d, i, results)
    ensures FlowsOf(d, i, results).Keys == OutsOf(results).Keys
    ensures forall s | s in OutsOf(results) :: Balanced(d, OutsOf(results)[s], FlowsOf(d, i, results)[s])
  {
    forall s | s in results ensures Balanced(d, OutsOf(results)[s], FlowsOf(d, i, results)[s]) {
      assert Good(d, i, s, results[s]);
    }
  }

  /** The accounts after a round whose results are good. */
  lemma WorthAfter(d: Dict, i: Inputs, results: map<ServiceId, Result>, order: seq<ServiceId>)
    requires AllGood(d, i, results) && Tidy(d, OutsOf(results)) && EachOnce(order, OutsOf(results).Keys)
    ensures Worth(After(d, results, order)) == Worth(d) + SumSeq(order, NetFlow(FlowsOf(d, i, results)))
  {
    AllBalanced(d, i, results);
    RoundConserves(d, OutsOf(results), FlowsOf(d, i, results), order);
  }

  lemma WorthAndOutbox(d: Dict, i: Inputs, results: map<ServiceId, Result>, order: seq<ServiceId>)
    requires AllGood(d, i, results) && Tidy(d, OutsOf(results))
    requires results.Keys == Rounds.Involved(i.transfers, i.reports, i.free) && EachOnce(order, results.Keys)
    ensures Worth(After(d, results, order)) + SumSeq(Outbox(results, order), AmountOf)
      == Worth(d) + SumSeq(i.transfers, Arriving(d)) + TWO64 * SumSeq(order, TurnsBy(d, i, results))
  {
    WorthAfter(d, i, results, order);
    FlowsSum(d, i, results, order);
    ReceivedByAll(d, i, order);
    OutboxSum(results, order);
  }

  /** What accounts and transfers are worth after a round, and what is lost by dropping transfers. */
  ghost function WorthLeft(d: Dict, delivered: seq<Transfer>, dropped: seq<Transfer>): int
  {
    Worth(d) + SumSeq(delivered, AmountOf) + SumSeq(dropped, AmountOf)
  }

  /**
   * Accounts d with transfers received by services that exist, and accounts d' with what is delivered of the transfers
   * sent, are worth the same modulo 2^64, but for the transfers that are dropped.
   */
  ghost predicate Conserved(d: Dict, received: seq<Transfer>, d': Dict, sent: seq<Transfer>)
  {
    Wrap64(WorthLeft(d', Delivered(d', sent), Dropped(d', sent))) == Wrap64(Worth(d) + SumSeq(received, Arriving(d)))
  }

  lemma GoodRoundConserves(d: Dict, i: Inputs, results: map<ServiceId, Result>, order: seq<ServiceId>)
    requires AllGood(d, i, results) && Tidy(d, OutsOf(results))
    requires results.Keys == Rounds.Involved(i.transfers, i.reports, i.free) && EachOnce(order, results.Keys)
    ensures Conserved(d, i.transfers, After(d, results, order), Outbox(results, order))
  {
    WorthAndOutbox(d, i, results, order);
    ConservedButTurns(d, i.transfers, After(d, results, order), Outbox(results, order),
      SumSeq(order, TurnsBy(d, i, results)));
  }

  lemma NothingElseLeft(d: Dict, sent: seq<Transfer>)
    ensures WorthLeft(d, Delivered(d, sent), Dropped(d, sent)) == Worth(d) + SumSeq(sent, AmountOf)
  {
    DeliveredAndDropped(d, sent);
  }

  lemma ConservedButTurns(d: Dict, received: seq<Transfer>, d': Dict, sent: seq<Transfer>, k: int)
    requires Worth(d') + SumSeq(sent, AmountOf) == Worth(d) + SumSeq(received, Arriving(d)) + TWO64 * k
    ensures Conserved(d, received, d', sent)
  {
    NothingElseLeft(d', sent);
    SameButTurns(WorthLeft(d', Delivered(d', sent), Dropped(d', sent)), Worth(d) + SumSeq(received, Arriving(d)), k);
  }

  /** What is sent to services that do not exist is all that does not arrive. */
  lemma {:induction false} ArrivingAndMissing(d: Dict, t: seq<Transfer>)
    ensures SumSeq(t, Arriving(d)) + SumSeq(t, Missing(d)) == SumSeq(t, AmountOf)
    ensures (forall x | x in t :: x.receiver in d) ==> SumSeq(t, Missing(d)) == 0
  {
    if t != [] { ArrivingAndMissing(d, t[..|t| - 1]); }
  }

  lemma SameButTurns(x: int, y: int, k: int)
    requires x == y + TWO64 * k
    ensures Wrap64(x) == Wrap64(y)
  {
    WholeTurns(y, k);
  }

  /**
   * A round conserves tokens. All accounts after it and all that services send are worth what all accounts before it
   * and all transfers received were, modulo 2^64, if services do not collide: no account is created or ejected by
   * two of them, none ejects one that takes part, and none creates anew an account it ejected.
   */
  lemma RoundIsSound(w: Worlds, e: Context, i: Inputs, results: map<ServiceId, Result>, order: seq<ServiceId>)
    requires Ready(w, e, i) && AreResults(w, e, i, results) && Tidy(e.accounts, OutsOf(results))
    requires EachOnce(order, results.Keys)
    ensures Conserved(e.accounts, i.transfers, After(e.accounts, results, order), Outbox(results, order))
  {
    ResultsAreGood(w, e, i, results);
    GoodRoundConserves(e.accounts, i, results, order);
  }

  /**
   * They do not collide if no service that takes part is named as an heir, and new accounts get different
   * identifiers.
   */
  lemma WithoutHeirsTidy(w: Worlds, e: Context, i: Inputs, results: map<ServiceId, Result>)
    requires Ready(w, e, i) && AreResults(w, e, i, results) && NewDistinct(e.accounts, OutsOf(results))
    requires forall s | s in results :: NoHeirTo(e.accounts, s)
    ensures Tidy(e.accounts, OutsOf(results))
  {
    ResultsAreGood(w, e, i, results);
    ResultsTidy(e.accounts, i, results);
  }
}
