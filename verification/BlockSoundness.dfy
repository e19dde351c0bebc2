/**
 * All rounds of a block, each run by the services' own programs. They come to an end whatever the programs do, since no
 * service uses more gas than it is given or sends what it has not paid for; they return unless a program brings the
 * host down; and they conserve tokens.
 */
module BlockSoundness {
  import opened Words
  import opened Sums
  import opened Accounts
  import opened Ledger
  import opened Conservation
  import opened HostCalls
  import opened Accumulate
  import Scheduler
  import Rounds
  import opened Merging
  import opened Settlement
  import opened RoundSoundness
  import opened Bookkeeping
  import opened Pools
  import opened Provision
  import opened OuterAccumulation

  /**
   * What is fixed over the rounds of a block: how each service is accumulated, in which order results are visited and
   * blobs listed, the hash, the slot, and how privileges and keys of the next state come about.
   */
  datatype Node = Node(
    worlds: Worlds, visit: set<ServiceId> -> seq<ServiceId>, list: map<Bytes, Blob> -> seq<Blob>,
    hash: Bytes -> Bytes, slot: u32, settle: (Context, map<ServiceId, Result>) -> Context)

  /** Services keep to their gas and conserve tokens, each result is visited once, and each blob is listed. */
  ghost predicate GoodNode(n: Node)
  {
    && (forall s :: Paying(n.worlds(s)) && Dependable(n.worlds(s)))
    && (forall ids :: EachOnce(n.visit(ids), ids))
    && (forall blobs, b :: b in n.list(blobs) <==> b in blobs.Values)
  }

  /** Do all services of a round return? */
  predicate AllReturn(n: Node, e: Context, i: Inputs)
  {
    forall s | s in Rounds.Involved(i.transfers, i.reports, i.free) ::
      n.worlds(s)(e, s, BudgetOf(i, s), Received(s, i.transfers)).Some?
  }

  function ResultsOf(n: Node, e: Context, i: Inputs): map<ServiceId, Result>
    requires AllReturn(n, e, i)
  {
    map s | s in Rounds.Involved(i.transfers, i.reports, i.free) ::
      n.worlds(s)(e, s, BudgetOf(i, s), Received(s, i.transfers)).value
  }

  function BlobsOf(n: Node, results: map<ServiceId, Result>, order: seq<ServiceId>): seq<Blob>
    requires forall s | s in order :: s in results
  {
    if order == [] then []
    else BlobsOf(n, results, order[..|order| - 1]) + n.list(results[order[|order| - 1]].blobs)
  }

  /** The accounts after a round. */
  function NextAccounts(n: Node, d: Dict, results: map<ServiceId, Result>, order: seq<ServiceId>): Dict
    requires forall s | s in order :: s in results
  {
    Supplied(After(d, results, order), n.hash, n.slot, BlobsOf(n, results, order))
  }

  /** The state after a round: accounts put together, and pools of what no service has taken out. */
  function NextState(n: Node, e: Context, results: map<ServiceId, Result>, order: seq<ServiceId>): Context
    requires forall s | s in order :: s in results
  {
    n.settle(e, results).(
      accounts := NextAccounts(n, e.accounts, results, order),
      lookupPool := LookupsLeft(e, results, order),
      storagePool := StorageLeft(e, results, order))
  }

  /** A round of all services that have something to do. */
  ghost function RoundOf(n: Node, e: Context, i: Inputs): Round<Context>
    requires GoodNode(n) && AllReturn(n, e, i)
  {
    var results := ResultsOf(n, e, i);
    var order := n.visit(results.Keys);
    assert EachOnce(order, results.Keys);
    Round(
      NextState(n, e, results, order),
      Delivered(NextAccounts(n, e.accounts, results, order), Outbox(results, order)),
      set s | s in results && results[s].yielded.Some? :: (s, results[s].yielded.value),
      UsedList(results, order))
  }

  ghost function Step(n: Node, e: Context, i: Inputs): Option<Round<Context>>
    requires GoodNode(n)
  {
    if AllReturn(n, e, i) then Some(RoundOf(n, e, i)) else None
  }

  ghost function RoundsOf(n: Node): Parallel<Context>
    requires GoodNode(n)
  {
    (e: Context, t: seq<Transfer>, r: seq<Scheduler.Report>, f: map<ServiceId, u64>) => Step(n, e, Inputs(t, r, f))
  }

  lemma ResultsArePaid(n: Node, e: Context, i: Inputs)
    requires GoodNode(n) && AllReturn(n, e, i)
    ensures AllPaid(e.accounts.Keys, i, ResultsOf(n, e, i))
  {
    var results := ResultsOf(n, e, i);
    forall s | s in results ensures PaidResult(e.accounts.Keys, results[s], BudgetOf(i, s)) {
      assert Pays(n.worlds(s), e, s, BudgetOf(i, s), Received(s, i.transfers));
    }
  }

  /** What a round leaves. */
  lemma StepLeaves(n: Node, e: Context, i: Inputs)
      returns (results: map<ServiceId, Result>, order: seq<ServiceId>, d: Dict, sent: seq<Transfer>)
    requires GoodNode(n) && AllReturn(n, e, i)
    ensures results == ResultsOf(n, e, i) && EachOnce(order, results.Keys) && order == n.visit(results.Keys)
    ensures d == NextAccounts(n, e.accounts, results, order) && sent == Outbox(results, order)
    ensures var p := RoundOf(n, e, i);
      && p.state.accounts == d && p.transfers == Delivered(d, sent) && p.used == UsedList(results, order)
      && LostBy(n, e, i)
           == SumSeq(Dropped(d, sent), AmountOf) + SumSeq(i.transfers, RoundSoundness.Missing(e.accounts))
  {
    results := ResultsOf(n, e, i);
    order := n.visit(results.Keys);
    assert EachOnce(order, results.Keys);
    d := NextAccounts(n, e.accounts, results, order);
    sent := Outbox(results, order);
  }

  lemma StepIsFrugal(n: Node, e: Context, i: Inputs, p: Round<Context>)
    requires GoodNode(n) && AllReturn(n, e, i) && p == RoundOf(n, e, i)
    ensures Frugal(p, i.transfers, i.reports, i.free)
  {
    var results, order, d, sent := StepLeaves(n, e, i);
    ResultsArePaid(n, e, i);
    AllTakePart(n, e, i);
    FrugalResults(e, i, results, order, d, p);
  }

  lemma AllTakePart(n: Node, e: Context, i: Inputs)
    requires AllReturn(n, e, i)
    ensures ResultsOf(n, e, i).Keys == Rounds.Involved(i.transfers, i.reports, i.free)
  {}

  lemma FrugalResults(
      e: Context, i: Inputs, results: map<ServiceId, Result>, order: seq<ServiceId>, d: Dict, p: Round<Context>)
    requires AllPaid(e.accounts.Keys, i, results) && EachOnce(order, results.Keys)
    requires results.Keys == Rounds.Involved(i.transfers, i.reports, i.free)
    requires p.transfers == Delivered(d, Outbox(results, order)) && p.used == UsedList(results, order)
    ensures Frugal(p, i.transfers, i.reports, i.free)
  {
    RoundIsFrugal(e.accounts.Keys, d, i, results, order, p.state, p.outputs);
  }

  /**
   * Every round of services that keep to their gas is frugal, in every state: so the rounds of a block come to an end.
   */
  lemma RoundsAreFrugal(n: Node)
    requires GoodNode(n)
    ensures AlwaysFrugal(RoundsOf(n))
  {
    forall e, t, r, f ensures FrugalAt(RoundsOf(n), e, t, r, f) {
      if AllReturn(n, e, Inputs(t, r, f)) { StepIsFrugal(n, e, Inputs(t, r, f), RoundOf(n, e, Inputs(t, r, f))); }
    }
  }

  /** The size of a state: what it would cost to create its accounts. */
  function Size(): Context -> int { (e: Context) => BASE_COST * |e.accounts| }

  const SIZE_LIMIT: int := BASE_COST * (ID_RANGE - 42)

  lemma StepGrowsByGas(n: Node, e: Context, i: Inputs)
    requires GoodNode(n) && AllReturn(n, e, i)
    ensures var p := RoundOf(n, e, i);
      BASE_COST * |p.state.accounts| + SumSeq(p.transfers, CostOf) <= BASE_COST * |e.accounts| + SumSeq(p.used, UsedOf)
  {
    var results, order, d, sent := StepLeaves(n, e, i);
    ResultsArePaid(n, e, i);
    RoundGrowsByGas(e.accounts, i, results, order);
    var after := After(e.accounts, results, order);
    SupplyingKeepsWorth(after, n.hash, n.slot, BlobsOf(n, results, order));
    SameKeysDeliver(after, d, sent);
    KeysSize(after);
    KeysSize(d);
  }

  /** No round creates more accounts than its gas pays for. */
  lemma RoundsGrowByGas(n: Node)
    requires GoodNode(n)
    ensures GrowsByGas(RoundsOf(n), Size())
  {
    forall e, t, r, f ensures GrowsAt(RoundsOf(n), Size(), e, t, r, f) {
      if AllReturn(n, e, Inputs(t, r, f)) { StepGrowsByGas(n, e, Inputs(t, r, f)); }
    }
  }

  /** A part is no more than the whole. */
  lemma {:induction false} PartOfSum<T>(items: seq<T>, f: T -> int, x: T)
    requires x in items && forall y | y in items :: f(y) >= 0
    ensures f(x) <= SumSeq(items, f)
  {
    var init, last := items[..|items| - 1], items[|items| - 1];
    SumSeqNonNegative(init, f);
    if x in init { PartOfSum(init, f, x); }
  }

  /** No service is given more than a round offers. */
  lemma BudgetWithin(n: Node, i: Inputs, s: ServiceId)
    requires GoodNode(n) && s in Rounds.Involved(i.transfers, i.reports, i.free)
    ensures BudgetOf(i, s) <= OuterAccumulation.Offered(i.transfers, i.reports, i.free)
  {
    var order := n.visit(Rounds.Involved(i.transfers, i.reports, i.free));
    assert EachOnce(order, Rounds.Involved(i.transfers, i.reports, i.free));
    Rounds.SharesAddUp(order, i.transfers, i.reports, i.free);
    forall x | x in order ensures Rounds.SharesOf(i.transfers, i.reports, i.free)(x) >= 0 { ShareWraps(i, x); }
    PartOfSum(order, Rounds.SharesOf(i.transfers, i.reports, i.free), s);
    ShareWraps(i, s);
  }

  /** With room for what a round may reach, there is room for each of its services. */
  lemma ReachIsReady(n: Node, e: Context, i: Inputs)
    requires GoodNode(n) && Reach(Size(), e, i.transfers, i.reports, i.free) < SIZE_LIMIT
    ensures Ready(n.worlds, e, i)
  {
    forall s | s in Rounds.Involved(i.transfers, i.reports, i.free) ensures ServiceReady(n.worlds, e, i, s) {
      BudgetWithin(n, i, s);
    }
  }

  /** The node of the program: each service's code is found, loaded and run by the virtual machine. */
  ghost predicate RunsMachines(n: Node, env: Env, load: Bytes -> Option<Image>, loaders: ServiceId -> Loader)
    requires LoadsWell(load)
  {
    && (forall s :: loaders(s).run == Machine(env, load) && n.worlds(s) == Service(loaders(s)))
    && (forall ids :: EachOnce(n.visit(ids), ids))
    && (forall blobs, b :: b in n.list(blobs) <==> b in blobs.Values)
  }

  /** Whatever the services' code is, such a node is a good one. */
  lemma MachinesAreGood(n: Node, env: Env, load: Bytes -> Option<Image>, loaders: ServiceId -> Loader)
    requires LoadsWell(load) && RunsMachines(n, env, load, loaders)
    ensures GoodNode(n)
  {
    forall s ensures Paying(n.worlds(s)) && Dependable(n.worlds(s)) {
      ServicesAreDependable(env, load, loaders(s));
    }
  }

  /** No program that a round runs can bring the host down. */
  ghost predicate SafeRound(load: Bytes -> Option<Image>, loaders: ServiceId -> Loader, e: Context, i: Inputs)
  {
    forall s | s in Rounds.Involved(i.transfers, i.reports, i.free) ::
      SafeService(loaders(s), load, e, s, Received(s, i.transfers))
  }

  ghost function RunsSafely(load: Bytes -> Option<Image>, loaders: ServiceId -> Loader): Condition<Context>
  {
    (e: Context, t: seq<Transfer>, r: seq<Scheduler.Report>, f: map<ServiceId, u64>) =>
      SafeRound(load, loaders, e, Inputs(t, r, f))
  }

  lemma SafeRoundReturns(
      n: Node, env: Env, load: Bytes -> Option<Image>, loaders: ServiceId -> Loader, e: Context, i: Inputs)
    requires LoadsWell(load) && RunsMachines(n, env, load, loaders) && GoodNode(n)
    requires SafeRound(load, loaders, e, i) && Reach(Size(), e, i.transfers, i.reports, i.free) < SIZE_LIMIT
    ensures AllReturn(n, e, i)
  {
    ReachIsReady(n, e, i);
    MachineReturns(env, load);
    forall s | s in Rounds.Involved(i.transfers, i.reports, i.free)
      ensures n.worlds(s)(e, s, BudgetOf(i, s), Received(s, i.transfers)).Some?
    {
      assert ServiceReady(n.worlds, e, i, s) && SafeService(loaders(s), load, e, s, Received(s, i.transfers));
      AccumulationReturns(loaders(s), load, e, s, BudgetOf(i, s), Received(s, i.transfers));
    }
  }

  lemma SafeRoundsReturn(n: Node, env: Env, load: Bytes -> Option<Image>, loaders: ServiceId -> Loader)
    requires LoadsWell(load) && RunsMachines(n, env, load, loaders) && GoodNode(n)
    ensures forall e, t, r, f :: ReturnsAt(RoundsOf(n), RunsSafely(load, loaders), Size(), SIZE_LIMIT, e, t, r, f)
  {
    forall e, t, r, f ensures ReturnsAt(RoundsOf(n), RunsSafely(load, loaders), Size(), SIZE_LIMIT, e, t, r, f) {
      if SafeRound(load, loaders, e, Inputs(t, r, f)) && Reach(Size(), e, t, r, f) < SIZE_LIMIT {
        SafeRoundReturns(n, env, load, loaders, e, Inputs(t, r, f));
      }
    }
  }

  /**
   * The rounds of a block run by the virtual machine end with a state, and accumulate a prefix of the reports, if no
   * program run in them can bring the host down, and identifiers suffice for what the gas could pay for.
   */
  lemma BlockEnds(n: Node, env: Env, load: Bytes -> Option<Image>, loaders: ServiceId -> Loader,
                  g: u64, r: seq<Scheduler.Report>, e: Context, f: map<ServiceId, u64>)
    requires LoadsWell(load) && RunsMachines(n, env, load, loaders) && GoodNode(n) && AlwaysFrugal(RoundsOf(n))
    requires Throughout(RoundsOf(n), RunsSafely(load, loaders), g, [], r, e, f)
    requires Reach(Size(), e, [], r, f) < SIZE_LIMIT
    ensures var o := Outer(RoundsOf(n), g, [], r, e, f);
      o.Some? && o.value.n <= |r| && Concat(Batches(RoundsOf(n), g, [], r, e, f)) == r[..o.value.n]
  {
    RoundsGrowByGas(n);
    SafeRoundsReturn(n, env, load, loaders);
    RoundsReturn(RoundsOf(n), RunsSafely(load, loaders), Size(), SIZE_LIMIT, g, [], r, e, f);
    PrefixAccumulated(RoundsOf(n), g, [], r, e, f);
  }

  /** What the services of a round do does not collide. */
  ghost predicate TidyRound(n: Node, e: Context, i: Inputs)
  {
    AllReturn(n, e, i) ==> Tidy(e.accounts, OutsOf(ResultsOf(n, e, i)))
  }

  ghost function StaysTidy(n: Node): Condition<Context>
  {
    (e: Context, t: seq<Transfer>, r: seq<Scheduler.Report>, f: map<ServiceId, u64>) => TidyRound(n, e, Inputs(t, r, f))
  }

  /** The tokens lost in a round: sender or receiver is gone, or the receiver did not exist to begin with. */
  ghost function LostBy(n: Node, e: Context, i: Inputs): int
    requires GoodNode(n)
  {
    if AllReturn(n, e, i) then
      var results := ResultsOf(n, e, i);
      var order := n.visit(results.Keys);
      assert EachOnce(order, results.Keys);
      SumSeq(Dropped(NextAccounts(n, e.accounts, results, order), Outbox(results, order)), AmountOf)
        + SumSeq(i.transfers, RoundSoundness.Missing(e.accounts))
    else 0
  }

  ghost function Loss(n: Node): Measure<Context>
    requires GoodNode(n)
  {
    (e: Context, t: seq<Transfer>, r: seq<Scheduler.Report>, f: map<ServiceId, u64>) => LostBy(n, e, Inputs(t, r, f))
  }

  /** All accounts and all transfers under way. */
  ghost function WorthOf(e: Context, t: seq<Transfer>): int { Worth(e.accounts) + SumSeq(t, AmountOf) }

  lemma {:induction false} SameKeysDeliver(d: Dict, d': Dict, t: seq<Transfer>)
    requires d.Keys == d'.Keys
    ensures Delivered(d, t) == Delivered(d', t) && Dropped(d, t) == Dropped(d', t)
  {
    if t != [] {
      SameKeysDeliver(d, d', t[..|t| - 1]);
      assert t[|t| - 1].sender in d <==> t[|t| - 1].sender in d';
      assert t[|t| - 1].receiver in d <==> t[|t| - 1].receiver in d';
    }
  }

  lemma StillConserved(d: Dict, received: seq<Transfer>, d1: Dict, d2: Dict, sent: seq<Transfer>)
    requires d1.Keys == d2.Keys && Worth(d1) == Worth(d2) && Conserved(d, received, d1, sent)
    ensures Conserved(d, received, d2, sent)
  {
    SameKeysDeliver(d1, d2, sent);
  }

  lemma SuppliedConserved(
      n: Node, d: Dict, received: seq<Transfer>, after: Dict, blobs: seq<Blob>, sent: seq<Transfer>)
    requires Conserved(d, received, after, sent)
    ensures Conserved(d, received, Supplied(after, n.hash, n.slot, blobs), sent)
  {
    SupplyingKeepsWorth(after, n.hash, n.slot, blobs);
    StillConserved(d, received, after, Supplied(after, n.hash, n.slot, blobs), sent);
  }

  lemma ReadyRoundConserves(n: Node, e: Context, i: Inputs, results: map<ServiceId, Result>, order: seq<ServiceId>)
    requires Ready(n.worlds, e, i) && AreResults(n.worlds, e, i, results) && EachOnce(order, results.Keys)
    requires Tidy(e.accounts, OutsOf(results))
    ensures Conserved(e.accounts, i.transfers, NextAccounts(n, e.accounts, results, order), Outbox(results, order))
  {
    RoundIsSound(n.worlds, e, i, results, order);
    SuppliedConserved(n, e.accounts, i.transfers, After(e.accounts, results, order), BlobsOf(n, results, order),
                      Outbox(results, order));
  }

  lemma AllResults(n: Node, e: Context, i: Inputs)
    requires AllReturn(n, e, i)
    ensures AreResults(n.worlds, e, i, ResultsOf(n, e, i))
  {}

  /** What a state, transfers under way and a loss are worth, modulo 2^64. */
  ghost function Tally(e: Context, t: seq<Transfer>, lost: int): u64 { Wrap64(WorthOf(e, t) + lost) }

  lemma WorthOfAll(e: Context, t: seq<Transfer>, e': Context, sent: seq<Transfer>, lost: int, missing: int)
    requires missing == SumSeq(t, RoundSoundness.Missing(e.accounts))
    requires lost == SumSeq(Dropped(e'.accounts, sent), AmountOf) + missing
    ensures var d, d' := e.accounts, e'.accounts;
      && WorthOf(e', Delivered(d', sent)) + lost
           == WorthLeft(d', Delivered(d', sent), Dropped(d', sent)) + missing
      && WorthOf(e, t) + 0 == Worth(d) + SumSeq(t, Arriving(d)) + missing
  {
    ArrivingAndMissing(e.accounts, t);
  }

  lemma ConservedIsLeft(e: Context, t: seq<Transfer>, e': Context, sent: seq<Transfer>, lost: int)
    requires Conserved(e.accounts, t, e'.accounts, sent)
    requires lost == SumSeq(Dropped(e'.accounts, sent), AmountOf) + SumSeq(t, RoundSoundness.Missing(e.accounts))
    ensures Tally(e', Delivered(e'.accounts, sent), lost) == Tally(e, t, 0)
  {
    var d, d', missing := e.accounts, e'.accounts, SumSeq(t, RoundSoundness.Missing(e.accounts));
    WorthOfAll(e, t, e', sent, lost, missing);
    SameWithMore(
      WorthLeft(d', Delivered(d', sent), Dropped(d', sent)), Worth(d) + SumSeq(t, Arriving(d)),
      WorthOf(e', Delivered(d', sent)) + lost, WorthOf(e, t) + 0, missing);
  }

  lemma SameWithMore(x: int, y: int, x': int, y': int, more: int)
    requires Wrap64(x) == Wrap64(y) && x' == x + more && y' == y + more
    ensures Wrap64(x') == Wrap64(y')
  {
    WholeTurnsApart(x, y);
    SameButTurns(x', y', (x - y) / TWO64);
  }

  lemma StepConserves(n: Node, e: Context, i: Inputs, p: Round<Context>, lost: int)
    requires GoodNode(n) && Reach(Size(), e, i.transfers, i.reports, i.free) < SIZE_LIMIT && TidyRound(n, e, i)
    requires AllReturn(n, e, i) && p == RoundOf(n, e, i) && lost == LostBy(n, e, i)
    ensures Tally(p.state, p.transfers, lost) == Tally(e, i.transfers, 0)
  {
    var results, order, d, sent := StepLeaves(n, e, i);
    ReachIsReady(n, e, i);
    AllResults(n, e, i);
    ReadyRoundConserves(n, e, i, results, order);
    ConservedIsLeft(e, i.transfers, p.state, sent, lost);
  }

  ghost function Worthing(): (Context, seq<Transfer>) -> int { (e: Context, t: seq<Transfer>) => WorthOf(e, t) }

  lemma KeepsOne(par: Parallel<Context>, ok: Condition<Context>, loss: Measure<Context>, e: Context, t: seq<Transfer>,
                 r: seq<Scheduler.Report>, f: map<ServiceId, u64>, p: Round<Context>, lost: int)
    requires par(e, t, r, f) == Some(p) && lost == loss(e, t, r, f)
    requires ok(e, t, r, f) && Reach(Size(), e, t, r, f) < SIZE_LIMIT ==>
      Tally(p.state, p.transfers, lost) == Tally(e, t, 0)
    ensures RoundKeeps(par, ok, loss, Size(), SIZE_LIMIT, Worthing(), e, t, r, f)
  {
    assert Worthing()(p.state, p.transfers) == WorthOf(p.state, p.transfers) && Worthing()(e, t) == WorthOf(e, t);
  }

  lemma EachRoundKeeps(n: Node, e: Context, t: seq<Transfer>, r: seq<Scheduler.Report>, f: map<ServiceId, u64>)
    requires GoodNode(n)
    ensures RoundKeeps(RoundsOf(n), StaysTidy(n), Loss(n), Size(), SIZE_LIMIT, Worthing(), e, t, r, f)
  {
    var i := Inputs(t, r, f);
    if AllReturn(n, e, i) {
      var p, lost := RoundOf(n, e, i), LostBy(n, e, i);
      if TidyRound(n, e, i) && Reach(Size(), e, t, r, f) < SIZE_LIMIT { StepConserves(n, e, i, p, lost); }
      KeepsOne(RoundsOf(n), StaysTidy(n), Loss(n), e, t, r, f, p, lost);
    }
  }

  lemma AllRoundsKeep(n: Node)
    requires GoodNode(n)
    ensures forall e, t, r, f ::
      RoundKeeps(RoundsOf(n), StaysTidy(n), Loss(n), Size(), SIZE_LIMIT, Worthing(), e, t, r, f)
  {
    forall e, t, r, f
      ensures RoundKeeps(RoundsOf(n), StaysTidy(n), Loss(n), Size(), SIZE_LIMIT, Worthing(), e, t, r, f)
    {
      EachRoundKeeps(n, e, t, r, f);
    }
  }

  lemma LeftIsTally(e: Context, t: seq<Transfer>, lost: int)
    ensures Left(Worthing(), e, t, lost) == Tally(e, t, lost)
  {}

  /**
   * A block that returns conserves tokens: if services do not collide in any of its rounds, and identifiers suffice for
   * what the gas could pay for, all accounts in the end, and all that was lost by sending to or from services that
   * were gone, are worth what all accounts were in the beginning.
   */
  lemma BlockConserves(n: Node, g: u64, r: seq<Scheduler.Report>, e: Context, f: map<ServiceId, u64>, last: Context,
                       lost: int)
    requires GoodNode(n) && AlwaysFrugal(RoundsOf(n)) && Throughout(RoundsOf(n), StaysTidy(n), g, [], r, e, f)
    requires Reach(Size(), e, [], r, f) < SIZE_LIMIT && Outer(RoundsOf(n), g, [], r, e, f).Some?
    requires last == Outer(RoundsOf(n), g, [], r, e, f).value.state
    requires lost == Total(RoundsOf(n), Loss(n), g, [], r, e, f)
    ensures Tally(last, [], lost) == Tally(e, [], 0)
  {
    RoundsGrowByGas(n);
    AllRoundsKeep(n);
    RoundsKeep(RoundsOf(n), StaysTidy(n), Loss(n), Size(), SIZE_LIMIT, Worthing(), g, [], r, e, f, last, lost);
    LeftIsTally(last, [], lost);
    LeftIsTally(e, [], 0);
  }

  /** Services that keep all books in order, given room for items. */
  ghost predicate OrderlyWorld(acc: Accumulator) { forall e, s, gas, incoming :: OrderlyAt(acc, e, s, gas, incoming) }

  ghost predicate OrderlyAt(acc: Accumulator, e: Context, s: ServiceId, gas: u64, incoming: seq<u64>)
  {
    Room(e, gas) && Books(e) && ItemsRoom(gas, e) && acc(e, s, gas, incoming).Some? ==>
    Orderly(e, s, acc(e, s, gas, incoming).value.context)
  }

  lemma MachinesAreOrderly(env: Env, load: Bytes -> Option<Image>, l: Loader)
    requires LoadsWell(load) && l.run == Machine(env, load)
    ensures OrderlyWorld(Service(l))
  {
    MachineKeeps(env, load);
    forall e, s, gas: u64, incoming ensures OrderlyAt(Service(l), e, s, gas, incoming) {
      if Room(e, gas) && Books(e) && ItemsRoom(gas, e) && PsiA(l, e, s, gas, incoming).Some? {
        AccumulationIsOrderly(l, e, s, gas, incoming);
      }
    }
  }

  /** No service of the round loses a request, and item counters have room for what the round's gas could pay for. */
  ghost predicate LosslessRound(n: Node, e: Context, i: Inputs)
    requires GoodNode(n)
  {
    && ItemsRoom(OuterAccumulation.Offered(i.transfers, i.reports, i.free), e)
    && (AllReturn(n, e, i) ==>
          forall id | id in e.accounts && id in RoundOf(n, e, i).state.accounts :: NoneLost(e, ResultsOf(n, e, i), id))
  }

  ghost function StaysLossless(n: Node): Condition<Context>
    requires GoodNode(n)
  {
    (e: Context, t: seq<Transfer>, r: seq<Scheduler.Report>, f: map<ServiceId, u64>) =>
      LosslessRound(n, e, Inputs(t, r, f))
  }

  ghost function InBooks(): Context -> bool { (e: Context) => Books(e) }

  lemma ResultsAreOrderly(n: Node, e: Context, i: Inputs)
    requires GoodNode(n) && AllReturn(n, e, i) && forall s :: OrderlyWorld(n.worlds(s))
    requires Books(e) && Reach(Size(), e, i.transfers, i.reports, i.free) < SIZE_LIMIT
    requires ItemsRoom(OuterAccumulation.Offered(i.transfers, i.reports, i.free), e)
    ensures AllOrderly(e, ResultsOf(n, e, i))
  {
    ReachIsReady(n, e, i);
    var results := ResultsOf(n, e, i);
    forall s | s in results ensures Orderly(e, s, results[s].context) {
      BudgetWithin(n, i, s);
      LessRoom(OuterAccumulation.Offered(i.transfers, i.reports, i.free), BudgetOf(i, s), e);
      assert ServiceReady(n.worlds, e, i, s) && OrderlyWorld(n.worlds(s));
      OneIsOrderly(n.worlds(s), e, i, s, results[s]);
    }
  }

  lemma OneIsOrderly(acc: Accumulator, e: Context, i: Inputs, s: ServiceId, r: Result)
    requires OrderlyWorld(acc) && Room(e, BudgetOf(i, s)) && Books(e) && ItemsRoom(BudgetOf(i, s), e)
    requires acc(e, s, BudgetOf(i, s), Received(s, i.transfers)) == Some(r)
    ensures Orderly(e, s, r.context)
  {
    assert OrderlyAt(acc, e, s, BudgetOf(i, s), Received(s, i.transfers));
  }

  lemma LessRoom(g: int, g': int, c: Context)
    requires ItemsRoom(g, c) && g' <= g
    ensures ItemsRoom(g', c)
  {
    forall id | id in c.accounts ensures ItemsRoomAt(g', c, id) { assert ItemsRoomAt(g, c, id); }
  }

  /** A round keeps the books exactly if it loses no request. */
  lemma StepKeepsBooks(n: Node, e: Context, i: Inputs)
    requires GoodNode(n) && AllReturn(n, e, i) && forall s :: OrderlyWorld(n.worlds(s))
    requires Books(e) && Reach(Size(), e, i.transfers, i.reports, i.free) < SIZE_LIMIT
    requires ItemsRoom(OuterAccumulation.Offered(i.transfers, i.reports, i.free), e)
    ensures Books(RoundOf(n, e, i).state) <==> LosslessRound(n, e, i)
  {
    var results, order, d, sent := StepLeaves(n, e, i);
    ResultsAreOrderly(n, e, i);
    RoomIsFit(OuterAccumulation.Offered(i.transfers, i.reports, i.free), e);
    RoundKeepsBooks(e, results, order, n.hash, n.slot, BlobsOf(n, results, order), RoundOf(n, e, i).state);
  }

  /** If no request is lost in any round of a block, the books of all accounts are right in the end. */
  lemma BlockKeepsBooks(n: Node, g: u64, r: seq<Scheduler.Report>, e: Context, f: map<ServiceId, u64>)
    requires GoodNode(n) && AlwaysFrugal(RoundsOf(n)) && forall s :: OrderlyWorld(n.worlds(s))
    requires Throughout(RoundsOf(n), StaysLossless(n), g, [], r, e, f)
    requires Reach(Size(), e, [], r, f) < SIZE_LIMIT && Outer(RoundsOf(n), g, [], r, e, f).Some?
    requires Books(e)
    ensures Books(Outer(RoundsOf(n), g, [], r, e, f).value.state)
  {
    RoundsGrowByGas(n);
    forall e, t, r, f
      ensures RoundPreserves(RoundsOf(n), StaysLossless(n), Size(), SIZE_LIMIT, InBooks(), e, t, r, f)
    {
      var i := Inputs(t, r, f);
      if Books(e) && LosslessRound(n, e, i) && Reach(Size(), e, t, r, f) < SIZE_LIMIT && AllReturn(n, e, i) {
        StepKeepsBooks(n, e, i);
      }
    }
    RoundsPreserve(RoundsOf(n), StaysLossless(n), Size(), SIZE_LIMIT, InBooks(), g, [], r, e, f);
    assert InBooks()(Outer(RoundsOf(n), g, [], r, e, f).value.state);
  }
}
