/**
 * Tokens over a round: what the services of a round hold after their results are put together, and what they send,
 * is what was held before and what they received.
 */
module Settlement {
  import opened Words
  import opened Sums
  import opened Accounts
  import opened Ledger
  import opened Conservation
  import opened Merging

  /** The accounts after visiting some services. */
  function Progress(d: Dict, outs: Outcomes, order: seq<ServiceId>): Dict
    requires forall s | s in order :: s in outs
  {
    (d + Added(d, outs, order)) - RemovedBy(d, outs, order)
  }

  function Gone(d: Dict, own: Dict): set<ServiceId> { set key | key in d && key !in own }

  /**
   * A service stays if it is there, and changes nothing if it is not; all accounts of others that it leaves in place
   * keep their balance.
   */
  ghost predicate Faithful(d: Dict, s: ServiceId, own: Dict)
  {
    && (if s in d then s in own else own == d)
    && forall id | id in d && id in own && id != s :: own[id].info.balance == d[id].info.balance
  }

  /** The accounts that a service takes the place of, or removes. */
  function Touched(d: Dict, s: ServiceId, own: Dict): set<ServiceId> { (if s in d then {s} else {}) + Gone(d, own) }

  /** What two services do does not collide: no account is created or removed by both, and neither removes the other. */
  ghost predicate Independent(d: Dict, s: ServiceId, own: Dict, s': ServiceId, own': Dict)
  {
    && s !in Gone(d, own') && s' !in Gone(d, own) && Gone(d, own) !! Gone(d, own')
    && forall key | key in own && key !in d :: key !in own'
  }

  ghost predicate Tidy(d: Dict, outs: Outcomes)
  {
    && (forall s | s in outs :: Faithful(d, s, outs[s]))
    && (forall s, s' | s in outs && s' in outs && s != s' :: Independent(d, s, outs[s], s', outs[s']))
  }

  /** What a service changes is worth the difference of all it sees. */
  lemma OwnWorth(d: Dict, s: ServiceId, own: Dict)
    requires Faithful(d, s, own)
    ensures var touched := Touched(d, s, own);
      SumOver(own, BalanceOf) - SumOver(d, BalanceOf)
        == SumOver(Contribution(d, s, own), BalanceOf) - SumOver(d - (d.Keys - touched), BalanceOf)
  {
    var touched, part := Touched(d, s, own), Contribution(d, s, own);
    SumSplit(own, part.Keys, BalanceOf);
    assert own - (own.Keys - part.Keys) == part;
    SumSplit(d, touched, BalanceOf);
    assert (own - part.Keys).Keys == (d - touched).Keys;
    SumSame(own - part.Keys, d - touched, BalanceOf);
  }

  lemma Regrouped<K, V>(d: map<K, V>, added: map<K, V>, part: map<K, V>, removed: set<K>, gone: set<K>, mine: set<K>)
    requires part.Keys !! removed + gone && mine <= part.Keys
    ensures (d + (added + part)) - (removed + gone) == (((d + added) - removed) - (mine + gone)) + part
  {}

  /** Another service touches nothing that this one touches, and creates nothing that this one creates. */
  lemma Apart(d: Dict, outs: Outcomes, s: ServiceId, x: ServiceId, id: ServiceId)
    requires Tidy(d, outs) && s in outs && x in outs && s != x
    ensures id in Touched(d, s, outs[s]) ==> id !in Gone(d, outs[x]) && !Contributes(d, x, outs[x], id)
    ensures Contributes(d, s, outs[s], id) && id != s ==> id !in Gone(d, outs[x]) && !Contributes(d, x, outs[x], id)
  {
    assert Independent(d, s, outs[s], x, outs[x]) && Faithful(d, s, outs[s]) && Faithful(d, x, outs[x]);
  }

  lemma {:induction false} NotTouchedYet(d: Dict, outs: Outcomes, order: seq<ServiceId>, s: ServiceId, id: ServiceId)
    requires Tidy(d, outs) && s in outs && s !in order && forall x | x in order :: x in outs
    requires id in Touched(d, s, outs[s]) || Contributes(d, s, outs[s], id)
    ensures id !in Added(d, outs, order) && id !in RemovedBy(d, outs, order)
  {
    if order != [] {
      NotTouchedYet(d, outs, order[..|order| - 1], s, id);
      Apart(d, outs, s, order[|order| - 1], id);
    }
  }

  /** What a service touches is still as it was, and what it creates is not there yet. */
  lemma Untouched(d: Dict, outs: Outcomes, order: seq<ServiceId>, s: ServiceId)
    requires Tidy(d, outs) && s in outs && s !in order && forall x | x in order :: x in outs
    ensures var before, touched, part := Progress(d, outs, order), Touched(d, s, outs[s]), Contribution(d, s, outs[s]);
      && before - (before.Keys - touched) == d - (d.Keys - touched)
      && (before - touched).Keys !! part.Keys
      && part.Keys !! RemovedBy(d, outs, order) + Gone(d, outs[s])
  {
    assert Faithful(d, s, outs[s]);
    forall id | id in Touched(d, s, outs[s]) || Contributes(d, s, outs[s], id)
      ensures id !in Added(d, outs, order) && id !in RemovedBy(d, outs, order)
    {
      NotTouchedYet(d, outs, order, s, id);
    }
    StillThere(d, Added(d, outs, order), RemovedBy(d, outs, order), Touched(d, s, outs[s]));
  }

  lemma StillThere<K, V>(d: map<K, V>, added: map<K, V>, removed: set<K>, touched: set<K>)
    requires touched <= d.Keys && touched !! added.Keys && touched !! removed
    ensures var before := (d + added) - removed; before - (before.Keys - touched) == d - (d.Keys - touched)
  {}

  /** Visiting one more service. */
  lemma OneMore(d: Dict, outs: Outcomes, order: seq<ServiceId>, s: ServiceId)
    requires Tidy(d, outs) && s in outs && s !in order && forall x | x in order :: x in outs
    ensures SumOver(Progress(d, outs, order + [s]), BalanceOf)
      == SumOver(Progress(d, outs, order), BalanceOf) + SumOver(outs[s], BalanceOf) - SumOver(d, BalanceOf)
  {
    var touched, part, before := Touched(d, s, outs[s]), Contribution(d, s, outs[s]), Progress(d, outs, order);
    assert (order + [s])[..|order|] == order;
    assert Faithful(d, s, outs[s]);
    Untouched(d, outs, order, s);
    Regrouped(d, Added(d, outs, order), part, RemovedBy(d, outs, order), Gone(d, outs[s]), if s in d then {s} else {});
    OwnWorth(d, s, outs[s]);
    SumSplit(before, touched, BalanceOf);
    SumJoin(before - touched, part, BalanceOf);
  }

  /** How much each service's view has grown. */
  ghost function Growth(d: Dict, outs: Outcomes): ServiceId -> int
  {
    (s: ServiceId) => if s in outs then Worth(outs[s]) - Worth(d) else 0
  }

  ghost function Worth(d: Dict): int { SumOver(d, BalanceOf) }

  /** The accounts put together are worth what they were before and what each service's view has grown. */
  lemma {:induction false} WorthAddsUp(d: Dict, outs: Outcomes, order: seq<ServiceId>)
    requires Tidy(d, outs) && (forall s | s in order :: s in outs) && forall i,
      j | 0 <= i < j < |order| :: order[i] != order[j]
    ensures Worth(Progress(d, outs, order)) == Worth(d) + SumSeq(order, Growth(d, outs))
  {
    if order == [] {
      assert Progress(d, outs, order) == d;
    } else {
      var init, s := order[..|order| - 1], order[|order| - 1];
      assert order == init + [s];
      OneMore(d, outs, init, s);
      WorthAddsUp(d, outs, init);
    }
  }

  /**
   * The tokens a service receives and sends in a round, and by how many turns of a 64-bit counter its books are off.
   */
  datatype Flow = Flow(received: int, sent: int, turns: int)

  function NetFlow(flows: map<ServiceId, Flow>): ServiceId -> int
  {
    (s: ServiceId) => if s in flows then flows[s].received - flows[s].sent + TWO64 * flows[s].turns else 0
  }

  /** Each service conserves tokens in its own view, but for whole turns. */
  ghost predicate Balanced(d: Dict, own: Dict, flow: Flow)
  {
    Worth(own) + flow.sent == Worth(d) + flow.received + TWO64 * flow.turns
  }

  /**
   * A round conserves tokens: the accounts it ends with and what has been sent are together worth what the accounts it
   * began with and what was received were, but for whole turns, provided that services do not collide.
   */
  lemma {:induction false} RoundConserves(d: Dict, outs: Outcomes, flows: map<ServiceId, Flow>, order: seq<ServiceId>)
    requires Tidy(d, outs) && EachOnce(order, outs.Keys) && flows.Keys == outs.Keys
    requires forall s | s in outs :: Balanced(d, outs[s], flows[s])
    ensures Worth(Merged(d, outs, order)) == Worth(d) + SumSeq(order, NetFlow(flows))
  {
    MergedWorth(d, outs, order);
    GrowthIsFlow(d, outs, flows, order);
  }

  lemma {:induction false} GrowthIsFlow(d: Dict, outs: Outcomes, flows: map<ServiceId, Flow>, order: seq<ServiceId>)
    requires flows.Keys == outs.Keys && (forall s | s in outs :: Balanced(d, outs[s], flows[s]))
      && forall s | s in order :: s in outs
    ensures SumSeq(order, Growth(d, outs)) == SumSeq(order, NetFlow(flows))
  {
    if order != [] {
      var s := order[|order| - 1];
      GrowthIsFlow(d, outs, flows, order[..|order| - 1]);
      assert Balanced(d, outs[s], flows[s]);
    }
  }

  lemma MergedWorth(d: Dict, outs: Outcomes, order: seq<ServiceId>)
    requires Tidy(d, outs) && EachOnce(order, outs.Keys)
    ensures Worth(Merged(d, outs, order)) == Worth(d) + SumSeq(order, Growth(d, outs))
  {
    RemovedByAll(d, outs, order);
    WorthAddsUp(d, outs, order);
  }
}
