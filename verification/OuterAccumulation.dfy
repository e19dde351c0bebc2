/**
 * Accumulation of a block's reports in rounds. Each round takes as many reports as its gas allows, and what its
 * services send is received in the next round. Rounds come to an end because transfers are paid for in advance.
 */
module OuterAccumulation {
  import opened Words
  import opened Sums
  import opened Accounts
  import opened Ledger
  import opened Scheduler

  datatype GasUsed = GasUsed(service: ServiceId, gas: u64)

  /** What a round of services in parallel yields. */
  datatype Round<S> = Round(state: S, transfers: seq<Transfer>, outputs: set<(ServiceId, Bytes)>, used: seq<GasUsed>)

  /** Services in parallel; None if one of them does not return. */
  type Parallel<!S> = (S, seq<Transfer>, seq<Report>, map<ServiceId, u64>) -> Option<Round<S>>

  function GasOf(t: Transfer): int { t.gasLimit }

  /** What sending a transfer has cost: its gas and the call. */
  function CostOf(t: Transfer): int { t.gasLimit + 10 }

  function UsedOf(u: GasUsed): int { u.gas }

  function WorkGas(w: WorkResult): int { w.gas }

  function ReportGas(r: Report): int { SumSeq(r.results, WorkGas) }

  function FreeGas(s: ServiceId, g: u64): int { g }

  /** All the gas a round hands out. */
  ghost function Offered(t: seq<Transfer>, r: seq<Report>, f: map<ServiceId, u64>): int
  {
    SumSeq(t, GasOf) + SumSeq(r, ReportGas) + SumOver(f, FreeGas)
  }

  /** A round uses no more gas than it hands out, and enough to pay for all it sends. */
  ghost predicate Frugal<S>(p: Round<S>, t: seq<Transfer>, r: seq<Report>, f: map<ServiceId, u64>)
  {
    SumSeq(p.transfers, CostOf) <= SumSeq(p.used, UsedOf) <= Offered(t, r, f)
  }

  ghost predicate FrugalAt<S>(par: Parallel<S>, e: S, t: seq<Transfer>, r: seq<Report>, f: map<ServiceId, u64>)
  {
    par(e, t, r, f).Some? ==> Frugal(par(e, t, r, f).value, t, r, f)
  }

  ghost predicate AlwaysFrugal<S(!new)>(par: Parallel<S>)
  {
    forall e, t, r, f :: FrugalAt(par, e, t, r, f)
  }

  /** The longest prefix of reports all of whose prefixes fit the gas; sums are of 64-bit words. */
  function FitCount(r: seq<Report>, g: u64): (i: nat)
    ensures i <= |r|
  {
    if r == [] then 0
    else
      var i := FitCount(r[..|r| - 1], g);
      if i == |r| - 1 && Wrap64(SumSeq(r, ReportGas)) <= g then |r| else i
  }

  /** The gas limit of the next round. */
  function NextLimit(g: u64, t: seq<Transfer>, used: seq<GasUsed>): u64
  {
    Wrap64(g + SumSeq(t, GasOf) - SumSeq(used, UsedOf))
  }

  datatype Outcome<S> = Outcome(n: nat, state: S, outputs: set<(ServiceId, Bytes)>, used: seq<GasUsed>)

  /** Falls from round to round without free services and reports. */
  function Weight(t: seq<Transfer>): nat
  {
    if t == [] then 0 else Weight(t[..|t| - 1]) + t[|t| - 1].gasLimit + 1
  }

  lemma {:induction false} Weights(t: seq<Transfer>)
    ensures Weight(t) == SumSeq(t, GasOf) + |t|
    ensures SumSeq(t, CostOf) == SumSeq(t, GasOf) + 10 * |t|
  {
    if t != [] { Weights(t[..|t| - 1]); }
  }

  /** A round without free services and reports leaves less to do. */
  lemma TransfersWane<S(!new)>(par: Parallel<S>, e: S, t: seq<Transfer>, r: seq<Report>, f: map<ServiceId, u64>)
    requires AlwaysFrugal(par) && par(e, t, r, f).Some?
    ensures t != [] && r == [] && f == map[] ==> Weight(par(e, t, r, f).value.transfers) < Weight(t)
  {
    assert FrugalAt(par, e, t, r, f);
    Weights(t);
    Weights(par(e, t, r, f).value.transfers);
  }

  /** The outcome after one more round. */
  function Joined<S>(n: nat, p: Round<S>, o: Option<Outcome<S>>): Option<Outcome<S>>
  {
    match o
    case None => None
    case Some(rest) => Some(Outcome(n + rest.n, rest.state, p.outputs + rest.outputs, p.used + rest.used))
  }

  /** All rounds. They end whatever the gas limits are; None if one of them does not return. */
  function Outer<S(!new)>(par: Parallel<S>, g: u64, t: seq<Transfer>, r: seq<Report>, e: S, f: map<ServiceId, u64>)
    : Option<Outcome<S>>
    requires AlwaysFrugal(par)
    decreases if f == map[] then 0 else 1, |r|, Weight(t)
  {
    var i := FitCount(r, g);
    if t == [] && i == 0 && f == map[] then Some(Outcome(0, e, {}, []))
    else
      match par(e, t, r[..i], f)
      case None => None
      case Some(p) =>
        TransfersWane(par, e, t, r[..i], f);
        Joined(i, p, Outer(par, NextLimit(g, t, p.used), p.transfers, r[i..], p.state, map[]))
  }

  /** The reports of each round, as long as rounds return. */
  function Batches<S(!new)>(par: Parallel<S>, g: u64, t: seq<Transfer>, r: seq<Report>, e: S, f: map<ServiceId, u64>)
    : seq<seq<Report>>
    requires AlwaysFrugal(par)
    decreases if f == map[] then 0 else 1, |r|, Weight(t)
  {
    var i := FitCount(r, g);
    if t == [] && i == 0 && f == map[] then []
    else
      match par(e, t, r[..i], f)
      case None => []
      case Some(p) =>
        TransfersWane(par, e, t, r[..i], f);
        [r[..i]] + Batches(par, NextLimit(g, t, p.used), p.transfers, r[i..], p.state, map[])
  }

  function Concat(batches: seq<seq<Report>>): seq<Report>
  {
    if batches == [] then [] else batches[0] + Concat(batches[1..])
  }

  /** The reports accumulated in all rounds are, in order, the prefix of the reports given that the result counts. */
  lemma {:induction false} PrefixAccumulated<S(!new)>(
      par: Parallel<S>, g: u64, t: seq<Transfer>, r: seq<Report>, e: S, f: map<ServiceId, u64>)
    requires AlwaysFrugal(par) && Outer(par, g, t, r, e, f).Some?
    ensures Outer(par, g, t, r, e, f).value.n <= |r|
    ensures Concat(Batches(par, g, t, r, e, f)) == r[..Outer(par, g, t, r, e, f).value.n]
    decreases if f == map[] then 0 else 1, |r|, Weight(t)
  {
    var i := FitCount(r, g);
    if !(t == [] && i == 0 && f == map[]) {
      var p := par(e, t, r[..i], f).value;
      TransfersWane(par, e, t, r[..i], f);
      var g' := NextLimit(g, t, p.used);
      PrefixAccumulated(par, g', p.transfers, r[i..], p.state, map[]);
      var n := Outer(par, g', p.transfers, r[i..], p.state, map[]).value.n;
      var batches := Batches(par, g', p.transfers, r[i..], p.state, map[]);
      assert Batches(par, g, t, r, e, f)[1..] == batches;
      SplitPrefix(r, i, n);
    }
  }

  lemma SplitPrefix<T>(r: seq<T>, i: nat, n: nat)
    requires i <= |r| && n <= |r| - i
    ensures r[..i + n] == r[..i] + r[i..][..n]
  {}

  lemma SplitSuffix<T>(r: seq<T>, i: nat, n: nat)
    requires i <= |r| && n <= |r| - i
    ensures r[i + n..] == r[i..][n..]
  {}

  /** Gas for execution alone: what rounds use, less what goes into the transfers they send. */
  ghost function Executed<S(!new)>(
      par: Parallel<S>, g: u64, t: seq<Transfer>, r: seq<Report>, e: S, f: map<ServiceId, u64>): int
    requires AlwaysFrugal(par)
    decreases if f == map[] then 0 else 1, |r|, Weight(t)
  {
    var i := FitCount(r, g);
    if t == [] && i == 0 && f == map[] then 0
    else
      match par(e, t, r[..i], f)
      case None => 0
      case Some(p) =>
        TransfersWane(par, e, t, r[..i], f);
        SumSeq(p.used, UsedOf) - SumSeq(p.transfers, GasOf)
          + Executed(par, NextLimit(g, t, p.used), p.transfers, r[i..], p.state, map[])
  }

  lemma {:induction false} GasNonNegative(r: seq<Report>)
    ensures SumSeq(r, ReportGas) >= 0
  {
    forall x | x in r ensures ReportGas(x) >= 0 { SumSeqNonNegative(x.results, WorkGas); }
    SumSeqNonNegative(r, ReportGas);
  }

  /** If sums do not overflow, the reports that fit need no more gas than there is. */
  lemma {:induction false} FitIsWithin(r: seq<Report>, g: u64)
    requires SumSeq(r, ReportGas) < TWO64
    ensures SumSeq(r[..FitCount(r, g)], ReportGas) <= g
  {
    if r != [] {
      var init := r[..|r| - 1];
      GasNonNegative(r);
      GasNonNegative(init);
      GasNonNegative([r[|r| - 1]]);
      SumSeqOne(r[|r| - 1], ReportGas);
      FitIsWithin(init, g);
      if FitCount(r, g) == |r| { assert r[..|r|] == r; } else { assert r[..FitCount(r, g)] == init[..FitCount(r, g)]; }
    }
  }

  /** The next limit is what is left of this one. */
  ghost predicate LeavesRest(g: u64, t: seq<Transfer>, used: seq<GasUsed>)
  {
    NextLimit(g, t, used) == g + SumSeq(t, GasOf) - SumSeq(used, UsedOf)
  }

  /** A round with these inputs may use this much gas. */
  ghost predicate MayUse(t: seq<Transfer>, r: seq<Report>, f: map<ServiceId, u64>, used: seq<GasUsed>)
  {
    SumSeq(used, UsedOf) <= Offered(t, r, f)
  }

  ghost predicate NeverWraps(g: u64, t: seq<Transfer>, r: seq<Report>, f: map<ServiceId, u64>)
  {
    forall used :: MayUse(t, r, f, used) ==> LeavesRest(g, t, used)
  }

  /** Can a round hand out no more gas than there is? */
  ghost predicate Covered(g: u64, t: seq<Transfer>, r: seq<Report>, f: map<ServiceId, u64>)
  {
    g + SumSeq(t, GasOf) < TWO64 && SumOver(f, FreeGas) + SumSeq(r, ReportGas) <= g
  }

  lemma {:induction false} Spending(n: nat) returns (used: seq<GasUsed>)
    ensures SumSeq(used, UsedOf) == n
  {
    used := [];
    if n > 0 {
      var rest := Spending(n - 1);
      SumSeqPush(rest, GasUsed(0, 1), UsedOf);
      used := rest + [GasUsed(0, 1)];
    }
  }

  /**
   * Whatever a round uses of the gas it is offered, the next limit does not wrap round: this holds exactly if the
   * gas of free services and of the reports that fit is covered, which can be told before the round.
   */
  lemma NeverWrapsExactly(g: u64, t: seq<Transfer>, r: seq<Report>, f: map<ServiceId, u64>)
    ensures NeverWraps(g, t, r, f) <==> Covered(g, t, r, f)
  {
    SumSeqNonNegative(t, GasOf);
    SumNonNegative(f, FreeGas);
    GasNonNegative(r);
    if Covered(g, t, r, f) {
      forall used | MayUse(t, r, f, used) ensures LeavesRest(g, t, used) {
        SumSeqNonNegative(used, UsedOf);
        Small64(g + SumSeq(t, GasOf) - SumSeq(used, UsedOf));
      }
    } else {
      var none := Spending(0);
      var all := Spending(Offered(t, r, f));
      assert MayUse(t, r, f, none) && MayUse(t, r, f, all);
    }
  }

  /** The gas limit of a block; sums are of 64-bit words. */
  function MaxGas(total: u64, perCore: u64, cores: u64, free: int): u64 { Max(total, Wrap64(perCore * cores + free)) }

  function Fitting(r: seq<Report>, g: u64): seq<Report> { r[..FitCount(r, g)] }

  /**
   * In a block whose limit counts the cores and the free services, the limit of the second round never wraps round
   * exactly if the reports that fit need no more than the limit leaves beside the free services, or than what the cores
   * together may use.
   */
  lemma BlockNeverWrapsExactly(total: u64, perCore: u64, cores: u64, r: seq<Report>, f: map<ServiceId, u64>)
    requires perCore * cores + SumOver(f, FreeGas) < TWO64
    ensures var free := SumOver(f, FreeGas);
      var g := MaxGas(total, perCore, cores, free);
      NeverWraps(g, [], Fitting(r, g), f)
      <==> SumSeq(Fitting(r, g), ReportGas) <= Max(total - free, perCore * cores)
  {
    var free := SumOver(f, FreeGas);
    var g := MaxGas(total, perCore, cores, free);
    SumNonNegative(f, FreeGas);
    LimitOf(total, perCore, cores, free);
    NeverWrapsExactly(g, [], Fitting(r, g), f);
  }

  lemma LimitOf(total: u64, perCore: u64, cores: u64, free: nat)
    requires perCore * cores + free < TWO64
    ensures MaxGas(total, perCore, cores, free) == Max(total, perCore * cores + free)
    ensures MaxGas(total, perCore, cores, free) - free == Max(total - free, perCore * cores)
  {
    Product(perCore, cores);
    Small64(perCore * cores + free);
  }

  lemma Product(x: nat, y: nat)
    ensures x * y >= 0
  {}

  /** The gas of all work in a block, of one core, and the number of cores. */
  const TOTAL_GAS: u64 := 3_500_000_000
  const CORE_GAS: u64 := 10_000_000
  const CORES: u64 := 341

  function Copies<T>(x: T, n: nat): (s: seq<T>)
    ensures |s| == n && forall y | y in s :: y == x
  {
    if n == 0 then [] else Copies(x, n - 1) + [x]
  }

  lemma {:induction false} CopiesSum<T>(x: T, n: nat, f: T -> int)
    ensures SumSeq(Copies(x, n), f) == n * f(x)
  {
    if n > 0 {
      CopiesSum(x, n - 1, f);
      SumSeqPush(Copies(x, n - 1), x, f);
    }
  }

  /** Reports of equal gas all fit if they fit together. */
  lemma {:induction false} CopiesFit(x: Report, n: nat, g: u64)
    requires 0 <= n * ReportGas(x) <= g && ReportGas(x) >= 0
    ensures FitCount(Copies(x, n), g) == n
  {
    if n > 0 {
      CopiesFit(x, n - 1, g);
      CopiesSum(x, n, ReportGas);
      assert Copies(x, n)[..n - 1] == Copies(x, n - 1);
    }
  }

  /**
   * A queue of 350 reports that each use a core's gas, and a free service that is given one unit: all fit the limit of
   * the block, and if all gas is used, the limit of the second round is all but unlimited.
   */
  lemma LimitOverrun<S>(e: S, report: Report)
    requires report.results == [WorkResult(2, CORE_GAS)]
    ensures var f: map<ServiceId, u64>, r, used :=
        map[1 := 1], Copies(report, 350), [GasUsed(1, 1), GasUsed(2, TOTAL_GAS)];
      var g := MaxGas(TOTAL_GAS, CORE_GAS, CORES, SumOver(f, FreeGas));
      && Fitting(r, g) == r
      && Frugal(Round(e, [], {}, used), [], r, f)
      && NextLimit(g, [], used) == TWO64 - 1
  {
    var f: map<ServiceId, u64>, r, used :=
      map[1 := 1], Copies(report, 350), [GasUsed(1, 1), GasUsed(2, TOTAL_GAS)];
    SumSeqOne(GasUsed(1, 1), UsedOf);
    SumSeqPush([GasUsed(1, 1)], GasUsed(2, TOTAL_GAS), UsedOf);
    assert [GasUsed(1, 1)] + [GasUsed(2, TOTAL_GAS)] == used;
    SumSeqOne(WorkResult(2, CORE_GAS), WorkGas);
    CopiesSum(report, 350, ReportGas);
    CopiesFit(report, 350, TOTAL_GAS);
    assert r[..350] == r;
    var none: map<ServiceId, u64> := map[];
    SumPut(none, FreeGas, 1, 1);
    assert f == none[1 := 1];
  }

  lemma FreeNothing()
    ensures SumOver<ServiceId, u64>(map[], FreeGas) == 0
  {}

  /** Without free services, what fits is covered. */
  lemma FittingIsCovered(g: u64, t: seq<Transfer>, r: seq<Report>)
    requires g + SumSeq(t, GasOf) < TWO64 && SumSeq(r, ReportGas) < TWO64
    ensures Covered(g, t, Fitting(r, g), map[])
  {
    FitIsWithin(r, g);
    FreeNothing();
  }

  /** A round whose gas is covered hands on no more than it leaves. */
  lemma RoundWithin<S>(p: Round<S>, g: u64, t: seq<Transfer>, r: seq<Report>, f: map<ServiceId, u64>)
    requires Frugal(p, t, r, f) && Covered(g, t, r, f)
    ensures LeavesRest(g, t, p.used) && SumSeq(p.transfers, GasOf) >= 0
    ensures NextLimit(g, t, p.used) + SumSeq(p.transfers, GasOf) <= g + SumSeq(t, GasOf)
  {
    SumSeqNonNegative(p.used, UsedOf);
    Small64(g + SumSeq(t, GasOf) - SumSeq(p.used, UsedOf));
    Weights(p.transfers);
    SumSeqNonNegative(p.transfers, GasOf);
  }

  lemma {:induction false} SuffixGas(r: seq<Report>, i: nat)
    requires i <= |r|
    ensures SumSeq(r[i..], ReportGas) <= SumSeq(r, ReportGas)
  {
    assert r == r[..i] + r[i..];
    SumSeqConcat(r[..i], r[i..], ReportGas);
    GasNonNegative(r[..i]);
  }

  /**
   * All rounds together execute no more than the limit they start with and the gas of the transfers received,
   * provided that the gas of the first is covered; that of rounds without free services always is.
   */
  lemma {:induction false} ExecutionIsLimited<S(!new)>(
      par: Parallel<S>, g: u64, t: seq<Transfer>, r: seq<Report>, e: S, f: map<ServiceId, u64>)
    requires AlwaysFrugal(par) && g + SumSeq(t, GasOf) < TWO64 && SumSeq(r, ReportGas) < TWO64
    requires f == map[] || Covered(g, t, Fitting(r, g), f)
    ensures Executed(par, g, t, r, e, f) <= g + SumSeq(t, GasOf)
    decreases if f == map[] then 0 else 1, |r|, Weight(t)
  {
    var i := FitCount(r, g);
    SumSeqNonNegative(t, GasOf);
    if !(t == [] && i == 0 && f == map[]) && par(e, t, r[..i], f).Some? {
      var p := par(e, t, r[..i], f).value;
      TransfersWane(par, e, t, r[..i], f);
      assert FrugalAt(par, e, t, r[..i], f);
      FittingIsCovered(g, t, r);
      RoundWithin(p, g, t, r[..i], f);
      SuffixGas(r, i);
      ExecutionIsLimited(par, NextLimit(g, t, p.used), p.transfers, r[i..], p.state, map[]);
    }
  }

  /** When the rounds end, the next report does not fit what gas is left. */
  lemma {:induction false} EndsWhenNothingFits<S(!new)>(
      par: Parallel<S>, g: u64, t: seq<Transfer>, r: seq<Report>, e: S, f: map<ServiceId, u64>) returns (left: u64)
    requires AlwaysFrugal(par) && Outer(par, g, t, r, e, f).Some?
    ensures var n := Outer(par, g, t, r, e, f).value.n; n <= |r| && FitCount(r[n..], left) == 0
    decreases if f == map[] then 0 else 1, |r|, Weight(t)
  {
    var i := FitCount(r, g);
    if t == [] && i == 0 && f == map[] {
      left := g;
      assert r[0..] == r;
    } else {
      var p := par(e, t, r[..i], f).value;
      TransfersWane(par, e, t, r[..i], f);
      left := EndsWhenNothingFits(par, NextLimit(g, t, p.used), p.transfers, r[i..], p.state, map[]);
      SplitSuffix(r, i, Outer(par, NextLimit(g, t, p.used), p.transfers, r[i..], p.state, map[]).value.n);
    }
  }

  type Condition<!S> = (S, seq<Transfer>, seq<Report>, map<ServiceId, u64>) -> bool

  type Measure<!S> = (S, seq<Transfer>, seq<Report>, map<ServiceId, u64>) -> int

  /** A condition holds before every round. */
  ghost predicate Throughout<S(!new)>(
      par: Parallel<S>, ok: Condition<S>, g: u64, t: seq<Transfer>, r: seq<Report>, e: S, f: map<ServiceId, u64>)
    requires AlwaysFrugal(par)
    decreases if f == map[] then 0 else 1, |r|, Weight(t)
  {
    var i := FitCount(r, g);
    if t == [] && i == 0 && f == map[] then true
    else
      ok(e, t, r[..i], f) &&
      match par(e, t, r[..i], f)
      case None => true
      case Some(p) =>
        TransfersWane(par, e, t, r[..i], f);
        Throughout(par, ok, NextLimit(g, t, p.used), p.transfers, r[i..], p.state, map[])
  }

  /** The sum of what is measured before every round. */
  ghost function Total<S(!new)>(
      par: Parallel<S>, measure: Measure<S>, g: u64, t: seq<Transfer>, r: seq<Report>, e: S, f: map<ServiceId, u64>)
    : int
    requires AlwaysFrugal(par)
    decreases if f == map[] then 0 else 1, |r|, Weight(t)
  {
    var i := FitCount(r, g);
    if t == [] && i == 0 && f == map[] then 0
    else
      measure(e, t, r[..i], f) +
      match par(e, t, r[..i], f)
      case None => 0
      case Some(p) =>
        TransfersWane(par, e, t, r[..i], f);
        Total(par, measure, NextLimit(g, t, p.used), p.transfers, r[i..], p.state, map[])
  }

  /** A round grows a state by no more than the gas it uses beyond what it sends along. */
  ghost predicate GrowsAt<S>(
      par: Parallel<S>, size: S -> int, e: S, t: seq<Transfer>, r: seq<Report>, f: map<ServiceId, u64>)
  {
    par(e, t, r, f).Some? ==>
      var p := par(e, t, r, f).value;
      size(p.state) + SumSeq(p.transfers, CostOf) <= size(e) + SumSeq(p.used, UsedOf)
  }

  ghost predicate GrowsByGas<S(!new)>(par: Parallel<S>, size: S -> int)
  {
    forall e, t, r, f :: GrowsAt(par, size, e, t, r, f)
  }

  /** The size of a state, and how far it may yet grow. */
  ghost function Reach<S>(size: S -> int, e: S, t: seq<Transfer>, r: seq<Report>, f: map<ServiceId, u64>): int
  {
    size(e) + Offered(t, r, f)
  }

  /** What a state and the gas still to be offered may reach never grows from round to round. */
  lemma ReachWanes<S(!new)>(
      par: Parallel<S>, size: S -> int, e: S, t: seq<Transfer>, r: seq<Report>, i: nat, f: map<ServiceId, u64>)
    requires AlwaysFrugal(par) && GrowsByGas(par, size) && i <= |r|
    ensures Reach(size, e, t, r[..i], f) <= Reach(size, e, t, r, f)
    ensures par(e, t, r[..i], f).Some? ==>
      var p := par(e, t, r[..i], f).value;
      Reach(size, p.state, p.transfers, r[i..], map[]) <= Reach(size, e, t, r, f)
  {
    assert r == r[..i] + r[i..];
    SumSeqConcat(r[..i], r[i..], ReportGas);
    GasNonNegative(r[i..]);
    FreeNothing();
    assert FrugalAt(par, e, t, r[..i], f) && GrowsAt(par, size, e, t, r[..i], f);
    if par(e, t, r[..i], f).Some? { Weights(par(e, t, r[..i], f).value.transfers); }
  }

  /** A round returns if a condition on its inputs holds and there is room for what the state may reach. */
  ghost predicate ReturnsAt<S>(
      par: Parallel<S>, ok: Condition<S>, size: S -> int, bound: int,
      e: S, t: seq<Transfer>, r: seq<Report>, f: map<ServiceId, u64>)
  {
    ok(e, t, r, f) && Reach(size, e, t, r, f) < bound ==> par(e, t, r, f).Some?
  }

  /** With room for what the reports and free services of a block may reach, there is room in every round. */
  lemma {:induction false} RoundsReturn<S(!new)>(
      par: Parallel<S>, ok: Condition<S>, size: S -> int, bound: int,
      g: u64, t: seq<Transfer>, r: seq<Report>, e: S, f: map<ServiceId, u64>)
    requires AlwaysFrugal(par) && GrowsByGas(par, size)
    requires forall e, t, r, f :: ReturnsAt(par, ok, size, bound, e, t, r, f)
    requires Throughout(par, ok, g, t, r, e, f) && Reach(size, e, t, r, f) < bound
    ensures Outer(par, g, t, r, e, f).Some?
    decreases if f == map[] then 0 else 1, |r|, Weight(t)
  {
    var i := FitCount(r, g);
    if !(t == [] && i == 0 && f == map[]) {
      ReachWanes(par, size, e, t, r, i, f);
      assert ReturnsAt(par, ok, size, bound, e, t, r[..i], f);
      var p := par(e, t, r[..i], f).value;
      TransfersWane(par, e, t, r[..i], f);
      RoundsReturn(par, ok, size, bound, NextLimit(g, t, p.used), p.transfers, r[i..], p.state, map[]);
    }
  }

  /** What a state and transfers under way are worth with what was lost, modulo 2^64. */
  ghost function Left<S>(worth: (S, seq<Transfer>) -> int, e: S, t: seq<Transfer>, lost: int): u64
  {
    Wrap64(worth(e, t) + lost)
  }

  /** A round that may begin, and has room, leaves all that was there but for a measured loss. */
  ghost predicate RoundKeeps<S>(
      par: Parallel<S>, ok: Condition<S>, loss: Measure<S>, size: S -> int, bound: int,
      worth: (S, seq<Transfer>) -> int, e: S, t: seq<Transfer>, r: seq<Report>, f: map<ServiceId, u64>)
  {
    ok(e, t, r, f) && Reach(size, e, t, r, f) < bound && par(e, t, r, f).Some? ==>
      var p := par(e, t, r, f).value;
      Left(worth, p.state, p.transfers, loss(e, t, r, f)) == Left(worth, e, t, 0)
  }

  /** So do all rounds together. */
  lemma {:induction false} RoundsKeep<S(!new)>(
      par: Parallel<S>, ok: Condition<S>, loss: Measure<S>, size: S -> int, bound: int,
      worth: (S, seq<Transfer>) -> int,
      g: u64, t: seq<Transfer>, r: seq<Report>, e: S, f: map<ServiceId, u64>, last: S, lost: int)
    requires AlwaysFrugal(par) && GrowsByGas(par, size)
    requires forall e, t, r, f :: RoundKeeps(par, ok, loss, size, bound, worth, e, t, r, f)
    requires Throughout(par, ok, g, t, r, e, f) && Reach(size, e, t, r, f) < bound && Outer(par, g, t, r, e, f).Some?
    requires last == Outer(par, g, t, r, e, f).value.state && lost == Total(par, loss, g, t, r, e, f)
    ensures Left(worth, last, [], lost) == Left(worth, e, t, 0)
    decreases if f == map[] then 0 else 1, |r|, Weight(t)
  {
    var i := FitCount(r, g);
    if !(t == [] && i == 0 && f == map[]) {
      var p := par(e, t, r[..i], f).value;
      TransfersWane(par, e, t, r[..i], f);
      ReachWanes(par, size, e, t, r, i, f);
      RoundKept(par, ok, loss, size, bound, worth, e, t, r[..i], f);
      var g' := NextLimit(g, t, p.used);
      var later := Total(par, loss, g', p.transfers, r[i..], p.state, map[]);
      RoundsKeep(par, ok, loss, size, bound, worth, g', p.transfers, r[i..], p.state, map[], last, later);
      LeftAfter(worth, last, later, p.state, p.transfers, loss(e, t, r[..i], f));
    }
  }

  lemma RoundKept<S>(
      par: Parallel<S>, ok: Condition<S>, loss: Measure<S>, size: S -> int, bound: int,
      worth: (S, seq<Transfer>) -> int, e: S, t: seq<Transfer>, r: seq<Report>, f: map<ServiceId, u64>)
    requires RoundKeeps(par, ok, loss, size, bound, worth, e, t, r, f)
    requires ok(e, t, r, f) && Reach(size, e, t, r, f) < bound && par(e, t, r, f).Some?
    ensures var p := par(e, t, r, f).value;
      Left(worth, p.state, p.transfers, loss(e, t, r, f)) == Left(worth, e, t, 0)
  {}

  lemma LeftAfter<S>(worth: (S, seq<Transfer>) -> int, last: S, later: int, next: S, t: seq<Transfer>, loss: int)
    requires Left(worth, last, [], later) == Left(worth, next, t, 0)
    ensures Left(worth, last, [], loss + later) == Left(worth, next, t, loss)
  {
    var x, y := worth(last, []) + later, worth(next, t);
    var k := (x - y) / TWO64;
    assert x == y + TWO64 * k;
    assert x + loss == y + loss + TWO64 * k;
  }

  /** A round that may begin, and has room, keeps a property of states. */
  ghost predicate RoundPreserves<S>(
      par: Parallel<S>, ok: Condition<S>, size: S -> int, bound: int, inv: S -> bool,
      e: S, t: seq<Transfer>, r: seq<Report>, f: map<ServiceId, u64>)
  {
    inv(e) && ok(e, t, r, f) && Reach(size, e, t, r, f) < bound && par(e, t, r, f).Some? ==>
    inv(par(e, t, r, f).value.state)
  }

  /** So do all rounds together. */
  lemma {:induction false} RoundsPreserve<S(!new)>(
      par: Parallel<S>, ok: Condition<S>, size: S -> int, bound: int, inv: S -> bool,
      g: u64, t: seq<Transfer>, r: seq<Report>, e: S, f: map<ServiceId, u64>)
    requires AlwaysFrugal(par) && GrowsByGas(par, size)
    requires forall e, t, r, f :: RoundPreserves(par, ok, size, bound, inv, e, t, r, f)
    requires Throughout(par, ok, g, t, r, e, f) && Reach(size, e, t, r, f) < bound && Outer(par, g, t, r, e, f).Some?
    requires inv(e)
    ensures inv(Outer(par, g, t, r, e, f).value.state)
    decreases if f == map[] then 0 else 1, |r|, Weight(t)
  {
    var i := FitCount(r, g);
    if !(t == [] && i == 0 && f == map[]) {
      var p := par(e, t, r[..i], f).value;
      TransfersWane(par, e, t, r[..i], f);
      ReachWanes(par, size, e, t, r, i, f);
      assert RoundPreserves(par, ok, size, bound, inv, e, t, r[..i], f);
      RoundsPreserve(par, ok, size, bound, inv, NextLimit(g, t, p.used), p.transfers, r[i..], p.state, map[]);
    }
  }

  /** Two rounds that yield the same, but for the order in which they list it. */
  ghost predicate SameRound<S>(p: Option<Round<S>>, q: Option<Round<S>>)
  {
    && (p.Some? <==> q.Some?)
    && (p.Some? ==>
          && p.value.state == q.value.state && p.value.outputs == q.value.outputs
          && multiset(p.value.transfers) == multiset(q.value.transfers)
          && multiset(p.value.used) == multiset(q.value.used))
  }

  ghost predicate SameOutcome<S>(p: Option<Outcome<S>>, q: Option<Outcome<S>>)
  {
    && (p.Some? <==> q.Some?)
    && (p.Some? ==>
          && p.value.n == q.value.n && p.value.state == q.value.state && p.value.outputs == q.value.outputs
          && multiset(p.value.used) == multiset(q.value.used))
  }

  /** Two ways to run a round yield the same for the same transfers in any order. */
  ghost predicate RoundsAgree<S>(
      par: Parallel<S>, par': Parallel<S>, ok: Condition<S>,
      e: S, t: seq<Transfer>, t': seq<Transfer>, r: seq<Report>, f: map<ServiceId, u64>)
  {
    multiset(t) == multiset(t') && ok(e, t, r, f) ==> SameRound(par(e, t, r, f), par'(e, t', r, f))
  }

  lemma SameLimit(g: u64, t: seq<Transfer>, t': seq<Transfer>, used: seq<GasUsed>, used': seq<GasUsed>)
    requires multiset(t) == multiset(t') && multiset(used) == multiset(used')
    ensures NextLimit(g, t, used) == NextLimit(g, t', used')
  {
    SumSeqPermuted(t, t', GasOf);
    SumSeqPermuted(used, used', UsedOf);
  }

  lemma SameEmpty<T>(s: seq<T>, s': seq<T>)
    requires multiset(s) == multiset(s')
    ensures s == [] <==> s' == []
  {
    assert |s| == |multiset(s)| && |s'| == |multiset(s')|;
  }

  lemma JoinSame<S>(n: nat, p: Round<S>, p': Round<S>, o: Option<Outcome<S>>, o': Option<Outcome<S>>)
    requires SameRound(Some(p), Some(p')) && SameOutcome(o, o')
    ensures SameOutcome(Joined(n, p, o), Joined(n, p', o'))
  {}

  /** So do all rounds together. */
  lemma {:induction false} OuterAgrees<S(!new)>(
      par: Parallel<S>, par': Parallel<S>, ok: Condition<S>,
      g: u64, t: seq<Transfer>, t': seq<Transfer>, r: seq<Report>, e: S, f: map<ServiceId, u64>)
    requires AlwaysFrugal(par) && AlwaysFrugal(par') && multiset(t) == multiset(t')
    requires forall e, t, t', r, f :: RoundsAgree(par, par', ok, e, t, t', r, f)
    requires Throughout(par, ok, g, t, r, e, f)
    ensures SameOutcome(Outer(par, g, t, r, e, f), Outer(par', g, t', r, e, f))
    decreases if f == map[] then 0 else 1, |r|, Weight(t)
  {
    var i := FitCount(r, g);
    SameEmpty(t, t');
    if !(t == [] && i == 0 && f == map[]) {
      assert RoundsAgree(par, par', ok, e, t, t', r[..i], f);
      if par(e, t, r[..i], f).Some? {
        var p, p' := par(e, t, r[..i], f).value, par'(e, t', r[..i], f).value;
        TransfersWane(par, e, t, r[..i], f);
        var g' := NextLimit(g, t, p.used);
        SameLimit(g, t, t', p.used, p'.used);
        OuterAgrees(par, par', ok, g', p.transfers, p'.transfers, r[i..], p.state, map[]);
        JoinSame(i, p, p', Outer(par, g', p.transfers, r[i..], p.state, map[]),
                 Outer(par', g', p'.transfers, r[i..], p.state, map[]));
      }
    }
  }
}
