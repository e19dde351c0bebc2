/**
 * One round of accumulation: which services take part, the gas each is given, and how their results are put together,
 * whatever the order in which services are visited.
 */
module Rounds {
  import opened Words
  import opened Sums
  import opened Accounts
  import opened Ledger
  import opened Scheduler
  import opened OuterAccumulation

  function GasFor(s: ServiceId): Transfer -> int { (t: Transfer) => if t.receiver == s then t.gasLimit else 0 }

  function WorkFor(s: ServiceId): WorkResult -> int { (w: WorkResult) => if w.service == s then w.gas else 0 }

  function ReportFor(s: ServiceId): Report -> int { (r: Report) => SumSeq(r.results, WorkFor(s)) }

  function FreeFor(s: ServiceId, f: map<ServiceId, u64>): int { if s in f then f[s] else 0 }

  /** The gas a service is given in a round, before it is cut to 64 bits. */
  function Share(s: ServiceId, t: seq<Transfer>, r: seq<Report>, f: map<ServiceId, u64>): int
  {
    FreeFor(s, f) + SumSeq(r, ReportFor(s)) + SumSeq(t, GasFor(s))
  }

  function Budget(s: ServiceId, t: seq<Transfer>, r: seq<Report>, f: map<ServiceId, u64>): u64
  {
    Wrap64(Share(s, t, r, f))
  }

  /** The services that take part in a round. */
  function Involved(t: seq<Transfer>, r: seq<Report>, f: map<ServiceId, u64>): set<ServiceId>
  {
    (set x, w | x in r && w in x.results :: w.service) + f.Keys + (set x | x in t :: x.receiver)
  }

  method InvolvedServices(t: seq<Transfer>, r: seq<Report>, f: map<ServiceId, u64>) returns (s: set<ServiceId>)
    ensures s == Involved(t, r, f)
  {
    s := {};
    for i := 0 to |r|
      invariant s == set x, w | x in r[..i] && w in x.results :: w.service
    {
      ghost var before := s;
      for j := 0 to |r[i].results|
        invariant s == before + set w | w in r[i].results[..j] :: w.service
      {
        assert r[i].results[..j + 1] == r[i].results[..j] + [r[i].results[j]];
        s := s + {r[i].results[j].service};
      }
      assert r[i].results[..|r[i].results|] == r[i].results;
      assert r[..i + 1] == r[..i] + [r[i]];
    }
    assert r[..|r|] == r;
    s := s + f.Keys;
    for i := 0 to |t|
      invariant s == (set x, w | x in r && w in x.results :: w.service) + f.Keys + set x | x in t[..i] :: x.receiver
    {
      assert t[..i + 1] == t[..i] + [t[i]];
      s := s + {t[i].receiver};
    }
    assert t[..|t|] == t;
  }

  function SharesOf(t: seq<Transfer>, r: seq<Report>, f: map<ServiceId, u64>): ServiceId -> int
  {
    (s: ServiceId) => Share(s, t, r, f)
  }

  function PartAt<T>(part: ServiceId -> (T -> int), x: T): ServiceId -> int { (s: ServiceId) => part(s)(x) }

  function PartsOf<T>(part: ServiceId -> (T -> int), items: seq<T>): ServiceId -> int
  {
    (s: ServiceId) => SumSeq(items, part(s))
  }

  lemma {:induction false} SumSeqAdd<T>(s: seq<T>, f: T -> int, g: T -> int, h: T -> int)
    requires forall x | x in s :: h(x) == f(x) + g(x)
    ensures SumSeq(s, h) == SumSeq(s, f) + SumSeq(s, g)
  {
    if s != [] { SumSeqAdd(s[..|s| - 1], f, g, h); }
  }

  lemma {:induction false} SumSeqZero<T>(s: seq<T>, f: T -> int)
    requires forall x | x in s :: f(x) == 0
    ensures SumSeq(s, f) == 0
  {
    if s != [] { SumSeqZero(s[..|s| - 1], f); }
  }

  /** If every item is shared out among the services, so are all items together. */
  lemma {:induction false} SharedOut<T>(items: seq<T>, order: seq<ServiceId>, part: ServiceId -> (T -> int),
        whole: T -> int)
    requires forall x | x in items :: SumSeq(order, PartAt(part, x)) == whole(x)
    ensures SumSeq(order, PartsOf(part, items)) == SumSeq(items, whole)
  {
    if items == [] {
      SumSeqZero(order, PartsOf(part, items));
    } else {
      var init, last := items[..|items| - 1], items[|items| - 1];
      SharedOut(init, order, part, whole);
      SumSeqAdd(order, PartsOf(part, init), PartAt(part, last), PartsOf(part, items));
    }
  }

  /** Of a claim of one service, all goes to that service. */
  lemma {:induction false} OneClaims(order: seq<ServiceId>, who: ServiceId, gas: int, part: ServiceId -> int)
    requires forall i, j | 0 <= i < j < |order| :: order[i] != order[j]
    requires forall s | s in order :: part(s) == if s == who then gas else 0
    ensures SumSeq(order, part) == if who in order then gas else 0
  {
    if order != [] { OneClaims(order[..|order| - 1], who, gas, part); }
  }

  /** The shares of all services make up exactly the gas a round hands out. */
  lemma SharesAddUp(order: seq<ServiceId>, t: seq<Transfer>, r: seq<Report>, f: map<ServiceId, u64>)
    requires EachOnce(order, Involved(t, r, f))
    ensures SumSeq(order, SharesOf(t, r, f)) == Offered(t, r, f)
  {
    var work, gas := PartsOf(ReportFor, r), PartsOf(GasFor, t);
    var free := (s: ServiceId) => FreeFor(s, f);
    forall x | x in r ensures SumSeq(order, PartAt(ReportFor, x)) == ReportGas(x) {
      ReportShared(order, x);
    }
    SharedOut(r, order, ReportFor, ReportGas);
    forall x | x in t ensures SumSeq(order, PartAt(GasFor, x)) == GasOf(x) {
      forall s | s in order ensures PartAt(GasFor, x)(s) == if s == x.receiver then x.gasLimit else 0 {
        assert GasFor(s)(x) == if s == x.receiver then x.gasLimit else 0;
      }
      OneClaims(order, x.receiver, x.gasLimit, PartAt(GasFor, x));
    }
    SharedOut(t, order, GasFor, GasOf);
    SumByKeys(order, f, FreeGas, free);
    var both := (s: ServiceId) => FreeFor(s, f) + SumSeq(r, ReportFor(s));
    SumSeqAdd(order, free, work, both);
    SumSeqAdd(order, both, gas, SharesOf(t, r, f));
  }

  lemma ReportShared(order: seq<ServiceId>, x: Report)
    requires forall i, j | 0 <= i < j < |order| :: order[i] != order[j]
    requires forall w | w in x.results :: w.service in order
    ensures SumSeq(order, PartAt(ReportFor, x)) == ReportGas(x)
  {
    forall w | w in x.results ensures SumSeq(order, PartAt(WorkFor, w)) == WorkGas(w) {
      forall s | s in order ensures PartAt(WorkFor, w)(s) == if s == w.service then w.gas else 0 {
        assert WorkFor(s)(w) == if s == w.service then w.gas else 0;
      }
      OneClaims(order, w.service, w.gas, PartAt(WorkFor, w));
    }
    SharedOut(x.results, order, WorkFor, WorkGas);
    SumSeqSame(order, PartsOf(WorkFor, x.results), PartAt(ReportFor, x));
  }
}
