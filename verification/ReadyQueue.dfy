/**
 * The ready queue and the window of accumulated packages from block to block: a ring of queues indexed by slot,
 * and a sliding window of one epoch.
 */
module ReadyQueue {
  import opened Words
  import opened Scheduler

  /** The window, oldest first, and the ring. */
  datatype State = State(tau: u32, xi: seq<set<Hash>>, ready: seq<Queue>)

  /** A block: the reports that became available, its slot, and how many reports its gas allows to accumulate. */
  datatype Block = Block(available: seq<Report>, slot: u32, n: nat)

  predicate Sized(s: State) { |s.xi| == |s.ready| > 0 }

  function Union(xi: seq<set<Hash>>): set<Hash>
  {
    if xi == [] then {} else Union(xi[..|xi| - 1]) + xi[|xi| - 1]
  }

  lemma {:induction false} UnionHas(xi: seq<set<Hash>>)
    ensures forall i | 0 <= i < |xi| :: xi[i] <= Union(xi)
    ensures forall h | h in Union(xi) :: exists i :: 0 <= i < |xi| && h in xi[i]
  {
    if xi != [] { UnionHas(xi[..|xi| - 1]); }
  }

  /** The reports that depend on nothing. */
  function Immediate(w: seq<Report>): seq<Report>
  {
    if w == [] then []
    else
      var rest, last := Immediate(w[..|w| - 1]), w[|w| - 1];
      if Needs(last) == [] then rest + [last] else rest
  }

  /** The others, waiting for everything they depend on. */
  function Waiting(w: seq<Report>): Queue
  {
    if w == [] then []
    else
      var rest, last := Waiting(w[..|w| - 1]), w[|w| - 1];
      if Needs(last) == [] then rest else rest + [Item(last, Needs(last))]
  }

  function Flatten(qs: seq<Queue>): Queue
  {
    if qs == [] then [] else Flatten(qs[..|qs| - 1]) + qs[|qs| - 1]
  }

  /** The new reports that have to wait. */
  function Queued(s: State, b: Block): Queue { Edit(Waiting(b.available), Union(s.xi)) }

  /** The ring read from the current slot round, and the new reports. */
  function Composed(s: State, b: Block): seq<Queue>
    requires Sized(s)
  {
    var m := b.slot % |s.ready|;
    s.ready[m..] + s.ready[..m] + [Queued(s, b)]
  }

  /** The reports that can be accumulated in a block, in order. */
  function Accumulatable(s: State, b: Block): seq<Report>
    requires Sized(s)
  {
    var now := Immediate(b.available);
    now + Priority(Edit(Flatten(Composed(s, b)), Packages(now)))
  }

  /** How long ago ring position j was current. */
  function Age(j: nat, slot: u32, size: nat): nat
    requires j < size
  {
    (slot % size - j + size) % size
  }

  /** What ring position j holds after a block. */
  function NextAt(s: State, b: Block, queued: Queue, done: set<Hash>, j: nat): Queue
    requires Sized(s) && j < |s.ready|
  {
    var i := Age(j, b.slot, |s.ready|);
    if i == 0 then Edit(queued, done)
    else if i < Wrap32(b.slot - s.tau) then []
    else Edit(s.ready[j], done)
  }

  /** What a block accumulates. */
  function Done(s: State, b: Block): seq<Report>
    requires Sized(s)
  {
    if b.n <= |Accumulatable(s, b)| then Accumulatable(s, b)[..b.n] else Accumulatable(s, b)
  }

  function Next(s: State, b: Block): (s': State)
    requires Sized(s)
    ensures Sized(s') && |s'.xi| == |s.xi|
  {
    var done := Packages(Done(s, b));
    State(b.slot, s.xi[1..] + [done],
      seq(|s.ready|, j requires 0 <= j < |s.ready| => NextAt(s, b, Queued(s, b), done, j)))
  }

  /**
   * A queued report waits for everything it depends on but what has been accumulated; neither it nor what it waits
   * for is in the window.
   */
  predicate ItemOk(c: Item, ever: set<Hash>, window: set<Hash>)
  {
    && (forall h | h in Needs(c.report) :: h in c.deps || h in ever)
    && c.report.package !in window && forall h | h in c.deps :: h !in window
  }

  predicate QueueOk(r: Queue, ever: set<Hash>, window: set<Hash>)
  {
    forall c | c in r :: ItemOk(c, ever, window)
  }

  /** The invariant; `ever` are all packages ever accumulated. */
  ghost predicate Orderly(s: State, ever: set<Hash>)
  {
    Sized(s) && Union(s.xi) <= ever && forall j | 0 <= j < |s.ready| :: QueueOk(s.ready[j], ever, Union(s.xi))
  }

  lemma EditOk(r: Queue, x: set<Hash>, ever: set<Hash>, window: set<Hash>)
    requires QueueOk(r, ever, window)
    ensures QueueOk(Edit(r, x), ever + x, window + x)
  {
    forall d | d in Edit(r, x) ensures ItemOk(d, ever + x, window + x) {
      var c := EditedFrom(r, x, d);
      WithoutHas(c.deps, x);
      assert ItemOk(c, ever, window);
    }
  }

  lemma OkWeakens(r: Queue, ever: set<Hash>, window: set<Hash>, ever': set<Hash>, window': set<Hash>)
    requires QueueOk(r, ever, window) && ever <= ever' && window' <= window
    ensures QueueOk(r, ever', window')
  {
    forall c | c in r ensures ItemOk(c, ever', window') { assert ItemOk(c, ever, window); }
  }

  lemma {:induction false} WaitingOk(w: seq<Report>)
    ensures QueueOk(Waiting(w), {}, {})
  {
    if w != [] { WaitingOk(w[..|w| - 1]); }
  }

  lemma {:induction false} FlattenOk(qs: seq<Queue>, ever: set<Hash>, window: set<Hash>)
    requires forall j | 0 <= j < |qs| :: QueueOk(qs[j], ever, window)
    ensures QueueOk(Flatten(qs), ever, window)
  {
    if qs != [] {
      FlattenOk(qs[..|qs| - 1], ever, window);
      assert QueueOk(qs[|qs| - 1], ever, window);
    }
  }

  lemma QueuedOk(s: State, b: Block, ever: set<Hash>)
    requires Orderly(s, ever)
    ensures QueueOk(Queued(s, b), ever, Union(s.xi))
  {
    var x := Union(s.xi);
    WaitingOk(b.available);
    EditOk(Waiting(b.available), x, {}, {});
    OkWeakens(Queued(s, b), {} + x, {} + x, ever, x);
  }

  lemma ComposedOk(s: State, b: Block, ever: set<Hash>)
    requires Orderly(s, ever)
    ensures QueueOk(Flatten(Composed(s, b)), ever, Union(s.xi))
  {
    QueuedOk(s, b, ever);
    FlattenOk(Composed(s, b), ever, Union(s.xi));
  }

  lemma {:induction false} ImmediateNeedsNothing(w: seq<Report>, k: nat)
    requires k < |Immediate(w)|
    ensures Needs(Immediate(w)[k]) == []
  {
    if k < |Immediate(w[..|w| - 1])| { ImmediateNeedsNothing(w[..|w| - 1], k); }
  }

  /** What a report depends on has been accumulated before, or comes before it. */
  predicate InOrder(ever: set<Hash>, w: seq<Report>, k: nat)
    requires k < |w|
  {
    Among(Needs(w[k]), ever + Packages(w[..k]))
  }

  lemma AccumulatesInOrder(s: State, b: Block, ever: set<Hash>, k: nat)
    requires Orderly(s, ever) && k < |Accumulatable(s, b)|
    ensures InOrder(ever, Accumulatable(s, b), k)
  {
    var now := Immediate(b.available);
    if k < |now| {
      ImmediateNeedsNothing(b.available, k);
    } else {
      var x := Packages(now);
      var q := Flatten(Composed(s, b));
      ComposedOk(s, b, ever);
      EditOk(q, x, ever, Union(s.xi));
      var c := DependenciesFirst(Edit(q, x), k - |now|);
      assert ItemOk(c, ever + x, Union(s.xi) + x);
      assert Accumulatable(s, b)[..k] == now + Priority(Edit(q, x))[..k - |now|];
      PackagesConcat(now, Priority(Edit(q, x))[..k - |now|]);
    }
  }

  lemma DoneInOrder(s: State, b: Block, ever: set<Hash>, k: nat)
    requires Orderly(s, ever) && k < |Done(s, b)|
    ensures InOrder(ever, Done(s, b), k)
  {
    AccumulatesInOrder(s, b, ever, k);
    assert Done(s, b)[..k] == Accumulatable(s, b)[..k];
  }

  lemma NextWindow(xi: seq<set<Hash>>, done: set<Hash>)
    requires xi != []
    ensures Union(xi[1..] + [done]) <= Union(xi) + done
  {
    UnionHas(xi);
    UnionHas(xi[1..] + [done]);
  }

  /** Every block keeps the queue and the window in order. */
  lemma BlockKeepsOrder(s: State, b: Block, ever: set<Hash>)
    requires Orderly(s, ever)
    ensures Orderly(Next(s, b), ever + Packages(Done(s, b)))
  {
    var done, x, s' := Packages(Done(s, b)), Union(s.xi), Next(s, b);
    NextWindow(s.xi, done);
    QueuedOk(s, b, ever);
    forall j | 0 <= j < |s'.ready| ensures QueueOk(s'.ready[j], ever + done, Union(s'.xi)) {
      var r := if Age(j, b.slot, |s.ready|) == 0 then Queued(s, b) else s.ready[j];
      assert QueueOk(s.ready[j], ever, x);
      EditOk(r, done, ever, x);
      OkWeakens(Edit(r, done), ever + done, x + done, ever + done, Union(s'.xi));
    }
  }

  /** Everything accumulated over a run of blocks, in order. */
  function History(s: State, blocks: seq<Block>): seq<Report>
    requires Sized(s)
    decreases |blocks|
  {
    if blocks == [] then [] else Done(s, blocks[0]) + History(Next(s, blocks[0]), blocks[1..])
  }

  function After(s: State, blocks: seq<Block>): (s': State)
    requires Sized(s)
    ensures Sized(s')
    decreases |blocks|
  {
    if blocks == [] then s else After(Next(s, blocks[0]), blocks[1..])
  }

  /**
   * Over every run of blocks, no report is accumulated before all that it depends on; the invariant holds throughout.
   */
  lemma {:induction false} HistoryInOrder(s: State, blocks: seq<Block>, ever: set<Hash>)
    requires Orderly(s, ever)
    ensures forall k | 0 <= k < |History(s, blocks)| :: InOrder(ever, History(s, blocks), k)
    ensures Orderly(After(s, blocks), ever + Packages(History(s, blocks)))
    decreases |blocks|
  {
    if blocks != [] {
      var b := blocks[0];
      var done, rest := Done(s, b), History(Next(s, b), blocks[1..]);
      BlockKeepsOrder(s, b, ever);
      HistoryInOrder(Next(s, b), blocks[1..], ever + Packages(done));
      PackagesConcat(done, rest);
      assert ever + Packages(done) + Packages(rest) == ever + Packages(done + rest);
      forall k | 0 <= k < |done| ensures InOrder(ever, done, k) { DoneInOrder(s, b, ever, k); }
      InOrderConcat(ever, done, rest);
    }
  }

  lemma InOrderConcat(ever: set<Hash>, v: seq<Report>, w: seq<Report>)
    requires forall k | 0 <= k < |v| :: InOrder(ever, v, k)
    requires forall k | 0 <= k < |w| :: InOrder(ever + Packages(v), w, k)
    ensures forall k | 0 <= k < |v + w| :: InOrder(ever, v + w, k)
  {
    forall k | 0 <= k < |v + w| ensures InOrder(ever, v + w, k) {
      if k < |v| {
        assert InOrder(ever, v, k) && (v + w)[..k] == v[..k];
      } else {
        assert InOrder(ever + Packages(v), w, k - |v|) && (v + w)[..k] == v + w[..k - |v|];
        PackagesConcat(v, w[..k - |v|]);
      }
    }
  }

  /** No package is queued twice, and the entries of the window have none in common. */
  ghost predicate Unique(s: State)
  {
    Sized(s) && Spread(s.ready) && Apart(s.xi)
      && forall j | 0 <= j < |s.ready| :: Packages(Reports(s.ready[j])) !! Union(s.xi)
  }

  /** No package is in these queues twice. */
  ghost predicate Spread(qs: seq<Queue>)
  {
    && (forall j | 0 <= j < |qs| :: NoTwice(Reports(qs[j])))
    && (forall i, j | 0 <= i < j < |qs| :: Packages(Reports(qs[i])) !! Packages(Reports(qs[j])))
  }

  ghost predicate Apart(xi: seq<set<Hash>>) { forall i, j | 0 <= i < j < |xi| :: xi[i] !! xi[j] }

  /** New reports are of packages that are neither queued nor in the window. */
  ghost predicate New(s: State, b: Block)
  {
    && NoTwice(b.available) && Packages(b.available) !! Union(s.xi)
    && forall j | 0 <= j < |s.ready| :: Packages(b.available) !! Packages(Reports(s.ready[j]))
  }

  lemma ReportsAppend(r: Queue, t: Queue)
    ensures Reports(r + t) == Reports(r) + Reports(t)
  {}

  lemma {:induction false} FlattenFrom(qs: seq<Queue>, h: Hash) returns (j: nat)
    requires h in Packages(Reports(Flatten(qs)))
    ensures j < |qs| && h in Packages(Reports(qs[j]))
  {
    var init, last := qs[..|qs| - 1], qs[|qs| - 1];
    ReportsAppend(Flatten(init), last);
    PackagesConcat(Reports(Flatten(init)), Reports(last));
    if h in Packages(Reports(last)) { j := |init|; } else { j := FlattenFrom(init, h); }
  }

  lemma {:induction false} FlattenSpread(qs: seq<Queue>)
    requires Spread(qs)
    ensures NoTwice(Reports(Flatten(qs)))
  {
    if qs != [] {
      var init, last := qs[..|qs| - 1], qs[|qs| - 1];
      FlattenSpread(init);
      ReportsAppend(Flatten(init), last);
      forall h | h in Packages(Reports(Flatten(init))) ensures h !in Packages(Reports(last)) {
        var j := FlattenFrom(init, h);
        assert Packages(Reports(qs[j])) !! Packages(Reports(qs[|qs| - 1]));
      }
      NoTwiceConcat(Reports(Flatten(init)), Reports(last));
    }
  }

  /** A block's new reports are split into those that wait and those that do not. */
  lemma {:induction false} Division(w: seq<Report>)
    ensures Packages(Immediate(w)) + Packages(Reports(Waiting(w))) == Packages(w)
    ensures NoTwice(w) ==>
      NoTwice(Immediate(w)) && NoTwice(Reports(Waiting(w))) && Packages(Immediate(w)) !! Packages(Reports(Waiting(w)))
  {
    if w != [] {
      var init, last := w[..|w| - 1], w[|w| - 1];
      Division(init);
      if Needs(last) == [] {
        assert (Immediate(init) + [last])[..|Immediate(init)|] == Immediate(init);
      } else {
        var r := Waiting(init) + [Item(last, Needs(last))];
        assert Reports(r)[..|r| - 1] == Reports(Waiting(init));
      }
    }
  }

  lemma QueuedPackages(s: State, b: Block)
    requires New(s, b)
    ensures NoTwice(Reports(Queued(s, b))) && Packages(Reports(Queued(s, b))) <= Packages(b.available)
  {
    Division(b.available);
    EditPackages(Waiting(b.available), Union(s.xi));
  }

  lemma ComposedSpread(s: State, b: Block)
    requires Unique(s) && New(s, b)
    ensures Spread(Composed(s, b))
  {
    QueuedPackages(s, b);
    var m, qs := b.slot % |s.ready|, Composed(s, b);
    forall i, j | 0 <= i < j < |qs| ensures Packages(Reports(qs[i])) !! Packages(Reports(qs[j])) {
      var i' := RingIndex(i, m, |s.ready|);
      assert qs[i] == s.ready[i'];
      if j < |s.ready| {
        var j' := RingIndex(j, m, |s.ready|);
        assert qs[j] == s.ready[j'] && i' != j';
      }
    }
    forall j | 0 <= j < |qs| ensures NoTwice(Reports(qs[j])) {
      if j < |s.ready| { assert qs[j] == s.ready[RingIndex(j, m, |s.ready|)]; }
    }
  }

  /** The ring position read j-th when starting at m. */
  function RingIndex(j: nat, m: nat, size: nat): (k: nat)
    requires j < size && m < size
    ensures k < size
  {
    if j < size - m then m + j else j - (size - m)
  }

  lemma ComposedOutside(s: State, b: Block)
    requires Unique(s) && New(s, b)
    ensures Packages(Reports(Flatten(Composed(s, b)))) !! Union(s.xi)
  {
    QueuedPackages(s, b);
    forall h | h in Packages(Reports(Flatten(Composed(s, b)))) ensures h !in Union(s.xi) {
      var j := FlattenFrom(Composed(s, b), h);
      if j < |s.ready| {
        assert Composed(s, b)[j] == s.ready[RingIndex(j, b.slot % |s.ready|, |s.ready|)];
      }
    }
  }

  lemma ReleasedUnique(q: Queue, now: seq<Report>)
    requires NoTwice(now) && NoTwice(Reports(q))
    ensures var all := now + Priority(Edit(q, Packages(now)));
      NoTwice(all) && Packages(all) <= Packages(now) + Packages(Reports(q))
  {
    var e := Edit(q, Packages(now));
    EditPackages(q, Packages(now));
    PriorityPackages(e);
    NoTwiceConcat(now, Priority(e));
    PackagesConcat(now, Priority(e));
  }

  /** What a block accumulates has no package twice, and none that is in the window. */
  lemma DoneUnique(s: State, b: Block)
    requires Unique(s) && New(s, b)
    ensures NoTwice(Done(s, b)) && Packages(Done(s, b)) !! Union(s.xi)
  {
    Division(b.available);
    ComposedSpread(s, b);
    FlattenSpread(Composed(s, b));
    ReleasedUnique(Flatten(Composed(s, b)), Immediate(b.available));
    ComposedOutside(s, b);
    PrefixUnique(Accumulatable(s, b), |Done(s, b)|);
  }

  lemma PrefixUnique(all: seq<Report>, n: nat)
    requires NoTwice(all) && n <= |all|
    ensures NoTwice(all[..n]) && Packages(all[..n]) <= Packages(all)
  {
    NoTwicePrefix(all, n);
    PackagesOfPrefix(all, n);
  }

  lemma {:induction false} PackagesOfPrefix(all: seq<Report>, n: nat)
    requires n <= |all|
    ensures Packages(all[..n]) <= Packages(all)
  {
    if n < |all| {
      var init := all[..|all| - 1];
      PackagesOfPrefix(init, n);
      assert init[..n] == all[..n];
    } else {
      assert all[..n] == all;
    }
  }

  /** Packages at a ring position after a block. */
  lemma NextPackages(s: State, b: Block, j: nat)
    requires Unique(s) && New(s, b) && j < |s.ready|
    ensures var done, r := Packages(Done(s, b)), NextAt(s, b, Queued(s, b), Packages(Done(s, b)), j);
      && NoTwice(Reports(r)) && Packages(Reports(r)) !! done
      && Packages(Reports(r)) <= (if Age(j, b.slot, |s.ready|) == 0 then Packages(b.available)
        else Packages(Reports(s.ready[j])))
  {
    QueuedPackages(s, b);
    EditPackages(Queued(s, b), Packages(Done(s, b)));
    EditPackages(s.ready[j], Packages(Done(s, b)));
  }

  lemma OneCurrent(i: nat, j: nat, slot: u32, size: nat)
    requires i < j < size
    ensures !(Age(i, slot, size) == 0 && Age(j, slot, size) == 0)
  {
    Ages(i, 0, slot, size);
    Ages(j, 0, slot, size);
  }

  /** If new reports are new, every block keeps packages unique: within the window nothing is accumulated twice. */
  lemma BlockKeepsUnique(s: State, b: Block)
    requires Unique(s) && New(s, b)
    ensures Unique(Next(s, b))
  {
    var s', done := Next(s, b), Packages(Done(s, b));
    DoneUnique(s, b);
    UnionHas(s.xi);
    NextWindow(s.xi, done);
    forall j | 0 <= j < |s'.ready|
      ensures NoTwice(Reports(s'.ready[j])) && Packages(Reports(s'.ready[j])) !! Union(s'.xi)
    {
      NextPackages(s, b, j);
    }
    forall i, j | 0 <= i < j < |s'.ready| ensures Packages(Reports(s'.ready[i])) !! Packages(Reports(s'.ready[j])) {
      NextPackages(s, b, i);
      NextPackages(s, b, j);
      OneCurrent(i, j, b.slot, |s.ready|);
    }
    forall i, j | 0 <= i < j < |s'.xi| ensures s'.xi[i] !! s'.xi[j] {
      if j < |s.xi| - 1 { assert s.xi[i + 1] !! s.xi[j + 1]; }
    }
  }

  /** Blocks whose new reports are new when they arrive. */
  ghost predicate AllNew(s: State, blocks: seq<Block>)
    requires Sized(s)
    decreases |blocks|
  {
    blocks == [] || (New(s, blocks[0]) && AllNew(Next(s, blocks[0]), blocks[1..]))
  }

  /** Over every run of blocks with new reports, packages remain unique. */
  lemma {:induction false} RunsKeepUnique(s: State, blocks: seq<Block>)
    requires Unique(s) && AllNew(s, blocks)
    ensures Unique(After(s, blocks))
    decreases |blocks|
  {
    if blocks != [] {
      BlockKeepsUnique(s, blocks[0]);
      RunsKeepUnique(Next(s, blocks[0]), blocks[1..]);
    }
  }

  /** Shifting the window in place: the newest entry is written first, then the others move down. */
  method UpdateXi(prior: seq<set<Hash>>, posterior: array<set<Hash>>, done: set<Hash>)
    requires |prior| == posterior.Length > 0
    modifies posterior
    ensures posterior[..] == prior[1..] + [done]
  {
    var last := posterior.Length - 1;
    posterior[last] := done;
    for i := 0 to last
      invariant posterior[last] == done && forall j | 0 <= j < i :: posterior[j] == prior[j + 1]
    {
      posterior[i] := prior[i + 1];
    }
  }

  /** Rewriting the ring in place, walking back from the current position. */
  method UpdateVartheta(s: State, b: Block, posterior: array<Queue>, queued: Queue, done: seq<Hash>)
    requires Sized(s) && posterior.Length == |s.ready|
    modifies posterior
    ensures forall j | 0 <= j < posterior.Length :: posterior[j] == NextAt(s, b, queued, (set h | h in done), j)
  {
    var size, offset := posterior.Length, Wrap32(b.slot - s.tau);
    var m := b.slot % size;
    ghost var gone := set h | h in done;
    for i := 0 to size
      invariant forall j | 0 <= j < size && Age(j, b.slot, size) < i :: posterior[j] == NextAt(s, b, queued, gone, j)
    {
      var index := (m - i + size) % size;
      Ages(index, i, b.slot, size);
      if i == 0 {
        posterior[index] := QueueEditing(queued, done);
      } else if i < offset {
        posterior[index] := [];
      } else {
        posterior[index] := QueueEditing(s.ready[index], done);
      }
      forall j | 0 <= j < size && Age(j, b.slot, size) == i ensures j == index { Ages(j, i, b.slot, size); }
    }
  }

  /** The walk visits the position of each age once. */
  lemma Ages(j: nat, i: nat, slot: u32, size: nat)
    requires j < size && i < size
    ensures Age(j, slot, size) == i <==> j == (slot % size - i + size) % size
    ensures Age(j, slot, size) < size
  {
    ReduceOnce(slot % size - j, size);
    ReduceOnce(slot % size - i, size);
  }

  lemma ReduceOnce(x: int, size: nat)
    requires 0 <= x + size && x < size
    ensures (x + size) % size == if x < 0 then x + size else x
  {}
}
