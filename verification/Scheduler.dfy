/** Work reports waiting for the packages they depend on: pruning the ready queue, and the order of accumulation. */
module Scheduler {
  import opened Words
  import opened Accounts

  type Hash = Bytes

  datatype WorkResult = WorkResult(service: ServiceId, gas: nat)

  datatype Report = Report(package: Hash, prerequisites: seq<Hash>, lookups: seq<Hash>, results: seq<WorkResult>)

  /** A report and the packages it still waits for. */
  datatype Item = Item(report: Report, deps: seq<Hash>)

  type Queue = seq<Item>

  /** The packages of a sequence of reports. */
  function Packages(w: seq<Report>): set<Hash>
  {
    if w == [] then {} else Packages(w[..|w| - 1]) + {w[|w| - 1].package}
  }

  lemma {:induction false} PackagesConcat(v: seq<Report>, w: seq<Report>)
    ensures Packages(v + w) == Packages(v) + Packages(w)
  {
    if w == [] {
      assert v + w == v;
    } else {
      PackagesConcat(v, w[..|w| - 1]);
      assert (v + w)[..|v + w| - 1] == v + w[..|w| - 1];
    }
  }

  lemma {:induction false} PackagesHave(w: seq<Report>, k: nat)
    requires k < |w|
    ensures w[k].package in Packages(w)
  {
    if k < |w| - 1 { PackagesHave(w[..|w| - 1], k); }
  }

  lemma {:induction false} PackageOf(w: seq<Report>, h: Hash) returns (k: nat)
    requires h in Packages(w)
    ensures k < |w| && w[k].package == h
  {
    if w[|w| - 1].package == h { k := |w| - 1; } else { k := PackageOf(w[..|w| - 1], h); }
  }

  /** All these packages are among those. */
  predicate Among(deps: seq<Hash>, packages: set<Hash>) { forall h | h in deps :: h in packages }

  /** Everything a report depends on. */
  function Needs(r: Report): seq<Hash> { r.prerequisites + r.lookups }

  /** The hashes that are not in x, in order. */
  function Without(deps: seq<Hash>, x: set<Hash>): seq<Hash>
  {
    if deps == [] then []
    else
      var rest := Without(deps[..|deps| - 1], x);
      if deps[|deps| - 1] in x then rest else rest + [deps[|deps| - 1]]
  }

  /** The queue without reports of packages in x, waiting for packages outside x only. */
  function Edit(r: Queue, x: set<Hash>): Queue
  {
    if r == [] then []
    else
      var rest, last := Edit(r[..|r| - 1], x), r[|r| - 1];
      if last.report.package in x then rest else rest + [Item(last.report, Without(last.deps, x))]
  }

  lemma {:induction false} WithoutHas(deps: seq<Hash>, x: set<Hash>)
    ensures forall h :: h in Without(deps, x) <==> h in deps && h !in x
  {
    if deps != [] { WithoutHas(deps[..|deps| - 1], x); }
  }

  lemma {:induction false} EditedFrom(r: Queue, x: set<Hash>, d: Item) returns (c: Item)
    requires d in Edit(r, x)
    ensures c in r && c.report.package !in x && d == Item(c.report, Without(c.deps, x))
  {
    var init := r[..|r| - 1];
    if d in Edit(init, x) { c := EditedFrom(init, x, d); } else { c := r[|r| - 1]; }
  }

  lemma {:induction false} EditedTo(r: Queue, c: Item, x: set<Hash>)
    requires c in r && c.report.package !in x
    ensures Item(c.report, Without(c.deps, x)) in Edit(r, x)
  {
    var init := r[..|r| - 1];
    if c in init { EditedTo(init, c, x); } else { assert c == r[|r| - 1]; }
  }

  lemma {:induction false} EditNotLonger(r: Queue, x: set<Hash>)
    ensures |Edit(r, x)| <= |r|
  {
    if r != [] { EditNotLonger(r[..|r| - 1], x); }
  }

  /** The reports that wait for nothing. */
  function Ready(r: Queue): seq<Report>
  {
    if r == [] then []
    else
      var rest := Ready(r[..|r| - 1]);
      if r[|r| - 1].deps == [] then rest + [r[|r| - 1].report] else rest
  }

  lemma {:induction false} ReadyFrom(r: Queue, w: Report) returns (c: Item)
    requires w in Ready(r)
    ensures c in r && c == Item(w, [])
  {
    var init := r[..|r| - 1];
    if w in Ready(init) { c := ReadyFrom(init, w); } else { c := r[|r| - 1]; }
  }

  lemma {:induction false} ReadyHas(r: Queue, c: Item)
    requires c in r && c.deps == []
    ensures c.report in Ready(r)
  {
    var init := r[..|r| - 1];
    if c in init { ReadyHas(init, c); } else { assert c == r[|r| - 1]; }
  }

  /** Taking out what is ready makes the queue shorter. */
  lemma {:induction false} EditShorter(r: Queue, x: set<Hash>, k: nat)
    requires k < |r| && r[k].report.package in x
    ensures |Edit(r, x)| < |r|
  {
    EditNotLonger(r[..|r| - 1], x);
    if k < |r| - 1 { EditShorter(r[..|r| - 1], x, k); }
  }

  lemma ReadyShortens(r: Queue)
    requires Ready(r) != []
    ensures |Edit(r, Packages(Ready(r)))| < |r|
  {
    var c := ReadyFrom(r, Ready(r)[0]);
    PackagesHave(Ready(r), 0);
    var k :| 0 <= k < |r| && r[k] == c;
    EditShorter(r, Packages(Ready(r)), k);
  }

  /** The reports that can be accumulated, in an order in which they can. */
  function Priority(r: Queue): seq<Report>
    decreases |r|
  {
    var g := Ready(r);
    if g == [] then []
    else
      ReadyShortens(r);
      g + Priority(Edit(r, Packages(g)))
  }

  /** Every report of the result comes from the queue, and what it waits for there comes strictly before it. */
  lemma {:induction false} DependenciesFirst(r: Queue, k: nat) returns (c: Item)
    requires k < |Priority(r)|
    ensures c in r && c.report == Priority(r)[k] && Among(c.deps, Packages(Priority(r)[..k]))
    decreases |r|
  {
    var g := Ready(r);
    if k < |g| {
      c := ReadyFrom(r, g[k]);
    } else {
      ReadyShortens(r);
      var x := Packages(g);
      var rest := Priority(Edit(r, x));
      var d := DependenciesFirst(Edit(r, x), k - |g|);
      c := EditedFrom(r, x, d);
      WithoutHas(c.deps, x);
      assert Priority(r)[..k] == g + rest[..k - |g|];
      PackagesConcat(g, rest[..k - |g|]);
    }
  }

  function Reports(s: Queue): seq<Report> { seq(|s|, i requires 0 <= i < |s| => s[i].report) }

  /** Items of the queue in an order in which each waits only for packages of earlier ones. */
  ghost predicate Schedule(r: Queue, s: Queue)
  {
    forall i | 0 <= i < |s| :: Scheduled(r, s, i)
  }

  ghost predicate Scheduled(r: Queue, s: Queue, i: nat)
    requires i < |s|
  {
    s[i] in r && Among(s[i].deps, Packages(Reports(s[..i])))
  }

  lemma ReportsConcat(s: Queue, c: Item)
    ensures Packages(Reports(s + [c])) == Packages(Reports(s)) + {c.report.package}
  {
    assert Reports(s + [c])[..|s|] == Reports(s);
  }

  /** Nothing that could be accumulated is left out: the result has every package of every schedule. */
  lemma {:induction false} Maximal(r: Queue, s: Queue)
    requires Schedule(r, s)
    ensures Packages(Reports(s)) <= Packages(Priority(r))
    decreases |r|
  {
    if s != [] {
      var g := Ready(r);
      assert Scheduled(r, s, 0) && Reports(s[..0]) == [];
      if s[0].deps != [] { assert s[0].deps[0] in Packages([]); }
      ReadyHas(r, s[0]);
      ReadyShortens(r);
      var x := Packages(g);
      EditSchedule(r, s, x);
      Maximal(Edit(r, x), Edit(s, x));
      PackagesConcat(g, Priority(Edit(r, x)));
    }
  }

  /** Editing a schedule gives a schedule of the edited queue. */
  lemma {:induction false} EditSchedule(r: Queue, s: Queue, x: set<Hash>)
    requires Schedule(r, s)
    ensures Schedule(Edit(r, x), Edit(s, x))
    ensures Packages(Reports(Edit(s, x))) == Packages(Reports(s)) - x
  {
    if s != [] {
      var init, last := s[..|s| - 1], s[|s| - 1];
      assert s == init + [last];
      assert Scheduled(r, s, |s| - 1);
      ScheduleInit(r, init, last);
      EditSchedule(r, init, x);
      ReportsConcat(init, last);
      if last.report.package !in x {
        var e := Item(last.report, Without(last.deps, x));
        WithoutHas(last.deps, x);
        EditedTo(r, last, x);
        ReportsConcat(Edit(init, x), e);
        ScheduleGrows(Edit(r, x), Edit(init, x), e);
      }
    }
  }

  lemma ScheduleInit(r: Queue, s: Queue, c: Item)
    requires Schedule(r, s + [c])
    ensures Schedule(r, s)
  {
    forall i | 0 <= i < |s| ensures Scheduled(r, s, i) {
      assert Scheduled(r, s + [c], i) && (s + [c])[..i] == s[..i];
    }
  }

  lemma ScheduleGrows(r: Queue, s: Queue, c: Item)
    requires Schedule(r, s) && c in r && Among(c.deps, Packages(Reports(s)))
    ensures Schedule(r, s + [c])
  {
    forall i | 0 <= i < |s + [c]| ensures Scheduled(r, s + [c], i) {
      if i < |s| { assert Scheduled(r, s, i) && (s + [c])[..i] == s[..i]; } else { assert (s + [c])[..i] == s; }
    }
  }

  /** No package occurs twice. */
  predicate NoTwice(w: seq<Report>)
  {
    w == [] || (w[|w| - 1].package !in Packages(w[..|w| - 1]) && NoTwice(w[..|w| - 1]))
  }

  lemma {:induction false} NoTwiceConcat(v: seq<Report>, w: seq<Report>)
    requires NoTwice(v) && NoTwice(w) && Packages(v) !! Packages(w)
    ensures NoTwice(v + w)
  {
    if w == [] {
      assert v + w == v;
    } else {
      NoTwiceConcat(v, w[..|w| - 1]);
      PackagesConcat(v, w[..|w| - 1]);
      assert (v + w)[..|v + w| - 1] == v + w[..|w| - 1];
    }
  }

  lemma {:induction false} NoTwicePrefix(w: seq<Report>, n: nat)
    requires NoTwice(w) && n <= |w|
    ensures NoTwice(w[..n])
  {
    if n < |w| {
      NoTwicePrefix(w[..|w| - 1], n);
      assert w[..|w| - 1][..n] == w[..n];
    } else {
      assert w[..n] == w;
    }
  }

  lemma {:induction false} EditPackages(r: Queue, x: set<Hash>)
    ensures Packages(Reports(Edit(r, x))) == Packages(Reports(r)) - x
    ensures NoTwice(Reports(r)) ==> NoTwice(Reports(Edit(r, x)))
  {
    if r != [] {
      var init, last := r[..|r| - 1], r[|r| - 1];
      EditPackages(init, x);
      assert r == init + [last] && Reports(r)[..|r| - 1] == Reports(init);
      var e := Edit(init, x) + [Item(last.report, Without(last.deps, x))];
      assert Reports(e)[..|e| - 1] == Reports(Edit(init, x));
    }
  }

  lemma {:induction false} ReadyPackages(r: Queue)
    ensures Packages(Ready(r)) <= Packages(Reports(r))
    ensures NoTwice(Reports(r)) ==> NoTwice(Ready(r))
  {
    if r != [] {
      var init, last := r[..|r| - 1], r[|r| - 1];
      ReadyPackages(init);
      assert r == init + [last] && Reports(r)[..|r| - 1] == Reports(init);
      assert (Ready(init) + [last.report])[..|Ready(init)|] == Ready(init);
    }
  }

  /** The result has only packages of the queue, and none twice if the queue has none twice. */
  lemma {:induction false} PriorityPackages(r: Queue)
    ensures Packages(Priority(r)) <= Packages(Reports(r))
    ensures NoTwice(Reports(r)) ==> NoTwice(Priority(r))
    decreases |r|
  {
    var g := Ready(r);
    ReadyPackages(r);
    if g != [] {
      var x := Packages(g);
      ReadyShortens(r);
      PriorityPackages(Edit(r, x));
      EditPackages(r, x);
      PackagesConcat(g, Priority(Edit(r, x)));
      if NoTwice(Reports(r)) { NoTwiceConcat(g, Priority(Edit(r, x))); }
    }
  }

  /** Which reports come out does not depend on what the queue holds besides: adding items never takes one away. */
  lemma AddingKeeps(r: Queue, more: Queue)
    ensures Packages(Priority(r)) <= Packages(Priority(r + more))
  {
    var s := ScheduleOf(r);
    forall i | 0 <= i < |s| ensures Scheduled(r + more, s, i) { assert Scheduled(r, s, i); }
    Maximal(r + more, s);
  }

  /** The result is itself a schedule. */
  lemma {:induction false} ScheduleOf(r: Queue) returns (s: Queue)
    ensures Schedule(r, s) && Reports(s) == Priority(r)
  {
    s := ScheduleUpTo(r, |Priority(r)|);
    assert Priority(r)[..|Priority(r)|] == Priority(r);
  }

  lemma {:induction false} ScheduleUpTo(r: Queue, n: nat) returns (s: Queue)
    requires n <= |Priority(r)|
    ensures Schedule(r, s) && Reports(s) == Priority(r)[..n]
  {
    if n == 0 {
      s := [];
    } else {
      var t := ScheduleUpTo(r, n - 1);
      var c := DependenciesFirst(r, n - 1);
      ScheduleGrows(r, t, c);
      s := t + [c];
      assert Reports(s) == Reports(t) + [c.report] == Priority(r)[..n];
    }
  }

  /** A queue as edited by the loop over its items, against a list of packages. */
  method QueueEditing(r: Queue, x: seq<Hash>) returns (edited: Queue)
    ensures edited == Edit(r, set h | h in x)
  {
    var finished: set<Hash> := {};
    for i := 0 to |x|
      invariant finished == set h | h in x[..i]
    {
      assert x[..i + 1] == x[..i] + [x[i]];
      finished := finished + {x[i]};
    }
    assert x[..|x|] == x;
    edited := [];
    for i := 0 to |r|
      invariant edited == Edit(r[..i], finished)
    {
      assert r[..i + 1][..i] == r[..i];
      if r[i].report.package !in finished {
        var remaining := Prune(r[i].deps, finished);
        edited := edited + [Item(r[i].report, remaining)];
      }
    }
    assert r[..|r|] == r;
  }

  method Prune(deps: seq<Hash>, finished: set<Hash>) returns (remaining: seq<Hash>)
    ensures remaining == Without(deps, finished)
  {
    remaining := [];
    for i := 0 to |deps|
      invariant remaining == Without(deps[..i], finished)
    {
      assert deps[..i + 1][..i] == deps[..i];
      if deps[i] !in finished { remaining := remaining + [deps[i]]; }
    }
    assert deps[..|deps|] == deps;
  }

  method ExtractHashes(w: seq<Report>) returns (hashes: seq<Hash>)
    ensures (set h | h in hashes) == Packages(w)
  {
    hashes := [];
    for i := 0 to |w|
      invariant (set h | h in hashes) == Packages(w[..i])
    {
      assert w[..i + 1][..i] == w[..i];
      hashes := hashes + [w[i].package];
    }
    assert w[..|w|] == w;
  }

  /** The recursion on ever shorter queues. */
  method PriorityQueue(r: Queue) returns (output: seq<Report>)
    ensures output == Priority(r)
    decreases |r|
  {
    var g: seq<Report> := [];
    for i := 0 to |r|
      invariant g == Ready(r[..i])
    {
      assert r[..i + 1][..i] == r[..i];
      if r[i].deps == [] { g := g + [r[i].report]; }
    }
    assert r[..|r|] == r;
    if g == [] { return []; }
    ReadyShortens(r);
    var hashes := ExtractHashes(g);
    var edited := QueueEditing(r, hashes);
    var rest := PriorityQueue(edited);
    output := g + rest;
  }
}
