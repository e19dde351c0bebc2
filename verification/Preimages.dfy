/** Preimages submitted in a block: first the unwanted are filtered out, then the rest become available. */
module Preimages {
  import opened Words
  import opened Accounts
  import opened Ledger
  import opened Availability

  datatype Preimage = Preimage(requester: ServiceId, blob: Bytes)

  /** Byte strings in dictionary order. */
  predicate BytesLess(a: Bytes, b: Bytes)
  {
    b != [] && (a == [] || a[0] < b[0] || (a[0] == b[0] && BytesLess(a[1..], b[1..])))
  }

  lemma {:induction false} LessTransitive(a: Bytes, b: Bytes, c: Bytes)
    requires BytesLess(a, b) && BytesLess(b, c)
    ensures BytesLess(a, c)
  {
    if a != [] && a[0] == b[0] && b[0] == c[0] { LessTransitive(a[1..], b[1..], c[1..]); }
  }

  lemma {:induction false} LessIrreflexive(a: Bytes)
    ensures !BytesLess(a, a)
  {
    if a != [] { LessIrreflexive(a[1..]); }
  }

  predicate Before(p: Preimage, q: Preimage)
  {
    p.requester < q.requester || (p.requester == q.requester && BytesLess(p.blob, q.blob))
  }

  lemma BeforeTransitive(p: Preimage, q: Preimage, r: Preimage)
    requires Before(p, q) && Before(q, r)
    ensures Before(p, r)
  {
    if p.requester == q.requester == r.requester { LessTransitive(p.blob, q.blob, r.blob); }
  }

  predicate Distinct(eps: seq<Preimage>) { forall i, j | 0 <= i < j < |eps| :: eps[i] != eps[j] }

  /** The order check on neighbours; passing it means that no preimage is submitted twice. */
  method ValidateSortUnique(eps: seq<Preimage>) returns (ok: bool)
    ensures ok <==> forall i | 0 < i < |eps| :: Before(eps[i - 1], eps[i])
    ensures ok ==> Distinct(eps)
  {
    ok := true;
    var i := 1;
    while i < |eps|
      invariant 1 <= i && (|eps| > 0 ==> i <= |eps|)
      invariant forall j, k | 0 <= j < k < i && k < |eps| :: Before(eps[j], eps[k])
    {
      if eps[i - 1].requester > eps[i].requester { return false; }
      if eps[i - 1].requester == eps[i].requester && !BytesLess(eps[i - 1].blob, eps[i].blob) { return false; }
      forall j | 0 <= j < i ensures Before(eps[j], eps[i]) {
        if j < i - 1 { BeforeTransitive(eps[j], eps[i - 1], eps[i]); }
      }
      i := i + 1;
    }
    forall j, k | 0 <= j < k < |eps| ensures eps[j] != eps[k] { LessIrreflexive(eps[j].blob); }
  }

  /** One preimage after the other: each is taken if it is wanted then. */
  function SubmitAll(c: Context, hash: Bytes -> Bytes, eps: seq<Preimage>, slot: u32): Context
  {
    if eps == [] then c
    else
      var last := eps[|eps| - 1];
      Submit(SubmitAll(c, hash, eps[..|eps| - 1], slot), hash, last.requester, last.blob, slot)
  }

  function IntegrateAll(c: Context, hash: Bytes -> Bytes, eps: seq<Preimage>, slot: u32): Context
  {
    if eps == [] then c
    else
      var last := eps[|eps| - 1];
      Integrate(IntegrateAll(c, hash, eps[..|eps| - 1], slot), hash, last.requester, last.blob, slot)
  }

  /** A wanted preimage's request moves out of the pool and is marked as unanswered. */
  function Request(c: Context, hash: Bytes -> Bytes, p: Preimage): Context
  {
    var d := Claimed(c, hash, p.requester, p.blob);
    var a := AccountAt(d, p.requester);
    Put(d, p.requester, a.(lookup := a.lookup[KeyFor(hash, p.blob) := []]))
  }

  ghost predicate Injective(hash: Bytes -> Bytes) { forall x, y :: hash(x) == hash(y) ==> x == y }

  lemma RequestOverwritten(c: Context, hash: Bytes -> Bytes, p: Preimage, slot: u32)
    requires p.requester in c.accounts
    ensures Integrate(Request(c, hash, p), hash, p.requester, p.blob, slot)
      == Integrate(Claimed(c, hash, p.requester, p.blob), hash, p.requester, p.blob, slot)
  {
    var l: map<LookupKey, TimeSlots>, key := c.accounts[p.requester].lookup, KeyFor(hash, p.blob);
    assert l[key := []][key := [slot]] == l[key := [slot]];
    assert Integrate(Request(c, hash, p), hash, p.requester, p.blob, slot).accounts
        == Integrate(Claimed(c, hash, p.requester, p.blob), hash, p.requester, p.blob, slot).accounts;
  }

  /** Whether a preimage is wanted does not depend on another one that arrives. */
  lemma WantedBesides(c: Context, hash: Bytes -> Bytes, p: Preimage, q: Preimage, slot: u32)
    requires Injective(hash) && p != q && q.requester in c.accounts
    ensures ShouldIntegrate(Integrate(c, hash, q.requester, q.blob, slot), hash, p.requester, p.blob)
      == ShouldIntegrate(c, hash, p.requester, p.blob)
  {
    if p.requester == q.requester { assert hash(p.blob) != hash(q.blob); }
  }

  lemma RequestBesides(c: Context, hash: Bytes -> Bytes, p: Preimage, q: Preimage, slot: u32)
    requires Injective(hash) && p != q && p.requester in c.accounts && q.requester in c.accounts
    ensures Integrate(Request(c, hash, p), hash, q.requester, q.blob, slot)
      == Request(Integrate(c, hash, q.requester, q.blob, slot), hash, p)
  {
    if p.requester == q.requester {
      RequestBesidesOwn(c, hash, p, q, slot);
    } else {
      RequestBesidesOthers(c, hash, p, q, slot);
    }
  }

  lemma RequestBesidesOthers(c: Context, hash: Bytes -> Bytes, p: Preimage, q: Preimage, slot: u32)
    requires p.requester in c.accounts && q.requester in c.accounts && p.requester != q.requester
    ensures Integrate(Request(c, hash, p), hash, q.requester, q.blob, slot)
      == Request(Integrate(c, hash, q.requester, q.blob, slot), hash, p)
  {
    assert Integrate(Request(c, hash, p), hash, q.requester, q.blob, slot).accounts
        == Request(Integrate(c, hash, q.requester, q.blob, slot), hash, p).accounts;
  }

  lemma RequestBesidesOwn(c: Context, hash: Bytes -> Bytes, p: Preimage, q: Preimage, slot: u32)
    requires Injective(hash) && p != q && p.requester == q.requester && p.requester in c.accounts
    ensures Integrate(Request(c, hash, p), hash, q.requester, q.blob, slot)
      == Request(Integrate(c, hash, q.requester, q.blob, slot), hash, p)
  {
    var id, a, kp, kq := p.requester, c.accounts[p.requester], KeyFor(hash, p.blob), KeyFor(hash, q.blob);
    assert kp != kq by { assert hash(p.blob) != hash(q.blob); }
    var requested := a.(lookup := a.lookup[kp := []]);
    var arrived := a.(lookup := a.lookup[kq := [slot]], preimages := a.preimages[kq.hash := q.blob]);
    var both := arrived.(lookup := arrived.lookup[kp := []]);
    assert both.lookup == requested.lookup[kq := [slot]];
    var claimed := Claimed(c, hash, id, p.blob);
    PutTwice(claimed, id, requested, both);
    PutTwice(claimed, id, arrived, both);
  }

  lemma {:induction false} BesidesAll(c: Context, hash: Bytes -> Bytes, p: Preimage, eps: seq<Preimage>, slot: u32)
    requires Injective(hash) && p !in eps && forall q | q in eps :: q.requester in c.accounts
    ensures var d := IntegrateAll(c, hash, eps, slot);
      && d.accounts.Keys == c.accounts.Keys
      && ShouldIntegrate(d, hash, p.requester, p.blob) == ShouldIntegrate(c, hash, p.requester, p.blob)
      && (p.requester in c.accounts ==> IntegrateAll(Request(c, hash, p), hash, eps, slot) == Request(d, hash, p))
  {
    if eps != [] {
      var q, rest := eps[|eps| - 1], eps[..|eps| - 1];
      BesidesAll(c, hash, p, rest, slot);
      var d := IntegrateAll(c, hash, rest, slot);
      WantedBesides(d, hash, p, q, slot);
      if p.requester in c.accounts { RequestBesides(d, hash, p, q, slot); }
    }
  }

  /** Filters a block's preimages; requests of those that pass move out of the pool. */
  /** Taking one more preimage, if it is wanted, and integrating it after the others. */
  lemma FilterOne(c: Context, hash: Bytes -> Bytes, eps: seq<Preimage>, filtered: seq<Preimage>, d: Context,
                  p: Preimage, slot: u32)
    requires Injective(hash) && p !in filtered && forall q | q in filtered :: q.requester in d.accounts
    requires IntegrateAll(d, hash, filtered, slot) == SubmitAll(c, hash, eps, slot)
    ensures SubmitAll(c, hash, eps + [p], slot)
      == if ShouldIntegrate(d, hash, p.requester, p.blob)
         then IntegrateAll(Request(d, hash, p), hash, filtered + [p], slot)
         else IntegrateAll(d, hash, filtered, slot)
  {
    BesidesAll(d, hash, p, filtered, slot);
    assert (eps + [p])[..|eps|] == eps && (filtered + [p])[..|filtered|] == filtered;
    if ShouldIntegrate(d, hash, p.requester, p.blob) {
      RequestOverwritten(IntegrateAll(d, hash, filtered, slot), hash, p, slot);
    }
  }

  method Filter(c: Context, hash: Bytes -> Bytes, eps: seq<Preimage>, ghost slot: u32)
        returns (filtered: seq<Preimage>, d: Context)
    requires Injective(hash) && Distinct(eps)
    ensures IntegrateAll(d, hash, filtered, slot) == SubmitAll(c, hash, eps, slot)
    ensures forall p | p in filtered :: p.requester in d.accounts
  {
    filtered, d := [], c;
    for i := 0 to |eps|
      invariant forall p | p in filtered :: p in eps[..i] && p.requester in d.accounts
      invariant IntegrateAll(d, hash, filtered, slot) == SubmitAll(c, hash, eps[..i], slot)
    {
      var p := eps[i];
      assert eps[..i + 1] == eps[..i] + [p];
      FilterOne(c, hash, eps[..i], filtered, d, p, slot);
      if ShouldIntegrate(d, hash, p.requester, p.blob) { filtered, d := filtered + [p], Request(d, hash, p); }
    }
    assert eps[..|eps|] == eps;
  }

  /** Makes the filtered preimages available. */
  method UpdateDelta(c: Context, hash: Bytes -> Bytes, eps: seq<Preimage>, slot: u32) returns (r: Option<Context>)
    ensures r == if forall p | p in eps :: p.requester in c.accounts then Some(IntegrateAll(c, hash, eps, slot))
      else None
  {
    var d := c;
    for i := 0 to |eps|
      invariant forall p | p in eps[..i] :: p.requester in c.accounts
      invariant d == IntegrateAll(c, hash, eps[..i], slot) && d.accounts.Keys == c.accounts.Keys
    {
      if eps[i].requester !in d.accounts {
        assert eps[i] in eps;
        return None;
      }
      assert eps[..i + 1][..i] == eps[..i];
      d := Integrate(d, hash, eps[i].requester, eps[i].blob, slot);
    }
    assert eps[..|eps|] == eps;
    return Some(d);
  }

  /** The two passes together submit one preimage after the other, and never fail. */
  method Process(c: Context, hash: Bytes -> Bytes, eps: seq<Preimage>, slot: u32) returns (d: Context)
    requires Injective(hash) && Distinct(eps)
    ensures d == SubmitAll(c, hash, eps, slot)
  {
    var filtered, requested := Filter(c, hash, eps, slot);
    var r := UpdateDelta(requested, hash, filtered, slot);
    d := r.value;
  }

  /** A preimage becomes available exactly if it was wanted before the block, whatever else the block holds. */
  lemma {:induction false} OrderIrrelevant(c: Context, hash: Bytes -> Bytes, eps: seq<Preimage>, slot: u32, p: Preimage)
    requires Injective(hash) && Distinct(eps) && p !in eps
    ensures ShouldIntegrate(SubmitAll(c, hash, eps, slot), hash, p.requester, p.blob)
      == ShouldIntegrate(c, hash, p.requester, p.blob)
    ensures SubmitAll(c, hash, eps, slot).accounts.Keys == c.accounts.Keys
  {
    if eps != [] {
      var q, rest := eps[|eps| - 1], eps[..|eps| - 1];
      OrderIrrelevant(c, hash, rest, slot, p);
      OrderIrrelevant(c, hash, rest, slot, q);
      var d := SubmitAll(c, hash, rest, slot);
      if ShouldIntegrate(d, hash, q.requester, q.blob) {
        WantedBesides(Claimed(d, hash, q.requester, q.blob), hash, p, q, slot);
        if p.requester == q.requester { assert hash(p.blob) != hash(q.blob); }
      }
    }
  }
}
