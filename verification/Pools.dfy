/**
 * What becomes of pooled entries while a service is accumulated: none is added or altered, and of another service's
 * entries only lookups can be taken, by providing the preimage they ask for. The books of all accounts stay right.
 */
module Pools {
  import opened Words
  import opened Sums
  import opened Instructions
  import opened BlockInfo
  import opened Accounts
  import opened Ledger
  import opened Identifiers
  import opened Conservation
  import opened Footprint
  import opened Bookkeeping
  import Availability
  import opened HostCalls
  import opened Accumulate

  /** Every entry of one map is in the other. */
  ghost predicate Within<K, V>(p: map<K, V>, q: map<K, V>) { p.Items <= q.Items }

  lemma WithinMeans<K, V>(p: map<K, V>, q: map<K, V>)
    ensures Within(p, q) <==> forall k | k in p :: k in q && p[k] == q[k]
  {
    if Within(p, q) {
      forall k | k in p ensures k in q && p[k] == q[k] { assert (k, p[k]) in p.Items; }
    }
  }

  lemma OneLess<K, V>(p: map<K, V>, k: K)
    ensures Within(p - {k}, p)
  {
    WithinMeans(p - {k}, p);
  }

  /** The pools of d are those of c but for entries that service s may take. */
  ghost predicate Thinned(s: ServiceId, c: Context, d: Context)
  {
    && Within(d.lookupPool, c.lookupPool) && Within(d.storagePool, c.storagePool)
    && forall sk | sk in c.storagePool && sk.service != s :: sk in d.storagePool
  }

  lemma ThinnedTwice(s: ServiceId, c: Context, d: Context, e: Context)
    requires Thinned(s, c, d) && Thinned(s, d, e)
    ensures Thinned(s, c, e)
  {}

  lemma OwnThins(c: Context, d: Context, pk: PoolLookupKey, sk: StorageKey)
    requires OnlyOwn(c, d, pk, sk)
    ensures Thinned(c.self, c, d)
  {
    OneLess(c.lookupPool, pk);
    OneLess(c.storagePool, sk);
  }

  /** Calls on the caller's own account touch only its own entries. */
  lemma OwnCalls(setting: Setting, c: Context, call: Call)
    requires c.self in c.accounts && OnOwn(call)
    ensures OnlyOwn(c, Apply(setting, c, call).1, KeyOf(c, call).0, KeyOf(c, call).1)
  {
    match call
    case CallQuery(key) => QueryOnlyOwn(c, key, KeyOf(c, call).1);
    case CallSolicit(key) => SolicitOnlyOwn(c, key, setting.slot, KeyOf(c, call).1);
    case CallForget(key) => ForgetOnlyOwn(c, key, setting.slot, setting.expunge, KeyOf(c, call).1);
    case CallRead(target, raw) => ReadOnlyOwn(c, target, raw, KeyOf(c, call).0);
    case CallWrite(raw, value) => WriteOnlyOwn(c, raw, value, KeyOf(c, call).0);
  }

  /** Providing takes the request out of the pool, if it is there and its service exists. */
  lemma ProvidingTakes(c: Context, call: Call)
    requires call.CallProvide?
    ensures var d := Provide(c, call.id, call.key, call.blobId, call.data).1;
      && d.storagePool == c.storagePool
      && d.lookupPool
           == if call.id in c.accounts then c.lookupPool - {PoolLookupKey(call.id, call.key)} else c.lookupPool
  {
    assert PoolLookupKey(call.id, call.key) !in c.lookupPool ==>
      c.lookupPool - {PoolLookupKey(call.id, call.key)} == c.lookupPool;
  }

  lemma PoolsAside(setting: Setting, c: Context, call: Call)
    requires c.self in c.accounts && !OnOwn(call) && !call.CallProvide?
    ensures var d := Apply(setting, c, call).1; d.lookupPool == c.lookupPool && d.storagePool == c.storagePool
  {}

  lemma CallThins(setting: Setting, c: Context, call: Call)
    requires c.self in c.accounts
    ensures Thinned(c.self, c, Apply(setting, c, call).1)
  {
    if OnOwn(call) {
      OwnCalls(setting, c, call);
      OwnThins(c, Apply(setting, c, call).1, KeyOf(c, call).0, KeyOf(c, call).1);
    } else if call.CallProvide? {
      ProvidingTakes(c, call);
      OneLess(c.lookupPool, PoolLookupKey(call.id, call.key));
    } else {
      PoolsAside(setting, c, call);
    }
  }

  /** Another service's pooled lookup is taken by providing the preimage it asks for, and by nothing else. */
  lemma TakenByProviding(setting: Setting, c: Context, call: Call, pk: PoolLookupKey)
    requires c.self in c.accounts && pk in c.lookupPool && pk.service != c.self
    ensures pk !in Apply(setting, c, call).1.lookupPool
      <==> call.CallProvide? && call.id == pk.service && call.key == pk.key && pk.service in c.accounts
  {
    if OnOwn(call) {
      OwnCalls(setting, c, call);
    } else if call.CallProvide? {
      ProvidingTakes(c, call);
    } else {
      PoolsAside(setting, c, call);
    }
  }

  /** A recount of items grows by no more than a request counts for. */
  lemma ItemsGrow(setting: Setting, c: Context, call: Call, id: ServiceId)
    requires Sound(c) && Counted(c, id) && !Apply(setting, c, call).0.Abort? && id in Apply(setting, c, call).1.accounts
    ensures Recount(Apply(setting, c, call).1, id, Items) <= Recount(c, id, Items) + 2
  {
    var d := Apply(setting, c, call).1;
    if call.CallNew? {
      NewKeeps(c, setting.otherBless, call, setting.slot, id);
    } else if call.CallProvide? {
      ProvideRecount(c, call, id);
    } else if !OnOwn(call) {
      MoneyKeeps(setting, c, call, id);
    } else if id != c.self {
      OwnCalls(setting, c, call);
      OnlyOwnRecount(c, d, KeyOf(c, call).0, KeyOf(c, call).1, id, Items);
    } else {
      OwnItemsGrow(setting, c, call);
    }
  }

  lemma MoneyKeeps(setting: Setting, c: Context, call: Call, id: ServiceId)
    requires c.self in c.accounts && MoneyCall(call) && id in c.accounts && id in Apply(setting, c, call).1.accounts
    ensures Recount(Apply(setting, c, call).1, id, Items) == Recount(c, id, Items)
  {
    if call.CallSend? { SendKeeps(c, call, id); } else if call.CallEject? { EjectKeeps(setting, c, call, id); }
  }

  lemma ProvideRecount(c: Context, call: Call, id: ServiceId)
    requires call.CallProvide? && Counted(c, id) && !Provide(c, call.id, call.key, call.blobId, call.data).0.Abort?
    ensures var d := Provide(c, call.id, call.key, call.blobId, call.data).1;
      id in d.accounts && Recount(d, id, Items) == Recount(c, id, Items)
  {
    if call.id in c.accounts {
      FetchKeepsCount(c, call.id, call.key, id, Items);
      var c' := Fetched(c, call.id, call.key).1;
    }
  }

  lemma OwnItemsGrow(setting: Setting, c: Context, call: Call)
    requires Counted(c, c.self) && OnOwn(call) && !Apply(setting, c, call).0.Abort?
    ensures var d := Apply(setting, c, call).1;
      c.self in d.accounts && Recount(d, c.self, Items) <= Recount(c, c.self, Items) + 2
  {
    match call
    case CallQuery(key) => FetchKeepsCount(c, c.self, key, c.self, Items);
    case CallSolicit(key) => SolicitItems(setting, c, key);
    case CallForget(key) => ForgetItems(setting, c, key);
    case CallRead(target, raw) => if ReadStorage(c, target, raw).1 != c { MovedStorage(c, raw, Items); }
    case CallWrite(raw, value) =>
      WriteDoes(c, raw, value);
      if WriteStorage(c, raw, value).1 != c { WriteRecounts(c, raw, value, WriteStorage(c, raw, value).1, Items); }
  }

  lemma SolicitItems(setting: Setting, c: Context, key: LookupKey)
    requires Counted(c, c.self) && !Solicit(c, key, setting.slot).0.Abort?
    ensures var d := Solicit(c, key, setting.slot).1;
      c.self in d.accounts && Recount(d, c.self, Items) <= Recount(c, c.self, Items) + 2
  {
    FetchKeepsCount(c, c.self, key, c.self, Items);
    var a := Fetched(c, c.self, key).1.accounts[c.self];
    if key !in a.lookup {
      SumPut(a.lookup, LookupW(Items), key, []);
    } else {
      SumPut(a.lookup, LookupW(Items), key, a.lookup[key] + [setting.slot]);
    }
  }

  lemma ForgetItems(setting: Setting, c: Context, key: LookupKey)
    requires Counted(c, c.self) && !Forget(c, key, setting.slot, setting.expunge).0.Abort?
    ensures var d := Forget(c, key, setting.slot, setting.expunge).1;
      c.self in d.accounts && Recount(d, c.self, Items) <= Recount(c, c.self, Items)
  {
    FetchKeepsCount(c, c.self, key, c.self, Items);
    var a := Fetched(c, c.self, key).1.accounts[c.self];
    if key in a.lookup {
      SumDrop(a.lookup, LookupW(Items), key);
      SumPut(a.lookup, LookupW(Items), key, a.lookup[key] + [setting.slot]);
      if |a.lookup[key]| == 3 { SumPut(a.lookup, LookupW(Items), key, [a.lookup[key][2], setting.slot]); }
    }
  }

  /** Item counters cannot overflow with what the gas still pays for. */
  ghost predicate ItemsRoom(g: int, c: Context) { forall id | id in c.accounts :: ItemsRoomAt(g, c, id) }

  ghost predicate ItemsRoomAt(g: int, c: Context, id: ServiceId)
    requires id in c.accounts
  {
    BASE_COST * Recount(c, id, Items) + 2 * Max(g, 0) < BASE_COST * TWO32
  }

  lemma RoomIsFit(g: int, c: Context)
    requires ItemsRoom(g, c)
    ensures ItemsFit(c)
  {
    forall id | id in c.accounts ensures Recount(c, id, Items) < TWO32 { assert ItemsRoomAt(g, c, id); }
  }

  lemma CallLeavesRoom(setting: Setting, c: Context, call: Call, g: int)
    requires Sound(c) && Roomy(c) && Books(c) && !Apply(setting, c, call).0.Abort? && g >= BASE_COST && ItemsRoom(g, c)
    ensures ItemsRoom(g - BASE_COST, Apply(setting, c, call).1)
  {
    var d := Apply(setting, c, call).1;
    forall id | id in d.accounts ensures ItemsRoomAt(g - BASE_COST, d, id) {
      if id in c.accounts {
        assert ItemsRoomAt(g, c, id);
        ItemsGrow(setting, c, call, id);
      } else {
        assert ItemsRoomAt(g, c, c.self);
        PartsNonNegative(c, c.self, Items);
        NewcomerItems(setting, c, call, id);
      }
    }
  }

  /** A new account has one request. */
  lemma NewcomerItems(setting: Setting, c: Context, call: Call, id: ServiceId)
    requires Sound(c) && Roomy(c) && Books(c) && id in Apply(setting, c, call).1.accounts && id !in c.accounts
    ensures Recount(Apply(setting, c, call).1, id, Items) == 2
  {
    KeysGrow(setting, c, call);
    NewIsNew(setting, c, call);
    FreshRecount(Apply(setting, c, call).1, id, c.self, call.codeHash, call.length, call.minItemGas, call.minMemoGas,
                 setting.slot, Items);
  }

  /** While funds are conserved, the books of all accounts are right, and pools lose only what s may take. */
  ghost predicate Accounted(start: Context, s: ServiceId, supply: int, g: int, c: Context)
  {
    Funded(s, supply, g, c) && Books(c) && ItemsRoom(g, c) && Thinned(s, start, c)
  }

  ghost function Accounting(start: Context, s: ServiceId, supply: int): (int, Context) -> bool
  {
    (g: int, c: Context) => Accounted(start, s, supply, g, c)
  }

  lemma CallIsAccounted(
      start: Context, s: ServiceId, setting: Setting, c: Context, call: Call, supply: int, g: int)
    requires Accounted(start, s, supply, g, c) && g >= BASE_COST && !Apply(setting, c, call).0.Abort?
    ensures Accounted(start, s, supply, g - BASE_COST, Apply(setting, c, call).1)
  {
    CallKeepsFunds(setting, c, call, supply, g);
    RoomIsFit(g, c);
    BooksKept(setting, c, call);
    CallLeavesRoom(setting, c, call, g);
    CallThins(setting, c, call);
    ThinnedTwice(s, start, c, Apply(setting, c, call).1);
  }

  lemma LessGas(start: Context, s: ServiceId, supply: int, g: int, g': int, c: Context)
    requires Accounted(start, s, supply, g, c) && g' <= g
    ensures Accounted(start, s, supply, g', c)
  {
    forall id | id in c.accounts ensures ItemsRoomAt(g', c, id) { assert ItemsRoomAt(g, c, id); }
  }

  lemma AccountingMeans(start: Context, s: ServiceId, supply: int, g: int, c: Context)
    ensures Accounting(start, s, supply)(g, c) <==> Accounted(start, s, supply, g, c)
  {}

  lemma AccountingCall(start: Context, s: ServiceId, supply: int, setting: Setting, c: Context, call: Call, g: int,
                       keeps: (int, Context) -> bool, d: Context)
    requires keeps == Accounting(start, s, supply) && d == Apply(setting, c, call).1
    ensures CallKeeps(keeps, setting, c, call, g)
  {
    AccountingMeans(start, s, supply, g, c);
    AccountingMeans(start, s, supply, g - BASE_COST, d);
    if g >= BASE_COST && keeps(g, c) && !Apply(setting, c, call).0.Abort? {
      CallIsAccounted(start, s, setting, c, call, supply, g);
    }
  }

  lemma AccountingIsKept(start: Context, s: ServiceId, supply: int)
    ensures KeptByCalls(Accounting(start, s, supply))
  {
    forall g, g', c | g' <= g && Accounting(start, s, supply)(g, c) ensures Accounting(start, s, supply)(g', c) {
      LessGas(start, s, supply, g, g', c);
    }
    forall setting, c, call, g ensures CallKeeps(Accounting(start, s, supply), setting, c, call, g) {
      AccountingCall(start, s, supply, setting, c, call, g, Accounting(start, s, supply), Apply(setting, c, call).1);
    }
  }

  /** The same accounts but for balances, and the same pools. */
  lemma SameBooks(c: Context, d: Context, g: int)
    requires Books(c) && ItemsRoom(g, c) && d.accounts.Keys == c.accounts.Keys
    requires forall id | id in c.accounts :: KeepsFootprint(c, d, id)
    requires d.lookupPool == c.lookupPool && d.storagePool == c.storagePool
    ensures Books(d) && ItemsRoom(g, d)
  {
    forall id | id in d.accounts ensures Counted(d, id) && ItemsRoomAt(g, d, id) {
      KeptCounted(c, d, id);
      assert ItemsRoomAt(g, c, id) && Recount(d, id, Items) == Recount(c, id, Items);
    }
  }

  /** What is known of the books and pools that a service leaves. */
  ghost predicate Orderly(e: Context, s: ServiceId, r: Context)
  {
    && Books(r) && ItemsFit(r) && Thinned(s, e, r)
    && (if s in e.accounts then s in r.accounts else r.accounts == e.accounts)
  }

  /** The accounts are as they were, but for balances. */
  lemma UnchangedIsOrderly(e: Context, s: ServiceId, r: Context, g: int)
    requires Books(e) && ItemsRoom(g, e) && r.lookupPool == e.lookupPool && r.storagePool == e.storagePool
    requires r.accounts.Keys == e.accounts.Keys && forall id | id in e.accounts :: KeepsFootprint(e, r, id)
    requires s !in e.accounts ==> r.accounts == e.accounts
    ensures Orderly(e, s, r) && ItemsRoom(g, r)
  {
    SameBooks(e, r, g);
    RoomIsFit(g, r);
  }

  lemma CreditingKeeps(e: Context, s: ServiceId, incoming: seq<u64>, r: Context, g: int)
    requires s in e.accounts && Books(e) && ItemsRoom(g, e)
    requires var credited := Credited(e, s, incoming);
      && r.accounts == credited.accounts
      && r.lookupPool == credited.lookupPool && r.storagePool == credited.storagePool
    ensures Orderly(e, s, r) && ItemsRoom(g, r)
  {
    forall id | id in e.accounts ensures KeepsFootprint(e, r, id) {}
    UnchangedIsOrderly(e, s, r, g);
  }

  lemma KeptIsOrderly(e: Context, s: ServiceId, supply: int, r: Context)
    requires s in e.accounts && StillKeeps(Accounting(e, s, supply), r)
    ensures Orderly(e, s, r)
  {
    var g: int :| Accounting(e, s, supply)(g, r);
    RoomIsFit(g, r);
  }

  /** Accumulating a service keeps the books of all accounts, if it returns. */
  lemma AccumulationIsOrderly(l: Loader, e: Context, s: ServiceId, gas: u64, incoming: seq<u64>)
    requires KeepingRunner(l.run) && Room(e, gas) && Books(e) && ItemsRoom(gas, e) && PsiA(l, e, s, gas, incoming).Some?
    ensures Orderly(e, s, PsiA(l, e, s, gas, incoming).value.context)
  {
    if s !in e.accounts {
      UnchangedIsOrderly(e, s, e.(transfers := []), gas);
    } else {
      StartedIsOrderly(l, e, s, gas, incoming, PsiA(l, e, s, gas, incoming).value.context);
    }
  }

  lemma StartedIsOrderly(l: Loader, e: Context, s: ServiceId, gas: u64, incoming: seq<u64>, r: Context)
    requires KeepingRunner(l.run) && Room(e, gas) && Books(e) && ItemsRoom(gas, e) && PsiA(l, e, s, gas, incoming).Some?
    requires s in e.accounts && r == PsiA(l, e, s, gas, incoming).value.context
    ensures Orderly(e, s, r)
  {
    var credited := Credited(e, s, incoming);
    var keeps := Accounting(e, s, Wrap64(SumOver(credited.accounts, BalanceOf)));
    StartsAccounted(l, e, s, gas, incoming, credited, keeps);
    AccumulationKeeps(l, e, s, gas, incoming, keeps);
    if r == credited.(transfers := []) {
      CreditingKeeps(e, s, incoming, r, gas);
    } else {
      KeptIsOrderly(e, s, Wrap64(SumOver(credited.accounts, BalanceOf)), r);
    }
  }

  lemma StartsAccounted(l: Loader, e: Context, s: ServiceId, gas: u64, incoming: seq<u64>, credited: Context,
                        keeps: (int, Context) -> bool)
    requires Room(e, gas) && Books(e) && ItemsRoom(gas, e) && s in e.accounts && credited == Credited(e, s, incoming)
    requires keeps == Accounting(e, s, Wrap64(SumOver(credited.accounts, BalanceOf)))
    ensures KeptByCalls(keeps)
    ensures var c := InitialContext(credited, s, l.seed); c.Some? ==> keeps(gas, c.value)
  {
    Prepared(l, e, s, gas, incoming);
    CreditingKeeps(e, s, incoming, InitialContext(credited, s, l.seed).value, gas);
    AccountingIsKept(e, s, Wrap64(SumOver(credited.accounts, BalanceOf)));
  }

  function KeyOfBlob(hash: Bytes -> Bytes, b: Blob): LookupKey { Availability.KeyFor(hash, b.data) }

  /** The pooled entry for a blob's request. */
  function PoolKeyOf(hash: Bytes -> Bytes, b: Blob): PoolLookupKey { PoolLookupKey(b.service, KeyOfBlob(hash, b)) }

  /** No request that a context's blobs answer is pooled in it. */
  ghost predicate TakesAll(hash: Bytes -> Bytes, c: Context)
  {
    c.self in c.accounts && forall k | k in c.blobs :: PoolKeyOf(hash, c.blobs[k]) !in c.lookupPool
  }

  ghost function Taking(hash: Bytes -> Bytes): (int, Context) -> bool { (g: int, c: Context) => TakesAll(hash, c) }

  lemma CallTakes(hash: Bytes -> Bytes, setting: Setting, c: Context, call: Call)
    requires TakesAll(hash, c)
    requires call.CallProvide? ==> call.key == KeyOfBlob(hash, Blob(call.id, call.data))
    ensures TakesAll(hash, Apply(setting, c, call).1)
  {
    var d := Apply(setting, c, call).1;
    KeysGrow(setting, c, call);
    CallThins(setting, c, call);
    WithinMeans(d.lookupPool, c.lookupPool);
    if call.CallProvide? { ProvidingTakes(c, call); } else { SendsAndProvides(setting, c, call); }
  }

  /** The key that a program provides a preimage for is that of the preimage. */
  lemma AskedByKey(env: Env, op: nat, vm: Vm, x: Context)
    ensures var asked := AskedFor(env, op, vm, x);
      asked.Asks? && asked.call.CallProvide? ==>
        asked.call.key == KeyOfBlob(env.hash, Blob(asked.call.id, asked.call.data))
  {}

  lemma AnswerTakes(env: Env, op: nat, vm: Vm, both: Both)
    requires TakesAll(env.hash, both.x)
    ensures TakesAll(env.hash, Answer(env, op, vm, both).addition.x)
  {
    var charged := vm.(gas := vm.gas - BASE_COST);
    if charged.gas >= 0 && Offered(op) && op != CHECKPOINT && Modelled(op) {
      var asked := AskedFor(env, op, charged, both.x);
      AskedByKey(env, op, charged, both.x);
      if asked.Asks? {
        CallTakes(env.hash, Setting(env.slot, env.expunge, both.y.privileges.bless), both.x, asked.call);
      }
    }
  }

  lemma TakingIsStable(env: Env)
    ensures Stable(env, Taking(env.hash))
  {
    forall op: nat, vm: Vm, both: Both ensures Keeping(env, Taking(env.hash), op, vm, both) {
      if TakesAll(env.hash, both.x) { AnswerTakes(env, op, vm, both); }
    }
  }

  /** No request for what a service provides is left in its copy of the pool. */
  ghost predicate TakesWhatItProvides(hash: Bytes -> Bytes, r: Result)
  {
    forall k | k in r.blobs :: PoolKeyOf(hash, r.blobs[k]) !in r.context.lookupPool
  }

  lemma CollapseTakes(hash: Bytes -> Bytes, f: Finished)
    requires Collapse(f).Some? && TakesAll(hash, Collapse(f).value.context)
    ensures TakesWhatItProvides(hash, Collapse(f).value)
  {}

  /** Whatever program runs and however it ends, it has taken the requests for what it provides. */
  lemma RunsTake(env: Env, image: Option<Image>, prior: u64, both: Both)
    requires image.Some? ==> WellFormed(image.value) && WellDecoded(image.value.prog, image.value.d)
    requires both.x.self in both.x.accounts && both.y.self in both.y.accounts && both.x.blobs == both.y.blobs == map[]
    ensures var r := Collapse(Invoke(env, image, prior, both)); r.Some? ==> TakesWhatItProvides(env.hash, r.value)
  {
    if image.Some? {
      HostIsThrifty(env);
      TakingIsStable(env);
      assert Taking(env.hash)(prior, both.x) && Taking(env.hash)(prior, both.y);
      StableRemains(env, image.value, Taking(env.hash), prior, both);
    }
    var f := Invoke(env, image, prior, both);
    if Collapse(f).Some? { CollapseTakes(env.hash, f); }
  }

  /** So it is for the accumulation of every service. */
  lemma ServicesTake(env: Env, load: Bytes -> Option<Image>, l: Loader, e: Context, s: ServiceId, gas: u64,
                     incoming: seq<u64>)
    requires LoadsWell(load) && l.run == Machine(env, load) && PsiA(l, e, s, gas, incoming).Some?
    ensures TakesWhatItProvides(env.hash, PsiA(l, e, s, gas, incoming).value)
  {
    if s in e.accounts {
      var credited := Credited(e, s, incoming);
      var code, c := l.fetch(credited.accounts[s]), InitialContext(credited, s, l.seed);
      if code.Some? && c.Some? { RunsTake(env, load(code.value), gas, Both(c.value, c.value)); }
    }
  }

  /** A service takes nothing out of the pools but what it may. */
  ghost function Thinning(start: Context, s: ServiceId): (int, Context) -> bool
  {
    (g: int, c: Context) => c.self == s && s in c.accounts && Thinned(s, start, c)
  }

  lemma ThinningIsKept(start: Context, s: ServiceId)
    ensures KeptByCalls(Thinning(start, s))
  {
    forall setting, c, call, g ensures CallKeeps(Thinning(start, s), setting, c, call, g) {
      if Thinning(start, s)(g, c) {
        KeysGrow(setting, c, call);
        CallThins(setting, c, call);
        ThinnedTwice(s, start, c, Apply(setting, c, call).1);
      }
    }
  }

  /** Whatever the state, accumulating a service adds nothing to the pools. */
  lemma AccumulationThins(l: Loader, e: Context, s: ServiceId, gas: u64, incoming: seq<u64>)
    requires KeepingRunner(l.run) && PsiA(l, e, s, gas, incoming).Some?
    ensures Thinned(s, e, PsiA(l, e, s, gas, incoming).value.context)
  {
    if s in e.accounts {
      var r, c := PsiA(l, e, s, gas, incoming).value.context, InitialContext(Credited(e, s, incoming), s, l.seed);
      ThinningIsKept(e, s);
      assert c.Some? ==> Thinning(e, s)(gas, c.value);
      AccumulationKeeps(l, e, s, gas, incoming, Thinning(e, s));
      if StillKeeps(Thinning(e, s), r) { var g: int :| Thinning(e, s)(g, r); }
    }
  }
}
