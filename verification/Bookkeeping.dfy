/**
 * What the bookkeeping of all accounts is for: counters stay right while services come and go, pooled entries never
 * lose their owner, and a service's balance always covers the threshold of what it stores.
 */
module Bookkeeping {
  import opened Words
  import opened Sums
  import opened Accounts
  import opened Ledger
  import opened Identifiers
  import opened Conservation
  import opened Footprint

  /** Every account's counters are right, and every pooled entry belongs to an account. */
  ghost predicate Books(c: Context)
  {
    && (forall id | id in c.accounts :: Counted(c, id))
    && (forall pk | pk in c.lookupPool :: pk.service in c.accounts)
    && (forall sk | sk in c.storagePool :: sk.service in c.accounts)
  }

  /** No item counter has overflowed. */
  ghost predicate ItemsFit(c: Context)
  {
    forall id | id in c.accounts :: Recount(c, id, Items) < TWO32
  }

  predicate Shrunk(c: Context, d: Context)
  {
    d.lookupPool.Keys <= c.lookupPool.Keys && d.storagePool.Keys <= c.storagePool.Keys
  }

  lemma ProvideShrinks(c: Context, call: Call)
    requires call.CallProvide?
    ensures Shrunk(c, Provide(c, call.id, call.key, call.blobId, call.data).1)
  {}

  lemma PoolsShrink(setting: Setting, c: Context, call: Call)
    requires Sound(c) && !call.CallNew?
    ensures Shrunk(c, Apply(setting, c, call).1)
  {
    var (pk, sk) := KeyOf(c, call);
    match call
    case CallQuery(key) => QueryOnlyOwn(c, key, sk);
    case CallSolicit(key) => SolicitOnlyOwn(c, key, setting.slot, sk);
    case CallForget(key) => ForgetOnlyOwn(c, key, setting.slot, setting.expunge, sk);
    case CallRead(target, raw) => ReadOnlyOwn(c, target, raw, pk);
    case CallWrite(raw, value) => WriteOnlyOwn(c, raw, value, pk);
    case CallProvide(_, _, _, _) => ProvideShrinks(c, call);
    case _ =>
  }

  lemma AccountsRemain(setting: Setting, c: Context, call: Call, id: ServiceId)
    requires Sound(c) && !call.CallNew? && !call.CallEject?
    ensures id in Apply(setting, c, call).1.accounts <==> id in c.accounts
  {
    match call
    case CallSend(_, _, _, _) => SendConserves(setting, c, call);
    case CallProvide(_, _, _, _) => ProvideConserves(setting, c, call);
    case CallQuery(_) => LookupConserves(setting, c, call);
    case CallSolicit(_) => LookupConserves(setting, c, call);
    case CallForget(_) => LookupConserves(setting, c, call);
    case _ =>
      StorageRewrites(setting, c, call);
      RewritesConserve(c, Apply(setting, c, call).1);
  }

  lemma NewKeepsBooks(setting: Setting, c: Context, call: Call)
    requires Sound(c) && Roomy(c) && Books(c) && call.CallNew?
    ensures Books(Apply(setting, c, call).1)
  {
    var d := Apply(setting, c, call).1;
    NewIsNew(setting, c, call);
    forall id | id in d.accounts ensures Counted(d, id) {
      if id in c.accounts {
        NewCounted(setting, c, call, id);
      } else {
        FreshCounted(d, id, c.self, call.codeHash, call.length, call.minItemGas, call.minMemoGas, setting.slot);
      }
    }
  }

  /** All accounts remain, and any other is the one just created; the pools are untouched. */
  lemma NewIsNew(setting: Setting, c: Context, call: Call)
    requires Sound(c) && Roomy(c) && call.CallNew?
    ensures var d := Apply(setting, c, call).1;
      && d.lookupPool == c.lookupPool && d.storagePool == c.storagePool
      && (forall id | id in c.accounts :: id in d.accounts)
      && (forall id | id in d.accounts && id !in c.accounts ::
            d.accounts[id] == NewAccount(c.self, call.codeHash, call.length, call.minItemGas, call.minMemoGas,
              setting.slot))
  {
    var a := NewAccount(c.self, call.codeHash, call.length, call.minItemGas, call.minMemoGas, setting.slot);
    var next, id0, b, balance := NewAdds(c, setting.otherBless, call, setting.slot);
    NextImport(c);
  }

  lemma EjectKeepsBooks(setting: Setting, c: Context, call: Call)
    requires Sound(c) && Books(c) && ItemsFit(c) && call.CallEject?
    ensures Books(Apply(setting, c, call).1)
  {
    var d := Apply(setting, c, call).1;
    var id := Wrap32(call.ejected);
    if EjectAccepted(setting, c, call) {
      EjectedIsEmpty(c, id, LookupKey(call.hash, Wrap32(Max(81, c.accounts[id].info.bytes) - 81)));
      EjectRemoves(setting, c, call);
      forall id' | id' in d.accounts ensures Counted(d, id') {
        MoneyCounted(setting, c, call, id');
      }
    } else {
      EjectRefused(setting, c, call);
    }
  }

  lemma EjectRemoves(setting: Setting, c: Context, call: Call)
    requires Sound(c) && call.CallEject? && EjectAccepted(setting, c, call)
    ensures var d := Apply(setting, c, call).1;
      d.accounts.Keys == c.accounts.Keys - {Wrap32(call.ejected)} && d.lookupPool == c.lookupPool
        && d.storagePool == c.storagePool
  {}

  lemma EjectRefused(setting: Setting, c: Context, call: Call)
    requires call.CallEject? && !EjectAccepted(setting, c, call)
    ensures Apply(setting, c, call).1 == c
  {}

  /** Every call without a panic keeps the books. */
  lemma BooksKept(setting: Setting, c: Context, call: Call)
    requires Sound(c) && Roomy(c) && Books(c) && ItemsFit(c) && !Apply(setting, c, call).0.Abort?
    ensures Books(Apply(setting, c, call).1)
  {
    var d := Apply(setting, c, call).1;
    if call.CallNew? {
      NewKeepsBooks(setting, c, call);
    } else if call.CallEject? {
      EjectKeepsBooks(setting, c, call);
    } else {
      PoolsShrink(setting, c, call);
      forall id | id in c.accounts ensures id in d.accounts && Counted(d, id) {
        AccountsRemain(setting, c, call, id);
        if id == c.self { OwnCountersKept(setting, c, call); } else { OtherCountersKept(setting, c, call, id); }
      }
      forall id | id in d.accounts ensures id in c.accounts { AccountsRemain(setting, c, call, id); }
    }
  }

  ghost predicate ItemsAlwaysFit(c: Context, steps: seq<Step>)
    decreases |steps|
  {
    steps == [] || (ItemsFit(c) && ItemsAlwaysFit(Apply(steps[0].setting, c, steps[0].call).1, steps[1..]))
  }

  lemma {:induction false} RunsKeepBooks(c: Context, steps: seq<Step>)
    requires Sound(c) && |c.accounts| + |steps| <= ID_RANGE - 42 && Books(c) && NoPanic(c, steps)
      && ItemsAlwaysFit(c, steps)
    ensures Books(RunCalls(c, steps))
    decreases |steps|
  {
    if steps != [] {
      CallConserves(steps[0].setting, c, steps[0].call);
      BooksKept(steps[0].setting, c, steps[0].call);
      RunsKeepBooks(Apply(steps[0].setting, c, steps[0].call).1, steps[1..]);
    }
  }

  /** The balance of a service covers the threshold of its footprint. */
  predicate Solvent(a: Account) { ThresholdOf(a.info) <= a.info.balance }

  /** Holding less never raises the threshold. */
  lemma ThresholdMonotone(items: u32, octets: u64, fewer: u32, less: u64, offset: u64)
    requires fewer <= items && less <= octets && MIN_BALANCE_PER_ITEM * items < TWO32
    requires BASIC_MIN_BALANCE + MIN_BALANCE_PER_ITEM * items + octets < TWO64
    ensures Threshold(fewer, less, offset) <= Threshold(items, octets, offset)
  {}

  /** The threshold of all the caller holds can be reckoned without overflow. */
  ghost predicate OwnFits(c: Context)
  {
    && Counted(c, c.self) && MIN_BALANCE_PER_ITEM * Recount(c, c.self, Items) < TWO32
    && BASIC_MIN_BALANCE + MIN_BALANCE_PER_ITEM * Recount(c, c.self, Items) + Recount(c, c.self, Octets) < TWO64
  }

  lemma CountersExact(c: Context)
    requires OwnFits(c)
    ensures var info := c.accounts[c.self].info;
      info.items == Recount(c, c.self, Items) && info.bytes == Recount(c, c.self, Octets)
  {
    PartsNonNegative(c, c.self, Items);
    PartsNonNegative(c, c.self, Octets);
  }

  lemma LookupIsCounted(c: Context, key: LookupKey, m: Measure)
    requires c.self in c.accounts && key in c.accounts[c.self].lookup
    ensures LookupWeight(m, key) <= Recount(c, c.self, m)
  {
    WeightsPositive(c, c.self, m);
    PartsNonNegative(c, c.self, m);
    SumAtLeast(c.accounts[c.self].lookup, LookupW(m), key);
  }

  lemma StorageIsCounted(c: Context, raw: Bytes, m: Measure)
    requires c.self in c.accounts && OwnStorage(c, raw).Some?
    ensures StorageWeight(m, raw, OwnStorage(c, raw).value) <= Recount(c, c.self, m)
  {
    WeightsPositive(c, c.self, m);
    PartsNonNegative(c, c.self, m);
    if raw in c.accounts[c.self].storage {
      SumAtLeast(c.accounts[c.self].storage, StorageW(m), raw);
    } else {
      SumAtLeast(c.storagePool, PooledStorageW(c.self, m), StorageKey(c.self, raw));
    }
  }

  lemma FetchFits(c: Context, key: LookupKey)
    requires OwnFits(c) && Fetched(c, c.self, key).0.Some?
    ensures var d := Fetched(c, c.self, key).1;
      d.self == c.self && OwnFits(d) && d.accounts[c.self].info == c.accounts[c.self].info
  {
    FetchCounted(c, c.self, key, c.self);
    FetchKeepsCount(c, c.self, key, c.self, Items);
    FetchKeepsCount(c, c.self, key, c.self, Octets);
  }

  /** Giving up part of what is held leaves a solvent service solvent. */
  lemma FewerSolvent(c: Context, items: int, octets: int)
    requires OwnFits(c) && Solvent(c.accounts[c.self])
    requires 0 <= items <= Recount(c, c.self, Items) && 0 <= octets <= Recount(c, c.self, Octets)
    ensures var info := c.accounts[c.self].info;
      Threshold(Wrap32(info.items - items), Wrap64(info.bytes - octets), info.depositOffset) <= info.balance
  {
    CountersExact(c);
    var info := c.accounts[c.self].info;
    StillCovered(info.items, info.bytes, items, octets, info.depositOffset, info.balance);
  }

  lemma StillCovered(items: u32, octets: u64, fewer: int, less: int, offset: u64, balance: u64)
    requires 0 <= fewer <= items && 0 <= less <= octets && MIN_BALANCE_PER_ITEM * items < TWO32
    requires BASIC_MIN_BALANCE + MIN_BALANCE_PER_ITEM * items + octets < TWO64
      && Threshold(items, octets, offset) <= balance
    ensures Threshold(Wrap32(items - fewer), Wrap64(octets - less), offset) <= balance
  {
    Small32(items - fewer);
    Small64(octets - less);
    ThresholdMonotone(items, octets, items - fewer, octets - less, offset);
    assert Threshold(items - fewer, octets - less, offset) <= balance;
  }

  /** Forgetting leaves the counters as they are, or gives up a request. */
  lemma ForgetInfo(c: Context, key: LookupKey, slot: u32, expunge: nat)
    requires c.self in c.accounts && Fetched(c, c.self, key).0.Some?
    ensures var was, now :=
      AccountAt(Fetched(c, c.self, key).1, c.self), AccountAt(Forget(c, key, slot, expunge).1, c.self).info;
      || now == was.info
      || (key in was.lookup
        && now == was.info.(items := Wrap32(was.info.items - 2), bytes := Wrap64(was.info.bytes - LookupOctets(key))))
  {}

  lemma ForgetSolvent(setting: Setting, c: Context, key: LookupKey)
    requires OwnFits(c) && Solvent(c.accounts[c.self])
    ensures Solvent(AccountAt(Forget(c, key, setting.slot, setting.expunge).1, c.self))
  {
    if Fetched(c, c.self, key).0.Some? {
      FetchFits(c, key);
      ForgetInfo(c, key, setting.slot, setting.expunge);
      RequestCovered(Fetched(c, c.self, key).1, key);
    }
  }

  lemma RequestCovered(c: Context, key: LookupKey)
    requires OwnFits(c) && Solvent(c.accounts[c.self])
    ensures var info := c.accounts[c.self].info;
      key in c.accounts[c.self].lookup ==>
        Threshold(Wrap32(info.items - 2), Wrap64(info.bytes - LookupOctets(key)), info.depositOffset) <= info.balance
  {
    if key in c.accounts[c.self].lookup {
      LookupIsCounted(c, key, Items);
      LookupIsCounted(c, key, Octets);
      FewerSolvent(c, 2, LookupOctets(key));
    }
  }

  lemma RemovalCovered(c: Context, raw: Bytes, value: Bytes)
    requires OwnFits(c) && Solvent(c.accounts[c.self]) && OwnStorage(c, raw) == Some(value)
    ensures var info := c.accounts[c.self].info;
      Threshold(Wrap32(info.items - 1), Wrap64(info.bytes - StorageOctets(raw, value)),
        info.depositOffset) <= info.balance
  {
    StorageIsCounted(c, raw, Items);
    StorageIsCounted(c, raw, Octets);
    FewerSolvent(c, 1, StorageOctets(raw, value));
  }

  /** Removing an entry gives up what it counted for. */
  lemma RemovalInfo(c: Context, raw: Bytes)
    requires c.self in c.accounts
    ensures var was, now := c.accounts[c.self].info, AccountAt(WriteStorage(c, raw, None).1, c.self).info;
      match OwnStorage(c, raw)
      case None => now == was
      case Some(value) =>
        now == was.(items := Wrap32(was.items - 1), bytes := Wrap64(was.bytes - StorageOctets(raw, value)))
  {
    Small32(c.accounts[c.self].info.items);
    Small64(c.accounts[c.self].info.bytes);
  }

  lemma RemovalSolvent(c: Context, raw: Bytes)
    requires OwnFits(c) && Solvent(c.accounts[c.self])
    ensures Solvent(AccountAt(WriteStorage(c, raw, None).1, c.self))
  {
    RemovalInfo(c, raw);
    if OwnStorage(c, raw).Some? { RemovalCovered(c, raw, OwnStorage(c, raw).value); }
  }

  lemma WriteSolvent(c: Context, raw: Bytes, value: Bytes)
    requires c.self in c.accounts && Solvent(c.accounts[c.self])
    ensures Solvent(AccountAt(WriteStorage(c, raw, Some(value)).1, c.self))
  {}

  lemma SolicitSolvent(c: Context, key: LookupKey, slot: u32)
    requires c.self in c.accounts && Solvent(c.accounts[c.self])
    ensures Solvent(AccountAt(Solicit(c, key, slot).1, c.self))
  {}

  lemma EjectSolvent(setting: Setting, c: Context, call: Call)
    requires Sound(c) && call.CallEject? && Solvent(c.accounts[c.self]) && Drift(setting, c, call) == 0
    ensures Solvent(AccountAt(Apply(setting, c, call).1, c.self))
  {
    if EjectAccepted(setting, c, call) {
      SubWrapExact(c.accounts[c.self].info.balance, c.accounts[Wrap32(call.ejected)].info.balance);
    } else {
      EjectRefused(setting, c, call);
    }
  }

  /** The creator pays no more than it can spare. */
  lemma CreatorSolvent(setting: Setting, c: Context, call: Call)
    requires Sound(c) && call.CallNew? && Solvent(c.accounts[c.self])
    ensures Solvent(AccountAt(Apply(setting, c, call).1, c.self))
  {
    var next, id0, a, balance := NewAdds(c, setting.otherBless, call, setting.slot);
    if !NewAccepted(setting, c, call) { NewRefused(setting, c, call); }
  }

  lemma NewRefused(setting: Setting, c: Context, call: Call)
    requires call.CallNew? && !NewAccepted(setting, c, call)
    ensures Apply(setting, c, call).1 == c
  {}

  lemma NewSolvent(setting: Setting, c: Context, call: Call)
    requires Sound(c) && Roomy(c) && call.CallNew? && Solvent(c.accounts[c.self])
    ensures Solvent(AccountAt(Apply(setting, c, call).1, c.self))
    ensures var d := Apply(setting, c, call).1; forall id | id in d.accounts
      && id !in c.accounts :: Solvent(d.accounts[id])
  {
    NewIsNew(setting, c, call);
    CreatorSolvent(setting, c, call);
  }

  /**
   * A service that can pay for what it stores still can after any call, and can pay for a service it creates,
   * unless its counters or the balance it inherits overflow.
   */
  lemma SolvencyKept(setting: Setting, c: Context, call: Call)
    requires Sound(c) && Roomy(c) && OwnFits(c) && Solvent(c.accounts[c.self])
      && (call.CallEject? ==> Drift(setting, c, call) == 0)
    ensures Solvent(AccountAt(Apply(setting, c, call).1, c.self))
  {
    match call
    case CallNew(_, _, _, _, _, _) => NewSolvent(setting, c, call);
    case CallEject(_, _) => EjectSolvent(setting, c, call);
    case CallForget(key) => ForgetSolvent(setting, c, key);
    case CallWrite(raw, value) => if value.None? { RemovalSolvent(c, raw); } else { WriteSolvent(c, raw, value.value); }
    case CallSolicit(key) => SolicitSolvent(c, key, setting.slot);
    case _ => OthersSolvent(setting, c, call);
  }

  lemma OthersSolvent(setting: Setting, c: Context, call: Call)
    requires Sound(c) && Solvent(c.accounts[c.self])
    requires !call.CallNew? && !call.CallEject? && !call.CallForget? && !call.CallWrite? && !call.CallSolicit?
    ensures Solvent(AccountAt(Apply(setting, c, call).1, c.self))
  {}
}
