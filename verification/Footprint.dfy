/**
 * The item and octet counters of an account, which host calls adjust entry by entry, always equal a recount
 * of its lookup and storage entries, whether these are in the account or still in the pools.
 */
module Footprint {
  import opened Words
  import opened Sums
  import opened Accounts
  import opened Ledger
  import opened Identifiers
  import opened Conservation

  datatype Measure = Items | Octets

  function Modulus(m: Measure): (k: int)
    ensures k > 0
  {
    if m.Items? then TWO32 else TWO64
  }

  function Counter(a: Account, m: Measure): int { if m.Items? then a.info.items else a.info.bytes }

  function LookupWeight(m: Measure, key: LookupKey): int { if m.Items? then 2 else LookupOctets(key) }

  function StorageWeight(m: Measure, raw: Bytes, value: Bytes): int
  {
    if m.Items? then 1 else StorageOctets(raw, value)
  }

  function LookupW(m: Measure): (LookupKey, TimeSlots) -> int
  {
    (key: LookupKey, slots: TimeSlots) => LookupWeight(m, key)
  }

  function StorageW(m: Measure): (Bytes, Bytes) -> int { (raw: Bytes, value: Bytes) => StorageWeight(m, raw, value) }

  /** Pooled entries weigh as much as entries in the account, and only for their own service. */
  function PooledLookupW(id: ServiceId, m: Measure): (PoolLookupKey, Option<TimeSlots>) -> int
  {
    (pk: PoolLookupKey, slots: Option<TimeSlots>) => if pk.service == id then LookupWeight(m, pk.key) else 0
  }

  function PooledStorageW(id: ServiceId, m: Measure): (StorageKey, Bytes) -> int
  {
    (sk: StorageKey, value: Bytes) => if sk.service == id then StorageWeight(m, sk.raw, value) else 0
  }

  ghost function InAccount(a: Account, m: Measure): int
  {
    SumOver(a.lookup, LookupW(m)) + SumOver(a.storage, StorageW(m))
  }

  ghost function InPools(c: Context, id: ServiceId, m: Measure): int
  {
    SumOver(c.lookupPool, PooledLookupW(id, m)) + SumOver(c.storagePool, PooledStorageW(id, m))
  }

  /** The recount of everything a service holds. */
  ghost function Recount(c: Context, id: ServiceId, m: Measure): int
    requires id in c.accounts
  {
    InAccount(c.accounts[id], m) + InPools(c, id, m)
  }

  /** No entry is both in the account and in a pool. */
  ghost predicate Disjoint(c: Context, id: ServiceId)
    requires id in c.accounts
  {
    && (forall key | key in c.accounts[id].lookup :: PoolLookupKey(id, key) !in c.lookupPool)
    && (forall raw | raw in c.accounts[id].storage :: StorageKey(id, raw) !in c.storagePool)
  }

  ghost predicate CountedBy(c: Context, id: ServiceId, m: Measure)
    requires id in c.accounts
  {
    Counter(c.accounts[id], m) == Recount(c, id, m) % Modulus(m)
  }

  /** An account whose counters are right. */
  ghost predicate Counted(c: Context, id: ServiceId)
  {
    id in c.accounts && Disjoint(c, id) && CountedBy(c, id, Items) && CountedBy(c, id, Octets)
  }

  /** Adjusting a counter by what the recount changes keeps it right. */
  lemma Adjusted(counter: int, count: int, delta: int, n: int)
    requires n > 0 && counter == count % n
    ensures (counter + delta) % n == (count + delta) % n
  {
    var q := count / n;
    assert count == q * n + counter;
    ModPeriod(counter + delta, q, n);
    assert count + delta == (counter + delta) + q * n;
  }

  lemma ModPeriod(x: int, q: int, n: int)
    requires n > 0
    ensures (x + q * n) % n == x % n
  {
    var y := x + q * n;
    assert y == (y / n) * n + y % n && x == (x / n) * n + x % n;
    var d := y / n - x / n - q;
    assert d * n == x % n - y % n;
    assert d > 0 ==> d * n >= n;
    assert d < 0 ==> d * n <= -n;
  }

  /** Moving a pooled lookup entry changes no recount. */
  lemma FetchKeepsCount(c: Context, from: ServiceId, key: LookupKey, id: ServiceId, m: Measure)
    requires from in c.accounts && id in c.accounts && (id == from ==> Disjoint(c, id)) && Fetched(c, from, key).0.Some?
    ensures var c' := Fetched(c, from, key).1;
      && id in c'.accounts && Recount(c', id, m) == Recount(c, id, m)
      && Counter(c'.accounts[id], m) == Counter(c.accounts[id], m)
  {
    var pk := PoolLookupKey(from, key);
    if pk in c.lookupPool {
      SumDrop(c.lookupPool, PooledLookupW(id, m), pk);
      if id == from {
        assert key !in c.accounts[id].lookup;
        SumPut(c.accounts[id].lookup, LookupW(m), key, c.lookupPool[pk].value);
      }
    }
  }

  lemma FetchCounted(c: Context, from: ServiceId, key: LookupKey, id: ServiceId)
    requires from in c.accounts && Counted(c, id) && Fetched(c, from, key).0.Some?
    ensures var c' := Fetched(c, from, key).1;
      && Counted(c', id) && from in c'.accounts && c'.self == c.self && PoolLookupKey(from, key) !in c'.lookupPool
  {
    FetchKeepsCount(c, from, key, id, Items);
    FetchKeepsCount(c, from, key, id, Octets);
  }

  /** A lookup entry enters or leaves the own account along with its weight in the counters. */
  lemma LookupChange(c: Context, key: LookupKey, a: Account, sign: int)
    requires Counted(c, c.self) && PoolLookupKey(c.self, key) !in c.lookupPool
    requires var was := c.accounts[c.self];
      && a.storage == was.storage
      && a.info.items == Wrap32(was.info.items + sign * 2)
        && a.info.bytes == Wrap64(was.info.bytes + sign * LookupOctets(key))
      && (|| (sign == 1 && key !in was.lookup && a.lookup == was.lookup[key := []])
          || (sign == -1 && key in was.lookup && a.lookup == was.lookup - {key}))
    ensures Counted(Put(c, c.self, a), c.self)
  {
    var was := c.accounts[c.self];
    LookupChangeBy(c, key, a, sign, Items);
    LookupChangeBy(c, key, a, sign, Octets);
    assert forall k | k in a.lookup :: k == key || k in was.lookup;
  }

  lemma LookupChangeBy(c: Context, key: LookupKey, a: Account, sign: int, m: Measure)
    requires c.self in c.accounts && CountedBy(c, c.self, m)
    requires var was := c.accounts[c.self];
      && a.storage == was.storage
      && a.info.items == Wrap32(was.info.items + sign * 2)
        && a.info.bytes == Wrap64(was.info.bytes + sign * LookupOctets(key))
      && (|| (sign == 1 && key !in was.lookup && a.lookup == was.lookup[key := []])
          || (sign == -1 && key in was.lookup && a.lookup == was.lookup - {key}))
    ensures CountedBy(Put(c, c.self, a), c.self, m)
  {
    var was := c.accounts[c.self];
    var w := LookupWeight(m, key);
    if sign == 1 { SumPut(was.lookup, LookupW(m), key, []); } else { SumDrop(was.lookup, LookupW(m), key); }
    assert Recount(Put(c, c.self, a), c.self, m) == Recount(c, c.self, m) + sign * w;
    Adjusted(Counter(was, m), Recount(c, c.self, m), sign * w, Modulus(m));
  }

  /** Changing the timeslots of a lookup entry changes no recount. */
  lemma SlotsChange(c: Context, key: LookupKey, slots: TimeSlots)
    requires Counted(c, c.self) && key in c.accounts[c.self].lookup
    ensures var a := c.accounts[c.self]; Counted(Put(c, c.self, a.(lookup := a.lookup[key := slots])), c.self)
  {
    var a := c.accounts[c.self];
    SumPut(a.lookup, LookupW(Items), key, slots);
    SumPut(a.lookup, LookupW(Octets), key, slots);
  }

  /** What a write changes in the account and in the pool. */
  predicate Written(c: Context, raw: Bytes, value: Option<Bytes>, d: Context)
    requires c.self in c.accounts
  {
    var was := c.accounts[c.self];
    var w := if OwnStorage(c, raw).Some? then StorageWeight(Items, raw, OwnStorage(c, raw).value) else 0;
    var o := if OwnStorage(c, raw).Some? then StorageWeight(Octets, raw, OwnStorage(c, raw).value) else 0;
    && d.self == c.self && d.self in d.accounts && d.accounts == c.accounts[c.self := d.accounts[c.self]]
    && d.lookupPool == c.lookupPool && d.storagePool == c.storagePool - {StorageKey(c.self, raw)}
    && var a := d.accounts[c.self];
       && a.lookup == was.lookup
       && a.storage == (if value.None? then was.storage - {raw} else was.storage[raw := value.value])
       && a.info.items == Wrap32(Wrap32(was.info.items - w) + NewWeight(Items, raw, value))
       && a.info.bytes == Wrap64(Wrap64(was.info.bytes - o) + NewWeight(Octets, raw, value))
  }

  function NewWeight(m: Measure, raw: Bytes, value: Option<Bytes>): int
  {
    if value.None? then 0 else StorageWeight(m, raw, value.value)
  }

  function OldWeight(c: Context, m: Measure, raw: Bytes): int
  {
    if OwnStorage(c, raw).Some? then StorageWeight(m, raw, OwnStorage(c, raw).value) else 0
  }

  lemma WriteRecounts(c: Context, raw: Bytes, value: Option<Bytes>, d: Context, m: Measure)
    requires c.self in c.accounts && Disjoint(c, c.self) && Written(c, raw, value, d)
    ensures Recount(d, c.self, m) == Recount(c, c.self, m) - OldWeight(c, m, raw) + NewWeight(m, raw, value)
  {
    var a, sk := c.accounts[c.self], StorageKey(c.self, raw);
    var rest := a.storage - {raw};
    if raw in a.storage { SumDrop(a.storage, StorageW(m), raw); } else { assert rest == a.storage; }
    if sk in c.storagePool {
      SumDrop(c.storagePool, PooledStorageW(c.self, m), sk);
    } else {
      assert c.storagePool - {sk} == c.storagePool;
    }
    if value.Some? {
      SumPut(rest, StorageW(m), raw, value.value);
      assert rest[raw := value.value] == a.storage[raw := value.value];
      assert rest - {raw} == rest;
    }
  }

  lemma WriteCounted(c: Context, raw: Bytes, value: Option<Bytes>, d: Context)
    requires Counted(c, c.self) && Written(c, raw, value, d)
    ensures Counted(d, c.self)
  {
    WriteCountedBy(c, raw, value, d, Items);
    WriteCountedBy(c, raw, value, d, Octets);
  }

  lemma WriteCountedBy(c: Context, raw: Bytes, value: Option<Bytes>, d: Context, m: Measure)
    requires c.self in c.accounts && Disjoint(c, c.self) && CountedBy(c, c.self, m) && Written(c, raw, value, d)
    ensures CountedBy(d, c.self, m)
  {
    WriteRecounts(c, raw, value, d, m);
    WrittenCounter(c, raw, value, d, m);
    StillRight(c, d, c.self, m, OldWeight(c, m, raw), NewWeight(m, raw, value));
  }

  /** Counter and recount have changed alike. */
  lemma StillRight(c: Context, d: Context, id: ServiceId, m: Measure, less: int, more: int)
    requires id in c.accounts && id in d.accounts && CountedBy(c, id, m)
    requires Counter(d.accounts[id], m)
      == ((Counter(c.accounts[id], m) - less) % Modulus(m) + more) % Modulus(m)
    requires Recount(d, id, m) == Recount(c, id, m) - less + more
    ensures CountedBy(d, id, m)
  {
    AdjustedTwice(Counter(c.accounts[id], m), Recount(c, id, m), less, more, Counter(d.accounts[id], m),
                  Recount(d, id, m), Modulus(m));
  }

  lemma WrittenCounter(c: Context, raw: Bytes, value: Option<Bytes>, d: Context, m: Measure)
    requires c.self in c.accounts && Written(c, raw, value, d)
    ensures Counter(d.accounts[c.self], m)
      == ((Counter(c.accounts[c.self], m) - OldWeight(c, m, raw)) % Modulus(m) + NewWeight(m, raw, value)) % Modulus(m)
  {}

  lemma AdjustedTwice(counter: int, count: int, less: int, more: int, now: int, recount: int, n: int)
    requires n > 0 && counter == count % n && now == ((counter - less) % n + more) % n && recount == count - less + more
    ensures now == recount % n
  {
    Adjusted(counter, count, -less, n);
    assert (counter - less) % n == (counter + -less) % n;
    Adjusted((counter - less) % n, count - less, more, n);
  }

  lemma ReduceTwice(x: int, n: int)
    requires n > 0
    ensures (x % n) % n == x % n
  {
    ModPeriod(x % n, x / n, n);
    assert x == x % n + (x / n) * n;
  }

  lemma WriteDoes(c: Context, raw: Bytes, value: Option<Bytes>)
    requires c.self in c.accounts
    ensures var (r, d) := WriteStorage(c, raw, value); d == c || Written(c, raw, value, d)
  {
    ReduceTwice(c.accounts[c.self].info.items - 1, TWO32);
  }

  /** One's own pooled storage entry moves into the account when read. */
  lemma ReadCounted(c: Context, target: ServiceId, raw: Bytes)
    requires Counted(c, c.self)
    ensures Counted(ReadStorage(c, target, raw).1, c.self)
  {
    var sk := StorageKey(target, raw);
    var d := ReadStorage(c, target, raw).1;
    if d != c {
      MovedStorage(c, raw, Items);
      MovedStorage(c, raw, Octets);
    }
  }

  lemma MovedStorage(c: Context, raw: Bytes, m: Measure)
    requires c.self in c.accounts && StorageKey(c.self, raw) in c.storagePool && raw !in c.accounts[c.self].storage
    ensures var d := ReadStorage(c, c.self, raw).1; Recount(d, c.self, m) == Recount(c, c.self, m)
  {
    var sk := StorageKey(c.self, raw);
    SumDrop(c.storagePool, PooledStorageW(c.self, m), sk);
    SumPut(c.accounts[c.self].storage, StorageW(m), raw, c.storagePool[sk]);
  }

  lemma SolicitCounted(setting: Setting, c: Context, key: LookupKey)
    requires Counted(c, c.self) && !Solicit(c, key, setting.slot).0.Abort?
    ensures Counted(Solicit(c, key, setting.slot).1, c.self)
  {
    FetchCounted(c, c.self, key, c.self);
    var c' := Fetched(c, c.self, key).1;
    var a := c'.accounts[c.self];
    if key !in a.lookup {
      var more := WithCounters(a, Wrap32(a.info.items + 2), Wrap64(a.info.bytes + LookupOctets(key)));
      LookupChange(c', key, more.(lookup := a.lookup[key := []]), 1);
    } else if |a.lookup[key]| == 2 {
      SlotsChange(c', key, a.lookup[key] + [setting.slot]);
    }
  }

  lemma ForgetCounted(setting: Setting, c: Context, key: LookupKey)
    requires Counted(c, c.self) && !Forget(c, key, setting.slot, setting.expunge).0.Abort?
    ensures Counted(Forget(c, key, setting.slot, setting.expunge).1, c.self)
  {
    FetchCounted(c, c.self, key, c.self);
    var c' := Fetched(c, c.self, key).1;
    var a := c'.accounts[c.self];
    if key in a.lookup {
      var l := a.lookup[key];
      if |l| == 0 || (|l| == 2 && l[1] < setting.slot - setting.expunge) {
        var less := WithCounters(a, Wrap32(a.info.items - 2), Wrap64(a.info.bytes - LookupOctets(key)));
        LookupChange(c', key, less.(lookup := a.lookup - {key}, preimages := a.preimages - {key.hash}), -1);
      } else if |l| == 1 {
        SlotsChange(c', key, l + [setting.slot]);
      } else if |l| == 3 && l[1] < setting.slot - setting.expunge {
        SlotsChange(c', key, [l[2], setting.slot]);
      }
    }
  }

  predicate SameFootprint(was: Account, a: Account)
  {
    a.lookup == was.lookup && a.storage == was.storage && a.info.items == was.info.items
      && a.info.bytes == was.info.bytes
  }

  /** Nothing that counts for this account has changed. */
  predicate KeepsFootprint(c: Context, d: Context, id: ServiceId)
  {
    && id in c.accounts && id in d.accounts && d.lookupPool == c.lookupPool && d.storagePool == c.storagePool
    && SameFootprint(c.accounts[id], d.accounts[id])
  }

  lemma KeptCounted(c: Context, d: Context, id: ServiceId)
    requires Counted(c, id) && KeepsFootprint(c, d, id)
    ensures Counted(d, id)
  {
    assert Recount(d, id, Items) == Recount(c, id, Items) && Recount(d, id, Octets) == Recount(c, id, Octets);
  }

  /** Calls that touch balances, code, gas limits or privileges only. */
  predicate MoneyCall(call: Call)
  {
    call.CallSend? || call.CallEject? || call.CallUpgrade? || call.CallYield? || call.CallPrivileges?
  }

  lemma SendKeeps(c: Context, call: Call, id: ServiceId)
    requires c.self in c.accounts && call.CallSend? && id in c.accounts
    ensures KeepsFootprint(c, Send(c, call.receiver, call.amount, call.gasLimit, call.memo).1, id)
  {}

  lemma EjectKeeps(setting: Setting, c: Context, call: Call, id: ServiceId)
    requires c.self in c.accounts && call.CallEject? && id in c.accounts
    ensures var d := Eject(c, call.ejected, call.hash, setting.slot, setting.expunge).1;
      id in d.accounts ==> KeepsFootprint(c, d, id)
  {}

  lemma MoneyCounted(setting: Setting, c: Context, call: Call, id: ServiceId)
    requires c.self in c.accounts && Counted(c, id) && MoneyCall(call)
    requires id in Apply(setting, c, call).1.accounts
    ensures Counted(Apply(setting, c, call).1, id)
  {
    if call.CallSend? { SendKeeps(c, call, id); } else if call.CallEject? { EjectKeeps(setting, c, call, id); }
    KeptCounted(c, Apply(setting, c, call).1, id);
  }

  lemma NewCounted(setting: Setting, c: Context, call: Call, id: ServiceId)
    requires Sound(c) && Roomy(c) && call.CallNew? && Counted(c, id)
    ensures Counted(Apply(setting, c, call).1, id)
  {
    NextImport(c);
    NewKeeps(c, setting.otherBless, call, setting.slot, id);
    KeptCounted(c, Apply(setting, c, call).1, id);
  }

  lemma EndowKeeps(c: Context, id0: ServiceId, a: Account, balance: u64, id: ServiceId)
    requires c.self in c.accounts && id0 !in c.accounts && id in c.accounts
    ensures KeepsFootprint(c, Put(Put(c, id0, a), c.self, WithBalance(AccountAt(c, c.self), balance)), id)
  {}

  /** A service is created by adding its account and rewriting the caller's balance, or not at all. */
  lemma NewAdds(c: Context, otherBless: ServiceId, call: Call, slot: u32)
        returns (next: ServiceId, id0: ServiceId, a: Account, balance: u64)
    requires c.self in c.accounts && c.importId !in c.accounts && call.CallNew?
    ensures balance == SubWrap(AccountAt(c, c.self).info.balance, Deposit(call))
    ensures var d := New(c, otherBless, call.codeHash, call.length, call.minItemGas, call.minMemoGas, call.free,
      call.wanted, slot).1;
      || d == c
      || (id0 !in c.accounts
        && d == Put(Put(c.(importId := next), id0, a), c.self, WithBalance(AccountAt(c, c.self), balance)))
  {
    a := NewAccount(c.self, call.codeHash, call.length, call.minItemGas, call.minMemoGas, slot);
    balance := SubWrap(AccountAt(c, c.self).info.balance, a.info.balance);
    if c.self == c.privileges.createAcct && call.wanted < MIN_SERVICE_INDEX {
      id0 := call.wanted;
      next := c.importId;
      assert c.(importId := next) == c;
    } else {
      id0 := c.importId;
      var found := Check(MIN_SERVICE_INDEX + Wrap32(c.importId - MIN_SERVICE_INDEX + 42) % ID_RANGE, c.accounts.Keys);
      next := if found.Some? then found.value else 0;
    }
  }

  /** Creating a service changes no footprint but its own. */
  lemma NewKeeps(c: Context, otherBless: ServiceId, call: Call, slot: u32, id: ServiceId)
    requires Sound(c) && call.CallNew? && id in c.accounts
    ensures KeepsFootprint(c,
      New(c, otherBless, call.codeHash, call.length, call.minItemGas, call.minMemoGas, call.free, call.wanted, slot).1,
      id)
  {
    var next, id0, a, balance := NewAdds(c, otherBless, call, slot);
    if id0 !in c.accounts { EndowKeeps(c.(importId := next), id0, a, balance, id); }
  }

  /** Every call keeps the caller's own counters right, unless it panics. */
  lemma OwnCountersKept(setting: Setting, c: Context, call: Call)
    requires Sound(c) && Roomy(c) && Counted(c, c.self) && !Apply(setting, c, call).0.Abort?
    ensures Counted(Apply(setting, c, call).1, c.self)
  {
    match call
    case CallNew(_, _, _, _, _, _) => NewCounted(setting, c, call, c.self);
    case CallQuery(key) => FetchCounted(c, c.self, key, c.self);
    case CallSolicit(key) => SolicitCounted(setting, c, key);
    case CallForget(key) => ForgetCounted(setting, c, key);
    case CallProvide(id, key, _, _) => if id in c.accounts { ProvideCounted(setting, c, call, c.self); }
    case CallRead(id, raw) => ReadCounted(c, id, raw);
    case CallWrite(raw, value) => OwnWriteCounted(c, raw, value);
    case _ => MoneyCounted(setting, c, call, c.self);
  }

  lemma OwnWriteCounted(c: Context, raw: Bytes, value: Option<Bytes>)
    requires Counted(c, c.self)
    ensures Counted(WriteStorage(c, raw, value).1, c.self)
  {
    WriteDoes(c, raw, value);
    var d := WriteStorage(c, raw, value).1;
    if d != c { WriteCounted(c, raw, value, d); }
  }

  lemma ProvideCounted(setting: Setting, c: Context, call: Call, id: ServiceId)
    requires call.CallProvide? && call.id in c.accounts && Counted(c, id) && !Apply(setting, c, call).0.Abort?
    ensures Counted(Apply(setting, c, call).1, id)
  {
    FetchCounted(c, call.id, call.key, id);
    var c' := Fetched(c, call.id, call.key).1;
    KeptCounted(c', Apply(setting, c, call).1, id);
  }

  /** What a call on the caller's own account leaves of the others. */
  predicate OnlyOwn(c: Context, d: Context, pk: PoolLookupKey, sk: StorageKey)
  {
    && pk.service == c.self && sk.service == c.self
    && (d.lookupPool == c.lookupPool || d.lookupPool == c.lookupPool - {pk})
    && (d.storagePool == c.storagePool || d.storagePool == c.storagePool - {sk})
    && (d.accounts == c.accounts || (c.self in d.accounts && d.accounts == c.accounts[c.self := d.accounts[c.self]]))
  }

  lemma OnlyOwnCounted(c: Context, d: Context, pk: PoolLookupKey, sk: StorageKey, id: ServiceId)
    requires OnlyOwn(c, d, pk, sk) && Counted(c, id) && id != c.self
    ensures Counted(d, id)
  {
    OnlyOwnRecount(c, d, pk, sk, id, Items);
    OnlyOwnRecount(c, d, pk, sk, id, Octets);
  }

  lemma OnlyOwnRecount(c: Context, d: Context, pk: PoolLookupKey, sk: StorageKey, id: ServiceId, m: Measure)
    requires OnlyOwn(c, d, pk, sk) && id in c.accounts && id != c.self
    ensures id in d.accounts && d.accounts[id] == c.accounts[id] && Recount(d, id, m) == Recount(c, id, m)
  {
    if pk in c.lookupPool {
      SumDrop(c.lookupPool, PooledLookupW(id, m), pk);
    } else {
      assert c.lookupPool - {pk} == c.lookupPool;
    }
    if sk in c.storagePool {
      SumDrop(c.storagePool, PooledStorageW(id, m), sk);
    } else {
      assert c.storagePool - {sk} == c.storagePool;
    }
  }

  function KeyOf(c: Context, call: Call): (PoolLookupKey, StorageKey)
  {
    (PoolLookupKey(c.self, if call.CallQuery? || call.CallSolicit? || call.CallForget? then call.key
      else LookupKey([], 0)),
     StorageKey(c.self, if call.CallRead? || call.CallWrite? then call.raw else []))
  }

  lemma QueryOnlyOwn(c: Context, key: LookupKey, sk: StorageKey)
    requires c.self in c.accounts && sk.service == c.self
    ensures OnlyOwn(c, Query(c, key).1, PoolLookupKey(c.self, key), sk)
  {}

  lemma SolicitOnlyOwn(c: Context, key: LookupKey, slot: u32, sk: StorageKey)
    requires c.self in c.accounts && sk.service == c.self
    ensures OnlyOwn(c, Solicit(c, key, slot).1, PoolLookupKey(c.self, key), sk)
  {}

  lemma ForgetOnlyOwn(c: Context, key: LookupKey, slot: u32, expunge: nat, sk: StorageKey)
    requires c.self in c.accounts && sk.service == c.self
    ensures OnlyOwn(c, Forget(c, key, slot, expunge).1, PoolLookupKey(c.self, key), sk)
  {}

  lemma ReadOnlyOwn(c: Context, id: ServiceId, raw: Bytes, pk: PoolLookupKey)
    requires c.self in c.accounts && pk.service == c.self
    ensures OnlyOwn(c, ReadStorage(c, id, raw).1, pk, StorageKey(c.self, raw))
  {}

  lemma WriteOnlyOwn(c: Context, raw: Bytes, value: Option<Bytes>, pk: PoolLookupKey)
    requires c.self in c.accounts && pk.service == c.self
    ensures OnlyOwn(c, WriteStorage(c, raw, value).1, pk, StorageKey(c.self, raw))
  {}

  /** Calls on the caller's own entries. */
  lemma OwnEntriesCounted(setting: Setting, c: Context, call: Call, id: ServiceId)
    requires Sound(c) && id != c.self && Counted(c, id)
    requires call.CallQuery? || call.CallSolicit? || call.CallForget? || call.CallRead? || call.CallWrite?
    ensures Counted(Apply(setting, c, call).1, id)
  {
    var (pk, sk) := KeyOf(c, call);
    match call {
      case CallQuery(key) => QueryOnlyOwn(c, key, sk);
      case CallSolicit(key) => SolicitOnlyOwn(c, key, setting.slot, sk);
      case CallForget(key) => ForgetOnlyOwn(c, key, setting.slot, setting.expunge, sk);
      case CallRead(target, raw) => ReadOnlyOwn(c, target, raw, pk);
      case CallWrite(raw, value) => WriteOnlyOwn(c, raw, value, pk);
    }
    OnlyOwnCounted(c, Apply(setting, c, call).1, pk, sk, id);
  }

  /** Every call keeps the counters right of every other account that remains, unless it panics. */
  lemma OtherCountersKept(setting: Setting, c: Context, call: Call, id: ServiceId)
    requires Sound(c) && Roomy(c) && id != c.self && Counted(c, id) && !Apply(setting, c, call).0.Abort?
    requires id in Apply(setting, c, call).1.accounts
    ensures Counted(Apply(setting, c, call).1, id)
  {
    match call
    case CallNew(_, _, _, _, _, _) => NewCounted(setting, c, call, id);
    case CallProvide(target, _, _, _) => if target in c.accounts { ProvideCounted(setting, c, call, id); }
    case _ =>
      if MoneyCall(call) { MoneyCounted(setting, c, call, id); } else { OwnEntriesCounted(setting, c, call, id); }
  }

  /** Over any run of calls without a panic, the caller's counters remain right. */
  lemma {:induction false} RunsKeepOwnCounters(c: Context, steps: seq<Step>)
    requires Sound(c) && |c.accounts| + |steps| <= ID_RANGE - 42 && Counted(c, c.self) && NoPanic(c, steps)
    ensures RunCalls(c, steps).self == c.self && Counted(RunCalls(c, steps), c.self)
    decreases |steps|
  {
    if steps != [] {
      var step := steps[0];
      CallConserves(step.setting, c, step.call);
      OwnCountersKept(step.setting, c, step.call);
      SelfKept(step.setting, c, step.call);
      RunsKeepOwnCounters(Apply(step.setting, c, step.call).1, steps[1..]);
    }
  }

  predicate NoPanic(c: Context, steps: seq<Step>)
    decreases |steps|
  {
    steps == [] || (!Apply(steps[0].setting, c, steps[0].call).0.Abort?
      && NoPanic(Apply(steps[0].setting, c, steps[0].call).1, steps[1..]))
  }

  lemma SelfKept(setting: Setting, c: Context, call: Call)
    ensures Apply(setting, c, call).1.self == c.self
  {}

  lemma WeightsPositive(c: Context, id: ServiceId, m: Measure)
    requires id in c.accounts
    ensures forall k, v :: LookupW(m)(k, v) > 0
    ensures forall k, v :: StorageW(m)(k, v) > 0
    ensures forall k, v :: PooledLookupW(id, m)(k, v) >= 0 && (k.service == id ==> PooledLookupW(id, m)(k, v) > 0)
    ensures forall k, v :: PooledStorageW(id, m)(k, v) >= 0 && (k.service == id ==> PooledStorageW(id, m)(k, v) > 0)
  {}

  lemma PartsNonNegative(c: Context, id: ServiceId, m: Measure)
    requires id in c.accounts
    ensures SumOver(c.accounts[id].lookup, LookupW(m)) >= 0 && SumOver(c.accounts[id].storage, StorageW(m)) >= 0
    ensures SumOver(c.lookupPool, PooledLookupW(id, m)) >= 0 && SumOver(c.storagePool, PooledStorageW(id, m)) >= 0
  {
    WeightsPositive(c, id, m);
    SumNonNegative(c.accounts[id].lookup, LookupW(m));
    SumNonNegative(c.accounts[id].storage, StorageW(m));
    SumNonNegative(c.lookupPool, PooledLookupW(id, m));
    SumNonNegative(c.storagePool, PooledStorageW(id, m));
  }

  /** No pooled entry belongs to this service. */
  ghost predicate Poolless(c: Context, id: ServiceId)
  {
    (forall pk | pk in c.lookupPool :: pk.service != id) && (forall sk | sk in c.storagePool :: sk.service != id)
  }

  /** An account that `eject` may remove holds nothing but the one lookup entry, so nothing pooled is lost with it. */
  lemma EjectedIsEmpty(c: Context, id: ServiceId, key: LookupKey)
    requires Counted(c, id) && Recount(c, id, Items) < TWO32
    requires c.accounts[id].info.items == 2 && key in c.accounts[id].lookup
    ensures Poolless(c, id) && c.accounts[id].storage == map[] && c.accounts[id].lookup.Keys == {key}
  {
    var a := c.accounts[id];
    WeightsPositive(c, id, Items);
    PartsNonNegative(c, id, Items);
    SumAtLeast(a.lookup, LookupW(Items), key);
    forall pk | pk in c.lookupPool ensures pk.service != id { SumAtLeast(c.lookupPool, PooledLookupW(id, Items), pk); }
    forall sk | sk in c.storagePool ensures sk.service != id {
      SumAtLeast(c.storagePool, PooledStorageW(id, Items), sk);
    }
    forall raw | raw in a.storage ensures false { SumAtLeast(a.storage, StorageW(Items), raw); }
    forall k | k in a.lookup ensures k == key {
      if k != key {
        SumDrop(a.lookup, LookupW(Items), key);
        SumAtLeast(a.lookup - {key}, LookupW(Items), k);
      }
    }
  }

  /** The counters of a new account are right if the pools hold nothing for its identifier. */
  lemma FreshCounted(c: Context, id: ServiceId, self: ServiceId, codeHash: Bytes, length: u32, g: u64, m: u64,
        slot: u32)
    requires Poolless(c, id) && id in c.accounts && c.accounts[id] == NewAccount(self, codeHash, length, g, m, slot)
    ensures Counted(c, id)
  {
    FreshRecount(c, id, self, codeHash, length, g, m, slot, Items);
    FreshRecount(c, id, self, codeHash, length, g, m, slot, Octets);
  }

  lemma FreshRecount(c: Context, id: ServiceId, self: ServiceId, codeHash: Bytes, length: u32, g: u64, m: u64,
        slot: u32, measure: Measure)
    requires Poolless(c, id) && id in c.accounts && c.accounts[id] == NewAccount(self, codeHash, length, g, m, slot)
    ensures Recount(c, id, measure) == LookupWeight(measure, LookupKey(codeHash, length))
  {
    SumZero(c.lookupPool, PooledLookupW(id, measure));
    SumZero(c.storagePool, PooledStorageW(id, measure));
    var none: map<LookupKey, TimeSlots> := map[];
    SumPut(none, LookupW(measure), LookupKey(codeHash, length), []);
  }
}
