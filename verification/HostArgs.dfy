/**
 * The ledger as the host functions keep it: account records that share their dictionaries by reference, a cached
 * record of the service that is running, and a second context that shares nothing with the first.
 */
module HostArguments {
  import opened Words
  import opened Accounts
  import opened Ledger

  /** The dictionaries of an account; copies of its record share them. */
  class Dicts {
    var preimages: map<Bytes, Bytes>
    var lookup: map<LookupKey, TimeSlots>
    var storage: map<Bytes, Bytes>

    constructor (preimages: map<Bytes, Bytes>, lookup: map<LookupKey, TimeSlots>, storage: map<Bytes, Bytes>)
      ensures this.preimages == preimages && this.lookup == lookup && this.storage == storage
    {
      this.preimages, this.lookup, this.storage := preimages, lookup, storage;
    }
  }

  datatype Record = Record(info: ServiceInfo, dicts: Dicts)

  function ValueOf(a: Record): Account
    reads a.dicts
  {
    Account(a.info, a.dicts.preimages, a.dicts.lookup, a.dicts.storage)
  }

  class ResultContext {
    const self: ServiceId
    var accounts: map<ServiceId, Record>
    var privileges: Privileges
    var importId: ServiceId
    var transfers: seq<Transfer>
    var exception: Option<Bytes>
    var blobs: map<Bytes, Blob>
    var storagePool: map<StorageKey, Bytes>
    var lookupPool: map<PoolLookupKey, Option<TimeSlots>>
    ghost var cells: set<Dicts>

    /** No two accounts share a dictionary. */
    ghost predicate Valid()
      reads this`accounts, this`cells
    {
      && (forall id | id in accounts :: accounts[id].dicts in cells)
      && (forall id, id' | id in accounts && id' in accounts && id != id' :: accounts[id].dicts != accounts[id'].dicts)
    }

    ghost function Values(): map<ServiceId, Account>
      reads this`accounts, this`cells, cells
      requires Valid()
    {
      map id | id in accounts :: ValueOf(accounts[id])
    }

    ghost function View(): Context
      reads this, cells
      requires Valid()
    {
      Context(self, Values(), privileges, importId, transfers, exception, blobs, storagePool, lookupPool)
    }

    constructor (c: Context)
      ensures Valid() && View() == c && fresh(cells) && self == c.self
    {
      self, privileges, importId, transfers := c.self, c.privileges, c.importId, c.transfers;
      exception, blobs, storagePool, lookupPool := c.exception, c.blobs, c.storagePool, c.lookupPool;
      accounts, cells := map[], {};
      new;
      Fill(c.accounts);
    }

    method Fill(all: map<ServiceId, Account>)
      requires accounts == map[] && cells == {}
      modifies this`accounts, this`cells
      ensures Valid() && fresh(cells) && Values() == all
    {
      var ids := all.Keys;
      while ids != {}
        invariant ids <= all.Keys && accounts.Keys == all.Keys - ids && Valid() && fresh(cells)
        invariant forall id | id in accounts :: Values()[id] == all[id]
      {
        var id :| id in ids;
        AddAccount(id, all[id]);
        ids := ids - {id};
      }
      assert Values() == all;
    }

    /** Replacing a record; the dictionaries stay. */
    method PutInfo(id: ServiceId, info: ServiceInfo)
      requires Valid() && id in accounts
      modifies this`accounts
      ensures Valid() && accounts == old(accounts)[id := Record(info, old(accounts)[id].dicts)]
      ensures View() == Put(old(View()), id, old(View()).accounts[id].(info := info))
    {
      accounts := accounts[id := Record(info, accounts[id].dicts)];
      assert Values() == old(Values())[id := old(Values())[id].(info := info)];
    }

    /** Entering a record whose dictionaries are not shared with any account. */
    method Link(id: ServiceId, record: Record)
      requires Valid() && record.dicts in cells && forall k | k in accounts :: accounts[k].dicts != record.dicts
      modifies this`accounts
      ensures Valid() && accounts == old(accounts)[id := record]
      ensures Values() == old(Values())[id := ValueOf(record)]
    {
      accounts := accounts[id := record];
      assert Values() == old(Values())[id := ValueOf(record)];
    }

    method AddAccount(id: ServiceId, a: Account)
      requires Valid()
      modifies this`accounts, this`cells
      ensures Valid() && cells >= old(cells) && fresh(cells - old(cells))
      ensures id in accounts && accounts == old(accounts)[id := accounts[id]]
      ensures Values() == old(Values())[id := a]
    {
      var dicts := new Dicts(a.preimages, a.lookup, a.storage);
      cells := cells + {dicts};
      assert Values() == old(Values());
      Link(id, Record(a.info, dicts));
    }

    method Remove(id: ServiceId)
      requires Valid()
      modifies this`accounts
      ensures Valid() && accounts == old(accounts) - {id}
      ensures View() == old(View()).(accounts := old(View()).accounts - {id})
    {
      accounts := accounts - {id};
      assert Values() == old(Values()) - {id};
    }

    /** Replacing the dictionaries of an account, in place. */
    method PutDicts(id: ServiceId, preimages: map<Bytes, Bytes>, lookup: map<LookupKey, TimeSlots>,
          storage: map<Bytes, Bytes>)
      requires Valid() && id in accounts
      modifies accounts[id].dicts
      ensures Valid() && View() == Put(old(View()), id, Account(accounts[id].info, preimages, lookup, storage))
    {
      var dicts := accounts[id].dicts;
      dicts.preimages, dicts.lookup, dicts.storage := preimages, lookup, storage;
      assert Values() == old(Values())[id := Account(accounts[id].info, preimages, lookup, storage)];
    }

    method Emit(t: Transfer)
      requires Valid()
      modifies this`transfers
      ensures Valid() && View() == old(View()).(transfers := old(View()).transfers + [t])
    {
      transfers := transfers + [t];
      assert Values() == old(Values());
    }

    method DropStorage(sk: StorageKey)
      requires Valid()
      modifies this`storagePool
      ensures Valid() && View() == old(View()).(storagePool := old(View()).storagePool - {sk})
    {
      storagePool := storagePool - {sk};
      assert Values() == old(Values());
    }

    /** A copy that shares nothing. */
    method DeepCopy() returns (copy: ResultContext)
      requires Valid()
      ensures fresh(copy) && fresh(copy.cells) && copy.Valid() && copy.self == self && copy.View() == View()
    {
      var accounts' : map<ServiceId, Account> := map[];
      var ids := accounts.Keys;
      while ids != {}
        invariant ids <= accounts.Keys && accounts'.Keys == accounts.Keys - ids
        invariant forall id | id in accounts' :: accounts'[id] == ValueOf(accounts[id])
      {
        var id :| id in ids;
        accounts' := accounts'[id := ValueOf(accounts[id])];
        ids := ids - {id};
      }
      copy := new ResultContext(
        Context(self, accounts', privileges, importId, transfers, exception, blobs, storagePool, lookupPool));
      assert accounts' == Values();
    }
  }

  /** The counters without a storage entry, if there was one. */
  function LessEntry(info: ServiceInfo, raw: Bytes, former: Option<Bytes>): ServiceInfo
  {
    info.(items := Wrap32(info.items - if former.Some? then 1 else 0),
          bytes := Wrap64(info.bytes - if former.Some? then StorageOctets(raw, former.value) else 0))
  }

  /** The counters with one more. */
  function MoreEntry(info: ServiceInfo, raw: Bytes, value: Bytes): ServiceInfo
  {
    info.(items := Wrap32(info.items + 1), bytes := Wrap64(info.bytes + StorageOctets(raw, value)))
  }

  /** The reply to a write that goes through: the former length. */
  function FormerLength(c: Context, raw: Bytes): Reply
  {
    var former := OwnStorage(c, raw);
    Value(if former.Some? then Wrap64(|former.value|) else NONE)
  }

  lemma Removal(c: Context, raw: Bytes)
    requires c.self in c.accounts
    ensures var a := c.accounts[c.self];
      WriteStorage(c, raw, None)
        == (FormerLength(c, raw),
            Put(c, c.self, a.(info := LessEntry(a.info, raw, OwnStorage(c, raw)),
              storage := a.storage - {raw})).(storagePool := c.storagePool - {StorageKey(c.self, raw)}))
  {}

  /** The counters that an insertion leaves. */
  function InfoAfter(c: Context, raw: Bytes, value: Bytes): ServiceInfo
    requires c.self in c.accounts
  {
    MoreEntry(LessEntry(c.accounts[c.self].info, raw, OwnStorage(c, raw)), raw, value)
  }

  lemma Insertion(c: Context, raw: Bytes, value: Bytes)
    requires c.self in c.accounts && ThresholdOf(InfoAfter(c, raw, value)) <= c.accounts[c.self].info.balance
    ensures var a := c.accounts[c.self];
      WriteStorage(c, raw, Some(value))
        == (FormerLength(c, raw),
            Put(c, c.self, a.(info := InfoAfter(c, raw, value),
              storage := a.storage[raw := value])).(storagePool := c.storagePool - {StorageKey(c.self, raw)}))
  {}

  lemma InsertionRefused(c: Context, raw: Bytes, value: Bytes)
    requires c.self in c.accounts && ThresholdOf(InfoAfter(c, raw, value)) > c.accounts[c.self].info.balance
    ensures WriteStorage(c, raw, Some(value)) == (Value(FULL), c)
  {}

  /** Placing a new account and rewriting the creator's record. */
  function Placed(c: Context, a: Account, info: ServiceInfo, wanted: u64): (Reply, Context)
    requires c.self in c.accounts
  {
    var creator := c.accounts[c.self].(info := info);
    if c.self == c.privileges.createAcct && wanted < MIN_SERVICE_INDEX then
      if wanted in c.accounts then (Value(FULL), c) else (Value(wanted), Put(Put(c, wanted, a), c.self, creator))
    else
      match Check(MIN_SERVICE_INDEX + Wrap32(c.importId - MIN_SERVICE_INDEX + 42) % ID_RANGE, c.accounts.Keys)
      case None => (NoReturn, c)
      case Some(next) => (Value(c.importId), Put(Put(c.(importId := next), c.importId, a), c.self, creator))
  }

  /** A service that may create another, and can afford it. */
  lemma NewAfterChecks(c: Context, otherBless: ServiceId, codeHash: Bytes, length: u32, minItemGas: u64,
                       minMemoGas: u64, free: u64, wanted: u64, slot: u32)
    requires c.self in c.accounts && (free == 0 || c.self == otherBless)
    requires var s, a := c.accounts[c.self].info, NewAccount(c.self, codeHash, length, minItemGas, minMemoGas, slot);
      ThresholdOf(s) <= SubWrap(s.balance, a.info.balance)
    ensures var s, a := c.accounts[c.self].info, NewAccount(c.self, codeHash, length, minItemGas, minMemoGas, slot);
      New(c, otherBless, codeHash, length, minItemGas, minMemoGas, free, wanted, slot)
        == Placed(c, a, s.(balance := SubWrap(s.balance, a.info.balance)), wanted)
  {}

  /** What the host functions of an accumulation work on. */
  class HostArgs {
    const slot: u32
    const expunge: nat
    const x: ResultContext
    var y: ResultContext
    var current: Record

    /** The cached record is the one in the map, dictionaries included; the two contexts share nothing. */
    ghost predicate Valid()
      reads this, x, y
    {
      && x.Valid() && y.Valid() && x != y && x.cells !! y.cells
      && x.self in x.accounts && current == x.accounts[x.self]
    }

    constructor (x: ResultContext, y: ResultContext, slot: u32, expunge: nat)
      requires x.Valid() && y.Valid() && x != y && x.cells !! y.cells && x.self in x.accounts
      ensures Valid() && this.x == x && this.y == y && this.slot == slot && this.expunge == expunge
      ensures x.View() == old(x.View())
      ensures y.View() == old(y.View())
    {
      this.x, this.y, this.slot, this.expunge := x, y, slot, expunge;
      current := x.accounts[x.self];
    }

    /** Writes the running service's record back, to the map and to the cache. */
    method Store(info: ServiceInfo)
      requires Valid()
      modifies this`current, x`accounts
      ensures Valid() && y == old(y) && current == Record(info, old(current.dicts))
      ensures x.View() == Put(old(x.View()), x.self, old(x.View()).accounts[x.self].(info := info))
    {
      x.PutInfo(x.self, info);
      current := Record(info, current.dicts);
    }

    /** Rewrites the dictionaries of the running service in place, and then its record. */
    method Save(info: ServiceInfo, preimages: map<Bytes, Bytes>, lookup: map<LookupKey, TimeSlots>,
          storage: map<Bytes, Bytes>)
      requires Valid()
      modifies this`current, x`accounts, current.dicts
      ensures Valid() && y == old(y) && current == Record(info, old(current.dicts))
      ensures x.View() == Put(old(x.View()), x.self, Account(info, preimages, lookup, storage))
    {
      x.PutDicts(x.self, preimages, lookup, storage);
      Store(info);
      PutTwice(old(x.View()), x.self, Account(old(current.info), preimages, lookup, storage),
        Account(info, preimages, lookup, storage));
    }

    method Checkpoint()
      requires Valid()
      modifies this`y
      ensures Valid() && fresh(y) && fresh(y.cells)
      ensures x.View() == old(x.View())
      ensures y.View() == old(x.View())
    {
      y := x.DeepCopy();
    }

    method SendTransfer(d: u64, amount: u64, gasLimit: u64, memo: Bytes) returns (reply: Reply)
      requires Valid()
      modifies this`current, x
      ensures Valid() && y == old(y)
      ensures (reply, x.View()) == Send(old(x.View()), d, amount, gasLimit, memo)
    {
      var receiver := Wrap32(d);
      if receiver !in x.accounts { return Value(WHO); }
      if gasLimit < x.accounts[receiver].info.minMemoGas { return Value(LOW); }
      var s := x.accounts[x.self].info;
      var balance := SubWrap(s.balance, amount);
      if balance < ThresholdOf(s) || s.balance < amount { return Value(CASH); }
      ghost var c := x.View();
      Store(s.(balance := balance));
      assert x.View() == Put(c, x.self, WithBalance(c.accounts[x.self], balance));
      x.Emit(Transfer(x.self, receiver, amount, memo, gasLimit));
      reply := Value(OK);
    }

    method UpgradeCode(codeHash: Bytes, minItemGas: u64, minMemoGas: u64)
      requires Valid()
      modifies this`current, x
      ensures Valid() && y == old(y) && x.View() == Upgrade(old(x.View()), codeHash, minItemGas, minMemoGas)
    {
      Store(x.accounts[x.self].info.(codeHash := codeHash, minItemGas := minItemGas, minMemoGas := minMemoGas));
    }

    /** Moves a pooled lookup entry into the dictionary of its account. */
    method Load(id: ServiceId, key: LookupKey) returns (found: Option<bool>)
      requires Valid() && id in x.accounts
      modifies x`lookupPool, x.accounts[id].dicts
      ensures Valid() && y == old(y) && x.accounts == old(x.accounts) && x.cells == old(x.cells)
      ensures (found, x.View()) == Fetched(old(x.View()), id, key)
    {
      var pk := PoolLookupKey(id, key);
      if pk !in x.lookupPool { return Some(false); }
      var slots := x.lookupPool[pk];
      x.lookupPool := x.lookupPool - {pk};
      if slots.None? { return None; }
      var dicts := x.accounts[id].dicts;
      x.PutDicts(id, dicts.preimages, dicts.lookup[key := slots.value], dicts.storage);
      found := Some(true);
    }

    method QueryLookup(key: LookupKey) returns (reply: Reply)
      requires Valid()
      modifies x`lookupPool, current.dicts
      ensures Valid() && y == old(y) && current == old(current)
      ensures (reply, x.View()) == Query(old(x.View()), key)
    {
      var found := Load(x.self, key);
      if found.None? { return Abort; }
      var lookup := x.accounts[x.self].dicts.lookup;
      if key !in lookup { return Two(NONE, 0); }
      var l := lookup[key];
      if |l| == 0 { return Two(0, 0); }
      if |l| == 1 { return Two(1 + TWO32 * l[0], 0); }
      if |l| == 2 { return Two(2 + TWO32 * l[0], l[1]); }
      if |l| == 3 { return Two(3 + TWO32 * l[0], l[1] + TWO32 * l[2]); }
      reply := Silent;
    }

    method SolicitPreimage(key: LookupKey) returns (reply: Reply)
      requires Valid()
      modifies this`current, x, current.dicts
      ensures Valid() && y == old(y)
      ensures (reply, x.View()) == Solicit(old(x.View()), key, slot)
    {
      var found := Load(x.self, key);
      if found.None? { return Abort; }
      var a := x.accounts[x.self];
      var items, octets := Wrap32(a.info.items + 2), Wrap64(a.info.bytes + LookupOctets(key));
      if key !in a.dicts.lookup {
        if a.info.balance < Threshold(items, octets, a.info.depositOffset) { return Value(FULL); }
        Save(a.info.(items := items, bytes := octets), a.dicts.preimages, a.dicts.lookup[key := []], a.dicts.storage);
        return Value(OK);
      }
      if |a.dicts.lookup[key]| != 2 { return Value(HUH); }
      Save(a.info, a.dicts.preimages, a.dicts.lookup[key := a.dicts.lookup[key] + [slot]], a.dicts.storage);
      reply := Value(OK);
    }

    method ForgetPreimage(key: LookupKey) returns (reply: Reply)
      requires Valid()
      modifies this`current, x, current.dicts
      ensures Valid() && y == old(y)
      ensures (reply, x.View()) == Forget(old(x.View()), key, slot, expunge)
    {
      var found := Load(x.self, key);
      if found.None? { return Abort; }
      var a := x.accounts[x.self];
      if key !in a.dicts.lookup { return Value(HUH); }
      var l := a.dicts.lookup[key];
      if |l| == 0 || (|l| == 2 && l[1] < slot - expunge) {
        var info := a.info.(items := Wrap32(a.info.items - 2), bytes := Wrap64(a.info.bytes - LookupOctets(key)));
        Save(info, a.dicts.preimages - {key.hash}, a.dicts.lookup - {key}, a.dicts.storage);
      } else if |l| == 1 {
        Save(a.info, a.dicts.preimages, a.dicts.lookup[key := l + [slot]], a.dicts.storage);
      } else if |l| == 3 && l[1] < slot - expunge {
        Save(a.info, a.dicts.preimages, a.dicts.lookup[key := [l[2], slot]], a.dicts.storage);
      } else {
        return Value(HUH);
      }
      reply := Value(OK);
    }

    /** Creating a service. */
    method NewService(otherBless: ServiceId, codeHash: Bytes, length: u32, minItemGas: u64, minMemoGas: u64, free: u64,
          wanted: u64)
      returns (reply: Reply)
      requires Valid() && x.importId !in x.accounts
      modifies this`current, x
      ensures Valid() && y == old(y)
      ensures (reply, x.View())
        == New(old(x.View()), otherBless, codeHash, length, minItemGas, minMemoGas, free, wanted, slot)
    {
      ghost var c := x.View();
      if free != 0 && x.self != otherBless { return Value(HUH); }
      var s := x.accounts[x.self].info;
      assert s == AccountAt(c, c.self).info;
      var a := NewAccount(x.self, codeHash, length, minItemGas, minMemoGas, slot);
      var balance := SubWrap(s.balance, a.info.balance);
      if balance < ThresholdOf(s) { return Value(CASH); }
      NewAfterChecks(c, otherBless, codeHash, length, minItemGas, minMemoGas, free, wanted, slot);
      reply := Place(a, s.(balance := balance), wanted);
    }

    /** Finding a place for a new service. */
    method Place(a: Account, info: ServiceInfo, wanted: u64) returns (reply: Reply)
      requires Valid() && x.importId !in x.accounts
      modifies this`current, x`accounts, x`cells, x`importId
      ensures Valid() && y == old(y)
      ensures (reply, x.View()) == Placed(old(x.View()), a, info, wanted)
    {
      ghost var c := x.View();
      assert x.accounts.Keys == c.accounts.Keys;
      if x.self == x.privileges.createAcct && wanted < MIN_SERVICE_INDEX {
        if wanted in x.accounts { return Value(FULL); }
        Endow(wanted, a, info);
        return Value(wanted);
      }
      var next := Check(MIN_SERVICE_INDEX + Wrap32(x.importId - MIN_SERVICE_INDEX + 42) % ID_RANGE, x.accounts.Keys);
      if next.None? { return NoReturn; }
      reply := Value(x.importId);
      EndowReserved(next.value, a, info);
    }

    method EndowReserved(next: ServiceId, a: Account, info: ServiceInfo)
      requires Valid() && x.importId !in x.accounts
      modifies this`current, x`accounts, x`cells, x`importId
      ensures Valid() && y == old(y)
      ensures var c := old(x.View());
        x.View() == Put(Put(c.(importId := next), c.importId, a), c.self, c.accounts[c.self].(info := info))
    {
      var id := x.importId;
      x.importId := next;
      Endow(id, a, info);
    }

    method Endow(id: ServiceId, a: Account, info: ServiceInfo)
      requires Valid() && id !in x.accounts
      modifies this`current, x`accounts, x`cells
      ensures Valid() && y == old(y)
      ensures var c := old(x.View()); x.View() == Put(Put(c, id, a), c.self, c.accounts[c.self].(info := info))
    {
      x.AddAccount(id, a);
      Store(info);
    }

    method EjectService(d: u64, hash: Bytes) returns (reply: Reply)
      requires Valid()
      modifies this`current, x`accounts
      ensures Valid() && y == old(y)
      ensures (reply, x.View()) == Eject(old(x.View()), d, hash, slot, expunge)
    {
      var id := Wrap32(d);
      if id == x.self || id !in x.accounts { return Value(WHO); }
      var a := x.accounts[id];
      if a.info.codeHash != ToBytes(x.self, 32) { return Value(WHO); }
      var key := LookupKey(hash, Wrap32(Max(81, a.info.bytes) - 81));
      if a.info.items != 2 || key !in a.dicts.lookup { return Value(HUH); }
      var l := a.dicts.lookup[key];
      if |l| == 2 && l[1] < slot - expunge {
        var s := x.accounts[x.self].info;
        ghost var c := x.View();
        Store(s.(balance := AddWrap(s.balance, a.info.balance)));
        assert x.View() == Put(c, x.self, WithBalance(c.accounts[x.self], AddWrap(s.balance, a.info.balance)));
        x.Remove(id);
        return Value(OK);
      }
      reply := Value(HUH);
    }

    method ProvidePreimage(id: ServiceId, key: LookupKey, blobId: Bytes, data: Bytes) returns (reply: Reply)
      requires Valid()
      modifies x, if id in x.accounts then {x.accounts[id].dicts} else {}
      ensures Valid() && y == old(y)
      ensures (reply, x.View()) == Provide(old(x.View()), id, key, blobId, data)
    {
      if id !in x.accounts { return Value(WHO); }
      var found := Load(id, key);
      if found.None? { return Abort; }
      var lookup := x.accounts[id].dicts.lookup;
      if key !in lookup || lookup[key] != [] || blobId in x.blobs { return Value(HUH); }
      x.blobs := x.blobs[blobId := Blob(id, data)];
      reply := Value(OK);
    }

    method ReadEntry(id: ServiceId, raw: Bytes) returns (value: Option<Bytes>)
      requires Valid() && id in x.accounts
      modifies x`storagePool, current.dicts
      ensures Valid() && y == old(y) && current == old(current)
      ensures (value, x.View()) == ReadStorage(old(x.View()), id, raw)
    {
      var storage := x.accounts[id].dicts.storage;
      var sk := StorageKey(id, raw);
      if raw in storage { return Some(storage[raw]); }
      if sk !in x.storagePool { return None; }
      value := Some(x.storagePool[sk]);
      if id == x.self {
        x.PutDicts(id, current.dicts.preimages, current.dicts.lookup, storage[raw := value.value]);
        x.storagePool := x.storagePool - {sk};
      }
    }

    method WriteEntry(raw: Bytes, value: Option<Bytes>) returns (reply: Reply)
      requires Valid()
      modifies this`current, x`accounts, x`storagePool, current.dicts
      ensures Valid() && y == old(y)
      ensures (reply, x.View()) == WriteStorage(old(x.View()), raw, value)
    {
      var a, sk := current, StorageKey(x.self, raw);
      var former := if raw in a.dicts.storage then Some(a.dicts.storage[raw])
                    else if sk in x.storagePool then Some(x.storagePool[sk]) else None;
      ghost var c := x.View();
      assert former == OwnStorage(c, raw) && c.accounts[c.self] == ValueOf(a);
      var info := LessEntry(a.info, raw, former);
      var storage := a.dicts.storage - {raw};
      if value.Some? {
        info := MoreEntry(info, raw, value.value);
        if ThresholdOf(info) > info.balance {
          InsertionRefused(c, raw, value.value);
          return Value(FULL);
        }
        storage := a.dicts.storage[raw := value.value];
        Insertion(c, raw, value.value);
      } else {
        Removal(c, raw);
      }
      ReplaceStorage(info, storage, sk);
      reply := Value(if former.Some? then Wrap64(|former.value|) else NONE);
    }

    method ReplaceStorage(info: ServiceInfo, storage: map<Bytes, Bytes>, sk: StorageKey)
      requires Valid()
      modifies this`current, x`accounts, x`storagePool, current.dicts
      ensures Valid() && y == old(y)
      ensures var c := old(x.View());
        x.View() == Put(c, c.self,
          c.accounts[c.self].(info := info, storage := storage)).(storagePool := c.storagePool - {sk})
    {
      Save(info, current.dicts.preimages, current.dicts.lookup, storage);
      x.DropStorage(sk);
    }
  }

  method Twins(c: Context) returns (x: ResultContext, y: ResultContext)
    requires c.self in c.accounts
    ensures fresh(x) && fresh(y) && fresh(x.cells) && fresh(y.cells) && x.Valid() && y.Valid()
    ensures x != y && x.cells !! y.cells && x.self in x.accounts
    ensures x.View() == c
    ensures y.View() == c
  {
    x := new ResultContext(c);
    assert x.Values() == c.accounts;
    y := x.DeepCopy();
  }

  /** Both contexts of an accumulation start from the same state, each with its own copy. */
  method Begin(c: Context, slot: u32, expunge: nat) returns (h: HostArgs)
    requires c.self in c.accounts
    ensures h.Valid() && fresh(h) && fresh(h.x) && fresh(h.y) && fresh(h.x.cells) && fresh(h.y.cells)
    ensures h.slot == slot && h.expunge == expunge
    ensures h.x.View() == c
    ensures h.y.View() == c
  {
    var x, y := Twins(c);
    h := new HostArgs(x, y, slot, expunge);
  }
}
