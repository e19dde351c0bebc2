/**
 * The accounts an accumulation works on, and what the accumulate host calls do to them.
 * Arguments have been read from registers and memory already; a reply says what goes back.
 */
module Ledger {
  import opened Words
  import opened Accounts

  const MIN_SERVICE_INDEX: int := 0x1_0000

  /** Identifiers chosen by the chain lie in [MIN_SERVICE_INDEX, MIN_SERVICE_INDEX + ID_RANGE). */
  const ID_RANGE: int := TWO32 - MIN_SERVICE_INDEX - 0x100

  const OK: u64 := 0
  const HUH: u64 := TWO64 - 9
  const LOW: u64 := TWO64 - 8
  const CASH: u64 := TWO64 - 7
  const CORE: u64 := TWO64 - 6
  const FULL: u64 := TWO64 - 5
  const WHO: u64 := TWO64 - 4
  const OOB: u64 := TWO64 - 3
  const WHAT: u64 := TWO64 - 2
  const NONE: u64 := TWO64 - 1

  datatype Transfer = Transfer(sender: ServiceId, receiver: ServiceId, amount: u64, memo: Bytes, gasLimit: u64)

  datatype Blob = Blob(service: ServiceId, data: Bytes)

  datatype Privileges = Privileges(
    bless: ServiceId, assign: seq<ServiceId>, designate: ServiceId, createAcct: ServiceId,
      alwaysAccum: map<ServiceId, u64>)

  datatype StorageKey = StorageKey(service: ServiceId, raw: Bytes)

  datatype PoolLookupKey = PoolLookupKey(service: ServiceId, key: LookupKey)

  /**
   * One of the two contexts of an accumulation. The two pools are the state entries not yet
   * assigned to an account; a pooled lookup entry is None if its bytes do not decode.
   */
  datatype Context = Context(
    self: ServiceId,
    accounts: map<ServiceId, Account>,
    privileges: Privileges,
    importId: ServiceId,
    transfers: seq<Transfer>,
    exception: Option<Bytes>,
    blobs: map<Bytes, Blob>,
    storagePool: map<StorageKey, Bytes>,
    lookupPool: map<PoolLookupKey, Option<TimeSlots>>)

  /** What a host call sends back: nothing, a word in register 7, words in 7 and 8, a panic, or no return. */
  datatype Reply = Silent | Value(r7: u64) | Two(r7: u64, r8: u64) | Abort | NoReturn

  /** The account of an identifier, all zero if there is none. */
  function AccountAt(c: Context, id: ServiceId): Account
  {
    if id in c.accounts then c.accounts[id]
    else Account(ServiceInfo([], 0, 0, 0, 0, 0, 0, 0, 0, 0), map[], map[], map[])
  }

  function Put(c: Context, id: ServiceId, a: Account): Context { c.(accounts := c.accounts[id := a]) }

  lemma PutTwice(c: Context, id: ServiceId, a: Account, b: Account)
    ensures Put(Put(c, id, a), id, b) == Put(c, id, b)
  {
    assert c.accounts[id := a][id := b] == c.accounts[id := b];
  }

  function WithBalance(a: Account, balance: u64): Account { a.(info := a.info.(balance := balance)) }

  function WithCounters(a: Account, items: u32, octets: u64): Account
  {
    a.(info := a.info.(items := items, bytes := octets))
  }

  /** The identifier tried after id. */
  function NextId(id: ServiceId): ServiceId
  {
    Wrap32(id - MIN_SERVICE_INDEX + 1) % ID_RANGE + MIN_SERVICE_INDEX
  }

  /** The first unused identifier among id and the given number of successors; None if all are used. */
  function FirstFree(id: ServiceId, used: set<ServiceId>, steps: nat): Option<ServiceId>
    decreases steps
  {
    if id !in used then Some(id)
    else if steps == 0 then None
    else FirstFree(NextId(id), used, steps - 1)
  }

  /** The search for an unused identifier; None stands for a search that does not end. */
  function Check(id: ServiceId, used: set<ServiceId>): Option<ServiceId> { FirstFree(id, used, ID_RANGE) }

  /** The account a service creates: empty but for the request for its own code. */
  function NewAccount(self: ServiceId, codeHash: Bytes, length: u32, minItemGas: u64, minMemoGas: u64,
        slot: u32): Account
  {
    var items, octets := 2, LookupOctets(LookupKey(codeHash, length));
    Account(
      ServiceInfo(codeHash, Threshold(items, octets, 0), minItemGas, minMemoGas, octets, 0, items, slot, 0, self),
      map[], map[LookupKey(codeHash, length) := []], map[])
  }

  /** Creating a service. The right to ask for a free deposit is looked up in the other context. */
  function New(c: Context, otherBless: ServiceId, codeHash: Bytes, length: u32, minItemGas: u64, minMemoGas: u64,
               free: u64, wanted: u64, slot: u32): (Reply, Context)
  {
    if free != 0 && c.self != otherBless then (Value(HUH), c)
    else
      var s := AccountAt(c, c.self);
      var a := NewAccount(c.self, codeHash, length, minItemGas, minMemoGas, slot);
      var balance := SubWrap(s.info.balance, a.info.balance);
      var chosen := c.self == c.privileges.createAcct && wanted < MIN_SERVICE_INDEX;
      if balance < ThresholdOf(s.info) then (Value(CASH), c)
      else if chosen && wanted in c.accounts then (Value(FULL), c)
      else if chosen then (Value(wanted), Put(Put(c, wanted, a), c.self, WithBalance(s, balance)))
      else
        var start := MIN_SERVICE_INDEX + Wrap32(c.importId - MIN_SERVICE_INDEX + 42) % ID_RANGE;
        match Check(start, c.accounts.Keys)
        case None => (NoReturn, c)
        case Some(next) =>
          (Value(c.importId), Put(Put(c.(importId := next), c.importId, a), c.self, WithBalance(s, balance)))
  }

  /** Sending an amount; the gas of the transfer is charged afterwards. */
  function Send(c: Context, d: u64, amount: u64, gasLimit: u64, memo: Bytes): (Reply, Context)
  {
    var receiver := Wrap32(d);
    if receiver !in c.accounts then (Value(WHO), c)
    else if gasLimit < c.accounts[receiver].info.minMemoGas then (Value(LOW), c)
    else if c.self !in c.accounts then (Value(OK), c)
    else
      var s := c.accounts[c.self];
      var balance := SubWrap(s.info.balance, amount);
      if balance < ThresholdOf(s.info) || s.info.balance < amount then (Value(CASH), c)
      else
        (Value(OK),
         Put(c, c.self, WithBalance(s, balance)).(transfers := c.transfers
           + [Transfer(c.self, receiver, amount, memo, gasLimit)]))
  }

  /** Taking over the balance of an abandoned service. */
  function Eject(c: Context, d: u64, hash: Bytes, slot: u32, expunge: nat): (Reply, Context)
  {
    var id := Wrap32(d);
    if id == c.self || id !in c.accounts then (Value(WHO), c)
    else
      var a := c.accounts[id];
      var key := LookupKey(hash, Wrap32(Max(81, a.info.bytes) - 81));
      if a.info.codeHash != ToBytes(c.self, 32) then (Value(WHO), c)
      else if a.info.items != 2 || key !in a.lookup then (Value(HUH), c)
      else if |a.lookup[key]| == 2 && a.lookup[key][1] < slot - expunge && c.self in c.accounts then
        var s := c.accounts[c.self];
        (Value(OK),
         c.(accounts := c.accounts[c.self := WithBalance(s, AddWrap(s.info.balance, a.info.balance))] - {id}))
      else (Value(HUH), c)
  }

  /** A pooled lookup entry moves into its account. None if its bytes do not decode. */
  function Fetched(c: Context, id: ServiceId, key: LookupKey): (Option<bool>, Context)
  {
    var pk := PoolLookupKey(id, key);
    if pk !in c.lookupPool then (Some(false), c)
    else
      var c' := c.(lookupPool := c.lookupPool - {pk});
      match c.lookupPool[pk]
      case None => (None, c')
      case Some(slots) =>
        var a := AccountAt(c', id);
        (Some(true), Put(c', id, a.(lookup := a.lookup[key := slots])))
  }

  /** Asking for the state of a lookup entry. */
  function Query(c: Context, key: LookupKey): (Reply, Context)
  {
    var (found, c') := Fetched(c, c.self, key);
    if found.None? then (Abort, c')
    else if found.value && c.self !in c.accounts then (NoReturn, c)
    else
      var lookup := AccountAt(c', c.self).lookup;
      if key !in lookup then (Two(NONE, 0), c')
      else
        var l := lookup[key];
        if |l| == 0 then (Two(0, 0), c')
        else if |l| == 1 then (Two(1 + TWO32 * l[0], 0), c')
        else if |l| == 2 then (Two(2 + TWO32 * l[0], l[1]), c')
        else if |l| == 3 then (Two(3 + TWO32 * l[0], l[1] + TWO32 * l[2]), c')
        else (Silent, c')
  }

  /** Asking for a preimage to be supplied. */
  function Solicit(c: Context, key: LookupKey, slot: u32): (Reply, Context)
  {
    if c.self !in c.accounts then (Silent, c)
    else
      var (found, c') := Fetched(c, c.self, key);
      if found.None? then (Abort, c')
      else
        var a := AccountAt(c', c.self);
        var items, octets := Wrap32(a.info.items + 2), Wrap64(a.info.bytes + LookupOctets(key));
        if key !in a.lookup then
          if a.info.balance < Threshold(items, octets, a.info.depositOffset) then (Value(FULL), c')
          else (Value(OK), Put(c', c.self, WithCounters(a, items, octets).(lookup := a.lookup[key := []])))
        else if |a.lookup[key]| == 2 then
          (Value(OK), Put(c', c.self, a.(lookup := a.lookup[key := a.lookup[key] + [slot]])))
        else (Value(HUH), c')
  }

  /** Giving up a preimage. */
  function Forget(c: Context, key: LookupKey, slot: u32, expunge: nat): (Reply, Context)
  {
    if c.self !in c.accounts then (Silent, c)
    else
      var (found, c') := Fetched(c, c.self, key);
      if found.None? then (Abort, c')
      else
        var a := AccountAt(c', c.self);
        if key !in a.lookup then (Value(HUH), c')
        else
          var l := a.lookup[key];
          if |l| == 0 || (|l| == 2 && l[1] < slot - expunge) then
            var gone := WithCounters(a, Wrap32(a.info.items - 2), Wrap64(a.info.bytes - LookupOctets(key)));
            (Value(OK), Put(c', c.self, gone.(lookup := a.lookup - {key}, preimages := a.preimages - {key.hash})))
          else if |l| == 1 then
            (Value(OK), Put(c', c.self, a.(lookup := a.lookup[key := l + [slot]])))
          else if |l| == 3 && l[1] < slot - expunge then
            (Value(OK), Put(c', c.self, a.(lookup := a.lookup[key := [l[2], slot]])))
          else (Value(HUH), c')
  }

  /** Supplying a preimage that was asked for; blobId identifies the pair of service and data. */
  function Provide(c: Context, id: ServiceId, key: LookupKey, blobId: Bytes, data: Bytes): (Reply, Context)
  {
    if id !in c.accounts then (Value(WHO), c)
    else
      var (found, c') := Fetched(c, id, key);
      if found.None? then (Abort, c')
      else
        var lookup := AccountAt(c', id).lookup;
        if key !in lookup || lookup[key] != [] || blobId in c.blobs then (Value(HUH), c')
        else (Value(OK), c'.(blobs := c'.blobs[blobId := Blob(id, data)]))
  }

  /** Reading a storage entry; one's own pooled entry moves into the account on the way. */
  function ReadStorage(c: Context, id: ServiceId, raw: Bytes): (Option<Bytes>, Context)
  {
    var a := AccountAt(c, id);
    var pk := StorageKey(id, raw);
    if raw in a.storage then (Some(a.storage[raw]), c)
    else if pk !in c.storagePool then (None, c)
    else if id != c.self then (Some(c.storagePool[pk]), c)
    else
      (Some(c.storagePool[pk]),
       Put(c, id, a.(storage := a.storage[raw := c.storagePool[pk]])).(storagePool := c.storagePool - {pk}))
  }

  /** The value of one's own storage entry, wherever it is. */
  function OwnStorage(c: Context, raw: Bytes): Option<Bytes>
  {
    var storage := AccountAt(c, c.self).storage;
    if raw in storage then Some(storage[raw])
    else if StorageKey(c.self, raw) in c.storagePool then Some(c.storagePool[StorageKey(c.self, raw)])
    else None
  }

  /** Writing or (without a value) removing a storage entry; replies the former length. */
  function WriteStorage(c: Context, raw: Bytes, value: Option<Bytes>): (Reply, Context)
  {
    var a := AccountAt(c, c.self);
    var former := OwnStorage(c, raw);
    var reply := Value(if former.Some? then Wrap64(|former.value|) else NONE);
    var pool := c.storagePool - {StorageKey(c.self, raw)};
    var items := Wrap32(a.info.items - if former.Some? then 1 else 0);
    var octets := Wrap64(a.info.bytes - if former.Some? then StorageOctets(raw, former.value) else 0);
    match value
    case None =>
      (reply, Put(c, c.self, WithCounters(a, items, octets).(storage := a.storage - {raw})).(storagePool := pool))
    case Some(v) =>
      var items', octets' := Wrap32(items + 1), Wrap64(octets + StorageOctets(raw, v));
      if Threshold(items', octets', a.info.depositOffset) > a.info.balance then (Value(FULL), c)
      else
        (reply, Put(c, c.self, WithCounters(a, items', octets').(storage := a.storage[raw := v])).(storagePool := pool))
  }

  /** Replacing one's code and gas limits. */
  function Upgrade(c: Context, codeHash: Bytes, minItemGas: u64, minMemoGas: u64): Context
  {
    if c.self !in c.accounts then c
    else
      var a := c.accounts[c.self];
      Put(c, c.self, a.(info := a.info.(codeHash := codeHash, minItemGas := minItemGas, minMemoGas := minMemoGas)))
  }

  /** An accumulate host call with its arguments. */
  datatype Call =
    | CallNew(codeHash: Bytes, length: u32, minItemGas: u64, minMemoGas: u64, free: u64, wanted: u64)
    | CallSend(receiver: u64, amount: u64, gasLimit: u64, memo: Bytes)
    | CallEject(ejected: u64, hash: Bytes)
    | CallQuery(key: LookupKey)
    | CallSolicit(key: LookupKey)
    | CallForget(key: LookupKey)
    | CallProvide(id: ServiceId, key: LookupKey, blobId: Bytes, data: Bytes)
    | CallRead(id: ServiceId, raw: Bytes)
    | CallWrite(raw: Bytes, value: Option<Bytes>)
    | CallUpgrade(codeHash: Bytes, minItemGas: u64, minMemoGas: u64)
    | CallYield(hash: Bytes)
    | CallPrivileges(privileges: Privileges)

  /** What stays fixed while a service accumulates. */
  datatype Setting = Setting(slot: u32, expunge: nat, otherBless: ServiceId)

  /** The effect of a call on the context, whatever is replied. */
  function Apply(setting: Setting, c: Context, call: Call): (Reply, Context)
  {
    match call
    case CallNew(codeHash, length, g, m, free, wanted) => New(c, setting.otherBless, codeHash, length, g, m, free,
      wanted, setting.slot)
    case CallSend(d, amount, gasLimit, memo) => Send(c, d, amount, gasLimit, memo)
    case CallEject(d, hash) => Eject(c, d, hash, setting.slot, setting.expunge)
    case CallQuery(key) => Query(c, key)
    case CallSolicit(key) => Solicit(c, key, setting.slot)
    case CallForget(key) => Forget(c, key, setting.slot, setting.expunge)
    case CallProvide(id, key, blobId, data) => Provide(c, id, key, blobId, data)
    case CallRead(id, raw) => (Silent, ReadStorage(c, id, raw).1)
    case CallWrite(raw, value) => WriteStorage(c, raw, value)
    case CallUpgrade(codeHash, g, m) => (Value(OK), Upgrade(c, codeHash, g, m))
    case CallYield(hash) => (Value(OK), c.(exception := Some(hash)))
    case CallPrivileges(privileges) => (Value(OK), c.(privileges := privileges))
  }
}
