/** Service accounts: what they hold, their storage footprint, and when a preimage counts as available. */
module Accounts {
  import opened Words

  type Bytes = seq<byte>
  type ServiceId = u32

  const BASIC_MIN_BALANCE: int := 100
  const MIN_BALANCE_PER_ITEM: int := 10
  const MIN_BALANCE_PER_OCTET: int := 1

  datatype ServiceInfo = ServiceInfo(
    codeHash: Bytes, balance: u64, minItemGas: u64, minMemoGas: u64, bytes: u64, depositOffset: u64,
    items: u32, creationSlot: u32, lastAccumulationSlot: u32, parent: ServiceId)

  datatype LookupKey = LookupKey(hash: Bytes, length: u32)

  type TimeSlots = seq<u32>

  datatype Account = Account(
    info: ServiceInfo, preimages: map<Bytes, Bytes>, lookup: map<LookupKey, TimeSlots>, storage: map<Bytes, Bytes>)

  /** The threshold balance of a footprint; the item part is reckoned in 32 bits. */
  function Threshold(items: u32, octets: u64, offset: u64): u64
  {
    var deposit := Wrap64(BASIC_MIN_BALANCE + Wrap32(MIN_BALANCE_PER_ITEM * items) + MIN_BALANCE_PER_OCTET * octets);
    if deposit < offset then 0 else deposit - offset
  }

  function ThresholdOf(info: ServiceInfo): u64 { Threshold(info.items, info.bytes, info.depositOffset) }

  /** Octets a lookup entry counts for; it also counts for two items. */
  function LookupOctets(key: LookupKey): nat { 81 + key.length }

  /** Octets a storage entry counts for; it also counts for one item. */
  function StorageOctets(key: Bytes, value: Bytes): nat { 34 + |key| + |value| }

  /** Was a preimage with these timeslots available at time t? */
  predicate IsValidTime(l: TimeSlots, t: int)
  {
    if |l| == 1 then l[0] <= t
    else if |l| == 2 then l[0] <= t < l[1]
    else if |l| == 3 then l[0] <= t < l[1] || l[2] <= t
    else false
  }

  /** The preimage an account gives for a hash at a past time. */
  function HistoricalLookup(a: Account, t: u32, hash: Bytes): Option<Bytes>
  {
    if hash !in a.preimages then None
    else
      var bytes := a.preimages[hash];
      var key := LookupKey(hash, Wrap32(|bytes|));
      if IsValidTime(if key in a.lookup then a.lookup[key] else [], t) then Some(bytes) else None
  }
}
