/**
 * When preimages are available: lookup entries over the host calls that request and give up preimages, and over the
 * two ways in which preimages arrive. Whatever happens, the answer for a past slot stays the same for a whole
 * expunge period.
 */
module Availability {
  import opened Words
  import opened Accounts
  import opened Ledger
  import opened Footprint

  /** A host call of some service, a preimage supplied by a service, or one submitted in a block. */
  datatype Event =
    | HostCall(slot: u32, self: ServiceId, otherBless: ServiceId, call: Call)
    | Supplied(slot: u32, id: ServiceId, data: Bytes)
    | Submitted(slot: u32, id: ServiceId, data: Bytes)

  function KeyFor(hash: Bytes -> Bytes, data: Bytes): LookupKey { LookupKey(hash(data), Wrap32(|data|)) }

  /** A preimage becomes available. */
  function Integrate(c: Context, hash: Bytes -> Bytes, id: ServiceId, data: Bytes, slot: u32): Context
  {
    var a := AccountAt(c, id);
    var key := KeyFor(hash, data);
    Put(c, id, a.(lookup := a.lookup[key := [slot]], preimages := a.preimages[key.hash := data]))
  }

  /** Is a preimage from a block wanted? */
  predicate ShouldIntegrate(c: Context, hash: Bytes -> Bytes, id: ServiceId, data: Bytes)
  {
    var key := KeyFor(hash, data);
    && id in c.accounts
    && if key in c.accounts[id].lookup then key.hash !in c.accounts[id].preimages && c.accounts[id].lookup[key] == []
       else PoolLookupKey(id, key) in c.lookupPool && c.lookupPool[PoolLookupKey(id, key)] == Some([])
  }

  /** Takes the request out of the pool if that is where it is. */
  function Claimed(c: Context, hash: Bytes -> Bytes, id: ServiceId, data: Bytes): Context
  {
    var key := KeyFor(hash, data);
    if key in AccountAt(c, id).lookup then c else c.(lookupPool := c.lookupPool - {PoolLookupKey(id, key)})
  }

  function Submit(c: Context, hash: Bytes -> Bytes, id: ServiceId, data: Bytes, slot: u32): Context
  {
    if ShouldIntegrate(c, hash, id, data) then Integrate(Claimed(c, hash, id, data), hash, id, data, slot) else c
  }

  function Supply(c: Context, hash: Bytes -> Bytes, id: ServiceId, data: Bytes, slot: u32): Context
  {
    var key := KeyFor(hash, data);
    if id in c.accounts && key in c.accounts[id].lookup && c.accounts[id].lookup[key] == [] then
      Integrate(c, hash, id, data, slot)
    else c
  }

  function SettingOf(e: Event, expunge: nat): Setting
    requires e.HostCall?
  {
    Setting(e.slot, expunge, e.otherBless)
  }

  function Occur(c: Context, hash: Bytes -> Bytes, expunge: nat, e: Event): Context
  {
    match e
    case HostCall(_, self, _, call) => Apply(SettingOf(e, expunge), c.(self := self), call).1
    case Supplied(slot, id, data) => Supply(c, hash, id, data, slot)
    case Submitted(slot, id, data) => Submit(c, hash, id, data, slot)
  }

  /**
   * The caller of a host call exists and is not sent into a panic; the identifier reserved for a new service is
   * unused.
   */
  predicate Proper(c: Context, expunge: nat, e: Event)
  {
    e.HostCall? ==>
      && e.self in c.accounts && (e.call.CallNew? ==> c.importId !in c.accounts)
      && !Apply(SettingOf(e, expunge), c.(self := e.self), e.call).0.Abort?
  }

  /** A lookup entry, wherever it is kept. */
  function Entry(c: Context, id: ServiceId, key: LookupKey): Option<TimeSlots>
  {
    var pk := PoolLookupKey(id, key);
    if pk in c.lookupPool && c.lookupPool[pk].Some? then c.lookupPool[pk]
    else if key in AccountAt(c, id).lookup then Some(AccountAt(c, id).lookup[key])
    else None
  }

  predicate Available(entry: Option<TimeSlots>, t: int) { entry.Some? && IsValidTime(entry.value, t) }

  /** How an entry may change at a slot: requested, arrived, given up, requested again, expunged, given up again. */
  predicate Moves(was: Option<TimeSlots>, now: Option<TimeSlots>, slot: u32, expunge: nat)
  {
    || now == was
    || (was.None? && now == Some([]))
    || (was == Some([]) && (now == Some([slot]) || now.None?))
    || (was.Some? && |was.value| == 1 && now == Some(was.value + [slot]))
    || (was.Some? && |was.value| == 2 && now == Some(was.value + [slot]))
    || (was.Some? && |was.value| == 2 && was.value[1] < slot - expunge && now.None?)
    || (was.Some? && |was.value| == 3 && was.value[1] < slot - expunge && now == Some([was.value[2], slot]))
  }

  /** At most three slots, in order, none in the future. */
  predicate Sane(l: TimeSlots, now: int)
  {
    |l| <= 3 && (forall i, j | 0 <= i < j < |l| :: l[i] <= l[j]) && forall i | 0 <= i < |l| :: l[i] <= now
  }

  lemma MovesStaySane(was: Option<TimeSlots>, now: Option<TimeSlots>, slot: u32, expunge: nat, before: int)
    requires Moves(was, now, slot, expunge) && (was.Some? ==> Sane(was.value, before)) && before <= slot
    ensures now.Some? ==> Sane(now.value, slot)
  {}

  /** A change at a slot does not alter availability at any of the expunge + 1 slots before it. */
  lemma MovesFreeze(was: Option<TimeSlots>, now: Option<TimeSlots>, slot: u32, expunge: nat, t: int)
    requires Moves(was, now, slot, expunge) && t < slot <= t + expunge + 1
    ensures Available(was, t) == Available(now, t)
  {}

  /** Moving a pooled entry into its account does not change the entry. */
  lemma FetchedEntry(c: Context, from: ServiceId, k: LookupKey, id: ServiceId, key: LookupKey)
    requires from in c.accounts && Fetched(c, from, k).0.Some?
    ensures Entry(Fetched(c, from, k).1, id, key) == Entry(c, id, key)
    ensures var d := Fetched(c, from, k).1;
      d.self == c.self && d.accounts.Keys == c.accounts.Keys && PoolLookupKey(from, k) !in d.lookupPool
  {}

  lemma SolicitMoves(setting: Setting, c: Context, k: LookupKey, id: ServiceId, key: LookupKey)
    requires c.self in c.accounts && !Solicit(c, k, setting.slot).0.Abort?
    ensures Moves(Entry(c, id, key), Entry(Solicit(c, k, setting.slot).1, id, key), setting.slot, setting.expunge)
  {
    FetchedEntry(c, c.self, k, id, key);
  }

  lemma ForgetMoves(setting: Setting, c: Context, k: LookupKey, id: ServiceId, key: LookupKey)
    requires c.self in c.accounts && !Forget(c, k, setting.slot, setting.expunge).0.Abort?
    ensures Moves(Entry(c, id, key), Entry(Forget(c, k, setting.slot, setting.expunge).1, id, key), setting.slot,
      setting.expunge)
  {
    FetchedEntry(c, c.self, k, id, key);
    var d, after := Fetched(c, c.self, k).1, Forget(c, k, setting.slot, setting.expunge).1;
    if (id, key) == (c.self, k) {
      OwnEntry(d, k);
      OwnEntry(after, k);
    } else {
      assert Entry(after, id, key) == Entry(d, id, key);
    }
  }

  /** An entry that is not pooled is the one in the account. */
  lemma OwnEntry(c: Context, k: LookupKey)
    requires PoolLookupKey(c.self, k) !in c.lookupPool
    ensures Entry(c, c.self, k) == var lookup := AccountAt(c, c.self).lookup; if k in lookup then Some(lookup[k])
      else None
  {}

  lemma ProvideEntry(c: Context, call: Call, id: ServiceId, key: LookupKey)
    requires call.CallProvide? && !Provide(c, call.id, call.key, call.blobId, call.data).0.Abort?
    ensures Entry(Provide(c, call.id, call.key, call.blobId, call.data).1, id, key) == Entry(c, id, key)
  {
    if call.id in c.accounts { FetchedEntry(c, call.id, call.key, id, key); }
  }

  lemma QueryEntry(c: Context, k: LookupKey, id: ServiceId, key: LookupKey)
    requires c.self in c.accounts && !Query(c, k).0.Abort?
    ensures Entry(Query(c, k).1, id, key) == Entry(c, id, key)
  {
    FetchedEntry(c, c.self, k, id, key);
  }

  lemma NewEntry(setting: Setting, c: Context, call: Call, id: ServiceId, key: LookupKey)
    requires call.CallNew? && c.self in c.accounts && c.importId !in c.accounts && id in c.accounts
    ensures Entry(Apply(setting, c, call).1, id, key) == Entry(c, id, key)
  {
    var next, id0, a, balance := NewAdds(c, setting.otherBless, call, setting.slot);
  }

  lemma OtherEntry(setting: Setting, c: Context, call: Call, id: ServiceId, key: LookupKey)
    requires c.self in c.accounts && id in Apply(setting, c, call).1.accounts
    requires MoneyCall(call) || call.CallRead? || call.CallWrite?
    ensures Entry(Apply(setting, c, call).1, id, key) == Entry(c, id, key)
  {
    if call.CallRead? {
      ReadLookups(c, call.id, call.raw, id);
    } else if call.CallWrite? {
      WriteLookups(c, call.raw, call.value, id);
    } else {
      MoneyLookups(setting, c, call, id);
    }
  }

  /** The two states list the same lookups for a service. */
  predicate SameLookups(c: Context, d: Context, id: ServiceId)
  {
    && id in c.accounts && id in d.accounts
    && d.accounts[id].lookup == c.accounts[id].lookup && d.lookupPool == c.lookupPool
  }

  lemma ReadLookups(c: Context, from: ServiceId, raw: Bytes, id: ServiceId)
    requires c.self in c.accounts && id in ReadStorage(c, from, raw).1.accounts
    ensures SameLookups(c, ReadStorage(c, from, raw).1, id)
  {}

  lemma WriteLookups(c: Context, raw: Bytes, value: Option<Bytes>, id: ServiceId)
    requires c.self in c.accounts && id in WriteStorage(c, raw, value).1.accounts
    ensures SameLookups(c, WriteStorage(c, raw, value).1, id)
  {}

  lemma MoneyLookups(setting: Setting, c: Context, call: Call, id: ServiceId)
    requires c.self in c.accounts && MoneyCall(call) && id in Apply(setting, c, call).1.accounts
    ensures SameLookups(c, Apply(setting, c, call).1, id)
  {}

  lemma CallMoves(setting: Setting, c: Context, call: Call, id: ServiceId, key: LookupKey)
    requires c.self in c.accounts && (call.CallNew? ==> c.importId !in c.accounts) && !Apply(setting, c, call).0.Abort?
    requires id in c.accounts && id in Apply(setting, c, call).1.accounts
    ensures Moves(Entry(c, id, key), Entry(Apply(setting, c, call).1, id, key), setting.slot, setting.expunge)
  {
    match call
    case CallSolicit(k) => SolicitMoves(setting, c, k, id, key);
    case CallForget(k) => ForgetMoves(setting, c, k, id, key);
    case CallQuery(k) => QueryEntry(c, k, id, key);
    case CallProvide(_, _, _, _) => ProvideEntry(c, call, id, key);
    case CallNew(_, _, _, _, _, _) => NewEntry(setting, c, call, id, key);
    case _ => OtherEntry(setting, c, call, id, key);
  }

  lemma ArrivalMoves(c: Context, hash: Bytes -> Bytes, expunge: nat, e: Event, id: ServiceId, key: LookupKey)
    requires !e.HostCall? && id in c.accounts
    ensures Moves(Entry(c, id, key), Entry(Occur(c, hash, expunge, e), id, key), e.slot, expunge)
  {}

  /** Every event changes every lookup entry of a service that remains in one of the permitted ways. */
  lemma EventMoves(c: Context, hash: Bytes -> Bytes, expunge: nat, e: Event, id: ServiceId, key: LookupKey)
    requires Proper(c, expunge, e) && id in c.accounts && id in Occur(c, hash, expunge, e).accounts
    ensures Moves(Entry(c, id, key), Entry(Occur(c, hash, expunge, e), id, key), e.slot, expunge)
  {
    if e.HostCall? {
      CallMoves(SettingOf(e, expunge), c.(self := e.self), e.call, id, key);
    } else {
      ArrivalMoves(c, hash, expunge, e, id, key);
    }
  }

  /**
   * What happens from slot `first` on to a service that remains: events in order of their slots, each of them proper.
   */
  predicate History(c: Context, hash: Bytes -> Bytes, expunge: nat, id: ServiceId, first: int, events: seq<Event>)
    decreases |events|
  {
    && id in c.accounts
    && (events != [] ==>
        && first <= events[0].slot && Proper(c, expunge, events[0])
        && History(Occur(c, hash, expunge, events[0]), hash, expunge, id, events[0].slot, events[1..]))
  }

  function After(c: Context, hash: Bytes -> Bytes, expunge: nat, events: seq<Event>): Context
    decreases |events|
  {
    if events == [] then c else After(Occur(c, hash, expunge, events[0]), hash, expunge, events[1..])
  }

  /** The answer for slot t is the same from slot t + 1 through slot t + expunge + 1, one more than is asked for. */
  lemma {:induction false} AvailabilityFrozen(
      c: Context, hash: Bytes -> Bytes, expunge: nat, id: ServiceId, key: LookupKey, t: int, events: seq<Event>)
    requires History(c, hash, expunge, id, t + 1, events)
    requires events != [] ==> events[|events| - 1].slot <= t + expunge + 1
    ensures Available(Entry(After(c, hash, expunge, events), id, key), t) == Available(Entry(c, id, key), t)
    decreases |events|
  {
    FrozenFrom(c, hash, expunge, id, key, t, t + 1, events);
  }

  lemma {:induction false} FrozenFrom(
      c: Context, hash: Bytes -> Bytes, expunge: nat, id: ServiceId, key: LookupKey, t: int, first: int,
        events: seq<Event>)
    requires t < first && History(c, hash, expunge, id, first, events)
    requires events != [] ==> events[|events| - 1].slot <= t + expunge + 1
    ensures Available(Entry(After(c, hash, expunge, events), id, key), t) == Available(Entry(c, id, key), t)
    decreases |events|
  {
    if events != [] {
      var e, rest := events[0], events[1..];
      var d := Occur(c, hash, expunge, e);
      SlotsOrdered(d, hash, expunge, id, e.slot, rest);
      EventMoves(c, hash, expunge, e, id, key);
      MovesFreeze(Entry(c, id, key), Entry(d, id, key), e.slot, expunge, t);
      FrozenFrom(d, hash, expunge, id, key, t, e.slot, rest);
    }
  }

  lemma {:induction false} SlotsOrdered(c: Context, hash: Bytes -> Bytes, expunge: nat, id: ServiceId, first: int,
        events: seq<Event>)
    requires History(c, hash, expunge, id, first, events)
    ensures id in c.accounts && (events != [] ==> first <= events[|events| - 1].slot)
    decreases |events|
  {
    if |events| > 1 {
      SlotsOrdered(Occur(c, hash, expunge, events[0]), hash, expunge, id, events[0].slot, events[1..]);
    }
  }

  /** No lookup entry ever holds more than three slots, or slots out of order or in the future. */
  lemma {:induction false} SlotsStaySane(
      c: Context, hash: Bytes -> Bytes, expunge: nat, id: ServiceId, key: LookupKey, first: int, events: seq<Event>)
    requires History(c, hash, expunge, id, first, events)
    requires var entry := Entry(c, id, key); entry.Some? ==> Sane(entry.value, first)
    ensures var entry := Entry(After(c, hash, expunge, events), id, key);
      entry.Some? ==> Sane(entry.value, if events == [] then first else events[|events| - 1].slot)
    decreases |events|
  {
    if events != [] {
      var e := events[0];
      var d := Occur(c, hash, expunge, e);
      SlotsOrdered(d, hash, expunge, id, e.slot, events[1..]);
      EventMoves(c, hash, expunge, e, id, key);
      MovesStaySane(Entry(c, id, key), Entry(d, id, key), e.slot, expunge, first);
      SlotsStaySane(d, hash, expunge, id, key, e.slot, events[1..]);
    }
  }

  /** A service that has asked for one preimage, which was there from slot x until it was given up in slot y. */
  function GivenUp(self: ServiceId, key: LookupKey, x: u32, y: u32): Context
  {
    var a := NewAccount(0, key.hash, key.length, 0, 0, 0).(lookup := map[key := [x, y]]);
    Context(self, map[self := a], Privileges(0, [], 0, 0, map[]), MIN_SERVICE_INDEX, [], None, map[], map[], map[])
  }

  /** One slot later still, forgetting changes the answer: it is allowed, and the entry is gone. */
  lemma NotFrozenLonger(self: ServiceId, key: LookupKey, x: u32, y: u32, expunge: nat, slot: u32)
    requires x < y && slot == (y - 1) + expunge + 2
    ensures var c := GivenUp(self, key, x, y);
      var (r, d) := Apply(Setting(slot, expunge, 0), c, CallForget(key));
      && r == Value(OK) && self in d.accounts
      && Available(Entry(c, self, key), y - 1) && !Available(Entry(d, self, key), y - 1)
  {
    var c := GivenUp(self, key, x, y);
    assert Entry(c, self, key) == Some([x, y]) && IsValidTime([x, y], y - 1);
  }

  /** Will `forget` drop this entry altogether? */
  predicate Drops(setting: Setting, c: Context, k: LookupKey)
  {
    var entry := Entry(c, c.self, k);
    entry.Some? && (|entry.value| == 0 || (|entry.value| == 2 && entry.value[1] < setting.slot - setting.expunge))
  }

  /** The key under which a service's preimage of a hash is listed. */
  function OwnKey(a: Account, hash: Bytes): LookupKey
    requires hash in a.preimages
  {
    LookupKey(hash, Wrap32(|a.preimages[hash]|))
  }

  /**
   * Dropping an entry also deletes the preimage of its hash. A past lookup survives `forget` unless the entry
   * dropped asks for the same hash with a length that is not the preimage's; then the preimage is gone although its
   * own entry stays.
   */
  lemma HistoryAfterForget(setting: Setting, c: Context, k: LookupKey, t: u32, hash: Bytes)
    requires c.self in c.accounts && !Forget(c, k, setting.slot, setting.expunge).0.Abort?
    requires t < setting.slot <= t + setting.expunge + 1
    requires hash in c.accounts[c.self].preimages
      ==> PoolLookupKey(c.self, OwnKey(c.accounts[c.self], hash)) !in c.lookupPool
    ensures var before, after :=
        HistoricalLookup(c.accounts[c.self], t, hash),
        HistoricalLookup(AccountAt(Forget(c, k, setting.slot, setting.expunge).1, c.self), t, hash);
      && (after == before <==> !(before.Some? && k.hash == hash && Drops(setting, c, k)))
      && (after != before ==> after.None? && k != OwnKey(c.accounts[c.self], hash))
  {
    var a := c.accounts[c.self];
    if hash in a.preimages {
      var own := OwnKey(a, hash);
      var d := Forget(c, k, setting.slot, setting.expunge).1;
      ForgetMoves(setting, c, k, c.self, own);
      MovesFreeze(Entry(c, c.self, own), Entry(d, c.self, own), setting.slot, setting.expunge, t);
      ForgottenPreimages(setting, c, k);
      NothingListed(t);
    }
  }

  lemma NothingListed(t: int)
    ensures !IsValidTime([], t)
  {}

  lemma ForgottenPreimages(setting: Setting, c: Context, k: LookupKey)
    requires c.self in c.accounts && !Forget(c, k, setting.slot, setting.expunge).0.Abort?
    ensures var a, b := c.accounts[c.self], AccountAt(Forget(c, k, setting.slot, setting.expunge).1, c.self);
      b.preimages == if Drops(setting, c, k) then a.preimages - {k.hash} else a.preimages
    ensures Forget(c, k, setting.slot, setting.expunge).1.lookupPool.Keys <= c.lookupPool.Keys
  {
    FetchedEntry(c, c.self, k, c.self, k);
  }

  /**
   * Such a loss: the preimage has been there since slot 5; giving up an unanswered request for another length deletes
   * it.
   */
  lemma PreimageLost(self: ServiceId, hash: Bytes, setting: Setting)
    requires setting.slot == 10 && setting.expunge == 32
    ensures var a := Account(
        ServiceInfo([], 1000, 0, 0, 163, 0, 4, 0, 0, 0), map[hash := [7]],
        map[LookupKey(hash, 1) := [5], LookupKey(hash, 2) := []], map[]);
      var c := Context(self, map[self := a], Privileges(0, [], 0, 0, map[]), 70000, [], None, map[], map[], map[]);
      var (r, d) := Forget(c, LookupKey(hash, 2), setting.slot, setting.expunge);
      && r == Value(OK) && HistoricalLookup(a, 9, hash) == Some([7]) && HistoricalLookup(d.accounts[self], 9, hash)
        == None
  {
    var keys := (LookupKey(hash, 1), LookupKey(hash, 2));
    assert keys.0 != keys.1 && Wrap32(|[7]|) == 1;
  }
}
