/**
 * No accumulate host call changes the total of all balances and pending transfers modulo 2^64,
 * and it changes the total itself exactly when an unchecked subtraction or addition wraps round.
 */
module Conservation {
  import opened Words
  import opened Sums
  import opened Accounts
  import opened Ledger
  import opened Identifiers

  function BalanceOf(id: ServiceId, a: Account): int { a.info.balance }

  function AmountOf(t: Transfer): int { t.amount }

  ghost function Supply(c: Context): int
  {
    SumOver(c.accounts, BalanceOf) + SumSeq(c.transfers, AmountOf)
  }

  /** The context's own account exists, and the reserved identifier is one that new services may have and is unused. */
  predicate Sound(c: Context)
  {
    c.self in c.accounts && InRange(c.importId) && c.importId !in c.accounts
  }

  lemma SupplyPut(c: Context, id: ServiceId, a: Account)
    ensures Supply(Put(c, id, a)) == Supply(c) + a.info.balance - if id in c.accounts then c.accounts[id].info.balance
      else 0
    ensures |Put(c, id, a).accounts| == |c.accounts| + if id in c.accounts then 0 else 1
  {
    SumPut(c.accounts, BalanceOf, id, a);
    assert Put(c, id, a).accounts.Keys == c.accounts.Keys + {id};
  }

  /** What `new` asks of its caller's account before any identifier is chosen. */
  predicate NewAccepted(setting: Setting, c: Context, call: Call)
    requires call.CallNew?
  {
    var s := AccountAt(c, c.self).info;
    var balance := SubWrap(s.balance, Deposit(call));
    && (call.free == 0 || c.self == setting.otherBless)
    && ThresholdOf(s) <= balance
    && !(c.self == c.privileges.createAcct && call.wanted < MIN_SERVICE_INDEX && call.wanted in c.accounts)
  }

  /** The balance a new account starts with. */
  function Deposit(call: Call): u64
    requires call.CallNew?
  {
    Threshold(2, 81 + call.length, 0)
  }

  /** The lookup entry that is all an abandoned service may have left. */
  function LastEntry(a: Account, hash: Bytes): LookupKey { LookupKey(hash, Wrap32(Max(81, a.info.bytes) - 81)) }

  /**
   * What `eject` asks of another service: that it has named the caller its heir and has nothing left but one lookup
   * entry, given up an expunge period ago.
   */
  predicate EjectAccepted(setting: Setting, c: Context, call: Call)
    requires call.CallEject?
  {
    var id := Wrap32(call.ejected);
    && id in c.accounts && id != c.self && c.self in c.accounts &&
    var a := c.accounts[id];
       && a.info.codeHash == ToBytes(c.self, 32) && a.info.items == 2 && LastEntry(a, call.hash) in a.lookup
       && var slots := a.lookup[LastEntry(a, call.hash)]; |slots| == 2 && slots[1] < setting.slot - setting.expunge
  }

  /** It is accepted exactly then, and otherwise changes nothing. */
  lemma EjectAnswers(setting: Setting, c: Context, call: Call)
    requires call.CallEject?
    ensures var (r, d) := Apply(setting, c, call);
      && (r == Value(OK) <==> EjectAccepted(setting, c, call))
      && (!EjectAccepted(setting, c, call) ==> d == c)
      && (EjectAccepted(setting, c, call) ==>
            && d.accounts.Keys == c.accounts.Keys - {Wrap32(call.ejected)}
            && d.accounts[c.self].info.balance
                 == AddWrap(c.accounts[c.self].info.balance, c.accounts[Wrap32(call.ejected)].info.balance))
  {}

  /**
   * How far a call moves the total, in units of 2^64: up if `new` spends more than the caller has, down if `eject`
   * overflows the heir.
   */
  function Drift(setting: Setting, c: Context, call: Call): int
  {
    if call.CallNew? && NewAccepted(setting, c, call) && AccountAt(c, c.self).info.balance < Deposit(call) then 1
    else if call.CallEject? && EjectAccepted(setting, c, call)
      && AccountAt(c, c.self).info.balance + AccountAt(c, Wrap32(call.ejected)).info.balance >= TWO64 then -1
    else 0
  }

  lemma SubWrapExact(x: u64, y: u64)
    ensures SubWrap(x, y) == if x < y then x - y + TWO64 else x - y
    ensures AddWrap(x, y) == if x + y >= TWO64 then x + y - TWO64 else x + y
  {}

  /** The room that keeps the search for the next reserved identifier away from the one just handed out. */
  predicate Roomy(c: Context) { |c.accounts| < ID_RANGE - 42 }

  /** Handing a new account a deposit taken from the caller's. */
  lemma Endowed(c: Context, id: ServiceId, a: Account, s: Account)
    requires c.self in c.accounts && id !in c.accounts
    ensures var c' := Put(Put(c, id, a), c.self, s);
      && Supply(c') == Supply(c) + a.info.balance + s.info.balance - c.accounts[c.self].info.balance
      && |c'.accounts| == |c.accounts| + 1 && c'.accounts.Keys == c.accounts.Keys + {id}
  {
    SupplyPut(c, id, a);
    SupplyPut(Put(c, id, a), c.self, s);
  }

  /** A new account with an identifier of the caller's choice. */
  lemma ChosenConserves(setting: Setting, c: Context, call: Call)
    requires Sound(c) && call.CallNew? && NewAccepted(setting, c, call)
    requires c.self == c.privileges.createAcct && call.wanted < MIN_SERVICE_INDEX
    ensures var (r, c') := Apply(setting, c, call);
      && r.Value? && Sound(c') && Supply(c') == Supply(c) + TWO64 * Drift(setting, c, call)
      && |c'.accounts| <= |c.accounts| + 1
  {
    var s := c.accounts[c.self];
    var a := NewAccount(c.self, call.codeHash, call.length, call.minItemGas, call.minMemoGas, setting.slot);
    SubWrapExact(s.info.balance, a.info.balance);
    Endowed(c, call.wanted, a, WithBalance(s, SubWrap(s.info.balance, a.info.balance)));
  }

  /** A new account with the reserved identifier, given the next one. */
  lemma ReserveConserves(setting: Setting, c: Context, call: Call, next: ServiceId)
    requires Sound(c) && call.CallNew? && NewAccepted(setting, c, call)
    requires !(c.self == c.privileges.createAcct && call.wanted < MIN_SERVICE_INDEX)
    requires Check(MIN_SERVICE_INDEX + Wrap32(c.importId - MIN_SERVICE_INDEX + 42) % ID_RANGE, c.accounts.Keys)
      == Some(next)
    requires InRange(next) && next != c.importId && next !in c.accounts
    ensures var (r, c') := Apply(setting, c, call);
      && r.Value? && Sound(c') && Supply(c') == Supply(c) + TWO64 * Drift(setting, c, call)
      && |c'.accounts| <= |c.accounts| + 1
  {
    var s := c.accounts[c.self];
    var a := NewAccount(c.self, call.codeHash, call.length, call.minItemGas, call.minMemoGas, setting.slot);
    SubWrapExact(s.info.balance, a.info.balance);
    Endowed(c.(importId := next), c.importId, a, WithBalance(s, SubWrap(s.info.balance, a.info.balance)));
  }

  lemma NewConserves(setting: Setting, c: Context, call: Call)
    requires Sound(c) && Roomy(c) && call.CallNew?
    ensures var (r, c') := Apply(setting, c, call);
      && r.Value? && Sound(c') && Supply(c') == Supply(c) + TWO64 * Drift(setting, c, call)
      && |c'.accounts| <= |c.accounts| + 1
  {
    if NewAccepted(setting, c, call) {
      if c.self == c.privileges.createAcct && call.wanted < MIN_SERVICE_INDEX {
        ChosenConserves(setting, c, call);
      } else {
        NextImport(c);
        ReserveConserves(setting, c, call, Check(SearchStart(c.importId), c.accounts.Keys).value);
      }
    }
  }

  lemma NextImport(c: Context)
    requires Sound(c) && Roomy(c)
    ensures MIN_SERVICE_INDEX + Wrap32(c.importId - MIN_SERVICE_INDEX + 42) % ID_RANGE == SearchStart(c.importId)
    ensures Check(SearchStart(c.importId), c.accounts.Keys).Some?
    ensures var next := Check(SearchStart(c.importId), c.accounts.Keys).value;
      InRange(next) && next != c.importId && next !in c.accounts
  {
    KeysSize(c.accounts);
    NextReserve(c.importId, c.accounts.Keys);
    StartPlace(c.importId);
  }

  lemma KeysSize<K, V>(m: map<K, V>)
    ensures |m.Keys| == |m|
  {}

  lemma StartPlace(reserved: ServiceId)
    requires InRange(reserved)
    ensures MIN_SERVICE_INDEX + Wrap32(reserved - MIN_SERVICE_INDEX + 42) % ID_RANGE == SearchStart(reserved)
  {}

  lemma SendConserves(setting: Setting, c: Context, call: Call)
    requires Sound(c) && call.CallSend?
    ensures var (r, c') := Apply(setting, c, call);
      Sound(c') && Supply(c') == Supply(c) && c'.accounts.Keys == c.accounts.Keys
  {
    var s := c.accounts[c.self];
    if s.info.balance >= call.amount {
      var t := Transfer(c.self, Wrap32(call.receiver), call.amount, call.memo, call.gasLimit);
      SubWrapExact(s.info.balance, call.amount);
      SupplyPut(c, c.self, WithBalance(s, s.info.balance - call.amount));
      SumSeqPush(c.transfers, t, AmountOf);
    }
  }

  lemma EjectConserves(setting: Setting, c: Context, call: Call)
    requires Sound(c) && call.CallEject?
    ensures var (r, c') := Apply(setting, c, call);
      && Sound(c') && Supply(c') == Supply(c) + TWO64 * Drift(setting, c, call)
      && c'.accounts.Keys <= c.accounts.Keys
  {
    var id := Wrap32(call.ejected);
    if EjectAccepted(setting, c, call) {
      var s, a := c.accounts[c.self], c.accounts[id];
      SubWrapExact(s.info.balance, a.info.balance);
      var richer := Put(c, c.self, WithBalance(s, AddWrap(s.info.balance, a.info.balance)));
      SupplyPut(c, c.self, richer.accounts[c.self]);
      SumDrop(richer.accounts, BalanceOf, id);
    }
  }

  lemma FetchedConserves(c: Context, id: ServiceId, key: LookupKey)
    requires id in c.accounts
    ensures var c' := Fetched(c, id, key).1;
      Supply(c') == Supply(c) && c'.accounts.Keys == c.accounts.Keys && c'.self == c.self && c'.importId == c.importId
  {
    var pk := PoolLookupKey(id, key);
    if pk in c.lookupPool && c.lookupPool[pk].Some? {
      var a := c.accounts[id];
      SupplyPut(c.(lookupPool := c.lookupPool - {pk}), id, a.(lookup := a.lookup[key := c.lookupPool[pk].value]));
    }
  }

  /** Calls that only rewrite the caller's account, after a pooled lookup entry may have moved into some account. */
  predicate Rewrites(c: Context, d: Context)
  {
    && d.self == c.self && d.importId == c.importId && d.transfers == c.transfers
    && (d.accounts == c.accounts || (c.self in c.accounts && Rewritten(c, d)))
  }

  predicate Rewritten(c: Context, d: Context)
    requires c.self in c.accounts
  {
    && c.self in d.accounts && d.accounts == c.accounts[c.self := d.accounts[c.self]]
    && d.accounts[c.self].info.balance == c.accounts[c.self].info.balance
  }

  lemma RewritesConserve(c: Context, d: Context)
    requires Sound(c) && Rewrites(c, d)
    ensures Sound(d) && Supply(d) == Supply(c) && d.accounts.Keys == c.accounts.Keys
  {
    if d.accounts != c.accounts { SumPut(c.accounts, BalanceOf, c.self, d.accounts[c.self]); }
  }

  lemma FetchingRewrites(setting: Setting, c: Context, call: Call)
    requires Sound(c) && (call.CallQuery? || call.CallSolicit? || call.CallForget?)
    ensures Rewrites(Fetched(c, c.self, call.key).1, Apply(setting, c, call).1)
  {
    if call.CallQuery? {
      QueryRewrites(c, call.key);
    } else if call.CallSolicit? {
      SolicitRewrites(c, call.key, setting.slot);
    } else {
      ForgetRewrites(c, call.key, setting.slot, setting.expunge);
    }
  }

  lemma QueryRewrites(c: Context, key: LookupKey)
    requires Sound(c)
    ensures Rewrites(Fetched(c, c.self, key).1, Query(c, key).1)
  {}

  lemma SolicitRewrites(c: Context, key: LookupKey, slot: u32)
    requires Sound(c)
    ensures Rewrites(Fetched(c, c.self, key).1, Solicit(c, key, slot).1)
  {}

  lemma ForgetRewrites(c: Context, key: LookupKey, slot: u32, expunge: nat)
    requires Sound(c)
    ensures Rewrites(Fetched(c, c.self, key).1, Forget(c, key, slot, expunge).1)
  {}

  lemma LookupConserves(setting: Setting, c: Context, call: Call)
    requires Sound(c) && (call.CallQuery? || call.CallSolicit? || call.CallForget?)
    ensures var c' := Apply(setting, c, call).1;
      Sound(c') && Supply(c') == Supply(c) && c'.accounts.Keys == c.accounts.Keys
  {
    FetchedConserves(c, c.self, call.key);
    FetchingRewrites(setting, c, call);
    RewritesConserve(Fetched(c, c.self, call.key).1, Apply(setting, c, call).1);
  }

  lemma ProvideConserves(setting: Setting, c: Context, call: Call)
    requires Sound(c) && call.CallProvide?
    ensures var c' := Apply(setting, c, call).1;
      Sound(c') && Supply(c') == Supply(c) && c'.accounts.Keys == c.accounts.Keys
  {
    if call.id in c.accounts { FetchedConserves(c, call.id, call.key); }
  }

  lemma StorageRewrites(setting: Setting, c: Context, call: Call)
    requires Sound(c) && (call.CallRead? || call.CallWrite? || call.CallUpgrade? || call.CallYield?
      || call.CallPrivileges?)
    ensures Rewrites(c, Apply(setting, c, call).1)
  {}

  /** Every call moves the total by exactly its drift, and keeps the reserve unused while there is room. */
  lemma CallConserves(setting: Setting, c: Context, call: Call)
    requires Sound(c) && Roomy(c)
    ensures var c' := Apply(setting, c, call).1;
      && Sound(c') && Supply(c') == Supply(c) + TWO64 * Drift(setting, c, call)
      && |c'.accounts| <= |c.accounts| + 1
  {
    var c' := Apply(setting, c, call).1;
    KeysSize(c.accounts);
    KeysSize(c'.accounts);
    match call
    case CallNew(_, _, _, _, _, _) => NewConserves(setting, c, call);
    case CallSend(_, _, _, _) => SendConserves(setting, c, call);
    case CallEject(_, _) =>
      EjectConserves(setting, c, call);
      SubsetSize(c'.accounts.Keys, c.accounts.Keys);
    case CallQuery(_) => LookupConserves(setting, c, call);
    case CallSolicit(_) => LookupConserves(setting, c, call);
    case CallForget(_) => LookupConserves(setting, c, call);
    case CallProvide(_, _, _, _) => ProvideConserves(setting, c, call);
    case _ =>
      StorageRewrites(setting, c, call);
      RewritesConserve(c, c');
  }

  /** A call together with what is fixed when it is made. */
  datatype Step = Step(setting: Setting, call: Call)

  /** The context after a run of calls. */
  function RunCalls(c: Context, steps: seq<Step>): Context
    decreases |steps|
  {
    if steps == [] then c else RunCalls(Apply(steps[0].setting, c, steps[0].call).1, steps[1..])
  }

  /** The drift a run accumulates. */
  function RunDrift(c: Context, steps: seq<Step>): int
    decreases |steps|
  {
    if steps == [] then 0
    else Drift(steps[0].setting, c, steps[0].call) + RunDrift(Apply(steps[0].setting, c, steps[0].call).1, steps[1..])
  }

  /**
   * Over any run of calls the total of balances and pending transfers is constant modulo 2^64, the own account
   * stays, and the reserved identifier stays unused; as integers the total moves by the sum of the drifts.
   */
  lemma {:induction false} RunsConserve(c: Context, steps: seq<Step>)
    requires Sound(c) && |c.accounts| + |steps| <= ID_RANGE - 42
    ensures Sound(RunCalls(c, steps))
    ensures Supply(RunCalls(c, steps)) == Supply(c) + TWO64 * RunDrift(c, steps)
    ensures Wrap64(Supply(RunCalls(c, steps))) == Wrap64(Supply(c))
    decreases |steps|
  {
    if steps != [] {
      CallConserves(steps[0].setting, c, steps[0].call);
      RunsConserve(Apply(steps[0].setting, c, steps[0].call).1, steps[1..]);
    }
    WholeTurns(Supply(c), RunDrift(c, steps));
  }

  lemma WholeTurns(x: int, k: int)
    ensures Wrap64(x + TWO64 * k) == Wrap64(x)
  {
    assert x + TWO64 * k == (x / TWO64 + k) * TWO64 + x % TWO64;
  }

  /**
   * A total below 2^64 is conserved exactly by a call that does not create a service on credit; otherwise it grows by
   * 2^64.
   */
  lemma BoundedSupply(setting: Setting, c: Context, call: Call)
    requires Sound(c) && Roomy(c) && Supply(c) < TWO64
    ensures var onCredit := call.CallNew? && NewAccepted(setting, c, call)
      && c.accounts[c.self].info.balance < Deposit(call);
      Supply(Apply(setting, c, call).1) == if onCredit then Supply(c) + TWO64 else Supply(c)
  {
    CallConserves(setting, c, call);
    if call.CallEject? && EjectAccepted(setting, c, call) {
      TwoBalances(c, c.self, Wrap32(call.ejected));
    }
  }

  lemma TwoBalances(c: Context, a: ServiceId, b: ServiceId)
    requires a in c.accounts && b in c.accounts && a != b
    ensures c.accounts[a].info.balance + c.accounts[b].info.balance <= Supply(c)
  {
    var rest := c.accounts - {a};
    SumDrop(c.accounts, BalanceOf, a);
    SumDrop(rest, BalanceOf, b);
    SumNonNegative(rest - {b}, BalanceOf);
    SumSeqNonNegative(c.transfers, AmountOf);
  }

  /** A service with nothing at all can create another one, and ends up with almost 2^64 tokens. */
  lemma CreationOnCredit(setting: Setting, c: Context, call: Call)
    requires Sound(c) && Roomy(c) && call.CallNew? && call.free == 0 && MIN_SERVICE_INDEX <= call.wanted
      && call.length == 0
    requires c.accounts[c.self].info.(codeHash := []) == ServiceInfo([], 0, 0, 0, 0, 0, 0, 0, 0, 0)
    ensures Supply(Apply(setting, c, call).1) == Supply(c) + TWO64
    ensures Apply(setting, c, call).1.accounts[c.self].info.balance == TWO64 - 201
  {
    NextImport(c);
    ReserveConserves(setting, c, call, Check(SearchStart(c.importId), c.accounts.Keys).value);
  }

  /** Service 1 with all the tokens a balance can hold, and service 2 that it may eject. */
  function Heirs(hash: Bytes): Context
  {
    var rich := NewAccount(0, [], 0, 0, 0, 0);
    var left := NewAccount(0, ToBytes(1, 32), 0, 0, 0, 0).(lookup := map[LookupKey(hash, 0) := [1, 2]]);
    Context(1, map[1 := WithBalance(rich, TWO64 - 1), 2 := left], Privileges(0, [], 0, 0, map[]), MIN_SERVICE_INDEX, [],
            None, map[], map[], map[])
  }

  lemma HeirMayEject(setting: Setting, hash: Bytes)
    requires setting.slot == 40 && setting.expunge == 32
    ensures EjectAccepted(setting, Heirs(hash), CallEject(2, hash))
    ensures Drift(setting, Heirs(hash), CallEject(2, hash)) == -1
  {}

  /** What `eject` adds to a balance may overflow it: 2^64 tokens are gone, and the heir is poorer than before. */
  lemma InheritanceBurns(setting: Setting, hash: Bytes)
    requires setting.slot == 40 && setting.expunge == 32
    ensures var c := Heirs(hash);
      var (r, d) := Apply(setting, c, CallEject(2, hash));
      && r == Value(OK) && Supply(d) == Supply(c) - TWO64
      && c.accounts[1].info.balance == TWO64 - 1 && 1 in d.accounts && d.accounts[1].info.balance == 200
  {
    var c, call := Heirs(hash), CallEject(2, hash);
    HeirMayEject(setting, hash);
    EjectAnswers(setting, c, call);
    EjectConserves(setting, c, call);
  }
}
