/**
 * One service's accumulation: the initial contexts, the run, and what remains of it. Whatever program runs, unless it
 * brings the host down, it pays for the transfers it sends, creates or destroys no tokens, keeps its books in order,
 * and leaves nothing behind of what it did after its last checkpoint if it fails.
 */
module Accumulate {
  import opened Words
  import opened Sums
  import opened PageTables
  import opened ProgramCode
  import opened Instructions
  import opened BlockInfo
  import opened Accounts
  import opened Ledger
  import opened Identifiers
  import opened Conservation
  import opened Footprint
  import Invocation
  import opened HostLoop
  import opened HostCalls
  import opened Crashes

  /** A program ready to run. */
  datatype Image = Image(alu: Alu, prog: Program, d: Decoded, vm: Vm)

  /** Where execution starts. */
  const ENTRY: nat := 5

  /** What becomes of a run; it may also bring the host down. */
  datatype Reason = NotStarted | RanOut | Failed | Crashed | ReturnedNothing | Returned(output: Bytes)

  datatype Finished = Finished(used: int, reason: Reason, both: Both)

  /** What an accumulation yields; blobs are left out if the program returned something that is not a hash. */
  datatype Result = Result(context: Context, yielded: Option<Bytes>, gas: int, blobs: map<Bytes, Blob>)

  predicate WellFormed(image: Image)
  {
    |image.prog.code| == |image.prog.mask|
  }

  /** The gas a run used and what it returned. */
  function Finish(prior: u64, e: Ended<Both>): Finished
  {
    var used := prior - Max(e.vm.gas, 0);
    match e.exit
    case OutOfGas => Finished(used, RanOut, e.addition)
    case Halt =>
      if e.vm.regs[8] == 0 then Finished(used, ReturnedNothing, e.addition)
      else
        (match SpanOf(e.vm.mem.pages, e.vm.regs[7], e.vm.regs[8])
         case Some(output) => Finished(used, Returned(output), e.addition)
         case None => Finished(used, Returned([]), e.addition))
    case Crash => Finished(used, Crashed, e.addition)
    case _ => Finished(used, Failed, e.addition)
  }

  /** The choice between the two contexts; there is none to make if the host is down. */
  function Collapse(f: Finished): Option<Result>
  {
    match f.reason
    case Crashed => None
    case RanOut => Some(Result(f.both.y, f.both.y.exception, f.used, f.both.y.blobs))
    case Failed => Some(Result(f.both.y, f.both.y.exception, f.used, f.both.y.blobs))
    case Returned(output) =>
      if |output| == 32 then Some(Result(f.both.x, Some(output), f.used, f.both.x.blobs))
      else Some(Result(f.both.x, f.both.x.exception, f.used, map[]))
    case _ => Some(Result(f.both.x, f.both.x.exception, f.used, f.both.x.blobs))
  }

  /** A run on given contexts; a program that cannot be loaded does not start. */
  ghost function Invoke(env: Env, image: Option<Image>, prior: u64, both: Both): Finished
    requires image.Some? ==> WellFormed(image.value) && WellDecoded(image.value.prog, image.value.d)
  {
    match image
    case None => Finished(0, NotStarted, both)
    case Some(i) =>
      HostIsThrifty(env);
      Finish(prior, HostRun(i.alu, i.prog, i.d, Accumulating(env), ENTRY, i.vm.(gas := Signed64(prior)), both))
  }

  lemma HostIsThrifty(env: Env)
    ensures Thrifty(Accumulating(env))
  {
    forall id: nat, vm: Vm, both: Both ensures Accumulating(env)(id, vm, both).vm.gas <= vm.gas {
      AnswerSteps(env, id, vm, both);
    }
  }

  /** The gas used lies between nothing and the gas given. */
  lemma UsedWithinGiven(env: Env, image: Option<Image>, prior: u64, both: Both)
    requires image.Some? ==> WellFormed(image.value) && WellDecoded(image.value.prog, image.value.d)
    ensures 0 <= Invoke(env, image, prior, both).used <= prior
  {
    if image.Some? {
      var i := image.value;
      HostIsThrifty(env);
      GasNeverGrows(i.alu, i.prog, i.d, Accumulating(env), ENTRY, i.vm.(gas := Signed64(prior)), both);
    }
  }

  /** The machine reads its gas as a signed word: with 2^63 or more it runs nothing, and all of it counts as used. */
  lemma HugeGasIsLost(env: Env, image: Image, prior: u64, both: Both)
    requires WellFormed(image) && WellDecoded(image.prog, image.d) && prior >= TWO63
    ensures Collapse(Invoke(env, Some(image), prior, both))
      == Some(Result(both.y, both.y.exception, prior, both.y.blobs))
  {
    var vm := image.vm.(gas := Signed64(prior));
    var o := Invocation.FastRun(image.alu, image.prog, image.d, ENTRY, vm);
    Invocation.NothingRunsWithoutGas(image.alu, image.prog, image.d, ENTRY, vm);
    HostIsThrifty(env);
    assert HostRun(image.alu, image.prog, image.d, Accumulating(env), ENTRY, vm, both) == Ended(o.exit, o.pc, vm, both);
  }

  /** The gas a transfer costs its sender. */
  function PaidFor(t: Transfer): int { t.gasLimit + BASE_COST }

  function Prepaid(c: Context): int { SumSeq(c.transfers, PaidFor) }

  /** What a context has cost in gas: the transfers it sends, and the accounts it has beside these. */
  function Outlay(ids: set<ServiceId>, c: Context): int { Prepaid(c) + BASE_COST * |c.accounts.Keys - ids| }

  /** Nothing has been sent or provided. */
  predicate SameOut(c: Context, d: Context) { d.transfers == c.transfers && d.blobs == c.blobs }

  lemma QuerySilent(c: Context, key: LookupKey)
    ensures SameOut(c, Query(c, key).1)
  {}

  lemma SolicitSilent(c: Context, key: LookupKey, slot: u32)
    ensures SameOut(c, Solicit(c, key, slot).1)
  {}

  lemma ForgetSilent(c: Context, key: LookupKey, slot: u32, expunge: nat)
    ensures SameOut(c, Forget(c, key, slot, expunge).1)
  {}

  lemma OthersSilent(setting: Setting, c: Context, call: Call)
    requires !call.CallSend? && !call.CallProvide? && !call.CallQuery? && !call.CallSolicit? && !call.CallForget?
    ensures SameOut(c, Apply(setting, c, call).1)
  {}

  /** Only sending adds transfers, and only providing adds blobs. */
  lemma SendsAndProvides(setting: Setting, c: Context, call: Call)
    ensures !call.CallSend? && !call.CallProvide? ==> SameOut(c, Apply(setting, c, call).1)
    ensures !call.CallSend? ==> Apply(setting, c, call).1.transfers == c.transfers
  {
    match call
    case CallSend(_, _, _, _) =>
    case CallProvide(_, _, _, _) => ProvideSends(c, call);
    case CallQuery(key) => QuerySilent(c, key);
    case CallSolicit(key) => SolicitSilent(c, key, setting.slot);
    case CallForget(key) => ForgetSilent(c, key, setting.slot, setting.expunge);
    case _ => OthersSilent(setting, c, call);
  }

  lemma ProvideSends(c: Context, call: Call)
    requires call.CallProvide?
    ensures Provide(c, call.id, call.key, call.blobId, call.data).1.transfers == c.transfers
  {}

  lemma SendPrepaid(setting: Setting, c: Context, call: Call)
    requires call.CallSend?
    ensures var (r, d) := Apply(setting, c, call);
      Prepaid(d) <= Prepaid(c) + (if r == Value(OK) then call.gasLimit + BASE_COST else 0)
  {
    SumSeqPush(c.transfers, Transfer(c.self, Wrap32(call.receiver), call.amount, call.memo, call.gasLimit), PaidFor);
  }

  /** The identifier a new service would get. */
  function NewId(c: Context, call: Call): ServiceId
    requires call.CallNew?
  {
    if c.self == c.privileges.createAcct && call.wanted < MIN_SERVICE_INDEX then call.wanted else c.importId
  }

  /** A call adds at most the account of a new service. */
  lemma KeysGrow(setting: Setting, c: Context, call: Call)
    requires c.self in c.accounts
    ensures var d := Apply(setting, c, call).1;
      && d.self == c.self && d.self in d.accounts
      && d.accounts.Keys <= c.accounts.Keys + if call.CallNew? then {NewId(c, call)} else {}
  {
    if call.CallNew? {
      NewKeys(setting, c, call);
    } else if OnOwn(call) {
      OwnKeys(setting, c, call);
    } else {
      OtherKeys(setting, c, call);
    }
  }

  lemma NewKeys(setting: Setting, c: Context, call: Call)
    requires c.self in c.accounts && call.CallNew?
    ensures var d := Apply(setting, c, call).1;
      d.self == c.self && d.self in d.accounts && d.accounts.Keys <= c.accounts.Keys + {NewId(c, call)}
  {}

  /** Calls on entries of the caller's own account. */
  predicate OnOwn(call: Call)
  {
    call.CallQuery? || call.CallSolicit? || call.CallForget? || call.CallRead? || call.CallWrite?
  }

  lemma OwnKeys(setting: Setting, c: Context, call: Call)
    requires c.self in c.accounts && OnOwn(call)
    ensures var d := Apply(setting, c, call).1;
      d.self == c.self && d.self in d.accounts && d.accounts.Keys <= c.accounts.Keys
  {
    SelfKept(setting, c, call);
    match call
    case CallQuery(key) => QueryOnlyOwn(c, key, KeyOf(c, call).1);
    case CallSolicit(key) => SolicitOnlyOwn(c, key, setting.slot, KeyOf(c, call).1);
    case CallForget(key) => ForgetOnlyOwn(c, key, setting.slot, setting.expunge, KeyOf(c, call).1);
    case CallRead(target, raw) => ReadOnlyOwn(c, target, raw, KeyOf(c, call).0);
    case CallWrite(raw, value) => WriteOnlyOwn(c, raw, value, KeyOf(c, call).0);
  }

  lemma OtherKeys(setting: Setting, c: Context, call: Call)
    requires c.self in c.accounts && !call.CallNew? && !OnOwn(call)
    ensures var d := Apply(setting, c, call).1;
      d.self == c.self && d.self in d.accounts && d.accounts.Keys <= c.accounts.Keys
  {}

  lemma CountGrows(keys: set<ServiceId>, keys': set<ServiceId>, more: set<ServiceId>, ids: set<ServiceId>)
    requires keys' <= keys + more && |more| <= 1
    ensures |keys' - ids| <= |keys - ids| + |more|
  {
    Larger(keys' - ids, (keys - ids) + more);
    assert |(keys - ids) + more| + |(keys - ids) * more| == |keys - ids| + |more|;
  }

  lemma Larger<T>(a: set<T>, b: set<T>)
    requires a <= b
    ensures |a| <= |b|
  {
    assert b == a + (b - a);
  }

  /** What a call adds to the outlay. */
  lemma CallOutlay(setting: Setting, c: Context, call: Call, ids: set<ServiceId>)
    requires c.self in c.accounts
    ensures var (r, d) := Apply(setting, c, call);
      && d.self == c.self && d.self in d.accounts
      && Outlay(ids, d) <= Outlay(ids, c) + BASE_COST
           + if call.CallSend? && r == Value(OK) then call.gasLimit else 0
  {
    KeysGrow(setting, c, call);
    var d := Apply(setting, c, call).1;
    CountGrows(c.accounts.Keys, d.accounts.Keys, if call.CallNew? then {NewId(c, call)} else {}, ids);
    if call.CallSend? { SendPrepaid(setting, c, call); } else { SendsAndProvides(setting, c, call); }
  }

  /** A call that is not offered, and a checkpoint, cost the base price and leave the regular context. */
  lemma PlainAnswer(env: Env, op: nat, vm: Vm, both: Both)
    requires Answer(env, op, vm, both).exit == Continue && (!Offered(op) || op == CHECKPOINT)
    ensures var c := Answer(env, op, vm, both); c.addition.x == both.x && c.vm.gas == vm.gas - BASE_COST
  {}

  /** A host call that lets the program go on pays for what it sends and creates. */
  lemma AnswerPays(env: Env, op: nat, vm: Vm, both: Both, ids: set<ServiceId>)
    requires vm.gas < TWO64 && Answer(env, op, vm, both).exit == Continue && both.x.self in both.x.accounts
    ensures var c := Answer(env, op, vm, both);
      && c.addition.x.self in c.addition.x.accounts
      && Outlay(ids, c.addition.x) + c.vm.gas <= Outlay(ids, both.x) + vm.gas
  {
    var charged := vm.(gas := vm.gas - BASE_COST);
    if !Offered(op) || op == CHECKPOINT {
      PlainAnswer(env, op, vm, both);
    } else if Modelled(op) {
      ServePays(env, op, charged, both, ids);
    } else {
      ForeignAnswer(env, op, vm, both);
      SameOutlay(ids, both.x, Answer(env, op, vm, both).addition.x);
    }
  }

  lemma SameOutlay(ids: set<ServiceId>, c: Context, d: Context)
    requires d.accounts == c.accounts && d.transfers == c.transfers
    ensures Outlay(ids, d) == Outlay(ids, c)
  {}

  /** A host function outside this model charges the base price and sends and creates nothing. */
  lemma ForeignAnswer(env: Env, op: nat, vm: Vm, both: Both)
    requires Answer(env, op, vm, both).exit == Continue && Offered(op) && op != CHECKPOINT && !Modelled(op)
    ensures var c := Answer(env, op, vm, both);
      && c.addition.x.self == both.x.self && c.addition.x.accounts == both.x.accounts
      && c.addition.x.transfers == both.x.transfers && c.vm.gas == vm.gas - BASE_COST
  {}

  /** What a call leaves if the program goes on: its context, and the gas less what a transfer carries. */
  lemma Served(env: Env, op: nat, vm: Vm, both: Both)
    requires Modelled(op) && 0 <= vm.gas < TWO64 && Serve(env, op, vm, both).exit == Continue
    ensures var c := Serve(env, op, vm, both);
      match AskedFor(env, op, vm, both.x)
      case Asks(call) =>
        var (r, d) := Apply(Setting(env.slot, env.expunge, both.y.privileges.bless), both.x, call);
        && c.addition.x == d
        && c.vm.gas == vm.gas - if call.CallSend? && r == Value(OK) then call.gasLimit else 0
      case _ => c.addition.x == both.x && c.vm.gas == vm.gas
  {}

  lemma ServePays(env: Env, op: nat, vm: Vm, both: Both, ids: set<ServiceId>)
    requires Modelled(op) && 0 <= vm.gas < TWO64 && Serve(env, op, vm, both).exit == Continue
    requires both.x.self in both.x.accounts
    ensures var c := Serve(env, op, vm, both);
      && c.addition.x.self in c.addition.x.accounts
      && Outlay(ids, c.addition.x) + c.vm.gas <= Outlay(ids, both.x) + vm.gas + BASE_COST
  {
    Served(env, op, vm, both);
    var asked := AskedFor(env, op, vm, both.x);
    if asked.Asks? {
      CallOutlay(Setting(env.slot, env.expunge, both.y.privileges.bless), both.x, asked.call, ids);
    }
  }

  lemma OutlayNonNegative(ids: set<ServiceId>, c: Context)
    ensures 0 <= Prepaid(c) <= Outlay(ids, c)
  {
    SumSeqNonNegative(c.transfers, PaidFor);
  }

  /** The host ends a run only by panic or for lack of gas, or by not returning. */
  lemma HostEnds(env: Env, op: nat, vm: Vm, both: Both)
    ensures Answer(env, op, vm, both).exit in {Continue, Panic, OutOfGas, Crash}
  {}

  /**
   * A property of gas and one context that survives spending gas, and that every answered host call keeps for the
   * regular context.
   */
  ghost predicate Stable(env: Env, keeps: (int, Context) -> bool)
  {
    && (forall g, g', c :: g' <= g && keeps(g, c) ==> keeps(g', c))
    && (forall op, vm, both :: Keeping(env, keeps, op, vm, both))
  }

  ghost predicate Keeping(env: Env, keeps: (int, Context) -> bool, op: nat, vm: Vm, both: Both)
  {
    var c := Answer(env, op, vm, both);
    (vm.gas >= 0 && keeps(vm.gas, both.x) && keeps(vm.gas, both.y) && c.exit == Continue) ==>
    keeps(c.vm.gas, c.addition.x)
  }

  ghost function Pairwise(keeps: (int, Context) -> bool): (int, Both) -> bool
  {
    (g: int, both: Both) => keeps(g, both.x) && keeps(g, both.y)
  }

  lemma StableIsInductive(env: Env, keeps: (int, Context) -> bool)
    requires Stable(env, keeps)
    ensures Inductive(Accumulating(env), Pairwise(keeps))
  {
    var host, inv := Accumulating(env), Pairwise(keeps);
    forall g, g', both | g' <= g && inv(g, both) ensures inv(g', both) {
      assert keeps(g', both.x) && keeps(g', both.y);
    }
    forall op: nat, vm: Vm, both: Both | vm.gas >= 0 && inv(vm.gas, both) && host(op, vm, both).exit == Continue
      ensures inv(host(op, vm, both).vm.gas, host(op, vm, both).addition)
    {
      assert Keeping(env, keeps, op, vm, both);
      AnswerSteps(env, op, vm, both);
      assert keeps(host(op, vm, both).vm.gas, both.x) && keeps(host(op, vm, both).vm.gas, both.y);
    }
  }

  /** Whatever ends the run, unless the host is down, the context that remains has the property. */
  lemma StableRemains(env: Env, i: Image, keeps: (int, Context) -> bool, prior: u64, both: Both)
    requires WellFormed(i) && WellDecoded(i.prog, i.d) && Thrifty(Accumulating(env)) && Stable(env, keeps)
    requires keeps(prior, both.x) && keeps(prior, both.y)
    ensures var r := Collapse(Invoke(env, Some(i), prior, both));
      r.Some? ==>
        keeps(HostRun(i.alu, i.prog, i.d, Accumulating(env), ENTRY, i.vm.(gas := Signed64(prior)), both).vm.gas,
              r.value.context)
  {
    var host, inv, vm := Accumulating(env), Pairwise(keeps), i.vm.(gas := Signed64(prior));
    StableIsInductive(env, keeps);
    RunKeeps(i.alu, i.prog, i.d, host, inv, ENTRY, vm, both);
    var e := HostRun(i.alu, i.prog, i.d, host, ENTRY, vm, both);
    if op, vm', both' :| EndedByHost(host, inv, e, op, vm', both') {
      EndedKeepsY(env, keeps, e, op, vm', both', prior);
    }
  }

  lemma EndedKeepsY(env: Env, keeps: (int, Context) -> bool, e: Ended<Both>, op: nat, vm: Vm, both: Both, prior: u64)
    requires Stable(env, keeps) && EndedByHost(Accumulating(env), Pairwise(keeps), e, op, vm, both)
    ensures var r := Collapse(Finish(prior, e)); r.Some? ==> keeps(e.vm.gas, r.value.context)
  {
    AnswerSteps(env, op, vm, both);
    HostEnds(env, op, vm, both);
  }

  ghost function Paid(prior: u64, ids: set<ServiceId>): (int, Context) -> bool
  {
    (g: int, c: Context) => c.self in c.accounts && Outlay(ids, c) + Max(g, 0) <= prior
  }

  lemma PaidMeans(prior: u64, ids: set<ServiceId>, g: int, c: Context)
    ensures Paid(prior, ids)(g, c) <==> c.self in c.accounts && Outlay(ids, c) + Max(g, 0) <= prior
  {}

  lemma PaidIsStable(env: Env, prior: u64, ids: set<ServiceId>)
    ensures Stable(env, Paid(prior, ids))
  {
    forall g, g', c | g' <= g && Paid(prior, ids)(g, c) ensures Paid(prior, ids)(g', c) {
      PaidMeans(prior, ids, g, c);
      PaidMeans(prior, ids, g', c);
    }
    forall op: nat, vm: Vm, both: Both ensures Keeping(env, Paid(prior, ids), op, vm, both) {
      var c := Answer(env, op, vm, both);
      if vm.gas >= 0 && Paid(prior, ids)(vm.gas, both.x) && c.exit == Continue {
        PaidMeans(prior, ids, vm.gas, both.x);
        PaidMeans(prior, ids, c.vm.gas, c.addition.x);
        OutlayNonNegative(ids, both.x);
        AnswerSteps(env, op, vm, both);
        AnswerPays(env, op, vm, both, ids);
      }
    }
  }

  lemma GasReported(prior: u64, e: Ended<Both>)
    ensures Collapse(Finish(prior, e)).Some? ==> Collapse(Finish(prior, e)).value.gas == prior - Max(e.vm.gas, 0)
  {}

  /**
   * What remains is paid for by the gas used: it covers the gas each transfer carries and the call that sent it, and
   * the call that created each account that was not there.
   */
  lemma TransfersArePaid(env: Env, image: Option<Image>, prior: u64, both: Both)
    requires image.Some? ==> WellFormed(image.value) && WellDecoded(image.value.prog, image.value.d)
    requires both.x.transfers == both.y.transfers == [] && both.x.accounts.Keys == both.y.accounts.Keys
    requires both.x.self in both.x.accounts && both.y.self in both.y.accounts
    ensures var r := Collapse(Invoke(env, image, prior, both));
      r.Some? ==> Outlay(both.x.accounts.Keys, r.value.context) <= r.value.gas
  {
    var ids := both.x.accounts.Keys;
    assert ids - ids == {};
    if image.Some? {
      HostIsThrifty(env);
      PaidIsStable(env, prior, ids);
      PaidMeans(prior, ids, prior, both.x);
      PaidMeans(prior, ids, prior, both.y);
      StableRemains(env, image.value, Paid(prior, ids), prior, both);
      var i := image.value;
      var e := HostRun(i.alu, i.prog, i.d, Accumulating(env), ENTRY, i.vm.(gas := Signed64(prior)), both);
      GasReported(prior, e);
      var r := Collapse(Invoke(env, image, prior, both));
      if r.Some? { PaidMeans(prior, ids, e.vm.gas, r.value.context); }
    }
  }

  /** The context kept for exceptional ends is the regular one as it was at the last checkpoint among these calls. */
  function LastSaved(calls: seq<Visit<Both>>, entry: Context): Context
  {
    if calls == [] then entry
    else
      var last := calls[|calls| - 1];
      if last.id == CHECKPOINT && last.called.exit == Continue then last.before.x
      else LastSaved(calls[..|calls| - 1], entry)
  }

  lemma {:induction false} LastSavedFirst(v: Visit<Both>, rest: seq<Visit<Both>>, entry: Context)
    ensures LastSaved([v] + rest, entry)
      == LastSaved(rest, if v.id == CHECKPOINT && v.called.exit == Continue then v.before.x else entry)
  {
    var all := [v] + rest;
    if rest == [] {
      assert all == [v] && all[..0] == [];
    } else {
      var last := rest[|rest| - 1];
      assert all[|all| - 1] == last && all[..|all| - 1] == [v] + rest[..|rest| - 1];
      LastSavedFirst(v, rest[..|rest| - 1], entry);
    }
  }

  lemma {:induction false} KeptIsLastSaved(env: Env, i: Image, pc: nat, vm: Vm, both: Both)
    requires WellFormed(i) && WellDecoded(i.prog, i.d) && Thrifty(Accumulating(env))
    ensures HostRun(i.alu, i.prog, i.d, Accumulating(env), pc, vm, both).addition.y
      == LastSaved(Trace(i.alu, i.prog, i.d, Accumulating(env), pc, vm, both), both.y)
    decreases Max(vm.gas, 0)
  {
    var host := Accumulating(env);
    var o := Invocation.FastRun(i.alu, i.prog, i.d, pc, vm);
    FastRunSpends(i.alu, i.prog, i.d, pc, vm);
    if o.exit.HostCall? {
      var called := Answer(env, CallId(o.exit.id), o.vm, both);
      AnswerSteps(env, CallId(o.exit.id), o.vm, both);
      var v := Visit(CallId(o.exit.id), both, called);
      if called.exit == Continue {
        KeptIsLastSaved(env, i, o.pc, called.vm, called.addition);
        LastSavedFirst(v, Trace(i.alu, i.prog, i.d, host, o.pc, called.vm, called.addition), both.y);
      } else {
        LastSavedFirst(v, [], both.y);
      }
    }
  }

  /** A run that panics, faults or runs out of gas leaves exactly what its last checkpoint saved. */
  lemma FailureRollsBack(env: Env, image: Image, prior: u64, both: Both)
    requires WellFormed(image) && WellDecoded(image.prog, image.d) && Thrifty(Accumulating(env))
    requires Invoke(env, Some(image), prior, both).reason in {RanOut, Failed}
    ensures var r := Collapse(Invoke(env, Some(image), prior, both));
      && r.Some?
      && r.value.context == LastSaved(
           Trace(image.alu, image.prog, image.d, Accumulating(env), ENTRY, image.vm.(gas := Signed64(prior)), both),
           both.y)
  {
    KeptIsLastSaved(env, image, ENTRY, image.vm.(gas := Signed64(prior)), both);
  }

  /** A property that spending gas keeps, and every call that does not panic, at the price of a call. */
  ghost predicate KeptByCalls(keeps: (int, Context) -> bool)
  {
    && (forall g, g', c :: g' <= g && keeps(g, c) ==> keeps(g', c))
    && (forall setting, c, call, g :: CallKeeps(keeps, setting, c, call, g))
  }

  ghost predicate CallKeeps(keeps: (int, Context) -> bool, setting: Setting, c: Context, call: Call, g: int)
  {
    g >= BASE_COST && keeps(g, c) && !Apply(setting, c, call).0.Abort? ==>
    keeps(g - BASE_COST, Apply(setting, c, call).1)
  }

  /** A host call that lets the program go on made no call, or one that did not panic. */
  lemma AnswerCalls(env: Env, op: nat, vm: Vm, both: Both)
    requires Answer(env, op, vm, both).exit == Continue
    ensures var x := Answer(env, op, vm, both).addition.x;
      || x == both.x
      || exists call :: CalledBy(Setting(env.slot, env.expunge, both.y.privileges.bless), both.x, call, x)
  {
    var setting := Setting(env.slot, env.expunge, both.y.privileges.bless);
    var charged := vm.(gas := vm.gas - BASE_COST);
    var x := Answer(env, op, vm, both).addition.x;
    if charged.gas >= 0 && Offered(op) && op != CHECKPOINT {
      if Modelled(op) {
        var asked := AskedFor(env, op, charged, both.x);
        if asked.Asks? {
          assert CalledBy(setting, both.x, asked.call, x);
        }
      } else {
        var f := env.foreign(op, charged, both);
        if f.privileges.Some? {
          assert CalledBy(setting, both.x, CallPrivileges(f.privileges.value),
            both.x.(privileges := f.privileges.value));
        }
      }
    }
  }

  ghost predicate CalledBy(setting: Setting, c: Context, call: Call, d: Context)
  {
    d == Apply(setting, c, call).1 && !Apply(setting, c, call).0.Abort?
  }

  lemma KeptIsStable(env: Env, keeps: (int, Context) -> bool)
    requires KeptByCalls(keeps)
    ensures Stable(env, keeps)
  {
    forall op: nat, vm: Vm, both: Both ensures Keeping(env, keeps, op, vm, both) {
      var c := Answer(env, op, vm, both);
      if vm.gas >= 0 && keeps(vm.gas, both.x) && c.exit == Continue {
        AnswerSteps(env, op, vm, both);
        AnswerCalls(env, op, vm, both);
        var setting := Setting(env.slot, env.expunge, both.y.privileges.bless);
        if c.addition.x != both.x {
          var call :| CalledBy(setting, both.x, call, c.addition.x);
          assert CallKeeps(keeps, setting, both.x, call, vm.gas);
        }
      }
    }
  }

  /** What is kept by all calls remains, whatever program runs and however it ends, unless the host is down. */
  lemma KeptRemains(env: Env, image: Option<Image>, keeps: (int, Context) -> bool, prior: u64, both: Both)
      returns (g: int)
    requires image.Some? ==> WellFormed(image.value) && WellDecoded(image.value.prog, image.value.d)
    requires KeptByCalls(keeps) && keeps(prior, both.x) && keeps(prior, both.y)
    ensures var r := Collapse(Invoke(env, image, prior, both)); r.Some? ==> keeps(g, r.value.context)
  {
    g := prior;
    if image.Some? {
      var i := image.value;
      HostIsThrifty(env);
      KeptIsStable(env, keeps);
      StableRemains(env, i, keeps, prior, both);
      g := HostRun(i.alu, i.prog, i.d, Accumulating(env), ENTRY, i.vm.(gas := Signed64(prior)), both).vm.gas;
    }
  }

  /** Tokens are conserved, the reserved identifier is unused, and there is room for more accounts. */
  ghost predicate Funded(self: ServiceId, supply: int, g: int, c: Context)
  {
    && c.self == self && Sound(c) && Wrap64(Supply(c)) == supply
    && BASE_COST * |c.accounts| + g < BASE_COST * (ID_RANGE - 42)
  }

  ghost function Funding(self: ServiceId, supply: int): (int, Context) -> bool
  {
    (g: int, c: Context) => Funded(self, supply, g, c)
  }

  lemma CallKeepsFunds(setting: Setting, c: Context, call: Call, supply: int, g: int)
    requires g >= BASE_COST && Funded(c.self, supply, g, c)
    ensures Funded(c.self, supply, g - BASE_COST, Apply(setting, c, call).1)
  {
    CallConserves(setting, c, call);
    WholeTurns(Supply(c), Drift(setting, c, call));
    SelfKept(setting, c, call);
  }

  lemma FundsAreKept(self: ServiceId, supply: int)
    ensures KeptByCalls(Funding(self, supply))
  {
    forall g, g', c | g' <= g && Funding(self, supply)(g, c) ensures Funding(self, supply)(g', c) {}
    forall setting, c, call, g ensures CallKeeps(Funding(self, supply), setting, c, call, g) {
      if g >= BASE_COST && Funded(self, supply, g, c) { CallKeepsFunds(setting, c, call, supply, g); }
    }
  }

  /** Whatever program runs and however it ends, no tokens appear or vanish. */
  lemma RunsKeepFunds(env: Env, image: Option<Image>, prior: u64, both: Both, self: ServiceId, supply: int)
    requires image.Some? ==> WellFormed(image.value) && WellDecoded(image.value.prog, image.value.d)
    requires Funded(self, supply, prior, both.x) && Funded(self, supply, prior, both.y)
    ensures var r := Collapse(Invoke(env, image, prior, both));
      r.Some? ==> r.value.context.self == self && Sound(r.value.context) && Wrap64(Supply(r.value.context)) == supply
  {
    FundsAreKept(self, supply);
    var g := KeptRemains(env, image, Funding(self, supply), prior, both);
  }

  /** Along with the funds, the books of the service are right. */
  ghost predicate InOrder(self: ServiceId, supply: int, g: int, c: Context)
  {
    Funded(self, supply, g, c) && Counted(c, self)
  }

  ghost function Ordered(self: ServiceId, supply: int): (int, Context) -> bool
  {
    (g: int, c: Context) => InOrder(self, supply, g, c)
  }

  lemma OrderIsKept(self: ServiceId, supply: int)
    ensures KeptByCalls(Ordered(self, supply))
  {
    forall g, g', c | g' <= g && Ordered(self, supply)(g, c) ensures Ordered(self, supply)(g', c) {}
    forall setting, c, call, g ensures CallKeeps(Ordered(self, supply), setting, c, call, g) {
      if g >= BASE_COST && InOrder(self, supply, g, c) && !Apply(setting, c, call).0.Abort? {
        CallKeepsFunds(setting, c, call, supply, g);
        OwnCountersKept(setting, c, call);
      }
    }
  }

  /** Whatever program runs and however it ends, the books of the service are right. */
  lemma RunsKeepOrder(env: Env, image: Option<Image>, prior: u64, both: Both, self: ServiceId, supply: int)
    requires image.Some? ==> WellFormed(image.value) && WellDecoded(image.value.prog, image.value.d)
    requires InOrder(self, supply, prior, both.x) && InOrder(self, supply, prior, both.y)
    ensures var r := Collapse(Invoke(env, image, prior, both)); r.Some? ==> Counted(r.value.context, self)
  {
    OrderIsKept(self, supply);
    var g := KeptRemains(env, image, Ordered(self, supply), prior, both);
  }

  /** No host call searches for an identifier in vain, or dereferences a missing account. */
  lemma CallsReturn(setting: Setting, c: Context, call: Call)
    requires Sound(c) && Roomy(c)
    ensures Apply(setting, c, call).0 != NoReturn
  {
    if call.CallNew? { NewConserves(setting, c, call); }
  }

  lemma AnswersReturn(env: Env, op: nat, vm: Vm, both: Both)
    requires Sound(both.x) && Roomy(both.x)
    ensures Answer(env, op, vm, both).exit != Crash
  {
    var charged := vm.(gas := vm.gas - BASE_COST);
    if charged.gas >= 0 && Offered(op) && op != CHECKPOINT && Modelled(op) {
      var asked := AskedFor(env, op, charged, both.x);
      if asked.Asks? {
        CallsReturn(Setting(env.slot, env.expunge, both.y.privileges.bless), both.x, asked.call);
      }
    }
  }

  /** A program that cannot bring the host down. */
  ghost predicate Safe(image: Option<Image>)
  {
    image.Some? ==> AllHarmless(image.value.prog, image.value.d)
  }

  /** In a sound state with room, a program that cannot bring the host down returns. */
  lemma SafeReturns(env: Env, image: Option<Image>, prior: u64, both: Both, self: ServiceId, supply: int)
    requires image.Some? ==> WellFormed(image.value) && WellDecoded(image.value.prog, image.value.d)
    requires Safe(image) && Funded(self, supply, prior, both.x) && Funded(self, supply, prior, both.y)
    ensures Collapse(Invoke(env, image, prior, both)).Some?
  {
    if image.Some? {
      var i, inv := image.value, Pairwise(Funding(self, supply));
      HostIsThrifty(env);
      FundsAreKept(self, supply);
      KeptIsStable(env, Funding(self, supply));
      StableIsInductive(env, Funding(self, supply));
      CrashIsExact(i.alu, i.prog, i.d);
      forall op: nat, vm: Vm, both: Both | vm.gas >= 0 && inv(vm.gas, both)
        ensures Accumulating(env)(op, vm, both).exit != Crash
      {
        assert Funding(self, supply)(vm.gas, both.x);
        AnswersReturn(env, op, vm, both);
      }
      assert Funding(self, supply)(Signed64(prior), both.x) && Funding(self, supply)(Signed64(prior), both.y);
      NeverBroughtDown(
        i.alu, i.prog, i.d, Accumulating(env), inv, ENTRY, i.vm.(gas := Signed64(prior)), both);
    }
  }

  /** The stray jump brings the host down, so there is no result, not even the context kept for failures. */
  lemma StrayJumpIsNoFailure(env: Env, image: Image, prior: u64, both: Both)
    requires image.prog == StrayJump() && WellDecoded(image.prog, image.d) && 0 < prior < TWO63
    ensures Invoke(env, Some(image), prior, both).reason == Crashed
    ensures Collapse(Invoke(env, Some(image), prior, both)).None?
  {
    HostIsThrifty(env);
    StrayJumpCrashes(image.alu, image.d, image.vm.(gas := Signed64(prior)));
  }

  const MAX_CODE_SIZE: int := 4_000_000

  /** Running code from a context with some gas; None if it does not return. */
  type Runner = (Bytes, u64, Context) -> Option<Result>

  /**
   * What is fixed outside: how a service's code is found and run, and the number drawn for its first reserved
   * identifier.
   */
  datatype Loader = Loader(fetch: Account -> Option<Bytes>, run: Runner, seed: u32)

  ghost predicate LoadsWell(load: Bytes -> Option<Image>)
  {
    forall code | load(code).Some? ::
      WellFormed(load(code).value) && WellDecoded(load(code).value.prog, load(code).value.d)
  }

  /** The runner that loads the code into the virtual machine and lets it make host calls. */
  ghost function Machine(env: Env, load: Bytes -> Option<Image>): Runner
    requires LoadsWell(load)
  {
    (code: Bytes, gas: u64, c: Context) => Collapse(Invoke(env, load(code), gas, Both(c, c)))
  }

  function FirstReserve(seed: u32, used: set<ServiceId>): Option<ServiceId>
  {
    Check(seed % ID_RANGE + MIN_SERVICE_INDEX, used)
  }

  /** The context a service starts from; None if the search for a reserved identifier does not end. */
  function InitialContext(e: Context, s: ServiceId, seed: u32): Option<Context>
  {
    match FirstReserve(seed, e.accounts.Keys)
    case None => None
    case Some(id) => Some(e.(self := s, importId := id, transfers := [], exception := None, blobs := map[]))
  }

  function AmountsOf(incoming: seq<u64>): int { SumSeq(incoming, (a: u64) => a) }

  /** The balance after crediting what others have sent. */
  function Credited(e: Context, s: ServiceId, incoming: seq<u64>): Context
    requires s in e.accounts
  {
    var a := e.accounts[s];
    Put(e, s, WithBalance(a, Wrap64(a.info.balance + AmountsOf(incoming))))
  }

  /** The accumulation of service s on the state e; None if it does not return. */
  function PsiA(l: Loader, e: Context, s: ServiceId, gas: u64, incoming: seq<u64>): Option<Result>
  {
    if s !in e.accounts then Some(Result(e.(transfers := []), None, 0, map[]))
    else
      var credited := Credited(e, s, incoming);
      match l.fetch(credited.accounts[s])
      case None => Some(Result(credited.(transfers := []), None, 0, map[]))
      case Some(code) =>
        if code == [] || |code| > MAX_CODE_SIZE then Some(Result(credited.(transfers := []), None, 0, map[]))
        else
          match InitialContext(credited, s, l.seed)
          case None => None
          case Some(c) => l.run(code, gas, c)
  }

  /** Room for the accounts there are and all that could be created with some gas. */
  predicate Room(e: Context, gas: int) { BASE_COST * |e.accounts| + gas < BASE_COST * (ID_RANGE - 42) }

  lemma InitialIsFunded(e: Context, s: ServiceId, seed: u32, gas: u64)
    requires s in e.accounts && Room(e, gas)
    ensures InitialContext(e, s, seed).Some?
    ensures Funded(s, Wrap64(SumOver(e.accounts, BalanceOf)), gas, InitialContext(e, s, seed).value)
  {
    var start := seed % ID_RANGE + MIN_SERVICE_INDEX;
    KeysSize(e.accounts);
    SomeFree(start, e.accounts.Keys);
    CheckFindsUnused(start, e.accounts.Keys);
  }

  lemma KeptRecount(c: Context, d: Context, id: ServiceId)
    requires Counted(c, id) && d.accounts == c.accounts && d.lookupPool == c.lookupPool
      && d.storagePool == c.storagePool
    ensures Counted(d, id)
  {
    assert Recount(d, id, Items) == Recount(c, id, Items) && Recount(d, id, Octets) == Recount(c, id, Octets);
  }

  /** Fewer identifiers are in use than there are. */
  lemma SomeFree(start: ServiceId, used: set<ServiceId>)
    requires InRange(start) && |used| < ID_RANGE
    ensures exists x: ServiceId :: InRange(x) && x !in used
  {
    if forall x: ServiceId | InRange(x) :: x in used {
      UsedPlacesCount(start, used, ID_RANGE);
    }
  }

  lemma CreditedSupply(e: Context, s: ServiceId, incoming: seq<u64>)
    requires s in e.accounts
    ensures var c := Credited(e, s, incoming);
      && Wrap64(SumOver(c.accounts, BalanceOf)) == Wrap64(SumOver(e.accounts, BalanceOf) + AmountsOf(incoming))
      && c.accounts.Keys == e.accounts.Keys && |c.accounts| == |e.accounts|
  {
    var c := Credited(e, s, incoming);
    var due := e.accounts[s].info.balance + AmountsOf(incoming);
    SumPut(e.accounts, BalanceOf, s, c.accounts[s]);
    WholeTurns(SumOver(c.accounts, BalanceOf), due / TWO64);
    KeysSize(e.accounts);
    KeysSize(c.accounts);
  }

  /** No more gas is used than given, and what is sent and created is paid for. */
  predicate PaidResult(ids: set<ServiceId>, r: Result, gas: u64)
  {
    0 <= r.gas <= gas && Outlay(ids, r.context) <= r.gas
  }

  ghost predicate PaysOnce(run: Runner, code: Bytes, gas: u64, c: Context)
  {
    c.transfers == [] && c.self in c.accounts && run(code, gas, c).Some? ==>
    PaidResult(c.accounts.Keys, run(code, gas, c).value, gas)
  }

  /** A runner that always keeps to its gas. */
  ghost predicate PayingRunner(run: Runner) { forall code, gas, c :: PaysOnce(run, code, gas, c) }

  ghost predicate StillKeeps(keeps: (int, Context) -> bool, c: Context) { exists g: int :: keeps(g, c) }

  ghost predicate KeepsAt(run: Runner, keeps: (int, Context) -> bool, code: Bytes, gas: u64, c: Context)
  {
    KeptByCalls(keeps) && keeps(gas, c) && run(code, gas, c).Some? ==>
    StillKeeps(keeps, run(code, gas, c).value.context)
  }

  /** A runner that acts on the ledger by calls only. */
  ghost predicate KeepingRunner(run: Runner) { forall keeps, code, gas, c :: KeepsAt(run, keeps, code, gas, c) }

  ghost predicate HonestRunner(run: Runner) { PayingRunner(run) && KeepingRunner(run) }

  /** The virtual machine keeps to its gas, whatever the code and the state are. */
  lemma MachinePays(env: Env, load: Bytes -> Option<Image>)
    requires LoadsWell(load)
    ensures PayingRunner(Machine(env, load))
  {
    forall code, gas: u64, c ensures PaysOnce(Machine(env, load), code, gas, c) {
      if c.transfers == [] && c.self in c.accounts {
        TransfersArePaid(env, load(code), gas, Both(c, c));
        UsedWithinGiven(env, load(code), gas, Both(c, c));
        UsedIsReported(Invoke(env, load(code), gas, Both(c, c)));
      }
    }
  }

  lemma UsedIsReported(f: Finished)
    ensures Collapse(f).Some? ==> Collapse(f).value.gas == f.used
  {}

  /** What all calls keep, the virtual machine keeps, whatever the code and the state are. */
  lemma MachineKeeps(env: Env, load: Bytes -> Option<Image>)
    requires LoadsWell(load)
    ensures KeepingRunner(Machine(env, load))
  {
    forall keeps, code, gas: u64, c ensures KeepsAt(Machine(env, load), keeps, code, gas, c) {
      if KeptByCalls(keeps) && keeps(gas, c) {
        var g := KeptRemains(env, load(code), keeps, gas, Both(c, c));
      }
    }
  }

  /** Code that cannot bring the host down. */
  ghost predicate SafeCode(load: Bytes -> Option<Image>, code: Bytes) { Safe(load(code)) }

  ghost predicate ReturnsOnce(
      run: Runner, load: Bytes -> Option<Image>, code: Bytes, gas: u64, c: Context, s: ServiceId, supply: int)
  {
    SafeCode(load, code) && Funded(s, supply, gas, c) ==> run(code, gas, c).Some?
  }

  /** A runner that returns from code that cannot bring the host down. */
  ghost predicate ReturningRunner(run: Runner, load: Bytes -> Option<Image>)
  {
    forall code, gas, c, s, supply :: ReturnsOnce(run, load, code, gas, c, s, supply)
  }

  lemma MachineReturns(env: Env, load: Bytes -> Option<Image>)
    requires LoadsWell(load)
    ensures ReturningRunner(Machine(env, load), load)
  {
    forall code, gas: u64, c, s, supply ensures ReturnsOnce(Machine(env, load), load, code, gas, c, s, supply) {
      if SafeCode(load, code) && Funded(s, supply, gas, c) { SafeReturns(env, load(code), gas, Both(c, c), s, supply); }
    }
  }

  lemma AccumulationPays(l: Loader, e: Context, s: ServiceId, gas: u64, incoming: seq<u64>)
    requires PayingRunner(l.run) && PsiA(l, e, s, gas, incoming).Some?
    ensures PaidResult(e.accounts.Keys, PsiA(l, e, s, gas, incoming).value, gas)
  {
    assert e.accounts.Keys - e.accounts.Keys == {};
    if s in e.accounts {
      var credited := Credited(e, s, incoming);
      assert credited.accounts.Keys == e.accounts.Keys;
      var code, c := l.fetch(credited.accounts[s]), InitialContext(credited, s, l.seed);
      if code.Some? && c.Some? { assert PaysOnce(l.run, code.value, gas, c.value); }
    }
  }

  /** A result is what was there when nothing runs, or all that calls keep. */
  lemma AccumulationKeeps(
      l: Loader, e: Context, s: ServiceId, gas: u64, incoming: seq<u64>, keeps: (int, Context) -> bool)
    requires KeepingRunner(l.run) && s in e.accounts && PsiA(l, e, s, gas, incoming).Some? && KeptByCalls(keeps)
    requires var c := InitialContext(Credited(e, s, incoming), s, l.seed); c.Some? ==> keeps(gas, c.value)
    ensures var r := PsiA(l, e, s, gas, incoming).value;
      r.context == Credited(e, s, incoming).(transfers := []) || StillKeeps(keeps, r.context)
  {
    var credited := Credited(e, s, incoming);
    var code, c := l.fetch(credited.accounts[s]), InitialContext(credited, s, l.seed);
    if code.Some? && c.Some? { assert KeepsAt(l.run, keeps, code.value, gas, c.value); }
  }

  /** What is done before a program runs. */
  lemma Prepared(l: Loader, e: Context, s: ServiceId, gas: u64, incoming: seq<u64>)
    requires s in e.accounts && Room(e, gas)
    ensures var c := Credited(e, s, incoming);
      && Wrap64(SumOver(c.accounts, BalanceOf)) == Wrap64(SumOver(e.accounts, BalanceOf) + AmountsOf(incoming))
      && InitialContext(c, s, l.seed).Some?
      && Funded(s, Wrap64(SumOver(c.accounts, BalanceOf)), gas, InitialContext(c, s, l.seed).value)
  {
    CreditedSupply(e, s, incoming);
    InitialIsFunded(Credited(e, s, incoming), s, l.seed, gas);
  }

  /** The account is there, and all accounts and what is sent make up a given sum. */
  ghost predicate SoundResult(r: Result, s: ServiceId, supply: int)
  {
    s in r.context.accounts && Wrap64(Supply(r.context)) == supply
  }

  /**
   * Accumulating a service conserves tokens, if it returns: what it and all others hold and what it sends make up what
   * was held before and was sent to it.
   */
  lemma AccumulationIsSound(l: Loader, e: Context, s: ServiceId, gas: u64, incoming: seq<u64>)
    requires KeepingRunner(l.run) && s in e.accounts && Room(e, gas) && PsiA(l, e, s, gas, incoming).Some?
    ensures SoundResult(
      PsiA(l, e, s, gas, incoming).value, s, Wrap64(SumOver(e.accounts, BalanceOf) + AmountsOf(incoming)))
  {
    var credited := Credited(e, s, incoming);
    var supply := Wrap64(SumOver(credited.accounts, BalanceOf));
    Prepared(l, e, s, gas, incoming);
    FundsAreKept(s, supply);
    assert Funding(s, supply)(gas, InitialContext(credited, s, l.seed).value);
    AccumulationKeeps(l, e, s, gas, incoming, Funding(s, supply));
    if StillKeeps(Funding(s, supply), PsiA(l, e, s, gas, incoming).value.context) {
      var g: int :| Funding(s, supply)(g, PsiA(l, e, s, gas, incoming).value.context);
    }
  }

  /** It returns if the code cannot bring the host down, or there is none to run. */
  lemma AccumulationReturns(
      l: Loader, load: Bytes -> Option<Image>, e: Context, s: ServiceId, gas: u64, incoming: seq<u64>)
    requires ReturningRunner(l.run, load) && Room(e, gas) && SafeService(l, load, e, s, incoming)
    ensures PsiA(l, e, s, gas, incoming).Some?
  {
    if s in e.accounts {
      var credited := Credited(e, s, incoming);
      Prepared(l, e, s, gas, incoming);
      var code := l.fetch(credited.accounts[s]);
      if code.Some? {
        assert ReturnsOnce(l.run, load, code.value, gas, InitialContext(credited, s, l.seed).value, s,
                           Wrap64(SumOver(credited.accounts, BalanceOf)));
      }
    }
  }

  /** The code of a service cannot bring the host down. */
  ghost predicate SafeService(l: Loader, load: Bytes -> Option<Image>, e: Context, s: ServiceId, incoming: seq<u64>)
  {
    s in e.accounts && l.fetch(Credited(e, s, incoming).accounts[s]).Some? ==>
    SafeCode(load, l.fetch(Credited(e, s, incoming).accounts[s]).value)
  }

  /** It keeps the service's own books. */
  lemma AccumulationKeepsOrder(l: Loader, e: Context, s: ServiceId, gas: u64, incoming: seq<u64>)
    requires KeepingRunner(l.run) && s in e.accounts && Room(e, gas) && PsiA(l, e, s, gas, incoming).Some?
    requires Counted(e, s)
    ensures Counted(PsiA(l, e, s, gas, incoming).value.context, s)
  {
    var credited := Credited(e, s, incoming);
    var supply := Wrap64(SumOver(credited.accounts, BalanceOf));
    Prepared(l, e, s, gas, incoming);
    KeptCounted(e, credited, s);
    var c := InitialContext(credited, s, l.seed).value;
    KeptRecount(credited, c, s);
    KeptRecount(credited, credited.(transfers := []), s);
    OrderIsKept(s, supply);
    assert Ordered(s, supply)(gas, c);
    AccumulationKeeps(l, e, s, gas, incoming, Ordered(s, supply));
    if StillKeeps(Ordered(s, supply), PsiA(l, e, s, gas, incoming).value.context) {
      var g: int :| Ordered(s, supply)(g, PsiA(l, e, s, gas, incoming).value.context);
    }
  }

  /** What is sent to a service that does not exist is lost. */
  lemma SentToNobody(l: Loader, e: Context, s: ServiceId, gas: u64, incoming: seq<u64>)
    requires s !in e.accounts
    ensures var r := PsiA(l, e, s, gas, incoming);
      && r.Some? && r.value.context == e.(transfers := []) && r.value.blobs == map[]
      && Supply(r.value.context) == SumOver(e.accounts, BalanceOf)
  {}
}
