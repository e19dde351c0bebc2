/** The accumulate host functions: what they charge, read from registers and memory, and write back. */
module HostCalls {
  import opened Words
  import opened PageTables
  import opened PagedMemory
  import opened Instructions
  import opened Accounts
  import opened Ledger
  import opened HostLoop

  const READ: nat := 3
  const WRITE: nat := 4
  const BLESS: nat := 14
  const ASSIGN: nat := 15
  const DESIGNATE: nat := 16
  const CHECKPOINT: nat := 17
  const NEW: nat := 18
  const UPGRADE: nat := 19
  const TRANSFER: nat := 20
  const EJECT: nat := 21
  const QUERY: nat := 22
  const SOLICIT: nat := 23
  const FORGET: nat := 24
  const YIELD: nat := 25
  const PROVIDE: nat := 26

  /** Every host call costs this much. */
  const BASE_COST: int := 10

  const MEMO_SIZE: u64 := 128

  /** Stands for one's own service. */
  const OWN: u64 := TWO64 - 1

  /** The regular context and the one kept for exceptional ends. */
  datatype Both = Both(x: Context, y: Context)

  /** What a host function outside this model does: it ends the run or not, and may change privileges. */
  datatype Foreign = Foreign(ends: bool, regs: Registers, mem: Mem, privileges: Option<Privileges>)

  datatype Env = Env(
    slot: u32, expunge: nat, hash: Bytes -> Bytes, blobId: (ServiceId, Bytes) -> Bytes,
      foreign: (nat, Vm, Both) -> Foreign)

  /** What a host function makes of its operands: a call, an answer at once, or a panic that may set register 7. */
  datatype Asked = Asks(call: Call) | Answers(r7: u64) | Panics(left: Option<u64>)

  function WithR7(vm: Vm, r: u64): Vm { vm.(regs := vm.regs[7 := r]) }

  lemma SpanReadable(t: PageTable, start: u64, n: u64)
    requires ReadableSpan(t, start, n)
    ensures ReadableRange(t, start, n)
  {
    forall x: nat | start <= x < start + n ensures Readable(t, x) { assert AccessOf(t, x) != Inaccessible; }
  }

  /** The bytes of a span of memory, if it is readable. */
  function SpanOf(t: PageTable, start: u64, n: u64): Option<Bytes>
  {
    if ReadableSpan(t, start, n) then
      SpanReadable(t, start, n);
      Some(BytesAt(t, start, n))
    else None
  }

  function LookupAsked(vm: Vm): Option<LookupKey>
  {
    match SpanOf(vm.mem.pages, vm.regs[7], 32)
    case None => None
    case Some(h) => Some(LookupKey(h, Wrap32(vm.regs[8])))
  }

  function ReadAsked(vm: Vm, x: Context): Asked
  {
    var r := vm.regs;
    match SpanOf(vm.mem.pages, r[8], r[9])
    case None => Panics(Some(OOB))
    case Some(raw) =>
      if r[7] == OWN || r[7] == x.self then Asks(CallRead(x.self, raw))
      else if Wrap32(r[7]) in x.accounts then Asks(CallRead(Wrap32(r[7]), raw))
      else Answers(NONE)
  }

  function WriteAsked(vm: Vm): Asked
  {
    var r := vm.regs;
    match SpanOf(vm.mem.pages, r[7], r[8])
    case None => Panics(Some(OOB))
    case Some(raw) =>
      if r[10] == 0 then Asks(CallWrite(raw, None))
      else
        match SpanOf(vm.mem.pages, r[9], r[10])
        case None => Panics(None)
        case Some(value) => Asks(CallWrite(raw, Some(value)))
  }

  function NewAsked(vm: Vm): Asked
  {
    var r := vm.regs;
    match SpanOf(vm.mem.pages, r[7], 32)
    case None => Panics(None)
    case Some(code) => if r[8] >= TWO32 then Panics(None) else Asks(CallNew(code, r[8], r[9], r[10], r[11], r[12]))
  }

  function ProvideAsked(env: Env, vm: Vm, x: Context): Asked
  {
    var r := vm.regs;
    match SpanOf(vm.mem.pages, r[8], r[9])
    case None => Panics(Some(OOB))
    case Some(data) =>
      var id := if r[7] == OWN then x.self else Wrap32(r[7]);
      Asks(CallProvide(id, LookupKey(env.hash(data), Wrap32(r[9])), env.blobId(id, data), data))
  }

  /** The call that an operation makes with its registers and memory. */
  function AskedFor(env: Env, op: nat, vm: Vm, x: Context): Asked
  {
    var r, pages := vm.regs, vm.mem.pages;
    if op == READ then ReadAsked(vm, x)
    else if op == WRITE then WriteAsked(vm)
    else if op == NEW then NewAsked(vm)
    else if op == UPGRADE then
      match SpanOf(pages, r[7], 32) { case None => Panics(Some(OOB))
        case Some(code) => Asks(CallUpgrade(code, r[8], r[9])) }
    else if op == TRANSFER then
      match SpanOf(pages, r[10], MEMO_SIZE) { case None => Panics(Some(OOB))
        case Some(memo) => Asks(CallSend(r[7], r[8], r[9], memo)) }
    else if op == EJECT then
      match SpanOf(pages, r[8], 32) { case None => Panics(Some(OOB)) case Some(h) => Asks(CallEject(r[7], h)) }
    else if op == YIELD then
      match SpanOf(pages, r[7], 32) { case None => Panics(Some(OOB)) case Some(h) => Asks(CallYield(h)) }
    else if op == PROVIDE then ProvideAsked(env, vm, x)
    else
      match LookupAsked(vm)
      case None => Panics(Some(OOB))
      case Some(key) => Asks(if op == QUERY then CallQuery(key) else if op == SOLICIT then CallSolicit(key)
        else CallForget(key))
  }

  /** The operations modelled in full. */
  predicate Modelled(op: nat) { op == READ || op == WRITE || NEW <= op <= PROVIDE }

  /** The operations a service may call while accumulating. */
  predicate Offered(op: nat) { op <= 5 || BLESS <= op <= PROVIDE || op == 100 }

  /** Handing a reply to the program. */
  function Settle(vm: Vm, reply: Reply, both: Both): Called<Both>
  {
    match reply
    case Silent => Called(Continue, vm, both)
    case Value(r) => Called(Continue, WithR7(vm, r), both)
    case Two(r, s) => Called(Continue, vm.(regs := vm.regs[7 := r][8 := s]), both)
    case Abort => Called(Panic, vm, both)
    case NoReturn => Called(Crash, vm, both)
  }

  /** A transfer pays for the gas it carries once it has been made. */
  function PayTransfer(vm: Vm, gasLimit: u64, both: Both): Called<Both>
  {
    if Wrap64(vm.gas) < gasLimit then Called(OutOfGas, vm.(gas := 0), both)
    else Called(Continue, WithR7(vm.(gas := vm.gas - gasLimit), OK), both)
  }

  /** A value that was read goes to memory, as much of it as is asked for. */
  function Deliver(vm: Vm, value: Option<Bytes>, both: Both): Called<Both>
  {
    var r := vm.regs;
    match value
    case None => Called(Continue, WithR7(vm, NONE), both)
    case Some(v) =>
      var f := Min(r[11], |v|);
      var l := Min(r[12], |v| - f);
      if l == 0 then Called(Continue, WithR7(vm, Wrap64(|v|)), both)
      else if !WritableSpan(vm.mem.pages, r[10], l) then Called(Panic, WithR7(vm, OOB), both)
      else
        Called(Continue, WithR7(vm,
          Wrap64(|v|)).(mem := vm.mem.(pages := WithBytes(vm.mem.pages, r[10], v[f..f + l]))), both)
  }

  function Serve(env: Env, op: nat, vm: Vm, both: Both): Called<Both>
    requires Modelled(op)
  {
    match AskedFor(env, op, vm, both.x)
    case Panics(r) => Called(Panic, if r.Some? then WithR7(vm, r.value) else vm, both)
    case Answers(r) => Called(Continue, WithR7(vm, r), both)
    case Asks(call) =>
      var (reply, x) := Apply(Setting(env.slot, env.expunge, both.y.privileges.bless), both.x, call);
      if call.CallRead? then Deliver(vm, ReadStorage(both.x, call.id, call.raw).0, both.(x := x))
      else if call.CallSend? && reply == Value(OK) then PayTransfer(vm, call.gasLimit, both.(x := x))
      else Settle(vm, reply, both.(x := x))
  }

  function ServeForeign(env: Env, op: nat, vm: Vm, both: Both): Called<Both>
  {
    var f := env.foreign(op, vm, both);
    var vm' := Vm(f.regs, f.mem, vm.gas);
    if f.ends then Called(Panic, vm', both)
    else if f.privileges.Some? && BLESS <= op <= DESIGNATE then
      Called(Continue, vm', both.(x := both.x.(privileges := f.privileges.value)))
    else Called(Continue, vm', both)
  }

  /** A host call of any number. */
  function Answer(env: Env, op: nat, vm: Vm, both: Both): Called<Both>
  {
    var charged := vm.(gas := vm.gas - BASE_COST);
    if !Offered(op) && vm.gas < 0 then Called(OutOfGas, vm, both)
    else if charged.gas < 0 then Called(OutOfGas, charged, both)
    else if !Offered(op) then Called(Continue, WithR7(charged, WHAT), both)
    else if op == CHECKPOINT then Called(Continue, WithR7(charged, Wrap64(charged.gas)), both.(y := both.x))
    else if Modelled(op) then Serve(env, op, charged, both)
    else ServeForeign(env, op, charged, both)
  }

  function Accumulating(env: Env): Host<Both> { (op: nat, vm: Vm, both: Both) => Answer(env, op, vm, both) }

  /** What a host call does to gas and contexts. */
  lemma AnswerSteps(env: Env, op: nat, vm: Vm, both: Both)
    ensures var c := Answer(env, op, vm, both);
      && c.vm.gas <= vm.gas
      && (c.exit == Continue ==> 0 <= c.vm.gas <= vm.gas - BASE_COST)
      && c.addition.y == (if op == CHECKPOINT && c.exit == Continue then both.x else both.y)
      && (c.addition.x == both.x
          || exists call ::
            c.addition.x == Apply(Setting(env.slot, env.expunge, both.y.privileges.bless), both.x, call).1)
  {
    var charged := vm.(gas := vm.gas - BASE_COST);
    if charged.gas >= 0 && Offered(op) && op != CHECKPOINT && !Modelled(op) {
      var f := env.foreign(op, charged, both);
      if f.privileges.Some? {
        assert Apply(Setting(env.slot, env.expunge, both.y.privileges.bless), both.x,
          CallPrivileges(f.privileges.value)).1
            == both.x.(privileges := f.privileges.value);
      }
    }
  }
}
