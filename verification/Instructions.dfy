/** Operand decoding, operand caching in instruction metadata, and what each instruction does. */
module Instructions {
  import opened Words
  import opened Opcodes
  import opened PageTables
  import opened ProgramCode

  /** The operands of an instruction, one constructor per operand category. */
  datatype Args =
    | ANone
    | AImm(x: u64)
    | ARegExt(r: nat, x: u64)
    | AImm2(x: u64, y: u64)
    | AOff(target: u32)
    | ARegImm(r: nat, x: u64)
    | ARegImm2(r: nat, x: u64, y: u64)
    | ARegImmOff(r: nat, x: u64, target: u32)
    | AReg2(d: nat, a: nat)
    | AReg2Imm(a: nat, b: nat, x: u64)
    | AReg2Off(a: nat, b: nat, target: u32)
    | AReg2Imm2(a: nat, b: nat, x: u64, y: u64)
    | AReg3(a: nat, b: nat, d: nat)

  function RegLow(b: byte): nat { Min(12, b % 16) }

  function RegHigh(b: byte): nat { Min(12, b / 16) }

  /** An unsigned immediate of n <= 8 bytes. */
  function Unsigned(code: seq<byte>, at: nat, n: nat): u64
    requires n <= 8 && at + n <= |code|
  {
    WordBound(code[at..at + n]);
    FromBytes(code[at..at + n])
  }

  function Signed(code: seq<byte>, at: nat, n: nat): u64
    requires n <= 8 && at + n <= |code|
  {
    SignExtend(n, Unsigned(code, at, n))
  }

  /** Immediate width left by an instruction of the given length; the subtraction wraps as 32-bit words do. */
  function WidthLeft(skip: nat, used: nat): nat { Min(4, Wrap32(skip - used)) }

  /** The operands of the instruction at pc; None if they reach outside the code. */
  function DecodeArgs(code: seq<byte>, pc: nat, skip: nat): Option<Args>
    requires pc < |code|
  {
    var n := |code|;
    match CategoryOf(code[pc])
    case Invalid => Some(ANone)
    case NoArg => Some(ANone)
    case OneImm =>
      var lx := Min(4, skip);
      if pc + 1 + lx > n then None else Some(AImm(Signed(code, pc + 1, lx)))
    case OneRegExtImm =>
      if pc + 10 > n then None else Some(ARegExt(RegLow(code[pc + 1]), Unsigned(code, pc + 2, 8)))
    case TwoImm =>
      if pc + 1 >= n then None else
      var lx := Min(4, code[pc + 1]);
      var ly := WidthLeft(skip, lx + 1);
      if pc + 2 + lx + ly > n then None else Some(AImm2(Signed(code, pc + 2, lx), Signed(code, pc + 2 + lx, ly)))
    case OneOffset =>
      var lx := Min(4, skip);
      if pc + 1 + lx > n then None else Some(AOff(Wrap32(pc + Signed(code, pc + 1, lx))))
    case OneRegOneImm =>
      var lx := WidthLeft(skip, 1);
      if pc + 2 + lx > n then None else Some(ARegImm(RegLow(code[pc + 1]), Signed(code, pc + 2, lx)))
    case OneRegTwoImm =>
      if pc + 1 >= n then None else
      var lx := Min(4, code[pc + 1] / 16);
      var ly := WidthLeft(skip, lx + 1);
      if pc + 2 + lx + ly > n then None
      else Some(ARegImm2(RegLow(code[pc + 1]), Signed(code, pc + 2, lx), Signed(code, pc + 2 + lx, ly)))
    case OneRegImmOff =>
      if pc + 1 >= n then None else
      var lx := Min(4, (code[pc + 1] / 16) % 8);
      var ly := WidthLeft(skip, lx + 1);
      if pc + 2 + lx + ly > n then None
      else Some(ARegImmOff(RegLow(code[pc + 1]), Signed(code, pc + 2, lx), Wrap32(pc + Signed(code, pc + 2 + lx, ly))))
    case TwoReg =>
      if pc + 1 >= n then None else Some(AReg2(RegLow(code[pc + 1]), RegHigh(code[pc + 1])))
    case TwoRegOneImm =>
      var lx := WidthLeft(skip, 1);
      if pc + 2 + lx > n then None
      else Some(AReg2Imm(RegLow(code[pc + 1]), RegHigh(code[pc + 1]), Signed(code, pc + 2, lx)))
    case TwoRegOneOff =>
      var lx := WidthLeft(skip, 1);
      if pc + 2 + lx > n then None
      else Some(AReg2Off(RegLow(code[pc + 1]), RegHigh(code[pc + 1]), Wrap32(pc + Signed(code, pc + 2, lx))))
    case TwoRegTwoImm =>
      if pc + 2 >= n then None else
      var lx := Min(4, code[pc + 2] % 8);
      var ly := WidthLeft(skip, lx + 2);
      if pc + 3 + lx + ly > n then None
      else Some(AReg2Imm2(RegLow(code[pc + 1]), RegHigh(code[pc + 1]), Unsigned(code, pc + 3, lx),
        Unsigned(code, pc + 3 + lx, ly)))
    case ThreeReg =>
      if pc + 2 >= n then None
      else Some(AReg3(RegLow(code[pc + 1]), RegHigh(code[pc + 1]), Min(12, code[pc + 2])))
  }

  /** Pre-decoded metadata of one instruction. Register index 255 means none. */
  datatype InstrMeta = InstrMeta(
    pc: nat, opcode: byte, skipLen: nat, dst: nat, src0: nat, src1: nat, imm0: u64, imm1: u64)

  /** Operands laid out in the shared fields of the metadata. */
  function LayOut(m: InstrMeta, args: Args): (r: InstrMeta)
    ensures r.pc == m.pc && r.opcode == m.opcode && r.skipLen == m.skipLen
  {
    match args
    case ANone => m
    case AImm(x) => m.(imm0 := x)
    case ARegExt(r, x) => m.(dst := r, imm0 := x)
    case AImm2(x, y) => m.(imm0 := x, imm1 := y)
    case AOff(target) => m.(imm0 := target)
    case ARegImm(r, x) => m.(dst := r, src0 := r, imm0 := x)
    case ARegImm2(r, x, y) => m.(dst := r, src0 := r, imm0 := x, imm1 := y)
    case ARegImmOff(r, x, target) => m.(dst := r, src0 := r, imm0 := x, imm1 := target)
    case AReg2(d, a) => m.(dst := d, src0 := a)
    case AReg2Imm(a, b, x) => m.(dst := a, src0 := b, imm0 := x)
    case AReg2Off(a, b, target) => m.(src0 := a, src1 := b, imm0 := target)
    case AReg2Imm2(a, b, x, y) => m.(dst := a, src0 := b, imm0 := x, imm1 := y)
    case AReg3(a, b, d) => m.(dst := d, src0 := a, src1 := b)
  }

  /** Pre-decoding: no operands are decoded when the opcode is the last byte of the code. */
  function DecodeOperands(code: seq<byte>, pc: nat, skip: nat): (m: InstrMeta)
    requires pc < |code|
    ensures m.pc == pc && m.opcode == code[pc] && m.skipLen == skip
  {
    var op := code[pc];
    var blank := InstrMeta(pc, op, skip, 255, 255, 255, 0, 0);
    if CategoryOf(op) != NoArg && pc + 1 >= |code| then blank
    else if op == ECALLI && skip < 1 then blank
    else if DecodeArgs(code, pc, skip).None? then blank
    else LayOut(blank, DecodeArgs(code, pc, skip).value)
  }

  /** The operands a pre-decoded handler takes from the metadata. */
  function CachedArgs(i: InstrMeta): Args
  {
    match CategoryOf(i.opcode)
    case Invalid => ANone
    case NoArg => ANone
    case OneImm => AImm(i.imm0)
    case OneRegExtImm => ARegExt(i.dst, i.imm0)
    case TwoImm => AImm2(i.imm0, i.imm1)
    case OneOffset => AOff(Wrap32(i.imm0))
    case OneRegOneImm => ARegImm(if i.opcode == JUMP_IND then i.src0 else i.dst, i.imm0)
    case OneRegTwoImm => ARegImm2(i.src0, i.imm0, i.imm1)
    case OneRegImmOff => ARegImmOff(i.src0, i.imm0, Wrap32(i.imm1))
    case TwoReg => AReg2(i.dst, i.src0)
    case TwoRegOneImm => AReg2Imm(i.dst, i.src0, i.imm0)
    case TwoRegOneOff => AReg2Off(i.src0, i.src1, Wrap32(i.imm0))
    case TwoRegTwoImm => AReg2Imm2(i.dst, i.src0, i.imm0, i.imm1)
    case ThreeReg => AReg3(i.src0, i.src1, i.dst)
  }

  /** The operands have the shape of the opcode's category. */
  predicate ArgsFit(op: byte, args: Args)
  {
    match CategoryOf(op)
    case Invalid => args.ANone?
    case NoArg => args.ANone?
    case OneImm => args.AImm?
    case OneRegExtImm => args.ARegExt?
    case TwoImm => args.AImm2?
    case OneOffset => args.AOff?
    case OneRegOneImm => args.ARegImm?
    case OneRegTwoImm => args.ARegImm2?
    case OneRegImmOff => args.ARegImmOff?
    case TwoReg => args.AReg2?
    case TwoRegOneImm => args.AReg2Imm?
    case TwoRegOneOff => args.AReg2Off?
    case TwoRegTwoImm => args.AReg2Imm2?
    case ThreeReg => args.AReg3?
  }

  lemma ArgsHaveShape(code: seq<byte>, pc: nat, skip: nat, i: InstrMeta)
    requires pc < |code|
    ensures DecodeArgs(code, pc, skip).Some? ==> ArgsFit(code[pc], DecodeArgs(code, pc, skip).value)
    ensures ArgsFit(i.opcode, CachedArgs(i))
  {}

  /** What is laid out for a category is what the handlers of that category take. */
  lemma LayOutReadBack(m: InstrMeta, args: Args)
    requires ArgsFit(m.opcode, args)
    ensures CachedArgs(LayOut(m, args)) == args
  {}

  /** Operands of no width. */
  lemma NoWidth(code: seq<byte>, pc: nat)
    requires pc < |code|
    ensures code[pc] == ECALLI ==> DecodeArgs(code, pc, 0) == Some(AImm(0))
    ensures code[pc] == JUMP ==> DecodeArgs(code, pc, 0) == Some(AOff(Wrap32(pc)))
  {
    assert code[pc + 1..pc + 1] == [];
  }

  /**
   * The cache is faithful: unless the operands reach outside the code, the handlers see what
   * decoding in place would give them, except for a bare `jump` as the last byte of the code,
   * whose cached target is 0 while in place it is the jump itself.
   */
  lemma CacheIsFaithful(code: seq<byte>, pc: nat, skip: nat)
    requires pc < |code| < TWO32 && pc + skip < |code| && DecodeArgs(code, pc, skip).Some?
    ensures CachedArgs(DecodeOperands(code, pc, skip)) == DecodeArgs(code, pc, skip).value
       <==> !(code[pc] == JUMP && pc + 1 == |code| && pc != 0)
  {
    var op := code[pc];
    var blank := InstrMeta(pc, op, skip, 255, 255, 255, 0, 0);
    ArgsHaveShape(code, pc, skip, blank);
    if CategoryOf(op) != NoArg && (pc + 1 >= |code| || (op == ECALLI && skip < 1)) {
      NoWidth(code, pc);
      if pc + 1 >= |code| && IsValidOpcode(op) { NoRoomAfterOpcode(code, pc); }
    } else {
      LayOutReadBack(blank, DecodeArgs(code, pc, skip).value);
    }
  }

  /** Only ecalli and jump decode when nothing follows the opcode. */
  lemma NoRoomAfterOpcode(code: seq<byte>, pc: nat)
    requires pc + 1 == |code| && IsValidOpcode(code[pc])
    requires CategoryOf(code[pc]) != NoArg && DecodeArgs(code, pc, 0).Some?
    ensures code[pc] == ECALLI || code[pc] == JUMP
  {}

  type Registers = s: seq<u64> | |s| == 13 witness seq<u64>(13, _ => 0)

  /** The state an instruction acts on. */
  datatype Vm = Vm(regs: Registers, mem: Mem, gas: int)

  /** The arithmetic and logic unit: results of the register-to-register opcodes not spelled out below. */
  datatype Alu = Alu(unary: (byte, u64) -> u64, imm: (byte, u64, u64, u64) -> u64, binary: (byte, u64, u64, u64) -> u64)

  predicate RegistersExist(a: Args)
  {
    match a
    case ARegExt(r, _) => r < 13
    case ARegImm(r, _) => r < 13
    case ARegImm2(r, _, _) => r < 13
    case ARegImmOff(r, _, _) => r < 13
    case AReg2(d, r) => d < 13 && r < 13
    case AReg2Imm(r, s, _) => r < 13 && s < 13
    case AReg2Off(r, s, _) => r < 13 && s < 13
    case AReg2Imm2(r, s, _, _) => r < 13 && s < 13
    case AReg3(r, s, d) => r < 13 && s < 13 && d < 13
    case _ => true
  }

  const WIDTHS: seq<nat> := [1, 2, 4, 8]
  const LOAD_WIDTHS: seq<nat> := [1, 1, 2, 2, 4, 4, 8]

  /** What an instruction asks of memory. */
  datatype MemoryUse =
    | NoUse
    | Store(size: nat, address: u32, word: u64)
    | Load(size: nat, signed: bool, r: nat, address: u32)
    | Grow(d: nat, amount: u64)

  /** Stores come in families of four widths. */
  function StoreUse(kind: int, address: u32, word: u64): MemoryUse
  {
    if 0 <= kind < 4 then Store(WIDTHS[kind], address, word) else NoUse
  }

  /** Loads come in families of seven; the odd ones sign-extend. */
  function LoadUse(kind: int, r: nat, address: u32): MemoryUse
  {
    if 0 <= kind < 7 then Load(LOAD_WIDTHS[kind], kind % 2 == 1, r, address) else NoUse
  }

  function UseOf(op: byte, args: Args, regs: Registers): (use: MemoryUse)
    requires RegistersExist(args)
    ensures use.Store? ==> use.size in {1, 2, 4, 8}
    ensures use.Load? ==> use.size in {1, 2, 4, 8} && use.r < 13
    ensures use.Grow? ==> use.d < 13
  {
    match args
    case AImm2(x, y) => StoreUse(op - 30, Wrap32(x), y)
    case ARegImm(r, x) =>
      if op <= 58 then LoadUse(op - 52, r, Wrap32(x)) else StoreUse(op - 59, Wrap32(x), regs[r])
    case ARegImm2(r, x, y) => StoreUse(op - 70, Wrap32(regs[r] + x), y)
    case AReg2(d, a) => if op == SBRK then Grow(d, regs[a]) else NoUse
    case AReg2Imm(a, b, x) =>
      if op <= 123 then StoreUse(op - 120, Wrap32(regs[b] + x), regs[a]) else LoadUse(op - 124, a, Wrap32(regs[b] + x))
    case _ => NoUse
  }

  function Extended(size: nat, signed: bool, word: u64): u64 { if signed then SignExtend(size, word) else word }

  predicate ImmCondition(op: byte, r: u64, x: u64)
  {
    match op
    case 80 => true
    case 81 => r == x
    case 82 => r != x
    case 83 => r < x
    case 84 => r <= x
    case 85 => r >= x
    case 86 => r > x
    case 87 => Signed64(r) < Signed64(x)
    case 88 => Signed64(r) <= Signed64(x)
    case 89 => Signed64(r) >= Signed64(x)
    case _ => Signed64(r) > Signed64(x)
  }

  predicate RegCondition(op: byte, r: u64, s: u64)
  {
    match op
    case 170 => r == s
    case 171 => r != s
    case 172 => r < s
    case 173 => Signed64(r) < Signed64(s)
    case 174 => r >= s
    case _ => Signed64(r) >= Signed64(s)
  }

  /** An instruction that does not use memory: exit reason, next counter, new registers. */
  function ExecuteOnRegisters(alu: Alu, prog: Program, op: byte, args: Args, pc: nat, regs: Registers): (Exit, nat,
        Registers)
    requires |prog.mask| == |prog.code| && RegistersExist(args)
  {
    match args
    case ANone => (if op == FALLTHROUGH then Continue else Panic, pc, regs)
    case AImm(x) => (if x < 0x100_0000_0000_0000 then HostCall(x) else Garbled(x), pc, regs)
    case ARegExt(r, x) => (Continue, pc, regs[r := x])
    case AImm2(x, y) => (Panic, pc, regs)
    case AOff(target) =>
      var (exit, next) := Branch(prog, pc, target, true);
      (exit, next, regs)
    case ARegImm(r, x) =>
      if op == JUMP_IND then
        var (exit, next) := DJump(prog, pc, Wrap32(regs[r] + x));
        (exit, next, regs)
      else if op == LOAD_IMM then (Continue, pc, regs[r := x])
      else (Panic, pc, regs)
    case ARegImm2(r, x, y) => (Panic, pc, regs)
    case ARegImmOff(r, x, target) =>
      var (exit, next) := Branch(prog, pc, target, ImmCondition(op, regs[r], x));
      (exit, next, if op == LOAD_IMM_JUMP then regs[r := x] else regs)
    case AReg2(d, a) =>
      (Continue, pc, regs[d := if op == MOVE_REG then regs[a] else alu.unary(op, regs[a])])
    case AReg2Imm(a, b, x) =>
      (Continue, pc, regs[a := if op == ADD_IMM_64 then AddWrap(regs[b], x) else alu.imm(op, regs[a], regs[b], x)])
    case AReg2Off(a, b, target) =>
      var (exit, next) := Branch(prog, pc, target, RegCondition(op, regs[a], regs[b]));
      (exit, next, regs)
    case AReg2Imm2(a, b, x, y) =>
      var (exit, next) := DJump(prog, pc, Wrap32(regs[b] + y));
      (exit, next, regs[a := x])
    case AReg3(a, b, d) =>
      (Continue, pc, regs[d := if op == ADD_64 then AddWrap(regs[a], regs[b])
        else alu.binary(op, regs[a], regs[b], regs[d])])
  }

  /** One instruction on given operands: exit reason, next counter (pc itself for "fall through"), new state. */
  function Execute(alu: Alu, prog: Program, op: byte, args: Args, pc: nat, vm: Vm): (r: (Exit, nat, Vm))
    requires |prog.mask| == |prog.code|
    ensures r.2.gas == vm.gas
  {
    if !RegistersExist(args) then (Crash, pc, vm)
    else
      match UseOf(op, args, vm.regs)
      case Store(size, address, word) =>
        var (exit, pages) := Stored(vm.mem.pages, size, address, word);
        (exit, pc, vm.(mem := vm.mem.(pages := pages)))
      case Load(size, signed, r, address) =>
        var (exit, word) := Loaded(vm.mem.pages, size, address);
        (exit, pc, if exit == Continue then vm.(regs := vm.regs[r := Extended(size, signed, word)]) else vm)
      case Grow(d, amount) =>
        var (mem, result) := Sbrk(vm.mem, amount);
        (Continue, pc, vm.(mem := mem, regs := vm.regs[d := result]))
      case NoUse =>
        var (exit, next, regs) := ExecuteOnRegisters(alu, prog, op, args, pc, vm.regs);
        (exit, next, vm.(regs := regs))
  }

  /** Only block terminators move the program counter, and only to a vetted or invalid target. */
  lemma OnlyTerminatorsJump(alu: Alu, prog: Program, op: byte, args: Args, pc: nat, vm: Vm)
    requires |prog.mask| == |prog.code|
    requires ArgsFit(op, args)
    ensures var (exit, next, _) := Execute(alu, prog, op, args, pc, vm);
      && (next != pc ==> IsBlockTerminator(op) && exit == Continue)
      && (next != pc && !IsStartOfBasicBlock(prog.mask, next) ==>
            next < |prog.code| && !IsValidOpcode(prog.code[next]))
      && (exit.HostCall? || exit.Garbled? ==> op == ECALLI)
      && exit != OutOfGas
  {}
}
