/**
 * When the two interpreters agree: an exact condition on the program blob, which can be checked before the program
 * runs, and programs that fail it.
 */
module Refinement {
  import opened Words
  import opened Opcodes
  import opened PageTables
  import opened ProgramCode
  import opened Instructions
  import opened BlockInfo
  import opened Invocation

  /** Falling through leads out of the code or to a decoded instruction. */
  predicate FallsOn(prog: Program, d: Decoded, i: InstrMeta)
  {
    i.pc + i.skipLen + 1 >= |prog.code| || IsDecoded(d, i.pc + i.skipLen + 1)
  }

  /** A jump to t goes to a block start or is refused; a jump to itself falls through. */
  predicate LandsWell(prog: Program, d: Decoded, i: InstrMeta, t: nat)
  {
    if IsStartOfBasicBlock(prog.mask, t) then t == i.pc ==> FallsOn(prog, d, i)
    else t >= |prog.code| || IsValidOpcode(prog.code[t])
  }

  /** Some register value makes a comparison with an immediate come out this way; corner values show it. */
  predicate ImmMayBe(op: byte, x: u64, holds: bool)
  {
    || ImmCondition(op, x, x) == holds || ImmCondition(op, 0, x) == holds || ImmCondition(op, TWO64 - 1, x) == holds
    || ImmCondition(op, TWO63, x) == holds || ImmCondition(op, TWO63 - 1, x) == holds
  }

  /** Some values of two registers, or of one compared with itself, make a comparison come out this way. */
  predicate RegMayBe(op: byte, same: bool, holds: bool)
  {
    RegCondition(op, 0, 0) == holds || (!same && RegCondition(op, 0, 1) == holds)
  }

  /** The jump table lists the instruction at pc. */
  ghost predicate Listed(prog: Program, pc: nat) { exists a: u32 :: DJump(prog, pc, a) == (Continue, pc) }

  /** What an entry of the array must meet for the interpreters to agree. */
  ghost predicate Fine(prog: Program, d: Decoded, i: InstrMeta)
  {
    if BareFinalJump(prog, i) then !IsStartOfBasicBlock(prog.mask, 0)
    else
      match CachedArgs(i)
      case AImm(x) => x < 0x100_0000_0000_0000
      case ANone => i.opcode == FALLTHROUGH ==> FallsOn(prog, d, i)
      case AOff(t) => LandsWell(prog, d, i, t)
      case ARegImm(_, _) => i.opcode == JUMP_IND && Listed(prog, i.pc) ==> FallsOn(prog, d, i)
      case AReg2Imm2(_, _, _, _) => Listed(prog, i.pc) ==> FallsOn(prog, d, i)
      case ARegImmOff(_, x, t) =>
        && (ImmMayBe(i.opcode, x, true) ==> LandsWell(prog, d, i, t))
        && (ImmMayBe(i.opcode, x, false) ==> FallsOn(prog, d, i))
      case AReg2Off(a, b, t) =>
        && (RegMayBe(i.opcode, a == b, true) ==> LandsWell(prog, d, i, t))
        && (RegMayBe(i.opcode, a == b, false) ==> FallsOn(prog, d, i))
      case _ => true
  }

  ghost predicate AllFine(prog: Program, d: Decoded)
  {
    forall k | 0 <= k < |d.instrs| :: Fine(prog, d, d.instrs[k])
  }

  lemma CornersSuffice(op: byte, r: u64, x: u64)
    requires 80 <= op <= 90
    ensures ImmMayBe(op, x, ImmCondition(op, r, x))
  {}

  lemma PairsSuffice(op: byte, r: u64, s: u64, same: bool)
    requires 170 <= op <= 175 && (same ==> r == s)
    ensures RegMayBe(op, same, RegCondition(op, r, s))
  {}

  /** Every block start is decoded. */
  lemma StartIsDecoded(prog: Program, d: Decoded, p: nat)
    requires |prog.code| == |prog.mask| && WellDecoded(prog, d) && IsStartOfBasicBlock(prog.mask, p)
    ensures IsDecoded(d, p)
  {
    assert MarkedAt(prog.mask, d.blockAt, |prog.code|, -1, p);
    assert BlockAtOk(d.instrs, d.blockAt, p);
    assert PointsBack(d.instrs, d.instrIdxAt, d.blockAt[p].value.instrStart);
  }

  /** A decoded instruction is a valid one. */
  lemma DecodedIsValid(prog: Program, d: Decoded, p: nat)
    requires |prog.code| == |prog.mask| && WellDecoded(prog, d) && IsDecoded(d, p)
    ensures p < |prog.code| && IsValidOpcode(prog.code[p])
  {
    IndexInRange(prog, d, p);
    EntryIsMeta(prog, d, d.instrIdxAt[p]);
  }

  lemma RegistersDecoded(code: seq<byte>, pc: nat, skip: nat)
    requires pc < |code| && DecodeArgs(code, pc, skip).Some?
    ensures RegistersExist(DecodeArgs(code, pc, skip).value)
  {}

  /** The target of a static jump, if the operands have one. */
  function StaticTarget(args: Args): Option<nat>
  {
    match args
    case AOff(target) => Some(target)
    case ARegImmOff(_, _, target) => Some(target)
    case AReg2Off(_, _, target) => Some(target)
    case _ => None
  }

  /** Jumps through the jump table. */
  predicate UsesTable(i: InstrMeta) { (CachedArgs(i).ARegImm? && i.opcode == JUMP_IND) || CachedArgs(i).AReg2Imm2? }

  /** What is known of an entry whose cache is right. */
  predicate WellShaped(prog: Program, d: Decoded, i: InstrMeta)
  {
    && IsValidOpcode(i.opcode) && ArgsFit(i.opcode, CachedArgs(i)) && RegistersExist(CachedArgs(i))
    && i.pc < |prog.code| && IsValidOpcode(prog.code[i.pc])
    && (!IsBlockTerminator(i.opcode) ==> FallsOn(prog, d, i))
  }

  lemma EntryShape(prog: Program, d: Decoded, k: nat)
    requires |prog.code| == |prog.mask| && WellDecoded(prog, d) && k < |d.instrs| && CacheOk(prog, d.instrs[k])
    ensures WellShaped(prog, d, d.instrs[k])
  {
    var i := d.instrs[k];
    EntryIsMeta(prog, d, k);
    ShapeOfCache(i);
    RegistersDecoded(prog.code, i.pc, Skip(prog.mask, i.pc));
    if !IsBlockTerminator(i.opcode) {
      assert !Ends(d.instrs, k);
      NotLast(prog, d, k);
      EntryIsMeta(prog, d, k + 1);
    }
  }

  /** Where a jump leads. */
  lemma BranchLands(prog: Program, d: Decoded, i: InstrMeta, t: nat)
    requires |prog.code| == |prog.mask| && WellDecoded(prog, d) && i.pc < |prog.code| && IsValidOpcode(prog.code[i.pc])
    ensures var (exit, next) := Branch(prog, i.pc, t, true);
      && !exit.Garbled?
      && (LandsWell(prog, d, i, t) <==> (exit == Continue ==>
            var on := Onward(i, next);
            on >= |prog.code| || IsDecoded(d, on)))
  {
    if IsStartOfBasicBlock(prog.mask, t) {
      StartIsDecoded(prog, d, t);
    } else if IsDecoded(d, t) {
      DecodedIsValid(prog, d, t);
    }
  }

  /** Where a jump through the table leads. */
  lemma DJumpLands(prog: Program, d: Decoded, i: InstrMeta, a: u32)
    requires |prog.code| == |prog.mask| && WellDecoded(prog, d) && (Listed(prog, i.pc) ==> FallsOn(prog, d, i))
    ensures var (exit, next) := DJump(prog, i.pc, a);
      && !exit.Garbled?
      && (exit == Continue ==>
            var on := Onward(i, next);
            on >= |prog.code| || IsDecoded(d, on))
  {
    var (exit, next) := DJump(prog, i.pc, a);
    if exit == Continue { StartIsDecoded(prog, d, next); }
  }

  /** Fine entries stay in the decoded code in every state: first branches, then jumps through the table. */
  lemma BranchStays(alu: Alu, prog: Program, d: Decoded, i: InstrMeta, vm: Vm, t: u32)
    requires |prog.code| == |prog.mask| && WellDecoded(prog, d) && WellShaped(prog, d, i) && !BareFinalJump(prog, i)
    requires StaticTarget(CachedArgs(i)) == Some(t) && Fine(prog, d, i)
    ensures StaysDecoded(alu, prog, d, i, vm)
  {
    BranchLands(prog, d, i, t);
    match CachedArgs(i)
    case ARegImmOff(r, x, _) => CornersSuffice(i.opcode, vm.regs[r], x);
    case AReg2Off(a, b, _) => PairsSuffice(i.opcode, vm.regs[a], vm.regs[b], a == b);
    case _ =>
  }

  lemma TableStays(alu: Alu, prog: Program, d: Decoded, i: InstrMeta, vm: Vm)
    requires |prog.code| == |prog.mask| && WellDecoded(prog, d) && WellShaped(prog, d, i) && !BareFinalJump(prog, i)
    requires UsesTable(i) && Fine(prog, d, i)
    ensures StaysDecoded(alu, prog, d, i, vm)
  {
    match CachedArgs(i)
    case ARegImm(r, x) => DJumpLands(prog, d, i, Wrap32(vm.regs[r] + x));
    case AReg2Imm2(_, b, _, y) => DJumpLands(prog, d, i, Wrap32(vm.regs[b] + y));
    case _ =>
  }

  lemma OthersStay(alu: Alu, prog: Program, d: Decoded, i: InstrMeta, vm: Vm)
    requires |prog.code| == |prog.mask| && WellDecoded(prog, d) && WellShaped(prog, d, i) && !BareFinalJump(prog, i)
    requires !UsesTable(i) && StaticTarget(CachedArgs(i)).None? && Fine(prog, d, i)
    ensures StaysDecoded(alu, prog, d, i, vm)
  {
    OnlyTerminatorsJump(alu, prog, i.opcode, CachedArgs(i), i.pc, vm);
  }

  lemma FineStays(alu: Alu, prog: Program, d: Decoded, k: nat, vm: Vm)
    requires |prog.code| == |prog.mask| && WellDecoded(prog, d) && k < |d.instrs| && CacheOk(prog, d.instrs[k])
    requires !BareFinalJump(prog, d.instrs[k]) && Fine(prog, d, d.instrs[k])
    ensures StaysDecoded(alu, prog, d, d.instrs[k], vm)
  {
    var i := d.instrs[k];
    EntryShape(prog, d, k);
    if UsesTable(i) {
      TableStays(alu, prog, d, i, vm);
    } else if StaticTarget(CachedArgs(i)).Some? {
      BranchStays(alu, prog, d, i, vm, StaticTarget(CachedArgs(i)).value);
    } else {
      OthersStay(alu, prog, d, i, vm);
    }
  }

  function AllRegisters(v: u64): Registers { seq(13, _ => v) }

  function VmOf(regs: Registers): Vm { Vm(regs, Mem(map[], 0, 0), 0) }

  /** The register value at which a sum is a given address. */
  lemma AddressHit(a: u32, x: u64)
    ensures Wrap32(SubWrap(a, x) + x) == a
  {
    assert SubWrap(a, x) == if x <= a then a - x else a - x + TWO64;
  }

  /** An entry that is not fine leaves the decoded code in some state. */
  lemma NotFineLeaves(alu: Alu, prog: Program, d: Decoded, k: nat) returns (vm: Vm)
    requires |prog.code| == |prog.mask| && WellDecoded(prog, d) && k < |d.instrs| && CacheOk(prog, d.instrs[k])
    requires !BareFinalJump(prog, d.instrs[k]) && !Fine(prog, d, d.instrs[k])
    ensures !StaysDecoded(alu, prog, d, d.instrs[k], vm)
  {
    var i := d.instrs[k];
    EntryShape(prog, d, k);
    match CachedArgs(i)
    case ARegImmOff(r, x, t) => vm := ImmLeaves(alu, prog, d, i, r, x, t);
    case AReg2Off(a, b, t) => vm := RegLeaves(alu, prog, d, i, a, b, t);
    case ARegImm(_, _) => vm := TableLeaves(alu, prog, d, i);
    case AReg2Imm2(_, _, _, _) => vm := TableLeaves(alu, prog, d, i);
    case _ =>
      vm := VmOf(AllRegisters(0));
      OthersLeave(alu, prog, d, i, vm);
  }

  lemma TableLeaves(alu: Alu, prog: Program, d: Decoded, i: InstrMeta) returns (vm: Vm)
    requires |prog.code| == |prog.mask| && WellDecoded(prog, d) && WellShaped(prog, d, i) && !BareFinalJump(prog, i)
    requires (CachedArgs(i).ARegImm? || CachedArgs(i).AReg2Imm2?) && !Fine(prog, d, i)
    ensures !StaysDecoded(alu, prog, d, i, vm)
  {
    var a: u32 :| DJump(prog, i.pc, a) == (Continue, i.pc);
    var x := if CachedArgs(i).ARegImm? then CachedArgs(i).x else CachedArgs(i).y;
    AddressHit(a, x);
    vm := VmOf(AllRegisters(SubWrap(a, x)));
  }

  lemma OthersLeave(alu: Alu, prog: Program, d: Decoded, i: InstrMeta, vm: Vm)
    requires |prog.code| == |prog.mask| && WellDecoded(prog, d) && WellShaped(prog, d, i) && !BareFinalJump(prog, i)
    requires (CachedArgs(i).ANone? || CachedArgs(i).AImm? || CachedArgs(i).AOff?) && !Fine(prog, d, i)
    ensures !StaysDecoded(alu, prog, d, i, vm)
  {
    if CachedArgs(i).AOff? { BranchLands(prog, d, i, CachedArgs(i).target); }
  }

  lemma ImmLeaves(alu: Alu, prog: Program, d: Decoded, i: InstrMeta, r: nat, x: u64, t: u32) returns (vm: Vm)
    requires |prog.code| == |prog.mask| && WellDecoded(prog, d) && i.pc < |prog.code| && IsValidOpcode(prog.code[i.pc])
    requires CachedArgs(i) == ARegImmOff(r, x, t) && r < 13 && !BareFinalJump(prog, i) && !Fine(prog, d, i)
    ensures !StaysDecoded(alu, prog, d, i, vm)
  {
    BranchLands(prog, d, i, t);
    var taken := ImmMayBe(i.opcode, x, true) && !LandsWell(prog, d, i, t);
    var v: u64 :| v in [x, 0, TWO64 - 1, TWO63, TWO63 - 1] && ImmCondition(i.opcode, v, x) == taken;
    vm := VmOf(AllRegisters(v));
    assert vm.regs[r] == v;
  }

  lemma RegLeaves(alu: Alu, prog: Program, d: Decoded, i: InstrMeta, a: nat, b: nat, t: u32) returns (vm: Vm)
    requires |prog.code| == |prog.mask| && WellDecoded(prog, d) && i.pc < |prog.code| && IsValidOpcode(prog.code[i.pc])
    requires CachedArgs(i) == AReg2Off(a, b, t) && a < 13 && b < 13 && !BareFinalJump(prog, i) && !Fine(prog, d, i)
    ensures !StaysDecoded(alu, prog, d, i, vm)
  {
    BranchLands(prog, d, i, t);
    var taken := RegMayBe(i.opcode, a == b, true) && !LandsWell(prog, d, i, t);
    var regs: Registers := AllRegisters(0);
    if RegCondition(i.opcode, 0, 0) == taken {
      vm := VmOf(regs);
    } else {
      vm := VmOf(regs[b := 1]);
    }
  }

  /** With one unit of gas, a bare final `jump` to a block at 0 shows. */
  lemma BareJumpShows(alu: Alu, prog: Program, d: Decoded, k: nat, one: Vm)
    requires |prog.code| == |prog.mask| && WellDecoded(prog, d) && |prog.code| < TWO32 && one.gas == 1
    requires k < |d.instrs| && BareFinalJump(prog, d.instrs[k]) && IsStartOfBasicBlock(prog.mask, 0)
    ensures !AgreesFrom(alu, prog, d, k, one)
  {
    BareJumpOperands(prog, d, k);
    BareJumpInPlace(alu, prog, d.instrs[k].pc, one);
    FastGoesOn(alu, prog, d, k, one, 0, Burn(one));
    StartIsDecoded(prog, d, 0);
    IndexInRange(prog, d, 0);
  }

  /**
   * The refinement is exact: the two interpreters agree from every decoded instruction and in every state if and only
   * if every entry of the array is fine, which depends on the blob alone.
   */
  lemma RefinementIsExact(alu: Alu, prog: Program, d: Decoded)
    requires |prog.code| == |prog.mask| && WellDecoded(prog, d) && OperandsInside(prog, d)
    ensures AlwaysAgrees(alu, prog, d) <==> AllFine(prog, d)
  {
    if AllFine(prog, d) {
      AllFineAgrees(alu, prog, d);
    } else {
      var k: nat :| k < |d.instrs| && !Fine(prog, d, d.instrs[k]);
      CacheAt(prog, d, k);
      var vm: Vm := VmOf(AllRegisters(0));
      if BareFinalJump(prog, d.instrs[k]) {
        BareJumpShows(alu, prog, d, k, vm.(gas := 1));
      } else {
        vm := NotFineLeaves(alu, prog, d, k);
        LeavingShows(alu, prog, d, k, vm);
      }
      assert !AgreesFrom(alu, prog, d, k, vm.(gas := 1));
    }
  }

  lemma AllFineAgrees(alu: Alu, prog: Program, d: Decoded)
    requires |prog.code| == |prog.mask| && WellDecoded(prog, d) && OperandsInside(prog, d) && AllFine(prog, d)
    ensures AlwaysAgrees(alu, prog, d)
  {
    forall k, vm | 0 <= k < |d.instrs| ensures StepsTogether(alu, prog, d, d.instrs[k], vm) {
      CacheAt(prog, d, k);
      assert Fine(prog, d, d.instrs[k]);
      if !BareFinalJump(prog, d.instrs[k]) { FineStays(alu, prog, d, k, vm); }
    }
    forall k, vm | 0 <= k < |d.instrs| ensures AgreesFrom(alu, prog, d, k, vm) {
      FastRefinesSimple(alu, prog, d, k, vm);
    }
  }

  /** No instruction is longer than the cut of `skip`. */
  ghost predicate NoLongInstruction(mask: Bitmask)
  {
    forall pc: nat | IsStartOfInstruction(mask, pc) :: NextStart(mask, pc + 1) - pc - 1 <= 24
  }

  /** A static jump goes to a block start, or is refused, or is no jump at all. */
  predicate TargetVetted(prog: Program, i: InstrMeta)
  {
    match StaticTarget(CachedArgs(i))
    case None => true
    case Some(t) => t == i.pc || IsStartOfBasicBlock(prog.mask, t) || t >= |prog.code| || IsValidOpcode(prog.code[t])
  }

  /** No bare `jump` at the end of the code, static jumps to block starts, host calls numbered without a sign. */
  predicate EntryVetted(prog: Program, i: InstrMeta)
  {
    !BareFinalJump(prog, i) && TargetVetted(prog, i) && (i.opcode == ECALLI ==> i.imm0 < TWO63)
  }

  /** The conditions usually met by compiled code; they are sufficient. */
  ghost predicate Vetted(prog: Program, d: Decoded)
    requires |prog.code| == |prog.mask|
  {
    && OperandsInside(prog, d) && NoLongInstruction(prog.mask)
    && forall k | 0 <= k < |d.instrs| :: EntryVetted(prog, d.instrs[k])
  }

  /** Without long instructions, decoded instructions are those marked as starts in the bitmask. */
  lemma {:induction false} EntriesAreStarts(prog: Program, d: Decoded, k: nat)
    requires |prog.code| == |prog.mask| && WellDecoded(prog, d) && NoLongInstruction(prog.mask) && k < |d.instrs|
    ensures IsStartOfInstruction(prog.mask, d.instrs[k].pc)
  {
    EntryIsMeta(prog, d, k);
    if Begins(d.instrs, k) {
      assert CoverAt(d.instrs, d.blockAt, -1, k);
      assert MarkedAt(prog.mask, d.blockAt, |prog.code|, -1, d.instrs[k].pc);
    } else {
      EntriesAreStarts(prog, d, k - 1);
      NotLast(prog, d, k - 1);
    }
  }

  /** Without long instructions, what follows a decoded terminator is the end or a block start. */
  lemma TerminatorsFallOn(prog: Program, d: Decoded, k: nat)
    requires WellMasked(prog.code, prog.mask) && WellDecoded(prog, d) && NoLongInstruction(prog.mask)
    requires k < |d.instrs| && Ends(d.instrs, k)
    ensures FallsOn(prog, d, d.instrs[k])
  {
    EntryIsMeta(prog, d, k);
    EntriesAreStarts(prog, d, k);
    var on := NextPc(prog.mask, d.instrs[k].pc);
    if on < |prog.code| {
      PrevStartAfterSkip(prog.mask, d.instrs[k].pc);
      assert MarkOk(prog.code, prog.mask, on);
      StartIsDecoded(prog, d, on);
    }
  }

  /** An immediate of at most four bytes that is not negative is small. */
  lemma SmallImmediate(code: seq<byte>, pc: nat, skip: nat)
    requires pc < |code| && code[pc] == ECALLI && DecodeArgs(code, pc, skip).Some?
    ensures DecodeArgs(code, pc, skip).value.AImm?
    ensures DecodeArgs(code, pc, skip).value.x < TWO63 ==> DecodeArgs(code, pc, skip).value.x < 0x100_0000_0000_0000
  {
    var n := Min(4, skip);
    Pow256Monotone(n, 4);
    assert Pow256(4) == TWO32 by {
      assert Pow256(1) == 256;
      assert Pow256(2) == 256 * Pow256(1);
      assert Pow256(3) == 256 * Pow256(2);
    }
  }

  lemma VettedIsFine(prog: Program, d: Decoded, k: nat)
    requires WellMasked(prog.code, prog.mask) && WellDecoded(prog, d) && Vetted(prog, d) && k < |d.instrs|
    ensures Fine(prog, d, d.instrs[k])
  {
    var i := d.instrs[k];
    assert EntryVetted(prog, i);
    CacheAt(prog, d, k);
    EntryShape(prog, d, k);
    EntryIsMeta(prog, d, k);
    if Ends(d.instrs, k) { TerminatorsFallOn(prog, d, k); }
    if i.opcode == ECALLI { SmallImmediate(prog.code, i.pc, Skip(prog.mask, i.pc)); }
  }

  /** The refinement, for a program whose blob can be vetted before it runs. */
  lemma VettedProgramsAgree(alu: Alu, prog: Program, d: Decoded, pc: nat, vm: Vm)
    requires WellMasked(prog.code, prog.mask) && WellDecoded(prog, d) && Vetted(prog, d)
    requires IsDecoded(d, pc) || pc >= |prog.code|
    ensures Agree(prog, FastRun(alu, prog, d, pc, vm), SimpleRun(alu, prog, pc, vm))
  {
    forall k | 0 <= k < |d.instrs| ensures Fine(prog, d, d.instrs[k]) { VettedIsFine(prog, d, k); }
    AllFineAgrees(alu, prog, d);
    if pc < |prog.code| {
      IndexInRange(prog, d, pc);
      assert AgreesFrom(alu, prog, d, d.instrIdxAt[pc], vm);
    }
  }

  /** A `fallthrough` with 26 bytes behind it: the cut of `skip` at 24 leaves the decoded code. */
  function LongFallthrough(): Program
  {
    Program([FALLTHROUGH] + seq<byte>(26, _ => 0), [3] + seq<byte>(26, _ => 0), JumpTable([], 0, 0))
  }

  lemma LongInstructionsDisagree(alu: Alu, d: Decoded)
    requires WellDecoded(LongFallthrough(), d) && OperandsInside(LongFallthrough(), d)
    ensures WellMasked(LongFallthrough().code, LongFallthrough().mask) && !AlwaysAgrees(alu, LongFallthrough(), d)
  {
    var prog := LongFallthrough();
    forall i: nat | i < 27 ensures MarkOk(prog.code, prog.mask, i) {}
    NoStartsLater(prog.mask, 1);
    StartIsDecoded(prog, d, 0);
    IndexInRange(prog, d, 0);
    var k := d.instrIdxAt[0];
    EntryIsMeta(prog, d, k);
    NothingDecodedAt25(prog, d, k);
    assert !Fine(prog, d, d.instrs[k]);
    RefinementIsExact(alu, prog, d);
  }

  lemma {:induction false} NoStartsLater(mask: Bitmask, i: nat)
    requires i <= |mask| && forall j | i <= j < |mask| :: mask[j] == 0
    ensures NextStart(mask, i) == |mask|
    decreases |mask| - i
  {
    if i < |mask| { NoStartsLater(mask, i + 1); }
  }

  /** With no block start but 0, the terminator at 0 is the only entry. */
  lemma NothingDecodedAt25(prog: Program, d: Decoded, k: nat)
    requires prog == LongFallthrough() && WellDecoded(prog, d) && k < |d.instrs| && d.instrs[k].pc == 0
    ensures !IsDecoded(d, 25)
  {
    EntryIsMeta(prog, d, k);
    var first := k == 0 || Before(d.instrs, 0, k);
    var covered := |d.instrs| <= 1 || CoverAt(d.instrs, d.blockAt, -1, 1);
    var later := |d.instrs| <= 1 || Before(d.instrs, 0, 1);
    assert Ends(d.instrs, 0);
    assert forall p | 0 < p < 27 :: MarkedAt(prog.mask, d.blockAt, 27, -1, p) ==> d.blockAt[p].None?;
    assert forall p | 0 < p < 27 :: MarkedAt(prog.mask, d.blockAt, 27, -1, p);
    assert PointsTo(d.instrs, d.instrIdxAt, 25);
  }

  /** A `fallthrough` and a `jump` without operands, which ends the code. */
  function BareJump(): Program { Program([FALLTHROUGH, JUMP], [3, 3], JumpTable([], 0, 0)) }

  /** In place it jumps to itself, and so falls off the code; from the cache it jumps to 0. */
  lemma BareJumpsDisagree(alu: Alu, d: Decoded)
    requires WellDecoded(BareJump(), d) && OperandsInside(BareJump(), d)
    ensures WellMasked(BareJump().code, BareJump().mask) && !AlwaysAgrees(alu, BareJump(), d)
  {
    var prog := BareJump();
    assert PrevStart(prog.mask, 1) == 0;
    forall i: nat | i < 2 ensures MarkOk(prog.code, prog.mask, i) {}
    StartIsDecoded(prog, d, 1);
    IndexInRange(prog, d, 1);
    var k := d.instrIdxAt[1];
    EntryIsMeta(prog, d, k);
    assert !Fine(prog, d, d.instrs[k]);
    RefinementIsExact(alu, prog, d);
  }
}
