/**
 * Programs that bring the host down: a jump to an address outside the code, a jump table whose entries cannot be read,
 * or an instruction whose registers were never decoded is a fault of the host, which nothing handles. Whether a
 * program can do so depends on its blob alone.
 */
module Crashes {
  import opened Words
  import opened Opcodes
  import opened PageTables
  import opened ProgramCode
  import opened Instructions
  import opened BlockInfo
  import opened Invocation
  import opened Refinement

  /** An entry of the jump table that a program can reach, but that is too wide or lies past the data. */
  predicate BadEntry(jumps: JumpTable, j: nat)
  {
    && 2 * (j + 1) <= Wrap32(jumps.size * 2) && 2 * (j + 1) != 0xffff_0000
    && (jumps.length > 8 || j * jumps.length + jumps.length > |jumps.data|)
  }

  ghost predicate BadTable(jumps: JumpTable) { exists j: nat :: BadEntry(jumps, j) }

  /** An entry of the array that brings the host down in no state. */
  ghost predicate Harmless(prog: Program, i: InstrMeta)
  {
    && RegistersExist(CachedArgs(i))
    && match CachedArgs(i)
       case AOff(t) => t < |prog.code|
       case ARegImmOff(_, x, t) => ImmMayBe(i.opcode, x, true) ==> t < |prog.code|
       case AReg2Off(a, b, t) => RegMayBe(i.opcode, a == b, true) ==> t < |prog.code|
       case ARegImm(_, _) => i.opcode == JUMP_IND ==> !BadTable(prog.jumps)
       case AReg2Imm2(_, _, _, _) => !BadTable(prog.jumps)
       case _ => true
  }

  ghost predicate AllHarmless(prog: Program, d: Decoded)
  {
    forall k | 0 <= k < |d.instrs| :: Harmless(prog, d.instrs[k])
  }

  /** No run of the fast interpreter brings the host down, wherever it starts. */
  ghost predicate NeverCrashes(alu: Alu, prog: Program, d: Decoded)
    requires |prog.code| == |prog.mask| && WellDecoded(prog, d)
  {
    forall pc: nat, vm :: FastRun(alu, prog, d, pc, vm).exit != Crash
  }

  /** Only a bad entry makes a jump through the table fail. */
  lemma GoodTableJumps(prog: Program, pc: nat, a: u32)
    requires !BadTable(prog.jumps)
    ensures DJump(prog, pc, a).0 != Crash
  {
    if a >= 2 { assert !BadEntry(prog.jumps, a / 2 - 1); }
  }

  lemma BadTableFails(prog: Program, pc: nat) returns (a: u32)
    requires BadTable(prog.jumps)
    ensures DJump(prog, pc, a).0 == Crash
  {
    var j: nat :| BadEntry(prog.jumps, j);
    a := 2 * (j + 1);
  }

  /** Only a target outside the code makes a branch fail. */
  lemma BranchFails(prog: Program, pc: nat, t: nat)
    requires |prog.code| == |prog.mask|
    ensures Branch(prog, pc, t, true).0 == Crash <==> t >= |prog.code|
  {}

  lemma HarmlessRuns(alu: Alu, prog: Program, i: InstrMeta, vm: Vm)
    requires |prog.code| == |prog.mask| && Harmless(prog, i)
    ensures Execute(alu, prog, i.opcode, CachedArgs(i), i.pc, vm).0 != Crash
  {
    match CachedArgs(i)
    case AOff(t) => BranchFails(prog, i.pc, t);
    case ARegImmOff(r, x, t) =>
      CornersSuffice(i.opcode, vm.regs[r], x);
      BranchFails(prog, i.pc, t);
    case AReg2Off(a, b, t) =>
      PairsSuffice(i.opcode, vm.regs[a], vm.regs[b], a == b);
      BranchFails(prog, i.pc, t);
    case ARegImm(r, x) => if i.opcode == JUMP_IND { GoodTableJumps(prog, i.pc, Wrap32(vm.regs[r] + x)); }
    case AReg2Imm2(_, b, _, y) => GoodTableJumps(prog, i.pc, Wrap32(vm.regs[b] + y));
    case _ =>
  }

  /** A state in which an entry that is not harmless brings the host down. */
  lemma HarmShows(alu: Alu, prog: Program, i: InstrMeta) returns (vm: Vm)
    requires |prog.code| == |prog.mask| && !Harmless(prog, i)
    ensures Execute(alu, prog, i.opcode, CachedArgs(i), i.pc, vm).0 == Crash
  {
    vm := VmOf(AllRegisters(0));
    if RegistersExist(CachedArgs(i)) {
      match CachedArgs(i)
      case AOff(t) => BranchFails(prog, i.pc, t);
      case ARegImmOff(r, x, t) => vm := ImmHarm(alu, prog, i, r, x, t);
      case AReg2Off(a, b, t) => vm := RegHarm(alu, prog, i, a, b, t);
      case ARegImm(_, x) => vm := TableHarm(alu, prog, i, x);
      case AReg2Imm2(_, _, _, y) => vm := TableHarm(alu, prog, i, y);
    }
  }

  lemma ImmHarm(alu: Alu, prog: Program, i: InstrMeta, r: nat, x: u64, t: u32) returns (vm: Vm)
    requires |prog.code| == |prog.mask| && CachedArgs(i) == ARegImmOff(r, x, t) && r < 13
    requires ImmMayBe(i.opcode, x, true) && t >= |prog.code|
    ensures Execute(alu, prog, i.opcode, CachedArgs(i), i.pc, vm).0 == Crash
  {
    var v: u64 :| v in [x, 0, TWO64 - 1, TWO63, TWO63 - 1] && ImmCondition(i.opcode, v, x);
    vm := VmOf(AllRegisters(v));
    assert vm.regs[r] == v;
    BranchFails(prog, i.pc, t);
  }

  lemma RegHarm(alu: Alu, prog: Program, i: InstrMeta, a: nat, b: nat, t: u32) returns (vm: Vm)
    requires |prog.code| == |prog.mask| && CachedArgs(i) == AReg2Off(a, b, t) && a < 13 && b < 13
    requires RegMayBe(i.opcode, a == b, true) && t >= |prog.code|
    ensures Execute(alu, prog, i.opcode, CachedArgs(i), i.pc, vm).0 == Crash
  {
    var regs: Registers := AllRegisters(0);
    vm := VmOf(if RegCondition(i.opcode, 0, 0) then regs else regs[b := 1]);
    BranchFails(prog, i.pc, t);
  }

  lemma TableHarm(alu: Alu, prog: Program, i: InstrMeta, x: u64) returns (vm: Vm)
    requires |prog.code| == |prog.mask| && RegistersExist(CachedArgs(i)) && BadTable(prog.jumps)
    requires (CachedArgs(i).ARegImm? && i.opcode == JUMP_IND && x == CachedArgs(i).x)
      || (CachedArgs(i).AReg2Imm2? && x == CachedArgs(i).y)
    ensures Execute(alu, prog, i.opcode, CachedArgs(i), i.pc, vm).0 == Crash
  {
    var a := BadTableFails(prog, i.pc);
    AddressHit(a, x);
    vm := VmOf(AllRegisters(SubWrap(a, x)));
  }

  /** Runs of harmless programs end otherwise. */
  lemma {:induction false} HarmlessRun(alu: Alu, prog: Program, d: Decoded, pc: nat, vm: Vm)
    requires |prog.code| == |prog.mask| && WellDecoded(prog, d) && AllHarmless(prog, d)
    ensures FastRun(alu, prog, d, pc, vm).exit != Crash
    decreases Max(vm.gas, 0), 1
  {
    if pc < |prog.code| && d.instrIdxAt[pc] >= 0 {
      IndexInRange(prog, d, pc);
      HarmlessFrom(alu, prog, d, d.instrIdxAt[pc], vm);
    }
  }

  lemma {:induction false} HarmlessFrom(alu: Alu, prog: Program, d: Decoded, k: nat, vm: Vm)
    requires |prog.code| == |prog.mask| && WellDecoded(prog, d) && AllHarmless(prog, d) && k < |d.instrs|
    ensures FastFrom(alu, prog, d, k, vm).exit != Crash
    decreases Max(vm.gas, 0), 0
  {
    var i := d.instrs[k];
    assert Harmless(prog, i);
    HarmlessRuns(alu, prog, i, Burn(vm));
    var s := FastStep(alu, prog, i, vm);
    if s.Go? {
      FastGoesOn(alu, prog, d, k, vm, s.next, s.vm);
      HarmlessRun(alu, prog, d, Onward(i, s.next), s.vm);
    }
  }

  /** The condition is exact: a program never brings the host down if and only if every entry is harmless. */
  lemma CrashIsExact(alu: Alu, prog: Program, d: Decoded)
    requires |prog.code| == |prog.mask| && WellDecoded(prog, d)
    ensures NeverCrashes(alu, prog, d) <==> AllHarmless(prog, d)
  {
    if AllHarmless(prog, d) {
      forall pc: nat, vm ensures FastRun(alu, prog, d, pc, vm).exit != Crash { HarmlessRun(alu, prog, d, pc, vm); }
    } else {
      var k: nat :| k < |d.instrs| && !Harmless(prog, d.instrs[k]);
      var i := d.instrs[k];
      var vm := HarmShows(alu, prog, i);
      GasIsCarried(alu, prog, i.opcode, CachedArgs(i), i.pc, vm, 0);
      FastRunAt(alu, prog, d, k, vm.(gas := 1));
      assert FastRun(alu, prog, d, i.pc, vm.(gas := 1)).exit == Crash;
    }
  }

  /** Five times `fallthrough` and a `jump` far beyond the end, where programs are entered. */
  function StrayJump(): Program { Program([1, 1, 1, 1, 1, JUMP, 127], [3, 3, 3, 3, 3, 3, 0], JumpTable([], 0, 0)) }

  lemma StrayJumpCrashes(alu: Alu, d: Decoded, vm: Vm)
    requires WellDecoded(StrayJump(), d) && vm.gas >= 1
    ensures WellMasked(StrayJump().code, StrayJump().mask)
    ensures FastRun(alu, StrayJump(), d, 5, vm).exit == Crash
  {
    var prog := StrayJump();
    StrayMask();
    StartIsDecoded(prog, d, 5);
    IndexInRange(prog, d, 5);
    var k := d.instrIdxAt[5];
    EntryIsMeta(prog, d, k);
    StrayTarget(prog);
    FastRunAt(alu, prog, d, k, vm);
  }

  lemma StrayMask()
    ensures WellMasked(StrayJump().code, StrayJump().mask) && Skip(StrayJump().mask, 5) == 1
  {
    var prog := StrayJump();
    forall i: nat | i < 7 ensures MarkOk(prog.code, prog.mask, i) {}
    assert NextStart(prog.mask, 7) == 7;
  }

  lemma StrayTarget(prog: Program)
    requires prog == StrayJump()
    ensures CachedArgs(DecodeOperands(prog.code, 5, 1)) == AOff(132)
  {
    assert prog.code[6..7] == [127];
    assert FromBytes([127]) == 127;
  }
}
