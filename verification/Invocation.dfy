/**
 * The two interpreters. The simple one decodes the instruction at the counter each time; the fast
 * one runs along the pre-decoded array, block after block.
 */
module Invocation {
  import opened Words
  import opened Opcodes
  import opened PageTables
  import opened PagedMemory
  import opened ProgramCode
  import opened Instructions
  import opened BlockInfo

  datatype Outcome = Outcome(exit: Exit, pc: nat, vm: Vm)

  function Burn(vm: Vm): Vm { vm.(gas := vm.gas - 1) }

  /** Bodies of unknown opcodes trap; operands outside the code are a fault of the host. */
  function ExecuteAt(alu: Alu, prog: Program, pc: nat, vm: Vm): (r: (Exit, nat, Vm))
    requires pc < |prog.code| == |prog.mask|
    ensures r.2.gas == vm.gas
  {
    var op := prog.code[pc];
    if !IsValidOpcode(op) then (Panic, pc, vm)
    else
      match DecodeArgs(prog.code, pc, Skip(prog.mask, pc))
      case None => (Crash, pc, vm)
      case Some(args) => Execute(alu, prog, op, args, pc, vm)
  }

  /** One step of the simple interpreter. */
  function SimpleStep(alu: Alu, prog: Program, pc: nat, vm: Vm): (o: Outcome)
    requires |prog.code| == |prog.mask|
    ensures o.exit == Continue ==> vm.gas >= 1
    ensures pc < |prog.code| && vm.gas >= 1 ==> o.vm.gas == vm.gas - 1
    ensures pc >= |prog.code| || vm.gas < 1 ==> o.vm == vm
  {
    if pc >= |prog.code| then Outcome(Panic, pc, vm)
    else if vm.gas < 1 then Outcome(OutOfGas, pc, vm)
    else
      var (exit, next, vm') := ExecuteAt(alu, prog, pc, Burn(vm));
      if exit in {Panic, Halt, Crash} then Outcome(exit, 0, vm')
      else if exit.HostCall? then Outcome(exit, next, vm')
      else if pc != next then Outcome(exit, next, vm')
      else Outcome(exit, next + Skip(prog.mask, pc) + 1, vm')
  }

  /** The simple interpreter, to its first exit. */
  function SimpleRun(alu: Alu, prog: Program, pc: nat, vm: Vm): (o: Outcome)
    requires |prog.code| == |prog.mask|
    decreases Max(vm.gas, 0)
  {
    var o := SimpleStep(alu, prog, pc, vm);
    if o.exit == Continue then SimpleRun(alu, prog, o.pc, o.vm)
    else if o.exit in {Panic, Halt, Crash} then Outcome(o.exit, 0, o.vm)
    else o
  }

  datatype Step = Stop(outcome: Outcome) | Go(next: nat, vm: Vm)

  /** The fast interpreter on one entry. Exits it does not know count as going on. */
  function FastStep(alu: Alu, prog: Program, i: InstrMeta, vm: Vm): (s: Step)
    requires |prog.code| == |prog.mask|
    ensures s.Go? ==> vm.gas >= 1
    ensures vm.gas >= 1 ==> (if s.Go? then s.vm.gas else s.outcome.vm.gas) == vm.gas - 1
    ensures vm.gas < 1 ==> s == Stop(Outcome(OutOfGas, i.pc, vm))
  {
    if vm.gas < 1 then Stop(Outcome(OutOfGas, i.pc, vm))
    else
      var (exit, next, vm') := Execute(alu, prog, i.opcode, CachedArgs(i), i.pc, Burn(vm));
      match exit
      case Halt => Stop(Outcome(Halt, 0, vm'))
      case Panic => Stop(Outcome(Panic, 0, vm'))
      case Crash => Stop(Outcome(Crash, 0, vm'))
      case PageFault(a) => Stop(Outcome(PageFault(a), i.pc, vm'))
      case OutOfGas => Stop(Outcome(OutOfGas, i.pc, vm'))
      case HostCall(id) => Stop(Outcome(HostCall(id), i.pc + i.skipLen + 1, vm'))
      case _ => Go(next, vm')
  }

  /** The fast interpreter at a counter: on to the array, if there is a decoded instruction. */
  function FastRun(alu: Alu, prog: Program, d: Decoded, pc: nat, vm: Vm): (o: Outcome)
    requires |prog.code| == |prog.mask| && WellDecoded(prog, d)
    decreases Max(vm.gas, 0), 1
  {
    if pc >= |prog.code| || d.instrIdxAt[pc] < 0 then Outcome(Panic, 0, vm)
    else
      IndexInRange(prog, d, pc);
      FastFrom(alu, prog, d, d.instrIdxAt[pc], vm)
  }

  /** The fast interpreter at entry k of the array. */
  function FastFrom(alu: Alu, prog: Program, d: Decoded, k: nat, vm: Vm): (o: Outcome)
    requires |prog.code| == |prog.mask| && WellDecoded(prog, d) && k < |d.instrs|
    decreases Max(vm.gas, 0), 0
  {
    var i := d.instrs[k];
    match FastStep(alu, prog, i, vm)
    case Stop(outcome) => outcome
    case Go(next, vm') =>
      if next != i.pc then FastRun(alu, prog, d, next, vm')
      else if Ends(d.instrs, k) then FastRun(alu, prog, d, i.pc + i.skipLen + 1, vm')
      else
        NotLast(prog, d, k);
        FastFrom(alu, prog, d, k + 1, vm')
  }

  lemma IndexInRange(prog: Program, d: Decoded, pc: nat)
    requires |prog.code| == |prog.mask| && WellDecoded(prog, d) && pc < |prog.code| && d.instrIdxAt[pc] >= 0
    ensures d.instrIdxAt[pc] < |d.instrs| && d.instrs[d.instrIdxAt[pc]].pc == pc
  {
    assert PointsTo(d.instrs, d.instrIdxAt, pc);
  }

  /** Every block ends before the array does. */
  lemma NotLast(prog: Program, d: Decoded, k: nat)
    requires |prog.code| == |prog.mask| && WellDecoded(prog, d) && k < |d.instrs| && !Ends(d.instrs, k)
    ensures d.instrs[k].pc < |prog.mask|
    ensures k + 1 < |d.instrs| && d.instrs[k + 1].pc == NextPc(prog.mask, d.instrs[k].pc)
  {
    assert EntryAt(prog.code, prog.mask, d.instrs, |prog.code|, k);
    if k + 1 < |d.instrs| { assert LinkAt(prog.mask, d.instrs, k); }
  }

  lemma EntryIsMeta(prog: Program, d: Decoded, k: nat)
    requires |prog.code| == |prog.mask| && WellDecoded(prog, d) && k < |d.instrs|
    ensures d.instrs[k].pc < |prog.code| && IsValidOpcode(prog.code[d.instrs[k].pc])
    ensures d.instrs[k].opcode == prog.code[d.instrs[k].pc]
    ensures d.instrs[k].skipLen == Skip(prog.mask, d.instrs[k].pc)
    ensures d.instrs[k] == DecodeOperands(prog.code, d.instrs[k].pc, Skip(prog.mask, d.instrs[k].pc))
    ensures d.instrIdxAt[d.instrs[k].pc] == k
  {
    assert EntryAt(prog.code, prog.mask, d.instrs, |prog.code|, k);
    assert PointsBack(d.instrs, d.instrIdxAt, k);
  }

  predicate IsDecoded(d: Decoded, pc: nat) { pc < |d.instrIdxAt| && d.instrIdxAt[pc] >= 0 }

  /** How the exits of the two interpreters correspond: counters differ on host calls and page faults. */
  ghost predicate Agree(prog: Program, fast: Outcome, simple: Outcome)
    requires |prog.code| == |prog.mask|
  {
    && fast.exit == simple.exit && fast.vm == simple.vm
    && match simple.exit
       case HostCall(_) => simple.pc < |prog.code| && fast.pc == NextPc(prog.mask, simple.pc)
       case PageFault(_) => fast.pc < |prog.code| && simple.pc == NextPc(prog.mask, fast.pc)
       case _ => fast.pc == simple.pc
  }

  /** The counter at which a run goes on after an instruction that left the counter at next. */
  function Onward(i: InstrMeta, next: nat): nat { if next != i.pc then next else i.pc + i.skipLen + 1 }

  /** The cached operands of entry k are those decoded in place. */
  ghost predicate CacheOk(prog: Program, i: InstrMeta)
    requires |prog.code| == |prog.mask|
  {
    i.pc < |prog.code| && DecodeArgs(prog.code, i.pc, Skip(prog.mask, i.pc)) == Some(CachedArgs(i))
  }

  /**
   * Executing an instruction in a given state leads on only to counters that are decoded
   * or outside the code, and does not end in a garbled exit.
   */
  ghost predicate StaysDecoded(alu: Alu, prog: Program, d: Decoded, i: InstrMeta, vm: Vm)
    requires |prog.code| == |prog.mask|
  {
    var (exit, next, _) := Execute(alu, prog, i.opcode, CachedArgs(i), i.pc, vm);
    && !exit.Garbled?
    && (exit == Continue ==>
          var on := Onward(i, next);
          on >= |prog.code| || IsDecoded(d, on))
  }

  /** The last byte of the code is a `jump` without operands: its cached target is 0, while in place it is itself. */
  predicate BareFinalJump(prog: Program, i: InstrMeta)
  {
    i.opcode == JUMP && i.pc + 1 == |prog.code| && i.pc != 0
  }

  /** The two interpreters take an instruction in the same way in a given state. */
  ghost predicate StepsTogether(alu: Alu, prog: Program, d: Decoded, i: InstrMeta, vm: Vm)
    requires |prog.code| == |prog.mask|
  {
    if BareFinalJump(prog, i) then !IsStartOfBasicBlock(prog.mask, 0) else StaysDecoded(alu, prog, d, i, vm)
  }

  ghost predicate AlwaysStepsTogether(alu: Alu, prog: Program, d: Decoded)
    requires |prog.code| == |prog.mask|
  {
    forall k, vm | 0 <= k < |d.instrs| :: StepsTogether(alu, prog, d, d.instrs[k], vm)
  }

  /** No operands reach outside the code, whose addresses are 32-bit words. */
  ghost predicate OperandsInside(prog: Program, d: Decoded)
    requires |prog.code| == |prog.mask|
  {
    |prog.code| < TWO32 && forall k | 0 <= k < |d.instrs| :: DecodesAt(prog, d.instrs[k].pc)
  }

  predicate DecodesAt(prog: Program, pc: nat)
    requires |prog.code| == |prog.mask|
  {
    pc < |prog.code| && DecodeArgs(prog.code, pc, Skip(prog.mask, pc)).Some?
  }

  lemma CacheAt(prog: Program, d: Decoded, k: nat)
    requires |prog.code| == |prog.mask| && WellDecoded(prog, d) && OperandsInside(prog, d) && k < |d.instrs|
    ensures CacheOk(prog, d.instrs[k]) <==> !BareFinalJump(prog, d.instrs[k])
  {
    EntryIsMeta(prog, d, k);
    assert DecodesAt(prog, d.instrs[k].pc);
    CacheIsFaithful(prog.code, d.instrs[k].pc, Skip(prog.mask, d.instrs[k].pc));
  }

  /** The fast interpreter refines the simple one, from every decoded instruction and state. */
  lemma {:induction false} FastRefinesSimple(alu: Alu, prog: Program, d: Decoded, k: nat, vm: Vm)
    requires |prog.code| == |prog.mask| && WellDecoded(prog, d) && OperandsInside(prog, d)
    requires AlwaysStepsTogether(alu, prog, d) && k < |d.instrs|
    ensures AgreesFrom(alu, prog, d, k, vm)
    decreases Max(vm.gas, 0)
  {
    var i := d.instrs[k];
    EntryIsMeta(prog, d, k);
    CacheAt(prog, d, k);
    assert StepsTogether(alu, prog, d, i, Burn(vm));
    if BareFinalJump(prog, i) {
      BareJumpFails(alu, prog, d, k, vm);
    } else if vm.gas >= 1 {
      var (exit, next, vm') := Execute(alu, prog, i.opcode, CachedArgs(i), i.pc, Burn(vm));
      if exit == Continue {
        var on := Onward(i, next);
        ContinueAt(alu, prog, d, k, vm, next, vm');
        if on < |prog.code| {
          IndexInRange(prog, d, on);
          FastRefinesSimple(alu, prog, d, d.instrIdxAt[on], vm');
        }
      } else {
        StopAt(alu, prog, d, k, vm);
      }
    }
  }

  /** What a bare final `jump` decodes to in place and in the cache. */
  lemma BareJumpOperands(prog: Program, d: Decoded, k: nat)
    requires |prog.code| == |prog.mask| && WellDecoded(prog, d) && |prog.code| < TWO32
    requires k < |d.instrs| && BareFinalJump(prog, d.instrs[k])
    ensures var i := d.instrs[k];
      && prog.code[i.pc] == JUMP && i.skipLen == Skip(prog.mask, i.pc) == 0
      && CachedArgs(i) == AOff(0) && DecodeArgs(prog.code, i.pc, 0) == Some(AOff(i.pc))
  {
    EntryIsMeta(prog, d, k);
    NoWidth(prog.code, d.instrs[k].pc);
    Small32(d.instrs[k].pc);
  }

  /** In place, a bare final `jump` ends in a panic: it goes to itself, and so falls off the code, or it is refused. */
  lemma BareJumpInPlace(alu: Alu, prog: Program, pc: nat, vm: Vm)
    requires |prog.code| == |prog.mask| && pc + 1 == |prog.code| < TWO32 && prog.code[pc] == JUMP && vm.gas >= 1
    requires DecodeArgs(prog.code, pc, 0) == Some(AOff(pc)) && Skip(prog.mask, pc) == 0
    ensures SimpleRun(alu, prog, pc, vm) == Outcome(Panic, 0, Burn(vm))
  {
    assert ExecuteAt(alu, prog, pc, Burn(vm)) == (Branch(prog, pc, pc, true).0, pc, Burn(vm));
    if IsStartOfBasicBlock(prog.mask, pc) {
      assert SimpleStep(alu, prog, pc, vm) == Outcome(Continue, pc + 1, Burn(vm));
      assert SimpleRun(alu, prog, pc + 1, Burn(vm)) == Outcome(Panic, 0, Burn(vm));
    }
  }

  /** From the cache it fails likewise if 0 starts no block. */
  lemma BareJumpFails(alu: Alu, prog: Program, d: Decoded, k: nat, vm: Vm)
    requires |prog.code| == |prog.mask| && WellDecoded(prog, d) && |prog.code| < TWO32
    requires k < |d.instrs| && BareFinalJump(prog, d.instrs[k]) && !IsStartOfBasicBlock(prog.mask, 0)
    ensures AgreesFrom(alu, prog, d, k, vm)
  {
    var i := d.instrs[k];
    BareJumpOperands(prog, d, k);
    if vm.gas >= 1 {
      BareJumpInPlace(alu, prog, i.pc, vm);
      if !IsValidOpcode(prog.code[0]) {
        if IsDecoded(d, 0) {
          IndexInRange(prog, d, 0);
          EntryIsMeta(prog, d, d.instrIdxAt[0]);
        }
        FastGoesOn(alu, prog, d, k, vm, 0, Burn(vm));
      }
    }
  }

  ghost predicate AgreesFrom(alu: Alu, prog: Program, d: Decoded, k: nat, vm: Vm)
    requires |prog.code| == |prog.mask| && WellDecoded(prog, d) && k < |d.instrs|
  {
    Agree(prog, FastFrom(alu, prog, d, k, vm), SimpleRun(alu, prog, d.instrs[k].pc, vm))
  }

  ghost predicate AlwaysAgrees(alu: Alu, prog: Program, d: Decoded)
    requires |prog.code| == |prog.mask| && WellDecoded(prog, d)
  {
    forall k, vm | 0 <= k < |d.instrs| :: AgreesFrom(alu, prog, d, k, vm)
  }

  /** If the instruction does not continue, both interpreters stop there, each at its own counter. */
  lemma StopAt(alu: Alu, prog: Program, d: Decoded, k: nat, vm: Vm)
    requires |prog.code| == |prog.mask| && WellDecoded(prog, d) && k < |d.instrs| && vm.gas >= 1
    requires CacheOk(prog, d.instrs[k])
    requires var i := d.instrs[k];
      var exit := Execute(alu, prog, i.opcode, CachedArgs(i), i.pc, Burn(vm)).0;
      exit != Continue && !exit.Garbled?
    ensures Agree(prog, FastFrom(alu, prog, d, k, vm), SimpleRun(alu, prog, d.instrs[k].pc, vm))
  {
    var i := d.instrs[k];
    EntryIsMeta(prog, d, k);
    ShapeOfCache(i);
    OnlyTerminatorsJump(alu, prog, i.opcode, CachedArgs(i), i.pc, Burn(vm));
  }

  lemma ShapeOfCache(i: InstrMeta)
    ensures ArgsFit(i.opcode, CachedArgs(i))
  {}

  /** After a continuing instruction, both interpreters go on at the same counter. */
  lemma ContinueAt(alu: Alu, prog: Program, d: Decoded, k: nat, vm: Vm, next: nat, vm': Vm)
    requires |prog.code| == |prog.mask| && WellDecoded(prog, d) && k < |d.instrs| && vm.gas >= 1
    requires CacheOk(prog, d.instrs[k])
    requires Execute(alu, prog, d.instrs[k].opcode, CachedArgs(d.instrs[k]), d.instrs[k].pc, Burn(vm))
      == (Continue, next, vm')
    ensures var i := d.instrs[k];
      var on := Onward(i, next);
      && FastFrom(alu, prog, d, k, vm) == FastRun(alu, prog, d, on, vm')
      && SimpleStep(alu, prog, i.pc, vm) == Outcome(Continue, on, vm')
  {
    var i := d.instrs[k];
    EntryIsMeta(prog, d, k);
    assert ExecuteAt(alu, prog, i.pc, Burn(vm)) == (Continue, next, vm');
    FastGoesOn(alu, prog, d, k, vm, next, vm');
  }

  /** Running from the counter of an entry is running from that entry. */
  lemma FastRunAt(alu: Alu, prog: Program, d: Decoded, k: nat, vm: Vm)
    requires |prog.code| == |prog.mask| && WellDecoded(prog, d) && k < |d.instrs|
    ensures FastRun(alu, prog, d, d.instrs[k].pc, vm) == FastFrom(alu, prog, d, k, vm)
  {
    EntryIsMeta(prog, d, k);
  }

  /** Within a block, going on is going on at the next entry. */
  lemma FastGoesNext(alu: Alu, prog: Program, d: Decoded, k: nat, vm: Vm, vm': Vm)
    requires |prog.code| == |prog.mask| && WellDecoded(prog, d) && k < |d.instrs| && !Ends(d.instrs, k)
    requires FastStep(alu, prog, d.instrs[k], vm) == Go(d.instrs[k].pc, vm')
    ensures k + 1 < |d.instrs| && FastFrom(alu, prog, d, k, vm) == FastFrom(alu, prog, d, k + 1, vm')
  {
    NotLast(prog, d, k);
  }

  /** Going on from an entry is going on at the counter after it. */
  lemma FastGoesOn(alu: Alu, prog: Program, d: Decoded, k: nat, vm: Vm, next: nat, vm': Vm)
    requires |prog.code| == |prog.mask| && WellDecoded(prog, d) && k < |d.instrs|
    requires FastStep(alu, prog, d.instrs[k], vm) == Go(next, vm')
    ensures FastFrom(alu, prog, d, k, vm) == FastRun(alu, prog, d, Onward(d.instrs[k], next), vm')
  {
    if next == d.instrs[k].pc && !Ends(d.instrs, k) {
      EntryIsMeta(prog, d, k);
      NotLast(prog, d, k);
      FastGoesNext(alu, prog, d, k, vm, vm');
      FastRunAt(alu, prog, d, k + 1, vm');
    }
  }

  /** Gas is only carried along by an instruction. */
  lemma GasIsCarried(alu: Alu, prog: Program, op: byte, args: Args, pc: nat, vm: Vm, gas: int)
    requires |prog.code| == |prog.mask|
    ensures var (exit, next, vm') := Execute(alu, prog, op, args, pc, vm);
      Execute(alu, prog, op, args, pc, vm.(gas := gas)) == (exit, next, vm'.(gas := gas))
  {}

  /** With one unit of gas, the two interpreters tell that an instruction left the decoded code. */
  lemma LeavingShows(alu: Alu, prog: Program, d: Decoded, k: nat, vm: Vm)
    requires |prog.code| == |prog.mask| && WellDecoded(prog, d) && k < |d.instrs|
    requires CacheOk(prog, d.instrs[k]) && !StaysDecoded(alu, prog, d, d.instrs[k], vm)
    ensures !AgreesFrom(alu, prog, d, k, vm.(gas := 1))
  {
    var i := d.instrs[k];
    var (exit, next, vm') := Execute(alu, prog, i.opcode, CachedArgs(i), i.pc, vm);
    GasIsCarried(alu, prog, i.opcode, CachedArgs(i), i.pc, vm, 0);
    LeavingShowsAt(alu, prog, d, k, vm.(gas := 1), exit, next, vm'.(gas := 0));
  }

  lemma LeavingShowsAt(alu: Alu, prog: Program, d: Decoded, k: nat, one: Vm, exit: Exit, next: nat, vm': Vm)
    requires |prog.code| == |prog.mask| && WellDecoded(prog, d) && k < |d.instrs| && CacheOk(prog, d.instrs[k])
    requires one.gas == 1 && vm'.gas == 0
    requires var i := d.instrs[k]; Execute(alu, prog, i.opcode, CachedArgs(i), i.pc, Burn(one)) == (exit, next, vm')
    requires var on := Onward(d.instrs[k], next);
      exit.Garbled? || (exit == Continue && on < |prog.code| && !IsDecoded(d, on))
    ensures !AgreesFrom(alu, prog, d, k, one)
  {
    var i := d.instrs[k];
    var on := Onward(i, next);
    EntryIsMeta(prog, d, k);
    FastGoesOn(alu, prog, d, k, one, next, vm');
    if exit.Garbled? {
      assert SimpleStep(alu, prog, i.pc, one).exit == exit;
      NothingRunsWithoutGas(alu, prog, d, on, vm');
    } else {
      ContinueAt(alu, prog, d, k, one, next, vm');
      assert SimpleRun(alu, prog, on, vm').exit == OutOfGas;
    }
  }

  lemma NothingRunsWithoutGas(alu: Alu, prog: Program, d: Decoded, pc: nat, vm: Vm)
    requires |prog.code| == |prog.mask| && WellDecoded(prog, d) && vm.gas < 1
    ensures var o := FastRun(alu, prog, d, pc, vm); o.vm == vm && (o.exit == OutOfGas || o.exit == Panic)
  {}
}
