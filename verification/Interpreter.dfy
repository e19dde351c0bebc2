/** The interpreters as loops that update registers, memory and gas in place. */
module Interpreters {
  import opened Words
  import opened Opcodes
  import opened PageTables
  import opened PagedMemory
  import opened ProgramCode
  import opened Instructions
  import opened BlockInfo
  import opened Invocation

  class Interpreter {
    const alu: Alu
    const prog: Program
    const d: Decoded
    const memory: Memory
    var registers: Registers
    var gas: int

    ghost predicate Valid()
      reads this, memory, memory.buffers
    {
      && |prog.code| == |prog.mask|
      && memory.Valid() && memory.heapPointer <= memory.heapLimit <= TWO32 - ZP
    }

    ghost function View(): Vm
      reads this, memory, memory.buffers
      requires Valid()
    {
      Vm(registers, Mem(memory.View(), memory.heapPointer, memory.heapLimit), gas)
    }

    constructor (alu: Alu, prog: Program, d: Decoded, memory: Memory, registers: Registers, gas: int)
      requires |prog.code| == |prog.mask|
      requires memory.Valid() && memory.heapPointer <= memory.heapLimit <= TWO32 - ZP
      ensures Valid() && this.alu == alu && this.prog == prog && this.d == d && this.memory == memory
      ensures View() == Vm(registers, Mem(memory.View(), memory.heapPointer, memory.heapLimit), gas)
    {
      this.alu, this.prog, this.d, this.memory := alu, prog, d, memory;
      this.registers, this.gas := registers, gas;
    }

    method ExecLoad(size: nat, signed: bool, r: nat, address: u32) returns (exit: Exit)
      requires Valid() && size in {1, 2, 4, 8} && r < 13
      modifies this`registers
      ensures Valid() && exit == Loaded(old(memory.View()), size, address).0
      ensures registers == if exit == Continue
        then old(registers)[r := Extended(size, signed, Loaded(old(memory.View()), size, address).1)]
          else old(registers)
    {
      var word;
      word, exit := memory.Load(size, address);
      if exit == Continue { registers := registers[r := Extended(size, signed, word)]; }
    }

    method ExecGrow(r: nat, amount: u64)
      requires Valid() && r < 13
      modifies this`registers, memory
      ensures Valid() && memory.buffers >= old(memory.buffers) && fresh(memory.buffers - old(memory.buffers))
      ensures var (mem, result) := Sbrk(old(View()).mem, amount);
        View() == old(View()).(mem := mem, regs := old(registers)[r := result])
    {
      var result := memory.Grow(amount);
      registers := registers[r := result];
    }

    /** The handler of an instruction. */
    method Exec(op: byte, args: Args, pc: nat) returns (exit: Exit, next: nat)
      requires Valid()
      modifies this, memory, memory.buffers
      ensures Valid() && memory.buffers >= old(memory.buffers) && fresh(memory.buffers - old(memory.buffers))
      ensures (exit, next, View()) == Execute(alu, prog, op, args, pc, old(View()))
    {
      next := pc;
      if !RegistersExist(args) { return Crash, pc; }
      match UseOf(op, args, registers)
      case Store(size, address, word) =>
        exit := memory.Store(size, address, word);
      case Load(size, signed, r, address) =>
        exit := ExecLoad(size, signed, r, address);
      case Grow(r, amount) =>
        ExecGrow(r, amount);
        exit := Continue;
      case NoUse =>
        var r := ExecuteOnRegisters(alu, prog, op, args, pc, registers);
        exit, next, registers := r.0, r.1, r.2;
    }

    /** One instruction, decoded in place. */
    method SingleStepStateTransition(pc: nat) returns (exit: Exit, next: nat)
      requires Valid()
      modifies this, memory, memory.buffers
      ensures Valid() && memory.buffers >= old(memory.buffers) && fresh(memory.buffers - old(memory.buffers))
      ensures Outcome(exit, next, View()) == SimpleStep(alu, prog, pc, old(View()))
    {
      if pc >= |prog.code| { return Panic, pc; }
      if gas < 1 { return OutOfGas, pc; }
      gas := gas - 1;
      var skipLength := SkipLength(pc, prog.mask);
      var op := prog.code[pc];
      if !IsValidOpcode(op) { return Panic, 0; }
      var args := DecodeArgs(prog.code, pc, skipLength);
      if args.None? { return Crash, 0; }
      exit, next := Exec(op, args.value, pc);
      if exit in {Panic, Halt, Crash} { return exit, 0; }
      if exit.HostCall? || pc != next { return exit, next; }
      next := next + skipLength + 1;
    }

    /** The simple interpreter: step after step. */
    method SingleStepInvoke(start: nat) returns (exit: Exit, pc: nat)
      requires Valid()
      modifies this, memory, memory.buffers
      ensures Valid() && memory.buffers >= old(memory.buffers) && fresh(memory.buffers - old(memory.buffers))
      ensures Outcome(exit, pc, View()) == SimpleRun(alu, prog, start, old(View()))
    {
      pc := start;
      while true
        invariant Valid() && memory.buffers >= old(memory.buffers) && fresh(memory.buffers - old(memory.buffers))
        invariant SimpleRun(alu, prog, pc, View()) == SimpleRun(alu, prog, start, old(View()))
        decreases Max(gas, 0)
      {
        ghost var before := View();
        var next;
        exit, next := SingleStepStateTransition(pc);
        if exit == Continue {
          pc := next;
        } else if exit in {Panic, Halt, Crash} {
          return exit, 0;
        } else {
          return exit, next;
        }
      }
    }

    /** The slice of the array to run from pc: its block, or the rest of the block it lies in. */
    method FindSlice(pc: nat) returns (startIdx: int, endIdx: int)
      requires Valid() && WellDecoded(prog, d)
      ensures startIdx == if pc < |prog.code| then d.instrIdxAt[pc] else -1
      ensures startIdx >= 0 ==> startIdx < endIdx <= |d.instrs| && d.instrs[startIdx].pc == pc
      ensures startIdx >= 0 ==> Ends(d.instrs, endIdx - 1) && NoneEnds(d.instrs, startIdx, endIdx - 1)
    {
      if pc >= |prog.code| { return -1, 0; }
      assert MarkedAt(prog.mask, d.blockAt, |prog.code|, -1, pc) && BlockAtOk(d.instrs, d.blockAt, pc);
      if d.blockAt[pc].Some? {
        var block := d.blockAt[pc].value;
        assert PointsBack(d.instrs, d.instrIdxAt, block.instrStart);
        return block.instrStart, block.instrEnd;
      }
      assert PointsTo(d.instrs, d.instrIdxAt, pc);
      startIdx := d.instrIdxAt[pc];
      if startIdx < 0 { return startIdx, 0; }
      endIdx := startIdx;
      while endIdx < |d.instrs|
        invariant startIdx <= endIdx <= |d.instrs| && NoneEnds(d.instrs, startIdx, endIdx)
      {
        if IsBlockTerminator(d.instrs[endIdx].opcode) { return startIdx, endIdx + 1; }
        endIdx := endIdx + 1;
      }
      assert false;
    }

    /** One entry of the array: whether it stops the run, and at what counter it stops or leads on. */
    method ExecEntry(instr: InstrMeta) returns (stop: bool, exit: Exit, pc: nat)
      requires Valid()
      modifies this, memory, memory.buffers
      ensures Valid() && memory.buffers >= old(memory.buffers) && fresh(memory.buffers - old(memory.buffers))
      ensures FastStep(alu, prog, instr, old(View())) ==
        if stop then Stop(Outcome(exit, pc, View())) else Go(pc, View())
    {
      if gas < 1 { return true, OutOfGas, instr.pc; }
      gas := gas - 1;
      var next;
      exit, next := Exec(instr.opcode, CachedArgs(instr), instr.pc);
      match exit
      case Halt => return true, exit, 0;
      case Panic => return true, exit, 0;
      case Crash => return true, exit, 0;
      case PageFault(_) => return true, exit, instr.pc;
      case OutOfGas => return true, exit, instr.pc;
      case HostCall(_) => return true, exit, instr.pc + instr.skipLen + 1;
      case _ => return false, exit, next;
    }

    /** Entry i of a slice: does the next entry follow it, or else where does the run go on, unless it stops? */
    method RunEntry(i: nat, endIdx: nat, ghost result: Outcome)
      returns (more: bool, stop: bool, exit: Exit, pc: nat, ghost after: Vm)
      requires Valid() && WellDecoded(prog, d) && i < endIdx <= |d.instrs| && FromEntry(i, View()) == result
      requires NoneEnds(d.instrs, i, endIdx - 1)
      modifies this, memory, memory.buffers
      ensures Valid() && memory.buffers >= old(memory.buffers) && fresh(memory.buffers - old(memory.buffers))
      ensures after == View()
      ensures stop ==> !more && result == Outcome(exit, pc, after)
      ensures !stop ==> gas == old(gas) - 1 && old(gas) >= 1
      ensures !stop && !more ==> FromCounter(pc, after) == result
      ensures more ==> i + 1 < endIdx && FromEntry(i + 1, after) == result && NoneEnds(d.instrs, i + 1, endIdx - 1)
    {
      ghost var before := View();
      more := false;
      stop, exit, pc := ExecEntry(d.instrs[i]);
      after := View();
      if !stop {
        FastGoesOn(alu, prog, d, i, before, pc, after);
        if pc == d.instrs[i].pc {
          pc := pc + d.instrs[i].skipLen + 1;
          if i + 1 < endIdx {
            more := true;
            FastGoesNext(alu, prog, d, i, before, after);
          }
        }
      }
    }

    /** What running from entry i, or from a counter, ends with. */
    ghost function FromEntry(i: nat, vm: Vm): Outcome
      requires |prog.code| == |prog.mask| && WellDecoded(prog, d) && i < |d.instrs|
    {
      FastFrom(alu, prog, d, i, vm)
    }

    ghost function FromCounter(pc: nat, vm: Vm): Outcome
      requires |prog.code| == |prog.mask| && WellDecoded(prog, d)
    {
      FastRun(alu, prog, d, pc, vm)
    }

    /** Running entries [startIdx, endIdx) until one stops the run, jumps away, or is the last. */
    method RunSlice(startIdx: nat, endIdx: nat, ghost result: Outcome)
      returns (stop: bool, exit: Exit, pc: nat, ghost after: Vm)
      requires Valid() && WellDecoded(prog, d)
      requires startIdx < endIdx <= |d.instrs| && Ends(d.instrs, endIdx - 1) && NoneEnds(d.instrs, startIdx, endIdx - 1)
      requires FromEntry(startIdx, View()) == result
      modifies this, memory, memory.buffers
      ensures Valid() && memory.buffers >= old(memory.buffers) && fresh(memory.buffers - old(memory.buffers))
      ensures after == View()
      ensures stop ==> result == Outcome(exit, pc, after)
      ensures !stop ==> 0 <= gas < old(gas) && FromCounter(pc, after) == result
    {
      var i := startIdx;
      after := View();
      while true
        invariant startIdx <= i < endIdx && gas == old(gas) - (i - startIdx)
        invariant Valid() && memory.buffers >= old(memory.buffers) && fresh(memory.buffers - old(memory.buffers))
        invariant after == View() && FromEntry(i, after) == result && NoneEnds(d.instrs, i, endIdx - 1)
        decreases endIdx - i
      {
        var more;
        more, stop, exit, pc, after := RunEntry(i, endIdx, result);
        if !more { return; }
        i := i + 1;
      }
    }

    /** The fast interpreter: slice after slice of the pre-decoded array. */
    method SingleStepInvokeDecodedBlocks(start: nat) returns (exit: Exit, pc: nat)
      requires Valid() && WellDecoded(prog, d)
      modifies this, memory, memory.buffers
      ensures Valid() && memory.buffers >= old(memory.buffers) && fresh(memory.buffers - old(memory.buffers))
      ensures Outcome(exit, pc, View()) == FastRun(alu, prog, d, start, old(View()))
    {
      pc := start;
      ghost var result := FastRun(alu, prog, d, start, View());
      while true
        invariant Valid() && memory.buffers >= old(memory.buffers) && fresh(memory.buffers - old(memory.buffers))
        invariant FastRun(alu, prog, d, pc, View()) == result
        decreases Max(gas, 0)
      {
        var startIdx, endIdx := FindSlice(pc);
        if startIdx < 0 { return Panic, 0; }
        var stop;
        ghost var after;
        stop, exit, pc, after := RunSlice(startIdx, endIdx, result);
        if stop { return; }
      }
    }
  }
}
