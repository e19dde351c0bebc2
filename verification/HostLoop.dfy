/** Running a program that calls host functions, for any host functions that do not give back gas. */
module HostLoop {
  import opened Words
  import opened PageTables
  import opened ProgramCode
  import opened Instructions
  import opened BlockInfo
  import opened Invocation

  /** What a host function hands back. */
  datatype Called<+T> = Called(exit: Exit, vm: Vm, addition: T)

  /** The host function asked for: the low byte of the operand. */
  function CallId(operand: nat): nat { operand % 256 }

  type Host<!T> = (nat, Vm, T) -> Called<T>

  /** Host functions only ever charge gas. */
  ghost predicate Thrifty<T(!new)>(host: Host<T>)
  {
    forall id, vm, t :: host(id, vm, t).vm.gas <= vm.gas
  }

  /** The end of a run. */
  datatype Ended<+T> = Ended(exit: Exit, pc: nat, vm: Vm, addition: T)

  /** No instruction gives gas back, and one that calls the host has cost some. */
  lemma {:induction false} FastRunSpends(alu: Alu, prog: Program, d: Decoded, pc: nat, vm: Vm)
    requires |prog.code| == |prog.mask| && WellDecoded(prog, d)
    ensures var o := FastRun(alu, prog, d, pc, vm);
      && o.vm.gas <= vm.gas && (o.exit.HostCall? ==> 0 <= o.vm.gas < vm.gas) && (vm.gas >= 0 ==> o.vm.gas >= 0)
      && o.exit != Continue && !o.exit.Garbled?
    decreases Max(vm.gas, 0), 1
  {
    if pc < |prog.code| && d.instrIdxAt[pc] >= 0 {
      IndexInRange(prog, d, pc);
      FastFromSpends(alu, prog, d, d.instrIdxAt[pc], vm);
    }
  }

  lemma {:induction false} FastFromSpends(alu: Alu, prog: Program, d: Decoded, k: nat, vm: Vm)
    requires |prog.code| == |prog.mask| && WellDecoded(prog, d) && k < |d.instrs|
    ensures var o := FastFrom(alu, prog, d, k, vm);
      && o.vm.gas <= vm.gas && (o.exit.HostCall? ==> 0 <= o.vm.gas < vm.gas) && (vm.gas >= 0 ==> o.vm.gas >= 0)
      && o.exit != Continue && !o.exit.Garbled?
    decreases Max(vm.gas, 0), 0
  {
    var i := d.instrs[k];
    var s := FastStep(alu, prog, i, vm);
    if s.Go? {
      FastGoesOn(alu, prog, d, k, vm, s.next, s.vm);
      FastRunSpends(alu, prog, d, Onward(i, s.next), s.vm);
    }
  }

  /** The loop: run to the next host call, answer it, go on. It ends for every program and all thrifty hosts. */
  ghost function HostRun<T(!new)>(alu: Alu, prog: Program, d: Decoded, host: Host<T>, pc: nat, vm: Vm, t: T): Ended<T>
    requires |prog.code| == |prog.mask| && WellDecoded(prog, d) && Thrifty(host)
    decreases Max(vm.gas, 0)
  {
    var o := FastRun(alu, prog, d, pc, vm);
    FastRunSpends(alu, prog, d, pc, vm);
    if !o.exit.HostCall? then Ended(o.exit, o.pc, o.vm, t)
    else
      var called := host(CallId(o.exit.id), o.vm, t);
      if called.exit == Continue then HostRun(alu, prog, d, host, o.pc, called.vm, called.addition)
      else Ended(called.exit, o.pc, called.vm, called.addition)
  }

  /** One host call of a run. */
  datatype Visit<+T> = Visit(id: nat, before: T, called: Called<T>)

  /** All host calls of a run, in order. */
  ghost function Trace<T(!new)>(alu: Alu, prog: Program, d: Decoded, host: Host<T>, pc: nat, vm: Vm,
        t: T): seq<Visit<T>>
    requires |prog.code| == |prog.mask| && WellDecoded(prog, d) && Thrifty(host)
    decreases Max(vm.gas, 0)
  {
    var o := FastRun(alu, prog, d, pc, vm);
    FastRunSpends(alu, prog, d, pc, vm);
    if !o.exit.HostCall? then []
    else
      var called := host(CallId(o.exit.id), o.vm, t);
      [Visit(CallId(o.exit.id), t, called)] +
      if called.exit == Continue then Trace(alu, prog, d, host, o.pc, called.vm, called.addition) else []
  }

  /** An invariant of gas and context that survives spending gas and every host call after which the run goes on. */
  ghost predicate Inductive<T(!new)>(host: Host<T>, inv: (int, T) -> bool)
  {
    && (forall g, g', t :: g' <= g && inv(g, t) ==> inv(g', t))
    && (forall id: nat, vm: Vm, t: T :: vm.gas >= 0 && inv(vm.gas, t) && host(id, vm, t).exit == Continue ==>
          inv(host(id, vm, t).vm.gas, host(id, vm, t).addition))
  }

  /** The run was ended by a host function called in a state that satisfies the invariant. */
  ghost predicate EndedByHost<T(!new)>(host: Host<T>, inv: (int, T) -> bool, e: Ended<T>, id: nat, vm: Vm, t: T)
  {
    && vm.gas >= 0 && inv(vm.gas, t)
    && host(id, vm, t).exit == e.exit != Continue && host(id, vm, t).vm == e.vm
      && host(id, vm, t).addition == e.addition
  }

  /** An invariant holds at the end of a run, or else when the host function that ends the run is called. */
  lemma {:induction false} RunKeeps<T(!new)>(
      alu: Alu, prog: Program, d: Decoded, host: Host<T>, inv: (int, T) -> bool, pc: nat, vm: Vm, t: T)
    requires |prog.code| == |prog.mask| && WellDecoded(prog, d) && Thrifty(host) && Inductive(host, inv)
    requires inv(vm.gas, t)
    ensures var e := HostRun(alu, prog, d, host, pc, vm, t);
      || (e.exit != Continue && !e.exit.HostCall? && inv(e.vm.gas, e.addition))
      || exists id, vm', t' :: EndedByHost(host, inv, e, id, vm', t')
    decreases Max(vm.gas, 0)
  {
    var o := FastRun(alu, prog, d, pc, vm);
    FastRunSpends(alu, prog, d, pc, vm);
    if o.exit.HostCall? {
      var called := host(CallId(o.exit.id), o.vm, t);
      assert inv(o.vm.gas, t);
      if called.exit == Continue {
        RunKeeps(alu, prog, d, host, inv, o.pc, called.vm, called.addition);
      } else {
        assert EndedByHost(host, inv, HostRun(alu, prog, d, host, pc, vm, t), CallId(o.exit.id), o.vm, t);
      }
    }
  }

  /** A run never ends with more gas than it was given, nor with an exit that asks to go on. */
  lemma {:induction false} GasNeverGrows<T(!new)>(alu: Alu, prog: Program, d: Decoded, host: Host<T>, pc: nat, vm: Vm,
        t: T)
    requires |prog.code| == |prog.mask| && WellDecoded(prog, d) && Thrifty(host)
    ensures var e := HostRun(alu, prog, d, host, pc, vm, t); e.vm.gas <= vm.gas && e.exit != Continue
    decreases Max(vm.gas, 0)
  {
    var o := FastRun(alu, prog, d, pc, vm);
    FastRunSpends(alu, prog, d, pc, vm);
    if o.exit.HostCall? {
      var called := host(CallId(o.exit.id), o.vm, t);
      if called.exit == Continue { GasNeverGrows(alu, prog, d, host, o.pc, called.vm, called.addition); }
    }
  }

  /** If neither the program nor any host function that is called brings the host down, the run does not. */
  lemma {:induction false} NeverBroughtDown<T(!new)>(
      alu: Alu, prog: Program, d: Decoded, host: Host<T>, inv: (int, T) -> bool, pc: nat, vm: Vm, t: T)
    requires |prog.code| == |prog.mask| && WellDecoded(prog, d) && Thrifty(host) && Inductive(host, inv)
    requires inv(vm.gas, t) && forall pc: nat, vm: Vm :: FastRun(alu, prog, d, pc, vm).exit != Crash
    requires forall id: nat, vm: Vm, t: T :: vm.gas >= 0 && inv(vm.gas, t) ==> host(id, vm, t).exit != Crash
    ensures HostRun(alu, prog, d, host, pc, vm, t).exit != Crash
    decreases Max(vm.gas, 0)
  {
    var o := FastRun(alu, prog, d, pc, vm);
    FastRunSpends(alu, prog, d, pc, vm);
    if o.exit.HostCall? {
      assert inv(o.vm.gas, t);
      var called := host(CallId(o.exit.id), o.vm, t);
      if called.exit == Continue {
        NeverBroughtDown(alu, prog, d, host, inv, o.pc, called.vm, called.addition);
      }
    }
  }
}
