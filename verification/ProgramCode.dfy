/** Program blobs: the instruction bitmask, instruction lengths, and vetted jumps. */
module ProgramCode {
  import opened Words
  import opened Opcodes
  import opened PageTables

  /** Bit 0 marks the start of an instruction, bit 1 (with bit 0) the start of a basic block. */
  type Bitmask = seq<byte>

  datatype JumpTable = JumpTable(data: seq<byte>, length: nat, size: u32)

  datatype Program = Program(code: seq<byte>, mask: Bitmask, jumps: JumpTable)

  function TestBit(b: nat, k: nat): bool
  {
    if k == 0 then b % 2 == 1 else TestBit(b / 2, k - 1)
  }

  /** Bit i of the packed bitmask data. */
  predicate PackedBit(data: seq<byte>, i: nat)
    requires i < 8 * |data|
  {
    TestBit(data[i / 8], i % 8)
  }

  /** Octets needed to pack n bits. */
  function PackedLength(n: nat): (size: nat)
    ensures n <= 8 * size < n + 8
  {
    if n % 8 > 0 then n / 8 + 1 else n / 8
  }

  predicate IsStartOfInstruction(mask: Bitmask, i: int) { 0 <= i < |mask| && mask[i] > 0 }

  predicate IsStartOfBasicBlock(mask: Bitmask, i: nat) { i < |mask| && mask[i] == 3 }

  /** The last instruction start before i, or 0. */
  function PrevStart(mask: Bitmask, i: nat): (p: nat)
    requires i <= |mask|
    ensures p < i || p == i == 0
  {
    if i == 0 then 0
    else if mask[i - 1] > 0 then i - 1
    else if i == 1 then 0
    else PrevStart(mask, i - 1)
  }

  /** The first instruction start at or after i, or the end of the code. */
  function NextStart(mask: Bitmask, i: nat): (p: nat)
    requires i <= |mask|
    ensures i <= p <= |mask|
    ensures p < |mask| ==> mask[p] > 0
    decreases |mask| - i
  {
    if i == |mask| || mask[i] > 0 then i else NextStart(mask, i + 1)
  }

  /** The mark of an instruction start: 3 for the first one and for successors of terminators. */
  function Mark(code: seq<byte>, mask: Bitmask, i: nat): (m: byte)
    requires i <= |mask| && i < |code|
    ensures m == 1 || m == 3
  {
    if i == 0 || IsBlockTerminator(code[PrevStart(mask, i)]) then 3 else 1
  }

  predicate MarkOk(code: seq<byte>, mask: Bitmask, i: nat)
    requires i < |mask| <= |code|
  {
    mask[i] == 0 || mask[i] == Mark(code, mask, i)
  }

  ghost predicate MarkedByPredecessor(code: seq<byte>, mask: Bitmask)
    requires |mask| <= |code|
  {
    forall i | 0 <= i < |mask| :: MarkOk(code, mask, i)
  }

  ghost predicate WellMasked(code: seq<byte>, mask: Bitmask)
  {
    |mask| == |code| && MarkedByPredecessor(code, mask)
  }

  /** Instruction starts are exactly the bits set in the packed data. */
  ghost predicate Unpacks(mask: Bitmask, data: seq<byte>)
  {
    |mask| <= 8 * |data| && forall i | 0 <= i < |mask| :: mask[i] > 0 <==> PackedBit(data, i)
  }

  lemma UnpackOne(mask: Bitmask, data: seq<byte>, bit: byte)
    requires Unpacks(mask, data) && |mask| < 8 * |data| && (bit > 0 <==> PackedBit(data, |mask|))
    ensures Unpacks(mask + [bit], data)
  {}

  /** Unpacking the bitmask and marking block starts on the way. */
  method MakeBitMasks(instruction: seq<byte>, data: seq<byte>) returns (result: Option<Bitmask>)
    ensures result.Some? <==> |data| == PackedLength(|instruction|)
    ensures result.Some? ==> WellMasked(instruction, result.value)
    ensures result.Some? ==> Unpacks(result.value, data)
  {
    var instSize := |instruction|;
    if |data| != PackedLength(instSize) { return None; }
    var mask: Bitmask := [];
    var prev := 0;
    for i := 0 to instSize
      invariant |mask| == i && prev == PrevStart(mask, i)
      invariant Unpacks(mask, data)
      invariant MarkedByPredecessor(instruction, mask)
    {
      var bit := 0;
      if PackedBit(data, i) {
        bit := if i == 0 || IsBlockTerminator(instruction[prev]) then 3 else 1;
      }
      ExtendMask(instruction, mask, bit);
      UnpackOne(mask, data, bit);
      mask := mask + [bit];
      if bit > 0 { prev := i; }
    }
    return Some(mask);
  }

  /** One more position, marked by what precedes it, keeps a mask well formed. */
  lemma ExtendMask(code: seq<byte>, mask: Bitmask, bit: byte)
    requires |mask| < |code| && MarkedByPredecessor(code, mask)
    requires bit == 0 || bit == Mark(code, mask, |mask|)
    ensures MarkedByPredecessor(code, mask + [bit])
    ensures PrevStart(mask + [bit], |mask| + 1) == if bit > 0 then |mask| else PrevStart(mask, |mask|)
  {
    PrevStartStable(mask, bit, |mask|);
    var longer := mask + [bit];
    forall i | 0 <= i < |longer| ensures MarkOk(code, longer, i) {
      PrevStartStable(mask, bit, i);
      if i < |mask| { assert MarkOk(code, mask, i); }
    }
  }

  lemma {:induction false} PrevStartStable(mask: Bitmask, bit: byte, i: nat)
    requires i <= |mask|
    ensures PrevStart(mask + [bit], i) == PrevStart(mask, i)
  {
    if i > 0 { PrevStartStable(mask, bit, i - 1); }
  }

  /** Distance from an instruction to the next one, minus one, cut at 24. */
  function Skip(mask: Bitmask, pc: nat): (s: nat)
    requires pc < |mask|
    ensures s <= 24 && pc + s < |mask|
  {
    Min(24, NextStart(mask, pc + 1) - pc - 1)
  }

  method SkipLength(pc: nat, mask: Bitmask) returns (s: nat)
    requires pc < |mask|
    ensures s == Skip(mask, pc)
  {
    var j := 1;
    while pc + j < |mask| && !IsStartOfInstruction(mask, pc + j)
      invariant 1 <= j && pc + j <= |mask|
      invariant NextStart(mask, pc + j) == NextStart(mask, pc + 1)
      decreases |mask| - (pc + j)
    {
      j := j + 1;
    }
    return Min(24, j - 1);
  }

  /** Stepping over an instruction, the last start behind is that instruction, if it is one. */
  lemma PrevStartAfterSkip(mask: Bitmask, pc: nat)
    requires pc < |mask|
    ensures PrevStart(mask, pc + Skip(mask, pc) + 1) == if mask[pc] > 0 then pc else PrevStart(mask, pc)
  {
    NothingBeforeNextStart(mask, pc + 1);
    PrevStartAcrossGap(mask, pc + 1, pc + Skip(mask, pc) + 1);
  }

  lemma {:induction false} NothingBeforeNextStart(mask: Bitmask, i: nat)
    requires i <= |mask|
    ensures forall j | i <= j < NextStart(mask, i) :: mask[j] == 0
    decreases |mask| - i
  {
    if i < |mask| && mask[i] == 0 { NothingBeforeNextStart(mask, i + 1); }
  }

  lemma {:induction false} PrevStartAcrossGap(mask: Bitmask, lo: nat, hi: nat)
    requires 0 < lo <= hi <= |mask| && forall j | lo <= j < hi :: mask[j] == 0
    ensures PrevStart(mask, hi) == PrevStart(mask, lo)
  {
    if lo < hi { PrevStartAcrossGap(mask, lo, hi - 1); }
  }

  /** A static jump. A target that starts no block is refused only if it holds a valid opcode. */
  function Branch(prog: Program, pc: nat, target: nat, taken: bool): (Exit, nat)
    requires |prog.mask| == |prog.code|
  {
    if !taken then (Continue, pc)
    else if IsStartOfBasicBlock(prog.mask, target) then (Continue, target)
    else if target >= |prog.code| then (Crash, pc)
    else if IsValidOpcode(prog.code[target]) then (Panic, pc)
    else (Continue, target)
  }

  /** A dynamic jump through the jump table. */
  function DJump(prog: Program, pc: nat, a: u32): (Exit, nat)
  {
    var j := prog.jumps;
    if a == 0xffff_0000 then (Halt, pc)
    else if a == 0 || a > Wrap32(j.size * 2) || a % 2 != 0 then (Panic, pc)
    else
      var at := (a / 2 - 1) * j.length;
      if j.length > 8 || at + j.length > |j.data| then (Crash, pc)
      else
        var target := Wrap32(FromBytes(j.data[at..at + j.length]));
        if IsStartOfBasicBlock(prog.mask, target) then (Continue, target) else (Panic, pc)
  }
}
