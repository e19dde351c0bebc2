/** Pre-decoding a program blob into a flat instruction array and its basic blocks. */
module BlockInfo {
  import opened Words
  import opened Opcodes
  import opened PageTables
  import opened ProgramCode
  import opened Instructions

  /** A basic block: instructions [instrStart, instrEnd) of the flat array. */
  datatype BlockMeta = BlockMeta(startPC: nat, endPC: nat, instrStart: nat, instrEnd: nat, gasCost: nat)

  datatype Decoded = Decoded(instrs: seq<InstrMeta>, blockAt: seq<Option<BlockMeta>>, instrIdxAt: seq<int>)

  /** The counter after the instruction at pc. */
  function NextPc(mask: Bitmask, pc: nat): (next: nat)
    requires pc < |mask|
    ensures pc < next <= |mask|
  {
    pc + Skip(mask, pc) + 1
  }

  function Meta(code: seq<byte>, mask: Bitmask, pc: nat): InstrMeta
    requires pc < |code| == |mask|
  {
    DecodeOperands(code, pc, Skip(mask, pc))
  }

  /** Following instruction lengths from pc, valid opcodes lead to a terminator inside the code. */
  predicate ChainEnds(code: seq<byte>, mask: Bitmask, pc: nat)
    requires |mask| == |code|
    decreases |code| - pc
  {
    && pc < |code|
    && IsValidOpcode(code[pc])
    && (IsBlockTerminator(code[pc]) || ChainEnds(code, mask, NextPc(mask, pc)))
  }

  /** Entry k is the metadata of a valid instruction before pc. */
  predicate EntryAt(code: seq<byte>, mask: Bitmask, instrs: seq<InstrMeta>, pc: nat, k: nat)
    requires pc <= |mask| == |code| && k < |instrs|
  {
    instrs[k].pc < pc && IsValidOpcode(code[instrs[k].pc]) && instrs[k] == Meta(code, mask, instrs[k].pc)
  }

  ghost predicate EntriesOk(code: seq<byte>, mask: Bitmask, instrs: seq<InstrMeta>, pc: nat)
    requires pc <= |mask| == |code|
  {
    forall k | 0 <= k < |instrs| :: EntryAt(code, mask, instrs, pc, k)
  }

  predicate Before(instrs: seq<InstrMeta>, j: nat, k: nat)
    requires j < |instrs| && k < |instrs|
  {
    instrs[j].pc < instrs[k].pc
  }

  ghost predicate Increasing(instrs: seq<InstrMeta>)
  {
    forall j, k | 0 <= j < k < |instrs| :: Before(instrs, j, k)
  }

  /** The index points back to instruction k. */
  predicate PointsBack(instrs: seq<InstrMeta>, idx: seq<int>, k: nat)
    requires k < |instrs|
  {
    instrs[k].pc < |idx| && idx[instrs[k].pc] == k
  }

  /** The index entry at p is -1 or the instruction at p. */
  predicate PointsTo(instrs: seq<InstrMeta>, idx: seq<int>, p: nat)
    requires p < |idx|
  {
    idx[p] == -1 || (0 <= idx[p] < |instrs| && instrs[idx[p]].pc == p)
  }

  /** The index is the exact inverse of the array, and -1 elsewhere. */
  ghost predicate Indexed(instrs: seq<InstrMeta>, idx: seq<int>)
  {
    && (forall k | 0 <= k < |instrs| :: PointsBack(instrs, idx, k))
    && (forall p | 0 <= p < |idx| :: PointsTo(instrs, idx, p))
  }

  /** Instruction k ends its block. */
  predicate Ends(instrs: seq<InstrMeta>, k: nat)
    requires k < |instrs|
  {
    IsBlockTerminator(instrs[k].opcode)
  }

  /** Instruction k is the first of its block: nothing, or a terminator, precedes it. */
  predicate Begins(instrs: seq<InstrMeta>, k: nat)
    requires k <= |instrs|
  {
    k == 0 || Ends(instrs, k - 1)
  }

  /** If instruction k does not end its block, the next one in the array is the next one in the code. */
  predicate LinkAt(mask: Bitmask, instrs: seq<InstrMeta>, k: nat)
    requires k + 1 < |instrs|
  {
    Ends(instrs, k) || (instrs[k].pc < |mask| && instrs[k + 1].pc == NextPc(mask, instrs[k].pc))
  }

  ghost predicate Linked(mask: Bitmask, instrs: seq<InstrMeta>)
  {
    forall k: nat | k + 1 < |instrs| :: LinkAt(mask, instrs, k)
  }

  ghost predicate Closed(instrs: seq<InstrMeta>) { Begins(instrs, |instrs|) }

  /** No instruction in [lo, hi) ends a block. */
  ghost predicate NoneEnds(instrs: seq<InstrMeta>, lo: nat, hi: nat)
    requires hi <= |instrs|
  {
    forall k | lo <= k < hi :: !Ends(instrs, k)
  }

  /** A block is a segment that starts at p and whose only terminator is its last instruction. */
  ghost predicate BlockOk(instrs: seq<InstrMeta>, p: nat, b: BlockMeta)
  {
    && b.startPC == p
    && b.instrStart < b.instrEnd <= |instrs|
    && Begins(instrs, b.instrStart)
    && instrs[b.instrStart].pc == p
    && instrs[b.instrEnd - 1].pc == b.endPC
    && Ends(instrs, b.instrEnd - 1)
    && NoneEnds(instrs, b.instrStart, b.instrEnd - 1)
    && b.gasCost == b.instrEnd - b.instrStart
  }

  ghost predicate BlockAtOk(instrs: seq<InstrMeta>, blockAt: seq<Option<BlockMeta>>, p: nat)
    requires p < |blockAt|
  {
    blockAt[p].Some? ==> BlockOk(instrs, p, blockAt[p].value)
  }

  ghost predicate BlocksOk(instrs: seq<InstrMeta>, blockAt: seq<Option<BlockMeta>>)
  {
    forall p | 0 <= p < |blockAt| :: BlockAtOk(instrs, blockAt, p)
  }

  /** A block is recorded at p exactly if p is a block start before pc, and not the open one. */
  predicate MarkedAt(mask: Bitmask, blockAt: seq<Option<BlockMeta>>, pc: nat, open: int, p: nat)
    requires p < |mask| == |blockAt|
  {
    blockAt[p].Some? <==> p < pc && mask[p] == 3 && p != open
  }

  ghost predicate Marked(mask: Bitmask, blockAt: seq<Option<BlockMeta>>, pc: nat, open: int)
  {
    && |blockAt| == |mask|
    && forall p | 0 <= p < |mask| :: MarkedAt(mask, blockAt, pc, open, p)
  }

  /** If instruction k begins a block, that block is recorded (unless it is the open one). */
  predicate CoverAt(instrs: seq<InstrMeta>, blockAt: seq<Option<BlockMeta>>, open: int, k: nat)
    requires k < |instrs|
  {
    Begins(instrs, k) && instrs[k].pc != open ==>
      && instrs[k].pc < |blockAt|
      && blockAt[instrs[k].pc].Some?
      && blockAt[instrs[k].pc].value.instrStart == k
  }

  ghost predicate Covered(instrs: seq<InstrMeta>, blockAt: seq<Option<BlockMeta>>, open: int)
  {
    forall k | 0 <= k < |instrs| :: CoverAt(instrs, blockAt, open, k)
  }

  /** What pre-decoding promises on success. */
  ghost predicate WellDecoded(prog: Program, d: Decoded)
    requires |prog.mask| == |prog.code|
  {
    && EntriesOk(prog.code, prog.mask, d.instrs, |prog.code|)
    && Increasing(d.instrs)
    && |d.instrIdxAt| == |prog.code|
    && Indexed(d.instrs, d.instrIdxAt)
    && Linked(prog.mask, d.instrs)
    && Closed(d.instrs)
    && BlocksOk(d.instrs, d.blockAt)
    && Marked(prog.mask, d.blockAt, |prog.code|, -1)
    && Covered(d.instrs, d.blockAt, -1)
  }

  /** The scan before pc, with the block at `open` still growing (or none, if open is -1). */
  ghost predicate Scanned(prog: Program, d: Decoded, pc: nat, open: int)
    requires |prog.mask| == |prog.code|
  {
    && pc <= |prog.code|
    && EntriesOk(prog.code, prog.mask, d.instrs, pc)
    && Increasing(d.instrs)
    && |d.instrIdxAt| == |prog.code|
    && Indexed(d.instrs, d.instrIdxAt)
    && Linked(prog.mask, d.instrs)
    && BlocksOk(d.instrs, d.blockAt)
    && Marked(prog.mask, d.blockAt, pc, open)
    && Covered(d.instrs, d.blockAt, open)
  }

  /** The open block: instructions from index first on, none a terminator, leading up to pc. */
  ghost predicate Growing(prog: Program, d: Decoded, pc: nat, open: nat, first: nat)
    requires |prog.mask| == |prog.code|
  {
    && open < |prog.code| && prog.mask[open] == 3
    && first <= |d.instrs| && Begins(d.instrs, first)
    && NoneEnds(d.instrs, first, |d.instrs|)
    && (if first == |d.instrs| then pc == open
        else
          && open < pc <= |prog.code|
          && d.instrs[first].pc == open
          && LeadsTo(prog, d.instrs[|d.instrs| - 1].pc, pc))
  }

  /** The non-terminating instruction at last is followed by pc. */
  ghost predicate LeadsTo(prog: Program, last: nat, pc: nat)
    requires |prog.mask| == |prog.code|
  {
    && last < |prog.code| && pc <= |prog.code|
    && NextPc(prog.mask, last) == pc
    && !IsBlockTerminator(prog.code[PrevStart(prog.mask, pc)])
  }

  function WithInstr(d: Decoded, more: InstrMeta): Decoded
    requires more.pc < |d.instrIdxAt|
  {
    d.(instrs := d.instrs + [more], instrIdxAt := d.instrIdxAt[more.pc := |d.instrs|])
  }

  /** Scanning passes a position that starts no block. */
  lemma StepOver(prog: Program, d: Decoded, pc: nat)
    requires |prog.mask| == |prog.code| && pc < |prog.code| && prog.mask[pc] != 3
    requires Scanned(prog, d, pc, -1)
    ensures Scanned(prog, d, pc + 1, -1)
  {
    var next := pc + 1;
    forall p | 0 <= p < |prog.mask| ensures MarkedAt(prog.mask, d.blockAt, next, -1, p) {
      assert MarkedAt(prog.mask, d.blockAt, pc, -1, p);
    }
    forall k | 0 <= k < |d.instrs| ensures EntryAt(prog.code, prog.mask, d.instrs, next, k) {
      assert EntryAt(prog.code, prog.mask, d.instrs, pc, k);
    }
  }

  /** At a block start, a block opens. */
  lemma OpenBlock(prog: Program, d: Decoded, pc: nat)
    requires |prog.mask| == |prog.code| && pc < |prog.code| && prog.mask[pc] == 3
    requires Scanned(prog, d, pc, -1) && Closed(d.instrs)
    ensures Scanned(prog, d, pc, pc) && Growing(prog, d, pc, pc, |d.instrs|)
  {
    forall k | 0 <= k < |d.instrs| ensures CoverAt(d.instrs, d.blockAt, pc, k) {
      assert CoverAt(d.instrs, d.blockAt, -1, k);
    }
    forall p | 0 <= p < |prog.mask| ensures MarkedAt(prog.mask, d.blockAt, pc, pc, p) {
      assert MarkedAt(prog.mask, d.blockAt, pc, -1, p);
    }
  }

  /** An instruction of an open block other than its first starts no basic block. */
  lemma NotABlockStart(prog: Program, d: Decoded, pc: nat, open: nat, first: nat)
    requires WellMasked(prog.code, prog.mask) && Growing(prog, d, pc, open, first)
    ensures pc < |prog.code| && pc != open ==> prog.mask[pc] != 3
  {
    if pc < |prog.code| && pc != open {
      assert MarkOk(prog.code, prog.mask, pc);
    }
  }

  /** Passing over an instruction passes over no block start. */
  lemma MarkedAfterSkip(mask: Bitmask, blockAt: seq<Option<BlockMeta>>, pc: nat, open: int)
    requires pc < |mask| && Marked(mask, blockAt, pc, open) && (mask[pc] != 3 || pc == open)
    ensures Marked(mask, blockAt, NextPc(mask, pc), open)
  {
    NothingBeforeNextStart(mask, pc + 1);
    var next := NextPc(mask, pc);
    forall p | 0 <= p < |mask| ensures MarkedAt(mask, blockAt, next, open, p) {
      assert MarkedAt(mask, blockAt, pc, open, p);
      assert pc < p < next ==> mask[p] == 0;
    }
  }

  /** Appending the instruction at pc keeps the scan. */
  lemma AppendInstr(prog: Program, d: Decoded, more: InstrMeta, pc: nat, open: nat, first: nat)
    requires WellMasked(prog.code, prog.mask) && pc < |prog.code| && IsValidOpcode(prog.code[pc])
    requires more.pc == pc && more == Meta(prog.code, prog.mask, pc)
    requires Scanned(prog, d, pc, open) && Growing(prog, d, pc, open, first)
    ensures Scanned(prog, WithInstr(d, more), NextPc(prog.mask, pc), open)
  {
    NotABlockStart(prog, d, pc, open, first);
    MarkedAfterSkip(prog.mask, d.blockAt, pc, open);
    AppendKeepsEntries(prog, d, more, pc);
    AppendKeepsIndex(prog, d, more, pc);
    AppendKeepsBlocks(prog, d, more, pc, open, first);
  }

  lemma AppendKeepsEntries(prog: Program, d: Decoded, more: InstrMeta, pc: nat)
    requires |prog.mask| == |prog.code| && pc < |prog.code| && EntriesOk(prog.code, prog.mask, d.instrs, pc)
    requires more.pc == pc && more == Meta(prog.code, prog.mask, pc) && IsValidOpcode(prog.code[pc])
    ensures EntriesOk(prog.code, prog.mask, d.instrs + [more], NextPc(prog.mask, pc))
  {
    var last := |d.instrs|;
    forall k | 0 <= k <= last ensures EntryAt(prog.code, prog.mask, d.instrs + [more], NextPc(prog.mask, pc), k) {
      if k < last { assert EntryAt(prog.code, prog.mask, d.instrs, pc, k); }
    }
  }

  lemma AppendKeepsIndex(prog: Program, d: Decoded, more: InstrMeta, pc: nat)
    requires |prog.mask| == |prog.code| == |d.instrIdxAt| && pc < |prog.code| && more.pc == pc
    requires EntriesOk(prog.code, prog.mask, d.instrs, pc) && Increasing(d.instrs) && Indexed(d.instrs, d.instrIdxAt)
    ensures Increasing(WithInstr(d, more).instrs) && Indexed(WithInstr(d, more).instrs, WithInstr(d, more).instrIdxAt)
  {
    var d' := WithInstr(d, more);
    var last := |d.instrs|;
    forall k | 0 <= k < last ensures d.instrs[k].pc < pc { assert EntryAt(prog.code, prog.mask, d.instrs, pc, k); }
    forall j, k | 0 <= j < k <= last ensures Before(d'.instrs, j, k) {
      if k < last { assert Before(d.instrs, j, k); }
    }
    forall k | 0 <= k <= last ensures PointsBack(d'.instrs, d'.instrIdxAt, k) {
      if k < last { assert PointsBack(d.instrs, d.instrIdxAt, k); }
    }
    forall p | 0 <= p < |d.instrIdxAt| ensures PointsTo(d'.instrs, d'.instrIdxAt, p) {
      assert PointsTo(d.instrs, d.instrIdxAt, p);
    }
  }

  lemma EndsInPrefix(instrs: seq<InstrMeta>, more: InstrMeta, k: nat)
    requires k < |instrs|
    ensures Ends(instrs + [more], k) == Ends(instrs, k)
  {}

  lemma BeginsInPrefix(instrs: seq<InstrMeta>, more: InstrMeta, k: nat)
    requires k <= |instrs|
    ensures Begins(instrs + [more], k) == Begins(instrs, k)
  {
    if k > 0 { EndsInPrefix(instrs, more, k - 1); }
  }

  lemma NoneEndsInPrefix(instrs: seq<InstrMeta>, more: InstrMeta, lo: nat, hi: nat)
    requires hi <= |instrs| && NoneEnds(instrs, lo, hi)
    ensures NoneEnds(instrs + [more], lo, hi)
  {
    forall k | lo <= k < hi ensures !Ends(instrs + [more], k) { EndsInPrefix(instrs, more, k); }
  }

  lemma BlockInPrefix(instrs: seq<InstrMeta>, more: InstrMeta, p: nat, b: BlockMeta)
    requires BlockOk(instrs, p, b)
    ensures BlockOk(instrs + [more], p, b)
  {
    NoneEndsInPrefix(instrs, more, b.instrStart, b.instrEnd - 1);
    BeginsInPrefix(instrs, more, b.instrStart);
    EndsInPrefix(instrs, more, b.instrEnd - 1);
  }

  lemma AppendKeepsBlocks(prog: Program, d: Decoded, more: InstrMeta, pc: nat, open: nat, first: nat)
    requires |prog.mask| == |prog.code| && pc < |prog.code| && more.pc == pc
    requires Growing(prog, d, pc, open, first) && |d.blockAt| == |prog.mask| && pc < |d.instrIdxAt|
    requires Linked(prog.mask, d.instrs) && BlocksOk(d.instrs, d.blockAt) && Covered(d.instrs, d.blockAt, open)
    ensures var d' := WithInstr(d, more);
      Linked(prog.mask, d'.instrs) && BlocksOk(d'.instrs, d'.blockAt) && Covered(d'.instrs, d'.blockAt, open)
  {
    var d' := WithInstr(d, more);
    var last := |d.instrs|;
    forall k: nat | k + 1 < |d'.instrs| ensures LinkAt(prog.mask, d'.instrs, k) {
      EndsInPrefix(d.instrs, more, k);
      if k + 1 < last { assert LinkAt(prog.mask, d.instrs, k); }
      if k + 1 == last && first < last { assert !Ends(d.instrs, k); }
    }
    forall p | 0 <= p < |d.blockAt| ensures BlockAtOk(d'.instrs, d.blockAt, p) {
      assert BlockAtOk(d.instrs, d.blockAt, p);
      if d.blockAt[p].Some? { BlockInPrefix(d.instrs, more, p, d.blockAt[p].value); }
    }
    forall k | 0 <= k < |d'.instrs| ensures CoverAt(d'.instrs, d.blockAt, open, k) {
      BeginsInPrefix(d.instrs, more, k);
      if k < last { assert CoverAt(d.instrs, d.blockAt, open, k); }
      if k == last && first < last { assert !Ends(d.instrs, last - 1); }
    }
  }

  /** A non-terminator lets the open block grow. */
  lemma GrowBlock(prog: Program, d: Decoded, more: InstrMeta, pc: nat, open: nat, first: nat)
    requires |prog.mask| == |prog.code| == |d.instrIdxAt| && pc < |prog.code|
    requires more.pc == pc && more.opcode == prog.code[pc] && !IsBlockTerminator(prog.code[pc])
    requires Growing(prog, d, pc, open, first)
    ensures Growing(prog, WithInstr(d, more), NextPc(prog.mask, pc), open, first)
  {
    PrevStartAfterSkip(prog.mask, pc);
    BeginsInPrefix(d.instrs, more, first);
    NoneEndsInPrefix(d.instrs, more, first, |d.instrs|);
    assert LeadsTo(prog, pc, NextPc(prog.mask, pc));
  }

  /** The block the open one becomes once its terminator, the last instruction, is in the array. */
  function BlockUpTo(d: Decoded, open: nat, first: nat): BlockMeta
    requires first < |d.instrs|
  {
    BlockMeta(open, d.instrs[|d.instrs| - 1].pc, first, |d.instrs|, |d.instrs| - first)
  }

  /** A terminator completes the open block. */
  lemma CompleteBlock(prog: Program, d: Decoded, more: InstrMeta, pc: nat, open: nat, first: nat)
    requires |prog.mask| == |prog.code| == |d.instrIdxAt| && pc < |prog.code|
    requires more.pc == pc && more.opcode == prog.code[pc] && IsBlockTerminator(prog.code[pc])
    requires Growing(prog, d, pc, open, first)
    ensures BlockOk(WithInstr(d, more).instrs, open, BlockUpTo(WithInstr(d, more), open, first))
  {
    NoneEndsInPrefix(d.instrs, more, first, |d.instrs|);
    BeginsInPrefix(d.instrs, more, first);
  }

  /** Recording the open block completes the marks and the cover. */
  lemma RecordBlock(mask: Bitmask, instrs: seq<InstrMeta>, blockAt: seq<Option<BlockMeta>>, pc: nat, open: nat,
        b: BlockMeta)
    requires open < |mask| && mask[open] == 3 && open < pc && BlockOk(instrs, open, b) && Increasing(instrs)
    requires BlocksOk(instrs, blockAt) && Marked(mask, blockAt, pc, open) && Covered(instrs, blockAt, open)
    ensures var blockAt' := blockAt[open := Some(b)];
      BlocksOk(instrs, blockAt') && Marked(mask, blockAt', pc, -1) && Covered(instrs, blockAt', -1)
  {
    var blockAt' := blockAt[open := Some(b)];
    forall p | 0 <= p < |mask| ensures BlockAtOk(instrs, blockAt', p) && MarkedAt(mask, blockAt', pc, -1, p) {
      assert BlockAtOk(instrs, blockAt, p) && MarkedAt(mask, blockAt, pc, open, p);
    }
    forall k | 0 <= k < |instrs| ensures CoverAt(instrs, blockAt', -1, k) {
      assert CoverAt(instrs, blockAt, open, k);
      if k < b.instrStart { assert Before(instrs, k, b.instrStart); }
      if b.instrStart < k { assert Before(instrs, b.instrStart, k); }
    }
  }

  ghost predicate NoStartIn(mask: Bitmask, lo: nat, hi: nat)
  {
    forall p: nat | lo <= p < hi :: !IsStartOfBasicBlock(mask, p)
  }

  ghost predicate StartsEndBefore(prog: Program, pc: nat)
    requires |prog.mask| == |prog.code|
  {
    forall p: nat | p < pc && IsStartOfBasicBlock(prog.mask, p) :: ChainEnds(prog.code, prog.mask, p)
  }

  /** If only the block at open was recorded since, there is no other block start up to pc. */
  lemma NoOtherStart(mask: Bitmask, after: seq<Option<BlockMeta>>, before: seq<Option<BlockMeta>>, open: nat, pc: nat)
    requires Marked(mask, before, open, open) && Marked(mask, after, pc, -1)
    requires open < |mask| && after == before[open := after[open]]
    ensures NoStartIn(mask, open + 1, pc)
  {
    forall p: nat | open < p < pc ensures !IsStartOfBasicBlock(mask, p) {
      if p < |mask| { assert MarkedAt(mask, before, open, open, p) && MarkedAt(mask, after, pc, -1, p); }
    }
  }

  /** One instruction further: the open block grows, or is complete if the instruction is a terminator. */
  lemma StepInBlock(prog: Program, d: Decoded, more: InstrMeta, pc: nat, open: nat, first: nat)
    requires WellMasked(prog.code, prog.mask) && pc < |prog.code| && IsValidOpcode(prog.code[pc])
    requires more.pc == pc && more.opcode == prog.code[pc] && more == Meta(prog.code, prog.mask, pc)
    requires Scanned(prog, d, pc, open) && Growing(prog, d, pc, open, first)
    ensures Scanned(prog, WithInstr(d, more), NextPc(prog.mask, pc), open)
    ensures !IsBlockTerminator(more.opcode) ==> Growing(prog, WithInstr(d, more), NextPc(prog.mask, pc), open, first)
    ensures IsBlockTerminator(more.opcode) ==>
      BlockOk(WithInstr(d, more).instrs, open, BlockUpTo(WithInstr(d, more), open, first))
  {
    AppendInstr(prog, d, more, pc, open, first);
    if IsBlockTerminator(more.opcode) {
      CompleteBlock(prog, d, more, pc, open, first);
    } else {
      GrowBlock(prog, d, more, pc, open, first);
    }
  }

  class DecodedProgram {
    const prog: Program
    var instrs: seq<InstrMeta>
    var blockAt: seq<Option<BlockMeta>>
    var instrIdxAt: seq<int>

    constructor (prog: Program)
      ensures this.prog == prog
    {
      this.prog := prog;
    }

    ghost function View(): Decoded
      reads this
    {
      Decoded(instrs, blockAt, instrIdxAt)
    }

    /** Appending the instruction at pc to the array and entering it in the index. */
    method DecodeInstr(pc: nat, ghost open: nat, ghost first: nat) returns (skipLen: nat)
      requires WellMasked(prog.code, prog.mask) && pc < |prog.code| && IsValidOpcode(prog.code[pc])
      requires Scanned(prog, View(), pc, open) && Growing(prog, View(), pc, open, first)
      modifies this
      ensures blockAt == old(blockAt) && skipLen == Skip(prog.mask, pc)
      ensures instrs != [] && instrs[|instrs| - 1].pc == pc && first < |instrs|
      ensures Scanned(prog, View(), NextPc(prog.mask, pc), open)
      ensures !IsBlockTerminator(prog.code[pc]) ==> Growing(prog, View(), NextPc(prog.mask, pc), open, first)
      ensures IsBlockTerminator(prog.code[pc]) ==> BlockOk(instrs, open, BlockUpTo(View(), open, first))
    {
      ghost var d, more := View(), Meta(prog.code, prog.mask, pc);
      StepInBlock(prog, d, more, pc, open, first);
      skipLen := SkipLength(pc, prog.mask);
      var idx := |instrs|;
      instrs := instrs + [DecodeOperands(prog.code, pc, skipLen)];
      instrIdxAt := instrIdxAt[pc := idx];
      assert View() == WithInstr(d, more);
    }

    /** Decoding one basic block: its instructions, up to and including a terminator. */
    /** Recording the block from start to the terminator at pc. */
    method CloseBlock(start: nat, pc: nat, first: nat, next: nat)
      requires WellMasked(prog.code, prog.mask) && start < |prog.code| && prog.mask[start] == 3 && start < next
      requires instrs != [] && instrs[|instrs| - 1].pc == pc && first < |instrs|
      requires Scanned(prog, View(), next, start) && BlockOk(instrs, start, BlockUpTo(View(), start, first))
      modifies this`blockAt
      ensures Scanned(prog, View(), next, -1) && Closed(instrs)
      ensures |blockAt| == |old(blockAt)| && blockAt == old(blockAt)[start := blockAt[start]]
    {
      var block := BlockMeta(start, pc, first, |instrs|, |instrs| - first);
      RecordBlock(prog.mask, instrs, blockAt, next, start, block);
      blockAt := blockAt[start := Some(block)];
    }

    method DecodeBlock(start: nat) returns (ok: bool, pc: nat)
      requires WellMasked(prog.code, prog.mask) && start < |prog.code|
      requires Scanned(prog, View(), start, start) && Growing(prog, View(), start, start, |instrs|)
      modifies this
      ensures ok == ChainEnds(prog.code, prog.mask, start)
      ensures ok ==> start < pc && Scanned(prog, View(), pc, -1) && Closed(instrs)
      ensures ok ==> NoStartIn(prog.mask, start + 1, pc)
    {
      var code, mask := prog.code, prog.mask;
      var n, first := |code|, |instrs|;
      ghost var before := blockAt;
      pc := start;
      while true
        invariant start <= pc <= n && blockAt == before
        invariant Scanned(prog, View(), pc, start) && Growing(prog, View(), pc, start, first)
        invariant ChainEnds(code, mask, start) == ChainEnds(code, mask, pc)
        decreases n - pc
      {
        if pc >= n || !IsValidOpcode(code[pc]) { return false, pc; }
        var skipLen := DecodeInstr(pc, start, first);
        if IsBlockTerminator(code[pc]) {
          CloseBlock(start, pc, first, pc + skipLen + 1);
          NoOtherStart(mask, blockAt, before, start, pc + skipLen + 1);
          return true, pc + skipLen + 1;
        }
        pc := pc + skipLen + 1;
      }
    }

    /** Scanning the code once, block by block. */
    method PreDecodeBlocks() returns (exit: Exit)
      requires WellMasked(prog.code, prog.mask)
      modifies this
      ensures exit == Continue || exit == Panic
      ensures exit == Continue ==> WellDecoded(prog, View())
      ensures exit == Continue <==>
        forall p: nat | IsStartOfBasicBlock(prog.mask, p) :: ChainEnds(prog.code, prog.mask, p)
    {
      var n := |prog.code|;
      instrs := [];
      blockAt := seq(n, _ => None);
      instrIdxAt := seq(n, _ => -1);
      var pc := 0;
      while pc < n
        invariant 0 <= pc <= n && Scanned(prog, View(), pc, -1) && Closed(instrs)
        invariant StartsEndBefore(prog, pc)
        decreases n - pc
      {
        if !IsStartOfBasicBlock(prog.mask, pc) {
          StepOver(prog, View(), pc);
          pc := pc + 1;
          continue;
        }
        OpenBlock(prog, View(), pc);
        var ok, next := DecodeBlock(pc);
        if !ok { return Panic; }
        pc := next;
      }
      exit := Continue;
    }
  }
}
