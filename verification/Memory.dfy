/**
 * Guest memory. `PageTable` is the value of a memory, and the specification of every access
 * is given on it byte by byte, as if memory were flat; page boundaries do not occur there.
 * `Memory` is the page table the virtual machine keeps: pages are byte buffers written in place.
 */
module PageTables {
  import opened Words

  const ZP: int := 4096

  /** Addresses below this bound are never accessible to loads and stores. */
  const GUARD: int := 0x1_0000

  datatype Access = Inaccessible | ReadOnly | ReadWrite

  datatype RawPage = RawPage(value: seq<byte>, access: Access)

  type Page = p: RawPage | |p.value| == ZP
    witness RawPage(seq(ZP, _ => 0), Inaccessible)

  type PageTable = map<nat, Page>

  /** The exit reasons of the machine; Crash is a run-time fault of the host language. */
  datatype Exit =
    | Continue
    | Halt
    | Panic
    | OutOfGas
    | PageFault(address: nat)
    | HostCall(id: nat)
    | Garbled(bits: nat)
    | Crash

  predicate Readable(t: PageTable, a: nat) { a / ZP in t }

  predicate Writable(t: PageTable, a: nat) { a / ZP in t && t[a / ZP].access == ReadWrite }

  predicate ReadableRange(t: PageTable, a: nat, n: nat)
  {
    forall x: nat | a <= x < a + n :: Readable(t, x)
  }

  predicate WritableRange(t: PageTable, a: nat, n: nat)
  {
    forall x: nat | a <= x < a + n :: Writable(t, x)
  }

  function ByteAt(t: PageTable, a: nat): byte
    requires Readable(t, a)
  {
    t[a / ZP].value[a % ZP]
  }

  /** The n bytes from address a on. */
  function BytesAt(t: PageTable, a: nat, n: nat): (s: seq<byte>)
    requires ReadableRange(t, a, n)
    ensures |s| == n
  {
    seq<byte>(n, i requires 0 <= i < n => ByteAt(t, a + i))
  }

  /** The table in which the bytes from address a on are bs and every other byte is as in t. */
  function WithBytes(t: PageTable, a: nat, bs: seq<byte>): PageTable
  {
    map p | p in t ::
      t[p].(value := seq<byte>(ZP, i requires 0 <= i < ZP =>
        if a <= p * ZP + i < a + |bs| then bs[p * ZP + i - a] else t[p].value[i]))
  }

  /** Storing the low `size` bytes of a word. */
  function Stored(t: PageTable, size: nat, a: nat, word: u64): (Exit, PageTable)
  {
    if a < GUARD then (Panic, t)
    else if WritableRange(t, a, size) then (Continue, WithBytes(t, a, ToBytes(word, size)))
    else (PageFault(a), t)
  }

  /** Loading `size` bytes as an unsigned word. */
  function Loaded(t: PageTable, size: nat, a: nat): (r: (Exit, u64))
    requires size <= 8
  {
    if a < GUARD then (Panic, 0)
    else if ReadableRange(t, a, size) then
      WordBound(BytesAt(t, a, size));
      (Continue, FromBytes(BytesAt(t, a, size)))
    else (PageFault(a), 0)
  }

  lemma WordBound(s: seq<byte>)
    requires |s| <= 8
    ensures FromBytes(s) < TWO64
  {
    Pow256Monotone(|s|, 8);
    assert Pow256(8) == TWO64 by {
      assert Pow256(1) == 256;
      assert Pow256(2) == 256 * Pow256(1);
      assert Pow256(3) == 256 * Pow256(2);
      assert Pow256(4) == 256 * Pow256(3);
      assert Pow256(5) == 256 * Pow256(4);
      assert Pow256(6) == 256 * Pow256(5);
      assert Pow256(7) == 256 * Pow256(6);
    }
  }

  lemma {:induction false} Pow256Monotone(m: nat, n: nat)
    requires m <= n
    ensures Pow256(m) <= Pow256(n)
    decreases n - m
  {
    if m < n { Pow256Monotone(m, n - 1); }
  }

  datatype Mem = Mem(pages: PageTable, heapPointer: u64, heapLimit: u64)

  /** Rounding up to a page boundary in 32-bit arithmetic. */
  function PageAlign(x: nat): u32 { ZP * (Wrap32(x + ZP - 1) / ZP) }

  function ZeroPage(access: Access): Page { RawPage(seq<byte>(ZP, _ => 0), access) }

  /** The table with zeroed pages added where [lo, hi) has none. */
  function WithZeroPages(t: PageTable, lo: nat, hi: nat, access: Access): PageTable
    decreases hi
  {
    if lo >= hi then t
    else
      var below := WithZeroPages(t, lo, hi - 1, access);
      if hi - 1 in below then below else below[hi - 1 := ZeroPage(access)]
  }

  /** Mapping zeroed pages changes no page that is there and adds zeroed ones in the range only. */
  lemma {:induction false} ZeroPagesAreNew(t: PageTable, lo: nat, hi: nat, access: Access)
    ensures var t' := WithZeroPages(t, lo, hi, access);
      && (forall p: nat :: p in t' <==> p in t || lo <= p < hi)
      && (forall p | p in t' :: t'[p] == if p in t then t[p] else ZeroPage(access))
    decreases hi
  {
    if lo < hi { ZeroPagesAreNew(t, lo, hi - 1, access); }
  }

  /** Growing the heap: the new memory and the value left in the destination register. */
  function Sbrk(mem: Mem, amount: u64): (Mem, u64)
  {
    if amount == 0 then (mem, mem.heapPointer)
    else
      var top := AddWrap(mem.heapPointer, amount);
      if top < mem.heapPointer || top > mem.heapLimit then (mem, 0)
      else if top > PageAlign(mem.heapPointer) then
        (Mem(WithZeroPages(mem.pages, mem.heapPointer / ZP, PageAlign(top) / ZP, ReadWrite), top, mem.heapLimit), top)
      else (mem.(heapPointer := top), top)
  }

  /** Writing is flat: it maps nothing, unmaps nothing, and touches the addressed bytes only. */
  lemma WithBytesIsFlat(t: PageTable, a: nat, bs: seq<byte>)
    ensures WithBytes(t, a, bs).Keys == t.Keys
    ensures forall p | p in t :: WithBytes(t, a, bs)[p].access == t[p].access
    ensures forall x: nat | Readable(t, x) ::
      ByteAt(WithBytes(t, a, bs), x) == if a <= x < a + |bs| then bs[x - a] else ByteAt(t, x)
  {
    forall x: nat | Readable(t, x)
      ensures ByteAt(WithBytes(t, a, bs), x) == if a <= x < a + |bs| then bs[x - a] else ByteAt(t, x)
    {
      assert (x / ZP) * ZP + x % ZP == x;
    }
  }

  /** A successful store is read back by the load of the same size, whatever pages it spans. */
  lemma LoadAfterStore(t: PageTable, size: nat, a: nat, word: u64)
    requires size <= 8
    requires Stored(t, size, a, word).0 == Continue
    ensures Loaded(Stored(t, size, a, word).1, size, a) == (Continue, word % Pow256(size))
  {
    var bs := ToBytes(word, size);
    var t' := WithBytes(t, a, bs);
    WithBytesIsFlat(t, a, bs);
    assert ReadableRange(t', a, size) by {
      forall x: nat | a <= x < a + size ensures Readable(t', x) { assert Writable(t, x); }
    }
    var got := BytesAt(t', a, size);
    forall i | 0 <= i < size ensures got[i] == bs[i] { assert Readable(t', a + i); }
    assert got == bs;
    FromToBytes(word, size);
  }

  /** A store changes no load from bytes it does not overlap. */
  lemma LoadElsewhere(t: PageTable, size: nat, a: nat, word: u64, size': nat, b: nat)
    requires size' <= 8
    requires b + size' <= a || a + size <= b
    ensures Loaded(Stored(t, size, a, word).1, size', b) == Loaded(t, size', b)
  {
    var bs := ToBytes(word, size);
    var t' := WithBytes(t, a, bs);
    WithBytesIsFlat(t, a, bs);
    assert forall x: nat :: Readable(t', x) == Readable(t, x);
    if ReadableRange(t, b, size') {
      assert BytesAt(t', b, size') == BytesAt(t, b, size');
    }
  }
}

/** The page table of the virtual machine, with its pages as buffers that are written in place. */
module PagedMemory {
  import opened Words
  import opened PageTables

  datatype PageRef = PageRef(value: array<byte>, access: Access)

  class Memory {
    var pages: map<nat, PageRef>
    var heapPointer: u64
    const heapLimit: u64

    /** The buffers of all mapped pages. */
    ghost var buffers: set<array<byte>>

    /** Every page has its own buffer of ZP bytes. */
    ghost predicate Valid()
      reads this, buffers
    {
      && (forall p | p in pages :: pages[p].value in buffers && pages[p].value.Length == ZP)
      && (forall p, q | p in pages && q in pages && p != q :: pages[p].value != pages[q].value)
    }

    /** The table this memory stands for. */
    ghost function View(): PageTable
      reads this, buffers
      requires Valid()
    {
      map p | p in pages :: RawPage(pages[p].value[..], pages[p].access)
    }

    constructor (heapPointer: u64, heapLimit: u64)
      ensures Valid() && View() == map[] && buffers == {}
      ensures this.heapPointer == heapPointer && this.heapLimit == heapLimit
    {
      this.pages := map[];
      this.buffers := {};
      this.heapPointer := heapPointer;
      this.heapLimit := heapLimit;
    }

    method GetPageAccess(index: nat) returns (access: Access)
      requires Valid()
      ensures access == if index in View() then View()[index].access else Inaccessible
    {
      if index !in pages { return Inaccessible; }
      return pages[index].access;
    }

    /** Copying into one page, in place. */
    method CopyIntoPage(p: nat, at: nat, src: seq<byte>)
      requires Valid() && p in pages && at + |src| <= ZP
      modifies buffers
      ensures Valid() && buffers == old(buffers)
      ensures View() == Spliced(old(View()), p, at, src)
    {
      ghost var before := View();
      CopyInto(pages[p].value, at, src);
      forall q | q in pages ensures View()[q] == Spliced(before, p, at, src)[q] {
        assert q != p ==> pages[q].value[..] == before[q].value;
      }
    }

    /** Copying across a page boundary, in place. */
    method CopyAcrossPages(p: nat, at: nat, src: seq<byte>)
      requires Valid() && p in pages && p + 1 in pages && at <= ZP < at + |src| <= 2 * ZP
      modifies buffers
      ensures Valid() && buffers == old(buffers)
      ensures View() == Spliced(Spliced(old(View()), p, at, src[..ZP - at]), p + 1, 0, src[ZP - at..])
    {
      CopyIntoPage(p, at, src[..ZP - at]);
      CopyIntoPage(p + 1, 0, src[ZP - at..]);
    }

    /** Storing in place, with a fast path for one page and a slow path across two. */
    method Store(size: nat, address: u32, word: u64) returns (exit: Exit)
      requires Valid() && size in {1, 2, 4, 8}
      modifies buffers
      ensures Valid() && buffers == old(buffers)
      ensures (exit, View()) == Stored(old(View()), size, address, word)
    {
      if address < GUARD { return Panic; }
      var page, index := address / ZP, address % ZP;
      StoredByPages(View(), size, address, word);
      if page !in pages || pages[page].access != ReadWrite { return PageFault(address); }
      var src := ToBytes(word, size);
      if index + size <= ZP {
        CopyIntoPage(page, index, src);
        return Continue;
      }
      if page + 1 !in pages || pages[page + 1].access != ReadWrite { return PageFault(address); }
      CopyAcrossPages(page, index, src);
      exit := Continue;
    }

    /** Loading, with a fast path for one page and a slow path that assembles a buffer. */
    method Load(size: nat, address: u32) returns (word: u64, exit: Exit)
      requires Valid() && size in {1, 2, 4, 8}
      ensures (exit, word) == Loaded(View(), size, address)
    {
      if address < GUARD { return 0, Panic; }
      var page, index := address / ZP, address % ZP;
      if page !in pages {
        assert !Readable(View(), address);
        return 0, PageFault(address);
      }
      var buf: seq<byte>;
      if index + size <= ZP {
        buf := pages[page].value[index..index + size];
      } else {
        if page + 1 !in pages {
          assert !Readable(View(), (page + 1) * ZP);
          return 0, PageFault(address);
        }
        var first := ZP - index;
        buf := pages[page].value[index..] + pages[page + 1].value[..size - first];
      }
      LoadedByPages(View(), size, address);
      WordBound(buf);
      return FromBytes(buf), Continue;
    }

    /** Are all pages under [start, start + offset) mapped and accessible? */
    method IsReadable(start: u64, offset: u64) returns (ok: bool)
      requires Valid()
      ensures ok == ReadableSpan(View(), start, offset)
    {
      if offset == 0 { return true; }
      if offset > TWO32 || start > TWO32 - offset { return false; }
      var endPage := (start + offset - 1) / ZP;
      var p := start / ZP;
      ghost var t := View();
      while p <= endPage
        invariant start / ZP <= p <= endPage + 1 && View() == t
        invariant forall x: nat | start <= x < start + offset && x / ZP < p :: AccessOf(t, x) != Inaccessible
      {
        var access := GetPageAccess(p);
        if access == Inaccessible {
          Blocked(View(), start, offset, p);
          return false;
        }
        p := p + 1;
      }
      return true;
    }

    /** Are all pages under [start, start + offset) mapped read-write? */
    method IsWriteable(start: u64, offset: u64) returns (ok: bool)
      requires Valid()
      ensures ok == WritableSpan(View(), start, offset)
    {
      if offset == 0 { return true; }
      if offset > TWO32 || start > TWO32 - offset { return false; }
      var endPage := (start + offset - 1) / ZP;
      var p := start / ZP;
      ghost var t := View();
      while p <= endPage
        invariant start / ZP <= p <= endPage + 1 && View() == t
        invariant forall x: nat | start <= x < start + offset && x / ZP < p :: AccessOf(t, x) == ReadWrite
      {
        var access := GetPageAccess(p);
        if access != ReadWrite {
          Blocked(View(), start, offset, p);
          return false;
        }
        p := p + 1;
      }
      return true;
    }

    /** Reading any number of bytes, page after page. */
    method Read(start: u64, offset: u64) returns (buffer: seq<byte>)
      requires Valid() && ReadableRange(View(), start, offset)
      ensures ReadableRange(View(), start, offset) && buffer == BytesAt(View(), start, offset)
    {
      buffer := [];
      var page, index := start / ZP, start % ZP;
      ghost var t := View();
      while |buffer| < offset
        invariant |buffer| <= offset && 0 <= index < ZP && View() == t
        invariant |buffer| < offset ==> page * ZP + index == start + |buffer|
        invariant ReadableRange(t, start, |buffer|) && buffer == BytesAt(t, start, |buffer|)
      {
        var n := Min(offset - |buffer|, ZP - index);
        assert Readable(t, start + |buffer|);
        var more := pages[page].value[index..index + n];
        ReadInTwo(t, start, |buffer|, n, page, index);
        buffer := buffer + more;
        page, index := page + 1, 0;
      }
    }

    /** Writing any number of bytes, page after page, in place. */
    method Write(start: u64, data: seq<byte>)
      requires Valid() && ReadableRange(View(), start, |data|)
      modifies buffers
      ensures Valid() && buffers == old(buffers)
      ensures View() == WithBytes(old(View()), start, data)
    {
      ghost var before := View();
      var copied := 0;
      var page, index := start / ZP, start % ZP;
      WriteNothing(before, start);
      while copied < |data|
        invariant 0 <= copied <= |data| && 0 <= index < ZP
        invariant copied < |data| ==> page * ZP + index == start + copied
        invariant Valid() && buffers == old(buffers)
        invariant View() == WithBytes(before, start, data[..copied])
      {
        assert Readable(before, start + copied);
        var n := Min(|data| - copied, ZP - index);
        WriteStep(before, start, data, copied, n, page, index);
        CopyIntoPage(page, index, data[copied..copied + n]);
        copied := copied + n;
        page, index := page + 1, 0;
      }
      assert data[..|data|] == data;
    }

    /** Mapping a page, with fresh contents. */
    method MapPage(page: nat, contents: Page)
      requires Valid()
      modifies this`pages, this`buffers
      ensures Valid() && buffers >= old(buffers) && fresh(buffers - old(buffers))
      ensures View() == old(View())[page := contents]
    {
      var value := new byte[ZP](i requires 0 <= i < ZP => contents.value[i]);
      assert value[..] == contents.value;
      ghost var before := View();
      pages := pages[page := PageRef(value, contents.access)];
      buffers := buffers + {value};
      forall p | p in pages ensures View()[p] == before[page := contents][p] {
        assert p != page ==> pages[p].value[..] == before[p].value;
      }

    }

    /** Mapping a zeroed page unless one is mapped already. */
    method MapZeroPage(page: nat, access: Access)
      requires Valid()
      modifies this`pages, this`buffers
      ensures Valid() && buffers >= old(buffers) && fresh(buffers - old(buffers))
      ensures View() == if page in old(View()) then old(View()) else old(View())[page := ZeroPage(access)]
    {
      if page !in pages { MapPage(page, ZeroPage(access)); }
    }

    /** Mapping zeroed pages over [start, end) where none are mapped yet. */
    method AllocateZeroPages(start: nat, end: nat, access: Access)
      requires Valid()
      modifies this`pages, this`buffers
      ensures Valid() && buffers >= old(buffers) && fresh(buffers - old(buffers))
      ensures View() == WithZeroPages(old(View()), start / ZP, start / ZP + PagesOver(start, end), access)
    {
      ghost var before, now := View(), View();
      ghost var lo, hi := start / ZP, start / ZP;
      var addr := start;
      while addr < end
        invariant lo <= hi && addr == start + (hi - lo) * ZP && (lo < hi ==> addr - ZP < end)
        invariant Valid() && buffers >= old(buffers) && fresh(buffers - old(buffers))
        invariant View() == now && now == WithZeroPages(before, lo, hi, access)
      {
        InPage(addr, hi, start % ZP);
        MapZeroPage(addr / ZP, access);
        now := if hi in now then now else now[hi := ZeroPage(access)];
        addr, hi := addr + ZP, hi + 1;
      }
      StepsOver(start, end, hi - lo);
    }

    /** Growing the heap and mapping the pages it grows into. */
    method Grow(amount: u64) returns (result: u64)
      requires Valid() && heapPointer <= heapLimit <= TWO32 - ZP
      modifies this
      ensures Valid() && buffers >= old(buffers) && fresh(buffers - old(buffers))
      ensures heapPointer <= heapLimit
      ensures var (mem, r) := Sbrk(old(Mem(View(), heapPointer, heapLimit)), amount);
        View() == mem.pages && heapPointer == mem.heapPointer && result == r
    {
      if amount == 0 { return heapPointer; }
      var top := AddWrap(heapPointer, amount);
      if top < heapPointer || top > heapLimit { return 0; }
      if top > PageAlign(heapPointer) {
        AlignUp(heapPointer);
        GrowthPages(heapPointer, top);
        AllocateZeroPages(heapPointer, PageAlign(top), ReadWrite);
      }
      ghost var grown := View();
      heapPointer := top;
      assert View() == grown;
      result := top;
    }
  }

  /** The number of steps of one page from start that stay below end. */
  function PagesOver(start: nat, end: nat): nat
  {
    if end <= start then 0 else (end - start + ZP - 1) / ZP
  }

  lemma StepsOver(start: nat, end: nat, k: nat)
    requires start + k * ZP >= end && (k > 0 ==> start + (k - 1) * ZP < end)
    ensures PagesOver(start, end) == k
  {}

  lemma GrowthPages(pointer: u64, top: u64)
    requires pointer <= PageAlign(pointer) < top <= TWO32 - ZP
    ensures pointer / ZP + PagesOver(pointer, PageAlign(top)) == PageAlign(top) / ZP
  {
    AlignUp(top);
    var pages := PageAlign(top) / ZP - pointer / ZP;
    assert pointer / ZP * ZP + pointer % ZP == pointer;
    StepsOver(pointer, PageAlign(top), pages);
  }

  /** Rounding up without overflow. */
  lemma AlignUp(x: nat)
    requires x <= TWO32 - ZP
    ensures x <= PageAlign(x) < x + ZP && PageAlign(x) % ZP == 0
  {}

  /** The access right of the page an address lies in. */
  function AccessOf(t: PageTable, x: nat): Access
  {
    if x / ZP in t then t[x / ZP].access else Inaccessible
  }

  predicate ReadableSpan(t: PageTable, start: u64, offset: u64)
  {
    offset == 0 ||
    (start + offset <= TWO32 && forall x: nat | start <= x < start + offset :: AccessOf(t, x) != Inaccessible)
  }

  predicate WritableSpan(t: PageTable, start: u64, offset: u64)
  {
    offset == 0 ||
    (start + offset <= TWO32 && forall x: nat | start <= x < start + offset :: AccessOf(t, x) == ReadWrite)
  }

  lemma InPage(x: nat, page: nat, at: nat)
    requires x == page * ZP + at && at < ZP
    ensures x / ZP == page && x % ZP == at
  {}

  /** A page inside a span decides whether the span is accessible. */
  lemma Blocked(t: PageTable, start: u64, offset: u64, p: nat)
    requires offset > 0 && start / ZP <= p <= (start + offset - 1) / ZP
    ensures ReadableSpan(t, start, offset) && p in t ==> t[p].access != Inaccessible
    ensures ReadableSpan(t, start, offset) ==> p in t
    ensures WritableSpan(t, start, offset) ==> p in t && t[p].access == ReadWrite
  {
    var x := Max(start, p * ZP);
    InPage(x, p, x - p * ZP);
    assert start <= x < start + offset;
    var access := AccessOf(t, x);
  }

  /** What a store does, told by the one or two pages it meets. */
  lemma StoredByPages(t: PageTable, size: nat, a: nat, word: u64)
    requires GUARD <= a && 0 < size <= ZP
    ensures var p, at, src := a / ZP, a % ZP, ToBytes(word, size);
      Stored(t, size, a, word) ==
        if p !in t || t[p].access != ReadWrite then (PageFault(a), t)
        else if at + size <= ZP then (Continue, Spliced(t, p, at, src))
        else if p + 1 !in t || t[p + 1].access != ReadWrite then (PageFault(a), t)
        else (Continue, Spliced(Spliced(t, p, at, src[..ZP - at]), p + 1, 0, src[ZP - at..]))
  {
    var p, at, src := a / ZP, a % ZP, ToBytes(word, size);
    if p !in t || t[p].access != ReadWrite {
      assert !Writable(t, a);
    } else if at + size <= ZP {
      SpliceOne(t, a, src);
    } else if p + 1 !in t || t[p + 1].access != ReadWrite {
      InPage((p + 1) * ZP, p + 1, 0);
      assert !Writable(t, (p + 1) * ZP);
    } else {
      SpliceTwo(t, a, src);
    }
  }

  /** What a load reads, told by the one or two pages it meets. */
  lemma LoadedByPages(t: PageTable, size: nat, a: nat)
    requires 0 < size <= ZP
    ensures var p, at := a / ZP, a % ZP;
      if p !in t then !ReadableRange(t, a, size)
      else if at + size <= ZP then
        ReadableRange(t, a, size) && BytesAt(t, a, size) == t[p].value[at..at + size]
      else if p + 1 !in t then !ReadableRange(t, a, size)
      else
        ReadableRange(t, a, size) && BytesAt(t, a, size) == t[p].value[at..] + t[p + 1].value[..size - (ZP - at)]
  {
    var p, at := a / ZP, a % ZP;
    if p !in t {
      assert !Readable(t, a);
    } else if at + size > ZP && p + 1 !in t {
      InPage((p + 1) * ZP, p + 1, 0);
      assert !Readable(t, (p + 1) * ZP);
    } else {
      var all := BytesAt(t, a, size);
      forall i | 0 <= i < size
        ensures all[i] == if at + i < ZP then t[p].value[at + i] else t[p + 1].value[at + i - ZP]
      {
        assert Readable(t, a + i);
        if at + i < ZP { InPage(a + i, p, at + i); } else { InPage(a + i, p + 1, at + i - ZP); }
      }
    }
  }

  /** Reading on within one page appends a slice of it. */
  lemma ReadInTwo(t: PageTable, a: nat, m: nat, n: nat, page: nat, index: nat)
    requires ReadableRange(t, a, m) && page in t && page * ZP + index == a + m && index + n <= ZP
    ensures ReadableRange(t, a, m + n)
    ensures BytesAt(t, a, m + n) == BytesAt(t, a, m) + t[page].value[index..index + n]
  {
    assert ReadableRange(t, a, m + n);
    var s1, s2 := BytesAt(t, a, m + n), BytesAt(t, a, m) + t[page].value[index..index + n];
    forall i | 0 <= i < m + n ensures s1[i] == s2[i] {
      assert Readable(t, a + i);
      if i >= m { InPage(a + i, page, index + i - m); }
    }
    assert s1 == s2;
  }

  lemma WriteNothing(t: PageTable, a: nat)
    ensures WithBytes(t, a, []) == t
  {
    forall p | p in t ensures WithBytes(t, a, [])[p] == t[p] {
      assert WithBytes(t, a, [])[p].value == t[p].value;
    }
  }

  /** Writing two adjacent byte strings is writing their concatenation. */
  lemma WriteInTwo(t: PageTable, a: nat, xs: seq<byte>, ys: seq<byte>)
    ensures WithBytes(WithBytes(t, a, xs), a + |xs|, ys) == WithBytes(t, a, xs + ys)
  {
    var t1, t2 := WithBytes(WithBytes(t, a, xs), a + |xs|, ys), WithBytes(t, a, xs + ys);
    forall p | p in t ensures t1[p] == t2[p] {
      assert t1[p].value == t2[p].value;
    }
  }

  /** Writing on within one page splices into it. */
  lemma WriteStep(t: PageTable, a: nat, data: seq<byte>, m: nat, n: nat, page: nat, index: nat)
    requires m + n <= |data| && page in t && page * ZP + index == a + m && index + n <= ZP && index < ZP
    ensures Spliced(WithBytes(t, a, data[..m]), page, index, data[m..m + n]) == WithBytes(t, a, data[..m + n])
  {
    InPage(a + m, page, index);
    SpliceOne(WithBytes(t, a, data[..m]), a + m, data[m..m + n]);
    WriteInTwo(t, a, data[..m], data[m..m + n]);
    assert data[..m] + data[m..m + n] == data[..m + n];
  }

  /** A span that may be written can be written, read back, and disturbs no byte outside it. */
  lemma WriteThenRead(t: PageTable, start: u64, data: seq<byte>)
    requires |data| < TWO64 && WritableSpan(t, start, |data|)
    ensures ReadableRange(t, start, |data|)
    ensures var t' := WithBytes(t, start, data);
      && ReadableRange(t', start, |data|) && BytesAt(t', start, |data|) == data
      && (forall x: nat | Readable(t, x) && !(start <= x < start + |data|) ::
            Readable(t', x) && ByteAt(t', x) == ByteAt(t, x))
      && (forall x: nat :: AccessOf(t', x) == AccessOf(t, x))
  {
    var t' := WithBytes(t, start, data);
    assert ReadableRange(t, start, |data|) by {
      forall x: nat | start <= x < start + |data| ensures Readable(t, x) { assert AccessOf(t, x) == ReadWrite; }
    }
    WithBytesIsFlat(t, start, data);
    forall x: nat | Readable(t, x) ensures Readable(t', x) {}
    var got := BytesAt(t', start, |data|);
    forall i | 0 <= i < |data| ensures got[i] == data[i] { assert Readable(t', start + i); }
    assert got == data;
  }

  /** The table in which page p has bs from offset at on. */
  function Spliced(t: PageTable, p: nat, at: nat, bs: seq<byte>): PageTable
    requires p in t && at + |bs| <= ZP
  {
    t[p := t[p].(value := t[p].value[..at] + bs + t[p].value[at + |bs|..])]
  }

  /** An access inside one page, as a flat access. */
  lemma SpliceOne(t: PageTable, a: nat, bs: seq<byte>)
    requires a / ZP in t && a % ZP + |bs| <= ZP
    ensures WithBytes(t, a, bs) == Spliced(t, a / ZP, a % ZP, bs)
    ensures t[a / ZP].access == ReadWrite ==> WritableRange(t, a, |bs|)
  {
    var t1, t2 := WithBytes(t, a, bs), Spliced(t, a / ZP, a % ZP, bs);
    forall p | p in t ensures t1[p] == t2[p] {
      assert t1[p].value == t2[p].value;
    }
  }

  /** An access across two pages, as a flat access. */
  lemma SpliceTwo(t: PageTable, a: nat, bs: seq<byte>)
    requires a / ZP in t && t[a / ZP].access == ReadWrite
    requires a / ZP + 1 in t && t[a / ZP + 1].access == ReadWrite
    requires ZP < a % ZP + |bs| <= 2 * ZP
    ensures WithBytes(t, a, bs)
         == Spliced(Spliced(t, a / ZP, a % ZP, bs[..ZP - a % ZP]), a / ZP + 1, 0, bs[ZP - a % ZP..])
    ensures WritableRange(t, a, |bs|)
  {
    var first := ZP - a % ZP;
    var t1, t2 := WithBytes(t, a, bs), Spliced(Spliced(t, a / ZP, a % ZP, bs[..first]), a / ZP + 1, 0, bs[first..]);
    forall p | p in t ensures t1[p] == t2[p] {
      assert t1[p].value == t2[p].value;
    }
  }

  /** The built-in copy of a byte string into a buffer. */
  method CopyInto(dst: array<byte>, at: nat, src: seq<byte>)
    requires at + |src| <= dst.Length
    modifies dst
    ensures dst[..] == old(dst[..at]) + src + old(dst[at + |src|..])
  {
    for i := 0 to |src|
      invariant dst[..] == old(dst[..at]) + src[..i] + old(dst[at + i..])
    {
      dst[at + i] := src[i];
    }
  }
}
