/**
 * The memory a program starts with: read-only data, read-write data and heap, stack and argument, each at its
 * own place; and the heap growing from there.
 */
module Initializer {
  import opened Words
  import opened PageTables
  import opened PagedMemory

  /** The size of a memory zone and of the argument zone. */
  const ZZ: int := 0x1_0000
  const ZI: int := 0x100_0000

  const STACK_END: int := TWO32 - 2 * ZZ - ZI
  const ARGUMENT_START: int := TWO32 - ZZ - ZI

  /** Rounding up to a zone boundary in 32-bit arithmetic. */
  function ZoneAlign(x: nat): u32 { ZZ * (Wrap32(x + ZZ - 1) / ZZ) }

  /** The parts of a program: read-only and read-write data, extra heap pages, stack size and code. */
  datatype Parts = Parts(ro: seq<byte>, rw: seq<byte>, pages: nat, stack: nat, code: seq<byte>)

  /** A fixed-width number at the front of some data, and what follows it. */
  function ReadUintFixed(data: seq<byte>, n: nat): Option<(nat, seq<byte>)>
  {
    if |data| < n then None else Some((FromBytes(data[..n]), data[n..]))
  }

  function ReadBytes(data: seq<byte>, n: nat): Option<(seq<byte>, seq<byte>)>
  {
    if |data| < n then None else Some((data[..n], data[n..]))
  }

  /** The parts of a program, in the order in which they are stored; what follows them is ignored. */
  function Parse(p: seq<byte>): Option<Parts>
  {
    match ReadUintFixed(p, 3)
    case None => None
    case Some((n, p1)) =>
    match ReadUintFixed(p1, 3)
    case None => None
    case Some((m, p2)) =>
    match ReadUintFixed(p2, 2)
    case None => None
    case Some((z, p3)) =>
    match ReadUintFixed(p3, 3)
    case None => None
    case Some((s, p4)) =>
    match ReadBytes(p4, n)
    case None => None
    case Some((o, p5)) =>
    match ReadBytes(p5, m)
    case None => None
    case Some((w, p6)) =>
    match ReadUintFixed(p6, 4)
    case None => None
    case Some((k, p7)) =>
    match ReadBytes(p7, k)
    case None => None
    case Some((c, _)) => Some(Parts(o, w, z, s, c))
  }

  /** The standard form of a program. */
  function Serialized(x: Parts): seq<byte>
  {
    ToBytes(|x.ro|, 3) + ToBytes(|x.rw|, 3) + ToBytes(x.pages, 2) + ToBytes(x.stack, 3) + x.ro + x.rw
      + ToBytes(|x.code|, 4) + x.code
  }

  /** Parts whose sizes fit their fields. */
  predicate Sized(x: Parts)
  {
    |x.ro| < 0x100_0000 && |x.rw| < 0x100_0000 && x.pages < 0x1_0000 && x.stack < 0x100_0000 && |x.code| < TWO32
  }

  lemma ReadBack(x: nat, n: nat, rest: seq<byte>)
    requires x < Pow256(n)
    ensures ReadUintFixed(ToBytes(x, n) + rest, n) == Some((x, rest))
  {
    var data := ToBytes(x, n) + rest;
    assert data[..n] == ToBytes(x, n) && data[n..] == rest;
    FromToBytes(x, n);
    SmallRemainder(x, Pow256(n));
  }

  lemma SmallRemainder(x: nat, p: nat)
    requires x < p
    ensures x % p == x
  {}

  lemma TakeBack(s: seq<byte>, rest: seq<byte>)
    ensures ReadBytes(s + rest, |s|) == Some((s, rest))
  {
    assert (s + rest)[..|s|] == s && (s + rest)[|s|..] == rest;
  }

  lemma FieldSizes()
    ensures Pow256(2) == 0x1_0000 && Pow256(3) == 0x100_0000 && Pow256(4) == TWO32
  {
    assert Pow256(1) == 256 * Pow256(0);
    assert Pow256(2) == 256 * Pow256(1);
    assert Pow256(3) == 256 * Pow256(2);
  }

  lemma Regroup<T>(a: seq<T>, b: seq<T>, c: seq<T>, d: seq<T>, e: seq<T>, f: seq<T>, g: seq<T>, h: seq<T>, rest: seq<T>)
    ensures (a + b + c + d + e + f + g + h) + rest == a + (b + (c + (d + (e + (f + (g + (h + rest)))))))
  {
    RegroupFour(e, f, g, h, rest);
    RegroupFour(a, b, c, d, e + f + g + h + rest);
    assert a + b + c + d + e + f + g + h + rest == a + b + c + d + (e + f + g + h + rest);
  }

  lemma RegroupFour<T>(a: seq<T>, b: seq<T>, c: seq<T>, d: seq<T>, rest: seq<T>)
    ensures a + b + c + d + rest == a + (b + (c + (d + rest)))
  {
    assert a + b + c + d + rest == a + b + c + (d + rest);
    assert a + b + c + (d + rest) == a + b + (c + (d + rest));
  }

  /** Parsing the standard form of a program gives its parts back. */
  lemma ParseSerialized(x: Parts, rest: seq<byte>)
    requires Sized(x)
    ensures Parse(Serialized(x) + rest) == Some(x)
  {
    FieldSizes();
    var p7 := x.code + rest;
    var p6 := ToBytes(|x.code|, 4) + p7;
    var p5 := x.rw + p6;
    var p4 := x.ro + p5;
    var p3 := ToBytes(x.stack, 3) + p4;
    var p2 := ToBytes(x.pages, 2) + p3;
    var p1 := ToBytes(|x.rw|, 3) + p2;
    Regroup(ToBytes(|x.ro|, 3), ToBytes(|x.rw|, 3), ToBytes(x.pages, 2), ToBytes(x.stack, 3), x.ro, x.rw,
            ToBytes(|x.code|, 4), x.code, rest);
    ReadBack(|x.ro|, 3, p1);
    ReadBack(|x.rw|, 3, p2);
    ReadBack(x.pages, 2, p3);
    ReadBack(x.stack, 3, p4);
    TakeBack(x.ro, p5);
    TakeBack(x.rw, p6);
    ReadBack(|x.code|, 4, p7);
    TakeBack(x.code, rest);
  }

  lemma ParsedIsSized(p: seq<byte>)
    requires Parse(p).Some?
    ensures Sized(Parse(p).value)
  {
    FieldSizes();
  }

  /** The number of pages that n bytes take. */
  function Pages(n: nat): nat { (n + ZP - 1) / ZP }

  /** Page k of some contents, filled up with zeros. */
  function PageOf(content: seq<byte>, k: nat, access: Access): Page
  {
    RawPage(seq<byte>(ZP, i requires 0 <= i < ZP => if k * ZP + i < |content| then content[k * ZP + i] else 0), access)
  }

  /** Contents mapped from a page on, replacing what is there. */
  function WithSegment(t: PageTable, page: nat, content: seq<byte>, access: Access, count: nat): PageTable
    decreases count
  {
    if count == 0 then t
    else WithSegment(t, page, content, access, count - 1)[page + (count - 1) := PageOf(content, count - 1, access)]
  }

  function Segment(t: PageTable, page: nat, content: seq<byte>, access: Access): PageTable
  {
    WithSegment(t, page, content, access, Pages(|content|))
  }

  lemma {:induction false} SegmentPages(t: PageTable, page: nat, content: seq<byte>, access: Access, count: nat)
    ensures var t' := WithSegment(t, page, content, access, count);
      && (forall p: nat :: p in t' <==> p in t || page <= p < page + count)
      && (forall p | p in t' :: t'[p] == if page <= p < page + count then PageOf(content, p - page, access) else t[p])
    decreases count
  {
    if count > 0 {
      SegmentPages(t, page, content, access, count - 1);
      var below, last := WithSegment(t, page, content, access, count - 1), page + (count - 1);
      assert WithSegment(t, page, content, access, count) == below[last := PageOf(content, last - page, access)];
    }
  }

  lemma ZeroBeyond(content: seq<byte>, k: nat, access: Access)
    requires k >= Pages(|content|)
    ensures PageOf(content, k, access) == ZeroPage(access)
  {
    assert k * ZP >= |content|;
  }

  /** Where the parts lie, in pages. */
  function RoPage(): nat { ZZ / ZP }

  function RwPage(x: Parts): nat { (2 * ZZ + ZoneAlign(|x.ro|)) / ZP }

  function HeapStart(x: Parts): u32 { Wrap32(2 * ZZ + ZoneAlign(|x.ro|) + PageAlign(|x.rw|) + x.pages * ZP) }

  function StackStart(x: Parts): u32 { Wrap32(STACK_END - PageAlign(x.stack)) }

  function ArgumentEnd(a: seq<byte>): u32 { Wrap32(ARGUMENT_START + |a|) }

  /** The argument is padded by as many pages again as it takes. */
  function ArgumentPadding(a: seq<byte>): u32 { Wrap32(ArgumentEnd(a) + PageAlign(|a|)) }

  /** Does everything fit the address space? */
  predicate Fits(x: Parts)
  {
    5 * ZZ + ZoneAlign(|x.ro|) + ZoneAlign(|x.rw| + x.pages * ZP + x.stack + ZI) <= TWO32
  }

  /** The sizes involved, in whole pages. */
  lemma Layout(x: Parts)
    requires Sized(x) && Fits(x)
    ensures RoPage() + Pages(|x.ro|) <= RwPage(x)
    ensures HeapStart(x) == ZP * (RwPage(x) + Pages(|x.rw|) + x.pages)
    ensures StackStart(x) == STACK_END - ZP * Pages(x.stack) && PageAlign(x.stack) == ZP * Pages(x.stack)
    ensures HeapStart(x) <= StackStart(x) <= STACK_END < ARGUMENT_START
  {
    HeapLies(x);
    StackLies(x);
  }

  lemma HeapLies(x: Parts)
    requires Sized(x) && Fits(x)
    ensures RoPage() + Pages(|x.ro|) <= RwPage(x)
    ensures HeapStart(x) == ZP * (RwPage(x) + Pages(|x.rw|) + x.pages) <= STACK_END - PageAlign(x.stack)
  {
    var zone := ZoneAlign(|x.ro|);
    TotalFits(x, zone);
    AlignInZone(|x.ro|);
    Zoned(|x.ro|);
    Small32(2 * ZZ + zone + PageAlign(|x.rw|) + x.pages * ZP);
  }

  lemma StackLies(x: Parts)
    requires Sized(x) && Fits(x)
    ensures StackStart(x) == STACK_END - ZP * Pages(x.stack) && PageAlign(x.stack) == ZP * Pages(x.stack)
  {
    TotalFits(x, ZoneAlign(|x.ro|));
    Small32(STACK_END - PageAlign(x.stack));
  }

  lemma TotalFits(x: Parts, zone: u32)
    requires Sized(x) && Fits(x) && zone == ZoneAlign(|x.ro|)
    ensures PageAlign(|x.rw|) == ZP * Pages(|x.rw|) && PageAlign(x.stack) == ZP * Pages(x.stack)
    ensures 2 * ZZ + zone + PageAlign(|x.rw|) + x.pages * ZP + PageAlign(x.stack) <= STACK_END
  {
    Aligned(|x.rw|);
    Aligned(x.stack);
    Zoned(|x.rw| + x.pages * ZP + x.stack + ZI);
  }

  lemma Aligned(n: nat)
    requires n <= TWO32 - ZP
    ensures PageAlign(n) == ZP * Pages(n) && n <= PageAlign(n) < n + ZP
  {}

  lemma Zoned(n: nat)
    requires n <= TWO32 - ZZ
    ensures n <= ZoneAlign(n) < n + ZZ && ZoneAlign(n) % ZP == 0
  {}

  lemma AlignInZone(n: nat)
    requires n < 0x100_0000
    ensures Pages(n) <= ZoneAlign(n) / ZP
  {
    Zoned(n);
    Aligned(n);
  }

  predicate InRo(x: Parts, p: nat) { RoPage() <= p < RoPage() + Pages(|x.ro|) }

  predicate InRw(x: Parts, p: nat) { RwPage(x) <= p < RwPage(x) + Pages(|x.rw|) + x.pages }

  predicate InStack(x: Parts, p: nat) { StackStart(x) / ZP <= p < STACK_END / ZP }

  predicate InArgument(a: seq<byte>, p: nat)
  {
    ARGUMENT_START / ZP <= p
    && p < Max(ARGUMENT_START / ZP + Pages(|a|), ArgumentEnd(a) / ZP + PagesOver(ArgumentEnd(a), ArgumentPadding(a)))
  }

  /** A segment with zeroed pages after it, where nothing was mapped. */
  function Padded(t: PageTable, page: nat, content: seq<byte>, access: Access, hi: nat): PageTable
  {
    WithZeroPages(Segment(t, page, content, access), page + |content| / ZP, hi, access)
  }

  lemma PaddedAt(t: PageTable, page: nat, content: seq<byte>, access: Access, hi: nat, p: nat)
    ensures var t', top := Padded(t, page, content, access, hi), Max(page + Pages(|content|), hi);
      && (p in t' <==> p in t || page <= p < top)
      && (p in t && !(page <= p < top) ==> t'[p] == t[p])
      && (p !in t && page <= p < top ==> t'[p] == PageOf(content, p - page, access))
  {
    SegmentPages(t, page, content, access, Pages(|content|));
    ZeroPagesAreNew(Segment(t, page, content, access), page + |content| / ZP, hi, access);
    if p >= page + Pages(|content|) { ZeroBeyond(content, p - page, access); }
  }

  function WithRo(x: Parts): PageTable { Padded(map[], RoPage(), x.ro, ReadOnly, (ZZ + PageAlign(|x.ro|)) / ZP) }

  function WithRw(x: Parts): PageTable { Padded(WithRo(x), RwPage(x), x.rw, ReadWrite, HeapStart(x) / ZP) }

  function WithStack(x: Parts): PageTable
  {
    WithSegment(WithRw(x), StackStart(x) / ZP, [], ReadWrite, PageAlign(x.stack) / ZP)
  }

  /** The first memory, put together part by part. */
  function Initial(x: Parts, a: seq<byte>): PageTable
  {
    Padded(WithStack(x), ARGUMENT_START / ZP, a, ReadOnly, ArgumentEnd(a) / ZP
      + PagesOver(ArgumentEnd(a), ArgumentPadding(a)))
  }

  /** What page p of the first memory should hold: some contents from some page on, or none. */
  function PartAt(x: Parts, a: seq<byte>, p: nat): Option<(seq<byte>, nat, Access)>
  {
    if InRo(x, p) then Some((x.ro, RoPage(), ReadOnly))
    else if InRw(x, p) then Some((x.rw, RwPage(x), ReadWrite))
    else if InStack(x, p) then Some(([], StackStart(x) / ZP, ReadWrite))
    else if InArgument(a, p) then Some((a, ARGUMENT_START / ZP, ReadOnly))
    else None
  }

  function Expected(x: Parts, a: seq<byte>, p: nat): Option<Page>
  {
    match PartAt(x, a, p)
    case None => None
    case Some((content, page, access)) => Some(PageOf(content, if page <= p then p - page else 0, access))
  }

  function PageAt(t: PageTable, p: nat): Option<Page> { if p in t then Some(t[p]) else None }

  lemma RoAt(x: Parts, p: nat)
    requires Sized(x) && Fits(x)
    ensures PageAt(WithRo(x), p) == if InRo(x, p) then Some(PageOf(x.ro, p - RoPage(), ReadOnly)) else None
  {
    Aligned(|x.ro|);
    PaddedAt(map[], RoPage(), x.ro, ReadOnly, (ZZ + PageAlign(|x.ro|)) / ZP, p);
  }

  lemma RwAt(x: Parts, p: nat)
    requires Sized(x) && Fits(x)
    ensures PageAt(WithRw(x), p) == if InRw(x, p) then Some(PageOf(x.rw, p - RwPage(x), ReadWrite))
      else PageAt(WithRo(x), p)
  {
    Layout(x);
    RoAt(x, p);
    PaddedAt(WithRo(x), RwPage(x), x.rw, ReadWrite, HeapStart(x) / ZP, p);
  }

  lemma StackAt(x: Parts, p: nat)
    requires Sized(x) && Fits(x)
    ensures PageAt(WithStack(x), p) == if InStack(x, p) then Some(PageOf([], p - StackStart(x) / ZP, ReadWrite))
      else PageAt(WithRw(x), p)
  {
    Layout(x);
    var none: seq<byte> := [];
    var page, count := StackStart(x) / ZP, PageAlign(x.stack) / ZP;
    assert page + count == STACK_END / ZP;
    SegmentPages(WithRw(x), page, none, ReadWrite, count);
    var t := WithSegment(WithRw(x), page, none, ReadWrite, count);
    assert WithStack(x) == t;
    if InStack(x, p) { assert t[p] == PageOf(none, p - page, ReadWrite); }
  }

  /** Every page of the first memory, and nothing else: the parts do not overlap. */
  lemma InitialAt(x: Parts, a: seq<byte>, p: nat)
    requires Sized(x) && Fits(x)
    ensures PageAt(Initial(x, a), p) == Expected(x, a, p)
  {
    Layout(x);
    RoAt(x, p);
    RwAt(x, p);
    StackAt(x, p);
    PaddedAt(WithStack(x), ARGUMENT_START / ZP, a, ReadOnly, ArgumentEnd(a) / ZP
      + PagesOver(ArgumentEnd(a), ArgumentPadding(a)), p);
  }

  /** Contents lie readable at a page. */
  ghost predicate Lies(t: PageTable, page: nat, content: seq<byte>, access: Access)
  {
    && ReadableRange(t, page * ZP, |content|) && BytesAt(t, page * ZP, |content|) == content
    && forall b: nat | page * ZP <= b < page * ZP + |content| :: AccessOf(t, b) == access
  }

  lemma PagesLie(t: PageTable, page: nat, content: seq<byte>, access: Access)
    requires forall p: nat | page <= p < page + Pages(|content|) ::
      PageAt(t, p) == Some(PageOf(content, p - page, access))
    ensures Lies(t, page, content, access)
  {
    forall b: nat | page * ZP <= b < page * ZP + |content|
      ensures Readable(t, b) && AccessOf(t, b) == access && ByteAt(t, b) == content[b - page * ZP]
    {
      ByteOfPages(page, |content|, b);
      assert PageAt(t, b / ZP) == Some(PageOf(content, b / ZP - page, access));
    }
    var got := BytesAt(t, page * ZP, |content|);
    forall i | 0 <= i < |content| ensures got[i] == content[i] { assert ByteAt(t, page * ZP + i) == content[i]; }
    assert got == content;
  }

  lemma ByteOfPages(page: nat, n: nat, b: nat)
    requires page * ZP <= b < page * ZP + n
    ensures page <= b / ZP < page + Pages(n)
    ensures (b / ZP - page) * ZP + b % ZP == b - page * ZP
  {}

  /** All three inputs read back at their places, the data and the argument read-only and the rest writable. */
  lemma InitialReadsBack(x: Parts, a: seq<byte>)
    requires Sized(x) && Fits(x) && |a| <= ZI
    ensures Lies(Initial(x, a), RoPage(), x.ro, ReadOnly)
    ensures Lies(Initial(x, a), RwPage(x), x.rw, ReadWrite)
    ensures Lies(Initial(x, a), ARGUMENT_START / ZP, a, ReadOnly)
  {
    Layout(x);
    forall p: nat | InRo(x, p) ensures PartAt(x, a, p) == Some((x.ro, RoPage(), ReadOnly)) {}
    PartReadsBack(x, a, x.ro, RoPage(), ReadOnly);
    forall p: nat | RwPage(x) <= p < RwPage(x) + Pages(|x.rw|) ensures PartAt(x, a, p)
      == Some((x.rw, RwPage(x), ReadWrite)) {}
    PartReadsBack(x, a, x.rw, RwPage(x), ReadWrite);
    forall p: nat | ARGUMENT_START / ZP <= p < ARGUMENT_START / ZP + Pages(|a|)
      ensures PartAt(x, a, p) == Some((a, ARGUMENT_START / ZP, ReadOnly)) {}
    PartReadsBack(x, a, a, ARGUMENT_START / ZP, ReadOnly);
  }

  lemma PartReadsBack(x: Parts, a: seq<byte>, content: seq<byte>, page: nat, access: Access)
    requires Sized(x) && Fits(x)
    requires forall p: nat | page <= p < page + Pages(|content|) :: PartAt(x, a, p) == Some((content, page, access))
    ensures Lies(Initial(x, a), page, content, access)
  {
    forall p: nat | page <= p < page + Pages(|content|)
      ensures PageAt(Initial(x, a), p) == Some(PageOf(content, p - page, access))
    {
      InitialAt(x, a, p);
    }
    PagesLie(Initial(x, a), page, content, access);
  }

  /** Every byte that is mapped and belongs to none of the three is zero. */
  lemma OtherBytesZero(x: Parts, a: seq<byte>, b: nat)
    requires Sized(x) && Fits(x) && Readable(Initial(x, a), b)
    requires !Among(x.ro, RoPage(), b) && !Among(x.rw, RwPage(x), b) && !Among(a, ARGUMENT_START / ZP, b)
    ensures ByteAt(Initial(x, a), b) == 0
  {
    MissesAt(x.ro, RoPage(), b);
    MissesAt(x.rw, RwPage(x), b);
    MissesAt(a, ARGUMENT_START / ZP, b);
    MissedIsZero(x, a, b / ZP, b % ZP);
  }

  /** Address b is one of those of the contents that begin at a page. */
  predicate Among(content: seq<byte>, page: nat, b: nat) { page * ZP <= b < page * ZP + |content| }

  lemma MissesAt(content: seq<byte>, page: nat, b: nat)
    requires !Among(content, page, b)
    ensures Misses(content, page, b / ZP, b % ZP)
  {
    assert (b / ZP) * ZP + b % ZP == b;
  }

  lemma MissedIsZero(x: Parts, a: seq<byte>, p: nat, i: nat)
    requires Sized(x) && Fits(x) && i < ZP && p in Initial(x, a)
    requires Misses(x.ro, RoPage(), p, i) && Misses(x.rw, RwPage(x), p, i) && Misses(a, ARGUMENT_START / ZP, p, i)
    ensures Initial(x, a)[p].value[i] == 0
  {
    InitialAt(x, a, p);
    ExpectedZero(x, a, p, i);
  }

  lemma ExpectedZero(x: Parts, a: seq<byte>, p: nat, i: nat)
    requires Expected(x, a, p).Some? && i < ZP
    requires Misses(x.ro, RoPage(), p, i) && Misses(x.rw, RwPage(x), p, i) && Misses(a, ARGUMENT_START / ZP, p, i)
    ensures Expected(x, a, p).value.value[i] == 0
  {
    var part := PartAt(x, a, p).value;
    PartOutside(x, a, p, i);
    ZeroOutside(part.0, part.1, part.2, p, i);
  }

  lemma PartOutside(x: Parts, a: seq<byte>, p: nat, i: nat)
    requires PartAt(x, a, p).Some? && i < ZP
    requires Misses(x.ro, RoPage(), p, i) && Misses(x.rw, RwPage(x), p, i) && Misses(a, ARGUMENT_START / ZP, p, i)
    ensures var (content, page, access) := PartAt(x, a, p).value; page <= p && Misses(content, page, p, i)
  {}

  /** Byte i of page p is none of the contents that begin at a page. */
  predicate Misses(content: seq<byte>, page: nat, p: nat, i: nat)
  {
    !Among(content, page, p * ZP + i)
  }

  lemma ZeroOutside(content: seq<byte>, page: nat, access: Access, p: nat, i: nat)
    requires page <= p && i < ZP && Misses(content, page, p, i)
    ensures PageOf(content, p - page, access).value[i] == 0
  {}

  /** The heap: mapped and writable from its start up to the page of its pointer, free from there to its limit. */
  ghost predicate HeapOk(mem: Mem, start: u64)
  {
    && start <= mem.heapPointer <= mem.heapLimit <= TWO32 - ZP && start % ZP == 0 && mem.heapLimit % ZP == 0
    && (forall p: nat | start / ZP <= p < PageAlign(mem.heapPointer) / ZP :: IsHeapPage(mem.pages, p))
    && (forall p: nat | PageAlign(mem.heapPointer) / ZP <= p < mem.heapLimit / ZP :: p !in mem.pages)
  }

  predicate IsHeapPage(t: PageTable, p: nat) { p in t && t[p].access == ReadWrite }

  /** The heap of a program that has just been loaded. */
  lemma InitialHeapOk(x: Parts, a: seq<byte>, t: PageTable, start: u64, limit: u64)
    requires Sized(x) && Fits(x) && t == Initial(x, a) && start == HeapStart(x) && limit == StackStart(x)
    ensures HeapOk(Mem(t, start, limit), start)
  {
    HeapPlace(x);
    HeapIsFree(x, a);
    EmptyHeapOk(t, start, limit);
  }

  lemma HeapPlace(x: Parts)
    requires Sized(x) && Fits(x)
    ensures HeapStart(x) <= StackStart(x) <= TWO32 - ZP && HeapStart(x) % ZP == 0 && StackStart(x) % ZP == 0
  {
    Layout(x);
    WholePages(RwPage(x) + Pages(|x.rw|) + x.pages);
    StackPages(Pages(x.stack));
  }

  lemma WholePages(k: int)
    ensures (ZP * k) % ZP == 0
  {}

  lemma StackPages(k: int)
    ensures (STACK_END - ZP * k) % ZP == 0
  {
    WholePages(STACK_END / ZP - k);
  }

  lemma EmptyHeapOk(t: PageTable, start: u64, limit: u64)
    requires start <= limit <= TWO32 - ZP && start % ZP == 0 && limit % ZP == 0 && NothingIn(t, start / ZP, limit / ZP)
    ensures HeapOk(Mem(t, start, limit), start)
  {
    Aligned(start);
    assert PageAlign(start) == start;
  }

  ghost predicate NothingIn(t: PageTable, lo: nat, hi: nat) { forall p: nat | lo <= p < hi :: p !in t }

  lemma HeapIsFree(x: Parts, a: seq<byte>)
    requires Sized(x) && Fits(x)
    ensures NothingIn(Initial(x, a), HeapStart(x) / ZP, StackStart(x) / ZP)
  {
    forall p: nat | HeapStart(x) / ZP <= p < StackStart(x) / ZP ensures p !in Initial(x, a) { HeapPageIsFree(x, a, p); }
  }

  lemma HeapPageIsFree(x: Parts, a: seq<byte>, p: nat)
    requires Sized(x) && Fits(x) && HeapStart(x) / ZP <= p < StackStart(x) / ZP
    ensures p !in Initial(x, a)
  {
    Layout(x);
    InitialAt(x, a, p);
  }

  /** If pages from lo to mid are of the heap, and those from a page before mid to hi are added, so are all to hi. */
  lemma PagesMapped(t: PageTable, lo: nat, from: nat, mid: nat, hi: nat)
    requires from <= mid && forall p: nat | lo <= p < mid :: IsHeapPage(t, p)
    requires forall p: nat | mid <= p < hi :: p !in t
    ensures forall p: nat | lo <= p < hi :: IsHeapPage(WithZeroPages(t, from, hi, ReadWrite), p)
  {
    ZeroPagesAreNew(t, from, hi, ReadWrite);
    forall p: nat | lo <= p < hi ensures IsHeapPage(WithZeroPages(t, from, hi, ReadWrite), p) {
      if p < mid { assert IsHeapPage(t, p); }
    }
  }

  /** Extending maps every page of the heap up to the new top. */
  lemma SbrkMapsHeap(mem: Mem, start: u64, amount: u64, top: u64)
    requires HeapOk(mem, start) && top == AddWrap(mem.heapPointer, amount) && mem.heapPointer <= top <= mem.heapLimit
    requires top > PageAlign(mem.heapPointer) && PageAlign(top) <= mem.heapLimit
    requires mem.heapPointer / ZP <= PageAlign(mem.heapPointer) / ZP && PageAlign(top) / ZP <= mem.heapLimit / ZP
    ensures forall p: nat | start / ZP <= p < PageAlign(top) / ZP :: IsHeapPage(Sbrk(mem, amount).0.pages, p)
  {
    PagesMapped(mem.pages, start / ZP, mem.heapPointer / ZP, PageAlign(mem.heapPointer) / ZP, PageAlign(top) / ZP);
  }

  /**
   * Growing the heap keeps it in order, never shrinks it, and leaves everything mapped as it was; new pages are
   * zeroed.
   */
  lemma SbrkKeepsHeap(mem: Mem, start: u64, amount: u64)
    requires HeapOk(mem, start)
    ensures var mem' := Sbrk(mem, amount).0;
      && HeapOk(mem', start) && mem.heapPointer <= mem'.heapPointer && mem'.heapLimit == mem.heapLimit
      && (forall p | p in mem.pages :: p in mem'.pages && mem'.pages[p] == mem.pages[p])
      && (forall p | p in mem'.pages && p !in mem.pages :: mem'.pages[p] == ZeroPage(ReadWrite))
  {
    var top := AddWrap(mem.heapPointer, amount);
    Aligned(mem.heapPointer);
    if mem.heapPointer <= top <= mem.heapLimit {
      Aligned(top);
      AlignedBelow(top, mem.heapLimit);
      AlignMonotone(mem.heapPointer, top);
      ZeroPagesAreNew(mem.pages, mem.heapPointer / ZP, PageAlign(top) / ZP, ReadWrite);
      if top > PageAlign(mem.heapPointer) {
        SbrkMapsHeap(mem, start, amount, top);
      } else {
        assert PageAlign(top) == PageAlign(mem.heapPointer);
      }
    }
  }

  lemma AlignedBelow(n: nat, limit: nat)
    requires n <= limit <= TWO32 - ZP && limit % ZP == 0
    ensures PageAlign(n) <= limit
  {
    Aligned(n);
  }

  lemma AlignMonotone(m: nat, n: nat)
    requires m <= n <= TWO32 - ZP
    ensures PageAlign(m) <= PageAlign(n) && (n <= PageAlign(m) ==> PageAlign(n) == PageAlign(m))
  {
    Aligned(m);
    Aligned(n);
  }

  /** What a running program does to its memory. */
  datatype HeapStep = Extend(amount: u64) | StoreWord(size: nat, address: u32, word: u64)

  function StepHeap(mem: Mem, step: HeapStep): Mem
  {
    match step
    case Extend(amount) => Sbrk(mem, amount).0
    case StoreWord(size, address, word) => mem.(pages := Stored(mem.pages, size, address, word).1)
  }

  function RunHeap(mem: Mem, steps: seq<HeapStep>): Mem
    decreases |steps|
  {
    if steps == [] then mem else RunHeap(StepHeap(mem, steps[0]), steps[1..])
  }

  lemma StoreKeepsHeap(mem: Mem, start: u64, size: nat, address: u32, word: u64)
    requires HeapOk(mem, start)
    ensures HeapOk(StepHeap(mem, StoreWord(size, address, word)), start)
    ensures forall p | p in mem.pages :: SameAccess(mem, StepHeap(mem, StoreWord(size, address, word)), p)
  {
    var mem' := StepHeap(mem, StoreWord(size, address, word));
    WithBytesIsFlat(mem.pages, address, ToBytes(word, size));
    forall p: nat | start / ZP <= p < PageAlign(mem.heapPointer) / ZP ensures IsHeapPage(mem'.pages, p) {
      assert IsHeapPage(mem.pages, p);
    }
  }

  predicate SameAccess(mem: Mem, mem': Mem, p: nat)
    requires p in mem.pages
  {
    p in mem'.pages && mem'.pages[p].access == mem.pages[p].access
  }

  /**
   * Over every run of heap extensions and stores, the heap stays in order, never shrinks, and no page loses its
   * access.
   */
  lemma {:induction false} RunsKeepHeap(mem: Mem, start: u64, steps: seq<HeapStep>)
    requires HeapOk(mem, start)
    ensures var mem' := RunHeap(mem, steps);
      && HeapOk(mem', start) && mem.heapPointer <= mem'.heapPointer && mem'.heapLimit == mem.heapLimit
      && forall p | p in mem.pages :: SameAccess(mem, mem', p)
    decreases |steps|
  {
    if steps != [] {
      var next := StepHeap(mem, steps[0]);
      match steps[0] {
        case Extend(amount) => SbrkKeepsHeap(mem, start, amount);
        case StoreWord(size, address, word) => StoreKeepsHeap(mem, start, size, address, word);
      }
      RunsKeepHeap(next, start, steps[1..]);
      forall p | p in mem.pages ensures SameAccess(mem, RunHeap(next, steps[1..]), p) {
        assert SameAccess(mem, next, p) && SameAccess(next, RunHeap(next, steps[1..]), p);
      }
    }
  }

  /** Mapping contents page by page. */
  method AllocateSegment(mem: Memory, page: nat, content: seq<byte>, access: Access)
    requires mem.Valid()
    modifies mem`pages, mem`buffers
    ensures mem.Valid() && fresh(mem.buffers - old(mem.buffers))
    ensures mem.View() == Segment(old(mem.View()), page, content, access)
  {
    ghost var before := mem.View();
    var count := Pages(|content|);
    for k := 0 to count
      invariant mem.Valid() && fresh(mem.buffers - old(mem.buffers))
      invariant mem.View() == WithSegment(before, page, content, access, k)
    {
      mem.MapPage(page + k, PageOf(content, k, access));
    }
  }

  method AllocateStack(mem: Memory, page: nat, count: nat)
    requires mem.Valid()
    modifies mem`pages, mem`buffers
    ensures mem.Valid() && fresh(mem.buffers - old(mem.buffers))
    ensures mem.View() == WithSegment(old(mem.View()), page, [], ReadWrite, count)
  {
    ghost var before := mem.View();
    for k := 0 to count
      invariant mem.Valid() && fresh(mem.buffers - old(mem.buffers))
      invariant mem.View() == WithSegment(before, page, [], ReadWrite, k)
    {
      mem.MapPage(page + k, PageOf([], k, ReadWrite));
    }
  }

  method LoadData(mem: Memory, x: Parts)
    requires mem.Valid() && mem.View() == map[] && Sized(x) && Fits(x)
    modifies mem`pages, mem`buffers
    ensures mem.Valid() && fresh(mem.buffers - old(mem.buffers)) && mem.View() == WithRw(x)
  {
    LayoutPadding(x);
    AllocatePadded(mem, RoPage(), x.ro, ReadOnly, ZZ + PageAlign(|x.ro|));
    AllocatePadded(mem, RwPage(x), x.rw, ReadWrite, HeapStart(x));
  }

  /** Contents from a page on, and zeroed pages from there to an end. */
  method AllocatePadded(mem: Memory, page: nat, content: seq<byte>, access: Access, end: nat)
    requires mem.Valid() && page + |content| / ZP + PagesOver(page * ZP + |content|, end) == end / ZP
    modifies mem`pages, mem`buffers
    ensures mem.Valid() && fresh(mem.buffers - old(mem.buffers))
    ensures mem.View() == Padded(old(mem.View()), page, content, access, end / ZP)
  {
    AllocateSegment(mem, page, content, access);
    assert (page * ZP + |content|) / ZP == page + |content| / ZP;
    mem.AllocateZeroPages(page * ZP + |content|, end, access);
  }

  lemma LayoutPadding(x: Parts)
    requires Sized(x) && Fits(x)
    ensures RoPage() + |x.ro| / ZP + PagesOver(ZZ + |x.ro|, ZZ + PageAlign(|x.ro|)) == (ZZ + PageAlign(|x.ro|)) / ZP
    ensures RwPage(x) + |x.rw| / ZP + PagesOver(ZP * RwPage(x) + |x.rw|, HeapStart(x)) == HeapStart(x) / ZP
  {
    Layout(x);
    Aligned(|x.ro|);
    PaddingAfter(RoPage(), |x.ro|, Pages(|x.ro|));
    PaddingAfter(RwPage(x), |x.rw|, Pages(|x.rw|) + x.pages);
  }

  lemma PaddingAfter(page: nat, n: nat, pages: nat)
    requires Pages(n) <= pages
    ensures page + n / ZP + PagesOver(ZP * page + n, ZP * (page + pages)) == ZP * (page + pages) / ZP
  {
    Padding(ZP * page + n, ZP * (page + pages));
  }

  method LoadRest(mem: Memory, x: Parts, a: seq<byte>)
    requires mem.Valid() && mem.View() == WithRw(x) && |a| <= ZI
    modifies mem`pages, mem`buffers
    ensures mem.Valid() && fresh(mem.buffers - old(mem.buffers)) && mem.View() == Initial(x, a)
  {
    AllocateStack(mem, StackStart(x) / ZP, PageAlign(x.stack) / ZP);
    AllocateSegment(mem, ARGUMENT_START / ZP, a, ReadOnly);
    ArgumentPlace(a);
    mem.AllocateZeroPages(ArgumentEnd(a), ArgumentPadding(a), ReadOnly);
  }

  lemma ArgumentPlace(a: seq<byte>)
    requires |a| <= ZI
    ensures ArgumentEnd(a) / ZP == ARGUMENT_START / ZP + |a| / ZP
  {
    Small32(ARGUMENT_START + |a|);
  }

  /**
   * Loads a program: its memory, the registers it starts with and its code; None if it is malformed or does not fit.
   */
  method SingleInitializer(p: seq<byte>, a: seq<byte>) returns (r: Option<(Memory, seq<u64>, seq<byte>)>)
    requires |a| <= ZI
    ensures r.Some? <==> Parse(p).Some? && Fits(Parse(p).value)
    ensures r.Some? ==> var (mem, regs, code), x := r.value, Parse(p).value;
      && fresh(mem) && fresh(mem.buffers) && mem.Valid() && mem.View() == Initial(x, a)
      && mem.heapPointer == HeapStart(x) && mem.heapLimit == StackStart(x)
      && regs == [TWO32 - 0x1_0000, TWO32 - 2 * ZZ - ZI, 0, 0, 0, 0, 0, TWO32 - ZZ - ZI, |a|, 0, 0, 0, 0]
      && code == x.code
  {
    var parsed := Parse(p);
    if parsed.None? || !Fits(parsed.value) { return None; }
    var x := parsed.value;
    ParsedIsSized(p);
    var mem := new Memory(HeapStart(x), StackStart(x));
    LoadData(mem, x);
    LoadRest(mem, x, a);
    var regs := [TWO32 - 0x1_0000, TWO32 - 2 * ZZ - ZI, 0, 0, 0, 0, 0, TWO32 - ZZ - ZI, |a|, 0, 0, 0, 0];
    r := Some((mem, regs, x.code));
  }

  /** Padding from within a page up to a page boundary. */
  lemma Padding(start: nat, end: nat)
    requires start <= end && end % ZP == 0
    ensures start / ZP + PagesOver(start, end) == end / ZP
  {
    assert start / ZP * ZP + start % ZP == start;
    StepsOver(start, end, end / ZP - start / ZP);
  }
}
