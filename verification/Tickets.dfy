/**
 * The ticket accumulator of an epoch. It is cut to the best tickets at every block, and still holds the best of all
 * tickets accepted in the epoch. Ticket identifiers are compared byte by byte, that is, like big-endian numbers.
 */
module Tickets {
  datatype Ticket = Ticket(id: nat, attempt: nat)

  datatype TicketError = BadTicketOrder | DuplicateTicket

  datatype Accepted = Accepted(tickets: seq<Ticket>) | Rejected(error: TicketError)

  predicate Increasing(t: seq<Ticket>) { forall i, j | 0 <= i < j < |t| :: t[i].id < t[j].id }

  predicate NonDecreasing(t: seq<Ticket>) { forall i, j | 0 <= i < j < |t| :: t[i].id <= t[j].id }

  function Ids(t: seq<Ticket>): set<nat>
  {
    if t == [] then {} else Ids(t[..|t| - 1]) + {t[|t| - 1].id}
  }

  lemma {:induction false} IdsHave(t: seq<Ticket>)
    ensures forall i | 0 <= i < |t| :: t[i].id in Ids(t)
    ensures forall id | id in Ids(t) :: exists i :: 0 <= i < |t| && t[i].id == id
  {
    if t != [] {
      var init := t[..|t| - 1];
      IdsHave(init);
      assert t == init + [t[|t| - 1]];
      forall id | id in Ids(t) ensures exists i :: 0 <= i < |t| && t[i].id == id {
        if id in Ids(init) {
          var i :| 0 <= i < |init| && init[i].id == id;
          assert t[i].id == id;
        }
      }
    }
  }

  lemma {:induction false} IdsConcat(s: seq<Ticket>, t: seq<Ticket>)
    ensures Ids(s + t) == Ids(s) + Ids(t)
  {
    if t == [] {
      assert s + t == s;
    } else {
      IdsConcat(s, t[..|t| - 1]);
      assert (s + t)[..|s + t| - 1] == s + t[..|t| - 1];
    }
  }

  lemma {:induction false} IdsCount(t: seq<Ticket>)
    requires Increasing(t)
    ensures |Ids(t)| == |t|
  {
    if t != [] {
      var init := t[..|t| - 1];
      IdsCount(init);
      IdsHave(init);
    }
  }

  /** Placing a ticket among sorted ones. */
  function Place(t: seq<Ticket>, x: Ticket): seq<Ticket>
  {
    if t == [] || t[|t| - 1].id <= x.id then t + [x] else Place(t[..|t| - 1], x) + [t[|t| - 1]]
  }

  function Sorted(t: seq<Ticket>): (s: seq<Ticket>)
    ensures |s| == |t|
  {
    if t == [] then []
    else
      PlaceAdds(Sorted(t[..|t| - 1]), t[|t| - 1]);
      Place(Sorted(t[..|t| - 1]), t[|t| - 1])
  }

  lemma {:induction false} PlaceAdds(t: seq<Ticket>, x: Ticket)
    ensures |Place(t, x)| == |t| + 1 && Ids(Place(t, x)) == Ids(t) + {x.id}
  {
    if t == [] || t[|t| - 1].id <= x.id {
      assert (t + [x])[..|t|] == t;
    } else {
      var init, last := t[..|t| - 1], t[|t| - 1];
      PlaceAdds(init, x);
      assert t == init + [last];
      assert (Place(init, x) + [last])[..|t|] == Place(init, x);
    }
  }

  lemma {:induction false} PlaceBelow(t: seq<Ticket>, x: Ticket, bound: nat)
    requires x.id <= bound && forall i | 0 <= i < |t| :: t[i].id <= bound
    ensures forall i | 0 <= i < |Place(t, x)| :: Place(t, x)[i].id <= bound
  {
    if t != [] && t[|t| - 1].id > x.id { PlaceBelow(t[..|t| - 1], x, bound); }
  }

  lemma {:induction false} PlaceOrders(t: seq<Ticket>, x: Ticket)
    requires NonDecreasing(t)
    ensures NonDecreasing(Place(t, x))
  {
    if t != [] && t[|t| - 1].id > x.id {
      PlaceOrders(t[..|t| - 1], x);
      PlaceBelow(t[..|t| - 1], x, t[|t| - 1].id);
    }
  }

  lemma {:induction false} SortedSorts(t: seq<Ticket>)
    ensures NonDecreasing(Sorted(t)) && Ids(Sorted(t)) == Ids(t)
  {
    if t != [] {
      var init, last := t[..|t| - 1], t[|t| - 1];
      SortedSorts(init);
      PlaceOrders(Sorted(init), last);
      PlaceAdds(Sorted(init), last);
    }
  }

  lemma BagOfLast(t: seq<Ticket>, init: seq<Ticket>, last: Ticket)
    requires t == init + [last]
    ensures multiset(t) == multiset(init) + multiset{last}
  {}

  lemma {:induction false} PlacePermutes(t: seq<Ticket>, x: Ticket)
    ensures multiset(Place(t, x)) == multiset(t) + multiset{x}
  {
    if t == [] || t[|t| - 1].id <= x.id {
      BagOfLast(t + [x], t, x);
    } else {
      var init, last := t[..|t| - 1], t[|t| - 1];
      PlacePermutes(init, x);
      BagOfLast(t, init, last);
      BagOfLast(Place(t, x), Place(init, x), last);
    }
  }

  lemma {:induction false} SortedPermutes(t: seq<Ticket>)
    ensures multiset(Sorted(t)) == multiset(t)
  {
    if t != [] {
      var init, last := t[..|t| - 1], t[|t| - 1];
      SortedPermutes(init);
      PlacePermutes(Sorted(init), last);
      BagOfLast(t, init, last);
    }
  }

  /** The order check on neighbours. */
  method VerifyOrder(t: seq<Ticket>) returns (ok: bool)
    ensures ok <==> NonDecreasing(t)
  {
    var i := 1;
    while i < |t|
      invariant 1 <= i && forall j, k | 0 <= j < k < i && k < |t| :: t[j].id <= t[k].id
    {
      if t[i - 1].id > t[i].id { return false; }
      i := i + 1;
    }
    ok := true;
  }

  /** The check for duplicates looks at neighbours only, which is enough for sorted tickets. */
  method VerifyDistinct(t: seq<Ticket>) returns (ok: bool)
    ensures ok <==> forall i | 0 < i < |t| :: t[i - 1].id != t[i].id
    ensures NonDecreasing(t) ==> (ok <==> Increasing(t))
  {
    var i := 1;
    while i < |t|
      invariant 1 <= i && forall k | 0 < k < i && k < |t| :: t[k - 1].id != t[k].id
    {
      if t[i - 1].id == t[i].id { return false; }
      i := i + 1;
    }
    if NonDecreasing(t) { NeighboursDiffer(t); }
    ok := true;
  }

  lemma NeighboursDiffer(t: seq<Ticket>)
    requires NonDecreasing(t) && forall i | 0 < i < |t| :: t[i - 1].id != t[i].id
    ensures Increasing(t)
  {
    forall i, j | 0 <= i < j < |t| ensures t[i].id < t[j].id { assert t[j - 1].id != t[j].id; }
  }

  function Cut(t: seq<Ticket>, size: nat): seq<Ticket> { if |t| > size then t[..size] else t }

  /** The accumulator after a block. */
  function Accumulated(previous: seq<Ticket>, added: seq<Ticket>, size: nat): Accepted
  {
    if !NonDecreasing(added) then Rejected(BadTicketOrder)
    else if !Increasing(added) then Rejected(DuplicateTicket)
    else if !Increasing(Sorted(added + previous)) then Rejected(DuplicateTicket)
    else Accepted(Cut(Sorted(added + previous), size))
  }

  /** The checks of a block's tickets, in order. */
  method CreateAccumulator(previous: seq<Ticket>, added: seq<Ticket>, size: nat) returns (r: Accepted)
    ensures r == Accumulated(previous, added, size)
  {
    var ok := VerifyOrder(added);
    if !ok { return Rejected(BadTicketOrder); }
    ok := VerifyDistinct(added);
    if !ok { return Rejected(DuplicateTicket); }
    var all := Sorted(added + previous);
    SortedSorts(added + previous);
    ok := VerifyDistinct(all);
    if !ok { return Rejected(DuplicateTicket); }
    if |all| > size { all := all[..size]; }
    r := Accepted(all);
  }

  /**
   * t holds the `size` smallest identifiers of all: it is sorted, has room for no more or lacks none, and all that it
   * lacks are larger.
   */
  ghost predicate Smallest(t: seq<Ticket>, all: set<nat>, size: nat)
  {
    && Increasing(t) && |t| <= size && Ids(t) <= all
    && forall id | id in all && id !in Ids(t) :: Beyond(t, id, size)
  }

  predicate Beyond(t: seq<Ticket>, id: nat, size: nat)
  {
    |t| == size && forall i | 0 <= i < |t| :: t[i].id < id
  }

  /** Whatever happens to be the smallest, it is the only sequence of identifiers that is. */
  lemma SmallestUnique(t: seq<Ticket>, u: seq<Ticket>, all: set<nat>, size: nat)
    requires Smallest(t, all, size) && Smallest(u, all, size)
    ensures Ids(t) == Ids(u)
  {
    SmallestWithin(t, u, all, size);
    SmallestWithin(u, t, all, size);
  }

  lemma SmallestWithin(t: seq<Ticket>, u: seq<Ticket>, all: set<nat>, size: nat)
    requires Smallest(t, all, size) && Smallest(u, all, size)
    ensures Ids(t) <= Ids(u)
  {
    forall id | id in Ids(t) ensures id in Ids(u) {
      if id !in Ids(u) {
        assert Beyond(u, id, size);
        IdsHave(t);
        IdsHave(u);
        IdsCount(t);
        IdsCount(u);
        forall x | x in Ids(u) ensures x in Ids(t) {}
        SubsetSmaller(Ids(u), Ids(t), id);
      }
    }
  }

  lemma {:induction false} SubsetSmaller(a: set<nat>, b: set<nat>, extra: nat)
    requires a <= b && extra in b && extra !in a
    ensures |a| < |b|
  {
    if a == {} {
      assert b != {};
    } else {
      var x :| x in a;
      SubsetSmaller(a - {x}, b - {x}, extra);
    }
  }

  /** Cutting keeps the smallest. */
  lemma CutKeepsSmallest(t: seq<Ticket>, size: nat)
    requires Increasing(t)
    ensures Smallest(Cut(t, size), Ids(t), size)
  {
    var cut := Cut(t, size);
    if |t| > size {
      assert t == cut + t[size..];
      IdsConcat(cut, t[size..]);
      IdsHave(t[size..]);
      forall id | id in Ids(t) && id !in Ids(cut) ensures Beyond(cut, id, size) {
        var i :| 0 <= i < |t[size..]| && t[size..][i].id == id;
        assert t[size + i].id == id;
      }
    }
  }

  /** The smallest of those kept and some more are the smallest of all and some more. */
  lemma SmallestOfMore(t: seq<Ticket>, all: set<nat>, more: set<nat>, u: seq<Ticket>, size: nat)
    requires Smallest(t, all, size) && Smallest(u, Ids(t) + more, size)
    ensures Smallest(u, all + more, size)
  {
    forall id | id in all + more && id !in Ids(u) ensures Beyond(u, id, size) {
      if id !in Ids(t) + more {
        assert Beyond(t, id, size);
        IdsCount(t);
        IdsCount(u);
        IdsHave(t);
        IdsHave(u);
        if forall x | x in Ids(t) :: x in Ids(u) {
          SameSize(Ids(t), Ids(u));
          forall i | 0 <= i < |u| ensures u[i].id < id { assert u[i].id in Ids(t); }
        } else {
          var x :| x in Ids(t) && x !in Ids(u);
          assert Beyond(u, x, size);
        }
      }
    }
  }

  lemma SameSize(a: set<nat>, b: set<nat>)
    requires a <= b && |a| >= |b|
    ensures a == b
  {
    if a != b {
      var extra :| extra in b && extra !in a;
      SubsetSmaller(a, b, extra);
    }
  }

  /**
   * The accumulator after the blocks of an epoch, each with its tickets; blocks whose tickets are rejected change
   * nothing.
   */
  function AfterBlocks(blocks: seq<seq<Ticket>>, size: nat): seq<Ticket>
  {
    if blocks == [] then []
    else
      var previous := AfterBlocks(blocks[..|blocks| - 1], size);
      var r := Accumulated(previous, blocks[|blocks| - 1], size);
      if r.Accepted? then r.tickets else previous
  }

  /** All tickets accepted in these blocks. */
  function AcceptedIds(blocks: seq<seq<Ticket>>, size: nat): set<nat>
  {
    if blocks == [] then {}
    else
      var init, last := blocks[..|blocks| - 1], blocks[|blocks| - 1];
      AcceptedIds(init, size) + if Accumulated(AfterBlocks(init, size), last, size).Accepted? then Ids(last) else {}
  }

  /** Though it is cut at every block, the accumulator always holds the smallest of all tickets accepted so far. */
  lemma {:induction false} AccumulatorHoldsSmallest(blocks: seq<seq<Ticket>>, size: nat)
    ensures Smallest(AfterBlocks(blocks, size), AcceptedIds(blocks, size), size)
  {
    if blocks != [] {
      var init, last := blocks[..|blocks| - 1], blocks[|blocks| - 1];
      AccumulatorHoldsSmallest(init, size);
      var previous := AfterBlocks(init, size);
      var all := Sorted(last + previous);
      if Accumulated(previous, last, size).Accepted? {
        SortedSorts(last + previous);
        IdsConcat(last, previous);
        CutKeepsSmallest(all, size);
        assert Ids(all) == Ids(previous) + Ids(last);
        SmallestOfMore(previous, AcceptedIds(init, size), Ids(last), Cut(all, size), size);
      }
    }
  }

  /** The tickets from both ends inwards. */
  function FromBothEnds(t: seq<Ticket>): (r: seq<Ticket>)
    ensures |r| == |t|
  {
    seq(|t|, i requires 0 <= i < |t| => if i % 2 == 0 then t[i / 2] else t[|t| - 1 - i / 2])
  }

  /** The place a ticket comes from, and the place a ticket goes to. */
  function Source(i: nat, n: nat): nat
    requires i < n
  {
    if i % 2 == 0 then i / 2 else n - 1 - i / 2
  }

  function Destination(j: nat, n: nat): nat
    requires j < n
  {
    if j < (n + 1) / 2 then 2 * j else 2 * (n - 1 - j) + 1
  }

  /** Nothing is lost or taken twice: places correspond to tickets one to one. */
  lemma BothEndsPermute(t: seq<Ticket>)
    ensures forall i | 0 <= i < |t| ::
      Source(i, |t|) < |t| && Destination(Source(i, |t|), |t|) == i && FromBothEnds(t)[i] == t[Source(i, |t|)]
    ensures forall j | 0 <= j < |t| ::
      Destination(j, |t|) < |t| && Source(Destination(j, |t|), |t|) == j && FromBothEnds(t)[Destination(j, |t|)] == t[j]
  {
    forall i | 0 <= i < |t| ensures Source(i, |t|) < |t| && Destination(Source(i, |t|), |t|) == i {
      ThereAndBack(i, |t|);
    }
    forall j | 0 <= j < |t| ensures Destination(j, |t|) < |t| && Source(Destination(j, |t|), |t|) == j {
      BackAndThere(j, |t|);
    }
  }

  lemma ThereAndBack(i: nat, n: nat)
    requires i < n
    ensures Source(i, n) < n && Destination(Source(i, n), n) == i
  {}

  lemma BackAndThere(j: nat, n: nat)
    requires j < n
    ensures Destination(j, n) < n && Source(Destination(j, n), n) == j
  {}

  /** The sequencer for a full accumulator, with one index moving in from each end. */
  method OutsideIn(t: seq<Ticket>) returns (out: array<Ticket>)
    ensures out[..] == FromBothEnds(t)
  {
    var left, right := 0, |t| - 1;
    out := new Ticket[|t|](_ => Ticket(0, 0));
    for i := 0 to |t|
      invariant left == (i + 1) / 2 && right == |t| - 1 - i / 2
      invariant forall j | 0 <= j < i :: out[j] == FromBothEnds(t)[j]
    {
      if i % 2 == 0 {
        out[i] := t[left];
        left := left + 1;
      } else {
        out[i] := t[right];
        right := right - 1;
      }
    }
  }
}
