/** Sums over finite maps and sequences. */
module Sums {
  /** The sum of a weight over the entries of a map. */
  ghost function SumOver<K, V>(m: map<K, V>, f: (K, V) -> int): int
    decreases |m|
  {
    if m == map[] then 0
    else
      var k :| k in m;
      f(k, m[k]) + SumOver(m - {k}, f)
  }

  lemma DropTwo<K, V>(m: map<K, V>, a: K, b: K)
    ensures (m - {a}) - {b} == (m - {b}) - {a}
  {
    assert forall k | k in (m - {a}) - {b} :: k in (m - {b}) - {a};
  }

  /** Any entry may be taken out of the sum first. */
  lemma {:induction false} SumDrop<K, V>(m: map<K, V>, f: (K, V) -> int, k: K)
    requires k in m
    ensures SumOver(m, f) == f(k, m[k]) + SumOver(m - {k}, f)
    decreases |m|
  {
    var p :| p in m && SumOver(m, f) == f(p, m[p]) + SumOver(m - {p}, f);
    if p != k {
      SumDrop(m - {p}, f, k);
      SumDrop(m - {k}, f, p);
      DropTwo(m, p, k);
    }
  }

  /** Adding or overwriting one entry. */
  lemma SumPut<K, V>(m: map<K, V>, f: (K, V) -> int, k: K, v: V)
    ensures SumOver(m[k := v], f) == SumOver(m - {k}, f) + f(k, v)
    ensures SumOver(m[k := v], f) == SumOver(m, f) + f(k, v) - if k in m then f(k, m[k]) else 0
  {
    SumDrop(m[k := v], f, k);
    assert m[k := v] - {k} == m - {k};
    if k in m { SumDrop(m, f, k); } else { assert m - {k} == m; }
  }

  lemma {:induction false} SumNonNegative<K, V>(m: map<K, V>, f: (K, V) -> int)
    requires forall k | k in m :: f(k, m[k]) >= 0
    ensures SumOver(m, f) >= 0
    decreases |m|
  {
    if m != map[] {
      var k :| k in m && SumOver(m, f) == f(k, m[k]) + SumOver(m - {k}, f);
      SumNonNegative(m - {k}, f);
    }
  }

  lemma JoinDrop<K, V>(m: map<K, V>, n: map<K, V>, k: K)
    requires m.Keys !! n.Keys && k in n
    ensures (m + n) - {k} == m + (n - {k}) && (m + n)[k] == n[k] && m.Keys !! (n - {k}).Keys
  {
    var drop := (m + n) - {k};
    assert forall x | x in drop :: x in m + (n - {k});
  }

  lemma {:induction false} SumJoin<K, V>(m: map<K, V>, n: map<K, V>, f: (K, V) -> int)
    requires m.Keys !! n.Keys
    ensures SumOver(m + n, f) == SumOver(m, f) + SumOver(n, f)
    decreases |n|
  {
    if n == map[] {
      assert m + n == m;
    } else {
      var k :| k in n;
      JoinDrop(m, n, k);
      SumJoin(m, n - {k}, f);
      SumDrop(n, f, k);
      SumDrop(m + n, f, k);
    }
  }

  /** A sum splits into the entries of some keys and the others. */
  lemma SumSplit<K, V>(m: map<K, V>, keys: set<K>, f: (K, V) -> int)
    ensures SumOver(m, f) == SumOver(m - keys, f) + SumOver(m - (m.Keys - keys), f)
  {
    SumJoin(m - keys, m - (m.Keys - keys), f);
    assert (m - keys) + (m - (m.Keys - keys)) == m;
  }

  lemma {:induction false} SumSame<K, V>(m: map<K, V>, n: map<K, V>, f: (K, V) -> int)
    requires m.Keys == n.Keys && forall k | k in m :: f(k, m[k]) == f(k, n[k])
    ensures SumOver(m, f) == SumOver(n, f)
    decreases |m|
  {
    if m == map[] {
      assert n == map[];
    } else {
      var k :| k in m;
      SumDrop(m, f, k);
      SumDrop(n, f, k);
      SumSame(m - {k}, n - {k}, f);
    }
  }

  /** With no negative weights, every entry's weight is a lower bound of the sum. */
  lemma SumAtLeast<K, V>(m: map<K, V>, f: (K, V) -> int, k: K)
    requires k in m && forall k' | k' in m :: f(k', m[k']) >= 0
    ensures SumOver(m, f) >= f(k, m[k])
  {
    SumDrop(m, f, k);
    SumNonNegative(m - {k}, f);
  }

  lemma {:induction false} SumZero<K, V>(m: map<K, V>, f: (K, V) -> int)
    requires forall k | k in m :: f(k, m[k]) == 0
    ensures SumOver(m, f) == 0
    decreases |m|
  {
    if m != map[] {
      var k :| k in m && SumOver(m, f) == f(k, m[k]) + SumOver(m - {k}, f);
      SumZero(m - {k}, f);
    }
  }

  /** All members of a set, each once. */
  ghost predicate EachOnce<T(!new)>(order: seq<T>, members: set<T>)
  {
    (forall x :: x in order <==> x in members) && forall i, j | 0 <= i < j < |order| :: order[i] != order[j]
  }

  /** The sum of a weight over a sequence. */
  function SumSeq<T>(s: seq<T>, f: T -> int): int
  {
    if s == [] then 0 else SumSeq(s[..|s| - 1], f) + f(s[|s| - 1])
  }

  lemma SumSeqPush<T>(s: seq<T>, x: T, f: T -> int)
    ensures SumSeq(s + [x], f) == SumSeq(s, f) + f(x)
  {
    assert (s + [x])[..|s|] == s;
  }

  lemma SumSeqOne<T>(x: T, f: T -> int)
    ensures SumSeq([x], f) == f(x)
  {
    SumSeqPush([], x, f);
    assert [] + [x] == [x];
  }

  lemma {:induction false} SumSeqConcat<T>(s: seq<T>, t: seq<T>, f: T -> int)
    ensures SumSeq(s + t, f) == SumSeq(s, f) + SumSeq(t, f)
  {
    if t == [] {
      assert s + t == s;
    } else {
      var last := |t| - 1;
      SumSeqConcat(s, t[..last], f);
      assert s + t == (s + t[..last]) + [t[last]];
      SumSeqPush(s + t[..last], t[last], f);
    }
  }

  lemma {:induction false} SumSeqSame<T>(s: seq<T>, f: T -> int, g: T -> int)
    requires forall x | x in s :: f(x) == g(x)
    ensures SumSeq(s, f) == SumSeq(s, g)
  {
    if s != [] { SumSeqSame(s[..|s| - 1], f, g); }
  }

  lemma {:induction false} SumSeqNonNegative<T>(s: seq<T>, f: T -> int)
    requires forall x | x in s :: f(x) >= 0
    ensures SumSeq(s, f) >= 0
  {
    if s != [] { SumSeqNonNegative(s[..|s| - 1], f); }
  }

  /** A sequence without one of its places. */
  function LeaveOut<T>(s: seq<T>, i: nat): seq<T>
    requires i < |s|
  {
    s[..i] + s[i + 1..]
  }

  lemma Rejoined<T>(s: seq<T>, i: nat)
    requires i < |s|
    ensures s == (s[..i] + [s[i]]) + s[i + 1..]
  {}

  lemma LeavingOut<T>(s: seq<T>, i: nat)
    requires i < |s|
    ensures multiset(s) == multiset(LeaveOut(s, i)) + multiset{s[i]}
  {
    Rejoined(s, i);
    CountsApart(s[..i], s[i], s[i + 1..]);
  }

  lemma SumLeavingOut<T>(s: seq<T>, i: nat, f: T -> int)
    requires i < |s|
    ensures SumSeq(s, f) == SumSeq(LeaveOut(s, i), f) + f(s[i])
  {
    Rejoined(s, i);
    SumApart(s[..i], s[i], s[i + 1..], f);
  }

  lemma SumApart<T>(a: seq<T>, x: T, b: seq<T>, f: T -> int)
    ensures SumSeq((a + [x]) + b, f) == SumSeq(a + b, f) + f(x)
  {
    SumSeqConcat(a, b, f);
    SumSeqConcat(a + [x], b, f);
    SumSeqPush(a, x, f);
  }

  lemma CountsApart<T>(a: seq<T>, x: T, b: seq<T>)
    ensures multiset((a + [x]) + b) == multiset(a + b) + multiset{x}
  {
    assert multiset((a + [x]) + b) == multiset(a + [x]) + multiset(b);
    assert multiset(a + [x]) == multiset(a) + multiset{x};
  }

  lemma SameRest<T>(m: multiset<T>, n: multiset<T>, x: T)
    requires m + multiset{x} == n + multiset{x}
    ensures m == n
  {
    forall y: T ensures m[y] == n[y] { assert (m + multiset{x})[y] == (n + multiset{x})[y]; }
  }

  /** Summing does not depend on the order. */
  lemma {:induction false} SumSeqPermuted<T>(s: seq<T>, s': seq<T>, f: T -> int)
    requires multiset(s) == multiset(s')
    ensures SumSeq(s, f) == SumSeq(s', f)
    decreases |s|
  {
    if s == [] {
      assert |multiset(s')| == 0;
    } else {
      assert s[0] in multiset(s');
      var i :| 0 <= i < |s'| && s'[i] == s[0];
      LeavingOut(s, 0);
      LeavingOut(s', i);
      SumLeavingOut(s, 0, f);
      SumLeavingOut(s', i, f);
      SameRest(multiset(LeaveOut(s, 0)), multiset(LeaveOut(s', i)), s[0]);
      SumSeqPermuted(LeaveOut(s, 0), LeaveOut(s', i), f);
    }
  }

  /** Summing a map over a list of all its keys, and others that count for nothing. */
  lemma {:induction false} SumByKeys<K, V>(order: seq<K>, m: map<K, V>, f: (K, V) -> int, part: K -> int)
    requires forall i, j | 0 <= i < j < |order| :: order[i] != order[j]
    requires forall k | k in m :: k in order
    requires forall k | k in order :: part(k) == if k in m then f(k, m[k]) else 0
    ensures SumSeq(order, part) == SumOver(m, f)
    decreases |order|
  {
    if order == [] {
      assert m == map[];
    } else {
      var init, last := order[..|order| - 1], order[|order| - 1];
      assert order == init + [last];
      var rest := m - {last};
      var part' := (k: K) => if k in rest then f(k, rest[k]) else 0;
      SumByKeys(init, rest, f, part');
      SumSeqSame(init, part, part');
      if last in m { SumDrop(m, f, last); } else { assert rest == m; }
    }
  }
}
