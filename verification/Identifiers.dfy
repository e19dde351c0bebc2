/** The search for unused service identifiers, and the identifier kept in reserve for the next service. */
module Identifiers {
  import opened Words
  import opened Accounts
  import opened Ledger

  predicate InRange(id: int) { MIN_SERVICE_INDEX <= id < MIN_SERVICE_INDEX + ID_RANGE }

  /** The identifier k places after id, going round the range. */
  function IdAt(id: ServiceId, k: nat): (r: ServiceId)
    requires InRange(id) && k <= ID_RANGE
    ensures InRange(r)
  {
    if id + k < MIN_SERVICE_INDEX + ID_RANGE then id + k else id + k - ID_RANGE
  }

  lemma NextIsNext(id: ServiceId, k: nat)
    requires InRange(id) && k < ID_RANGE
    ensures NextId(IdAt(id, k)) == IdAt(id, k + 1)
    ensures IdAt(NextId(id), k) == IdAt(id, k + 1)
    ensures IdAt(id, 0) == id && NextId(id) == IdAt(id, 1)
  {
    NextIdSteps(id);
    NextIdSteps(IdAt(id, k));
  }

  lemma NextIdSteps(id: ServiceId)
    requires InRange(id)
    ensures NextId(id) == if id + 1 < MIN_SERVICE_INDEX + ID_RANGE then id + 1 else MIN_SERVICE_INDEX
  {}

  lemma DistinctPlaces(id: ServiceId, j: nat, k: nat)
    requires InRange(id) && j < k < ID_RANGE
    ensures IdAt(id, j) != IdAt(id, k)
  {}

  /** The identifiers at places 0 to n - 1. */
  ghost function Places(id: ServiceId, n: nat): (s: set<ServiceId>)
    requires InRange(id) && n <= ID_RANGE
    ensures forall k: nat | k < n :: IdAt(id, k) in s
    ensures forall x | x in s :: exists k: nat :: k < n && x == IdAt(id, k)
    ensures |s| == n
  {
    if n == 0 then {}
    else
      var s := Places(id, n - 1);
      assert IdAt(id, n - 1) !in s by {
        if IdAt(id, n - 1) in s {
          var k: nat :| k < n - 1 && IdAt(id, n - 1) == IdAt(id, k);
          DistinctPlaces(id, k, n - 1);
        }
      }
      s + {IdAt(id, n - 1)}
  }

  /** Pigeonhole: n used places need n used identifiers. */
  lemma UsedPlacesCount(id: ServiceId, used: set<ServiceId>, n: nat)
    requires InRange(id) && n <= ID_RANGE && forall k: nat | k < n :: IdAt(id, k) in used
    ensures |used| >= n
  {
    var s := Places(id, n);
    assert s <= used;
    SubsetSize(s, used);
  }

  lemma {:induction false} SubsetSize<T>(a: set<T>, b: set<T>)
    requires a <= b
    ensures |a| <= |b|
  {
    if a != {} {
      var x :| x in a;
      SubsetSize(a - {x}, b - {x});
    }
  }

  /** The search finds the unused identifier at the first place that has one. */
  lemma {:induction false} FirstFreeIsFirst(id: ServiceId, used: set<ServiceId>, steps: nat)
    requires InRange(id) && steps <= ID_RANGE
    ensures match FirstFree(id, used, steps)
      case Some(r) => exists k: nat :: k <= steps && FreeAt(id, used, k) && r == IdAt(id, k)
      case None => forall k: nat | k <= steps :: IdAt(id, k) in used
    decreases steps
  {
    NextIsNext(id, 0);
    if id !in used {
      assert FreeAt(id, used, 0);
    } else if steps > 0 {
      FirstFreeIsFirst(NextId(id), used, steps - 1);
      match FirstFree(NextId(id), used, steps - 1)
      case Some(r) =>
        var k: nat :| k <= steps - 1 && FreeAt(NextId(id), used, k) && r == IdAt(NextId(id), k);
        NextIsNext(id, k);
        FreeAfterUsed(id, used, k);
      case None =>
        forall k: nat | k <= steps ensures IdAt(id, k) in used {
          if k > 0 { NextIsNext(id, k - 1); assert IdAt(NextId(id), k - 1) in used; }
        }
    }
  }

  /** Place k is unused, and all places before it are used. */
  ghost predicate FreeAt(id: ServiceId, used: set<ServiceId>, k: nat)
    requires InRange(id) && k <= ID_RANGE
  {
    IdAt(id, k) !in used && forall j: nat | j < k :: IdAt(id, j) in used
  }

  lemma FreeAfterUsed(id: ServiceId, used: set<ServiceId>, k: nat)
    requires InRange(id) && k < ID_RANGE && id in used && FreeAt(NextId(id), used, k)
    ensures FreeAt(id, used, k + 1)
  {
    NextIsNext(id, k);
    NextIsNext(id, 0);
    forall j: nat | j < k + 1 ensures IdAt(id, j) in used {
      if j > 0 { NextIsNext(id, j - 1); assert IdAt(NextId(id), j - 1) in used; }
    }
  }

  /** The search succeeds exactly if some identifier of the range is unused; its result is one of those. */
  lemma CheckFindsUnused(id: ServiceId, used: set<ServiceId>)
    requires InRange(id)
    ensures Check(id, used).Some? <==> exists x: ServiceId :: InRange(x) && x !in used
    ensures Check(id, used).Some? ==> InRange(Check(id, used).value) && Check(id, used).value !in used
  {
    FirstFreeIsFirst(id, used, ID_RANGE);
    if Check(id, used).None? {
      forall x: ServiceId | InRange(x) ensures x in used {
        EveryIdHasAPlace(id, x);
        assert IdAt(id, PlaceOf(id, x)) in used;
      }
    }
  }

  function PlaceOf(id: ServiceId, x: ServiceId): (k: nat)
    requires InRange(id) && InRange(x)
    ensures k < ID_RANGE
  {
    if id <= x then x - id else x - id + ID_RANGE
  }

  lemma EveryIdHasAPlace(id: ServiceId, x: ServiceId)
    requires InRange(id) && InRange(x)
    ensures IdAt(id, PlaceOf(id, x)) == x
  {}

  /** The search loop, for callers that know of an unused identifier. */
  method CheckLoop(start: ServiceId, used: set<ServiceId>) returns (id: ServiceId)
    requires InRange(start) && exists x: ServiceId :: InRange(x) && x !in used
    ensures Check(start, used) == Some(id) && InRange(id) && id !in used
  {
    CheckFindsUnused(start, used);
    id := start;
    ghost var steps: int := ID_RANGE;
    while id in used
      invariant InRange(id) && 0 <= steps <= ID_RANGE && FirstFree(id, used, steps) == Check(start, used)
      decreases steps
    {
      NextIsNext(id, 0);
      id := NextId(id);
      steps := steps - 1;
    }
  }

  /** The place search starts from when a service takes the reserved identifier. */
  function SearchStart(reserved: ServiceId): (start: ServiceId)
    requires InRange(reserved)
    ensures InRange(start)
  {
    IdAt(reserved, 42)
  }

  /**
   * When the reserved identifier is handed out, the next reserve is again unused unless every
   * identifier of the range but the handed out one and its 41 successors is in use.
   */
  lemma NextReserve(reserved: ServiceId, used: set<ServiceId>)
    requires InRange(reserved) && reserved !in used
    ensures Check(SearchStart(reserved), used).Some?
    ensures var next := Check(SearchStart(reserved), used).value;
      && InRange(next) && next !in used
      && (next != reserved <==> exists k: nat :: 42 <= k < ID_RANGE && IdAt(reserved, k) !in used)
      && (|used| < ID_RANGE - 42 ==> next != reserved)
  {
    var start := SearchStart(reserved);
    CheckFindsUnused(start, used);
    FirstFreeIsFirst(start, used, ID_RANGE);
    var next := Check(start, used).value;
    var k: nat :| k <= ID_RANGE && FreeAt(start, used, k) && next == IdAt(start, k);
    var turns := ID_RANGE - 42;
    Shifted(reserved, turns);
    assert IdAt(start, turns) == reserved;
    if k == turns {
      forall j: nat | 42 <= j < ID_RANGE ensures IdAt(reserved, j) in used {
        Shifted(reserved, j - 42);
        assert IdAt(start, j - 42) in used;
      }
      UsedPlacesCount(start, used, turns);
    } else {
      assert k < turns;
      Shifted(reserved, k);
      DistinctPlaces(reserved, 0, k + 42);
      NextIsNext(reserved, 0);
    }
  }

  lemma Shifted(reserved: ServiceId, k: nat)
    requires InRange(reserved) && k + 42 <= ID_RANGE
    ensures IdAt(SearchStart(reserved), k) == IdAt(reserved, k + 42)
    ensures k == ID_RANGE - 42 ==> IdAt(reserved, k + 42) == reserved
  {}
}
