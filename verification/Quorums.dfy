/** Majorities of a fixed peer group, and the arithmetic of counting them. */
module Quorums {

  /** Size of a majority: len(peers)/2 + 1. */
  function Majority(peers: nat): nat {
    peers / 2 + 1
  }

  /** It is the least number that is more than half. */
  lemma MajorityIsLeast(peers: nat, k: nat)
    ensures 2 * k > peers <==> k >= Majority(peers)
  {}

  function Ids(peers: nat): (ids: set<nat>)
    ensures forall i: nat :: i in ids <==> i < peers
    ensures |ids| == peers
  {
    if peers == 0 then {} else Ids(peers - 1) + {peers - 1}
  }

  ghost predicate IsQuorum(peers: nat, q: set<nat>) {
    q <= Ids(peers) && |q| >= Majority(peers)
  }

  lemma {:induction false} SubsetCardinality<T>(a: set<T>, b: set<T>)
    requires a <= b
    ensures |a| <= |b|
  {
    if x :| x in a {
      SubsetCardinality(a - {x}, b - {x});
    }
  }

  /** Any two majorities share a peer. */
  lemma QuorumsMeet(peers: nat, a: set<nat>, b: set<nat>) returns (j: nat)
    requires IsQuorum(peers, a) && IsQuorum(peers, b)
    ensures j in a && j in b && j < peers
  {
    if a * b == {} {
      assert |a + b| == |a| + |b|;
      SubsetCardinality(a + b, Ids(peers));
      assert false;
    }
    j :| j in a * b;
    assert j in Ids(peers);
  }

  // ---- Sorting in descending order, as sort.Sort(sort.Reverse(mis)) does ----

  ghost predicate Descending(s: seq<int>) {
    forall i, j | 0 <= i < j < |s| :: s[i] >= s[j]
  }

  function InsertDescending(x: int, s: seq<int>): seq<int> {
    if s == [] || x >= s[0] then [x] + s else [s[0]] + InsertDescending(x, s[1..])
  }

  function SortDescending(s: seq<int>): seq<int> {
    if s == [] then [] else InsertDescending(s[0], SortDescending(s[1..]))
  }

  lemma {:induction false} InsertedKeeps(x: int, s: seq<int>)
    ensures multiset(InsertDescending(x, s)) == multiset{x} + multiset(s)
  {
    if s != [] && x < s[0] {
      InsertedKeeps(x, s[1..]);
      assert s == [s[0]] + s[1..];
    }
  }

  lemma {:induction false} InsertedDescending(x: int, s: seq<int>)
    requires Descending(s)
    ensures Descending(InsertDescending(x, s))
  {
    if s != [] && x < s[0] {
      InsertedDescending(x, s[1..]);
      InsertedBelow(x, s[1..], s[0]);
    }
  }

  lemma {:induction false} InsertedBelow(x: int, s: seq<int>, bound: int)
    requires x <= bound && forall i | 0 <= i < |s| :: s[i] <= bound
    ensures forall i | 0 <= i < |InsertDescending(x, s)| :: InsertDescending(x, s)[i] <= bound
  {
    if s != [] && x < s[0] {
      InsertedBelow(x, s[1..], bound);
    }
  }

  lemma {:induction false} SortedDescending(s: seq<int>)
    ensures Descending(SortDescending(s)) && multiset(SortDescending(s)) == multiset(s)
    ensures |SortDescending(s)| == |s|
  {
    if s == [] {
    } else {
      SortedDescending(s[1..]);
      InsertedDescending(s[0], SortDescending(s[1..]));
      InsertedKeeps(s[0], SortDescending(s[1..]));
      assert s == [s[0]] + s[1..];
    }
    assert |multiset(SortDescending(s))| == |multiset(s)|;
  }

  // ---- How many entries reach a bound ----

  /** The peers whose value is at least `bound`. */
  function Reaching(s: seq<int>, bound: int): set<nat> {
    set j: nat | j < |s| && s[j] >= bound
  }

  function Count(s: seq<int>, bound: int): nat {
    if s == [] then 0 else Count(s[..|s| - 1], bound) + if s[|s| - 1] >= bound then 1 else 0
  }

  lemma {:induction false} CountIsCardinality(s: seq<int>, bound: int)
    ensures |Reaching(s, bound)| == Count(s, bound)
  {
    if s == [] {
      assert Reaching(s, bound) == {};
    } else {
      var t := s[..|s| - 1];
      CountIsCardinality(t, bound);
      assert Reaching(s, bound) == Reaching(t, bound) + if s[|s| - 1] >= bound then {(|s| - 1) as nat} else {};
    }
  }

  lemma {:induction false} CountConcat(a: seq<int>, b: seq<int>, bound: int)
    ensures Count(a + b, bound) == Count(a, bound) + Count(b, bound)
  {
    if b == [] {
      assert a + b == a;
    } else {
      CountConcat(a, b[..|b| - 1], bound);
      assert (a + b)[..|a + b| - 1] == a + b[..|b| - 1];
    }
  }

  lemma {:induction false} CountInsert(x: int, s: seq<int>, bound: int)
    ensures Count(InsertDescending(x, s), bound) == Count([x], bound) + Count(s, bound)
  {
    if s == [] || x >= s[0] {
      CountConcat([x], s, bound);
    } else {
      CountInsert(x, s[1..], bound);
      CountConcat([s[0]], InsertDescending(x, s[1..]), bound);
      CountConcat([s[0]], s[1..], bound);
      assert s == [s[0]] + s[1..];
    }
  }

  lemma {:induction false} CountSort(s: seq<int>, bound: int)
    ensures Count(SortDescending(s), bound) == Count(s, bound)
  {
    if s != [] {
      CountSort(s[1..], bound);
      CountInsert(s[0], SortDescending(s[1..]), bound);
      CountConcat([s[0]], s[1..], bound);
      assert s == [s[0]] + s[1..];
    }
  }

  lemma {:induction false} CountAll(s: seq<int>, bound: int)
    requires forall i | 0 <= i < |s| :: s[i] >= bound
    ensures Count(s, bound) == |s|
  {
    if s != [] {
      CountAll(s[..|s| - 1], bound);
    }
  }

  lemma {:induction false} CountNone(s: seq<int>, bound: int)
    requires forall i | 0 <= i < |s| :: s[i] < bound
    ensures Count(s, bound) == 0
  {
    if s != [] {
      CountNone(s[..|s| - 1], bound);
    }
  }

  lemma {:induction false} CountBound(s: seq<int>, bound: int)
    ensures Count(s, bound) <= |s|
  {
    if s != [] {
      CountBound(s[..|s| - 1], bound);
    }
  }

  /** Splitting a descending sequence at `rank` decides how many values reach `bound`. */
  lemma CountDescending(d: seq<int>, rank: nat, bound: int)
    requires Descending(d) && 1 <= rank <= |d|
    ensures Count(d, bound) >= rank <==> bound <= d[rank - 1]
  {
    if bound <= d[rank - 1] {
      var lo, hi := d[..rank], d[rank..];
      assert d == lo + hi;
      CountAll(lo, bound);
      CountConcat(lo, hi, bound);
    } else {
      var lo, hi := d[..rank - 1], d[rank - 1..];
      assert d == lo + hi;
      CountNone(hi, bound);
      CountBound(lo, bound);
      CountConcat(lo, hi, bound);
    }
  }

  /** The value at rank `rank` of the descending order is the greatest bound that `rank` values reach. */
  lemma RankIsGreatestReached(s: seq<int>, rank: nat, bound: int)
    requires 1 <= rank <= |s|
    ensures |SortDescending(s)| == |s|
    ensures |Reaching(s, bound)| >= rank <==> bound <= SortDescending(s)[rank - 1]
  {
    SortedDescending(s);
    CountIsCardinality(s, bound);
    CountSort(s, bound);
    CountDescending(SortDescending(s), rank, bound);
  }
}
