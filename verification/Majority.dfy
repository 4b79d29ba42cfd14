/** Quorums, and the index that a strict majority of servers has reached (src/raft/raft_replication.go). */
module Majority {
  import opened FiniteSets

  // ---------- quorums ----------

  predicate IsQuorum(q: set<nat>, n: nat) {
    (forall x :: x in q ==> x < n) && 2 * |q| > n
  }

  /** Two strict majorities of the same servers share a member. */
  lemma QuorumsMeet(a: set<nat>, b: set<nat>, n: nat) returns (x: nat)
    requires IsQuorum(a, n) && IsQuorum(b, n)
    ensures x in a && x in b && x < n
  {
    if a !! b {
      assert |a + b| == |a| + |b|;
      SubsetIsSmaller(a + b, Upto(n));
      assert false;
    }
    x :| x in a && x in b;
  }

  // ---------- the majority index ----------

  predicate Ascending(s: seq<int>) {
    forall i, j :: 0 <= i <= j < |s| ==> s[i] <= s[j]
  }

  function Insert(x: int, s: seq<int>): (r: seq<int>)
    ensures |r| == |s| + 1
    ensures forall y :: y in r <==> y == x || y in s
  {
    if s == [] then [x]
    else if x <= s[0] then [x] + s
    else [s[0]] + Insert(x, s[1..])
  }

  function Sorted(s: seq<int>): (r: seq<int>)
    ensures |r| == |s|
    ensures forall y :: y in r <==> y in s
  {
    if s == [] then [] else Insert(s[0], Sorted(s[1..]))
  }

  /** The middle of the sorted match indices: getMajorityIndexLocked. */
  function MajorityIndex(matchIndex: seq<int>): int
    requires |matchIndex| > 0
  {
    Sorted(matchIndex)[(|matchIndex| - 1) / 2]
  }

  /** The servers whose match index is at least m. */
  function Reaching(matchIndex: seq<int>, m: int): set<nat> {
    set p: nat | p < |matchIndex| && matchIndex[p] >= m
  }

  lemma MajorityIndexIsMember(matchIndex: seq<int>)
    requires |matchIndex| > 0
    ensures MajorityIndex(matchIndex) in matchIndex
  {
    assert MajorityIndex(matchIndex) in Sorted(matchIndex);
  }

  /** How many elements are at least x. */
  function CountGe(s: seq<int>, x: int): nat {
    if s == [] then 0 else (if s[0] >= x then 1 else 0) + CountGe(s[1..], x)
  }

  lemma {:induction false} CountGeInsert(a: int, s: seq<int>, x: int)
    ensures CountGe(Insert(a, s), x) == CountGe([a] + s, x)
  {
    assert ([a] + s)[1..] == s;
    if s != [] && a > s[0] {
      CountGeInsert(a, s[1..], x);
      assert ([a] + s[1..])[1..] == s[1..];
      assert Insert(a, s)[1..] == Insert(a, s[1..]);
    }
  }

  lemma {:induction false} CountGeSorted(s: seq<int>, x: int)
    ensures CountGe(Sorted(s), x) == CountGe(s, x)
  {
    if s != [] {
      CountGeSorted(s[1..], x);
      CountGeInsert(s[0], Sorted(s[1..]), x);
      assert ([s[0]] + Sorted(s[1..]))[1..] == Sorted(s[1..]);
    }
  }

  lemma {:induction false} InsertAscends(x: int, s: seq<int>)
    requires Ascending(s)
    ensures Ascending(Insert(x, s))
  {
    if s != [] && x > s[0] {
      InsertAscends(x, s[1..]);
      var r := Insert(x, s[1..]);
      forall i, j | 0 <= i <= j < |s| + 1 ensures Insert(x, s)[i] <= Insert(x, s)[j] {
        if 0 == i < j {
          assert r[j - 1] in r;
        }
      }
    }
  }

  lemma {:induction false} SortedAscends(s: seq<int>)
    ensures Ascending(Sorted(s))
  {
    if s != [] {
      SortedAscends(s[1..]);
      InsertAscends(s[0], Sorted(s[1..]));
    }
  }

  lemma {:induction false} CountGeBounds(s: seq<int>, k: nat, x: int)
    requires Ascending(s) && k <= |s|
    ensures k < |s| && s[k] >= x ==> CountGe(s, x) >= |s| - k
    ensures (forall i :: 0 <= i < k ==> s[i] < x) ==> CountGe(s, x) <= |s| - k
  {
    if s != [] {
      CountGeBounds(s[1..], if k == 0 then 0 else k - 1, x);
    }
  }

  lemma {:induction false} CountGeAppend(s: seq<int>, a: int, x: int)
    ensures CountGe(s + [a], x) == CountGe(s, x) + if a >= x then 1 else 0
  {
    if s != [] {
      CountGeAppend(s[1..], a, x);
      assert (s + [a])[1..] == s[1..] + [a];
    }
  }

  lemma {:induction false} ReachingSize(s: seq<int>, x: int)
    ensures |Reaching(s, x)| == CountGe(s, x)
  {
    if s != [] {
      var n := |s| - 1;
      var init := s[..n];
      ReachingSize(init, x);
      assert s == init + [s[n]];
      CountGeAppend(init, s[n], x);
      assert Reaching(s, x) == Reaching(init, x) + if s[n] >= x then {n} else {};
    }
  }

  /** A strict majority has reached m, and none has reached more. */
  ghost predicate IsLargestReached(matchIndex: seq<int>, m: int) {
    && IsQuorum(Reaching(matchIndex, m), |matchIndex|)
    && forall x :: x > m ==> !IsQuorum(Reaching(matchIndex, x), |matchIndex|)
  }

  /** The majority index is the largest index that a strict majority has reached. */
  lemma MajorityIndexIsLargest(matchIndex: seq<int>)
    requires |matchIndex| > 0
    ensures IsQuorum(Reaching(matchIndex, MajorityIndex(matchIndex)), |matchIndex|)
    ensures forall m :: m > MajorityIndex(matchIndex) ==> !IsQuorum(Reaching(matchIndex, m), |matchIndex|)
  {
    var s, mid := Sorted(matchIndex), (|matchIndex| - 1) / 2;
    SortedAscends(matchIndex);
    CountGeBounds(s, mid, s[mid]);
    CountGeSorted(matchIndex, s[mid]);
    ReachingSize(matchIndex, s[mid]);
    forall m | m > s[mid] ensures !IsQuorum(Reaching(matchIndex, m), |matchIndex|) {
      CountGeBounds(s, mid + 1, m);
      CountGeSorted(matchIndex, m);
      ReachingSize(matchIndex, m);
    }
  }

  /** There is only one such index. */
  lemma LargestReachedIsMajority(matchIndex: seq<int>, m: int)
    requires |matchIndex| > 0
    ensures IsLargestReached(matchIndex, m) <==> m == MajorityIndex(matchIndex)
  {
    MajorityIndexIsLargest(matchIndex);
    hide MajorityIndex, IsQuorum;
  }

  // ---------- the sort of getMajorityIndexLocked, in place ----------

  lemma {:induction false} InsertAt(x: int, s: seq<int>, k: nat)
    requires k <= |s| && (forall i :: 0 <= i < k ==> s[i] < x) && (k < |s| ==> x <= s[k])
    ensures Insert(x, s) == s[..k] + [x] + s[k..]
  {
    if k > 0 {
      InsertAt(x, s[1..], k - 1);
      assert s[..k] == [s[0]] + s[1..][..k - 1];
      assert s[1..][k - 1..] == s[k..];
    }
  }

  /** Moves a[i] to its place in the rest of a. */
  method InsertFirst(a: array<int>, i: nat)
    requires i < a.Length
    modifies a
    ensures a[..i] == old(a[..i])
    ensures a[i..] == Insert(old(a[i]), old(a[i + 1..]))
  {
    ghost var rest := a[i + 1..];
    var x, j := a[i], i;
    while j + 1 < a.Length && a[j + 1] < x
      invariant i <= j < a.Length
      invariant a[..i] == old(a[..i])
      invariant a[i..j] == rest[..j - i] && a[j + 1..] == rest[j - i..]
      invariant forall k :: 0 <= k < j - i ==> rest[k] < x
    {
      assert a[j + 1] == rest[j - i];
      a[j] := a[j + 1];
      j := j + 1;
    }
    assert j + 1 < a.Length ==> a[j + 1] == rest[j - i];
    InsertAt(x, rest, j - i);
    a[j] := x;
    hide Insert;
    assert a[i..j] == rest[..j - i] && a[j + 1..] == rest[j - i..];
    assert a[i..] == a[i..j] + [x] + a[j + 1..];
  }

  method SortInts(a: array<int>)
    modifies a
    ensures a[..] == Sorted(old(a[..]))
  {
    var i := a.Length;
    while i > 0
      invariant 0 <= i <= a.Length
      invariant a[..i] == old(a[..i])
      invariant a[i..] == Sorted(old(a[i..]))
    {
      i := i - 1;
      InsertFirst(a, i);
      assert old(a[i..]) == [old(a[i])] + old(a[i + 1..]);
    }
    assert a[..] == a[0..] && old(a[..]) == old(a[0..]);
  }
}
