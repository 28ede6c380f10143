/** Counting replicas: the median commit candidate and the acknowledgement
    quorum of ReadIndex and check-quorum. */
module CommitRule {
  import opened Types

  type PeerMap = map<NodeId, nat>

  /** A missing key reads as zero. */
  function Get(m: PeerMap, p: NodeId): nat {
    if p in m then m[p] else 0
  }

  /** The same value for every node. */
  function Everywhere<T>(nodes: seq<NodeId>, v: T): map<NodeId, T> {
    if |nodes| == 0 then map[] else Everywhere(nodes[..|nodes| - 1], v)[nodes[|nodes| - 1] := v]
  }

  lemma {:induction false} EverywhereReads<T>(nodes: seq<NodeId>, v: T)
    ensures forall p :: p in Everywhere(nodes, v) <==> p in nodes
    ensures forall p :: p in Everywhere(nodes, v) ==> Everywhere(nodes, v)[p] == v
  {
    if |nodes| > 0 {
      var front, p := nodes[..|nodes| - 1], nodes[|nodes| - 1];
      EverywhereReads(front, v);
      assert forall q :: q in nodes <==> q in front || q == p;
    }
  }

  function Values(peers: seq<NodeId>, m: PeerMap): seq<nat> {
    seq(|peers|, i requires 0 <= i < |peers| => Get(m, peers[i]))
  }

  /** How many elements are at least `c`. */
  function CountAtLeast(s: seq<nat>, c: nat): nat {
    if |s| == 0 then 0
    else CountAtLeast(s[..|s| - 1], c) + (if s[|s| - 1] >= c then 1 else 0)
  }

  predicate Sorted(s: seq<nat>) {
    forall i, j :: 0 <= i < j < |s| ==> s[i] <= s[j]
  }

  function Insert(s: seq<nat>, x: nat): seq<nat> {
    if |s| == 0 || s[|s| - 1] <= x then s + [x] else Insert(s[..|s| - 1], x) + [s[|s| - 1]]
  }

  function Sort(s: seq<nat>): seq<nat> {
    if |s| == 0 then [] else Insert(Sort(s[..|s| - 1]), s[|s| - 1])
  }

  lemma {:induction false} InsertSorted(s: seq<nat>, x: nat)
    requires Sorted(s)
    ensures Sorted(Insert(s, x)) && |Insert(s, x)| == |s| + 1
    ensures forall y :: y in Insert(s, x) ==> y in s || y == x
  {
    if |s| > 0 && s[|s| - 1] > x {
      var front := s[..|s| - 1];
      var r := Insert(front, x);
      InsertSorted(front, x);
      forall i | 0 <= i < |r|
        ensures r[i] <= s[|s| - 1]
      {
        assert r[i] in r;
      }
    }
  }

  lemma {:induction false} InsertCount(s: seq<nat>, x: nat, c: nat)
    ensures CountAtLeast(Insert(s, x), c) == CountAtLeast(s, c) + (if x >= c then 1 else 0)
  {
    if |s| == 0 || s[|s| - 1] <= x {
      assert (s + [x])[..|s|] == s;
    } else {
      var r := Insert(s[..|s| - 1], x);
      InsertCount(s[..|s| - 1], x, c);
      assert (r + [s[|s| - 1]])[..|r|] == r;
    }
  }

  lemma {:induction false} SortFacts(s: seq<nat>, c: nat)
    ensures Sorted(Sort(s)) && |Sort(s)| == |s|
    ensures CountAtLeast(Sort(s), c) == CountAtLeast(s, c)
  {
    if |s| > 0 {
      SortFacts(s[..|s| - 1], c);
      InsertSorted(Sort(s[..|s| - 1]), s[|s| - 1]);
      InsertCount(Sort(s[..|s| - 1]), s[|s| - 1], c);
    }
  }

  /** In a sorted sequence, at least `|s| - k` elements reach `c` exactly when element `k` does. */
  lemma {:induction false} SortedCount(s: seq<nat>, k: nat, c: nat)
    requires Sorted(s) && k < |s|
    ensures CountAtLeast(s, c) >= |s| - k <==> s[k] >= c
    ensures CountAtLeast(s, c) <= |s|
  {
    var p := s[..|s| - 1];
    if k < |p| {
      SortedCount(p, k, c);
      if s[k] >= c {
        assert p[k] >= c;
      }
    } else {
      CountBound(p, c);
      if |p| > 0 && s[k] < c {
        SortedCount(p, 0, c);
        AllBelow(p, c);
      }
    }
    CountBound(s, c);
  }

  lemma CountBound(s: seq<nat>, c: nat)
    ensures CountAtLeast(s, c) <= |s|
  {
  }

  lemma AllBelow(s: seq<nat>, c: nat)
    requires forall i :: 0 <= i < |s| ==> s[i] < c
    ensures CountAtLeast(s, c) == 0
  {
  }

  /** The element at position n - quorum of the sorted values. */
  function QuorumIndex(values: seq<nat>, quorum: nat): nat
    requires 0 < quorum <= |values|
  {
    SortFacts(values, 0);
    Sort(values)[|values| - quorum]
  }

  /** It is the greatest index that a quorum holds. */
  lemma QuorumIndexIsGreatest(values: seq<nat>, quorum: nat, k: nat)
    requires 0 < quorum <= |values|
    ensures k <= QuorumIndex(values, quorum) <==> CountAtLeast(values, k) >= quorum
  {
    SortFacts(values, k);
    SortedCount(Sort(values), |values| - quorum, k);
  }

  predicate Distinct(s: seq<NodeId>) {
    forall i, j :: 0 <= i < j < |s| ==> s[i] != s[j]
  }

  ghost function AtLeast(peers: seq<NodeId>, m: PeerMap, c: nat): set<NodeId> {
    set p | p in peers && Get(m, p) >= c
  }

  /** With distinct peers, counting values counts nodes. */
  lemma {:induction false} CountIsCardinality(peers: seq<NodeId>, m: PeerMap, c: nat)
    requires Distinct(peers)
    ensures CountAtLeast(Values(peers, m), c) == |AtLeast(peers, m, c)|
  {
    if |peers| > 0 {
      var front, p := peers[..|peers| - 1], peers[|peers| - 1];
      CountIsCardinality(front, m, c);
      assert Values(peers, m)[..|front|] == Values(front, m);
      assert p !in front;
      assert forall q :: q in peers <==> q in front || q == p;
      if Get(m, p) >= c {
        assert AtLeast(peers, m, c) == AtLeast(front, m, c) + {p};
      } else {
        assert AtLeast(peers, m, c) == AtLeast(front, m, c);
      }
    } else {
      assert AtLeast(peers, m, c) == {};
    }
  }
}
