/** Majorities of a finite group. */
module Quorum {
  import opened Types

  predicate IsQuorum(peers: set<NodeId>, q: set<NodeId>) {
    q <= peers && |q| >= |peers| / 2 + 1
  }

  /** Two majorities share a member. */
  lemma QuorumsIntersect(peers: set<NodeId>, a: set<NodeId>, b: set<NodeId>) returns (x: NodeId)
    requires IsQuorum(peers, a) && IsQuorum(peers, b)
    ensures x in a && x in b
  {
    if a * b == {} {
      assert |a + b| == |a| + |b|;
      SubsetSize(a + b, peers);
      assert false;
    }
    x :| x in a * b;
  }

  lemma SubsetSize(a: set<NodeId>, b: set<NodeId>)
    requires a <= b
    ensures |a| <= |b|
  {
    assert b == a + (b - a);
  }
}
