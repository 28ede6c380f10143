/** Majorities. The source decides by counting; each count decides exactly
    whether a set of replicas is a majority of the group. And what a replica
    answers to a request for its vote. */
module Ballots {
  import opened Types
  import opened Quorum
  import opened LogSpec
  import opened DiskSpec
  import opened CommitRule
  import opened Replica
  import opened Cluster
  import opened NodeLeader

  /** The group as a replica's configuration has it. */
  ghost function Members(cfg: Config): set<NodeId> {
    PeerSet(cfg.others) + {cfg.id}
  }

  ghost predicate Proper(cfg: Config) {
    Distinct(cfg.others) && cfg.id !in cfg.others
  }

  lemma CfgMembers(s: Group, n: NodeId)
    requires Distinct(s.peers) && n in s.peers
    ensures Proper(Cfg(s, n)) && Members(Cfg(s, n)) == PeerSet(s.peers)
  {
    hide Others;
    OthersFacts(s.peers, n);
  }

  lemma {:induction false} DistinctSize(nodes: seq<NodeId>)
    requires Distinct(nodes)
    ensures |PeerSet(nodes)| == |nodes|
  {
    if |nodes| == 0 {
      assert PeerSet(nodes) == {};
    } else {
      var front, last := nodes[..|nodes| - 1], nodes[|nodes| - 1];
      DistinctSize(front);
      assert last !in front;
      assert forall p :: p in nodes <==> p in front || p == last;
      assert PeerSet(nodes) == PeerSet(front) + {last};
    }
  }

  /** Oneself and enough others are a majority of the group. */
  lemma MajorityCounts(cfg: Config, some: set<NodeId>)
    requires Proper(cfg) && some <= PeerSet(cfg.others)
    ensures 1 + |some| >= QuorumSize(cfg) <==> IsQuorum(Members(cfg), some + {cfg.id})
  {
    DistinctSize(cfg.others);
    assert cfg.id !in PeerSet(cfg.others);
    assert |Members(cfg)| == |PeerSet(cfg.others)| + 1;
    assert |some + {cfg.id}| == |some| + 1;
  }

  // ------------------------------------------------------------------
  // Votes
  // ------------------------------------------------------------------

  /** The positions of the answers that grant the vote. */
  ghost function Ayes(results: seq<bool>): set<nat> {
    set i: nat | i < |results| && results[i]
  }

  /** The others whose answer grants the vote. */
  ghost function Granters(others: seq<NodeId>, results: seq<bool>): set<NodeId>
    requires |results| == |others|
  {
    set i | 0 <= i < |results| && results[i] :: others[i]
  }

  lemma AyesSnoc(results: seq<bool>, n: nat)
    requires n < |results|
    ensures Ayes(results[..n + 1]) == Ayes(results[..n]) + if results[n] then {n} else {}
    ensures |Ayes(results[..n + 1])| == |Ayes(results[..n])| + if results[n] then 1 else 0
  {
    assert results[..n + 1][n] == results[n];
    assert Ayes(results[..n + 1]) == Ayes(results[..n]) + if results[n] then {n} else {};
  }

  lemma GrantersSnoc(others: seq<NodeId>, results: seq<bool>, n: nat)
    requires n < |results| == |others| && Distinct(others)
    ensures Granters(others[..n + 1], results[..n + 1]) ==
              Granters(others[..n], results[..n]) + if results[n] then {others[n]} else {}
    ensures others[n] !in Granters(others[..n], results[..n])
  {
    forall x | x in Granters(others[..n], results[..n])
      ensures x in Granters(others[..n + 1], results[..n + 1]) && x != others[n]
    {
      var i :| 0 <= i < n && results[..n][i] && others[..n][i] == x;
      assert results[..n + 1][i] && others[..n + 1][i] == x;
    }
    if results[n] {
      assert results[..n + 1][n] && others[..n + 1][n] == others[n];
    }
  }

  lemma {:induction false} GrantersCount(others: seq<NodeId>, results: seq<bool>, n: nat)
    requires n <= |results| == |others| && Distinct(others)
    ensures |Granters(others[..n], results[..n])| == |Ayes(results[..n])|
  {
    if n == 0 {
      assert Granters(others[..n], results[..n]) == {} && Ayes(results[..n]) == {};
    } else {
      GrantersCount(others, results, n - 1);
      hide Granters, Ayes, Distinct;
      AyesSnoc(results, n - 1);
      GrantersSnoc(others, results, n - 1);
    }
  }

  /** Counting the answers decides whether the granters and the candidate are a
      majority: what pre-vote and election ask for. */
  lemma VerdictIsMajority(cfg: Config, results: seq<bool>)
    requires Proper(cfg) && |results| == |cfg.others|
    ensures 1 + |Ayes(results)| >= QuorumSize(cfg) <==>
              IsQuorum(Members(cfg), Granters(cfg.others, results) + {cfg.id})
  {
    GrantersCount(cfg.others, results, |results|);
    assert cfg.others[..|results|] == cfg.others && results[..|results|] == results;
    MajorityCounts(cfg, Granters(cfg.others, results));
  }

  /** A log ending in `term` at `index` is at least as up to date as the node's. */
  predicate AsRecent(s: Node, index: nat, term: nat) {
    term > LastTermIn(s.log) || (term == LastTermIn(s.log) && index >= LastIndex(s.log))
  }

  /** What a replica answers to a request for its vote, and what it remembers:
      it grants exactly if the request is of its term or a newer one, it has
      given its vote in that term to no other, and the log is as recent. */
  lemma VoteAnswered(s: Group, n: NodeId, m: Msg)
    requires Enabled(s, AnswerVote(n, m))
    ensures var node, s', req := s.nodes[n], Do(s, AnswerVote(n, m)), m.vote;
            var free := req.term > node.term || node.votedFor == NO_NODE || node.votedFor == req.cand;
            var granted := req.term >= node.term && free && AsRecent(node, req.lastIndex, req.lastTerm);
            && s'.nodes == s.nodes[n := s'.nodes[n]]
            && s'.net == s.net + {VoteReply(n, req, VoteResp(Max(node.term, req.term), granted))}
            && s'.nodes[n].term == Max(node.term, req.term)
            && s'.nodes[n].log == node.log && s'.nodes[n].commitIndex == node.commitIndex
            && (granted ==> s'.nodes[n].votedFor == req.cand
                            && s'.nodes[n].disk.hs == Some(HardState(req.term, req.cand)))
            && (!granted ==> s'.nodes[n].votedFor == if req.term > node.term then NO_NODE else node.votedFor)
            && (req.term > node.term ==> s'.nodes[n].role == Follower)
            && (req.term <= node.term ==> s'.nodes[n].role == node.role)
  {
    var node, req := s.nodes[n], m.vote;
    var f := BecomeFollower(node, req.term, NO_NODE).0;
    NothingSaved(node.disk.(hs := Some(HardState(req.term, NO_NODE))));
    NothingSaved(f.disk.(hs := Some(HardState(req.term, req.cand))));
    NothingSaved(node.disk.(hs := Some(HardState(node.term, req.cand))));
  }

  lemma NothingSaved(d: Disk)
    ensures AppendEntries(d, []) == d
  {
  }

  /** A pre-vote is granted exactly if the term asked for is newer, the node
      does not lead and has not heard from a leader recently, and the log is as
      recent; it changes nothing. */
  lemma PreVoteAnswered(s: Group, n: NodeId, m: Msg, recent: bool)
    requires Enabled(s, AnswerPreVote(n, m, recent))
    ensures var node, s', req := s.nodes[n], Do(s, AnswerPreVote(n, m, recent)), m.vote;
            var granted := && req.term > node.term && node.role != Leader && !recent
                           && AsRecent(node, req.lastIndex, req.lastTerm);
            && s'.nodes == s.nodes
            && s'.net == s.net + {PreVoteReply(n, req, VoteResp(node.term, granted))}
  {
    var step := AnswerPreVote(n, m, recent);
    assert Do(s, step).nodes == s.nodes;
  }

  // ------------------------------------------------------------------
  // Acknowledgements and matches
  // ------------------------------------------------------------------

  /** The acknowledgements of requests sent since `t` are those of a majority. */
  lemma AcksCountMajority(cfg: Config, s: Node, t: nat)
    requires Proper(cfg)
    ensures HasQuorumAckSince(cfg, s, t) <==>
              IsQuorum(Members(cfg), AtLeast(cfg.others, s.lead.ackedAt, t) + {cfg.id})
  {
    CountIsCardinality(cfg.others, s.lead.ackedAt, t);
    MajorityCounts(cfg, AtLeast(cfg.others, s.lead.ackedAt, t));
  }

  /** The leader and the peers known to hold index `k`. */
  ghost function Holders(cfg: Config, s: Node, k: nat): set<NodeId> {
    AtLeast(cfg.others, s.lead.matchIndex, k) + {cfg.id}
  }

  lemma MatchesCountMajority(cfg: Config, s: Node, k: nat)
    requires Proper(cfg) && k <= LastIndex(s.log)
    ensures CountAtLeast(Matches(cfg, s), k) >= QuorumSize(cfg) <==> IsQuorum(Members(cfg), Holders(cfg, s, k))
  {
    var rest := Values(cfg.others, s.lead.matchIndex);
    CountCons(LastIndex(s.log), rest, k);
    CountIsCardinality(cfg.others, s.lead.matchIndex, k);
    MajorityCounts(cfg, AtLeast(cfg.others, s.lead.matchIndex, k));
  }

  lemma {:induction false} CountCons(x: nat, s: seq<nat>, c: nat)
    ensures CountAtLeast([x] + s, c) == (if x >= c then 1 else 0) + CountAtLeast(s, c)
  {
    if |s| == 0 {
      assert [x] + s == [x] && [x][..0] == [];
    } else {
      assert ([x] + s)[..|s|] == [x] + s[..|s| - 1];
      CountCons(x, s[..|s| - 1], c);
    }
  }
}
