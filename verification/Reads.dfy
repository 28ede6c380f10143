/** Requests a leader builds, and linearizable reads. */
module Reads {
  import opened Types
  import opened Quorum
  import opened LogSpec
  import opened DiskSpec
  import opened CommitRule
  import opened Replica
  import opened Cluster
  import opened Link
  import opened Frames
  import opened NodeLeader
  import C = Consensus

  // ------------------------------------------------------------------
  // Building requests
  // ------------------------------------------------------------------

  lemma BuiltAppend(h: C.History, now: nat, cfg: Config, n: NodeId, s: Node, peer: NodeId)
    requires CoreOk(h, n, s) && LeaderOk(h, now, cfg.others, n, s) && cfg.id == n
    requires peer in cfg.others && peer != n && peer in h.peers
    requires Get(s.lead.nextIndex, peer) > s.log.snapIndex
    ensures AppendReqOk(h, peer, PrepareAppend(cfg, s, peer))
    ensures InRange(s.log, Get(s.lead.nextIndex, peer),
              Min(LastIndex(s.log), Get(s.lead.nextIndex, peer) - 1 + cfg.maxAppendEntries))
  {
    hide Committed, Compacts, Slice, TermIn, InRange, AckTimeOk, C.Acked;
    assert PeerOk(h, now, s, |h.logs[n]|, peer);
    BuiltEntries(h.logs[n], s.log, s.lead.nextIndex[peer], cfg.maxAppendEntries);
  }

  /** A request starts right after the entry it names and stays in the log. */
  lemma BuiltEntries(full: seq<Entry>, l: LogState, next: nat, most: nat)
    requires Compacts(full, l) && l.snapIndex < next <= |full| + 1
    ensures var last := Min(LastIndex(l), next - 1 + most);
            && LastIndex(l) == |full| && next - 1 <= last <= |full|
            && Slice(l, next, last) == full[next - 1..last]
            && TermIn(l, next - 1) == TermAt(full, next - 1)
            && InRange(l, next, last)
  {
    CompactsReads(full, l);
    CompactsSlice(full, l, next, Min(LastIndex(l), next - 1 + most));
  }

  // ------------------------------------------------------------------
  // Linearizable reads
  // ------------------------------------------------------------------

  /** Once its no-op is committed, a leader knows of every commit of its own
      and of earlier terms. */
  lemma KnowsCommit(h: C.History, now: nat, others: seq<NodeId>, n: NodeId, s: Node, c: C.Commit)
    requires C.Complete(h) && C.CommitsOk(h.peers, h.leaderLog, h.acks, h.commits)
    requires C.LeadersGrown(h.elections, h.leaderLog, h.campaigns)
    requires LeaderOk(h, now, others, n, s) && s.commitIndex >= s.lead.noopIndex
    requires c in h.commits && c.term <= s.term
    ensures c.len <= s.commitIndex
  {
    if c.term < s.term {
      assert C.CommitOk(h.peers, h.leaderLog, h.acks, c);
      CommitInLeader(h, c, s.term);
      assert C.Grown(h.campaigns[(n, s.term)], h.leaderLog[s.term], s.term);
      assert h.leaderLog[s.term][c.len - 1] == h.leaderLog[c.term][c.len - 1];
    }
  }

  lemma BegunRead(h: C.History, now: nat, others: seq<NodeId>, n: NodeId, s: Node)
    requires C.Complete(h) && C.CommitsOk(h.peers, h.leaderLog, h.acks, h.commits)
    requires C.LeadersGrown(h.elections, h.leaderLog, h.campaigns)
    requires LeaderOk(h, now, others, n, s) && s.commitIndex >= s.lead.noopIndex && ClockOk(h, now)
    ensures ReadOk(h, Read(n, s.term, s.commitIndex, now))
  {
    forall c | c in h.commits && c.term <= s.term
      ensures c.len <= s.commitIndex
    {
      KnowsCommit(h, now, others, n, s, c);
    }
    forall c | c in h.commits
      ensures c.term in h.elections
    {
      assert C.CommitOk(h.peers, h.leaderLog, h.acks, c);
    }
  }

  /** The nodes that answered an RPC sent at or after `t`, with the leader. */
  ghost function AckedSince(others: seq<NodeId>, n: NodeId, s: Node, t: nat): set<NodeId> {
    AtLeast(others, s.lead.ackedAt, t) + {n}
  }

  lemma AckQuorum(peers: seq<NodeId>, cfg: Config, n: NodeId, s: Node, t: nat)
    requires Distinct(peers) && n in peers && cfg.others == Others(peers, n)
    requires HasQuorumAckSince(cfg, s, t)
    ensures IsQuorum(PeerSet(peers), AckedSince(cfg.others, n, s, t))
  {
    OthersFacts(peers, n);
    CountIsCardinality(cfg.others, s.lead.ackedAt, t);
  }

  /** A quorum of acknowledgements newer than the read rules out that a later
      leader had been elected before the read began. */
  lemma ConfirmedRead(h: C.History, now: nat, peers: seq<NodeId>, cfg: Config, n: NodeId, s: Node, rd: Read)
    requires Distinct(peers) && n in peers && cfg.others == Others(peers, n) && h.peers == PeerSet(peers)
    requires C.GrantsOk(h.term, h.vote, h.grants) && C.ElectionsOk(h.peers, h.grants, h.elections)
    requires LeaderOk(h, now, cfg.others, n, s) && C.TermOf(h.term, n) == s.term
    requires ReadOk(h, rd) && rd.term == s.term && HasQuorumAckSince(cfg, s, rd.start)
    ensures Covers(h.commits, rd)
  {
    hide HasQuorumAckSince, IsQuorum, C.GrantsOk, Others, PeerSet, Distinct;
    if u :| u in h.elections && u > rd.term && h.elections[u].at < rd.start {
      AckQuorum(peers, cfg, n, s, rd.start);
      assert C.ElectionOk(h.peers, h.grants, u, h.elections[u]);
      var x := QuorumsIntersect(h.peers, AckedSince(cfg.others, n, s, rd.start), h.elections[u].voters);
      C.VotersInTerm(h, u, x);
      assert false;
    }
  }
}
