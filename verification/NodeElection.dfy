/** Role transitions and votes keep a node linked to the history. */
module NodeElection {
  import opened Types
  import opened Quorum
  import opened LogSpec
  import opened DiskSpec
  import opened CommitRule
  import opened Replica
  import opened Cluster
  import opened Link
  import opened Frames
  import opened Preserve
  import C = Consensus

  lemma NodeLater(h: C.History, w: Machine, now: nat, others: seq<NodeId>, n: NodeId, s: Node)
    requires NodeOk(h, w, now, others, n, s)
    ensures NodeOk(h, w, now + 1, others, n, s)
  {
    if s.role == Leader {
      forall p | p in others
        ensures PeerOk(h, now + 1, s, |h.logs[n]|, p)
      {
        assert PeerOk(h, now, s, |h.logs[n]|, p);
      }
    }
  }

  // ------------------------------------------------------------------
  // Stepping down
  // ------------------------------------------------------------------

  function StepDown(h: C.History, n: NodeId, t: nat): C.History {
    if t > C.TermOf(h.term, n) then C.RaiseTerm(h, n, t) else h
  }

  lemma StepDownHistory(h: C.History, n: NodeId, t: nat, now: nat)
    requires C.Inv(h) && n in h.peers
    ensures C.Inv(StepDown(h, n, t))
    ensures Extends(h, StepDown(h, n, t), now) && ActsFor(h, StepDown(h, n, t), n)
  {
    if t > C.TermOf(h.term, n) {
      C.RaiseTermKeeps(h, n, t);
      RaiseTermGrows(h, n, t, now);
    } else {
      ExtendsRefl(h, n, now);
    }
  }

  lemma StepDownNode(h: C.History, w: Machine, now: nat, others: seq<NodeId>, n: NodeId, s: Node, t: nat,
                     leader: NodeId)
    requires NodeOk(h, w, now, others, n, s) && t >= s.term
    ensures NodeOk(StepDown(h, n, t), w, now, others, n, BecomeFollower(s, t, leader).0)
    ensures forall a :: a in BecomeFollower(s, t, leader).1 ==> a.outcome.Failed?
  {
    StepDownFrame(s, t, leader);
    StepDownCore(h, n, s, t, leader);
    StepDownDisk(w, h.logs[n], s, t, leader);
  }

  lemma StepDownFrame(s: Node, t: nat, leader: NodeId)
    requires t >= s.term
    ensures var s' := BecomeFollower(s, t, leader).0;
            && s'.role == Follower && s'.term == t && s'.log == s.log && s'.commitIndex == s.commitIndex
            && s'.appl == s.appl
            && (s.role == Leader ==> s'.waiters == map[]) && (s.role != Leader ==> s'.waiters == s.waiters)
            && s'.votedFor == (if t > s.term then NO_NODE else s.votedFor)
            && s'.disk == (if t > s.term then s.disk.(hs := Some(HardState(t, NO_NODE))) else s.disk)
            && s'.leaderId == leader
    ensures forall a :: a in BecomeFollower(s, t, leader).1 ==> a.outcome.Failed?
  {
  }

  lemma StepDownCore(h: C.History, n: NodeId, s: Node, t: nat, leader: NodeId)
    requires CoreOk(h, n, s) && t >= s.term
    ensures CoreOk(StepDown(h, n, t), n, BecomeFollower(s, t, leader).0)
  {
    StepDownFrame(s, t, leader);
    CommittedWeaken(h.leaderLog, h.commits, h.logs[n], s.commitIndex, s.term, h.logs[n], s.commitIndex, t);
  }

  lemma StepDownDisk(w: Machine, full: seq<Entry>, s: Node, t: nat, leader: NodeId)
    requires DiskOk(w, full, s) && t >= s.term
    ensures DiskOk(w, full, BecomeFollower(s, t, leader).0)
  {
    StepDownFrame(s, t, leader);
  }

  // ------------------------------------------------------------------
  // Votes
  // ------------------------------------------------------------------

  lemma UpToDateReads(full: seq<Entry>, cand: seq<Entry>, s: Node, req: VoteReq)
    requires Compacts(full, s.log)
    requires req.lastIndex == |cand| && req.lastTerm == LastTerm(cand)
    ensures LogUpToDate(s, req.lastIndex, req.lastTerm) == C.UpToDate(cand, full)
  {
    CompactsReads(full, s.log);
  }

  /** Changing only the vote, durably. */
  lemma VoteNode(h: C.History, w: Machine, now: nat, others: seq<NodeId>, n: NodeId, s: Node, c: NodeId)
    requires NodeOk(h, w, now, others, n, s)
    ensures NodeOk(C.CastVote(h, n, c), w, now, others, n, Persist(s.(votedFor := c), true, []))
  {
    var h' := C.CastVote(h, n, c);
    var s' := Persist(s.(votedFor := c), true, []);
    if s.role == Leader {
      forall p | p in others
        ensures PeerOk(h', now, s', |h'.logs[n]|, p)
      {
        assert PeerOk(h, now, s, |h.logs[n]|, p);
      }
    }
  }

  /** The vote is granted to a candidate of the node's own term. */
  predicate Votes(s: Node, req: VoteReq) {
    (s.votedFor == NO_NODE || s.votedFor == req.cand) && LogUpToDate(s, req.lastIndex, req.lastTerm)
  }

  ghost function CastVoteIf(h: C.History, n: NodeId, s: Node, req: VoteReq): C.History {
    if Votes(s, req) then C.CastVote(h, n, req.cand) else h
  }

  lemma CastVoteHistory(h: C.History, n: NodeId, s: Node, req: VoteReq, now: nat)
    requires C.Inv(h) && CoreOk(h, n, s) && n in h.peers && s.term == req.term
    requires (req.cand, req.term) in h.campaigns
    requires req.lastIndex == |h.campaigns[(req.cand, req.term)]|
             && req.lastTerm == LastTerm(h.campaigns[(req.cand, req.term)])
    ensures C.Inv(CastVoteIf(h, n, s, req))
    ensures Extends(h, CastVoteIf(h, n, s, req), now) && ActsFor(h, CastVoteIf(h, n, s, req), n)
  {
    if Votes(s, req) {
      UpToDateReads(h.logs[n], h.campaigns[(req.cand, req.term)], s, req);
      C.CastVoteKeeps(h, n, req.cand);
      CastVoteGrows(h, n, req.cand, now);
    } else {
      ExtendsRefl(h, n, now);
    }
  }

  lemma CastVoteNode(h: C.History, w: Machine, now: nat, others: seq<NodeId>, n: NodeId, s: Node, req: VoteReq)
    requires NodeOk(h, w, now, others, n, s) && s.term == req.term
    ensures NodeOk(CastVoteIf(h, n, s, req), w, now, others, n, HandleRequestVote(s, req).0)
    ensures MsgOk(CastVoteIf(h, n, s, req), w, VoteReply(n, req, HandleRequestVote(s, req).1))
    ensures HandleRequestVote(s, req).2 == {}
  {
    if Votes(s, req) {
      VoteNode(h, w, now, others, n, s, req.cand);
    }
  }

  /** A request of a later term is handled as by a node already in that term. */
  lemma VoteAfterStepDown(s: Node, req: VoteReq)
    requires req.term > s.term
    ensures var s1 := BecomeFollower(s, req.term, NO_NODE).0;
            && s1.term == req.term
            && HandleRequestVote(s, req).0 == HandleRequestVote(s1, req).0
            && HandleRequestVote(s, req).1 == HandleRequestVote(s1, req).1
            && HandleRequestVote(s, req).2 == BecomeFollower(s, req.term, NO_NODE).1
  {
    StepDownFrame(s, req.term, NO_NODE);
  }

  // ------------------------------------------------------------------
  // Campaigns
  // ------------------------------------------------------------------

  lemma CampaignFresh(h: C.History, n: NodeId)
    requires C.CampaignsOk(h.term, h.campaigns) && C.LeadersGrown(h.elections, h.leaderLog, h.campaigns)
    ensures (n, C.TermOf(h.term, n) + 1) !in h.campaigns
    ensures C.TermOf(h.term, n) + 1 in h.elections ==> h.elections[C.TermOf(h.term, n) + 1].leader != n
  {
  }

  lemma CampaignStepHistory(h: C.History, n: NodeId, now: nat)
    requires C.Inv(h) && n in h.peers
    ensures C.Inv(C.Campaign(h, n))
    ensures Extends(h, C.Campaign(h, n), now) && ActsFor(h, C.Campaign(h, n), n)
  {
    CampaignFresh(h, n);
    C.CampaignKeeps(h, n);
    CampaignGrows(h, n, now);
  }

  lemma CampaignStepNode(h: C.History, w: Machine, now: nat, cfg: Config, n: NodeId, s: Node)
    requires NodeOk(h, w, now, cfg.others, n, s) && cfg.id == n && s.role != Leader
    requires C.CampaignsOk(h.term, h.campaigns) && C.LeadersGrown(h.elections, h.leaderLog, h.campaigns)
    ensures NodeOk(C.Campaign(h, n), w, now + 1, cfg.others, n, StartElection(cfg, s).0)
    ensures MsgOk(C.Campaign(h, n), w, VoteMsg(StartElection(cfg, s).1))
  {
    CampaignFresh(h, n);
    CompactsReads(h.logs[n], s.log);
    CommittedWeaken(h.leaderLog, h.commits, h.logs[n], s.commitIndex, s.term, h.logs[n], s.commitIndex, s.term + 1);
  }
}
