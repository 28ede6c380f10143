/** Every step of the group keeps the invariant, for a history that grows. */
module Steps {
  import opened Types
  import opened Quorum
  import opened LogSpec
  import opened DiskSpec
  import opened CommitRule
  import opened Replica
  import opened Cluster
  import opened Link
  import opened Frames
  import opened Preserve
  import opened NodeElection
  import opened NodeLeader
  import opened NodeFollower
  import opened NodeApplier
  import opened Reads
  import C = Consensus

  /** The group after node `n` acted with effect `e`. */
  function Acted(s: Group, n: NodeId, e: Effect): Group {
    s.(now := s.now + 1, nodes := s.nodes[n := e.node], net := s.net + e.sent, answered := s.answered + e.answers)
  }

  /** The node, the messages and the answers of an effect are justified. */
  ghost predicate EffectOk(s: Group, h: C.History, n: NodeId, e: Effect) {
    && NodeOk(h, s.machine, s.now + 1, Others(s.peers, n), n, e.node)
    && (forall m :: m in e.sent ==> MsgOk(h, s.machine, m) && SentAt(m) <= s.now)
    && (forall a :: a in e.answers ==> AnswerOk(h, s.machine, a))
  }

  /** A leader of the commit's term has that commit index. */
  ghost predicate Led(s: Group, c: C.Commit) {
    exists n :: n in s.nodes && s.nodes[n].role == Leader && s.nodes[n].term == c.term
        && c.len <= s.nodes[n].commitIndex
  }

  /** What is newly committed has been committed by a leader that still leads. */
  ghost predicate CommitsLed(h: C.History, h': C.History, s: Group) {
    forall c :: c in h'.commits && c !in h.commits ==> Led(s, c)
  }

  lemma ActedLinked(s: Group, h: C.History, h': C.History, n: NodeId, e: Effect)
    requires Linked(s, h) && n in s.nodes
    requires Extends(h, h', s.now) && ActsFor(h, h', n) && EffectOk(s, h', n, e)
    ensures Linked(Acted(s, n, e), h')
  {
    hide Linked, Extends, ActsFor, NodeOk, MsgOk, AnswerOk;
    var s' := Acted(s, n, e);
    assert SameGroup(s, s', n);
    assert NewOk(s, s', h');
    Preserves(s, h, s', h', n);
  }

  lemma StepDownCommits(h: C.History, n: NodeId, t: nat)
    ensures StepDown(h, n, t).commits == h.commits
  {
  }

  lemma BallotCommits(h: C.History, n: NodeId, s: Node, req: VoteReq)
    ensures C.Campaign(h, n).commits == h.commits == CastVoteIf(h, n, s, req).commits
  {
    hide LogUpToDate;
  }

  lemma ExtendCommits(h: C.History, n: NodeId, es: seq<Entry>)
    ensures C.Extend(h, n, es).commits == h.commits
  {
  }

  lemma WinCommits(h: C.History, n: NodeId, voters: set<NodeId>, now: nat)
    ensures WinHistory(h, n, voters, now).commits == h.commits
  {
  }

  lemma AcceptCommits(h: C.History, n: NodeId, len: nat, s: Node, req: AppendReq)
    ensures C.Accept(h, n, len).commits == h.commits == AppendHistory(h, n, s, req).commits
  {
    hide C.Merge, AppendSameTerm;
  }

  /** The rule commits at the leader that applies it. */
  lemma RuleLed(h: C.History, h1: C.History, s': Group, n: NodeId, cfg: Config, node: Node, now: nat)
    requires h1.commits == h.commits && n in s'.nodes && s'.nodes[n].role == Leader && s'.nodes[n].term == node.term
    requires s'.nodes[n].commitIndex == AdvanceCommit(cfg, node).commitIndex
    ensures CommitsLed(h, CommitHistory(h1, cfg, node, now), s')
  {
    hide CommitCandidate;
  }

  lemma AdvanceTerm(cfg: Config, s: Node)
    ensures AdvanceCommit(cfg, s) == s.(commitIndex := AdvanceCommit(cfg, s).commitIndex)
  {
  }

  lemma NodeAt(s: Group, h: C.History, n: NodeId)
    requires Linked(s, h) && n in s.nodes
    ensures NodeOk(h, s.machine, s.now, Others(s.peers, n), n, s.nodes[n])
    ensures n in h.peers && n in s.peers && Distinct(s.peers) && h.peers == PeerSet(s.peers) && ClockOk(h, s.now)
  {
    hide NodeOk;
  }

  lemma ApplierEffect(s: Group, n: NodeId, a: ApplierStep)
    requires Enabled(s, Applier(n, a))
    ensures ApplierEnabled(s.nodes[n], a)
    ensures var e, r := EffectOf(s, Applier(n, a)), ApplierDo(Cfg(s, n), s.nodes[n], a);
            e.node == r.0 && e.answers == r.1
  {
    hide ApplierDo, ApplierEnabled;
  }

  lemma SnapshotEffect(s: Group, n: NodeId, m: Msg)
    requires Enabled(s, AnswerSnapshot(n, m))
    ensures m.SnapMsg? && EffectOf(s, AnswerSnapshot(n, m)).node == HandleInstallSnapshot(s.nodes[n], m.install).0
  {
    hide HandleInstallSnapshot;
  }

  lemma MsgAt(s: Group, h: C.History, m: Msg)
    requires Linked(s, h) && m in s.net
    ensures MsgOk(h, s.machine, m) && SentAt(m) < s.now
  {
    hide NodeOk, MsgOk;
  }

  /** A node step that changes nothing the history knows of. */
  lemma PlainStep(s: Group, h: C.History, n: NodeId, e: Effect)
    requires Linked(s, h) && n in s.nodes
    requires NodeOk(h, s.machine, s.now, Others(s.peers, n), n, e.node)
    requires forall m :: m in e.sent ==> MsgOk(h, s.machine, m) && SentAt(m) <= s.now
    requires forall a :: a in e.answers ==> AnswerOk(h, s.machine, a)
    ensures Linked(Acted(s, n, e), h)
  {
    hide Linked, NodeOk, MsgOk, AnswerOk;
    NodeLater(h, s.machine, s.now, Others(s.peers, n), n, e.node);
    ExtendsRefl(h, n, s.now);
    ActedLinked(s, h, h, n, e);
  }

  lemma FailedAnswers(h: C.History, w: Machine, ans: set<Answer>)
    requires forall a :: a in ans ==> a.outcome.Failed?
    ensures forall a :: a in ans ==> AnswerOk(h, w, a)
  {
  }

  // ------------------------------------------------------------------
  // Steps without a consensus action
  // ------------------------------------------------------------------

  lemma CrashStep(s: Group, h: C.History, n: NodeId)
    requires Linked(s, h) && Enabled(s, Crash(n))
    ensures Linked(Do(s, Crash(n)), h)
  {
    hide Linked, NodeOk;
    NodeAt(s, h, n);
    BootNode(h, s.machine, s.now, Others(s.peers, n), n, s.nodes[n]);
    PlainStep(s, h, n, Effect(Boot(s.machine, s.nodes[n].disk), {}, {}));
    OffRecord(Acted(s, n, Quietly(Boot(s.machine, s.nodes[n].disk))), h, Without(s.intents, n), s.proposed);
  }

  /** Losing intents and taking in proposals is nothing the history knows of. */
  lemma OffRecord(s: Group, h: C.History, intents: set<Intent>, proposed: map<nat, Command>)
    requires Linked(s, h) && intents <= s.intents
    ensures Linked(s.(intents := intents, proposed := proposed), h)
  {
    hide NodeOk, MsgOk, AnswerOk, ReadOk, PreparedOk, IntentOk;
  }

  lemma ApplierStepKeeps(s: Group, h: C.History, n: NodeId, a: ApplierStep)
    requires Linked(s, h) && Enabled(s, Applier(n, a))
    requires C.LogsOk(h.leaderLog, h.logs) && C.CommitsOk(h.peers, h.leaderLog, h.acks, h.commits)
    ensures Linked(Do(s, Applier(n, a)), h)
  {
    hide Linked, NodeOk, AnswerOk, ApplierDo, C.CommitsOk, C.Good;
    NodeAt(s, h, n);
    assert n in h.logs by { NodeKnown(h, s.machine, s.now, Others(s.peers, n), n, s.nodes[n]); }
    ApplierNode(h, s.machine, s.now, Cfg(s, n), n, s.nodes[n], a);
    ApplierAnswers(h, s.machine, s.now, Cfg(s, n), n, s.nodes[n], a);
    var r := ApplierDo(Cfg(s, n), s.nodes[n], a);
    PlainStep(s, h, n, Effect(r.0, {}, r.1));
  }

  lemma TransferNode(h: C.History, w: Machine, now: nat, others: seq<NodeId>, n: NodeId, s: Node, target: NodeId)
    requires NodeOk(h, w, now, others, n, s)
    ensures NodeOk(h, w, now, others, n, SetTransfer(s, target))
  {
    if s.role == Leader {
      forall p | p in others
        ensures PeerOk(h, now, SetTransfer(s, target), |h.logs[n]|, p)
      {
        assert PeerOk(h, now, s, |h.logs[n]|, p);
      }
    }
  }

  lemma BeginTransferStep(s: Group, h: C.History, n: NodeId, target: NodeId)
    requires Linked(s, h) && Enabled(s, BeginTransfer(n, target))
    ensures Linked(Do(s, BeginTransfer(n, target)), h)
  {
    hide Linked, NodeOk, SetTransfer;
    NodeAt(s, h, n);
    TransferNode(h, s.machine, s.now, Others(s.peers, n), n, s.nodes[n], target);
    PlainStep(s, h, n, Effect(SetTransfer(s.nodes[n], target), {}, {}));
  }

  lemma EndTransferStep(s: Group, h: C.History, n: NodeId)
    requires Linked(s, h) && Enabled(s, EndTransfer(n))
    ensures Linked(Do(s, EndTransfer(n)), h)
  {
    hide Linked, NodeOk, SetTransfer;
    NodeAt(s, h, n);
    TransferNode(h, s.machine, s.now, Others(s.peers, n), n, s.nodes[n], NO_NODE);
    PlainStep(s, h, n, Effect(SetTransfer(s.nodes[n], NO_NODE), {}, {}));
  }

  lemma SendTimeoutNowStep(s: Group, h: C.History, n: NodeId, target: NodeId)
    requires Linked(s, h) && Enabled(s, SendTimeoutNow(n, target))
    ensures Linked(Do(s, SendTimeoutNow(n, target)), h)
  {
    hide Linked, NodeOk;
    NodeAt(s, h, n);
    PlainStep(s, h, n, Effect(s.nodes[n], {TimeoutNow(target, s.nodes[n].term)}, {}));
  }

  lemma AskPreVoteStep(s: Group, h: C.History, n: NodeId)
    requires Linked(s, h) && Enabled(s, AskPreVote(n))
    ensures Linked(Do(s, AskPreVote(n)), h)
  {
    hide Linked, NodeOk;
    NodeAt(s, h, n);
    PlainStep(s, h, n, EffectOf(s, AskPreVote(n)));
  }

  lemma AnswerPreVoteStep(s: Group, h: C.History, n: NodeId, m: Msg, recent: bool)
    requires Linked(s, h) && Enabled(s, AnswerPreVote(n, m, recent))
    ensures Linked(Do(s, AnswerPreVote(n, m, recent)), h)
  {
    hide Linked, NodeOk;
    NodeAt(s, h, n);
    PlainStep(s, h, n, EffectOf(s, AnswerPreVote(n, m, recent)));
  }

  // ------------------------------------------------------------------
  // Elections
  // ------------------------------------------------------------------

  lemma CampaignStep(s: Group, h: C.History, step: Step) returns (h': C.History)
    requires C.Inv(h) && Linked(s, h) && Enabled(s, step) && (step.Campaign? || step.CampaignNow?)
    ensures C.Inv(h') && Linked(Do(s, step), h') && Extends(h, h', s.now)
    ensures h'.commits == h.commits
  {
    hide Linked, C.Inv, Extends, StartElection, C.Campaign;
    var n := step.n;
    CampaignLinked(s, h, n);
    h' := C.Campaign(h, n);
    BallotCommits(h, n, s.nodes[n], VoteReq(0, n, 0, 0));
    var r := StartElection(Cfg(s, n), s.nodes[n]);
    assert Do(s, step) == Acted(s, n, Effect(r.0, {VoteMsg(r.1)}, {}));
  }

  lemma CampaignLinked(s: Group, h: C.History, n: NodeId)
    requires C.Inv(h) && Linked(s, h) && n in s.nodes && s.nodes[n].role != Leader
    ensures var r := StartElection(Cfg(s, n), s.nodes[n]);
            Linked(Acted(s, n, Effect(r.0, {VoteMsg(r.1)}, {})), C.Campaign(h, n))
    ensures C.Inv(C.Campaign(h, n)) && Extends(h, C.Campaign(h, n), s.now)
  {
    hide Linked, NodeOk, MsgOk, StartElection, C.Campaign, Extends, ActsFor, Acted;
    hide C.Inv, C.CampaignsOk, C.LeadersGrown, C.GrantsOk, C.Complete, C.Retained, C.GrantsComplete, C.CommitsOk,
         C.AcksOk;
    var r := StartElection(Cfg(s, n), s.nodes[n]);
    NodeAt(s, h, n);
    C.InvParts(h);
    CampaignStepHistory(h, n, s.now);
    CampaignStepNode(h, s.machine, s.now, Cfg(s, n), n, s.nodes[n]);
    ActedLinked(s, h, C.Campaign(h, n), n, Effect(r.0, {VoteMsg(r.1)}, {}));
  }

  lemma StepDownLinked(s: Group, h: C.History, n: NodeId, t: nat, leader: NodeId)
    requires C.Inv(h) && Linked(s, h) && n in s.nodes && t >= s.nodes[n].term
    ensures var r := BecomeFollower(s.nodes[n], t, leader);
            Linked(Acted(s, n, Effect(r.0, {}, r.1)), StepDown(h, n, t))
    ensures C.Inv(StepDown(h, n, t)) && Extends(h, StepDown(h, n, t), s.now)
  {
    hide Linked, NodeOk, C.Inv, BecomeFollower, StepDown, Extends, ActsFor, Acted, AnswerOk;
    var r := BecomeFollower(s.nodes[n], t, leader);
    var h' := StepDown(h, n, t);
    NodeAt(s, h, n);
    StepDownHistory(h, n, t, s.now);
    StepDownNode(h, s.machine, s.now, Others(s.peers, n), n, s.nodes[n], t, leader);
    NodeLater(h', s.machine, s.now, Others(s.peers, n), n, r.0);
    FailedAnswers(h', s.machine, r.1);
    ActedLinked(s, h, h', n, Effect(r.0, {}, r.1));
  }

  lemma LearnTermStep(s: Group, h: C.History, n: NodeId, m: Msg) returns (h': C.History)
    requires C.Inv(h) && Linked(s, h) && Enabled(s, LearnTerm(n, m))
    ensures C.Inv(h') && Linked(Do(s, LearnTerm(n, m)), h') && Extends(h, h', s.now)
    ensures h'.commits == h.commits
  {
    hide Linked, C.Inv, Extends, BecomeFollower, StepDown;
    h' := StepDown(h, n, m.voteResp.term);
    StepDownCommits(h, n, m.voteResp.term);
    StepDownLinked(s, h, n, m.voteResp.term, NO_NODE);
  }

  lemma CheckQuorumStep(s: Group, h: C.History, n: NodeId, since: nat) returns (h': C.History)
    requires C.Inv(h) && Linked(s, h) && Enabled(s, CheckQuorum(n, since))
    ensures C.Inv(h') && Linked(Do(s, CheckQuorum(n, since)), h') && Extends(h, h', s.now)
    ensures h'.commits == h.commits
  {
    hide Linked, C.Inv, Extends, BecomeFollower, StepDown;
    h' := StepDown(h, n, s.nodes[n].term);
    StepDownCommits(h, n, s.nodes[n].term);
    StepDownLinked(s, h, n, s.nodes[n].term, NO_NODE);
  }

  // Votes: first adopt a later term, then answer within the term.

  /** What is known of the acting node between two parts of one step. */
  ghost predicate Midway(s: Group, h: C.History, h1: C.History, n: NodeId, node: Node) {
    && Extends(h, h1, s.now)
    && ActsFor(h, h1, n)
    && n in h1.peers
    && NodeOk(h1, s.machine, s.now, Others(s.peers, n), n, node)
  }

  lemma StepDownMidway(s: Group, h: C.History, n: NodeId, t: nat, leader: NodeId)
    requires C.Inv(h) && Linked(s, h) && n in s.nodes && t >= s.nodes[n].term
    ensures C.Inv(StepDown(h, n, t)) && Midway(s, h, StepDown(h, n, t), n, BecomeFollower(s.nodes[n], t, leader).0)
    ensures forall a :: a in BecomeFollower(s.nodes[n], t, leader).1 ==> a.outcome.Failed?
    ensures var s1 := BecomeFollower(s.nodes[n], t, leader).0;
            s1.term == t && s1.role == Follower && s1.leaderId == leader
  {
    hide Linked, NodeOk, C.Inv, BecomeFollower, ActsFor;
    NodeAt(s, h, n);
    StepDownHistory(h, n, t, s.now);
    StepDownNode(h, s.machine, s.now, Others(s.peers, n), n, s.nodes[n], t, leader);
    StepDownFrame(s.nodes[n], t, leader);
  }

  lemma MidwayExtends(s: Group, h: C.History, h1: C.History, n: NodeId, node: Node)
    requires Midway(s, h, h1, n, node)
    ensures Extends(h, h1, s.now)
  {
  }

  lemma StayMidway(s: Group, h: C.History, n: NodeId)
    requires Linked(s, h) && n in s.nodes
    ensures Midway(s, h, h, n, s.nodes[n])
  {
    hide Linked, NodeOk, Extends, ActsFor;
    NodeAt(s, h, n);
    ExtendsRefl(h, n, s.now);
  }

  lemma CampaignGrowsOn(h: C.History, h1: C.History, now: nat, req: VoteReq)
    requires Extends(h, h1, now) && (req.cand, req.term) in h.campaigns
    ensures (req.cand, req.term) in h1.campaigns
            && h1.campaigns[(req.cand, req.term)] == h.campaigns[(req.cand, req.term)]
  {
  }

  lemma VoteMidway(s: Group, h: C.History, h1: C.History, n: NodeId, node: Node, req: VoteReq, ans: set<Answer>)
    requires C.Inv(h1) && Linked(s, h) && n in s.nodes && Midway(s, h, h1, n, node)
    requires MsgOk(h, s.machine, VoteMsg(req)) && node.term == req.term
    requires forall a :: a in ans ==> a.outcome.Failed?
    ensures var r := HandleRequestVote(node, req);
            Linked(Acted(s, n, Effect(r.0, {VoteReply(n, req, r.1)}, ans)), CastVoteIf(h1, n, node, req))
    ensures C.Inv(CastVoteIf(h1, n, node, req)) && Extends(h, CastVoteIf(h1, n, node, req), s.now)
  {
    hide Linked, NodeOk, C.Inv, HandleRequestVote, CastVoteIf, Extends, ActsFor, Acted, AnswerOk;
    var r := HandleRequestVote(node, req);
    var h' := CastVoteIf(h1, n, node, req);
    NodeKnown(h1, s.machine, s.now, Others(s.peers, n), n, node);
    CampaignGrowsOn(h, h1, s.now, req);
    CastVoteHistory(h1, n, node, req, s.now);
    CastVoteNode(h1, s.machine, s.now, Others(s.peers, n), n, node, req);
    ExtendsTrans(h, h1, h', s.now);
    ActsForTrans(h, h1, h', n, s.now);
    NodeLater(h', s.machine, s.now, Others(s.peers, n), n, r.0);
    FailedAnswers(h', s.machine, ans);
    ActedLinked(s, h, h', n, Effect(r.0, {VoteReply(n, req, r.1)}, ans));
  }

  lemma AnswerVoteStep(s: Group, h: C.History, n: NodeId, m: Msg) returns (h': C.History)
    requires C.Inv(h) && Linked(s, h) && Enabled(s, AnswerVote(n, m))
    ensures C.Inv(h') && Linked(Do(s, AnswerVote(n, m)), h') && Extends(h, h', s.now)
    ensures h'.commits == h.commits
  {
    hide Linked, C.Inv, Extends, StepDown, CastVoteIf, HandleRequestVote, BecomeFollower, Midway, NodeOk;
    var node, req := s.nodes[n], m.vote;
    var r := HandleRequestVote(node, req);
    MsgAt(s, h, m);
    assert Do(s, AnswerVote(n, m)) == Acted(s, n, Effect(r.0, {VoteReply(n, req, r.1)}, r.2));
    if req.term < node.term {
      h' := h;
      VoteStale(node, req);
      NodeAt(s, h, n);
      ExtendsRefl(h, n, s.now);
      PlainStep(s, h, n, Effect(r.0, {VoteReply(n, req, r.1)}, r.2));
    } else if req.term == node.term {
      h' := CastVoteIf(h, n, node, req);
      BallotCommits(h, n, node, req);
      VoteInTerm(node, req);
      StayMidway(s, h, n);
      VoteMidway(s, h, h, n, node, req, {});
    } else {
      var h1 := StepDown(h, n, req.term);
      var f := BecomeFollower(node, req.term, NO_NODE);
      h' := CastVoteIf(h1, n, f.0, req);
      StepDownCommits(h, n, req.term);
      BallotCommits(h1, n, f.0, req);
      StepDownMidway(s, h, n, req.term, NO_NODE);
      VoteAfterStepDown(node, req);
      VoteMidway(s, h, h1, n, f.0, req, f.1);
    }
  }

  lemma VoteStale(s: Node, req: VoteReq)
    requires req.term < s.term
    ensures HandleRequestVote(s, req) == (s, VoteResp(s.term, false), {})
  {
  }

  lemma VoteInTerm(s: Node, req: VoteReq)
    requires req.term == s.term
    ensures HandleRequestVote(s, req).2 == {}
  {
  }

  // ------------------------------------------------------------------
  // Leader steps: change the leader, then look at the commit index
  // ------------------------------------------------------------------

  /** The acting node is a leader justified by `h1`, at the end of the step. */
  ghost predicate Leading(s: Group, h: C.History, h1: C.History, n: NodeId, node: Node) {
    && Extends(h, h1, s.now)
    && ActsFor(h, h1, n)
    && n in s.peers && Distinct(s.peers) && h1.peers == PeerSet(s.peers)
    && node.role == Leader
    && NodeOk(h1, s.machine, s.now + 1, Others(s.peers, n), n, node)
  }

  lemma LeadingHere(s: Group, h: C.History, h1: C.History, n: NodeId, node: Node)
    requires C.Inv(h1) && Leading(s, h, h1, n, node)
    ensures CommitJustified(h1, Cfg(s, n), node, s.now)
    ensures node.term in h1.elections && h1.elections[node.term].leader == n
  {
    hide NodeOk, C.Inv, CommitJustified, Extends, ActsFor;
    NodeKnown(h1, s.machine, s.now + 1, Others(s.peers, n), n, node);
    assert node.term > 0 by {
      C.CommitParts(h1);
      C.LeaderTerms(h1, node.term);
    }
    CommitIsJustified(h1, s.now, s.peers, Cfg(s, n), n, node);
  }

  lemma AdvanceLinked(s: Group, h: C.History, h1: C.History, n: NodeId, node: Node)
    requires C.Inv(h1) && Linked(s, h) && n in s.nodes && Leading(s, h, h1, n, node)
    ensures Linked(Acted(s, n, Effect(AdvanceCommit(Cfg(s, n), node), {}, {})),
              CommitHistory(h1, Cfg(s, n), node, s.now))
    ensures C.Inv(CommitHistory(h1, Cfg(s, n), node, s.now))
            && Extends(h, CommitHistory(h1, Cfg(s, n), node, s.now), s.now)
  {
    hide Linked, NodeOk, C.Inv, CommitHistory, CommitJustified, AdvanceCommit, Extends, ActsFor, Acted;
    var h' := CommitHistory(h1, Cfg(s, n), node, s.now);
    LeadingHere(s, h, h1, n, node);
    AdvanceHistory(h1, s.now, Cfg(s, n), n, node);
    AdvanceNode(h1, s.machine, s.now, Cfg(s, n), n, node);
    ExtendsTrans(h, h1, h', s.now);
    ActsForTrans(h, h1, h', n, s.now);
    ActedLinked(s, h, h', n, Effect(AdvanceCommit(Cfg(s, n), node), {}, {}));
  }

  lemma LeadingLinked(s: Group, h: C.History, h1: C.History, n: NodeId, node: Node)
    requires Linked(s, h) && n in s.nodes && Leading(s, h, h1, n, node)
    ensures Linked(Acted(s, n, Effect(node, {}, {})), h1)
  {
    hide Linked, NodeOk, Extends, ActsFor, Acted;
    ActedLinked(s, h, h1, n, Effect(node, {}, {}));
  }

  // Winning an election

  lemma VotesCounted(s: Group, h: C.History, n: NodeId, t: nat, voters: set<NodeId>)
    requires Linked(s, h)
    requires forall v :: v in voters && v != n ==> VoteGranted(s.net, v, n, t)
    requires C.Grant(n, t, n) in h.grants
    ensures forall v :: v in voters ==> C.Grant(v, t, n) in h.grants
  {
    hide Linked, NodeOk;
    forall v | v in voters && v != n
      ensures C.Grant(v, t, n) in h.grants
    {
      var m :| m in s.net && m.VoteReply? && m.from == v && m.vote.cand == n && m.vote.term == t && m.voteResp.granted;
      MsgAt(s, h, m);
    }
  }

  lemma WinLeading(s: Group, h: C.History, n: NodeId, voters: set<NodeId>)
    requires C.Inv(h) && Linked(s, h) && Enabled(s, WinElection(n, voters))
    ensures C.Inv(WinHistory(h, n, voters, s.now))
    ensures Leading(s, h, WinHistory(h, n, voters, s.now), n, NewLeader(Cfg(s, n), s.nodes[n], s.now))
  {
    hide Linked, NodeOk, CoreOk, LeaderOk, DiskOk, WaitersOk, WinHistory, NewLeader, Extends, ActsFor, IsQuorum,
         VoteGranted;
    hide C.Inv, C.MayLead, C.CommitsOk, C.GrantsOk, C.ElectionsOk, C.LeadersGrown, C.CampaignsOk, C.LogsOk, C.AcksOk;
    var node := s.nodes[n];
    NodeAt(s, h, n);
    NodeKnown(h, s.machine, s.now, Others(s.peers, n), n, node);
    VotesCounted(s, h, n, node.term, voters);
    C.InvParts(h);
    GrownKeys(h);
    WinIsFirst(h, n, node, voters);
    WinHistoryOk(h, n, voters, s.now);
    WinNode(h, s.machine, s.now, Cfg(s, n), n, node, voters);
    ExtendsPeers(h, WinHistory(h, n, voters, s.now), s.now);
    NewLeaderRole(Cfg(s, n), node, s.now);
  }

  lemma GrownKeys(h: C.History)
    requires C.LeadersGrown(h.elections, h.leaderLog, h.campaigns)
    ensures h.elections.Keys == h.leaderLog.Keys
  {
  }

  lemma NewLeaderRole(cfg: Config, s: Node, now: nat)
    ensures NewLeader(cfg, s, now).role == Leader
  {
  }

  lemma WinElectionStep(s: Group, h: C.History, n: NodeId, voters: set<NodeId>) returns (h': C.History)
    requires C.Inv(h) && Linked(s, h) && Enabled(s, WinElection(n, voters))
    ensures C.Inv(h') && Linked(Do(s, WinElection(n, voters)), h') && Extends(h, h', s.now)
    ensures CommitsLed(h, h', Do(s, WinElection(n, voters)))
  {
    hide Linked, C.Inv, Extends, AdvanceCommit, CommitHistory, WinHistory, Leading, GrowLog, IsQuorum, VoteGranted;
    var h1 := WinHistory(h, n, voters, s.now);
    var node := NewLeader(Cfg(s, n), s.nodes[n], s.now);
    WinLeading(s, h, n, voters);
    AdvanceLinked(s, h, h1, n, node);
    h' := CommitHistory(h1, Cfg(s, n), node, s.now);
    assert BecomeLeader(Cfg(s, n), s.nodes[n], s.now) == AdvanceCommit(Cfg(s, n), node);
    WinCommits(h, n, voters, s.now);
    NewLeaderRole(Cfg(s, n), s.nodes[n], s.now);
    AdvanceTerm(Cfg(s, n), node);
    RuleLed(h, h1, Do(s, WinElection(n, voters)), n, Cfg(s, n), node, s.now);
  }

  // Proposals

  lemma ProposeLeading(s: Group, h: C.History, n: NodeId, batch: seq<(nat, Command)>)
    requires C.Inv(h) && Linked(s, h) && n in s.nodes && s.nodes[n].role == Leader
    ensures var es := ProposalEntries(LastIndex(s.nodes[n].log), s.nodes[n].term, batch);
            C.Inv(C.Extend(h, n, es)) && Leading(s, h, C.Extend(h, n, es), n, Proposed(s.nodes[n], batch))
  {
    hide Linked, NodeOk, C.Inv, C.Extend, Extends, ActsFor, Proposed;
    var node := s.nodes[n];
    var es := ProposalEntries(LastIndex(node.log), node.term, batch);
    NodeAt(s, h, n);
    NodeKnown(h, s.machine, s.now, Others(s.peers, n), n, node);
    CompactsReads(h.logs[n], node.log);
    assert C.MayExtend(h, n, es);
    ElectThenExtend(h, n, es, s.now);
    ProposeNode(h, s.machine, s.now, Cfg(s, n), n, node, batch);
    ProposedRole(node, batch);
    ExtendsPeers(h, C.Extend(h, n, es), s.now);
  }

  lemma ProposedRole(s: Node, batch: seq<(nat, Command)>)
    ensures Proposed(s, batch).role == s.role
  {
  }

  lemma ExtendsPeers(h: C.History, h': C.History, now: nat)
    requires Extends(h, h', now)
    ensures h'.peers == h.peers
  {
  }

  lemma ProposeStep(s: Group, h: C.History, n: NodeId, batch: seq<(nat, Command)>) returns (h': C.History)
    requires C.Inv(h) && Linked(s, h) && Enabled(s, Propose(n, batch))
    ensures C.Inv(h') && Linked(Do(s, Propose(n, batch)), h') && Extends(h, h', s.now)
    ensures CommitsLed(h, h', Do(s, Propose(n, batch)))
  {
    hide Linked, C.Inv, Extends, AdvanceCommit, CommitHistory, Leading, GrowLog, AddWaiters, ProposalEntries,
         C.Extend, NodeOk, AnswerOk, Refuse;
    var node := s.nodes[n];
    if node.role != Leader || node.lead.transferTarget != NO_NODE {
      h' := h;
      NodeAt(s, h, n);
      ExtendsRefl(h, n, s.now);
      RefuseFails(batch);
      FailedAnswers(h, s.machine, Refuse(batch));
      PlainStep(s, h, n, Effect(node, {}, Refuse(batch)));
      OffRecord(Acted(s, n, Effect(node, {}, Refuse(batch))), h, s.intents, Do(s, Propose(n, batch)).proposed);
    } else {
      var es := ProposalEntries(LastIndex(node.log), node.term, batch);
      var h1 := C.Extend(h, n, es);
      var node1 := Proposed(node, batch);
      GrowFrame(node, es);
      ProposeLeading(s, h, n, batch);
      AdvanceLinked(s, h, h1, n, node1);
      h' := CommitHistory(h1, Cfg(s, n), node1, s.now);
      ExtendCommits(h, n, es);
      ProposedRole(node, batch);
      AdvanceTerm(Cfg(s, n), node1);
      RuleLed(h, h1, Do(s, Propose(n, batch)), n, Cfg(s, n), node1, s.now);
      OffRecord(Acted(s, n, Effect(AdvanceCommit(Cfg(s, n), node1), {}, {})), h', s.intents,
            Do(s, Propose(n, batch)).proposed);
    }
  }

  /** A crash in the middle of saving a batch leaves the leader's log with the
      first of its entries. */
  lemma CutProposeStep(s: Group, h: C.History, n: NodeId, batch: seq<(nat, Command)>, k: nat) returns (h': C.History)
    requires C.Inv(h) && Linked(s, h) && Enabled(s, CutPropose(n, batch, k))
    ensures C.Inv(h') && Linked(Do(s, CutPropose(n, batch, k)), h') && Extends(h, h', s.now)
    ensures h'.commits == h.commits
  {
    hide Linked, C.Inv, Extends, ActsFor, ProposalEntries, C.Extend, NodeOk, Proposed, Boot, Save, Submitted;
    var node := s.nodes[n];
    var es := ProposalEntries(LastIndex(node.log), node.term, batch);
    var cut := ProposalEntries(LastIndex(node.log), node.term, batch[..k]);
    CutEntries(LastIndex(node.log), node.term, batch, k);
    ProposeLeading(s, h, n, batch[..k]);
    h' := C.Extend(h, n, cut);
    ExtendCommits(h, n, cut);
    ProposedDisk(node, batch[..k]);
    CutLinked(s, h, h', n, Proposed(node, batch[..k]), s.now + 1);
    OffRecord(Acted(s, n, Quietly(Boot(s.machine, Save(node.disk, None, cut)))), h', Without(s.intents, n),
          s.proposed + Submitted(batch));
  }

  lemma CutEntries(last: nat, term: nat, batch: seq<(nat, Command)>, k: nat)
    requires k <= |batch|
    ensures |ProposalEntries(last, term, batch)| == |batch|
    ensures ProposalEntries(last, term, batch)[..k] == ProposalEntries(last, term, batch[..k])
  {
  }

  lemma ProposedDisk(s: Node, batch: seq<(nat, Command)>)
    ensures Proposed(s, batch).disk == Save(s.disk, None, ProposalEntries(LastIndex(s.log), s.term, batch))
  {
    hide Save, AddWaiters, ProposalEntries;
  }

  /** A node that crashes in the middle of a step restarts from what it had
      saved, which is justified like the node that saved it. */
  lemma CutLinked(s: Group, h: C.History, h': C.History, n: NodeId, node: Node, now: nat)
    requires Linked(s, h) && n in s.nodes && Extends(h, h', s.now) && ActsFor(h, h', n)
    requires NodeOk(h', s.machine, now, Others(s.peers, n), n, node) && s.now <= now <= s.now + 1
    ensures Linked(Acted(s, n, Quietly(Boot(s.machine, node.disk))), h')
  {
    hide Linked, Extends, ActsFor, NodeOk, Boot;
    var others := Others(s.peers, n);
    BootNode(h', s.machine, now, others, n, node);
    if now == s.now {
      NodeLater(h', s.machine, s.now, others, n, Boot(s.machine, node.disk));
    }
    ActedLinked(s, h, h', n, Quietly(Boot(s.machine, node.disk)));
  }

  lemma RefuseFails(batch: seq<(nat, Command)>)
    ensures forall a :: a in Refuse(batch) ==> a.outcome.Failed?
  {
  }

  // ------------------------------------------------------------------
  // Building and transmitting requests; reads
  // ------------------------------------------------------------------

  lemma PreparedOnly(s: Group, h: C.History, p: Prepared)
    requires Linked(s, h) && PreparedOk(h, s.machine, p)
    ensures Linked(s.(prepared := s.prepared + {p}), h)
  {
    hide NodeOk, MsgOk, AnswerOk, ReadOk, PreparedOk;
  }

  lemma PeerFacts(s: Group, h: C.History, n: NodeId, peer: NodeId)
    requires Linked(s, h) && peer in Others(s.peers, n)
    ensures peer != n && peer in h.peers
  {
    hide NodeOk, MsgOk;
    OthersFacts(s.peers, n);
  }

  lemma BuildAppendStep(s: Group, h: C.History, n: NodeId, peer: NodeId)
    requires Linked(s, h) && Enabled(s, BuildAppend(n, peer))
    ensures Linked(Do(s, BuildAppend(n, peer)), h)
  {
    hide Linked, NodeOk, CoreOk, LeaderOk, AppendReqOk, PrepareAppend;
    var node := s.nodes[n];
    NodeAt(s, h, n);
    NodeKnown(h, s.machine, s.now, Others(s.peers, n), n, node);
    PeerFacts(s, h, n, peer);
    BuiltAppend(h, s.now, Cfg(s, n), n, node, peer);
    PlainStep(s, h, n, Effect(node, {}, {}));
    PreparedOnly(Acted(s, n, Effect(node, {}, {})), h, PreparedAppend(peer, PrepareAppend(Cfg(s, n), node, peer)));
  }

  lemma DecideSnapshotStep(s: Group, h: C.History, n: NodeId, peer: NodeId)
    requires Linked(s, h) && Enabled(s, DecideSnapshot(n, peer))
    ensures Linked(Do(s, DecideSnapshot(n, peer)), h)
  {
    hide Linked, NodeOk, CoreOk, DiskOk, PeerOk, WaitersOk;
    var node := s.nodes[n];
    NodeAt(s, h, n);
    NodeKnown(h, s.machine, s.now, Others(s.peers, n), n, node);
    PeerFacts(s, h, n, peer);
    PlainStep(s, h, n, Quietly(node));
    IntentOnly(Acted(s, n, Quietly(node)), h, Intent(n, peer, node.term));
  }

  lemma IntentOnly(s: Group, h: C.History, it: Intent)
    requires Linked(s, h) && IntentOk(h, it)
    ensures Linked(s.(intents := s.intents + {it}), h)
  {
    hide NodeOk, MsgOk, AnswerOk, ReadOk, PreparedOk, IntentOk;
  }

  lemma IntentAt(s: Group, h: C.History, it: Intent)
    requires Linked(s, h) && it in s.intents
    ensures IntentOk(h, it)
  {
    hide NodeOk, MsgOk, AnswerOk, ReadOk, PreparedOk, IntentOk;
  }

  lemma ReadSnapshotStep(s: Group, h: C.History, it: Intent)
    requires C.Inv(h) && Linked(s, h) && Enabled(s, ReadSnapshot(it))
    ensures Linked(Do(s, ReadSnapshot(it)), h)
  {
    hide Linked, NodeOk, CoreOk, LeaderOk, CandidateOk, DiskOk, WaitersOk, SnapSentOk, IntentOk;
    hide C.Inv, C.Complete, C.CommitsOk, C.LeadersGrown, C.CampaignsOk;
    var node := s.nodes[it.node];
    NodeAt(s, h, it.node);
    NodeKnown(h, s.machine, s.now, Others(s.peers, it.node), it.node, node);
    IntentAt(s, h, it);
    C.CommitParts(h);
    SentSnapshotOk(h, s.machine, it, node);
    PlainStep(s, h, it.node, Quietly(node));
    var s1 := Acted(s, it.node, Quietly(node));
    PreparedOnly(s1, h, SentSnapshot(it, node));
    OffRecord(s1.(prepared := s.prepared + {SentSnapshot(it, node)}), h, s.intents - {it}, s.proposed);
  }

  /** A stored snapshot is one of a committed prefix. */
  lemma SentSnapshotOk(h: C.History, w: Machine, it: Intent, s: Node)
    requires C.CommitsOk(h.peers, h.leaderLog, h.acks, h.commits)
    requires CoreOk(h, it.node, s) && DiskOk(w, h.logs[it.node], s) && IntentOk(h, it) && s.disk.snap.Some?
    ensures SnapSentOk(h, w, it.peer, SnapReq(it.term, it.node, s.disk.snap.value))
  {
    hide SnapOk;
    var snap, full := s.disk.snap.value, h.logs[it.node];
    var com := full[..s.commitIndex];
    if snap.index > 0 {
      var c :| c in h.commits && c.term <= s.term && s.commitIndex <= c.len && c.term in h.leaderLog
               && Agree(full, h.leaderLog[c.term], s.commitIndex);
      assert C.CommitOk(h.peers, h.leaderLog, h.acks, c);
      SnapOkAgree(w, com, h.leaderLog[c.term], snap);
      assert CommittedSnap(h.leaderLog, h.commits, w, c.term, snap);
    } else {
      SnapOkAgree(w, com, h.leaderLog[it.term], snap);
      assert CommittedSnap(h.leaderLog, h.commits, w, it.term, snap);
    }
  }

  lemma TransmitStep(s: Group, h: C.History, p: Prepared)
    requires Linked(s, h) && Enabled(s, Transmit(p))
    ensures Linked(Do(s, Transmit(p)), h)
  {
    hide NodeOk, AnswerOk, ReadOk, AppendReqOk, SnapSentOk;
    var s' := Do(s, Transmit(p));
    assert PreparedOk(h, s.machine, p);
    forall n | n in s'.nodes
      ensures NodeOk(h, s'.machine, s'.now, Others(s'.peers, n), n, s'.nodes[n])
    {
      NodeLater(h, s.machine, s.now, Others(s.peers, n), n, s.nodes[n]);
    }
  }

  lemma ReadOnly(s: Group, h: C.History, rd: Read)
    requires Linked(s, h) && ReadOk(h, rd) && rd.start < s.now
    ensures Linked(s.(begun := s.begun + {rd}), h)
  {
    hide NodeOk, MsgOk, AnswerOk, ReadOk;
  }

  lemma BeginReadStep(s: Group, h: C.History, n: NodeId)
    requires C.Inv(h) && Linked(s, h) && Enabled(s, BeginRead(n))
    ensures Linked(Do(s, BeginRead(n)), h)
  {
    hide Linked, NodeOk, CoreOk, LeaderOk, DiskOk, WaitersOk, ClockOk, ReadOk;
    hide C.Inv, C.Complete, C.CommitsOk, C.LeadersGrown, C.CampaignsOk;
    var node := s.nodes[n];
    NodeAt(s, h, n);
    NodeKnown(h, s.machine, s.now, Others(s.peers, n), n, node);
    C.CommitParts(h);
    BegunRead(h, s.now, Others(s.peers, n), n, node);
    PlainStep(s, h, n, Effect(node, {}, {}));
    ReadOnly(Acted(s, n, Effect(node, {}, {})), h, Read(n, node.term, node.commitIndex, s.now));
  }

  lemma ConfirmOnly(s: Group, h: C.History, rd: Read)
    requires Linked(s, h) && rd in s.begun && Covers(h.commits, rd)
    ensures Linked(s.(confirmed := s.confirmed + {rd}), h)
  {
    hide NodeOk, MsgOk, AnswerOk, ReadOk, Covers;
  }

  lemma ReadAt(s: Group, h: C.History, rd: Read)
    requires Linked(s, h) && rd in s.begun
    ensures ReadOk(h, rd)
  {
    hide NodeOk, MsgOk, AnswerOk, ReadOk, Covers;
  }

  lemma ConfirmReadStep(s: Group, h: C.History, rd: Read)
    requires C.Inv(h) && Linked(s, h) && Enabled(s, ConfirmRead(rd))
    ensures Linked(Do(s, ConfirmRead(rd)), h)
  {
    hide Linked, NodeOk, CoreOk, LeaderOk, DiskOk, WaitersOk, ReadOk, Covers, HasQuorumAckSince;
    hide C.Inv, C.GrantsOk, C.ElectionsOk;
    var n := rd.node;
    var node := s.nodes[n];
    NodeAt(s, h, n);
    NodeKnown(h, s.machine, s.now, Others(s.peers, n), n, node);
    C.ElectionParts(h);
    ReadAt(s, h, rd);
    ConfirmedRead(h, s.now, s.peers, Cfg(s, n), n, node, rd);
    PlainStep(s, h, n, Effect(node, {}, {}));
    ConfirmOnly(Acted(s, n, Effect(node, {}, {})), h, rd);
  }

  // ------------------------------------------------------------------
  // Answering AppendEntries and InstallSnapshot
  // ------------------------------------------------------------------

  /** Following the sender leaves a follower in the sender's term. */
  lemma FollowMidway(s: Group, h: C.History, n: NodeId, t: nat, leader: NodeId) returns (h1: C.History)
    requires C.Inv(h) && Linked(s, h) && n in s.nodes && t >= s.nodes[n].term
    ensures var f := Follow(s.nodes[n], t, leader);
            && C.Inv(h1) && Midway(s, h, h1, n, f.0)
            && f.0.term == t && f.0.role == Follower
            && forall a :: a in f.1 ==> a.outcome.Failed?
    ensures h1.commits == h.commits
  {
    hide Linked, NodeOk, C.Inv, Midway, BecomeFollower, StepDown;
    var node := s.nodes[n];
    if t > node.term || node.role != Follower || node.leaderId != leader {
      h1 := StepDown(h, n, t);
      StepDownCommits(h, n, t);
      StepDownMidway(s, h, n, t, leader);
    } else {
      h1 := h;
      StayMidway(s, h, n);
    }
  }

  lemma AcceptHistory(h: C.History, n: NodeId, len: nat, now: nat)
    requires C.Inv(h) && C.MayAccept(h, n, len)
    ensures C.Inv(C.Accept(h, n, len))
    ensures Extends(h, C.Accept(h, n, len), now) && ActsFor(h, C.Accept(h, n, len), n)
  {
    hide C.Inv, C.Accept;
    C.AcceptKeeps(h, n, len);
    AcceptGrows(h, n, len, now);
  }

  lemma AppendMayAccept(h: C.History, w: Machine, now: nat, others: seq<NodeId>, n: NodeId, s: Node, req: AppendReq)
    requires NodeOk(h, w, now, others, n, s) && n in h.peers && s.term == req.term && AppendReqOk(h, n, req)
    ensures C.MayAccept(h, n, req.prevIndex + |req.entries|)
  {
  }

  lemma AppendedHistory(h: C.History, w: Machine, now: nat, others: seq<NodeId>, n: NodeId, s: Node, req: AppendReq)
    requires C.Inv(h) && NodeOk(h, w, now, others, n, s) && n in h.peers && s.term == req.term && AppendReqOk(h, n, req)
    ensures C.Inv(AppendHistory(h, n, s, req))
    ensures Extends(h, AppendHistory(h, n, s, req), now) && ActsFor(h, AppendHistory(h, n, s, req), n)
  {
    hide C.Inv, NodeOk, AppendReqOk, AppendSameTerm, C.Accept, C.MayAccept, Extends, ActsFor;
    AppendMayAccept(h, w, now, others, n, s, req);
    AcceptHistory(h, n, req.prevIndex + |req.entries|, now);
    ExtendsRefl(h, n, now);
  }

  lemma AppendedNode(h: C.History, w: Machine, now: nat, others: seq<NodeId>, n: NodeId, s: Node, req: AppendReq)
    requires C.Inv(h) && NodeOk(h, w, now, others, n, s) && s.role == Follower && s.term == req.term
             && AppendReqOk(h, n, req)
    ensures NodeOk(AppendHistory(h, n, s, req), w, now, others, n, AppendSameTerm(s, req).0)
  {
    hide C.Inv, NodeOk, AppendSameTerm, C.Accept, C.LeaderLogsOk, C.LogsOk, C.Complete, C.CommitsOk, C.CampaignsOk,
         C.LeadersGrown, C.AcksOk;
    hide Committed, DiskOk, WaitersOk, AppendedAs, Matching;
    var lead := h.leaderLog[req.term];
    NodeKnown(h, w, now, others, n, s);
    C.CommitParts(h);
    C.LogParts(h);
    FollowingHere(h, n, s);
    AppendShape(s, req, lead);
    var r := AppendSameTerm(s, req);
    if r.1.success && !AllCompacted(s, req) {
      AppendAgrees(h.logs[n], s, req, lead, Max(req.prevIndex, s.log.snapIndex));
    }
    AppendNode(h, w, now, others, n, s, req, lead, r.0, r.1.success);
  }

  lemma AppendedReply(h: C.History, w: Machine, now: nat, others: seq<NodeId>, n: NodeId, s: Node, req: AppendReq,
                      sentAt: nat)
    requires C.Inv(h) && NodeOk(h, w, now, others, n, s) && s.term == req.term && AppendReqOk(h, n, req)
    requires Extends(h, AppendHistory(h, n, s, req), now)
    ensures MsgOk(AppendHistory(h, n, s, req), w, AppendReply(n, req, sentAt, AppendSameTerm(s, req).1))
  {
    hide C.Inv, NodeOk, CoreOk, DiskOk, WaitersOk, LeaderOk, CandidateOk, AppendSameTerm, AppendHistory, AppendReqOk,
         AppendReplyOk, Extends;
    hide C.GrantsOk, C.ElectionsOk, C.LeaderLogsOk, C.LogsOk, C.AcksOk;
    NodeKnown(h, w, now, others, n, s);
    C.ElectionParts(h);
    C.LogParts(h);
    AppendReplyTrue(h, n, s, req, sentAt);
    AppendReqFrame(h, AppendHistory(h, n, s, req), now, n, req);
  }

  lemma AppendMidway(s: Group, h: C.History, h1: C.History, n: NodeId, node: Node, req: AppendReq, sentAt: nat,
                     ans: set<Answer>)
    requires C.Inv(h1) && Linked(s, h) && n in s.nodes && Midway(s, h, h1, n, node)
    requires AppendReqOk(h, n, req) && sentAt <= s.now && node.term == req.term && node.role == Follower
    requires forall a :: a in ans ==> a.outcome.Failed?
    ensures var r := AppendSameTerm(node, req);
            Linked(Acted(s, n, Effect(r.0, {AppendReply(n, req, sentAt, r.1)}, ans)), AppendHistory(h1, n, node, req))
    ensures C.Inv(AppendHistory(h1, n, node, req)) && Extends(h, AppendHistory(h1, n, node, req), s.now)
  {
    hide Linked, NodeOk, C.Inv, AppendSameTerm, AppendHistory, AppendReqOk, Extends, ActsFor, Acted, AnswerOk, MsgOk;
    var r := AppendSameTerm(node, req);
    var h' := AppendHistory(h1, n, node, req);
    var others := Others(s.peers, n);
    AppendReqFrame(h, h1, s.now, n, req);
    AppendedHistory(h1, s.machine, s.now, others, n, node, req);
    AppendedNode(h1, s.machine, s.now, others, n, node, req);
    AppendedReply(h1, s.machine, s.now, others, n, node, req, sentAt);
    ExtendsTrans(h, h1, h', s.now);
    ActsForTrans(h, h1, h', n, s.now);
    NodeLater(h', s.machine, s.now, others, n, r.0);
    FailedAnswers(h', s.machine, ans);
    ActedLinked(s, h, h', n, Effect(r.0, {AppendReply(n, req, sentAt, r.1)}, ans));
  }

  lemma StaleAppend(h: C.History, w: Machine, n: NodeId, term: nat, req: AppendReq, sentAt: nat)
    requires AppendReqOk(h, n, req) && req.term < term
    ensures MsgOk(h, w, AppendReply(n, req, sentAt, AppendResp(term, false, 0, 0)))
  {
  }

  lemma AnswerAppendStep(s: Group, h: C.History, n: NodeId, m: Msg) returns (h': C.History)
    requires C.Inv(h) && Linked(s, h) && Enabled(s, AnswerAppend(n, m))
    ensures C.Inv(h') && Linked(Do(s, AnswerAppend(n, m)), h') && Extends(h, h', s.now)
    ensures h'.commits == h.commits
  {
    hide Linked, C.Inv, Extends, AppendSameTerm, AppendHistory, Follow, Midway, NodeOk, AppendReqOk, AppendReplyOk;
    var node, req := s.nodes[n], m.append;
    MsgAt(s, h, m);
    if req.term < node.term {
      h' := h;
      NodeAt(s, h, n);
      ExtendsRefl(h, n, s.now);
      StaleAppend(h, s.machine, n, node.term, req, m.sentAt);
      PlainStep(s, h, n, Effect(node, {AppendReply(n, req, m.sentAt, AppendResp(node.term, false, 0, 0))}, {}));
    } else {
      var f := Follow(node, req.term, req.leader);
      var h1 := FollowMidway(s, h, n, req.term, req.leader);
      AppendMidway(s, h, h1, n, f.0, req, m.sentAt, f.1);
      AcceptCommits(h1, n, 0, f.0, req);
      h' := AppendHistory(h1, n, f.0, req);
    }
  }

  lemma SnapMayAccept(h: C.History, w: Machine, now: nat, others: seq<NodeId>, n: NodeId, s: Node, req: SnapReq)
    requires NodeOk(h, w, now, others, n, s) && n in h.peers && s.term == req.term && SnapReqOk(h, w, n, req)
    ensures C.MayAccept(h, n, req.snap.index)
  {
  }

  lemma InstalledNode(h: C.History, w: Machine, now: nat, others: seq<NodeId>, n: NodeId, s: Node, req: SnapReq)
    requires C.Inv(h) && NodeOk(h, w, now, others, n, s) && s.role == Follower && s.term == req.term
             && SnapReqOk(h, w, n, req)
    ensures NodeOk(C.Accept(h, n, req.snap.index), w, now, others, n, InstallSameTerm(s, req.snap))
  {
    hide C.Inv, NodeOk, InstallSameTerm, C.Accept, C.LeaderLogsOk, C.LogsOk, C.Complete, C.CommitsOk, C.CampaignsOk,
         C.LeadersGrown, C.AcksOk;
    hide CoreOk, DiskOk, WaitersOk, Following;
    NodeKnown(h, w, now, others, n, s);
    C.CommitParts(h);
    C.LogParts(h);
    FollowingHere(h, n, s);
    InstallNode(h, w, now, others, n, s, req);
  }

  lemma InstalledReply(h: C.History, w: Machine, now: nat, others: seq<NodeId>, n: NodeId, s: Node, req: SnapReq,
                       sentAt: nat)
    requires C.Inv(h) && NodeOk(h, w, now, others, n, s) && s.term == req.term && n in h.peers
             && SnapSentOk(h, w, n, req)
    requires C.MayAccept(h, n, req.snap.index) && Extends(h, C.Accept(h, n, req.snap.index), now)
    ensures MsgOk(C.Accept(h, n, req.snap.index), w, SnapReply(n, req, sentAt, s.term))
  {
    hide C.Inv, NodeOk, CoreOk, DiskOk, WaitersOk, LeaderOk, CandidateOk, SnapSentOk, Extends, C.GrantsOk,
         C.ElectionsOk;
    NodeKnown(h, w, now, others, n, s);
    C.ElectionParts(h);
    StillInTerm(h, n, s.term, sentAt);
    SnapSentFrame(h, C.Accept(h, n, req.snap.index), w, now, n, req);
  }

  lemma SnapMidway(s: Group, h: C.History, h1: C.History, n: NodeId, node: Node, req: SnapReq, sentAt: nat,
                   ans: set<Answer>)
    requires C.Inv(h1) && Linked(s, h) && n in s.nodes && Midway(s, h, h1, n, node)
    requires SnapSentOk(h1, s.machine, n, req) && Covered(h1, req.term, req.snap.index)
    requires sentAt <= s.now && node.term == req.term && node.role == Follower
    requires forall a :: a in ans ==> a.outcome.Failed?
    ensures Linked(Acted(s, n, Effect(InstallSameTerm(node, req.snap), {SnapReply(n, req, sentAt, node.term)}, ans)),
              C.Accept(h1, n, req.snap.index))
    ensures C.Inv(C.Accept(h1, n, req.snap.index)) && Extends(h, C.Accept(h1, n, req.snap.index), s.now)
  {
    hide Linked, NodeOk, C.Inv, C.Accept, C.MayAccept, InstallSameTerm, SnapReqOk, SnapSentOk, Covered, Extends,
         ActsFor, Acted, AnswerOk;
    hide MsgOk, C.Complete, C.CommitsOk, C.LeadersGrown, C.CampaignsOk;
    var h' := C.Accept(h1, n, req.snap.index);
    var others := Others(s.peers, n);
    var node' := InstallSameTerm(node, req.snap);
    C.CommitParts(h1);
    SentInTermIff(h1, s.machine, n, req);
    SnapMayAccept(h1, s.machine, s.now, others, n, node, req);
    AcceptHistory(h1, n, req.snap.index, s.now);
    InstalledNode(h1, s.machine, s.now, others, n, node, req);
    InstalledReply(h1, s.machine, s.now, others, n, node, req, sentAt);
    ExtendsTrans(h, h1, h', s.now);
    ActsForTrans(h, h1, h', n, s.now);
    NodeLater(h', s.machine, s.now, others, n, node');
    FailedAnswers(h', s.machine, ans);
    ActedLinked(s, h, h', n, Effect(node', {SnapReply(n, req, sentAt, node.term)}, ans));
  }

  lemma StaleSnap(h: C.History, w: Machine, n: NodeId, term: nat, req: SnapReq, sentAt: nat)
    requires SnapSentOk(h, w, n, req) && n in h.peers && req.term < term
    ensures MsgOk(h, w, SnapReply(n, req, sentAt, term))
  {
  }

  /** A snapshot of what the receiver has committed already is covered. */
  lemma KnownIsCovered(h: C.History, w: Machine, now: nat, others: seq<NodeId>, n: NodeId, s: Node, k: nat)
    requires NodeOk(h, w, now, others, n, s) && k <= s.commitIndex
    ensures Covered(h, s.term, k)
  {
    hide LeaderOk, CandidateOk, WaitersOk, DiskOk, ApplierOk, Compacts;
  }

  lemma SnapCovered(s: Group, h: C.History, h1: C.History, n: NodeId, node: Node, m: Msg)
    requires n in s.nodes && m.SnapMsg? && m.install.term >= s.nodes[n].term && Midway(s, h, h1, n, node)
    requires node.term == m.install.term && node.commitIndex == s.nodes[n].commitIndex
    requires Installs(s, n, m) ==> Covered(h, m.install.term, m.install.snap.index)
    ensures Covered(h1, m.install.term, m.install.snap.index)
  {
    hide NodeOk, Extends, ActsFor, Covered;
    if Installs(s, n, m) {
      CoveredLater(h, h1, s.now, m.install.term, m.install.snap.index);
    } else {
      KnownIsCovered(h1, s.machine, s.now, Others(s.peers, n), n, node, m.install.snap.index);
    }
  }

  lemma FollowCommit(s: Node, t: nat, leader: NodeId)
    ensures Follow(s, t, leader).0.commitIndex == s.commitIndex
  {
  }

  lemma AnswerSnapshotStep(s: Group, h: C.History, n: NodeId, m: Msg) returns (h': C.History)
    requires C.Inv(h) && Linked(s, h) && Enabled(s, AnswerSnapshot(n, m))
    requires Installs(s, n, m) ==> Covered(h, m.install.term, m.install.snap.index)
    ensures C.Inv(h') && Linked(Do(s, AnswerSnapshot(n, m)), h') && Extends(h, h', s.now)
    ensures h'.commits == h.commits
  {
    hide Linked, C.Inv, Extends, InstallSameTerm, C.Accept, Follow, Midway, NodeOk, SnapSentOk, SnapReplyOk, Installs,
         Covered;
    var node, req := s.nodes[n], m.install;
    MsgAt(s, h, m);
    NodeAt(s, h, n);
    if req.term < node.term {
      h' := h;
      ExtendsRefl(h, n, s.now);
      StaleSnap(h, s.machine, n, node.term, req, m.sentAt);
      PlainStep(s, h, n, Effect(node, {SnapReply(n, req, m.sentAt, node.term)}, {}));
    } else {
      var f := Follow(node, req.term, req.leader);
      var h1 := FollowMidway(s, h, n, req.term, req.leader);
      FollowCommit(node, req.term, req.leader);
      SnapCovered(s, h, h1, n, f.0, m);
      MidwayExtends(s, h, h1, n, f.0);
      SnapSentFrame(h, h1, s.machine, s.now, n, req);
      SnapMidway(s, h, h1, n, f.0, req, m.sentAt, f.1);
      h' := C.Accept(h1, n, req.snap.index);
      AcceptCommits(h1, n, req.snap.index, f.0, AppendReq(0, n, 0, 0, [], 0));
    }
  }

  // ------------------------------------------------------------------
  // Crashes in the middle of an answer
  // ------------------------------------------------------------------

  /** A request with only its first `c` entries is as justified as the whole. */
  lemma ShorterReqOk(h: C.History, n: NodeId, req: AppendReq, c: nat)
    requires AppendReqOk(h, n, req) && c <= |req.entries|
    ensures AppendReqOk(h, n, req.(entries := req.entries[..c]))
  {
    hide Committed;
    var log := h.leaderLog[req.term];
    assert log[req.prevIndex..req.prevIndex + |req.entries|][..c] == log[req.prevIndex..req.prevIndex + c];
  }

  /** Writing the first `k` entries is what a shorter request would have done. */
  lemma ShorterWrites(s: Node, req: AppendReq, k: nat) returns (c: nat)
    requires 0 < k <= |ToWrite(s, req)|
    ensures c <= |req.entries|
    ensures AppendSameTerm(s, req.(entries := req.entries[..c])).0.disk == Save(s.disk, None, ToWrite(s, req)[..k])
  {
    hide Save, Fresh, TermIn, FirstIndexOfTerm;
    var skip := Skip(s, req);
    var es := req.entries[skip..];
    FreshCut(s.log, es, k);
    c := |req.entries| - |Fresh(s.log, es)| + k;
    assert req.entries[..c][skip..] == es[..c - skip];
  }

  lemma {:induction false} FreshIsSuffix(l: LogState, es: seq<Entry>)
    ensures |Fresh(l, es)| <= |es|
  {
    if |es| > 0 {
      FreshIsSuffix(l, es[1..]);
    }
  }

  lemma {:induction false} FreshCut(l: LogState, es: seq<Entry>, k: nat)
    requires 0 < k <= |Fresh(l, es)|
    ensures |Fresh(l, es)| <= |es|
    ensures Fresh(l, es[..|es| - |Fresh(l, es)| + k]) == Fresh(l, es)[..k]
  {
    FreshIsSuffix(l, es);
    var cut := es[..|es| - |Fresh(l, es)| + k];
    if Has(l, es[0].index) && TermIn(l, es[0].index) == es[0].term {
      FreshCut(l, es[1..], k);
      assert cut[1..] == es[1..][..|es[1..]| - |Fresh(l, es[1..])| + k];
    }
  }

  lemma CutAppendNode(h: C.History, w: Machine, now: nat, others: seq<NodeId>, n: NodeId, s: Node, req: AppendReq,
                      k: nat)
      returns (h': C.History, node: Node)
    requires C.Inv(h) && NodeOk(h, w, now, others, n, s) && n in h.peers
    requires s.role == Follower && s.term == req.term && AppendReqOk(h, n, req) && k <= |ToWrite(s, req)|
    ensures C.Inv(h') && Extends(h, h', now) && ActsFor(h, h', n)
    ensures NodeOk(h', w, now, others, n, node) && node.disk == Save(s.disk, None, ToWrite(s, req)[..k])
    ensures h'.commits == h.commits
  {
    hide C.Inv, NodeOk, AppendReqOk, AppendSameTerm, AppendHistory, Extends, ActsFor, ToWrite;
    if k == 0 {
      ExtendsRefl(h, n, now);
      h', node := h, s;
    } else {
      var c := ShorterWrites(s, req, k);
      var cut := req.(entries := req.entries[..c]);
      ShorterReqOk(h, n, req, c);
      AppendedHistory(h, w, now, others, n, s, cut);
      AppendedNode(h, w, now, others, n, s, cut);
      AcceptCommits(h, n, 0, s, cut);
      h', node := AppendHistory(h, n, s, cut), AppendSameTerm(s, cut).0;
    }
  }

  lemma CutAnswerStep(s: Group, h: C.History, n: NodeId, m: Msg, k: nat) returns (h': C.History)
    requires C.Inv(h) && Linked(s, h) && Enabled(s, CutAnswer(n, m, k))
    ensures C.Inv(h') && Linked(Do(s, CutAnswer(n, m, k)), h') && Extends(h, h', s.now)
    ensures h'.commits == h.commits
  {
    hide Linked, C.Inv, Extends, ActsFor, NodeOk, AppendReqOk, SnapSentOk, Boot, Save, BecomeFollower, StepDown,
         Follow, ToWrite;
    var node: Node;
    h', node := CutNode(s, h, n, m, k);
    CutLinked(s, h, h', n, node, s.now);
    OffRecord(Acted(s, n, Quietly(Boot(s.machine, node.disk))), h', Without(s.intents, n), s.proposed);
  }

  /** The node as far as the interrupted answer had come. */
  lemma CutNode(s: Group, h: C.History, n: NodeId, m: Msg, k: nat) returns (h': C.History, node: Node)
    requires C.Inv(h) && Linked(s, h) && n in s.nodes && m in s.net && Persists(n, s.nodes[n], m)
    ensures C.Inv(h') && Extends(h, h', s.now) && ActsFor(h, h', n)
    ensures NodeOk(h', s.machine, s.now, Others(s.peers, n), n, node) && node.disk == CutDisk(s.nodes[n], m, k)
    ensures h'.commits == h.commits
  {
    hide Linked, C.Inv, Extends, ActsFor, NodeOk, AppendReqOk, SnapSentOk, Boot, Save, BecomeFollower, StepDown,
         Follow, ToWrite;
    MsgAt(s, h, m);
    match m
    case VoteMsg(req) =>
      StepDownCommits(h, n, req.term);
      StepDownMidway(s, h, n, req.term, NO_NODE);
      h', node := StepDown(h, n, req.term), BecomeFollower(s.nodes[n], req.term, NO_NODE).0;
    case AppendMsg(_, req, _) =>
      var f := Follow(s.nodes[n], req.term, req.leader).0;
      var h1 := FollowMidway(s, h, n, req.term, req.leader);
      AppendReqFrame(h, h1, s.now, n, req);
      h', node := CutAppendNode(h1, s.machine, s.now, Others(s.peers, n), n, f, req, Min(k, |ToWrite(f, req)|));
      ExtendsTrans(h, h1, h', s.now);
      ActsForTrans(h, h1, h', n, s.now);
    case SnapMsg(_, req, _) =>
      h' := FollowMidway(s, h, n, req.term, req.leader);
      node := Follow(s.nodes[n], req.term, req.leader).0;
    case _ =>
      assert false;
  }

  // ------------------------------------------------------------------
  // Replies to AppendEntries and InstallSnapshot
  // ------------------------------------------------------------------

  lemma PeerIsOther(s: Group, h: C.History, n: NodeId, peer: NodeId)
    requires Linked(s, h) && peer in h.peers && peer != n
    ensures peer in Others(s.peers, n)
  {
    hide NodeOk, MsgOk;
    OthersFacts(s.peers, n);
  }

  lemma AppendReplyLeading(s: Group, h: C.History, n: NodeId, m: Msg)
    requires C.Inv(h) && Linked(s, h) && n in s.nodes && m in s.net && m.AppendReply? && m.append.leader == n
    requires s.nodes[n].role == Leader && s.nodes[n].term == m.append.term && m.appendResp.term <= s.nodes[n].term
    ensures Leading(s, h, h, n, AfterAppendReply(s.nodes[n], m.from, m.append, m.sentAt, m.appendResp))
    ensures m.from in s.nodes[n].lead.matchIndex
  {
    hide Linked, NodeOk, C.Inv, CoreOk, DiskOk, WaitersOk, AppendReqOk, AppendReplyOk, Extends, ActsFor, ClockOk,
         BacktrackTo;
    var node := s.nodes[n];
    NodeAt(s, h, n);
    NodeKnown(h, s.machine, s.now, Others(s.peers, n), n, node);
    MsgAt(s, h, m);
    assert m.from in h.peers && m.from != n && m.appendResp.term == m.append.term by {
      AppendReplyFacts(h, s.machine, m);
    }
    PeerIsOther(s, h, n, m.from);
    assert PeerOk(h, s.now, node, |h.logs[n]|, m.from);
    AppendReplyNode(h, s.machine, s.now, Others(s.peers, n), n, node, m.from, m.append, m.sentAt, m.appendResp);
    ExtendsRefl(h, n, s.now);
  }

  lemma AppendReplyFacts(h: C.History, w: Machine, m: Msg)
    requires m.AppendReply? && MsgOk(h, w, m)
    ensures m.from in h.peers && m.from != m.append.leader && m.appendResp.term >= m.append.term
  {
  }

  lemma TakeAppendReplyStep(s: Group, h: C.History, n: NodeId, m: Msg) returns (h': C.History)
    requires C.Inv(h) && Linked(s, h) && Enabled(s, TakeAppendReply(n, m))
    ensures C.Inv(h') && Linked(Do(s, TakeAppendReply(n, m)), h') && Extends(h, h', s.now)
    ensures CommitsLed(h, h', Do(s, TakeAppendReply(n, m)))
  {
    hide Linked, C.Inv, Extends, AdvanceCommit, CommitHistory, Leading, AfterAppendReply, BecomeFollower, StepDown,
         NodeOk, BacktrackTo, RecordAck;
    var node := s.nodes[n];
    ExtendsRefl(h, n, s.now);
    if m.appendResp.term > node.term {
      h' := StepDown(h, n, m.appendResp.term);
      StepDownCommits(h, n, m.appendResp.term);
      StepDownLinked(s, h, n, m.appendResp.term, NO_NODE);
    } else if node.role != Leader || node.term != m.append.term {
      h' := h;
      NodeAt(s, h, n);
      PlainStep(s, h, n, Effect(node, {}, {}));
    } else {
      var node1 := AfterAppendReply(node, m.from, m.append, m.sentAt, m.appendResp);
      AppendReplyLeading(s, h, n, m);
      AfterAppendReplySplit(Cfg(s, n), node, m.from, m.append, m.sentAt, m.appendResp);
      if m.appendResp.success && m.append.prevIndex + |m.append.entries| > Get(node.lead.matchIndex, m.from) {
        h' := CommitHistory(h, Cfg(s, n), node1, s.now);
        AdvanceLinked(s, h, h, n, node1);
        LeadingRole(s, h, h, n, node1);
        AdvanceTerm(Cfg(s, n), node1);
        RuleLed(h, h, Do(s, TakeAppendReply(n, m)), n, Cfg(s, n), node1, s.now);
      } else {
        h' := h;
        LeadingLinked(s, h, h, n, node1);
      }
    }
  }

  lemma SnapReplyLeading(s: Group, h: C.History, n: NodeId, m: Msg)
    requires C.Inv(h) && Linked(s, h) && n in s.nodes && m in s.net && m.SnapReply? && m.install.leader == n
    requires s.nodes[n].role == Leader && s.nodes[n].term == m.install.term && m.respTerm <= s.nodes[n].term
    ensures Leading(s, h, h, n, AfterSnapReply(s.nodes[n], m.from, m.install, m.sentAt))
    ensures m.from in Others(s.peers, n)
  {
    hide Linked, NodeOk, C.Inv, CoreOk, LeaderOk, DiskOk, WaitersOk, SnapSentOk, SnapReplyOk, Extends, ActsFor, ClockOk;
    var node := s.nodes[n];
    NodeAt(s, h, n);
    NodeKnown(h, s.machine, s.now, Others(s.peers, n), n, node);
    MsgAt(s, h, m);
    assert m.from in h.peers && m.from != n && m.respTerm == m.install.term by {
      SnapReplyFacts(h, s.machine, m);
    }
    PeerIsOther(s, h, n, m.from);
    SnapReplyNode(h, s.machine, s.now, Others(s.peers, n), n, node, m.from, m.install, m.sentAt);
    ExtendsRefl(h, n, s.now);
  }

  lemma SnapReplyFacts(h: C.History, w: Machine, m: Msg)
    requires m.SnapReply? && MsgOk(h, w, m)
    ensures m.from in h.peers && m.from != m.install.leader && m.respTerm >= m.install.term
  {
  }

  /** Setting the next index after a snapshot reply, whether or not the commit
      index moved. */
  lemma AfterSnapLinked(s: Group, h: C.History, h1: C.History, n: NodeId, node: Node, peer: NodeId)
    requires C.Inv(h1) && Linked(s, h) && n in s.nodes && Leading(s, h, h1, n, node) && peer in Others(s.peers, n)
    ensures var node' := node.(lead := node.lead.(nextIndex := node.lead.nextIndex[peer := Get(node.lead.matchIndex,
              peer) + 1]));
            Linked(Acted(s, n, Effect(node', {}, {})), h1)
  {
    hide Linked, NodeOk, C.Inv, Extends, ActsFor, Acted, C.GrantsOk, C.ElectionsOk, C.LeaderLogsOk, C.LogsOk, C.AcksOk;
    C.LogParts(h1);
    NextAfterSnapshot(h1, s.machine, s.now + 1, Others(s.peers, n), n, node, peer);
    var node' := node.(lead := node.lead.(nextIndex := node.lead.nextIndex[peer := Get(node.lead.matchIndex,
          peer) + 1]));
    ActedLinked(s, h, h1, n, Effect(node', {}, {}));
  }

  lemma AdvanceLeading(s: Group, h: C.History, h1: C.History, n: NodeId, node: Node)
    requires C.Inv(h1) && Leading(s, h, h1, n, node)
    ensures Leading(s, h, CommitHistory(h1, Cfg(s, n), node, s.now), n, AdvanceCommit(Cfg(s, n), node))
    ensures C.Inv(CommitHistory(h1, Cfg(s, n), node, s.now))
  {
    hide NodeOk, C.Inv, CommitHistory, CommitJustified, AdvanceCommit, Extends, ActsFor;
    var h' := CommitHistory(h1, Cfg(s, n), node, s.now);
    LeadingHere(s, h, h1, n, node);
    AdvanceHistory(h1, s.now, Cfg(s, n), n, node);
    AdvanceNode(h1, s.machine, s.now, Cfg(s, n), n, node);
    ExtendsTrans(h, h1, h', s.now);
    ActsForTrans(h, h1, h', n, s.now);
    AdvanceTerm(Cfg(s, n), node);
    ExtendsPeers(h1, h', s.now);
  }

  lemma TakeSnapshotReplyStep(s: Group, h: C.History, n: NodeId, m: Msg) returns (h': C.History)
    requires C.Inv(h) && Linked(s, h) && Enabled(s, TakeSnapshotReply(n, m))
    ensures C.Inv(h') && Linked(Do(s, TakeSnapshotReply(n, m)), h') && Extends(h, h', s.now)
    ensures CommitsLed(h, h', Do(s, TakeSnapshotReply(n, m)))
  {
    hide Linked, C.Inv, Extends, AdvanceCommit, Led, BecomeFollower, StepDown, NodeOk, RecordAck;
    var node := s.nodes[n];
    ExtendsRefl(h, n, s.now);
    if m.respTerm > node.term {
      h' := StepDown(h, n, m.respTerm);
      StepDownCommits(h, n, m.respTerm);
      StepDownLinked(s, h, n, m.respTerm, NO_NODE);
    } else if node.role != Leader || node.term != m.install.term {
      h' := h;
      NodeAt(s, h, n);
      PlainStep(s, h, n, Effect(node, {}, {}));
    } else {
      h' := SnapReplyTaken(s, h, n, m);
    }
  }

  lemma SnapReplyTaken(s: Group, h: C.History, n: NodeId, m: Msg) returns (h': C.History)
    requires C.Inv(h) && Linked(s, h) && n in s.nodes && m in s.net && m.SnapReply? && m.install.leader == n
    requires s.nodes[n].role == Leader && s.nodes[n].term == m.install.term && m.respTerm <= s.nodes[n].term
    ensures var node' := OnSnapshotReply(Cfg(s, n), s.nodes[n], m.from, m.install, m.sentAt, m.respTerm).0;
            C.Inv(h') && Linked(Acted(s, n, Quietly(node')), h') && Extends(h, h', s.now)
                && CommitsLed(h, h', Acted(s, n, Quietly(node')))
  {
    hide Linked, C.Inv, Extends, AdvanceCommit, CommitHistory, Leading, NodeOk, RecordAck;
    var node := s.nodes[n];
    var node1 := AfterSnapReply(node, m.from, m.install, m.sentAt);
    ExtendsRefl(h, n, s.now);
    SnapReplyLeading(s, h, n, m);
    if m.install.snap.index > Get(RecordAck(node, m.from, m.sentAt).lead.matchIndex, m.from) {
      h' := CommitHistory(h, Cfg(s, n), node1, s.now);
      var node2 := AdvanceCommit(Cfg(s, n), node1);
      AdvanceLeading(s, h, h, n, node1);
      LeadingExtends(s, h, h', n, node2);
      AfterSnapLinked(s, h, h', n, node2, m.from);
      LeadingRole(s, h, h, n, node1);
      AdvanceTerm(Cfg(s, n), node1);
      var node' := node2.(lead := node2.lead.(nextIndex := node2.lead.nextIndex[m.from := Get(node2.lead.matchIndex,
            m.from) + 1]));
      RuleLed(h, h, Acted(s, n, Quietly(node')), n, Cfg(s, n), node1, s.now);
    } else {
      h' := h;
      AfterSnapLinked(s, h, h, n, node1, m.from);
    }
  }

  lemma LeadingRole(s: Group, h: C.History, h1: C.History, n: NodeId, node: Node)
    requires Leading(s, h, h1, n, node)
    ensures node.role == Leader
  {
  }

  lemma LeadingExtends(s: Group, h: C.History, h1: C.History, n: NodeId, node: Node)
    requires Leading(s, h, h1, n, node)
    ensures Extends(h, h1, s.now)
  {
  }

  // ------------------------------------------------------------------
  // Every step, and the initial state
  // ------------------------------------------------------------------

  /** Every step of the group keeps the invariant, for a history that only
      grows. */
  lemma StepKeeps(s: Group, h: C.History, step: Step) returns (h': C.History)
    requires C.Inv(h) && Linked(s, h) && Enabled(s, step)
    requires step.AnswerSnapshot? && Installs(s, step.n, step.m) ==>
               Covered(h, step.m.install.term, step.m.install.snap.index)
    ensures C.Inv(h') && Linked(Do(s, step), h') && Extends(h, h', s.now)
    ensures CommitsLed(h, h', Do(s, step))
  {
    hide Linked, C.Inv, C.CommitsOk, C.LogsOk, Extends, Do, Enabled, Installs, Covered, Led;
    h' := h;
    ExtendsRefl(h, NO_NODE, s.now);
    match step
    case Crash(n) => CrashStep(s, h, n);
    case CutAnswer(n, m, k) => h' := CutAnswerStep(s, h, n, m, k);
    case CutPropose(n, batch, k) => h' := CutProposeStep(s, h, n, batch, k);
    case AskPreVote(n) => AskPreVoteStep(s, h, n);
    case AnswerPreVote(n, m, recent) => AnswerPreVoteStep(s, h, n, m, recent);
    case Campaign(_, _) => h' := CampaignStep(s, h, step);
    case CampaignNow(_, _) => h' := CampaignStep(s, h, step);
    case AnswerVote(n, m) => h' := AnswerVoteStep(s, h, n, m);
    case LearnTerm(n, m) => h' := LearnTermStep(s, h, n, m);
    case WinElection(n, voters) => h' := WinElectionStep(s, h, n, voters);
    case CheckQuorum(n, since) => h' := CheckQuorumStep(s, h, n, since);
    case Propose(n, batch) => h' := ProposeStep(s, h, n, batch);
    case BuildAppend(n, peer) => BuildAppendStep(s, h, n, peer);
    case DecideSnapshot(n, peer) => DecideSnapshotStep(s, h, n, peer);
    case ReadSnapshot(it) => ReadSnapshotStep(s, h, it);
    case Transmit(p) => TransmitStep(s, h, p);
    case AnswerAppend(n, m) => h' := AnswerAppendStep(s, h, n, m);
    case TakeAppendReply(n, m) => h' := TakeAppendReplyStep(s, h, n, m);
    case AnswerSnapshot(n, m) => h' := AnswerSnapshotStep(s, h, n, m);
    case TakeSnapshotReply(n, m) => h' := TakeSnapshotReplyStep(s, h, n, m);
    case Applier(n, a) =>
      C.InvParts(h);
      ApplierStepKeeps(s, h, n, a);
    case BeginRead(n) => BeginReadStep(s, h, n);
    case ConfirmRead(rd) => ConfirmReadStep(s, h, rd);
    case BeginTransfer(n, target) => BeginTransferStep(s, h, n, target);
    case EndTransfer(n) => EndTransferStep(s, h, n);
    case SendTimeoutNow(n, target) => SendTimeoutNowStep(s, h, n, target);
  }
}
