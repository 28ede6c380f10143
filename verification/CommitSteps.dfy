/** The index a leader commits in a step is the one Figure 2 of the Raft paper
    asks for, although the source tests the median alone and only where
    something changed. */
module CommitSteps {
  import opened Types
  import opened LogSpec
  import opened DiskSpec
  import opened CommitRule
  import opened Replica
  import opened Cluster
  import opened Link
  import opened Quorum
  import opened NodeApplier
  import opened Steps
  import opened Safety
  import opened Handlers
  import opened Ballots
  import C = Consensus

  // ------------------------------------------------------------------
  // The commit rule
  // ------------------------------------------------------------------

  /** Figure 2's condition on a new commit index: a majority of the group holds
      it, the leader included, and its entry is of the leader's term. */
  ghost predicate Committable(cfg: Config, s: Node, k: nat) {
    && s.commitIndex < k <= LastIndex(s.log)
    && IsQuorum(Members(cfg), Holders(cfg, s, k))
    && TermIn(s.log, k) == s.term
  }

  /** Terms never decrease along a log and end at the leader's. */
  ghost predicate TermsAscend(l: LogState, t: nat) {
    forall i: nat, j: nat :: l.snapIndex <= i <= j <= LastIndex(l) ==> TermIn(l, i) <= TermIn(l, j) <= t
  }

  /** Testing the median alone finds the greatest index Figure 2 allows. */
  lemma MedianIsFigure2(cfg: Config, s: Node)
    requires TermsAscend(s.log, s.term) && s.log.snapIndex <= s.commitIndex && s.term > 0 && Proper(cfg)
    requires forall p :: p in s.lead.matchIndex ==> s.lead.matchIndex[p] <= LastIndex(s.log)
    ensures var c := AdvanceCommit(cfg, s).commitIndex;
            && (c == s.commitIndex || Committable(cfg, s, c))
            && forall k: nat :: Committable(cfg, s, k) ==> k <= c
  {
    var c := CommitCandidate(cfg, s);
    var q := QuorumSize(cfg);
    assert |Matches(cfg, s)| == |cfg.others| + 1;
    hide IsQuorum, Holders, Members, Proper;
    QuorumIndexIsGreatest(Matches(cfg, s), q, c);
    CandidateInLog(cfg, s);
    MatchesCountMajority(cfg, s, c);
    forall k: nat | Committable(cfg, s, k)
      ensures k <= AdvanceCommit(cfg, s).commitIndex
    {
      MatchesCountMajority(cfg, s, k);
      QuorumIndexIsGreatest(Matches(cfg, s), q, k);
      assert TermIn(s.log, k) <= TermIn(s.log, c);
    }
  }

  lemma CandidateInLog(cfg: Config, s: Node)
    requires forall p :: p in s.lead.matchIndex ==> s.lead.matchIndex[p] <= LastIndex(s.log)
    ensures CommitCandidate(cfg, s) <= LastIndex(s.log)
  {
    var k := LastIndex(s.log) + 1;
    forall i | 0 <= i < |Matches(cfg, s)|
      ensures Matches(cfg, s)[i] < k
    {
    }
    AllBelow(Matches(cfg, s), k);
    QuorumIndexIsGreatest(Matches(cfg, s), QuorumSize(cfg), k);
  }

  lemma LogAscends(h: C.History, full: seq<Entry>, l: LogState, t: nat)
    requires Compacts(full, l) && C.Good(h.leaderLog, full) && C.TermsAtMost(full, t)
    requires C.CampaignsOk(h.term, h.campaigns) && C.LeadersGrown(h.elections, h.leaderLog, h.campaigns)
    ensures TermsAscend(l, t)
  {
    CompactsReads(full, l);
    forall i: nat, j: nat | l.snapIndex <= i <= j <= LastIndex(l)
      ensures TermIn(l, i) <= TermIn(l, j) <= t
    {
      if i > 0 { C.TermsMonotone(h, full, i - 1, j - 1); }
    }
  }

  // ------------------------------------------------------------------
  // What a step does to a leader's tally
  // ------------------------------------------------------------------

  /** Nothing the commit rule looks at has changed. */
  ghost predicate SameTally(s: Node, s': Node) {
    && s'.term == s.term
    && s'.commitIndex == s.commitIndex
    && s'.lead.matchIndex == s.lead.matchIndex
    && LastIndex(s'.log) == LastIndex(s.log)
    && forall k :: s.commitIndex < k <= LastIndex(s.log) ==> TermIn(s'.log, k) == TermIn(s.log, k)
  }

  /** The rule was applied to the tally that `s'` shows. */
  predicate RuleApplied(cfg: Config, a: nat, s': Node) {
    s'.commitIndex == AdvanceCommit(cfg, s'.(commitIndex := a)).commitIndex
  }

  /** The tally was left alone, or the rule was applied to what it became. */
  ghost predicate Kept(cfg: Config, s: Node, s': Node) {
    SameTally(s, s') || (s'.log.snapIndex == s.log.snapIndex && RuleApplied(cfg, s.commitIndex, s'))
  }

  lemma SameTallyCommittable(cfg: Config, s: Node, s': Node, k: nat)
    requires SameTally(s, s')
    ensures Committable(cfg, s, k) == Committable(cfg, s', k)
  {
    assert Holders(cfg, s', k) == Holders(cfg, s, k);
  }

  lemma AdvanceApplies(cfg: Config, s: Node)
    ensures RuleApplied(cfg, s.commitIndex, AdvanceCommit(cfg, s))
    ensures var s' := AdvanceCommit(cfg, s); s'.(commitIndex := s.commitIndex) == s
  {
    var s' := AdvanceCommit(cfg, s);
    assert s'.(commitIndex := s.commitIndex) == s;
  }

  lemma ReplyTally(cfg: Config, s: Node, peer: NodeId, req: AppendReq, sentAt: nat, resp: AppendResp)
    requires s.role == Leader
    ensures var s' := OnAppendReply(cfg, s, peer, req, sentAt, resp).0;
            s'.role == Leader ==> Kept(cfg, s, s')
  {
    hide BecomeFollower, BacktrackTo, AdvanceCommit, RuleApplied;
    FollowerNow(s, resp.term, NO_NODE);
    if resp.term <= s.term && s.term == req.term {
      var s1 := RecordAck(s, peer, sentAt);
      var m := req.prevIndex + |req.entries|;
      if resp.success && m > Get(s1.lead.matchIndex, peer) {
        var s2 := s1.(lead := s1.lead.(matchIndex := s1.lead.matchIndex[peer := m],
              nextIndex := s1.lead.nextIndex[peer := m + 1]));
        AdvanceApplies(cfg, s2);
      }
    }
  }

  lemma NextOnly(cfg: Config, a: nat, s: Node, next: PeerMap)
    requires RuleApplied(cfg, a, s)
    ensures RuleApplied(cfg, a, s.(lead := s.lead.(nextIndex := next)))
  {
    var s' := s.(lead := s.lead.(nextIndex := next));
    assert Matches(cfg, s'.(commitIndex := a)) == Matches(cfg, s.(commitIndex := a));
  }

  lemma SnapReplyTally(cfg: Config, s: Node, peer: NodeId, req: SnapReq, sentAt: nat, respTerm: nat)
    requires s.role == Leader
    ensures var s' := OnSnapshotReply(cfg, s, peer, req, sentAt, respTerm).0;
            s'.role == Leader ==> Kept(cfg, s, s')
  {
    hide BecomeFollower, AdvanceCommit, RuleApplied;
    FollowerNow(s, respTerm, NO_NODE);
    if respTerm <= s.term && s.term == req.term {
      var s1 := RecordAck(s, peer, sentAt);
      if req.snap.index > Get(s1.lead.matchIndex, peer) {
        var s2 := s1.(lead := s1.lead.(matchIndex := s1.lead.matchIndex[peer := req.snap.index]));
        var s3 := AdvanceCommit(cfg, s2);
        AdvanceApplies(cfg, s2);
        NextOnly(cfg, s.commitIndex, s3, s3.lead.nextIndex[peer := Get(s3.lead.matchIndex, peer) + 1]);
      }
    }
  }

  lemma ProposeTally(cfg: Config, s: Node, batch: seq<(nat, Command)>)
    ensures Kept(cfg, s, AppendProposals(cfg, s, batch).0)
  {
    hide AdvanceCommit, RuleApplied, AddWaiters, ProposalEntries, Save;
    if TakesProposals(s) {
      var s1 := GrowLog(s, ProposalEntries(LastIndex(s.log), s.term, batch));
      AdvanceApplies(cfg, s1.(waiters := AddWaiters(s1.waiters, LastIndex(s.log), s.term, batch)));
    }
  }

  lemma VoteTally(s: Node, req: VoteReq)
    requires s.role == Leader
    ensures var s' := HandleRequestVote(s, req).0; s'.role == Leader ==> SameTally(s, s')
  {
    hide BecomeFollower, LogUpToDate, Save;
    FollowerNow(s, req.term, NO_NODE);
  }

  lemma ApplierTally(s: Group, h: C.History, n: NodeId, a: ApplierStep)
    requires C.Inv(h) && Linked(s, h) && n in s.nodes && ApplierEnabled(s.nodes[n], a)
    ensures SameTally(s.nodes[n], ApplierDo(Cfg(s, n), s.nodes[n], a).0)
  {
    hide Linked, C.Inv, NodeOk, Committed, LeaderOk, CandidateOk, WaitersOk, ApplierDo, ApplierEnabled, SameTally;
    NodeAt(s, h, n);
    NodeKnown(h, s.machine, s.now, Others(s.peers, n), n, s.nodes[n]);
    CompactTally(Cfg(s, n), s.machine, h.logs[n], s.nodes[n], a);
  }

  lemma CompactTally(cfg: Config, w: Machine, full: seq<Entry>, s: Node, a: ApplierStep)
    requires Compacts(full, s.log) && DiskOk(w, full, s) && ApplierEnabled(s, a)
    ensures SameTally(s, ApplierDo(cfg, s, a).0)
  {
    hide ApplierFinish, SaveSnapshot, Replay, Compacts, DiskOk, SnapshotCompact, SameTally;
    if a.CompactLog? {
      CompactedTally(w, full, s);
    } else {
      FinishLog(cfg, s);
      var s' := ApplierDo(cfg, s, a).0;
      SameLogTally(s, s');
    }
  }

  lemma SameLogTally(s: Node, s': Node)
    requires s'.log == s.log && s'.lead == s.lead && s'.commitIndex == s.commitIndex && s'.term == s.term
    ensures SameTally(s, s')
  {
  }

  lemma CompactedTally(w: Machine, full: seq<Entry>, s: Node)
    requires Compacts(full, s.log) && DiskOk(w, full, s) && s.appl.phase.Saved?
    ensures SameTally(s, SnapshotCompact(s))
  {
    hide SnapOk;
    CompactsReads(full, s.log);
  }

  lemma FinishLog(cfg: Config, s: Node)
    ensures AllApplied(s) ==> var s' := ApplierFinish(cfg, s).0;
                              s'.log == s.log && s'.lead == s.lead && s'.commitIndex == s.commitIndex
                                  && s'.term == s.term
  {
  }

  /** The same for every step but the applier's. */
  lemma LeaderEffect(s: Group, step: Step)
    requires Enabled(s, step) && !step.Transmit? && !step.Applier?
    requires s.nodes[Actor(step)].role == Leader && EffectOf(s, step).node.role == Leader
    ensures Kept(Cfg(s, Actor(step)), s.nodes[Actor(step)], EffectOf(s, step).node)
  {
    hide HandleRequestVote, HandleAppendEntries, HandleInstallSnapshot, BecomeFollower, OnAppendReply,
         OnSnapshotReply, HandlePreVote, HasQuorumAckSince, CaughtUp, VoteRequest, AppendProposals, IsQuorum,
         PreGranted, VoteGranted, PrepareAppend, AdvanceCommit, Persist, Others, PeerSet, RuleApplied, CutDisk,
         Persists, Save, SameTally;
    var n, node := Actor(step), s.nodes[Actor(step)];
    SameTallyRefl(node);
    match step
    case AnswerVote(_, m) => VoteTally(node, m.vote);
    case AnswerAppend(_, m) => HandoverAppend(node, m.append);
    case AnswerSnapshot(_, m) => HandoverInstall(node, m.install);
    case LearnTerm(_, m) => FollowerNow(node, m.voteResp.term, NO_NODE);
    case CheckQuorum(_, _) => FollowerNow(node, node.term, NO_NODE);
    case TakeAppendReply(_, m) => ReplyTally(Cfg(s, n), node, m.from, m.append, m.sentAt, m.appendResp);
    case TakeSnapshotReply(_, m) => SnapReplyTally(Cfg(s, n), node, m.from, m.install, m.sentAt, m.respTerm);
    case Propose(_, batch) => ProposeTally(Cfg(s, n), node, batch);
    case BeginTransfer(_, target) => TransferTally(node, target);
    case EndTransfer(_) => TransferTally(node, NO_NODE);
    case _ =>
  }

  lemma SameTallyRefl(s: Node)
    ensures SameTally(s, s)
  {
  }

  lemma TransferTally(s: Node, target: NodeId)
    ensures SameTally(s, SetTransfer(s, target))
  {
  }

  /** A step of a leader that goes on leading leaves its tally alone or ends
      with the rule. */
  lemma LeaderStep(s: Group, h: C.History, step: Step, n: NodeId)
    requires C.Inv(h) && Linked(s, h) && Enabled(s, step) && n in s.nodes && s.nodes[n].role == Leader
    requires n in Do(s, step).nodes && Do(s, step).nodes[n].role == Leader
    ensures Kept(Cfg(s, n), s.nodes[n], Do(s, step).nodes[n])
  {
    hide Linked, C.Inv, Enabled, Do, EffectOf, Others, SameTally, RuleApplied, ApplierDo, ApplierEnabled;
    DoShape(s, step);
    if step.Transmit? || Actor(step) != n {
      SameTallyRefl(s.nodes[n]);
    } else if step.Applier? {
      ApplierEffect(s, n, step.a);
      ApplierTally(s, h, n, step.a);
    } else {
      LeaderEffect(s, step);
    }
  }

  /** A node that was not leading and now is has just won. */
  lemma NewLeaderStep(s: Group, step: Step, n: NodeId)
    requires Enabled(s, step) && n in s.nodes && s.nodes[n].role != Leader
    requires n in Do(s, step).nodes && Do(s, step).nodes[n].role == Leader
    ensures Kept(Cfg(s, n), s.nodes[n], Do(s, step).nodes[n])
    ensures Do(s, step).nodes[n].log.snapIndex == s.nodes[n].log.snapIndex
    ensures RuleApplied(Cfg(s, n), s.nodes[n].commitIndex, Do(s, step).nodes[n])
  {
    hide BecomeFollower, OnAppendReply, OnSnapshotReply, ApplierDo, HandlePreVote, ApplierEnabled, CaughtUp,
         VoteRequest, AppendProposals, IsQuorum, PreGranted, VoteGranted, PrepareAppend, AdvanceCommit, Others,
         PeerSet, RuleApplied, CutDisk, Persists, Save, HandleRequestVote, HandleAppendEntries, HandleInstallSnapshot;
    var node, cfg := s.nodes[n], Cfg(s, n);
    if step.WinElection? && step.n == n {
      var last := LastIndex(node.log);
      var lead := NewLead(cfg, last, s.now);
      AdvanceApplies(cfg, GrowLog(node.(role := Leader, leaderId := n, lead := lead),
            [Entry(last + 1, node.term, Noop)]));
    } else {
      NoNewLeader(s, step, n);
      assert false;
    }
  }

  /** Only winning an election makes a leader. */
  lemma NoNewLeader(s: Group, step: Step, n: NodeId)
    requires Enabled(s, step) && n in s.nodes && s.nodes[n].role != Leader
    requires !(step.WinElection? && step.n == n)
    ensures n in Do(s, step).nodes && Do(s, step).nodes[n].role != Leader
  {
    hide Enabled, Do, EffectOf;
    DoShape(s, step);
    if !step.Transmit? && Actor(step) == n {
      NoNewLeaderEffect(s, step);
    }
  }

  lemma NoNewLeaderEffect(s: Group, step: Step)
    requires Enabled(s, step) && !step.Transmit? && s.nodes[Actor(step)].role != Leader && !step.WinElection?
    ensures EffectOf(s, step).node.role != Leader
  {
    hide IsQuorum, PreGranted, VoteGranted, AdvanceCommit, Save, AppendSameTerm, CutDisk, ApplierDo, InstallSameTerm,
         BacktrackTo, PrepareAppend, HandleRequestVote, HandlePreVote, ApplierEnabled, ProposalEntries, AddWaiters,
         HasQuorumAckSince;
    var node := s.nodes[Actor(step)];
    match step
    case AnswerAppend(_, m) => RoleKept(Follow(node, m.append.term, m.append.leader).0, m.append);
    case AnswerVote(_, m) => VoteRole(node, m.vote);
    case AnswerSnapshot(_, m) => InstallRole(Follow(node, m.install.term, m.install.leader).0, m.install.snap);
    case Applier(n, a) => ApplierRole(Cfg(s, n), node, a);
    case _ =>
  }

  lemma VoteRole(s: Node, req: VoteReq)
    ensures HandleRequestVote(s, req).0.role == Leader ==> s.role == Leader
  {
  }

  lemma ApplierRole(cfg: Config, s: Node, a: ApplierStep)
    requires ApplierEnabled(s, a)
    ensures ApplierDo(cfg, s, a).0.role == s.role
  {
  }

  // ------------------------------------------------------------------
  // Over runs
  // ------------------------------------------------------------------

  /** Nothing is left to commit. */
  ghost predicate Settled(cfg: Config, s: Node) {
    forall k: nat :: !Committable(cfg, s, k)
  }

  /** From commit index `a`, `s` went to the greatest index that may be
      committed, or stayed because there is none. */
  ghost predicate MovedRight(cfg: Config, a: nat, s: Node) {
    && (s.commitIndex != a ==> Committable(cfg, s.(commitIndex := a), s.commitIndex))
    && (forall k: nat :: Committable(cfg, s.(commitIndex := a), k) ==> k <= s.commitIndex)
    && (s.commitIndex == a ==> forall k: nat :: !Committable(cfg, s.(commitIndex := a), k))
  }

  /** A leader's state meets what the median test relies on. */
  lemma LeaderTally(s: Group, h: C.History, n: NodeId)
    requires Inv(s, h) && n in s.nodes && s.nodes[n].role == Leader
    ensures var node := s.nodes[n];
            && TermsAscend(node.log, node.term) && node.term > 0
            && forall p :: p in node.lead.matchIndex ==> node.lead.matchIndex[p] <= LastIndex(node.log)
  {
    hide Inv, Linked, NodeOk, LeaderOk, CandidateOk, WaitersOk, DiskOk, Committed, Compacts, C.Good, C.TermsAtMost,
         LastTerm, TermsAscend;
    hide C.Inv, C.Complete, C.CommitsOk, C.LeadersGrown, C.CampaignsOk;
    var node := s.nodes[n];
    InvParted(s, h);
    C.CommitParts(h);
    NodeLog(s, h, n);
    NodeAt(s, h, n);
    NodeKnown(h, s.machine, s.now, Others(s.peers, n), n, node);
    LogAscends(h, h.logs[n], node.log, node.term);
    LeaderRecorded(s, h, n);
    C.LeaderTerms(h, node.term);
    forall p | p in node.lead.matchIndex
      ensures node.lead.matchIndex[p] <= LastIndex(node.log)
    {
      MatchBounded(s, h, n, p);
    }
  }

  /** Where the rule was just applied to a leader's tally. */
  lemma RuleSettles(s: Group, h: C.History, n: NodeId, a: nat)
    requires Inv(s, h) && n in s.nodes && s.nodes[n].role == Leader
    requires s.nodes[n].log.snapIndex <= a && RuleApplied(Cfg(s, n), a, s.nodes[n])
    ensures MovedRight(Cfg(s, n), a, s.nodes[n]) && Settled(Cfg(s, n), s.nodes[n])
  {
    hide Inv, AdvanceCommit, TermsAscend, IsQuorum, Proper, Members;
    LeaderTally(s, h, n);
    ProperCfg(s, h, n);
    MedianIsFigure2(Cfg(s, n), s.nodes[n].(commitIndex := a));
    var cfg, node := Cfg(s, n), s.nodes[n];
    AdvanceForward(cfg, node.(commitIndex := a));
    forall k: nat
      ensures !Committable(cfg, node, k)
    {
      assert Holders(cfg, node.(commitIndex := a), k) == Holders(cfg, node, k);
      assert Committable(cfg, node, k) ==> Committable(cfg, node.(commitIndex := a), k);
    }
  }

  lemma ProperCfg(s: Group, h: C.History, n: NodeId)
    requires Inv(s, h) && n in s.nodes
    ensures Proper(Cfg(s, n)) && Members(Cfg(s, n)) == PeerSet(s.peers)
  {
    hide Inv, Linked, C.Inv, NodeOk, Proper, Members;
    InvParted(s, h);
    NodeAt(s, h, n);
    CfgMembers(s, n);
  }

  lemma AdvanceForward(cfg: Config, s: Node)
    ensures AdvanceCommit(cfg, s).commitIndex >= s.commitIndex
  {
  }

  lemma TallySettled(cfg: Config, s: Node, s': Node)
    requires SameTally(s, s') && Settled(cfg, s)
    ensures MovedRight(cfg, s.commitIndex, s') && Settled(cfg, s')
  {
    hide Committable;
    forall k: nat
      ensures !Committable(cfg, s', k)
    {
      SameTallyCommittable(cfg, s, s', k);
    }
    assert s'.(commitIndex := s.commitIndex) == s';
  }

  lemma LeaderKept(s: Group, h: C.History, step: Step, n: NodeId)
    requires Inv(s, h) && Enabled(s, step) && n in s.nodes
    requires n in Do(s, step).nodes && Do(s, step).nodes[n].role == Leader
    ensures Kept(Cfg(s, n), s.nodes[n], Do(s, step).nodes[n])
  {
    hide Inv, Enabled, Do, Kept;
    InvParted(s, h);
    if s.nodes[n].role == Leader {
      LeaderStep(s, h, step, n);
    } else {
      NewLeaderStep(s, step, n);
    }
  }

  /** One step, seen at a node that leads after it. */
  lemma StepSettles(s: Group, h: C.History, step: Step, h': C.History, n: NodeId)
    requires Inv(s, h) && Enabled(s, step) && Inv(Do(s, step), h') && n in s.nodes && n in Do(s, step).nodes
    requires Do(s, step).nodes[n].role == Leader && (s.nodes[n].role == Leader ==> Settled(Cfg(s, n), s.nodes[n]))
    ensures MovedRight(Cfg(s, n), s.nodes[n].commitIndex, Do(s, step).nodes[n])
            && Settled(Cfg(s, n), Do(s, step).nodes[n])
  {
    hide Inv, Enabled, Do, RuleApplied, Committable, SameTally, Settled, MovedRight;
    SnapWithinCommit(s, h, n);
    LeaderKept(s, h, step, n);
    SameCfg(s, step, n);
    if SameTally(s.nodes[n], Do(s, step).nodes[n]) && s.nodes[n].role == Leader {
      TallySettled(Cfg(s, n), s.nodes[n], Do(s, step).nodes[n]);
    } else {
      NewRuleApplied(s, step, n);
      RuleSettles(Do(s, step), h', n, s.nodes[n].commitIndex);
    }
  }

  lemma NewRuleApplied(s: Group, step: Step, n: NodeId)
    requires Enabled(s, step) && n in s.nodes && n in Do(s, step).nodes && Do(s, step).nodes[n].role == Leader
    requires Kept(Cfg(s, n), s.nodes[n], Do(s, step).nodes[n])
    requires !(SameTally(s.nodes[n], Do(s, step).nodes[n]) && s.nodes[n].role == Leader)
    ensures Do(s, step).nodes[n].log.snapIndex == s.nodes[n].log.snapIndex
    ensures RuleApplied(Cfg(s, n), s.nodes[n].commitIndex, Do(s, step).nodes[n])
  {
    hide Enabled, Do, RuleApplied, SameTally;
    if s.nodes[n].role != Leader {
      NewLeaderStep(s, step, n);
    }
  }

  lemma SameCfg(s: Group, step: Step, n: NodeId)
    requires Enabled(s, step)
    ensures Cfg(Do(s, step), n) == Cfg(s, n) && Do(s, step).nodes.Keys == s.nodes.Keys
  {
    hide Do, Enabled, EffectOf, Others;
    DoShape(s, step);
  }

  /** A leader never leaves anything to commit behind. */
  lemma {:induction false} LeadersSettled(run: seq<Group>, steps: seq<Step>, hs: seq<C.History>, i: nat, n: NodeId)
    requires IsRun(run, steps) && Explains(hs, run) && i < |run| && n in run[i].nodes && run[i].nodes[n].role == Leader
    ensures Settled(Cfg(run[i], n), run[i].nodes[n])
    decreases i
  {
    hide Inv, Do, Enabled, Settled, MovedRight, Later;
    if i > 0 {
      SameCfg(run[i - 1], steps[i - 1], n);
      if run[i - 1].nodes[n].role == Leader {
        LeadersSettled(run, steps, hs, i - 1, n);
      }
      StepSettles(run[i - 1], hs[i - 1], steps[i - 1], hs[i], n);
    }
  }

  /** In every step of every timely run that a leader lives through, its commit index
      moves to exactly the greatest index Figure 2 allows, judged by the match
      indexes and the log it ends the step with; where it does not move,
      Figure 2 allows none. The step that makes it leader included. */
  lemma CommitRuleIsFigure2(run: seq<Group>, steps: seq<Step>, i: nat, n: NodeId)
    requires TimelyRun(run, steps) && i < |steps| && n in run[i].nodes && n in run[i + 1].nodes
             && run[i + 1].nodes[n].role == Leader
    ensures MovedRight(Cfg(run[i + 1], n), run[i].nodes[n].commitIndex, run[i + 1].nodes[n])
  {
    hide Inv, Do, Enabled, Settled, MovedRight, Later, Timely;
    var hs := RunExplained(run, steps);
    if run[i].nodes[n].role == Leader {
      LeadersSettled(run, steps, hs, i, n);
    }
    SameCfg(run[i], steps[i], n);
    StepSettles(run[i], hs[i], steps[i], hs[i + 1], n);
  }
}
