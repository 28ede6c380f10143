/** What single handlers do in the states a run can reach: nothing panics,
    nothing committed is cut off, a rejection makes progress and a transfer
    target can win. */
module Handlers {
  import opened Types
  import opened Quorum
  import opened LogSpec
  import opened DiskSpec
  import opened CommitRule
  import opened Replica
  import opened Cluster
  import opened Link
  import opened Frames
  import opened NodeElection
  import opened NodeLeader
  import opened NodeFollower
  import opened NodeApplier
  import opened Reads
  import opened Steps
  import opened Safety
  import C = Consensus

  // ------------------------------------------------------------------
  // AppendEntries never panics and never cuts off a committed entry
  // ------------------------------------------------------------------

  /** Writing `news` truncates only above the commit index and snapshot and
      leaves no gap, in memory and on disk. */
  ghost predicate SafeToWrite(s: Node, news: seq<Entry>) {
    |news| > 0 ==>
      && s.log.snapIndex <= s.commitIndex < news[0].index <= LastIndex(s.log) + 1
      && Follows(news[0].index - 1, news)
      && SnapIndex(s.disk) < news[0].index <= SnapIndex(s.disk) + |s.disk.entries| + 1
  }

  lemma FreshIsSafe(w: Machine, full: seq<Entry>, s: Node, lead: seq<Entry>, p: nat, q: nat)
    requires Fits(w, full, s) && s.log.snapIndex <= s.commitIndex && s.log.snapIndex <= p <= q <= |lead|
    requires Indexed(lead) && Matching(full, lead) && Agree(full, lead, p) && Agree(full, lead, s.commitIndex)
    ensures SafeToWrite(s, Fresh(s.log, lead[p..q]))
  {
    hide Fresh, Matching, C.Merge;
    var r := FreshFacts(full, s.log, lead, p, q);
    SplitCommitted(full, lead, p, r, q, s.commitIndex);
    CompactsReads(full, s.log);
    SplitBound(full, lead, p, r, q);
    LeaderSlice(lead, r, q);
  }

  lemma SplitBound(full: seq<Entry>, lead: seq<Entry>, p: nat, r: nat, q: nat)
    requires Split(full, lead, p, r, q)
    ensures r <= |full| && r <= q <= |lead|
  {
  }

  lemma LeaderSlice(lead: seq<Entry>, r: nat, q: nat)
    requires Indexed(lead) && r <= q <= |lead|
    ensures Follows(r, lead[r..q])
  {
    forall i | 0 <= i < q - r
      ensures lead[r..q][i].index == r + 1 + i
    {
      assert lead[r..q][i] == lead[r + i];
    }
  }

  lemma ToWriteIsSafe(h: C.History, w: Machine, n: NodeId, s: Node, req: AppendReq)
    requires CoreOk(h, n, s) && DiskOk(w, h.logs[n], s) && s.term == req.term && AppendReqOk(h, n, req)
    requires Following(h, n, s, h.leaderLog[req.term])
    ensures SafeToWrite(s, ToWrite(s, req))
  {
    hide AppendSameTerm, Fresh, Committed, DiskOk, SafeToWrite;
    var lead := h.leaderLog[req.term];
    var skip := Skip(s, req);
    if AppendSameTerm(s, req).1.success && skip < |req.entries| {
      var p, q := Max(req.prevIndex, s.log.snapIndex), req.prevIndex + |req.entries|;
      assert req.entries[skip..] == lead[p..q];
      AppendAgrees(h.logs[n], s, req, lead, p);
      FreshIsSafe(w, h.logs[n], s, lead, p, q);
    } else {
      NothingIsSafe(s);
    }
  }

  lemma NothingIsSafe(s: Node)
    ensures SafeToWrite(s, [])
  {
  }

  /** No AppendEntries of a timely run makes the receiver cut off a committed entry,
      truncate inside its snapshot or append out of order. */
  lemma AppendEntriesIsSafe(run: seq<Group>, steps: seq<Step>, i: nat, n: NodeId, m: Msg)
    requires TimelyRun(run, steps) && i < |run| && n in run[i].nodes
    requires m in run[i].net && m.AppendMsg? && m.to == n && m.append.term >= run[i].nodes[n].term
    ensures var s := Follow(run[i].nodes[n], m.append.term, m.append.leader).0; SafeToWrite(s, ToWrite(s, m.append))
  {
    hide TimelyRun, Inv, Linked, Follow, Midway, NodeOk, CoreOk, DiskOk, LeaderOk, CandidateOk, WaitersOk,
         AppendReqOk, SafeToWrite, ToWrite, Following, Extends, ActsFor;
    hide C.Inv, C.Complete, C.CommitsOk, C.LeadersGrown, C.CampaignsOk, C.LeaderLogsOk, C.LogsOk, C.AcksOk;
    var hs := RunExplained(run, steps);
    var g, h, req := run[i], hs[i], m.append;
    InvParted(g, h);
    MsgAt(g, h, m);
    var h1 := FollowMidway(g, h, n, req.term, req.leader);
    var s := Follow(g.nodes[n], req.term, req.leader).0;
    MidwayOpens(g, h, h1, n, s);
    AppendReqFrame(h, h1, g.now, n, req);
    NodeKnown(h1, g.machine, g.now, Others(g.peers, n), n, s);
    C.CommitParts(h1);
    C.LogParts(h1);
    AppendTerm(h1, n, req);
    FollowingHere(h1, n, s);
    ToWriteIsSafe(h1, g.machine, n, s, req);
  }

  lemma MidwayOpens(s: Group, h: C.History, h1: C.History, n: NodeId, node: Node)
    requires Midway(s, h, h1, n, node)
    ensures Extends(h, h1, s.now) && NodeOk(h1, s.machine, s.now, Others(s.peers, n), n, node)
  {
  }

  lemma AppendTerm(h: C.History, n: NodeId, req: AppendReq)
    requires AppendReqOk(h, n, req)
    ensures req.term in h.leaderLog
  {
  }

  // ------------------------------------------------------------------
  // Slices are in range
  // ------------------------------------------------------------------

  /** The leader never asks its log for entries it has compacted away. */
  lemma ReplicationInRange(run: seq<Group>, steps: seq<Step>, i: nat, n: NodeId, peer: NodeId)
    requires TimelyRun(run, steps) && i < |run| && n in run[i].nodes && run[i].nodes[n].role == Leader
             && peer in Others(run[i].peers, n)
    ensures var s := run[i].nodes[n]; var next := Get(s.lead.nextIndex, peer);
            && 1 <= next <= LastIndex(s.log) + 1
            && (next > s.log.snapIndex ==>
              InRange(s.log, next, Min(LastIndex(s.log), next - 1 + run[i].maxAppendEntries)))
            && (next <= s.log.snapIndex ==> s.disk.snap.Some?)
  {
    hide TimelyRun, Inv, Linked, NodeOk, CandidateOk, WaitersOk, ApplierOk, Committed, C.Inv;
    var hs := RunExplained(run, steps);
    var g, h, s := run[i], hs[i], run[i].nodes[n];
    InvParted(g, h);
    NodeAt(g, h, n);
    NodeKnown(h, g.machine, g.now, Others(g.peers, n), n, s);
    assert PeerOk(h, g.now, s, |h.logs[n]|, peer);
    CompactsReads(h.logs[n], s.log);
  }

  /** Memory and disk end at the same index, so what a leader appends never
      leaves a gap on disk. */
  lemma MemoryMatchesDisk(run: seq<Group>, steps: seq<Step>, i: nat, n: NodeId)
    requires TimelyRun(run, steps) && i < |run| && n in run[i].nodes
    ensures var s := run[i].nodes[n]; LastIndex(s.log) == SnapIndex(s.disk) + |s.disk.entries|
  {
    hide TimelyRun, Inv, Linked, LeaderOk, CandidateOk, WaitersOk, ApplierOk, Committed, C.Inv;
    var hs := RunExplained(run, steps);
    InvParted(run[i], hs[i]);
    NodeAt(run[i], hs[i], n);
    CompactsReads(hs[i].logs[n], run[i].nodes[n].log);
  }

  /** The applier never takes an empty or out-of-range slice. */
  lemma ApplierInRange(run: seq<Group>, steps: seq<Step>, i: nat, n: NodeId)
    requires TimelyRun(run, steps) && i < |run| && n in run[i].nodes
    requires ApplierReady(run[i].nodes[n]) && run[i].nodes[n].appl.pending.None?
    ensures var s := run[i].nodes[n];
            InRange(s.log, s.appl.lastApplied + 1, s.commitIndex)
                && |Slice(s.log, s.appl.lastApplied + 1, s.commitIndex)| > 0
  {
    hide TimelyRun, Inv, Linked, LeaderOk, CandidateOk, WaitersOk, ApplierOk, ApplierReady, Compacts, C.Inv, Slice,
         InRange;
    var hs := RunExplained(run, steps);
    var g, h, s := run[i], hs[i], run[i].nodes[n];
    InvParted(g, h);
    NodeAt(g, h, n);
    TakeInRange(g.machine, h.logs[n], s);
  }

  // ------------------------------------------------------------------
  // Fast backtracking
  // ------------------------------------------------------------------

  /** The index found by scanning for a term holds an entry of that term. */
  lemma {:induction false} LastIndexOfTermHolds(l: LogState, term: nat, n: nat)
    requires n <= |l.entries| && LastIndexOfTermIn(l, term, n) != 0
    ensures exists k :: 0 <= k < n && l.entries[k].term == term && l.entries[k].index == LastIndexOfTermIn(l, term, n)
  {
    if l.entries[n - 1].term != term {
      LastIndexOfTermHolds(l, term, n - 1);
    }
  }

  lemma ConflictBelow(h: C.History, s: Node, full: seq<Entry>, req: AppendReq, resp: AppendResp)
    requires Compacts(full, s.log) && C.Good(h.leaderLog, full) && Indexed(full)
    requires req.prevIndex <= |full| && req.prevTerm == TermAt(full, req.prevIndex)
             && ConflictOk(h.leaderLog, req, resp)
    ensures BacktrackTo(s, resp) <= req.prevIndex
  {
    CompactsReads(full, s.log);
    var idx := LastIndexOfTerm(s.log, resp.conflictTerm);
    if resp.conflictTerm != 0 && idx != 0 {
      LastIndexOfTermHolds(s.log, resp.conflictTerm, |s.log.entries|);
      var k :| 0 <= k < |s.log.entries| && s.log.entries[k].term == resp.conflictTerm && s.log.entries[k].index == idx;
      var j := s.log.snapIndex + k;
      assert s.log.entries[k] == full[j] && idx == j + 1;
      assert Agree(full, h.leaderLog[resp.conflictTerm], idx);
    }
  }

  /** Every rejection a leader takes in its own term moves the peer's next
      index to at most the rejected `prevIndex`: the resend starts strictly
      earlier than the request it repairs, but never below 1. */
  lemma RejectionLowersNext(run: seq<Group>, steps: seq<Step>, i: nat, n: NodeId, m: Msg)
    requires TimelyRun(run, steps) && i < |run| && n in run[i].nodes && m in run[i].net && m.AppendReply?
             && m.append.leader == n
    requires var s := run[i].nodes[n];
             s.role == Leader && s.term == m.append.term && m.appendResp.term == s.term && !m.appendResp.success
    ensures var s' := OnAppendReply(Cfg(run[i], n), run[i].nodes[n], m.from, m.append, m.sentAt, m.appendResp).0;
            1 <= Get(s'.lead.nextIndex, m.from) < m.append.prevIndex + 1
  {
    hide TimelyRun, Inv, Linked, NodeOk, LeaderOk, CandidateOk, WaitersOk, DiskOk, BacktrackTo, ConflictOk, Committed,
         C.Inv, C.LeaderLogsOk, C.AcksOk, C.Good, Indexed;
    var hs := RunExplained(run, steps);
    var g, h, s := run[i], hs[i], run[i].nodes[n];
    InvParted(g, h);
    NodeAt(g, h, n);
    NodeKnown(h, g.machine, g.now, Others(g.peers, n), n, s);
    LeaderRecorded(g, h, n);
    MsgAt(g, h, m);
    C.LogParts(h);
    ConflictBelow(h, s, h.logs[n], m.append, m.appendResp);
    BacktrackStill(s, RecordAck(s, m.from, m.sentAt), m.appendResp);
  }

  lemma BacktrackStill(s: Node, s1: Node, resp: AppendResp)
    requires s1.log == s.log
    ensures BacktrackTo(s1, resp) == BacktrackTo(s, resp) >= 1
  {
  }

  /** In step `i` leader `n` takes a rejection, by `p` and in its own term, of
      the request that its present next index asks for. */
  ghost predicate Rejected(run: seq<Group>, steps: seq<Step>, i: nat, n: NodeId, p: NodeId) {
    && i < |steps| < |run|
    && steps[i].TakeAppendReply? && steps[i].n == n && steps[i].m in run[i].net && steps[i].m.AppendReply?
    && n in run[i].nodes
    && var m, s := steps[i].m, run[i].nodes[n];
       && m.from == p && m.append.leader == n && !m.appendResp.success
       && s.role == Leader && s.term == m.append.term == m.appendResp.term
       && Get(s.lead.nextIndex, p) == m.append.prevIndex + 1
  }

  /** No reply from `p` moved the next index between step `i` and step `j`. */
  ghost predicate NextKept(run: seq<Group>, i: nat, j: nat, n: NodeId, p: NodeId) {
    && i < j < |run| && n in run[i + 1].nodes && n in run[j].nodes
    && Get(run[j].nodes[n].lead.nextIndex, p) == Get(run[i + 1].nodes[n].lead.nextIndex, p)
  }

  lemma RejectedNext(run: seq<Group>, steps: seq<Step>, i: nat, n: NodeId, p: NodeId)
    requires TimelyRun(run, steps) && Rejected(run, steps, i, n, p)
    ensures n in run[i + 1].nodes && 1 <= Get(run[i + 1].nodes[n].lead.nextIndex, p) <= steps[i].m.append.prevIndex
  {
    hide Init, OnAppendReply, Timely;
    var m := steps[i].m;
    RejectionLowersNext(run, steps, i, n, m);
    assert run[i + 1] == Do(run[i], TakeAppendReply(n, m));
  }

  /** The resend loop ends: rejections that follow one another, each of the
      request asked for by the next index the one before it left, are at most
      as many as the first request's `prevIndex`. */
  lemma {:induction false} ResendLoopEnds(run: seq<Group>, steps: seq<Step>, n: NodeId, p: NodeId, at: seq<nat>)
    requires TimelyRun(run, steps) && |at| > 0
    requires forall x :: 0 <= x < |at| ==> Rejected(run, steps, at[x], n, p)
    requires forall x :: 0 < x < |at| ==> NextKept(run, at[x - 1], at[x], n, p)
    ensures Rejected(run, steps, at[0], n, p) && |at| <= steps[at[0]].m.append.prevIndex
    decreases |at|
  {
    hide TimelyRun;
    RejectedNext(run, steps, at[0], n, p);
    if |at| > 1 {
      assert NextKept(run, at[0], at[1], n, p) && Rejected(run, steps, at[1], n, p);
      ResendLoopEnds(run, steps, n, p, at[1..]);
    }
  }

  // ------------------------------------------------------------------
  // Leadership transfer
  // ------------------------------------------------------------------

  /** A log that holds a leader's whole log, in the leader's term, beats every
      log of a node at that term or lower. */
  lemma WholeLogIsUpToDate(h: C.History, t: nat, mine: seq<Entry>, theirs: seq<Entry>)
    requires t in h.leaderLog && LastTerm(h.leaderLog[t]) == t
    requires C.Good(h.leaderLog, mine) && C.Good(h.leaderLog, theirs) && C.TermsAtMost(mine, t)
             && C.TermsAtMost(theirs, t)
    requires Agree(h.leaderLog[t], mine, |h.leaderLog[t]|) && |h.leaderLog[t]| > 0
    requires C.CampaignsOk(h.term, h.campaigns) && C.LeadersGrown(h.elections, h.leaderLog, h.campaigns)
    ensures LastTerm(mine) == t && |mine| >= |h.leaderLog[t]|
    ensures LastTerm(theirs) < t || (LastTerm(theirs) == t && |theirs| <= |h.leaderLog[t]|)
  {
    C.TermsMonotone(h, mine, |h.leaderLog[t]| - 1, |mine| - 1);
    if |theirs| > 0 && LastTerm(theirs) == t {
      assert Agree(theirs, h.leaderLog[t], |theirs|);
    } else {
      C.LeaderTerms(h, t);
    }
  }

  lemma TargetIsPeer(h: C.History, now: nat, others: seq<NodeId>, n: NodeId, s: Node, target: NodeId)
    requires LeaderOk(h, now, others, n, s) && Get(s.lead.matchIndex, target) > 0
    ensures target in others
  {
  }

  lemma TargetHoldsLog(h: C.History, now: nat, others: seq<NodeId>, n: NodeId, s: Node, target: NodeId)
    requires LeaderOk(h, now, others, n, s) && target in others && C.AcksOk(h.term, h.leaderLog, h.logs, h.acks)
    requires Get(s.lead.matchIndex, target) == |h.logs[n]| > 0
    requires target in h.term && h.term[target] <= s.term
    ensures target in h.logs && Agree(h.leaderLog[s.term], h.logs[target], |h.leaderLog[s.term]|)
  {
    assert PeerOk(h, now, s, |h.logs[n]|, target);
    assert (target, s.term) in h.acks;
    assert C.AckOk(h.term, h.leaderLog, h.logs, target, s.term, h.acks[(target, s.term)]);
  }

  /** When TimeoutNow may be sent, the target, if still at the leader's term or
      below, would get the vote of every node at that term or below. */
  lemma TransferTargetCanWin(run: seq<Group>, steps: seq<Step>, i: nat, n: NodeId, target: NodeId, v: NodeId)
    requires TimelyRun(run, steps) && i < |run| && Enabled(run[i], SendTimeoutNow(n, target))
    requires target in run[i].nodes && v in run[i].nodes
    requires run[i].nodes[target].term <= run[i].nodes[n].term && run[i].nodes[v].term <= run[i].nodes[n].term
    ensures var t := run[i].nodes[target].log; LogUpToDate(run[i].nodes[v], LastIndex(t), LastTermIn(t))
    ensures LastIndex(run[i].nodes[target].log) >= LastIndex(run[i].nodes[n].log)
  {
    hide TimelyRun, Inv, Linked, NodeOk, LeaderOk, CandidateOk, WaitersOk, DiskOk, Committed, Compacts, C.Good,
         LastTerm;
    hide C.Inv, C.LeaderLogsOk, C.AcksOk, C.Complete, C.CommitsOk, C.LeadersGrown, C.CampaignsOk;
    var hs := RunExplained(run, steps);
    var g, h, s := run[i], hs[i], run[i].nodes[n];
    InvParted(g, h);
    C.LogParts(h);
    C.CommitParts(h);
    LeaderRecorded(g, h, n);
    NodeLog(g, h, n);
    NodeLog(g, h, target);
    NodeLog(g, h, v);
    NodeAt(g, h, n);
    NodeKnown(h, g.machine, g.now, Others(g.peers, n), n, s);
    LeaderEndsInTerm(h, g.now, Others(g.peers, n), n, s);
    TargetIsPeer(h, g.now, Others(g.peers, n), n, s, target);
    TargetHoldsLog(h, g.now, Others(g.peers, n), n, s, target);
    WholeLogIsUpToDate(h, s.term, h.logs[target], h.logs[v]);
  }

  /** A leader that is handing over. */
  predicate HandingOver(s: Node, t: nat, target: NodeId) {
    s.role == Leader && s.term == t && target != NO_NODE && s.lead.transferTarget == target
  }

  ghost predicate MatchGrows(s: Node, s': Node) {
    forall p :: Get(s.lead.matchIndex, p) <= Get(s'.lead.matchIndex, p)
  }

  /** While a leader hands over, no step makes its log longer or forgets what
      a peer holds. */
  lemma HandoverStep(s: Group, h: C.History, step: Step, n: NodeId, t: nat, target: NodeId)
    requires C.Inv(h) && Linked(s, h) && Enabled(s, step) && n in s.nodes && HandingOver(s.nodes[n], t, target)
    requires n in Do(s, step).nodes && HandingOver(Do(s, step).nodes[n], t, target)
    ensures LastIndex(Do(s, step).nodes[n].log) == LastIndex(s.nodes[n].log)
            && MatchGrows(s.nodes[n], Do(s, step).nodes[n])
  {
    hide Linked, C.Inv, Enabled, Do, EffectOf, ApplierDo, ApplierEnabled;
    DoShape(s, step);
    if !step.Transmit? && Actor(step) == n {
      if step.Applier? {
        ApplierEffect(s, n, step.a);
        HandoverApplier(s, h, n, step.a);
      } else {
        HandoverEffect(s, step);
      }
    }
  }

  lemma HandoverEffect(s: Group, step: Step)
    requires Enabled(s, step) && !step.Transmit? && !step.Applier?
             && s.nodes[Actor(step)].lead.transferTarget != NO_NODE
    requires s.nodes[Actor(step)].role == Leader && EffectOf(s, step).node.role == Leader
    ensures var node, node' := s.nodes[Actor(step)], EffectOf(s, step).node;
            LastIndex(node'.log) == LastIndex(node.log) && MatchGrows(node, node')
  {
    hide HandleRequestVote, HandleAppendEntries, HandleInstallSnapshot, BecomeFollower, OnAppendReply,
         OnSnapshotReply, HandlePreVote, HasQuorumAckSince, CaughtUp, VoteRequest, AppendProposals, IsQuorum,
         PreGranted, VoteGranted, PrepareAppend, AdvanceCommit, Persist, Others, PeerSet, CutDisk, Save, Persists;
    var n, node := Actor(step), s.nodes[Actor(step)];
    match step
    case AnswerVote(_, m) => HandoverVote(node, m.vote);
    case AnswerAppend(_, m) => HandoverAppend(node, m.append);
    case AnswerSnapshot(_, m) => HandoverInstall(node, m.install);
    case LearnTerm(_, m) => FollowerNow(node, m.voteResp.term, NO_NODE);
    case CheckQuorum(_, _) => FollowerNow(node, node.term, NO_NODE);
    case TakeAppendReply(_, m) => HandoverReply(Cfg(s, n), node, m.from, m.append, m.sentAt, m.appendResp);
    case TakeSnapshotReply(_, m) => HandoverSnapReply(Cfg(s, n), node, m.from, m.install, m.sentAt, m.respTerm);
    case Propose(_, batch) => ProposalRefused(Cfg(s, n), node, batch);
    case _ =>
  }

  lemma FollowerNow(s: Node, t: nat, leader: NodeId)
    ensures BecomeFollower(s, t, leader).0.role == Follower
  {
  }

  lemma HandoverVote(s: Node, req: VoteReq)
    requires s.role == Leader
    ensures var s' := HandleRequestVote(s, req).0; s'.role == Leader ==> s'.log == s.log && s'.lead == s.lead
  {
    hide BecomeFollower, LogUpToDate;
    FollowerNow(s, req.term, NO_NODE);
  }

  lemma HandoverAppend(s: Node, req: AppendReq)
    requires s.role == Leader
    ensures var s' := HandleAppendEntries(s, req).0; s'.role == Leader ==> s' == s
  {
    hide BecomeFollower, AppendSameTerm;
    FollowerNow(s, req.term, req.leader);
    RoleKept(BecomeFollower(s, req.term, req.leader).0, req);
  }

  lemma InstallRole(s: Node, snap: Snapshot)
    ensures InstallSameTerm(s, snap).role == s.role
  {
  }

  lemma RoleKept(s: Node, req: AppendReq)
    ensures AppendSameTerm(s, req).0.role == s.role
  {
    hide Fresh, FirstIndexOfTerm;
  }

  lemma HandoverInstall(s: Node, req: SnapReq)
    requires s.role == Leader
    ensures var s' := HandleInstallSnapshot(s, req).0; s'.role == Leader ==> s' == s
  {
    hide BecomeFollower;
    FollowerNow(s, req.term, req.leader);
  }

  lemma HandoverReply(cfg: Config, s: Node, peer: NodeId, req: AppendReq, sentAt: nat, resp: AppendResp)
    ensures var s' := OnAppendReply(cfg, s, peer, req, sentAt, resp).0;
            s'.role == Leader ==> s'.log == s.log && MatchGrows(s, s')
  {
    hide BecomeFollower, BacktrackTo, CommitCandidate;
    FollowerNow(s, resp.term, NO_NODE);
  }

  lemma HandoverSnapReply(cfg: Config, s: Node, peer: NodeId, req: SnapReq, sentAt: nat, respTerm: nat)
    ensures var s' := OnSnapshotReply(cfg, s, peer, req, sentAt, respTerm).0;
            s'.role == Leader ==> s'.log == s.log && MatchGrows(s, s')
  {
    hide BecomeFollower, CommitCandidate;
    FollowerNow(s, respTerm, NO_NODE);
  }

  lemma ProposalRefused(cfg: Config, s: Node, batch: seq<(nat, Command)>)
    requires s.lead.transferTarget != NO_NODE
    ensures AppendProposals(cfg, s, batch).0 == s
  {
  }

  lemma HandoverApplier(s: Group, h: C.History, n: NodeId, a: ApplierStep)
    requires C.Inv(h) && Linked(s, h) && n in s.nodes && ApplierEnabled(s.nodes[n], a)
    ensures var s' := ApplierDo(Cfg(s, n), s.nodes[n], a).0;
            LastIndex(s'.log) == LastIndex(s.nodes[n].log) && s'.lead == s.nodes[n].lead
  {
    hide Linked, C.Inv, C.LogsOk, C.CommitsOk, LastTerm, C.Good, C.TermsAtMost, ApplierFinish;
    C.InvParts(h);
    ApplierStepKeeps(s, h, n, a);
    NodeLog(s, h, n);
    NodeLog(Do(s, Applier(n, a)), h, n);
    ApplierLead(Cfg(s, n), s.nodes[n], a);
  }

  lemma ApplierLead(cfg: Config, s: Node, a: ApplierStep)
    requires ApplierEnabled(s, a)
    ensures ApplierDo(cfg, s, a).0.lead == s.lead
  {
  }

  /** A transfer that has caught up stays caught up: from the moment the
      target holds the leader's log until the leader gives up or steps down,
      the log stands still, so TimeoutNow may be sent at any point of it. */
  lemma {:induction false} TransferStaysCaughtUp(run: seq<Group>, steps: seq<Step>, i: nat, j: nat, n: NodeId, t: nat,
                                                 target: NodeId)
    requires TimelyRun(run, steps) && i <= j < |run|
    requires forall k :: i <= k <= j ==> n in run[k].nodes && HandingOver(run[k].nodes[n], t, target)
    ensures LastIndex(run[j].nodes[n].log) == LastIndex(run[i].nodes[n].log)
    ensures CaughtUp(run[i].nodes[n], target) ==> CaughtUp(run[j].nodes[n], target)
    decreases j
  {
    hide Init, Inv, Do, Enabled, MatchGrows;
    if i < j {
      TransferStaysCaughtUp(run, steps, i, j - 1, n, t, target);
      var hs := RunExplained(run, steps);
      HandoverKeeps(run[j - 1], hs[j - 1], steps[j - 1], hs[j], n, t, target);
    }
  }

  lemma HandoverKeeps(s: Group, h: C.History, step: Step, h': C.History, n: NodeId, t: nat, target: NodeId)
    requires Inv(s, h) && Enabled(s, step) && Inv(Do(s, step), h')
    requires n in s.nodes && HandingOver(s.nodes[n], t, target)
    requires n in Do(s, step).nodes && HandingOver(Do(s, step).nodes[n], t, target)
    ensures LastIndex(Do(s, step).nodes[n].log) == LastIndex(s.nodes[n].log)
    ensures CaughtUp(s.nodes[n], target) ==> CaughtUp(Do(s, step).nodes[n], target)
  {
    hide Inv, Do, Enabled, MatchGrows;
    InvParted(s, h);
    HandoverStep(s, h, step, n, t, target);
    MatchBounded(Do(s, step), h', n, target);
    MatchOf(s.nodes[n], Do(s, step).nodes[n], target);
  }

  lemma MatchOf(s: Node, s': Node, p: NodeId)
    requires MatchGrows(s, s')
    ensures Get(s.lead.matchIndex, p) <= Get(s'.lead.matchIndex, p)
  {
  }

  lemma MatchBounded(s: Group, h: C.History, n: NodeId, p: NodeId)
    requires Inv(s, h) && n in s.nodes && s.nodes[n].role == Leader
    ensures Get(s.nodes[n].lead.matchIndex, p) <= LastIndex(s.nodes[n].log)
  {
    hide Linked, NodeOk, CandidateOk, WaitersOk, DiskOk, Committed, C.Inv, C.LeaderLogsOk, C.LogsOk;
    InvParted(s, h);
    var node := s.nodes[n];
    NodeAt(s, h, n);
    NodeKnown(h, s.machine, s.now, Others(s.peers, n), n, node);
    CompactsReads(h.logs[n], node.log);
    C.LogParts(h);
    if p in node.lead.matchIndex {
      assert PeerOk(h, s.now, node, |h.logs[n]|, p);
      C.AcksBounded(h);
    }
  }
}
