/** The files of a replica along a run. Segments are deleted by their tags, and
    a crash in the middle of a log-discarding snapshot leaves a segment whose
    tag says too much. In a timely run that does no harm: as long as nothing is
    written to such a segment the replica cannot commit as far as its tag, and
    what is written to it first starts below the tag. */
module Retention {
  import opened Types
  import opened LogSpec
  import opened DiskSpec
  import opened Quorum
  import opened CommitRule
  import opened Replica
  import opened Cluster
  import opened Link
  import opened Frames
  import opened NodeFollower
  import opened NodeApplier
  import opened Steps
  import opened Safety
  import opened Handlers
  import opened Segments
  import opened Senders
  import V = Votes
  import C = Consensus

  // ------------------------------------------------------------------
  // What a step writes to storage
  // ------------------------------------------------------------------

  /** Installing the snapshot of `m` discards the receiver's log. */
  predicate Discards(s: Node, m: Msg) {
    && m.SnapMsg? && m.install.term >= s.term && m.install.snap.index > s.commitIndex
    && !(Has(s.log, m.install.snap.index) && TermIn(s.log, m.install.snap.index) == m.install.snap.term)
  }

  /** The entries an AppendEntries request makes its receiver write. */
  function AppendWrites(s: Node, req: AppendReq): seq<Entry> {
    if req.term < s.term then [] else ToWrite(Follow(s, req.term, req.leader).0, req)
  }

  /** The entries a step makes its node write. */
  function Wrote(s: Node, step: Step): seq<Entry> {
    var last := LastIndex(s.log);
    match step
    case WinElection(_, _) => [Entry(last + 1, s.term, Noop)]
    case Propose(_, batch) => if TakesProposals(s) then ProposalEntries(last, s.term, batch) else []
    case CutPropose(_, batch, k) => ProposalEntries(last, s.term, batch)[..Min(k, |batch|)]
    case AnswerAppend(_, m) => if m.AppendMsg? then AppendWrites(s, m.append) else []
    case CutAnswer(_, m, k) =>
      var news := if m.AppendMsg? then AppendWrites(s, m.append) else [];
      news[..Min(k, |news|)]
    case _ => []
  }

  lemma SaveTwice(d: Disk, a: Option<HardState>, b: Option<HardState>, es: seq<Entry>)
    ensures Save(Save(d, a, []), b, es) == Save(d, if b.Some? then b else a, es)
  {
  }

  /** The hard state a term change persists. */
  function TermSaved(s: Node, t: nat): Option<HardState> {
    if t > s.term then Some(HardState(t, NO_NODE)) else None
  }

  lemma FollowSaves(s: Node, t: nat, leader: NodeId)
    requires t >= s.term
    ensures Follow(s, t, leader).0.disk == Save(s.disk, TermSaved(s, t), [])
    ensures BecomeFollower(s, t, leader).0.disk == Save(s.disk, TermSaved(s, t), [])
    ensures Follow(s, t, leader).0.log == s.log && Follow(s, t, leader).0.commitIndex == s.commitIndex
  {
  }

  lemma AppendSaves(s: Node, req: AppendReq)
    ensures AppendSameTerm(s, req).0.disk == Save(s.disk, None, ToWrite(s, req))
    ensures |ToWrite(s, req)| == 0 ==> AppendSameTerm(s, req).0.log == s.log
  {
    hide Fresh, FirstIndexOfTerm, TermIn, Save;
    NothingSaved(s.disk);
    var skip := Skip(s, req);
    if AppendSameTerm(s, req).1.success && skip == |req.entries| {
      assert req.entries[skip..] == [];
      NothingFresh(s.log);
    }
  }

  lemma NothingSaved(d: Disk)
    ensures Save(d, None, []) == d
  {
  }

  lemma NothingFresh(l: LogState)
    ensures Fresh(l, []) == []
  {
  }

  /** What `Wrote` means: storage after the step is storage before it with
      these entries saved, and at most a hard state beside them. */
  lemma WroteIsSaved(s: Group, step: Step) returns (hs: Option<HardState>)
    requires Enabled(s, step) && !step.Transmit? && !step.AnswerSnapshot? && !(step.Applier? && step.a.StoreSnapshot?)
    ensures var node := s.nodes[Actor(step)]; EffectOf(s, step).node.disk == Save(node.disk, hs, Wrote(node, step))
  {
    hide Save, ToWrite, AppendSameTerm, BecomeFollower, Follow, AdvanceCommit, ProposalEntries, AddWaiters,
         LogUpToDate, PrepareAppend, BacktrackTo, HandlePreVote, IsQuorum, PreGranted, VoteGranted, ApplierDo,
         ApplierEnabled, CutDisk, OnAppendReply, OnSnapshotReply, AppendProposals, HandleRequestVote,
         HandleAppendEntries, BecomeLeader, SetTransfer, HasQuorumAckSince, VoteRequest, MayTransfer, CaughtUp,
         AppendWrites;
    var node := s.nodes[Actor(step)];
    NothingSaved(node.disk);
    hs := None;
    match step
    case CutAnswer(n, m, k) => hs := CutSaves(node, m, k);
    case CutPropose(n, batch, k) => CutBatch(LastIndex(node.log), node.term, batch);
    case Campaign(_, _) => hs := Some(HardState(node.term + 1, step.n));
    case CampaignNow(_, _) => hs := Some(HardState(node.term + 1, step.n));
    case AnswerVote(n, m) => hs := VoteSaves(node, m.vote);
    case LearnTerm(n, m) => hs := TermSaved(node, m.voteResp.term); FollowSaves(node, m.voteResp.term, NO_NODE);
    case CheckQuorum(n, _) => FollowSaves(node, node.term, NO_NODE);
    case AnswerAppend(n, m) => hs := AnswerSaves(node, m.append);
    case WinElection(n, _) => LeaderSaves(Cfg(s, n), node, s.now);
    case Propose(n, batch) => ProposeSaves(Cfg(s, n), node, batch);
    case TakeAppendReply(n, m) => hs := ReplySaves(Cfg(s, n), node, m.from, m.append, m.sentAt, m.appendResp);
    case TakeSnapshotReply(n, m) => hs := SnapReplySaves(Cfg(s, n), node, m.from, m.install, m.sentAt, m.respTerm);
    case Applier(n, a) => ApplierDisk(Cfg(s, n), node, a);
    case BeginTransfer(_, target) => TransferDisk(node, target);
    case EndTransfer(_) => TransferDisk(node, NO_NODE);
    case _ =>
  }

  lemma ApplierDisk(cfg: Config, s: Node, a: ApplierStep)
    requires ApplierEnabled(s, a)
    ensures !a.StoreSnapshot? ==> ApplierDo(cfg, s, a).0.disk == s.disk
  {
    hide AppliedAnswers;
  }

  lemma TransferDisk(s: Node, target: NodeId)
    ensures SetTransfer(s, target).disk == s.disk && SetTransfer(s, target).log == s.log
  {
  }

  lemma VoteSaves(s: Node, req: VoteReq) returns (hs: Option<HardState>)
    ensures HandleRequestVote(s, req).0.disk == Save(s.disk, hs, [])
  {
    hide LogUpToDate, Save;
    NothingSaved(s.disk);
    hs := None;
    if req.term >= s.term {
      var s1 := if req.term > s.term then BecomeFollower(s, req.term, NO_NODE).0 else s;
      FollowSaves(s, req.term, NO_NODE);
      hs := if req.term > s.term then TermSaved(s, req.term) else None;
      if (s1.votedFor == NO_NODE || s1.votedFor == req.cand) && LogUpToDate(s1, req.lastIndex, req.lastTerm) {
        SaveTwice(s.disk, hs, Some(HardState(s1.term, req.cand)), []);
        hs := Some(HardState(s1.term, req.cand));
      }
    }
  }

  lemma AnswerSaves(s: Node, req: AppendReq) returns (hs: Option<HardState>)
    ensures HandleAppendEntries(s, req).0.disk == Save(s.disk, hs, AppendWrites(s, req))
    ensures |AppendWrites(s, req)| == 0 ==> HandleAppendEntries(s, req).0.log == s.log
  {
    hide Follow, AppendSameTerm, ToWrite, Save;
    NothingSaved(s.disk);
    hs := None;
    if req.term >= s.term {
      var f := Follow(s, req.term, req.leader).0;
      FollowSaves(s, req.term, req.leader);
      AppendSaves(f, req);
      hs := TermSaved(s, req.term);
      SaveTwice(s.disk, hs, None, ToWrite(f, req));
    }
  }

  lemma AdvanceDisk(cfg: Config, s: Node)
    ensures AdvanceCommit(cfg, s).disk == s.disk && AdvanceCommit(cfg, s).log == s.log
  {
  }

  lemma LeaderSaves(cfg: Config, s: Node, now: nat)
    ensures BecomeLeader(cfg, s, now).disk == Save(s.disk, None, [Entry(LastIndex(s.log) + 1, s.term, Noop)])
  {
    hide AdvanceCommit, Save;
    var last := LastIndex(s.log);
    var lead := NewLead(cfg, last, now);
    AdvanceDisk(cfg, GrowLog(s.(role := Leader, leaderId := cfg.id, lead := lead), [Entry(last + 1, s.term, Noop)]));
  }

  lemma ProposeSaves(cfg: Config, s: Node, batch: seq<(nat, Command)>)
    ensures AppendProposals(cfg, s, batch).0.disk ==
              Save(s.disk, None, if TakesProposals(s) then ProposalEntries(LastIndex(s.log), s.term, batch) else [])
    ensures !TakesProposals(s) ==> AppendProposals(cfg, s, batch).0 == s
  {
    hide AdvanceCommit, Save, ProposalEntries, AddWaiters;
    NothingSaved(s.disk);
    var s1 := GrowLog(s, ProposalEntries(LastIndex(s.log), s.term, batch));
    AdvanceDisk(cfg, s1.(waiters := AddWaiters(s1.waiters, LastIndex(s.log), s.term, batch)));
  }

  lemma ReplySaves(cfg: Config, s: Node, peer: NodeId, req: AppendReq, sentAt: nat, resp: AppendResp)
      returns (hs: Option<HardState>)
    ensures OnAppendReply(cfg, s, peer, req, sentAt, resp).0.disk == Save(s.disk, hs, [])
    ensures OnAppendReply(cfg, s, peer, req, sentAt, resp).0.log == s.log
  {
    hide Save, BacktrackTo, CommitCandidate;
    NothingSaved(s.disk);
    hs := None;
    if resp.term > s.term {
      FollowSaves(s, resp.term, NO_NODE);
      hs := TermSaved(s, resp.term);
    }
  }

  lemma SnapReplySaves(cfg: Config, s: Node, peer: NodeId, req: SnapReq, sentAt: nat, t: nat)
      returns (hs: Option<HardState>)
    ensures OnSnapshotReply(cfg, s, peer, req, sentAt, t).0.disk == Save(s.disk, hs, [])
    ensures OnSnapshotReply(cfg, s, peer, req, sentAt, t).0.log == s.log
  {
    hide Save, CommitCandidate;
    NothingSaved(s.disk);
    hs := None;
    if t > s.term {
      FollowSaves(s, t, NO_NODE);
      hs := TermSaved(s, t);
    }
  }

  lemma CutBatch(last: nat, term: nat, batch: seq<(nat, Command)>)
    ensures |ProposalEntries(last, term, batch)| == |batch|
  {
  }

  lemma CutSaves(s: Node, m: Msg, k: nat) returns (hs: Option<HardState>)
    ensures CutDisk(s, m, k) == Save(s.disk, hs, Wrote(s, CutAnswer(NO_NODE, m, k))) || !PersistsTerm(s, m)
  {
    hide Save, BecomeFollower, Follow, ToWrite;
    NothingSaved(s.disk);
    hs := None;
    if PersistsTerm(s, m) {
      match m
      case VoteMsg(req) => FollowSaves(s, req.term, NO_NODE); hs := TermSaved(s, req.term);
      case AppendMsg(_, req, _) =>
        FollowSaves(s, req.term, req.leader);
        hs := TermSaved(s, req.term);
        var news := ToWrite(Follow(s, req.term, req.leader).0, req);
        SaveTwice(s.disk, hs, None, news[..Min(k, |news|)]);
      case SnapMsg(_, req, _) => FollowSaves(s, req.term, req.leader); hs := TermSaved(s, req.term);
      case _ =>
    }
  }

  /** The request is of the receiver's term or a later one. */
  predicate PersistsTerm(s: Node, m: Msg) {
    match m
    case VoteMsg(req) => req.term >= s.term
    case AppendMsg(_, req, _) => req.term >= s.term
    case SnapMsg(_, req, _) => req.term >= s.term
    case _ => true
  }

  // ------------------------------------------------------------------
  // A log that contradicts what a leader has committed
  // ------------------------------------------------------------------

  /** A leader of term `t` or below has committed `k` entries, and the replica's
      log does not start with them. */
  ghost predicate Doomed(h: C.History, n: NodeId, t: nat, k: nat) {
    && n in h.logs
    && exists u :: u in h.leaderLog && u <= t && Committed(h.leaderLog, h.commits, h.leaderLog[u], k, u)
                   && !Agree(h.logs[n], h.leaderLog[u], k)
  }

  lemma AgreeVia(a: seq<Entry>, b: seq<Entry>, c: seq<Entry>, k: nat)
    requires Agree(a, b, k) && Agree(c, b, k)
    ensures Agree(a, c, k)
  {
  }

  /** Such a replica has committed less, and does not lead. */
  lemma DoomedBelow(s: Group, h: C.History, n: NodeId, k: nat)
    requires Inv(s, h) && n in s.nodes && Doomed(h, n, s.nodes[n].term, k)
    ensures s.nodes[n].commitIndex < k && s.nodes[n].role != Leader
  {
    hide Inv, C.Inv, C.Complete, C.CommitsOk, C.LeadersGrown, C.CampaignsOk, Committed, Agree;
    var node := s.nodes[n];
    var u :| u in h.leaderLog && u <= node.term && Committed(h.leaderLog, h.commits, h.leaderLog[u], k, u)
             && !Agree(h.logs[n], h.leaderLog[u], k);
    InvParted(s, h);
    C.CommitParts(h);
    CommitRecorded(s, h, n);
    CommittedComparable(h, h.logs[n], node.commitIndex, node.term, h.leaderLog[u], k, u);
    if node.role == Leader {
      LeaderRecorded(s, h, n);
      CommittedInLeader(h, h.leaderLog[u], k, u, node.term);
      AgreeTurned(h.leaderLog[u], h.logs[n], k);
    }
  }

  lemma AgreeTurned(a: seq<Entry>, b: seq<Entry>, k: nat)
    ensures Agree(a, b, k) ==> Agree(b, a, k)
  {
  }

  /** Logs with the same last index and last term are the same log. */
  lemma SameLog(h: C.History, n: NodeId, s: Node, h': C.History, s': Node)
    requires CoreOk(h, n, s) && C.LogsOk(h.leaderLog, h.logs) && CoreOk(h', n, s') && C.LogsOk(h'.leaderLog, h'.logs)
             && Later(h, h')
    requires LastIndex(s'.log) == LastIndex(s.log) && LastTermIn(s'.log) == LastTermIn(s.log)
    ensures |h.logs[n]| == |h'.logs[n]| && Agree(h.logs[n], h'.logs[n], |h.logs[n]|)
  {
    hide Committed, Later, C.Good;
    CompactsReads(h.logs[n], s.log);
    CompactsReads(h'.logs[n], s'.log);
    GoodLater(h, h', h.logs[n]);
    C.LogMatching(h'.leaderLog, h.logs[n], h'.logs[n], |h.logs[n]|);
  }

  lemma DoomedStays(h: C.History, h': C.History, n: NodeId, t: nat, t': nat, k: nat)
    requires Later(h, h') && t <= t' && Doomed(h, n, t, k)
    requires n in h'.logs && |h.logs[n]| == |h'.logs[n]| && Agree(h.logs[n], h'.logs[n], |h.logs[n]|)
    ensures Doomed(h', n, t', k)
  {
    hide Committed;
    var u :| u in h.leaderLog && u <= t && Committed(h.leaderLog, h.commits, h.leaderLog[u], k, u)
             && !Agree(h.logs[n], h.leaderLog[u], k);
    var a, b := h.leaderLog[u], h'.leaderLog[u];
    CommittedLater(h, h', a, k, u);
    CommittedFits(h.leaderLog, h.commits, a, k, u);
    assert Agree(a, b, |a|);
    CommittedWeaken(h'.leaderLog, h'.commits, a, k, u, b, k, u);
    AgreeBack(h.logs[n], h'.logs[n], a, b, k);
  }

  lemma AgreeBack(x: seq<Entry>, x': seq<Entry>, a: seq<Entry>, b: seq<Entry>, k: nat)
    requires |x| == |x'| && Agree(x, x', |x|) && Agree(a, b, |a|) && k <= |a|
    ensures Agree(x', b, k) ==> Agree(x, a, k)
  {
  }

  lemma CommittedFits(ll: Logs, commits: set<C.Commit>, log: seq<Entry>, k: nat, t: nat)
    requires Committed(ll, commits, log, k, t)
    ensures k <= |log|
  {
  }

  // ------------------------------------------------------------------
  // What it writes next starts where the contradiction is, or before
  // ------------------------------------------------------------------

  /** The log agrees with the leader's up to where writing starts. */
  lemma WritesAgree(h: C.History, w: Machine, n: NodeId, s: Node, req: AppendReq)
    requires CoreOk(h, n, s) && DiskOk(w, h.logs[n], s) && s.term == req.term && AppendReqOk(h, n, req)
    requires Following(h, n, s, h.leaderLog[req.term]) && |ToWrite(s, req)| > 0
    ensures ToWrite(s, req)[0].index > 0 && Agree(h.logs[n], h.leaderLog[req.term], ToWrite(s, req)[0].index - 1)
  {
    hide AppendSameTerm, Fresh, Committed, DiskOk;
    var lead := h.leaderLog[req.term];
    var skip := Skip(s, req);
    var p, q := Max(req.prevIndex, s.log.snapIndex), req.prevIndex + |req.entries|;
    assert req.entries[skip..] == lead[p..q];
    AppendAgrees(h.logs[n], s, req, lead, p);
    var r := FreshFacts(h.logs[n], s.log, lead, p, q);
    assert lead[r..q][0] == lead[r];
  }

  lemma AppendWritesLow(s: Group, h: C.History, n: NodeId, m: Msg, k: nat)
    requires Inv(s, h) && n in s.nodes && m in s.net && m.AppendMsg? && m.to == n && m.append.term >= s.nodes[n].term
    requires Doomed(h, n, s.nodes[n].term, k) && |AppendWrites(s.nodes[n], m.append)| > 0
    ensures AppendWrites(s.nodes[n], m.append)[0].index <= k
  {
    hide Inv, Linked, Follow, Midway, NodeOk, CoreOk, DiskOk, LeaderOk, CandidateOk, WaitersOk, AppendReqOk, ToWrite,
         Following, Extends, ActsFor;
    hide C.Inv, C.Complete, C.CommitsOk, C.LeadersGrown, C.CampaignsOk, C.LeaderLogsOk, C.LogsOk, C.AcksOk, Later,
         Doomed;
    var req, node := m.append, s.nodes[n];
    InvParted(s, h);
    MsgAt(s, h, m);
    NodeAt(s, h, n);
    NodeKnown(h, s.machine, s.now, Others(s.peers, n), n, node);
    var h1 := FollowMidway(s, h, n, req.term, req.leader);
    var f := Follow(node, req.term, req.leader).0;
    FollowSaves(node, req.term, req.leader);
    MidwayOpens(s, h, h1, n, f);
    AppendReqFrame(h, h1, s.now, n, req);
    NodeKnown(h1, s.machine, s.now, Others(s.peers, n), n, f);
    C.LogParts(h);
    C.CommitParts(h1);
    C.LogParts(h1);
    AppendTerm(h1, n, req);
    FollowingHere(h1, n, f);
    WritesAgree(h1, s.machine, n, f, req);
    ExtendsLater(h, h1, s.now);
    SameLog(h, n, node, h1, f);
    DoomedStays(h, h1, n, node.term, f.term, k);
    DoomedSplits(h1, n, f.term, k, ToWrite(f, req)[0].index - 1);
  }

  /** Agreement with the leader of a later term ends before the contradiction. */
  lemma DoomedSplits(h: C.History, n: NodeId, t: nat, k: nat, r: nat)
    requires C.Complete(h) && C.CommitsOk(h.peers, h.leaderLog, h.acks, h.commits)
    requires Doomed(h, n, t, k) && t in h.leaderLog && Agree(h.logs[n], h.leaderLog[t], r)
    ensures r < k
  {
    hide C.Complete, C.CommitsOk, Committed, Agree;
    var u :| u in h.leaderLog && u <= t && Committed(h.leaderLog, h.commits, h.leaderLog[u], k, u)
             && !Agree(h.logs[n], h.leaderLog[u], k);
    CommittedInLeader(h, h.leaderLog[u], k, u, t);
    if r >= k {
      AgreeShorter(h.logs[n], h.leaderLog[t], r, k);
      AgreeVia(h.logs[n], h.leaderLog[t], h.leaderLog[u], k);
    }
  }

  // ------------------------------------------------------------------
  // Every step
  // ------------------------------------------------------------------

  /** Storage and log are in step: a restart has the same last entry. */
  lemma BootEnds(s: Group, h: C.History, n: NodeId, d: Disk)
    requires Inv(s, h) && n in s.nodes && d.snap == s.nodes[n].disk.snap && d.entries == s.nodes[n].disk.entries
    ensures var l, l' := s.nodes[n].log, Boot(s.machine, d).log;
            LastIndex(l') == LastIndex(l) && LastTermIn(l') == LastTermIn(l)
  {
    hide Inv, Linked, NodeOk, LeaderOk, CandidateOk, WaitersOk, DiskOk, Committed, C.Inv;
    InvParted(s, h);
    NodeAt(s, h, n);
    var node, others := s.nodes[n], Others(s.peers, n);
    NodeKnown(h, s.machine, s.now, others, n, node);
    BootNode(h, s.machine, s.now, others, n, node);
    NodeKnown(h, s.machine, s.now, others, n, Boot(s.machine, node.disk));
    CompactsReads(h.logs[n], node.log);
    CompactsReads(h.logs[n], Boot(s.machine, node.disk).log);
  }

  lemma NoEntrySaved(d: Disk, hs: Option<HardState>)
    ensures Save(d, hs, []).snap == d.snap && Save(d, hs, []).entries == d.entries
  {
  }

  predicate SameEnd(l: LogState, l': LogState) {
    LastIndex(l') == LastIndex(l) && LastTermIn(l') == LastTermIn(l)
  }

  lemma InstallEnds(s: Node, m: Msg)
    requires m.SnapMsg? && !Discards(s, m) && s.log.snapIndex <= s.commitIndex
    ensures SameEnd(s.log, HandleInstallSnapshot(s, m.install).0.log)
  {
    hide Follow, SaveSnapshot;
    if m.install.term >= s.term {
      FollowSaves(s, m.install.term, m.install.leader);
    }
  }

  lemma ApplierEnds(s: Group, h: C.History, n: NodeId, a: ApplierStep)
    requires Inv(s, h) && n in s.nodes && ApplierEnabled(s.nodes[n], a)
    ensures SameEnd(s.nodes[n].log, ApplierDo(Cfg(s, n), s.nodes[n], a).0.log)
  {
    hide Inv, Linked, C.Inv, C.LogsOk, C.CommitsOk, LastTerm, C.Good, C.TermsAtMost, ApplierFinish, ApplierDo;
    InvParted(s, h);
    C.InvParts(h);
    ApplierStepKeeps(s, h, n, a);
    NodeLog(s, h, n);
    NodeLog(Do(s, Applier(n, a)), h, n);
  }

  /** A step that writes no entry and discards nothing leaves the end of the
      log alone. */
  lemma UnwrittenEnds(s: Group, h: C.History, step: Step)
    requires Inv(s, h) && Enabled(s, step) && !step.Transmit? && |Wrote(s.nodes[Actor(step)], step)| == 0
    requires !(step.AnswerSnapshot? && Discards(s.nodes[Actor(step)], step.m))
    ensures SameEnd(s.nodes[Actor(step)].log, EffectOf(s, step).node.log)
  {
    hide Inv, Enabled, EffectOf, Wrote, Discards, SameEnd, ApplierDo, ApplierEnabled, HandleInstallSnapshot;
    ActorPresent(s, step);
    if IsCrash(step) {
      CrashEnds(s, h, step);
    } else if step.Applier? {
      ApplierEffect(s, step.n, step.a);
      ApplierEnds(s, h, step.n, step.a);
    } else if step.AnswerSnapshot? {
      SnapshotEffect(s, step.n, step.m);
      SnapWithinCommit(s, h, step.n);
      InstallEnds(s.nodes[step.n], step.m);
    } else {
      LogUntouched(s, step);
      SameEndRefl(s.nodes[Actor(step)].log);
    }
  }

  lemma SameEndRefl(l: LogState)
    ensures SameEnd(l, l)
  {
  }

  lemma LogUntouched(s: Group, step: Step)
    requires Enabled(s, step) && !step.Transmit? && !IsCrash(step) && !step.Applier? && !step.AnswerSnapshot?
    requires |Wrote(s.nodes[Actor(step)], step)| == 0
    ensures EffectOf(s, step).node.log == s.nodes[Actor(step)].log
  {
    hide Save, ToWrite, AppendSameTerm, BecomeFollower, Follow, AdvanceCommit, ProposalEntries, AddWaiters,
         LogUpToDate, PrepareAppend, BacktrackTo, HandlePreVote, IsQuorum, PreGranted, VoteGranted, OnAppendReply,
         OnSnapshotReply, AppendProposals, HandleRequestVote, HandleAppendEntries, BecomeLeader, AppendWrites,
         SetTransfer, VoteRequest, HasQuorumAckSince, MayTransfer, CaughtUp;
    var node := s.nodes[Actor(step)];
    match step
    case AnswerVote(_, m) => VoteEnds(node, m.vote);
    case LearnTerm(_, m) => StepDownEnds(node, m.voteResp.term, NO_NODE);
    case CheckQuorum(_, _) => StepDownEnds(node, node.term, NO_NODE);
    case Propose(n, batch) =>
      CutBatch(LastIndex(node.log), node.term, batch);
      ProposeEnds(Cfg(s, n), node, batch);
    case AnswerAppend(_, m) => var hs := AnswerSaves(node, m.append);
    case TakeAppendReply(n, m) => var hs := ReplySaves(Cfg(s, n), node, m.from, m.append, m.sentAt, m.appendResp);
    case TakeSnapshotReply(n, m) => var hs := SnapReplySaves(Cfg(s, n), node, m.from, m.install, m.sentAt, m.respTerm);
    case BeginTransfer(_, target) => TransferDisk(node, target);
    case EndTransfer(_) => TransferDisk(node, NO_NODE);
    case _ =>
  }

  lemma CrashEnds(s: Group, h: C.History, step: Step)
    requires Inv(s, h) && Enabled(s, step) && IsCrash(step) && |Wrote(s.nodes[Actor(step)], step)| == 0
    ensures SameEnd(s.nodes[Actor(step)].log, EffectOf(s, step).node.log)
  {
    hide Inv, Save, ToWrite, Boot, CutDisk, AppendWrites, ProposalEntries, EffectOf;
    var node := s.nodes[Actor(step)];
    var hs := WroteIsSaved(s, step);
    NoEntrySaved(node.disk, hs);
    assert Wrote(node, step) == [];
    CrashBoots(s, step);
    BootEnds(s, h, Actor(step), EffectOf(s, step).node.disk);
  }

  lemma CrashBoots(s: Group, step: Step)
    requires Enabled(s, step) && IsCrash(step)
    ensures EffectOf(s, step).node == Boot(s.machine, EffectOf(s, step).node.disk)
  {
    hide Save, CutDisk, ProposalEntries;
  }

  lemma VoteEnds(s: Node, req: VoteReq)
    ensures HandleRequestVote(s, req).0.log == s.log
  {
    hide LogUpToDate, Save;
  }

  lemma StepDownEnds(s: Node, t: nat, leader: NodeId)
    ensures BecomeFollower(s, t, leader).0.log == s.log
  {
    hide Save;
  }

  lemma ProposeEnds(cfg: Config, s: Node, batch: seq<(nat, Command)>)
    requires TakesProposals(s) ==> |batch| == 0
    ensures AppendProposals(cfg, s, batch).0.log == s.log
  {
    hide AdvanceCommit, Save, AddWaiters;
    var es := ProposalEntries(LastIndex(s.log), s.term, batch);
    var s1 := GrowLog(s, es);
    AdvanceDisk(cfg, s1.(waiters := AddWaiters(s1.waiters, LastIndex(s.log), s.term, batch)));
    if |batch| == 0 {
      assert s.log.entries + es == s.log.entries;
    }
  }

  /** A step of one node, explained before and after. */
  ghost predicate Stepped(s: Group, h: C.History, step: Step, h': C.History) {
    && Enabled(s, step) && !step.Transmit? && Actor(step) in s.nodes && Actor(step) in Do(s, step).nodes
    && Inv(s, h) && Inv(Do(s, step), h') && Later(h, h')
  }

  /** Winning an election shows the log to hold what was committed. */
  lemma WinWritesLow(s: Group, h: C.History, n: NodeId, voters: set<NodeId>, h': C.History, k: nat)
    requires Stepped(s, h, WinElection(n, voters), h')
    requires Doomed(h, n, s.nodes[n].term, k)
    ensures LastIndex(s.nodes[n].log) + 1 <= k
  {
    hide Inv, Enabled, Do, Later, C.Inv, C.Complete, C.CommitsOk, C.LeadersGrown, C.CampaignsOk, C.LogsOk,
         C.LeaderLogsOk, C.AcksOk;
    hide Committed, C.Good, Doomed, C.TermsAtMost, LastTerm, Agree, Linked;
    ActorPresent(s, WinElection(n, voters));
    var s', node := Do(s, WinElection(n, voters)), s.nodes[n];
    WinLog(s, n, voters);
    InvParted(s, h);
    InvParted(s', h');
    NodeLog(s, h, n);
    NodeLog(s', h', n);
    LeaderRecorded(s', h', n);
    C.CommitParts(h');
    C.LogParts(h');
    LogRecorded(s, h, n);
    LogRecorded(s', h', n);
    GrownLog(h, h', n, node.log, s'.nodes[n].log, Entry(LastIndex(node.log) + 1, node.term, Noop));
    DoomedGrown(h, h', n, node.term, k);
  }

  lemma WinLog(s: Group, n: NodeId, voters: set<NodeId>)
    requires Enabled(s, WinElection(n, voters))
    ensures var s' := Do(s, WinElection(n, voters)); var node := s.nodes[n];
            && n in s'.nodes && s'.nodes[n].role == Leader && s'.nodes[n].term == node.term
            && s'.nodes[n].log == AppendTo(node.log, [Entry(LastIndex(node.log) + 1, node.term, Noop)])
  {
    hide IsQuorum, VoteGranted, Save, CommitCandidate;
  }

  /** Appending to the log appends to the full log it stands for. */
  lemma GrownLog(h: C.History, h': C.History, n: NodeId, l: LogState, l': LogState, e: Entry)
    requires n in h.logs && n in h'.logs && Compacts(h.logs[n], l) && Compacts(h'.logs[n], l') && l' == AppendTo(l, [e])
    requires C.Good(h.leaderLog, h.logs[n]) && C.Good(h'.leaderLog, h'.logs[n]) && Later(h, h')
    ensures |h'.logs[n]| == |h.logs[n]| + 1 && Agree(h.logs[n], h'.logs[n], |h.logs[n]|)
  {
    hide Later, C.Good;
    CompactsReads(h.logs[n], l);
    CompactsReads(h'.logs[n], l');
    GoodLater(h, h', h.logs[n]);
    var k := |h.logs[n]|;
    assert Has(l, k) && Has(l', k);
    assert TermIn(l', k) == TermIn(l, k);
    C.LogMatching(h'.leaderLog, h.logs[n], h'.logs[n], k);
  }

  lemma DoomedGrown(h: C.History, h': C.History, n: NodeId, t: nat, k: nat)
    requires Later(h, h') && C.Complete(h') && C.CommitsOk(h'.peers, h'.leaderLog, h'.acks, h'.commits)
    requires Doomed(h, n, t, k) && t in h'.leaderLog && n in h'.logs && h'.leaderLog[t] == h'.logs[n]
    requires |h'.logs[n]| == |h.logs[n]| + 1 && Agree(h.logs[n], h'.logs[n], |h.logs[n]|)
    ensures |h.logs[n]| + 1 <= k
  {
    hide C.Complete, C.CommitsOk, Committed;
    var u :| u in h.leaderLog && u <= t && Committed(h.leaderLog, h.commits, h.leaderLog[u], k, u)
             && !Agree(h.logs[n], h.leaderLog[u], k);
    var a, b := h.leaderLog[u], h'.leaderLog[u];
    CommittedLater(h, h', a, k, u);
    CommittedFits(h.leaderLog, h.commits, a, k, u);
    assert Agree(a, b, |a|);
    CommittedWeaken(h'.leaderLog, h'.commits, a, k, u, b, k, u);
    CommittedInLeader(h', b, k, u, t);
  }

  /** Whatever a replica writes while its log contradicts `k` committed
      entries starts at or below `k`. */
  lemma StepWritesLow(s: Group, h: C.History, step: Step, n: NodeId, es: seq<Entry>, k: nat)
    requires n == Actor(step) && n in s.nodes && es == Wrote(s.nodes[n], step) && |es| > 0
    requires Doomed(h, n, s.nodes[n].term, k) && Inv(s, h) && Enabled(s, step) && !step.WinElection?
    ensures es[0].index <= k
  {
    hide Inv, Doomed, IsQuorum, PreGranted, VoteGranted, AppendWrites, ProposalEntries, ToWrite, Follow,
         HandlePreVote, PrepareAppend;
    DoomedBelow(s, h, n, k);
    match step
    case AnswerAppend(_, m) => StaleWritesNothing(s.nodes[n], m.append); AppendWritesLow(s, h, n, m, k);
    case CutAnswer(_, m, _) => AppendWritesLow(s, h, n, m, k);
    case _ =>
  }

  lemma StaleWritesNothing(s: Node, req: AppendReq)
    ensures req.term < s.term ==> AppendWrites(s, req) == []
  {
  }

  /** Whatever is written continues or overwrites the log. */
  lemma StepWritesNext(s: Group, h: C.History, step: Step)
    requires Inv(s, h) && Enabled(s, step) && !step.Transmit? && |Wrote(s.nodes[Actor(step)], step)| > 0
    ensures Wrote(s.nodes[Actor(step)], step)[0].index <= LastIndex(s.nodes[Actor(step)].log) + 1
  {
    hide Inv, IsQuorum, PreGranted, VoteGranted, AppendWrites, ToWrite, Follow, HandlePreVote, PrepareAppend;
    var n := Actor(step);
    match step
    case AnswerAppend(_, m) => StaleWritesNothing(s.nodes[n], m.append); AppendWritesNext(s, h, n, m);
    case CutAnswer(_, m, _) => AppendWritesNext(s, h, n, m);
    case _ =>
  }

  lemma AppendWritesNext(s: Group, h: C.History, n: NodeId, m: Msg)
    requires Inv(s, h) && n in s.nodes && m in s.net && m.AppendMsg? && m.to == n && m.append.term >= s.nodes[n].term
    requires |AppendWrites(s.nodes[n], m.append)| > 0
    ensures AppendWrites(s.nodes[n], m.append)[0].index <= LastIndex(s.nodes[n].log) + 1
  {
    hide Inv, Linked, Follow, Midway, NodeOk, CoreOk, DiskOk, LeaderOk, CandidateOk, WaitersOk, AppendReqOk, ToWrite,
         Following, Extends, ActsFor;
    hide C.Inv, C.Complete, C.CommitsOk, C.LeadersGrown, C.CampaignsOk, C.LeaderLogsOk, C.LogsOk, C.AcksOk;
    var req, node := m.append, s.nodes[n];
    InvParted(s, h);
    MsgAt(s, h, m);
    var h1 := FollowMidway(s, h, n, req.term, req.leader);
    var f := Follow(node, req.term, req.leader).0;
    FollowSaves(node, req.term, req.leader);
    MidwayOpens(s, h, h1, n, f);
    AppendReqFrame(h, h1, s.now, n, req);
    NodeKnown(h1, s.machine, s.now, Others(s.peers, n), n, f);
    C.CommitParts(h1);
    C.LogParts(h1);
    AppendTerm(h1, n, req);
    FollowingHere(h1, n, f);
    ToWriteIsSafe(h1, s.machine, n, f, req);
  }

  lemma TermsGrow(s: Group, h: C.History, step: Step)
    requires Inv(s, h) && Enabled(s, step) && !step.Transmit?
    ensures EffectOf(s, step).node.term >= s.nodes[Actor(step)].term
  {
    hide Inv, V.Steady, HandleRequestVote, Save, IsQuorum, PreGranted, VoteGranted, AppendSameTerm, InstallSameTerm,
         BecomeFollower, Follow, OnAppendReply, OnSnapshotReply, AppendProposals, ApplierDo, CutDisk, Boot,
         ProposalEntries, PrepareAppend, AdvanceCommit;
    var n := Actor(step);
    TermPersisted(s, h, n);
    if !V.CastsBallot(step) {
      V.SteadyStep(s, step);
      SteadyTerm(s.nodes[n], EffectOf(s, step).node);
    } else if step.AnswerVote? {
      V.AnswerVoteBallot(s.nodes[n], step.m.vote);
      var r := HandleRequestVote(s.nodes[n], step.m.vote);
      if !r.1.granted {
        SteadyTerm(s.nodes[n], r.0);
      }
    } else if step.WinElection? {
      V.LeaderBallot(Cfg(s, n), s.nodes[n], s.now);
    }
  }

  lemma SteadyTerm(s: Node, s': Node)
    requires V.Steady(s, s')
    ensures s.term <= s'.term
  {
  }

  lemma TermPersisted(s: Group, h: C.History, n: NodeId)
    requires Inv(s, h) && n in s.nodes
    ensures V.Persisted(s.nodes[n])
  {
    hide Inv, Linked, NodeOk, CoreOk, LeaderOk, CandidateOk, WaitersOk, C.Inv;
    InvParted(s, h);
    NodeAt(s, h, n);
    NodeKnown(h, s.machine, s.now, Others(s.peers, n), n, s.nodes[n]);
  }

  /** A replica whose log an install would discard contradicts the snapshot. */
  lemma DiscardDooms(s: Group, h: C.History, n: NodeId, m: Msg)
    requires Inv(s, h) && n in s.nodes && m in s.net && m.SnapMsg? && m.to == n && Discards(s.nodes[n], m)
    requires Covered(h, m.install.term, m.install.snap.index)
    ensures Doomed(h, n, m.install.term, m.install.snap.index)
  {
    hide Inv, Linked, NodeOk, LeaderOk, CandidateOk, WaitersOk, DiskOk, C.Inv, C.Complete, C.CommitsOk,
         C.LeadersGrown, C.CampaignsOk, Committed, SnapSentOk, Covered;
    var node, req := s.nodes[n], m.install;
    InvParted(s, h);
    MsgAt(s, h, m);
    NodeAt(s, h, n);
    NodeKnown(h, s.machine, s.now, Others(s.peers, n), n, node);
    C.CommitParts(h);
    SentInTermIff(h, s.machine, n, req);
    CompactsReads(h.logs[n], node.log);
    var lead, k := h.leaderLog[req.term], req.snap.index;
    assert !Agree(h.logs[n], lead, k);
  }

  // ------------------------------------------------------------------
  // Files along a run
  // ------------------------------------------------------------------

  /** The segments of one replica, and the first one recovery may read. */
  datatype Files = Files(segs: seq<Segment>, min: nat)

  const NEW_FILES := Files([Segment(1, 0, [])], 0)

  /** A new segment with the given tag was started. */
  ghost predicate Opened(segs: seq<Segment>, segs': seq<Segment>, tag: nat)
    requires |segs| > 0
  {
    exists hs :: segs' == Rotated(segs, tag, hs)
  }

  /** What a step of the group does to the files of replica `n`: nothing, a
      batch with the entries it writes, a switch to a new segment for a
      snapshot that discards the log, or only the first part of that switch,
      with a crash before the snapshot file is in place. */
  ghost predicate FileStep(f: Files, f': Files, s: Group, step: Step, n: NodeId)
    requires |f.segs| > 0
  {
    if step.Transmit? || Actor(step) != n || n !in s.nodes then f' == f
    else if step.AnswerSnapshot? && Discards(s.nodes[n], step.m) then
      Opened(f.segs, f'.segs, step.m.install.snap.index + 1) && f'.min == f.segs[|f.segs| - 1].seqNo + 1
    else if step.CutAnswer? && Discards(s.nodes[n], step.m) then
      f' == f || (Opened(f.segs, f'.segs, step.m.install.snap.index + 1) && f'.min == f.min)
    else exists hs :: f' == Files(AppendRecs(f.segs, Batch(hs, Wrote(s.nodes[n], step))), f.min)
  }

  /** What the files may do beside: a hard-state record, a new segment tagged
      past the end of the log, or the deletion of segments before the active
      one. */
  ghost predicate FileMove(f: Files, f': Files, last: nat)
    requires |f.segs| > 0
  {
    || (exists hs :: f' == Files(AppendRecs(f.segs, Batch(hs, [])), f.min))
    || (Opened(f.segs, f'.segs, last + 1) && f'.min == f.min)
    || (exists k :: 0 <= k < |f.segs| && f' == Files(f.segs[k..], f.min))
  }

  /** The files at some moment after the first `at` steps of a run. */
  datatype Moment = Moment(at: nat, f: Files)

  ghost predicate NextMoment(run: seq<Group>, steps: seq<Step>, n: NodeId, a: Moment, b: Moment) {
    && a.at < |run| && n in run[a.at].nodes && |a.f.segs| > 0
    && if b.at == a.at then FileMove(a.f, b.f, LastIndex(run[a.at].nodes[n].log))
       else b.at == a.at + 1 <= |steps| && FileStep(a.f, b.f, run[a.at], steps[a.at], n)
  }

  /** A replica's files follow the run, from an empty directory. */
  ghost predicate FilesFollow(run: seq<Group>, steps: seq<Step>, n: NodeId, ms: seq<Moment>) {
    && |ms| > 0 && ms[0] == Moment(0, NEW_FILES)
    && forall j :: 0 < j < |ms| ==> NextMoment(run, steps, n, ms[j - 1], ms[j])
  }

  // ------------------------------------------------------------------
  // The invariant
  // ------------------------------------------------------------------

  /** The tag of segment `i` is honest: what came since starts at or below it,
      or nothing came since and the log ends before it, or the replica's log
      contradicts what was committed before it. */
  ghost predicate Honest(f: Files, i: nat, last: nat, h: C.History, n: NodeId, t: nat)
    requires i < |f.segs|
  {
    var later, tag := Since(f.segs, f.min, i), f.segs[i].tag;
    if |later| > 0 then later[0].index <= tag else last < tag || (tag > 0 && Doomed(h, n, t, tag - 1))
  }

  ghost predicate AllHonest(f: Files, last: nat, h: C.History, n: NodeId, t: nat) {
    && |f.segs| > 0 && Ascend(f.segs) && f.min <= f.segs[|f.segs| - 1].seqNo
    && forall i :: 0 < i < |f.segs| && f.segs[i].seqNo >= f.min ==> Honest(f, i, last, h, n, t)
  }

  lemma RotatedAscends(segs: seq<Segment>, tag: nat, hs: Option<HardState>)
    requires |segs| > 0 && Ascend(segs)
    ensures Ascend(Rotated(segs, tag, hs))
  {
  }

  lemma AppendedAscends(segs: seq<Segment>, recs: seq<Rec>)
    requires |segs| > 0 && Ascend(segs)
    ensures Ascend(AppendRecs(segs, recs))
  {
  }

  /** A new segment whose own tag is honest. */
  lemma RotateHonest(f: Files, tag: nat, hs: Option<HardState>, last: nat, h: C.History, n: NodeId, t: nat)
    requires AllHonest(f, last, h, n, t) && (last < tag || (tag > 0 && Doomed(h, n, t, tag - 1)))
    ensures AllHonest(Files(Rotated(f.segs, tag, hs), f.min), last, h, n, t)
  {
    hide Since, Batch, Doomed, Ascend;
    RotatedAscends(f.segs, tag, hs);
    var f' := Files(Rotated(f.segs, tag, hs), f.min);
    forall i | 0 < i < |f'.segs| && f'.segs[i].seqNo >= f'.min
      ensures Honest(f', i, last, h, n, t)
    {
      RotateSince(f.segs, tag, hs, f.min, i);
      assert i < |f.segs| ==> f'.segs[i] == f.segs[i] && Honest(f, i, last, h, n, t);
    }
  }

  /** A switch to a new segment, all others being ignored from now on. */
  lemma SwitchHonest(f: Files, tag: nat, hs: Option<HardState>, last: nat, h: C.History, n: NodeId, t: nat)
    requires |f.segs| > 0 && Ascend(f.segs) && last < tag && f.min <= f.segs[|f.segs| - 1].seqNo
    ensures AllHonest(Files(Rotated(f.segs, tag, hs), f.segs[|f.segs| - 1].seqNo + 1), last, h, n, t)
  {
    hide Batch, Doomed, EntriesOf, RecsFrom, LastHard;
    var min := f.segs[|f.segs| - 1].seqNo + 1;
    var segs' := Rotated(f.segs, tag, hs);
    RotatedAscends(f.segs, tag, hs);
    forall i | 0 < i < |segs'| && segs'[i].seqNo >= min
      ensures Honest(Files(segs', min), i, last, h, n, t)
    {
      assert i == |segs'| - 1 && segs'[i..] == [segs'[i]];
      Singleton(segs'[i], min);
      BatchMeans(hs, []);
    }
  }

  /** A batch that continues the log, and starts low enough where it must. */
  lemma BatchHonest(f: Files, hs: Option<HardState>, es: seq<Entry>, last: nat, last': nat, h: C.History,
                    h': C.History, n: NodeId, t: nat, t': nat)
    requires AllHonest(f, last, h, n, t)
    requires |es| > 0 ==> es[0].index <= last + 1 && forall k: nat :: Doomed(h, n, t, k) ==> es[0].index <= k
    requires |es| == 0 ==> last' == last && forall k: nat :: Doomed(h, n, t, k) ==> Doomed(h', n, t', k)
    ensures AllHonest(Files(AppendRecs(f.segs, Batch(hs, es)), f.min), last', h', n, t')
  {
    hide Since, Batch, Doomed, Ascend;
    AppendedAscends(f.segs, Batch(hs, es));
    var f' := Files(AppendRecs(f.segs, Batch(hs, es)), f.min);
    forall i | 0 < i < |f'.segs| && f'.segs[i].seqNo >= f'.min
      ensures Honest(f', i, last', h', n, t')
    {
      AppendSince(f.segs, f.min, hs, es, i);
      assert f'.segs[i].tag == f.segs[i].tag && f'.segs[i].seqNo == f.segs[i].seqNo && Honest(f, i, last, h, n, t);
    }
  }

  lemma DropHonest(f: Files, k: nat, last: nat, h: C.History, n: NodeId, t: nat)
    requires AllHonest(f, last, h, n, t) && k < |f.segs|
    ensures AllHonest(Files(f.segs[k..], f.min), last, h, n, t)
  {
    hide Since, Doomed;
    var f' := Files(f.segs[k..], f.min);
    forall i | 0 < i < |f'.segs| && f'.segs[i].seqNo >= f'.min
      ensures Honest(f', i, last, h, n, t)
    {
      DropSince(f.segs, f.min, k, i + k);
      assert f'.segs[i] == f.segs[i + k] && Honest(f, i + k, last, h, n, t);
    }
  }

  lemma MoveHonest(f: Files, f': Files, last: nat, h: C.History, n: NodeId, t: nat)
    requires AllHonest(f, last, h, n, t) && FileMove(f, f', last)
    ensures AllHonest(f', last, h, n, t)
  {
    hide AllHonest, Batch, Doomed, Ascend;
    HonestThere(f, last, h, n, t);
    if hs :| f' == Files(AppendRecs(f.segs, Batch(hs, [])), f.min) {
      BatchHonest(f, hs, [], last, last, h, h, n, t, t);
    } else if Opened(f.segs, f'.segs, last + 1) && f'.min == f.min {
      var tag := last + 1;
      var hs :| f'.segs == Rotated(f.segs, tag, hs);
      RotateHonest(f, last + 1, hs, last, h, n, t);
    } else {
      var k :| 0 <= k < |f.segs| && f' == Files(f.segs[k..], f.min);
      DropHonest(f, k, last, h, n, t);
    }
  }

  lemma HonestThere(f: Files, last: nat, h: C.History, n: NodeId, t: nat)
    requires AllHonest(f, last, h, n, t)
    ensures |f.segs| > 0 && Ascend(f.segs) && f.min <= f.segs[|f.segs| - 1].seqNo
  {
  }

  /** Honest tags let go only of what the snapshot covers. */
  lemma HonestKeeps(s: Group, h: C.History, n: NodeId, f: Files, snap: nat)
    requires Inv(s, h) && n in s.nodes && snap <= s.nodes[n].commitIndex
    requires AllHonest(f, LastIndex(s.nodes[n].log), h, n, s.nodes[n].term)
    ensures KeepsAt(f.segs, f.min, LastIndex(s.nodes[n].log), snap)
  {
    hide Inv, Since, Doomed, Ascend;
    var last := LastIndex(s.nodes[n].log);
    forall i | 0 < i < |f.segs| && f.segs[i].seqNo >= f.min && f.segs[i].tag <= snap + 1
      ensures Kept(f.segs, f.min, last, snap, i)
    {
      assert Honest(f, i, last, h, n, s.nodes[n].term);
      if |Since(f.segs, f.min, i)| == 0 && last >= f.segs[i].tag {
        DoomedBelow(s, h, n, f.segs[i].tag - 1);
      }
    }
  }

  // ------------------------------------------------------------------
  // Steps and runs
  // ------------------------------------------------------------------

  lemma ActedNode(s: Group, step: Step)
    requires Enabled(s, step) && !step.Transmit?
    ensures var s', n := Do(s, step), Actor(step); n in s.nodes && s'.nodes == s.nodes[n := EffectOf(s, step).node]
  {
    hide Do, Enabled, EffectOf;
    DoShape(s, step);
  }

  /** What becomes of contradictions over a step that writes nothing. */
  lemma DoomedKept(s: Group, h: C.History, step: Step, h': C.History, k: nat)
    requires Stepped(s, h, step, h')
    requires |Wrote(s.nodes[Actor(step)], step)| == 0
             && !(step.AnswerSnapshot? && Discards(s.nodes[Actor(step)], step.m))
    requires Doomed(h, Actor(step), s.nodes[Actor(step)].term, k)
    ensures Actor(step) in Do(s, step).nodes && Doomed(h', Actor(step), Do(s, step).nodes[Actor(step)].term, k)
  {
    hide Inv, Enabled, Do, EffectOf, Later, Doomed, Wrote, Discards, C.Inv, C.LogsOk, C.LeaderLogsOk, C.AcksOk,
         CoreOk, SameEnd, Linked;
    var n := Actor(step);
    ActedNode(s, step);
    UnwrittenEnds(s, h, step);
    TermsGrow(s, h, step);
    CoreAt(s, h, n);
    CoreAt(Do(s, step), h', n);
    EndsAlike(h, n, s.nodes[n], h', Do(s, step).nodes[n]);
    DoomedStays(h, h', n, s.nodes[n].term, Do(s, step).nodes[n].term, k);
  }

  lemma EndsAlike(h: C.History, n: NodeId, s: Node, h': C.History, s': Node)
    requires CoreOk(h, n, s) && C.LogsOk(h.leaderLog, h.logs) && CoreOk(h', n, s') && C.LogsOk(h'.leaderLog, h'.logs)
             && Later(h, h')
    requires SameEnd(s.log, s'.log)
    ensures n in h.logs && n in h'.logs && |h.logs[n]| == |h'.logs[n]| && Agree(h.logs[n], h'.logs[n], |h.logs[n]|)
  {
    hide Later, C.LogsOk;
    SameLog(h, n, s, h', s');
  }

  lemma CoreAt(s: Group, h: C.History, n: NodeId)
    requires Inv(s, h) && n in s.nodes
    ensures CoreOk(h, n, s.nodes[n]) && C.LogsOk(h.leaderLog, h.logs)
  {
    hide Linked, NodeOk, CoreOk, LeaderOk, CandidateOk, WaitersOk, DiskOk, C.Inv, C.LogsOk, C.LeaderLogsOk, C.AcksOk;
    InvParted(s, h);
    NodeAt(s, h, n);
    NodeKnown(h, s.machine, s.now, Others(s.peers, n), n, s.nodes[n]);
    C.LogParts(h);
  }

  /** A batch written by a step keeps tags honest. */
  lemma WriteHonest(s: Group, h: C.History, step: Step, h': C.History, f: Files, hs: Option<HardState>)
    requires Stepped(s, h, step, h')
    requires !(step.AnswerSnapshot? && Discards(s.nodes[Actor(step)], step.m))
    requires AllHonest(f, LastIndex(s.nodes[Actor(step)].log), h, Actor(step), s.nodes[Actor(step)].term)
    ensures var n := Actor(step); var node' := Do(s, step).nodes[n];
            AllHonest(Files(AppendRecs(f.segs, Batch(hs, Wrote(s.nodes[n], step))), f.min), LastIndex(node'.log), h',
                  n, node'.term)
  {
    hide Inv, Enabled, Do, EffectOf, Later, Doomed, Discards, AllHonest, Batch, AppendWrites, ProposalEntries;
    var n := Actor(step);
    ActedNode(s, step);
    var node, node', es := s.nodes[n], Do(s, step).nodes[n], Wrote(s.nodes[n], step);
    if |es| > 0 {
      StepWritesNext(s, h, step);
      forall k: nat | Doomed(h, n, node.term, k)
        ensures es[0].index <= k
      {
        if step.WinElection? {
          WinWritesLow(s, h, n, step.voters, h', k);
        } else {
          StepWritesLow(s, h, step, n, es, k);
        }
      }
    } else {
      UnwrittenEnds(s, h, step);
      forall k: nat | Doomed(h, n, node.term, k)
        ensures Doomed(h', n, node'.term, k)
      {
        DoomedKept(s, h, step, h', k);
      }
    }
    BatchHonest(f, hs, es, LastIndex(node.log), LastIndex(node'.log), h, h', n, node.term, node'.term);
  }

  lemma DiscardEnds(s: Group, n: NodeId, m: Msg)
    requires Enabled(s, AnswerSnapshot(n, m)) && Discards(s.nodes[n], m)
    ensures n in Do(s, AnswerSnapshot(n, m)).nodes
            && LastIndex(Do(s, AnswerSnapshot(n, m)).nodes[n].log) == m.install.snap.index
  {
    hide Follow, SaveSnapshot;
    FollowSaves(s.nodes[n], m.install.term, m.install.leader);
  }

  /** An install cut short writes nothing and leaves the request's term. */
  lemma CutInstallTerm(s: Group, h: C.History, n: NodeId, m: Msg, k: nat)
    requires Inv(s, h) && Enabled(s, CutAnswer(n, m, k)) && Discards(s.nodes[n], m)
    ensures n in Do(s, CutAnswer(n, m, k)).nodes && Do(s, CutAnswer(n, m, k)).nodes[n].term == m.install.term
    ensures Wrote(s.nodes[n], CutAnswer(n, m, k)) == []
  {
    hide Inv;
    TermPersisted(s, h, n);
  }

  lemma CutHonest(s: Group, h: C.History, step: Step, h': C.History, f: Files, f': Files)
    requires Inv(s, h) && Enabled(s, step) && step.CutAnswer? && Inv(Do(s, step), h') && Later(h, h')
             && Discards(s.nodes[step.n], step.m)
    requires Covered(h, step.m.install.term, step.m.install.snap.index)
    requires AllHonest(f, LastIndex(s.nodes[step.n].log), h, step.n, s.nodes[step.n].term)
    requires f' == f || (Opened(f.segs, f'.segs, step.m.install.snap.index + 1) && f'.min == f.min)
    ensures var node' := Do(s, step).nodes[step.n]; AllHonest(f', LastIndex(node'.log), h', step.n, node'.term)
  {
    hide Inv, Do, EffectOf, Later, Doomed, AllHonest, Covered, Discards, SameEnd, CoreOk, C.LogsOk;
    var n, m := step.n, step.m;
    var node := s.nodes[n];
    ActedNode(s, step);
    var node' := Do(s, step).nodes[n];
    CutInstallTerm(s, h, n, m, step.k);
    assert AllHonest(f, LastIndex(node'.log), h', n, node'.term) by { StillHonest(s, h, step, h', f); }
    if f' != f {
      assert m.SnapMsg? && m.to == n by { DiscardsSnap(s, step); }
      DiscardDooms(s, h, n, m);
      UnwrittenEnds(s, h, step);
      CoreAt(s, h, n);
      CoreAt(Do(s, step), h', n);
      EndsAlike(h, n, node, h', node');
      DoomedStays(h, h', n, m.install.term, node'.term, m.install.snap.index);
      HonestThere(f, LastIndex(node'.log), h', n, node'.term);
      var tag := m.install.snap.index + 1;
      var hs :| f'.segs == Rotated(f.segs, tag, hs);
      RotateHonest(f, tag, hs, LastIndex(node'.log), h', n, node'.term);
    }
  }

  lemma DiscardsSnap(s: Group, step: Step)
    requires Enabled(s, step) && step.CutAnswer? && Discards(s.nodes[step.n], step.m)
    ensures step.m.SnapMsg? && step.m.to == step.n && step.m in s.net
  {
  }

  /** Tags stay honest over a step that writes nothing. */
  lemma StillHonest(s: Group, h: C.History, step: Step, h': C.History, f: Files)
    requires Stepped(s, h, step, h')
    requires !(step.AnswerSnapshot? && Discards(s.nodes[Actor(step)], step.m))
             && Wrote(s.nodes[Actor(step)], step) == []
    requires AllHonest(f, LastIndex(s.nodes[Actor(step)].log), h, Actor(step), s.nodes[Actor(step)].term)
    ensures Actor(step) in Do(s, step).nodes
    ensures var n := Actor(step); var node' := Do(s, step).nodes[n];
            AllHonest(f, LastIndex(node'.log), h', n, node'.term)
  {
    hide Inv, Enabled, Do, EffectOf, Later, Doomed, Wrote, Discards, Since, Ascend;
    var n := Actor(step);
    ActedNode(s, step);
    UnwrittenEnds(s, h, step);
    var node, node' := s.nodes[n], Do(s, step).nodes[n];
    forall i | 0 < i < |f.segs| && f.segs[i].seqNo >= f.min
      ensures Honest(f, i, LastIndex(node'.log), h', n, node'.term)
    {
      assert Honest(f, i, LastIndex(node.log), h, n, node.term);
      if |Since(f.segs, f.min, i)| == 0 && LastIndex(node.log) >= f.segs[i].tag {
        DoomedKept(s, h, step, h', f.segs[i].tag - 1);
      }
    }
  }

  /** Tags stay honest over other replicas' steps. */
  lemma AsideHonest(s: Group, h: C.History, s': Group, h': C.History, n: NodeId, f: Files)
    requires Inv(s, h) && Inv(s', h') && Later(h, h') && n in s.nodes && n in s'.nodes && s'.nodes[n] == s.nodes[n]
    requires AllHonest(f, LastIndex(s.nodes[n].log), h, n, s.nodes[n].term)
    ensures AllHonest(f, LastIndex(s.nodes[n].log), h', n, s.nodes[n].term)
  {
    hide Inv, Later, Doomed, Since, Ascend, CoreOk, C.LogsOk;
    var node := s.nodes[n];
    CoreAt(s, h, n);
    CoreAt(s', h', n);
    EndsAlike(h, n, node, h', node);
    forall i | 0 < i < |f.segs| && f.segs[i].seqNo >= f.min
      ensures Honest(f, i, LastIndex(node.log), h', n, node.term)
    {
      assert Honest(f, i, LastIndex(node.log), h, n, node.term);
      if |Since(f.segs, f.min, i)| == 0 && LastIndex(node.log) >= f.segs[i].tag {
        DoomedStays(h, h', n, node.term, node.term, f.segs[i].tag - 1);
      }
    }
  }

  lemma SwitchedHonest(s: Group, h: C.History, step: Step, h': C.History, f: Files, f': Files)
    requires Enabled(s, step) && step.AnswerSnapshot? && Discards(s.nodes[step.n], step.m)
    requires AllHonest(f, LastIndex(s.nodes[step.n].log), h, step.n, s.nodes[step.n].term)
    requires Opened(f.segs, f'.segs, step.m.install.snap.index + 1) && f'.min == f.segs[|f.segs| - 1].seqNo + 1
    ensures step.n in Do(s, step).nodes
    ensures var node' := Do(s, step).nodes[step.n]; AllHonest(f', LastIndex(node'.log), h', step.n, node'.term)
  {
    hide Enabled, Do, Doomed, AllHonest, Batch, Ascend;
    ActedNode(s, step);
    DiscardEnds(s, step.n, step.m);
    HonestThere(f, LastIndex(s.nodes[step.n].log), h, step.n, s.nodes[step.n].term);
    var tag := step.m.install.snap.index + 1;
    var hs :| f'.segs == Rotated(f.segs, tag, hs);
    SwitchHonest(f, tag, hs, step.m.install.snap.index, h', step.n, Do(s, step).nodes[step.n].term);
  }

  /** Every step keeps a replica's tags honest, provided that a snapshot whose
      install is cut short covers only what was committed in time. */
  lemma StepHonest(s: Group, h: C.History, step: Step, h': C.History, n: NodeId, f: Files, f': Files)
    requires Inv(s, h) && Enabled(s, step) && Inv(Do(s, step), h') && Later(h, h') && n in s.nodes
    requires AllHonest(f, LastIndex(s.nodes[n].log), h, n, s.nodes[n].term) && |f.segs| > 0
             && FileStep(f, f', s, step, n)
    requires step.CutAnswer? && step.n == n && Discards(s.nodes[n], step.m) ==>
               Covered(h, step.m.install.term, step.m.install.snap.index)
    ensures n in Do(s, step).nodes
    ensures var node' := Do(s, step).nodes[n]; AllHonest(f', LastIndex(node'.log), h', n, node'.term)
  {
    hide Inv, Enabled, Do, EffectOf, Later, Doomed, Wrote, AllHonest, Covered, Discards, Opened, Batch;
    if step.Transmit? || Actor(step) != n {
      OthersUntouched(s, step, n);
      AsideHonest(s, h, Do(s, step), h', n, f);
    } else {
      ActedNode(s, step);
      if step.AnswerSnapshot? && Discards(s.nodes[n], step.m) {
        SwitchedHonest(s, h, step, h', f, f');
      } else if step.CutAnswer? && Discards(s.nodes[n], step.m) {
        CutHonest(s, h, step, h', f, f');
      } else {
        var hs :| f' == Files(AppendRecs(f.segs, Batch(hs, Wrote(s.nodes[n], step))), f.min);
        WriteHonest(s, h, step, h', f, hs);
      }
    }
  }

  lemma OthersUntouched(s: Group, step: Step, n: NodeId)
    requires Enabled(s, step) && n in s.nodes && (step.Transmit? || Actor(step) != n)
    ensures n in Do(s, step).nodes && Do(s, step).nodes[n] == s.nodes[n]
  {
    hide Do, Enabled, EffectOf;
    DoShape(s, step);
  }

  /** An install that a crash cuts short is of a snapshot in time, too. */
  ghost predicate CutInTime(run: seq<Group>, i: nat, step: Step) {
    step.CutAnswer? && i < |run| && Installs(run[i], step.n, step.m) ==>
      CommittedBy(run, i, step.m.install.term, step.m.install.snap.index)
  }

  lemma CutCovered(hs: seq<C.History>, run: seq<Group>, i: nat, step: Step, n: NodeId)
    requires Explains(hs, run) && i < |run| && CutInTime(run, i, step) && n in run[i].nodes
    ensures step.CutAnswer? && step.n == n && Discards(run[i].nodes[n], step.m) ==>
              Covered(hs[i], step.m.install.term, step.m.install.snap.index)
  {
    hide Explains, Covered, CommittedBy;
    if step.CutAnswer? && step.n == n && Discards(run[i].nodes[n], step.m) {
      CommittedIsCovered(hs, run, i, step.m.install.term, step.m.install.snap.index);
    }
  }

  lemma {:induction false} FilesHonest(run: seq<Group>, steps: seq<Step>, hs: seq<C.History>, n: NodeId,
                                       ms: seq<Moment>, j: nat)
    requires IsRun(run, steps) && Explains(hs, run) && FilesFollow(run, steps, n, ms) && j < |ms|
    requires (forall i :: 0 <= i < |steps| ==> CutInTime(run, i, steps[i])) && n in run[0].nodes
    ensures ms[j].at < |run| && n in run[ms[j].at].nodes
    ensures var s, i := run[ms[j].at].nodes[n], ms[j].at; AllHonest(ms[j].f, LastIndex(s.log), hs[i], n, s.term)
    decreases j
  {
    hide Inv, Enabled, Do, Init, Later, CutInTime, FileMove, FileStep, AllHonest, Doomed, CommittedBy;
    if j == 0 {
      NewHonest(LastIndex(run[0].nodes[n].log), hs[0], n, run[0].nodes[n].term);
    } else {
      FilesHonest(run, steps, hs, n, ms, j - 1);
      var a, b := ms[j - 1], ms[j];
      assert NextMoment(run, steps, n, a, b);
      if b.at == a.at {
        MoveHonest(a.f, b.f, LastIndex(run[a.at].nodes[n].log), hs[a.at], n, run[a.at].nodes[n].term);
      } else {
        CutCovered(hs, run, a.at, steps[a.at], n);
        assert Later(hs[a.at], hs[a.at + 1]);
        StepHonest(run[a.at], hs[a.at], steps[a.at], hs[a.at + 1], n, a.f, b.f);
      }
    }
  }

  lemma NewHonest(last: nat, h: C.History, n: NodeId, t: nat)
    ensures AllHonest(NEW_FILES, last, h, n, t)
  {
  }

  /** In every timely run in which installs cut short by a crash are in time,
      too, whatever a replica's files have been through, a snapshot of what the
      replica has committed lets go only of segments it covers: the condition
      under which renaming it keeps the storage sound. */
  lemma SnapshotsKeepLog(run: seq<Group>, steps: seq<Step>, n: NodeId, ms: seq<Moment>, j: nat, snap: nat)
    requires TimelyRun(run, steps) && (forall i :: 0 <= i < |steps| ==> CutInTime(run, i, steps[i]))
    requires n in run[0].nodes && FilesFollow(run, steps, n, ms) && j < |ms|
    requires ms[j].at < |run| && n in run[ms[j].at].nodes && snap <= run[ms[j].at].nodes[n].commitIndex
    ensures KeepsAt(ms[j].f.segs, ms[j].f.min, LastIndex(run[ms[j].at].nodes[n].log), snap)
  {
    hide Inv, Enabled, Do, Init, Later, CutInTime, FilesFollow, AllHonest, Timely;
    var hs := RunExplained(run, steps);
    FilesHonest(run, steps, hs, n, ms, j);
    HonestKeeps(run[ms[j].at], hs[ms[j].at], n, ms[j].f, snap);
  }

  /** Either guard on senders puts every cut-short install in time. */
  lemma GuardedCutsInTime(run: seq<Group>, steps: seq<Step>)
    requires Guarded(run, steps)
    ensures TimelyRun(run, steps) && forall i :: 0 <= i < |steps| ==> CutInTime(run, i, steps[i])
  {
    hide Guarded, Enabled, Do, Init, Explains, CommittedBy, Timely, Installs;
    GuardedIsTimely(run, steps);
    var hs := RunExplained(run, steps);
    forall i | 0 <= i < |steps|
      ensures CutInTime(run, i, steps[i])
    {
      if steps[i].CutAnswer? && Installs(run[i], steps[i].n, steps[i].m) {
        InNet(run[i], steps[i]);
        InstallsSnap(run[i], steps[i].n, steps[i].m);
        UnderWayCommitted(run, steps, hs, i, steps[i].m);
      }
    }
  }

  lemma InstallsSnap(s: Group, n: NodeId, m: Msg)
    requires Installs(s, n, m)
    ensures m.SnapMsg?
  {
  }

  /** With a guard on senders nothing else is asked of the run: whatever its
      files have been through, crashes inside installs included, a replica's
      snapshot of what it has committed keeps its log. */
  lemma GuardedSnapshotsKeepLog(run: seq<Group>, steps: seq<Step>, n: NodeId, ms: seq<Moment>, j: nat, snap: nat)
    requires Guarded(run, steps) && n in run[0].nodes && FilesFollow(run, steps, n, ms) && j < |ms|
    requires ms[j].at < |run| && n in run[ms[j].at].nodes && snap <= run[ms[j].at].nodes[n].commitIndex
    ensures KeepsAt(ms[j].f.segs, ms[j].f.min, LastIndex(run[ms[j].at].nodes[n].log), snap)
  {
    hide Guarded, TimelyRun, CutInTime, FilesFollow, KeepsAt;
    GuardedCutsInTime(run, steps);
    SnapshotsKeepLog(run, steps, n, ms, j, snap);
  }
}
