/** What an exchange achieves at the receiver, and what a node sends: each step
    of elections and replication, by what it must leave behind. */
module Receivers {
  import opened Types
  import opened LogSpec
  import opened DiskSpec
  import opened CommitRule
  import opened Replica
  import opened Cluster
  import opened Link
  import opened Steps
  import opened Safety
  import opened Handlers
  import opened Senders
  import opened Replies
  import C = Consensus

  // ------------------------------------------------------------------
  // AppendEntries
  // ------------------------------------------------------------------

  /** The log goes on where the request starts: inside the snapshot, or at an
      entry of the term it names. */
  predicate Meets(l: LogState, req: AppendReq) {
    req.prevIndex < l.snapIndex || (req.prevIndex <= LastIndex(l) && TermIn(l, req.prevIndex) == req.prevTerm)
  }

  function EndOfReq(req: AppendReq): nat {
    req.prevIndex + |req.entries|
  }

  /** The receiver's verdict and what it makes of term, leader and commit index. */
  ghost predicate Answered(a: Node, b: Node, req: AppendReq, resp: AppendResp) {
    if req.term < a.term then b == a && resp == AppendResp(a.term, false, 0, 0)
    else
      && b.term == req.term == resp.term && b.role == Follower && b.leaderId == req.leader
      && b.log.snapIndex == a.log.snapIndex
      && (resp.success <==> Meets(a.log, req))
      && (resp.success ==> b.commitIndex == Max(a.commitIndex, Min(req.commit, EndOfReq(req))))
      && (!resp.success ==> b.log == a.log && b.commitIndex == a.commitIndex && HintOf(a.log, req, resp))
  }

  lemma FollowShape(s: Node, t: nat, leader: NodeId)
    requires t >= s.term
    ensures var f := Follow(s, t, leader).0;
            && f.term == t && f.role == Follower && f.leaderId == leader && f.log == s.log
            && f.commitIndex == s.commitIndex && f.appl == s.appl
            && f.disk.snap == s.disk.snap && f.disk.entries == s.disk.entries
  {
  }

  lemma MergeKeeps(s: Node, es: seq<Entry>)
    ensures var s' := MergeEntries(s, es);
            && s'.term == s.term && s'.role == s.role && s'.leaderId == s.leaderId && s'.commitIndex == s.commitIndex
            && s'.log.snapIndex == s.log.snapIndex
  {
    hide Fresh, Save;
  }

  lemma SameTermAnswers(s: Node, req: AppendReq)
    requires s.term == req.term && s.role == Follower && s.leaderId == req.leader && s.log.snapIndex <= s.commitIndex
    ensures var r := AppendSameTerm(s, req); Answered(s, r.0, req, r.1)
  {
    hide MergeEntries, FirstIndexOfTerm, TermIn;
    if Skip(s, req) <= |req.entries| {
      MergeKeeps(s, req.entries[Skip(s, req)..]);
    }
  }

  lemma HandlerAnswers(s: Node, req: AppendReq)
    requires s.log.snapIndex <= s.commitIndex
    ensures var r := HandleAppendEntries(s, req); Answered(s, r.0, req, r.1)
  {
    hide AppendSameTerm, Follow, HintOf, Meets;
    if req.term >= s.term {
      FollowShape(s, req.term, req.leader);
      SameTermAnswers(Follow(s, req.term, req.leader).0, req);
    }
  }

  /** `e` is in the log at `k`, in memory and on disk, where no snapshot covers it. */
  predicate HoldsAt(s: Node, k: nat, e: Entry) {
    && (k > s.log.snapIndex ==> k <= LastIndex(s.log) && EntryAt(s.log, k) == e)
    && (k > SnapIndex(s.disk) ==>
          k <= SnapIndex(s.disk) + |s.disk.entries| && s.disk.entries[k - SnapIndex(s.disk) - 1] == e)
  }

  /** Every entry of the request is held. */
  ghost predicate HoldsAll(s: Node, req: AppendReq) {
    forall j :: 0 <= j < |req.entries| ==> HoldsAt(s, req.prevIndex + 1 + j, req.entries[j])
  }

  lemma HoldsFromFull(s: Node, full: seq<Entry>, req: AppendReq)
    requires Compacts(full, s.log) && SnapIndex(s.disk) <= |full| && s.disk.entries == full[SnapIndex(s.disk)..]
    requires EndOfReq(req) <= |full| && full[req.prevIndex..EndOfReq(req)] == req.entries
    ensures HoldsAll(s, req)
  {
    forall j | 0 <= j < |req.entries|
      ensures HoldsAt(s, req.prevIndex + 1 + j, req.entries[j])
    {
      assert req.entries[j] == full[req.prevIndex + j];
    }
  }

  lemma AckedHolds(h: C.History, w: Machine, now: nat, others: seq<NodeId>, n: NodeId, s: Node, req: AppendReq,
                   sentAt: nat, resp: AppendResp)
    requires NodeOk(h, w, now, others, n, s) && C.AcksOk(h.term, h.leaderLog, h.logs, h.acks)
    requires AppendReqOk(h, n, req) && AppendReplyOk(h, n, req, sentAt, resp) && resp.success && s.term == req.term
    ensures HoldsAll(s, req)
  {
    hide LeaderOk, CandidateOk, WaitersOk, ApplierOk, Committed, C.AcksOk, HoldsAll, ConflictOk, NotPastBy;
    if |req.entries| > 0 {
      AckedAgrees(h, n, req.term, EndOfReq(req));
      assert h.logs[n][req.prevIndex..EndOfReq(req)] == req.entries;
      HoldsFromFull(s, h.logs[n], req);
    } else {
      NothingToHold(s, req);
    }
  }

  lemma NothingToHold(s: Node, req: AppendReq)
    requires |req.entries| == 0
    ensures HoldsAll(s, req)
  {
  }

  lemma AckedAgrees(h: C.History, n: NodeId, t: nat, k: nat)
    requires C.AcksOk(h.term, h.leaderLog, h.logs, h.acks) && n in h.term && h.term[n] == t
    requires 0 < k <= C.Acked(h.acks, n, t)
    ensures t in h.leaderLog && n in h.logs && Agree(h.leaderLog[t], h.logs[n], k)
  {
  }

  /** Where the log ends after a request that changed it. */
  lemma MergedEnd(s: Node, req: AppendReq)
    requires SafeToWrite(s, ToWrite(s, req)) && AppendSameTerm(s, req).1.success
    requires forall k :: 0 <= k < |req.entries| ==> req.entries[k].index == req.prevIndex + 1 + k
    ensures var l := AppendSameTerm(s, req).0.log; l == s.log || LastIndex(l) == EndOfReq(req)
  {
    hide Fresh, TermIn, FirstIndexOfTerm, Save;
    var skip := Skip(s, req);
    if skip <= |req.entries| {
      var news := Fresh(s.log, req.entries[skip..]);
      FreshIsSuffix(s.log, req.entries[skip..]);
      if |news| > 0 {
        assert news[|news| - 1] == req.entries[|req.entries| - 1];
      }
    }
  }

  lemma {:induction false} FreshIsSuffix(l: LogState, es: seq<Entry>)
    ensures |Fresh(l, es)| <= |es| && Fresh(l, es) == es[|es| - |Fresh(l, es)|..]
  {
    if |es| > 0 {
      FreshIsSuffix(l, es[1..]);
    }
  }

  lemma ReplySent(s: Group, n: NodeId, m: Msg)
    requires Enabled(s, AnswerAppend(n, m))
    ensures var s' := Do(s, AnswerAppend(n, m)); var r := HandleAppendEntries(s.nodes[n], m.append);
            s'.nodes == s.nodes[n := r.0] && s'.net == s.net + {AppendReply(n, m.append, m.sentAt, r.1)}
  {
    hide HandleAppendEntries;
  }

  lemma EntriesInOrder(h: C.History, n: NodeId, req: AppendReq)
    requires AppendReqOk(h, n, req) && C.LeaderLogsOk(h.leaderLog)
    ensures forall k :: 0 <= k < |req.entries| ==> req.entries[k].index == req.prevIndex + 1 + k
  {
    hide Committed;
    var lead := h.leaderLog[req.term];
    forall k | 0 <= k < |req.entries|
      ensures req.entries[k].index == req.prevIndex + 1 + k
    {
      assert req.entries[k] == lead[req.prevIndex + k];
    }
  }

  /** What the receiver of AppendEntries does: it accepts exactly if its log
      goes on where the request starts. Then it holds all the entries, durably;
      its log is as it was, or ends with the last of them; and its commit index
      moves as far as the leader's and the request allow. Otherwise it keeps
      its log and says where to resume. */
  lemma AppendEntriesAnswered(run: seq<Group>, steps: seq<Step>, i: nat, n: NodeId, m: Msg) returns (resp: AppendResp)
    requires TimelyRun(run, steps) && i < |steps| && steps[i] == AnswerAppend(n, m)
    ensures m.AppendMsg? && n in run[i].nodes && n in run[i + 1].nodes
    ensures AppendReply(n, m.append, m.sentAt, resp) in run[i + 1].net
    ensures var a, b := run[i].nodes[n], run[i + 1].nodes[n];
            && Answered(a, b, m.append, resp)
            && (resp.success ==> HoldsAll(b, m.append) && (b.log == a.log || LastIndex(b.log) == EndOfReq(m.append)))
  {
    hide Init, Do, Timely, Inv, Later, HandleAppendEntries, Answered, HoldsAll, EndOfReq;
    var hs := RunExplained(run, steps);
    var s, req := run[i], m.append;
    var r := HandleAppendEntries(s.nodes[n], req);
    resp := r.1;
    SnapWithinCommit(s, hs[i], n);
    HandlerAnswers(s.nodes[n], req);
    ReplySent(s, n, m);
    if resp.success {
      SuccessInTerm(s.nodes[n], req);
      SuccessHolds(run[i + 1], hs[i + 1], n, AppendReply(n, req, m.sentAt, resp));
      LogAfterSuccess(run, steps, hs, i, n, m);
    }
  }

  lemma SuccessInTerm(s: Node, req: AppendReq)
    requires HandleAppendEntries(s, req).1.success
    ensures req.term >= s.term && HandleAppendEntries(s, req).0.term == req.term
  {
    hide Fresh, Save, TermIn, FirstIndexOfTerm;
  }

  lemma SuccessHolds(s: Group, h: C.History, n: NodeId, r: Msg)
    requires Inv(s, h) && n in s.nodes && r in s.net && r.AppendReply? && r.from == n && r.appendResp.success
    requires s.nodes[n].term == r.append.term
    ensures HoldsAll(s.nodes[n], r.append)
  {
    hide Inv, Linked, C.Inv, NodeOk, AppendReqOk, AppendReplyOk, C.AcksOk, C.LeaderLogsOk, HoldsAll;
    InvParted(s, h);
    NodeAt(s, h, n);
    MsgAt(s, h, r);
    C.LogParts(h);
    AckedHolds(h, s.machine, s.now, Others(s.peers, n), n, s.nodes[n], r.append, r.sentAt, r.appendResp);
  }

  lemma LogAfterSuccess(run: seq<Group>, steps: seq<Step>, hs: seq<C.History>, i: nat, n: NodeId, m: Msg)
    requires TimelyRun(run, steps) && Explains(hs, run) && i < |run| && n in run[i].nodes
    requires m in run[i].net && m.AppendMsg? && m.to == n && m.append.term >= run[i].nodes[n].term
    requires HandleAppendEntries(run[i].nodes[n], m.append).1.success
    ensures var a, l := run[i].nodes[n].log, HandleAppendEntries(run[i].nodes[n], m.append).0.log;
            l == a || LastIndex(l) == EndOfReq(m.append)
  {
    hide TimelyRun, Inv, Linked, C.Inv, C.LeaderLogsOk, C.AcksOk, AppendSameTerm, SafeToWrite, Later, Follow, ToWrite;
    var s, req := run[i], m.append;
    InvParted(s, hs[i]);
    MsgAt(s, hs[i], m);
    C.LogParts(hs[i]);
    EntriesInOrder(hs[i], n, req);
    AppendEntriesIsSafe(run, steps, i, n, m);
    var f := Follow(s.nodes[n], req.term, req.leader).0;
    FollowShape(s.nodes[n], req.term, req.leader);
    MergedEnd(f, req);
  }

  // ------------------------------------------------------------------
  // InstallSnapshot
  // ------------------------------------------------------------------

  /** What the receiver of a snapshot does: one of what it has committed changes
      nothing; any other becomes its commit index and the start of its log,
      waits to be restored, and is on disk; the entries after it stay exactly
      if the log agrees with it at its index. */
  ghost predicate Installed(a: Node, b: Node, req: SnapReq) {
    if req.term < a.term then b == a
    else
      && b.term == req.term && b.role == Follower && b.leaderId == req.leader
      && if req.snap.index <= a.commitIndex then
           && b.log == a.log && b.commitIndex == a.commitIndex && b.appl == a.appl
           && b.disk.snap == a.disk.snap && b.disk.entries == a.disk.entries
         else
           var keep := Has(a.log, req.snap.index) && TermIn(a.log, req.snap.index) == req.snap.term;
           && b.commitIndex == req.snap.index && b.appl == a.appl.(pending := Some(req.snap))
           && b.log.snapIndex == req.snap.index && b.log.snapTerm == req.snap.term && b.disk.snap == Some(req.snap)
           && LastIndex(b.log) == (if keep then LastIndex(a.log) else req.snap.index)
           && forall k :: req.snap.index < k <= LastIndex(b.log) ==> EntryAt(b.log, k) == EntryAt(a.log, k)
  }

  lemma HandlerInstalls(s: Node, req: SnapReq)
    requires s.log.snapIndex <= s.commitIndex && SnapIndex(s.disk) <= s.commitIndex
    ensures Installed(s, HandleInstallSnapshot(s, req).0, req)
    ensures HandleInstallSnapshot(s, req).1 == Max(s.term, req.term)
  {
    hide Follow, TermIn;
    if req.term >= s.term {
      FollowShape(s, req.term, req.leader);
    }
  }

  lemma InstallSnapshotAnswered(run: seq<Group>, steps: seq<Step>, i: nat, n: NodeId, m: Msg)
    requires TimelyRun(run, steps) && i < |steps| && steps[i] == AnswerSnapshot(n, m)
    ensures m.SnapMsg? && n in run[i].nodes && n in run[i + 1].nodes
    ensures Installed(run[i].nodes[n], run[i + 1].nodes[n], m.install)
    ensures SnapReply(n, m.install, m.sentAt, Max(run[i].nodes[n].term, m.install.term)) in run[i + 1].net
  {
    hide Init, Do, Timely, Inv, Later, Installed, HandleInstallSnapshot;
    var hs := RunExplained(run, steps);
    SnapWithinCommit(run[i], hs[i], n);
    StoredWithinCommit(run[i], hs[i], n);
    HandlerInstalls(run[i].nodes[n], m.install);
    DoShape(run[i], steps[i]);
  }

  // ------------------------------------------------------------------
  // What a leader sends
  // ------------------------------------------------------------------

  /** The request for a peer starts at its next index, carries as many entries
      as the log has and the limit allows, and the leader's commit index. */
  lemma RequestBuilt(run: seq<Group>, steps: seq<Step>, i: nat, n: NodeId, peer: NodeId) returns (req: AppendReq)
    requires TimelyRun(run, steps) && i < |steps| && steps[i] == BuildAppend(n, peer)
    ensures n in run[i].nodes && PreparedAppend(peer, req) in run[i + 1].prepared
    ensures var s := run[i].nodes[n];
            && req.term == s.term && req.leader == n && req.commit == s.commitIndex
            && req.prevIndex + 1 == Get(s.lead.nextIndex, peer) && s.log.snapIndex <= req.prevIndex <= LastIndex(s.log)
            && req.prevTerm == TermIn(s.log, req.prevIndex)
            && |req.entries| == Min(run[i].maxAppendEntries, LastIndex(s.log) - req.prevIndex)
            && forall k :: 0 <= k < |req.entries| ==> req.entries[k] == EntryAt(s.log, req.prevIndex + 1 + k)
  {
    hide Init, Timely, TermIn;
    req := PrepareAppend(Cfg(run[i], n), run[i].nodes[n], peer);
    ReplicationInRange(run, steps, i, n, peer);
  }

  // ------------------------------------------------------------------
  // Elections
  // ------------------------------------------------------------------

  /** A campaign is in the next term, with its own vote on disk first, and asks
      everyone with the end of its log. */
  lemma CampaignBegun(s: Group, step: Step)
    requires Enabled(s, step) && (step.Campaign? || step.CampaignNow?)
    ensures var n, s' := step.n, Do(s, step); var a, b := s.nodes[n], s'.nodes[n];
            && b.role == Candidate && b.term == a.term + 1 && b.votedFor == n && b.leaderId == NO_NODE
            && b.disk.hs == Some(HardState(a.term + 1, n)) && b.log == a.log && b.commitIndex == a.commitIndex
            && VoteMsg(VoteReq(a.term + 1, n, LastIndex(a.log), LastTermIn(a.log))) in s'.net
  {
    hide Do, LastTermIn;
    DoShape(s, step);
  }

  /** A winner appends a no-op of its term and assumes of every peer that it is
      as far as itself, until it knows better; all count as heard from. */
  ghost predicate TookOver(cfg: Config, a: Node, b: Node, now: nat) {
    var last := LastIndex(a.log);
    && b.role == Leader && b.term == a.term && b.leaderId == cfg.id && b.waiters == a.waiters
    && b.log == a.log.(entries := a.log.entries + [Entry(last + 1, a.term, Noop)])
    && b.lead.noopIndex == last + 1 && b.lead.transferTarget == NO_NODE
    && forall p :: p in cfg.others ==>
         && Get(b.lead.nextIndex, p) == last + 1 && Get(b.lead.matchIndex, p) == 0 && Get(b.lead.ackedAt, p) == now
  }

  lemma TakesOver(cfg: Config, s: Node, now: nat)
    ensures TookOver(cfg, s, BecomeLeader(cfg, s, now), now)
  {
    hide AdvanceCommit, Save, Everywhere;
    var last := LastIndex(s.log);
    EverywhereReads<nat>(cfg.others, last + 1);
    EverywhereReads<nat>(cfg.others, 0);
    EverywhereReads<nat>(cfg.others, now);
    AdvanceTerm(cfg, GrowLog(s.(role := Leader, leaderId := cfg.id, lead := NewLead(cfg, last, now)),
          [Entry(last + 1, s.term, Noop)]));
  }

  lemma OfficeTaken(s: Group, n: NodeId, voters: set<NodeId>)
    requires Enabled(s, WinElection(n, voters))
    ensures TookOver(Cfg(s, n), s.nodes[n], Do(s, WinElection(n, voters)).nodes[n], s.now)
  {
    hide BecomeLeader, Do, TookOver;
    DoShape(s, WinElection(n, voters));
    TakesOver(Cfg(s, n), s.nodes[n], s.now);
  }

  /** Whoever answers from a newer term deposes the node that hears of it. */
  lemma NewerTermDeposes(s: Group, step: Step)
    requires Enabled(s, step) && (step.LearnTerm? || step.TakeAppendReply? || step.TakeSnapshotReply?)
    ensures var a, b := s.nodes[step.n], Do(s, step).nodes[step.n];
            var t := if step.LearnTerm? then step.m.voteResp.term
                     else if step.TakeAppendReply? then step.m.appendResp.term
                     else step.m.respTerm;
            t > a.term ==>
              && b.role == Follower && b.term == t && b.votedFor == NO_NODE
              && b.waiters == (if a.role == Leader then map[] else a.waiters)
              && b.disk.hs == Some(HardState(t, NO_NODE)) && b.log == a.log && b.commitIndex == a.commitIndex
  {
    hide Do, AdvanceCommit, BacktrackTo;
    DoShape(s, step);
  }

  /** A leader that check-quorum finds alone steps down in its own term. */
  lemma AloneStepsDown(s: Group, n: NodeId, since: nat)
    requires Enabled(s, CheckQuorum(n, since))
    ensures var a, b := s.nodes[n], Do(s, CheckQuorum(n, since)).nodes[n];
            && b.role == Follower && b.leaderId == NO_NODE && b.term == a.term && b.votedFor == a.votedFor
            && b.waiters == map[] && b.log == a.log && b.commitIndex == a.commitIndex
  {
    hide Do, HasQuorumAckSince;
    DoShape(s, CheckQuorum(n, since));
  }

  // ------------------------------------------------------------------
  // Leadership transfer
  // ------------------------------------------------------------------

  /** A transfer begins towards any known peer unless one is under way, takes
      no more proposals until it ends, and changes nothing else. */
  lemma TransferBegins(s: Group, n: NodeId, target: NodeId)
    requires n in s.nodes && s.nodes[n].role == Leader && target in s.nodes[n].lead.matchIndex
    requires s.nodes[n].lead.transferTarget == NO_NODE && target != NO_NODE
    ensures Enabled(s, BeginTransfer(n, target))
    ensures var s1 := Do(s, BeginTransfer(n, target));
            && n in s1.nodes && !TakesProposals(s1.nodes[n]) && s1.nodes[n].lead.transferTarget == target
            && Enabled(s1, EndTransfer(n))
            && Do(s1, EndTransfer(n)).nodes == s.nodes
  {
    hide EffectOf, Do;
    var step1, step2 := BeginTransfer(n, target), EndTransfer(n);
    var s1 := Do(s, step1);
    DoShape(s, step1);
    TransferEffect(s, step1);
    assert Enabled(s1, step2);
    DoShape(s1, step2);
    TransferEffect(s1, step2);
    var a := s.nodes[n];
    assert SetTransfer(SetTransfer(a, target), NO_NODE) == a;
    assert Do(s1, step2).nodes == s.nodes;
  }

  lemma TransferEffect(s: Group, step: Step)
    requires Enabled(s, step) && (step.BeginTransfer? || step.EndTransfer?)
    ensures EffectOf(s, step).node ==
              SetTransfer(s.nodes[step.n], if step.BeginTransfer? then step.target else NO_NODE)
  {
  }

  /** Once the target is known to hold the whole log it can be told to campaign,
      and then it can. */
  lemma TargetCampaigns(s: Group, n: NodeId, target: NodeId)
    requires n in s.nodes && s.nodes[n].role == Leader && s.nodes[n].lead.transferTarget == target != NO_NODE
    requires Get(s.nodes[n].lead.matchIndex, target) == LastIndex(s.nodes[n].log)
    requires target in s.nodes && target != n && s.nodes[target].role != Leader
    ensures Enabled(s, SendTimeoutNow(n, target))
    ensures var s1 := Do(s, SendTimeoutNow(n, target));
            Enabled(s1, CampaignNow(target, TimeoutNow(target, s.nodes[n].term)))
  {
    var step := SendTimeoutNow(n, target);
    assert Do(s, step).nodes == s.nodes;
  }

  // ------------------------------------------------------------------
  // Reads
  // ------------------------------------------------------------------

  lemma ReadsBeginAt(s: Group, step: Step)
    requires Enabled(s, step)
    ensures forall rd :: rd in Do(s, step).begun && rd !in s.begun ==>
              && Leads(s, rd.node, rd.term) && rd.start == s.now
              && rd.index == s.nodes[rd.node].commitIndex >= s.nodes[rd.node].lead.noopIndex
  {
    hide EffectOf, Submitted, PrepareAppend, SentSnapshot, Without;
  }

  /** A read waits for no more than what its leader had committed when it began,
      and that reaches the leader's own no-op. */
  lemma {:induction false} ReadWaitsForCommit(run: seq<Group>, steps: seq<Step>, j: nat, rd: Read) returns (i: nat)
    requires IsRun(run, steps) && j < |run| && rd in run[j].begun
    ensures i < j && Leads(run[i], rd.node, rd.term) && rd.start == run[i].now
    ensures var s := run[i].nodes[rd.node]; rd.index == s.commitIndex >= s.lead.noopIndex
    decreases j
  {
    hide Enabled, Do;
    ReadsBeginAt(run[j - 1], steps[j - 1]);
    if rd in run[j - 1].begun {
      i := ReadWaitsForCommit(run, steps, j - 1, rd);
    } else {
      i := j - 1;
    }
  }
}
