/** What clients and the state machine are owed: a leader takes what is proposed
    to it, whoever waits when its entry is applied gets the result, failure
    means that the leader refused or lost its office, and the applier catches
    up with the commit index. */
module Results {
  import opened Types
  import opened Quorum
  import opened LogSpec
  import opened DiskSpec
  import opened CommitRule
  import opened Replica
  import opened Cluster
  import opened Link
  import opened NodeApplier
  import opened Steps
  import opened Safety
  import opened Proposals
  import opened Placements
  import opened Handlers
  import C = Consensus

  // ------------------------------------------------------------------
  // Proposals are taken
  // ------------------------------------------------------------------

  /** The commands of the batch are in the log, in order and in the node's term,
      and each proposal waits at its entry's index. */
  ghost predicate TookIn(a: Node, b: Node, batch: seq<(nat, Command)>) {
    var last := LastIndex(a.log);
    && b.role == Leader && b.term == a.term && b.log.snapIndex == a.log.snapIndex
    && LastIndex(b.log) == last + |batch| && a.log.entries <= b.log.entries
    && forall k :: last < k <= last + |batch| ==>
         && EntryAt(b.log, k) == Entry(k, a.term, Normal(batch[k - last - 1].1))
         && k in b.waiters && b.waiters[k] == Proposal(batch[k - last - 1].0, a.term, batch[k - last - 1].1)
  }

  lemma TakenIn(cfg: Config, s: Node, batch: seq<(nat, Command)>)
    requires TakesProposals(s)
    ensures var r := AppendProposals(cfg, s, batch); TookIn(s, r.0, batch) && r.1 == {}
  {
    hide AddWaiters, AdvanceCommit, Save, AppendTo;
    var last := LastIndex(s.log);
    var es := ProposalEntries(last, s.term, batch);
    var s1 := GrowLog(s, es).(waiters := AddWaiters(s.waiters, last, s.term, batch));
    AddedWaiters(s.waiters, last, s.term, batch);
    GrowShape(s, es);
    AdvanceTerm(cfg, s1);
    GrownEntries(s.log, es);
  }

  lemma GrowShape(s: Node, es: seq<Entry>)
    ensures GrowLog(s, es) == s.(log := AppendTo(s.log, es), disk := GrowLog(s, es).disk)
  {
  }

  lemma GrownEntries(l: LogState, es: seq<Entry>)
    ensures var l' := AppendTo(l, es);
            && l'.snapIndex == l.snapIndex && LastIndex(l') == LastIndex(l) + |es| && l.entries <= l'.entries
            && forall k :: LastIndex(l) < k <= LastIndex(l) + |es| ==> EntryAt(l', k) == es[k - LastIndex(l) - 1]
  {
  }

  /** A leader that is not handing over takes in every command; anyone else
      tells all of them that they failed, and changes nothing. */
  lemma ProposalsTaken(s: Group, n: NodeId, batch: seq<(nat, Command)>)
    requires Enabled(s, Propose(n, batch))
    ensures var s' := Do(s, Propose(n, batch)); var a, b := s.nodes[n], s'.nodes[n];
            if a.role == Leader && a.lead.transferTarget == NO_NODE then
              s'.answered == s.answered && TookIn(a, b, batch)
            else
              b == a && forall k :: 0 <= k < |batch| ==> Answer(batch[k].0, 0, batch[k].1, Failed) in s'.answered
  {
    hide Do, TookIn, Refuse;
    DoShape(s, Propose(n, batch));
    var a := s.nodes[n];
    if TakesProposals(a) {
      hide AppendProposals;
      TakenIn(Cfg(s, n), a, batch);
    } else {
      Refused(batch);
    }
  }

  lemma Refused(batch: seq<(nat, Command)>)
    ensures forall k :: 0 <= k < |batch| ==> Answer(batch[k].0, 0, batch[k].1, Failed) in Refuse(batch)
  {
  }

  // ------------------------------------------------------------------
  // Waiters get their results
  // ------------------------------------------------------------------

  /** `k` is the index of an entry that the applier has just applied. */
  predicate JustApplied(s: Node, k: nat) {
    AllApplied(s) && exists j :: 0 <= j < |s.appl.phase.entries| && s.appl.phase.entries[j].index == k
  }

  /** Whoever waits at an applied index proposed the entry there, in its term. */
  lemma FinishKnown(s: Group, h: C.History, n: NodeId, j: nat)
    requires Inv(s, h) && n in s.nodes && AllApplied(s.nodes[n]) && j < |s.nodes[n].appl.phase.entries|
    requires s.nodes[n].appl.phase.entries[j].index in s.nodes[n].waiters
    ensures var e := s.nodes[n].appl.phase.entries[j];
            e.term == s.nodes[n].waiters[e.index].term && FirstAt(s.nodes[n].appl.phase.entries, j)
  {
    hide Inv, Linked, NodeOk, C.Inv, C.CommitsOk, C.LeaderLogsOk, C.AcksOk, C.Good, LeaderOk, CandidateOk, DiskOk,
         Compacts, Committed, Replay, Indexed;
    var node := s.nodes[n];
    InvParted(s, h);
    NodeAt(s, h, n);
    NodeKnown(h, s.machine, s.now, Others(s.peers, n), n, node);
    C.LogParts(h);
    ApplierKnown(h, s.machine, s.now, Others(s.peers, n), n, node);
    FinishEntry(s.machine, h.logs[n], node, j);
    EntriesApart(s.machine, h.logs[n], node, j);
  }

  lemma FinishApplies(s: Group, h: C.History, n: NodeId, k: nat)
    requires Inv(s, h) && n in s.nodes && JustApplied(s.nodes[n], k) && k in s.nodes[n].waiters
    ensures var p := s.nodes[n].waiters[k];
            exists a :: a in AppliedAnswers(s.nodes[n]) && a.pid == p.pid && a.index == k && a.cmd == p.cmd
                        && a.outcome.Applied?
  {
    hide Inv, FirstAt;
    var node := s.nodes[n];
    var es := node.appl.phase.entries;
    var j :| 0 <= j < |es| && es[j].index == k;
    FinishKnown(s, h, n, j);
    assert AnswerFor(node.waiters[k], es[j], node.appl.phase.results[j]) in AppliedAnswers(node);
  }

  lemma ApplierKnown(h: C.History, w: Machine, now: nat, others: seq<NodeId>, n: NodeId, s: Node)
    requires NodeOk(h, w, now, others, n, s)
    ensures s.commitIndex <= |h.logs[n]| && PhaseOk(w, h.logs[n][..s.commitIndex], s.appl)
  {
  }

  lemma EntriesApart(w: Machine, full: seq<Entry>, s: Node, j: nat)
    requires s.commitIndex <= |full| && PhaseOk(w, full[..s.commitIndex], s.appl) && Indexed(full)
    requires AllApplied(s) && j < |s.appl.phase.entries|
    ensures FirstAt(s.appl.phase.entries, j)
  {
    hide Replay;
    var es, la := s.appl.phase.entries, s.appl.lastApplied;
    forall i | 0 <= i < |es|
      ensures es[i].index == la + i + 1
    {
      assert es[i] == full[..s.commitIndex][la + i];
    }
  }

  /** The answer that waiter `k` of node `n` is owed in step `i`. */
  ghost function Due(run: seq<Group>, chosen: seq<Entry>, i: nat, n: NodeId, k: nat): Answer
    requires i < |run| && n in run[i].nodes && k in run[i].nodes[n].waiters && 0 < k <= |chosen|
  {
    var p, w := run[i].nodes[n].waiters[k], run[i].machine;
    Answer(p.pid, k, p.cmd, Applied(EntryResult(w, Replay(w, chosen[..k - 1]), chosen[k - 1])))
  }

  /** In step `i` node `n` finishes applying an entry that a proposal waits for. */
  ghost predicate Finishes(run: seq<Group>, steps: seq<Step>, i: nat, n: NodeId, k: nat) {
    && i < |steps| < |run| && steps[i] == Applier(n, ApplyDone)
    && n in run[i].nodes && k in run[i].nodes[n].waiters && JustApplied(run[i].nodes[n], k)
  }

  lemma FinishAnswered(run: seq<Group>, steps: seq<Step>, chosen: seq<Entry>, hs: seq<C.History>, i: nat, n: NodeId,
                       k: nat)
    requires IsRun(run, steps) && Explains(hs, run) && Finishes(run, steps, i, n, k)
    requires var s' := run[i + 1]; forall a :: a in s'.answered ==> Truthful(s'.machine, chosen, a)
    ensures 0 < k <= |chosen| && chosen[k - 1].payload == Normal(run[i].nodes[n].waiters[k].cmd)
    ensures Due(run, chosen, i, n, k) in run[i + 1].answered
  {
    hide Init, Inv, Later, AllApplied, ApplierFinish, AppliedAnswers, Replay, EntryResult;
    var s, p := run[i], run[i].nodes[n].waiters[k];
    FinishApplies(s, hs[i], n, k);
    var a :| a in AppliedAnswers(s.nodes[n]) && a.pid == p.pid && a.index == k && a.cmd == p.cmd && a.outcome.Applied?;
    FinishShows(s, n);
    assert Truthful(run[i + 1].machine, chosen, a);
  }

  lemma FinishShows(s: Group, n: NodeId)
    requires Enabled(s, Applier(n, ApplyDone))
    ensures var s' := Do(s, Applier(n, ApplyDone));
            AllApplied(s.nodes[n]) && s'.answered == s.answered + AppliedAnswers(s.nodes[n]) && s'.machine == s.machine
  {
    hide AllApplied, AppliedAnswers;
  }

  /** Whoever waits when its entry has been applied gets the result: the one
      that its own command gives at its index of the one sequence that explains
      every replica. */
  lemma WaitersGetResults(run: seq<Group>, steps: seq<Step>) returns (chosen: seq<Entry>)
    requires TimelyRun(run, steps)
    ensures Indexed(chosen)
    ensures forall i, n :: 0 <= i < |run| && n in run[i].nodes ==> Reflects(run[i].machine, chosen, run[i].nodes[n])
    ensures forall i: nat, n, k: nat :: Finishes(run, steps, i, n, k) ==>
              && 0 < k <= |chosen| && chosen[k - 1].payload == Normal(run[i].nodes[n].waiters[k].cmd)
              && Due(run, chosen, i, n, k) in run[i + 1].answered
  {
    hide IsRun, Timely, Reflects, Truthful, Explains, Finishes, Due;
    chosen := OneSequenceApplied(run, steps);
    var hs := RunExplained(run, steps);
    forall i: nat, n, k: nat | Finishes(run, steps, i, n, k)
      ensures i + 1 < |run| && n in run[i].nodes && k in run[i].nodes[n].waiters
      ensures 0 < k <= |chosen| && chosen[k - 1].payload == Normal(run[i].nodes[n].waiters[k].cmd)
      ensures Due(run, chosen, i, n, k) in run[i + 1].answered
    {
      FinishOpens(run, steps, i, n, k);
      FinishAnswered(run, steps, chosen, hs, i, n, k);
    }
  }

  lemma FinishOpens(run: seq<Group>, steps: seq<Step>, i: nat, n: NodeId, k: nat)
    requires Finishes(run, steps, i, n, k)
    ensures i + 1 < |run| && n in run[i].nodes && k in run[i].nodes[n].waiters
  {
  }

  /** And it never hears of a failure, before or after. */
  lemma FinishedNeverFail(run: seq<Group>, steps: seq<Step>, i: nat, n: NodeId, k: nat, j: nat, a: Answer)
    requires TimelyRun(run, steps) && Finishes(run, steps, i, n, k) && j < |run| && a in run[j].answered
    requires a.pid == run[i].nodes[n].waiters[k].pid
    ensures a.outcome.Applied? && a.index == k
  {
    hide IsRun, Timely, Reflects, Finishes, NoneForgotten, WaitersAsProposed, WaitersApart, AnswersAsProposed, AllHeld;
    FinishOpens(run, steps, i, n, k);
    var chosen := WaitersGetResults(run, steps);
    ProposalsAccounted(run, steps, i);
    var due, last := Due(run, chosen, i, n, k), |run| - 1;
    AnswersStay(run, steps, i + 1, last);
    AnswersStay(run, steps, j, last);
    ProposalsAccounted(run, steps, last);
    assert due in run[last].answered && a in run[last].answered && due.pid == a.pid;
  }

  // ------------------------------------------------------------------
  // What failure means
  // ------------------------------------------------------------------

  /** Outside the applier and refusals, answers come with the loss of office. */
  lemma OnlyStepDownFails(s: Group, step: Step)
    requires Enabled(s, step) && !step.Transmit? && !step.Applier? && !step.Propose? && EffectOf(s, step).answers != {}
    ensures s.nodes[Actor(step)].role == Leader && EffectOf(s, step).node.role == Follower
  {
    hide Persist, AppendSameTerm, InstallSameTerm, LogUpToDate, AdvanceCommit, BacktrackTo, PrepareAppend, Save,
         CutDisk, GrowLog, HasQuorumAckSince;
    match step
    case AnswerAppend(_, m) => RoleKept(Follow(s.nodes[step.n], m.append.term, m.append.leader).0, m.append);
    case AnswerSnapshot(_, m) =>
      InstallRole(Follow(s.nodes[step.n], m.install.term, m.install.leader).0, m.install.snap);
    case AnswerVote(_, m) => VoteRole(BecomeFollower(s.nodes[step.n], m.vote.term, NO_NODE).0, m.vote);
    case _ =>
  }

  lemma VoteRole(s: Node, req: VoteReq)
    ensures Persist(s.(votedFor := req.cand), true, []).role == s.role
  {
  }

  lemma FinishFailsNone(s: Group, h: C.History, n: NodeId, a: Answer)
    requires Inv(s, h) && n in s.nodes && AllApplied(s.nodes[n]) && a in AppliedAnswers(s.nodes[n])
    ensures a.outcome.Applied?
  {
    hide Inv, FirstAt;
    var node := s.nodes[n];
    var es := node.appl.phase.entries;
    var j :| 0 <= j < |es| && es[j].index in node.waiters && FirstAt(es, j)
        && a == AnswerFor(node.waiters[es[j].index], es[j], node.appl.phase.results[j]);
    FinishKnown(s, h, n, j);
  }

  /** A proposal fails only by being refused, by a node that does not lead or is
      handing over, or because its leader loses its office in that step. */
  lemma FailureMeansNoLeader(run: seq<Group>, steps: seq<Step>, i: nat, a: Answer)
    requires TimelyRun(run, steps) && i < |steps| && a in run[i + 1].answered && a !in run[i].answered
    requires a.outcome.Failed?
    ensures var n := Actor(steps[i]);
            && n in run[i].nodes && n in run[i + 1].nodes
            && if steps[i].Propose? then !TakesProposals(run[i].nodes[n])
               else run[i].nodes[n].role == Leader && run[i + 1].nodes[n].role == Follower
  {
    hide Init, Do, EffectOf, Inv, Later, Timely, AllApplied, AppliedAnswers;
    var s, step := run[i], steps[i];
    DoShape(s, step);
    if step.Propose? {
      ProposalsTaken(s, step.n, step.batch);
    } else if step.Applier? {
      var hs := RunExplained(run, steps);
      ApplierAnswersOnly(s, step);
      FinishFailsNone(s, hs[i], step.n, a);
    } else {
      OnlyStepDownFails(s, step);
    }
  }

  lemma ApplierAnswersOnly(s: Group, step: Step)
    requires Enabled(s, step) && step.Applier? && EffectOf(s, step).answers != {}
    ensures AllApplied(s.nodes[step.n]) && EffectOf(s, step).answers == AppliedAnswers(s.nodes[step.n])
  {
    hide AllApplied, AppliedAnswers;
  }

  // ------------------------------------------------------------------
  // The applier
  // ------------------------------------------------------------------

  /** Answers to messages leave alone what the applier is doing. */
  lemma AnswersLeaveApplier(s: Group, step: Step)
    requires Enabled(s, step) && (step.AnswerVote? || step.AnswerAppend? || step.AnswerSnapshot?)
    ensures var a, b := s.nodes[step.n].appl, EffectOf(s, step).node.appl;
            b.phase == a.phase && b.lastApplied == a.lastApplied && b.sm == a.sm
  {
    hide AppendSameTerm, InstallSameTerm, Follow, HandleRequestVote;
    match step
    case AnswerVote(_, m) => VoteAppl(s.nodes[step.n], m.vote);
    case AnswerAppend(_, m) =>
      FollowAppl(s.nodes[step.n], m.append.term, m.append.leader);
      AppendAppl(Follow(s.nodes[step.n], m.append.term, m.append.leader).0, m.append);
    case AnswerSnapshot(_, m) =>
      FollowAppl(s.nodes[step.n], m.install.term, m.install.leader);
      InstallAppl(Follow(s.nodes[step.n], m.install.term, m.install.leader).0, m.install.snap);
  }

  /** Only the applier itself and a crash touch it. */
  lemma OthersLeaveApplier(s: Group, step: Step)
    requires Enabled(s, step) && !step.Transmit? && !step.Applier? && !IsCrash(step)
    ensures var a, b := s.nodes[Actor(step)].appl, EffectOf(s, step).node.appl;
            b.phase == a.phase && b.lastApplied == a.lastApplied && b.sm == a.sm
  {
    hide HandleRequestVote, HandleAppendEntries, HandleInstallSnapshot, PrepareAppend, HasQuorumAckSince, IsQuorum,
         PreGranted, VoteGranted, BecomeFollower, OnAppendReply, OnSnapshotReply, BecomeLeader, AppendProposals,
         StartElection, HandlePreVote;
    match step
    case AnswerVote(_, _) => AnswersLeaveApplier(s, step);
    case AnswerAppend(_, _) => AnswersLeaveApplier(s, step);
    case AnswerSnapshot(_, _) => AnswersLeaveApplier(s, step);
    case LearnTerm(_, m) => StepDownAppl(s.nodes[step.n], m.voteResp.term, NO_NODE);
    case CheckQuorum(_, _) => StepDownAppl(s.nodes[step.n], s.nodes[step.n].term, NO_NODE);
    case TakeAppendReply(_, m) => ReplyAppl(Cfg(s, step.n), s.nodes[step.n], m);
    case TakeSnapshotReply(_, m) => ReplyAppl(Cfg(s, step.n), s.nodes[step.n], m);
    case WinElection(_, _) => WinAppl(Cfg(s, step.n), s.nodes[step.n], s.now);
    case Propose(_, batch) => ProposeAppl(Cfg(s, step.n), s.nodes[step.n], batch);
    case Campaign(_, _) => StandAppl(Cfg(s, step.n), s.nodes[step.n]);
    case CampaignNow(_, _) => StandAppl(Cfg(s, step.n), s.nodes[step.n]);
    case _ =>
  }

  lemma StepDownAppl(s: Node, t: nat, leader: NodeId)
    ensures BecomeFollower(s, t, leader).0.appl == s.appl
  {
  }

  lemma FollowAppl(s: Node, t: nat, leader: NodeId)
    ensures Follow(s, t, leader).0.appl == s.appl
  {
  }

  lemma VoteAppl(s: Node, req: VoteReq)
    ensures HandleRequestVote(s, req).0.appl == s.appl
  {
    hide LogUpToDate;
  }

  lemma AppendAppl(s: Node, req: AppendReq)
    ensures AppendSameTerm(s, req).0.appl == s.appl
  {
    hide Fresh, Save, FirstIndexOfTerm, TermIn;
  }

  lemma InstallAppl(s: Node, snap: Snapshot)
    ensures InstallSameTerm(s, snap).appl == s.appl.(pending := InstallSameTerm(s, snap).appl.pending)
  {
  }

  lemma ReplyAppl(cfg: Config, s: Node, m: Msg)
    requires m.AppendReply? || m.SnapReply?
    ensures m.AppendReply? ==> OnAppendReply(cfg, s, m.from, m.append, m.sentAt, m.appendResp).0.appl == s.appl
    ensures m.SnapReply? ==> OnSnapshotReply(cfg, s, m.from, m.install, m.sentAt, m.respTerm).0.appl == s.appl
  {
    hide Save, CommitCandidate, BacktrackTo, TermIn;
  }

  lemma WinAppl(cfg: Config, s: Node, now: nat)
    ensures BecomeLeader(cfg, s, now).appl == s.appl
  {
    hide Save, CommitCandidate, TermIn, NewLead;
  }

  lemma ProposeAppl(cfg: Config, s: Node, batch: seq<(nat, Command)>)
    ensures AppendProposals(cfg, s, batch).0.appl == s.appl
  {
    hide Save, CommitCandidate, TermIn, AddWaiters;
  }

  lemma StandAppl(cfg: Config, s: Node)
    ensures StartElection(cfg, s).0.appl == s.appl
  {
  }

  /** The applier is in the middle of `es`, having applied up to `la`. */
  predicate At(s: Node, es: seq<Entry>, la: nat) {
    s.appl.phase.Applying? && s.appl.phase.entries == es && s.appl.lastApplied == la
  }

  /** The step ends the round of applying at `n`, or cuts it off. */
  predicate EndsRound(step: Step, n: NodeId) {
    !step.Transmit? && Actor(step) == n && (IsCrash(step) || step == Applier(n, ApplyDone))
  }

  lemma RoundGoesOn(s: Group, step: Step, n: NodeId, es: seq<Entry>, la: nat)
    requires Enabled(s, step) && n in s.nodes && At(s.nodes[n], es, la) && !EndsRound(step, n)
    ensures n in Do(s, step).nodes && At(Do(s, step).nodes[n], es, la)
  {
    hide Enabled, Do, EffectOf, At;
    DoShape(s, step);
    if !step.Transmit? && Actor(step) == n {
      if step.Applier? {
        NextKeepsRound(s, step, es, la);
      } else {
        OthersLeaveApplier(s, step);
        AtKept(s.nodes[n], EffectOf(s, step).node, es, la);
      }
    }
  }

  lemma AtKept(s: Node, s': Node, es: seq<Entry>, la: nat)
    requires At(s, es, la) && s'.appl.phase == s.appl.phase && s'.appl.lastApplied == s.appl.lastApplied
    ensures At(s', es, la)
  {
  }

  lemma NextKeepsRound(s: Group, step: Step, es: seq<Entry>, la: nat)
    requires Enabled(s, step) && step.Applier? && At(s.nodes[step.n], es, la) && step.a != ApplyDone
    ensures At(EffectOf(s, step).node, es, la)
  {
    hide EntryResult, ApplyEntry;
  }

  lemma {:induction false} RoundLasts(run: seq<Group>, steps: seq<Step>, i: nat, j: nat, n: NodeId, es: seq<Entry>,
                                      la: nat)
    requires IsRun(run, steps) && i <= j < |run| && n in run[i].nodes && At(run[i].nodes[n], es, la)
    requires forall x :: i <= x < j ==> !EndsRound(steps[x], n)
    ensures n in run[j].nodes && At(run[j].nodes[n], es, la)
    decreases j
  {
    hide Enabled, Do, Init, At, EndsRound;
    if i < j {
      RoundLasts(run, steps, i, j - 1, n, es, la);
      RoundGoesOn(run[j - 1], steps[j - 1], n, es, la);
    }
  }

  lemma WorkTaken(s: Group, n: NodeId)
    requires Enabled(s, Applier(n, TakeWork)) && s.nodes[n].appl.pending.None?
    ensures var a, b := s.nodes[n], Do(s, Applier(n, TakeWork)).nodes[n];
            At(b, Slice(a.log, a.appl.lastApplied + 1, a.commitIndex), a.appl.lastApplied)
  {
    hide Slice;
  }

  /** What the applier takes: every committed entry it has not applied, in order. */
  lemma TakesAll(run: seq<Group>, steps: seq<Step>, i: nat, n: NodeId)
    requires TimelyRun(run, steps) && i < |run| && n in run[i].nodes
    requires ApplierReady(run[i].nodes[n]) && run[i].nodes[n].appl.pending.None?
    ensures var s := run[i].nodes[n]; var es := Slice(s.log, s.appl.lastApplied + 1, s.commitIndex);
            && |es| == s.commitIndex - s.appl.lastApplied
            && forall k :: 0 <= k < |es| ==> es[k].index == s.appl.lastApplied + 1 + k
  {
    hide TimelyRun, Inv, Linked, NodeOk, LeaderOk, CandidateOk, WaitersOk, DiskOk, C.Inv, C.LeaderLogsOk, C.AcksOk,
         C.Good, Committed, ApplierReady;
    var hs := RunExplained(run, steps);
    ApplierInRange(run, steps, i, n);
    InvParted(run[i], hs[i]);
    LogRecorded(run[i], hs[i], n);
    C.LogParts(hs[i]);
    var s, full := run[i].nodes[n], hs[i].logs[n];
    var es := Slice(s.log, s.appl.lastApplied + 1, s.commitIndex);
    forall k | 0 <= k < |es|
      ensures es[k].index == s.appl.lastApplied + 1 + k
    {
      assert es[k] == full[s.appl.lastApplied + k];
    }
  }

  lemma RoundEnds(s: Group, n: NodeId, es: seq<Entry>, la: nat)
    requires Enabled(s, Applier(n, ApplyDone)) && At(s.nodes[n], es, la) && |es| > 0 && es[|es| - 1].index >= la
    ensures var a, b := s.nodes[n], Do(s, Applier(n, ApplyDone)).nodes[n];
            var done, snap, every := es[|es| - 1].index, a.log.snapIndex, s.snapshotThreshold;
            && b.appl.lastApplied == done
            && b.appl.phase == if every > 0 && done > snap && done - snap >= every then SnapshotDue(done) else Idle
  {
    hide AppliedAnswers;
  }

  /** A round of applying ends with everything applied that was committed when
      it began, and then a snapshot is due exactly if enough has been applied
      since the last one. */
  lemma ApplierReachesCommit(run: seq<Group>, steps: seq<Step>, i: nat, j: nat, n: NodeId)
    requires TimelyRun(run, steps) && i < j < |steps| && n in run[i].nodes
    requires steps[i] == Applier(n, TakeWork) && run[i].nodes[n].appl.pending.None?
    requires steps[j] == Applier(n, ApplyDone) && forall x :: i < x < j ==> !EndsRound(steps[x], n)
    ensures n in run[j].nodes && n in run[j + 1].nodes
    ensures var done, snap := run[i].nodes[n].commitIndex, run[j].nodes[n].log.snapIndex;
            var every := run[j].snapshotThreshold;
            && run[j + 1].nodes[n].appl.lastApplied == done
            && run[j + 1].nodes[n].appl.phase ==
                 if every > 0 && done > snap && done - snap >= every then SnapshotDue(done) else Idle
  {
    hide Do, Enabled, EffectOf, Init, Timely, At, EndsRound, Slice, ApplierReady;
    var s := run[i].nodes[n];
    var es := Slice(s.log, s.appl.lastApplied + 1, s.commitIndex);
    ReadyBelow(run, steps, i, n);
    TakesAll(run, steps, i, n);
    WorkTaken(run[i], n);
    DoShape(run[i], steps[i]);
    DoShape(run[j], steps[j]);
    RoundLasts(run, steps, i + 1, j, n, es, s.appl.lastApplied);
    RoundEnds(run[j], n, es, s.appl.lastApplied);
  }

  lemma ReadyBelow(run: seq<Group>, steps: seq<Step>, i: nat, n: NodeId)
    requires TimelyRun(run, steps) && i < |steps| && steps[i] == Applier(n, TakeWork) && n in run[i].nodes
    requires run[i].nodes[n].appl.pending.None?
    ensures ApplierReady(run[i].nodes[n]) && run[i].nodes[n].appl.lastApplied < run[i].nodes[n].commitIndex
  {
  }

  /** A due snapshot is taken of what has been applied, unless the log has been
      compacted past it; it is stored unless a newer one is; and the log is
      compacted to it. */
  lemma SnapshotsTaken(s: Group, n: NodeId, a: ApplierStep)
    requires Enabled(s, Applier(n, a)) && (a.TakeSnapshot? || a.StoreSnapshot? || a.CompactLog?)
    ensures var x, y := s.nodes[n], Do(s, Applier(n, a)).nodes[n];
            match a
            case TakeSnapshot =>
              var i := x.appl.phase.index;
              && (Has(x.log, i) ==> y.appl.phase == Saving(Snapshot(i, TermIn(x.log, i), x.appl.sm)))
              && (!Has(x.log, i) ==> y.appl.phase == Idle)
            case StoreSnapshot =>
              var snap := x.appl.phase.snap;
              && SnapIndex(y.disk) == Max(SnapIndex(x.disk), snap.index)
              && (snap.index > SnapIndex(x.disk) ==> y.disk.snap == Some(snap))
              && y.appl.phase == Saved(snap.index, snap.term)
            case CompactLog =>
              && y.log.snapIndex == Max(x.log.snapIndex, x.appl.phase.index) && y.appl.phase == Idle
              && LastIndex(y.log) == Max(LastIndex(x.log), x.appl.phase.index)
              && (forall k :: y.log.snapIndex < k <= LastIndex(y.log) ==> EntryAt(y.log, k) == EntryAt(x.log, k))
            case _ => true
  {
    hide TermIn;
  }
}
