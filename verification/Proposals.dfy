/** Every proposal gets at most one answer, about the command that was proposed,
    and while no replica crashes none is forgotten: it is waiting at one index
    of one leader, or answered. */
module Proposals {
  import opened Types
  import opened Quorum
  import opened LogSpec
  import opened DiskSpec
  import opened Replica
  import opened Cluster
  import opened Steps

  type Submissions = map<nat, Command>

  /** The command is the one proposed under the id. */
  predicate ProposedAs(proposed: Submissions, pid: nat, cmd: Command) {
    pid in proposed && proposed[pid] == cmd
  }

  ghost predicate WaitersAsProposed(s: Group) {
    forall n, i :: n in s.nodes && i in s.nodes[n].waiters ==>
      ProposedAs(s.proposed, s.nodes[n].waiters[i].pid, s.nodes[n].waiters[i].cmd)
  }

  ghost predicate WaitersApart(s: Group) {
    forall n, i, m, j ::
      (&& n in s.nodes && i in s.nodes[n].waiters
       && m in s.nodes && j in s.nodes[m].waiters
       && s.nodes[n].waiters[i].pid == s.nodes[m].waiters[j].pid) ==> n == m && i == j
  }

  ghost predicate AnswersAsProposed(s: Group) {
    forall a :: a in s.answered ==> ProposedAs(s.proposed, a.pid, a.cmd)
  }

  ghost predicate AnswersApart(s: Group) {
    forall a, b :: a in s.answered && b in s.answered && a.pid == b.pid ==> a == b
  }

  ghost predicate AnsweredOrWaiting(s: Group) {
    forall a, n, i :: a in s.answered && n in s.nodes && i in s.nodes[n].waiters ==> s.nodes[n].waiters[i].pid != a.pid
  }

  /** Each proposal id waits at one index of one replica or has one answer, not
      both, and waits and is answered with the command proposed under it. */
  ghost predicate AnsweredOnce(s: Group) {
    && WaitersAsProposed(s)
    && WaitersApart(s)
    && AnswersAsProposed(s)
    && AnswersApart(s)
    && AnsweredOrWaiting(s)
  }

  ghost predicate Waits(s: Group, pid: nat) {
    exists n, i :: n in s.nodes && i in s.nodes[n].waiters && s.nodes[n].waiters[i].pid == pid
  }

  ghost predicate IsAnswered(s: Group, pid: nat) {
    exists a :: a in s.answered && a.pid == pid
  }

  ghost predicate NoneForgotten(s: Group) {
    forall pid :: pid in s.proposed ==> Waits(s, pid) || IsAnswered(s, pid)
  }

  // ------------------------------------------------------------------
  // One replica's step
  // ------------------------------------------------------------------

  type Waiters = map<nat, Proposal>

  /** How a step moves proposals at one replica; `news` are those it takes in. */
  ghost predicate Moves(w: Waiters, w': Waiters, ans: set<Answer>, news: Submissions) {
    && (forall i :: i in w' ==> ProposedAs(news, w'[i].pid, w'[i].cmd) || (i in w && w'[i] == w[i]))
    && (forall i, j :: i in w' && j in w' && w'[i].pid == w'[j].pid && w'[i].pid in news ==> i == j)
    && (forall a :: a in ans ==>
          ProposedAs(news, a.pid, a.cmd) || exists i :: i in w && i !in w' && w[i].pid == a.pid && w[i].cmd == a.cmd)
    && (forall a, b :: a in ans && b in ans && a.pid == b.pid ==> a == b)
    && (forall a, i :: a in ans && i in w' ==> a.pid != w'[i].pid)
  }

  /** Nothing is dropped at the replica. */
  ghost predicate Keeps(w: Waiters, w': Waiters, ans: set<Answer>, news: Submissions) {
    && (forall i :: i in w ==> (i in w' && w'[i] == w[i]) || exists a :: a in ans && a.pid == w[i].pid)
    && (forall pid :: pid in news ==> (exists i :: i in w' && w'[i].pid == pid) || exists a :: a in ans && a.pid == pid)
  }

  /** The ids waiting at a replica are distinct and none of them is new. */
  ghost predicate Own(w: Waiters, news: Submissions) {
    && (forall i, j :: i in w && j in w && w[i].pid == w[j].pid ==> i == j)
    && (forall i :: i in w ==> w[i].pid !in news)
  }

  lemma FailedMoves(w: Waiters)
    requires Own(w, map[])
    ensures Moves(w, map[], FailAll(w), map[]) && Keeps(w, map[], FailAll(w), map[])
  {
    forall i | i in w
      ensures exists a :: a in FailAll(w) && a.pid == w[i].pid
    {
      assert Answer(w[i].pid, i, w[i].cmd, Failed) in FailAll(w);
    }
  }

  lemma StepDownMoves(s: Node, t: nat, leader: NodeId)
    requires Own(s.waiters, map[])
    ensures var r := BecomeFollower(s, t, leader);
            Moves(s.waiters, r.0.waiters, r.1, map[]) && Keeps(s.waiters, r.0.waiters, r.1, map[])
  {
    FailedMoves(s.waiters);
  }

  lemma {:induction false} AddedWaiters(w: Waiters, last: nat, term: nat, batch: seq<(nat, Command)>)
    ensures var w' := AddWaiters(w, last, term, batch);
            && (forall k :: k in w' <==> k in w || last < k <= last + |batch|)
            && (forall k :: last < k <= last + |batch| ==>
              w'[k] == Proposal(batch[k - last - 1].0, term, batch[k - last - 1].1))
            && (forall k :: k in w && !(last < k <= last + |batch|) ==> w'[k] == w[k])
  {
    if |batch| > 0 {
      AddedWaiters(w, last, term, batch[..|batch| - 1]);
    }
  }

  predicate DistinctIds(batch: seq<(nat, Command)>) {
    forall i, j :: 0 <= i < j < |batch| ==> batch[i].0 != batch[j].0
  }

  lemma {:induction false} SubmittedReads(batch: seq<(nat, Command)>)
    requires DistinctIds(batch)
    ensures forall pid :: pid in Submitted(batch) <==> exists i :: 0 <= i < |batch| && batch[i].0 == pid
    ensures forall i :: 0 <= i < |batch| ==> ProposedAs(Submitted(batch), batch[i].0, batch[i].1)
  {
    if |batch| > 0 {
      var k := |batch| - 1;
      SubmittedReads(batch[..k]);
      forall pid
        ensures pid in Submitted(batch) <==> exists i :: 0 <= i < |batch| && batch[i].0 == pid
      {
        if pid in Submitted(batch[..k]) {
          var i :| 0 <= i < k && batch[..k][i].0 == pid;
          assert batch[i].0 == pid;
        }
        if i :| 0 <= i < k && batch[i].0 == pid {
          assert batch[..k][i].0 == pid;
        }
      }
      forall i | 0 <= i < |batch|
        ensures ProposedAs(Submitted(batch), batch[i].0, batch[i].1)
      {
        if i < k {
          assert batch[..k][i] == batch[i];
        }
      }
    }
  }

  lemma ProposeMoves(w: Waiters, last: nat, term: nat, batch: seq<(nat, Command)>)
    requires DistinctIds(batch)
    requires Own(w, Submitted(batch)) && forall i :: i in w ==> i <= last
    ensures Moves(w, AddWaiters(w, last, term, batch), {}, Submitted(batch))
            && Keeps(w, AddWaiters(w, last, term, batch), {}, Submitted(batch))
  {
    hide Submitted, AddWaiters, DistinctIds, Own;
    var w', news := AddWaiters(w, last, term, batch), Submitted(batch);
    AddedWaiters(w, last, term, batch);
    forall pid | pid in news
      ensures exists i :: i in w' && w'[i].pid == pid
    {
      SubmittedReads(batch);
      var i :| 0 <= i < |batch| && batch[i].0 == pid;
      assert w'[last + 1 + i].pid == pid;
    }
    forall i | i in w'
      ensures ProposedAs(news, w'[i].pid, w'[i].cmd) || (i in w && w'[i] == w[i])
    {
      NewWaiter(w, last, term, batch, i);
    }
    forall i, j | i in w' && j in w' && w'[i].pid == w'[j].pid && w'[i].pid in news
      ensures i == j
    {
      NewWaitersApart(w, last, term, batch, i, j);
    }
  }

  /** A waiter is one of the batch, at the index of its place, or was there. */
  lemma NewWaiter(w: Waiters, last: nat, term: nat, batch: seq<(nat, Command)>, i: nat)
    requires DistinctIds(batch) && (forall k :: k in w ==> k <= last) && i in AddWaiters(w, last, term, batch)
    ensures var p := AddWaiters(w, last, term, batch)[i];
            if i > last then i <= last + |batch| && ProposedAs(Submitted(batch), p.pid, p.cmd) else i in w && p == w[i]
  {
    hide Submitted, AddWaiters, DistinctIds, ProposedAs;
    AddedWaiters(w, last, term, batch);
    SubmittedReads(batch);
    if i > last {
      assert ProposedAs(Submitted(batch), batch[i - last - 1].0, batch[i - last - 1].1);
    }
  }

  lemma NewWaitersApart(w: Waiters, last: nat, term: nat, batch: seq<(nat, Command)>, i: nat, j: nat)
    requires DistinctIds(batch) && Own(w, Submitted(batch)) && (forall k :: k in w ==> k <= last)
    requires var w' := AddWaiters(w, last, term, batch);
             i in w' && j in w' && w'[i].pid == w'[j].pid && w'[i].pid in Submitted(batch)
    ensures i == j
  {
    hide Submitted, AddWaiters;
    AddedWaiters(w, last, term, batch);
    NewWaiter(w, last, term, batch, i);
    NewWaiter(w, last, term, batch, j);
    assert i > last && j > last;
    assert batch[i - last - 1].0 == batch[j - last - 1].0;
  }

  lemma RefuseMoves(w: Waiters, batch: seq<(nat, Command)>)
    requires DistinctIds(batch)
    requires Own(w, Submitted(batch))
    ensures Moves(w, w, Refuse(batch), Submitted(batch)) && Keeps(w, w, Refuse(batch), Submitted(batch))
  {
    SubmittedReads(batch);
    forall pid | pid in Submitted(batch)
      ensures exists a :: a in Refuse(batch) && a.pid == pid
    {
      var i :| 0 <= i < |batch| && batch[i].0 == pid;
      assert Answer(batch[i].0, 0, batch[i].1, Failed) in Refuse(batch);
    }
    forall a | a in Refuse(batch)
      ensures ProposedAs(Submitted(batch), a.pid, a.cmd)
    {
      var i :| 0 <= i < |batch| && a == Answer(batch[i].0, 0, batch[i].1, Failed);
    }
  }

  lemma FinishMoves(cfg: Config, s: Node)
    requires AllApplied(s) && Own(s.waiters, map[])
    ensures var r := ApplierFinish(cfg, s);
            Moves(s.waiters, r.0.waiters, r.1, map[]) && Keeps(s.waiters, r.0.waiters, r.1, map[])
  {
    hide SnapshotNeeded;
    AppliedMoves(s.waiters, s.appl.phase.entries, s.appl.phase.results);
  }

  /** Answering each waiter of some applied entries and forgetting it. */
  lemma AppliedMoves(w: Waiters, es: seq<Entry>, rs: seq<Option<Result>>)
    requires |rs| == |es| && Own(w, map[])
    ensures var w' := w - set j | 0 <= j < |es| :: es[j].index;
            Moves(w, w', AnswersTo(w, es, rs), map[]) && Keeps(w, w', AnswersTo(w, es, rs), map[])
  {
    hide FirstAt;
    var indexes := set j | 0 <= j < |es| :: es[j].index;
    var w', ans := w - indexes, AnswersTo(w, es, rs);
    forall i | i in w && i in indexes
      ensures exists a :: a in ans && a.pid == w[i].pid
    {
      var j :| 0 <= j < |es| && es[j].index == i;
      j := FirstOf(es, j);
      assert AnswerFor(w[i], es[j], rs[j]) in ans;
    }
    forall a | a in ans
      ensures exists i :: i in w && i !in w' && w[i].pid == a.pid && w[i].cmd == a.cmd
    {
      var j :| 0 <= j < |es| && es[j].index in w && FirstAt(es, j) && a == AnswerFor(w[es[j].index], es[j], rs[j]);
      assert es[j].index in indexes;
    }
    forall a, b | a in ans && b in ans && a.pid == b.pid
      ensures a == b
    {
      var j :| 0 <= j < |es| && es[j].index in w && FirstAt(es, j) && a == AnswerFor(w[es[j].index], es[j], rs[j]);
      var k :| 0 <= k < |es| && es[k].index in w && FirstAt(es, k) && b == AnswerFor(w[es[k].index], es[k], rs[k]);
      assert es[j].index == es[k].index;
      FirstIsOne(es, j, k);
    }
  }

  lemma {:induction false} FirstOf(es: seq<Entry>, j: nat) returns (k: nat)
    requires j < |es|
    ensures k <= j && es[k].index == es[j].index && FirstAt(es, k)
    decreases j
  {
    k := j;
    if i :| 0 <= i < j && es[i].index == es[j].index {
      k := FirstOf(es, i);
    }
  }

  lemma FirstIsOne(es: seq<Entry>, j: nat, k: nat)
    requires j < |es| && k < |es| && FirstAt(es, j) && FirstAt(es, k) && es[j].index == es[k].index
    ensures j == k
  {
  }

  // ------------------------------------------------------------------
  // Every step of a replica
  // ------------------------------------------------------------------

  function News(step: Step): Submissions {
    match step
    case Propose(_, batch) => Submitted(batch)
    case CutPropose(_, batch, _) => Submitted(batch)
    case _ => map[]
  }

  lemma QuietMoves(w: Waiters)
    requires Own(w, map[])
    ensures Moves(w, w, {}, map[]) && Keeps(w, w, {}, map[])
  {
  }

  lemma FollowMoves(s: Node, t: nat, leader: NodeId)
    requires Own(s.waiters, map[])
    ensures var r := Follow(s, t, leader);
            Moves(s.waiters, r.0.waiters, r.1, map[]) && Keeps(s.waiters, r.0.waiters, r.1, map[])
  {
    hide Moves, Keeps, BecomeFollower;
    QuietMoves(s.waiters);
    StepDownMoves(s, t, leader);
  }

  lemma MergeWaiters(s: Node, es: seq<Entry>)
    ensures MergeEntries(s, es).waiters == s.waiters
  {
    hide Fresh;
  }

  lemma AppendWaiters(s: Node, req: AppendReq)
    ensures AppendSameTerm(s, req).0.waiters == s.waiters
  {
    hide MergeEntries, Skip, FirstIndexOfTerm, TermIn;
    var skip := Skip(s, req);
    if skip <= |req.entries| {
      MergeWaiters(s, req.entries[skip..]);
    }
  }

  lemma InstallWaiters(s: Node, snap: Snapshot)
    ensures InstallSameTerm(s, snap).waiters == s.waiters
  {
  }

  lemma MessageMoves(s: Group, step: Step)
    requires Enabled(s, step)
             && (step.AnswerVote? || step.AnswerAppend? || step.AnswerSnapshot? || step.LearnTerm? || step.CheckQuorum?)
    requires Own(s.nodes[Actor(step)].waiters, map[])
    ensures var e := EffectOf(s, step); var w := s.nodes[Actor(step)].waiters;
            Moves(w, e.node.waiters, e.answers, map[]) && Keeps(w, e.node.waiters, e.answers, map[])
  {
    hide Moves, Keeps, BecomeFollower, Follow, AppendSameTerm, InstallSameTerm, LogUpToDate, HasQuorumAckSince, Persist;
    var node := s.nodes[Actor(step)];
    QuietMoves(node.waiters);
    match step
    case AnswerVote(n, m) =>
      if m.vote.term > node.term { StepDownMoves(node, m.vote.term, NO_NODE); }
      VoteWaiters(node, m.vote);
    case AnswerAppend(n, m) =>
      FollowMoves(node, m.append.term, m.append.leader);
      AppendWaiters(Follow(node, m.append.term, m.append.leader).0, m.append);
    case AnswerSnapshot(n, m) =>
      FollowMoves(node, m.install.term, m.install.leader);
      InstallWaiters(Follow(node, m.install.term, m.install.leader).0, m.install.snap);
    case LearnTerm(n, m) => StepDownMoves(node, m.voteResp.term, NO_NODE);
    case CheckQuorum(n, _) => StepDownMoves(node, node.term, NO_NODE);
  }

  lemma VoteWaiters(s: Node, req: VoteReq)
    ensures var r := HandleRequestVote(s, req);
            var f := if req.term > s.term then BecomeFollower(s, req.term, NO_NODE) else (s, {});
            r.0.waiters == f.0.waiters && r.2 == f.1
  {
    hide BecomeFollower, LogUpToDate;
  }

  lemma AdvanceWaiters(cfg: Config, s: Node)
    ensures AdvanceCommit(cfg, s).waiters == s.waiters
  {
  }

  lemma ReplyMoves(s: Group, step: Step)
    requires Enabled(s, step) && (step.TakeAppendReply? || step.TakeSnapshotReply?)
    requires Own(s.nodes[Actor(step)].waiters, map[])
    ensures var e := EffectOf(s, step); var w := s.nodes[Actor(step)].waiters;
            Moves(w, e.node.waiters, e.answers, map[]) && Keeps(w, e.node.waiters, e.answers, map[])
  {
    hide Moves, Keeps, BecomeFollower, BacktrackTo, CommitCandidate;
    var node := s.nodes[Actor(step)];
    QuietMoves(node.waiters);
    match step
    case TakeAppendReply(n, m) =>
      if m.appendResp.term > node.term { StepDownMoves(node, m.appendResp.term, NO_NODE); }
    case TakeSnapshotReply(n, m) =>
      if m.respTerm > node.term { StepDownMoves(node, m.respTerm, NO_NODE); }
  }

  lemma ProposalMoves(s: Group, step: Step)
    requires Enabled(s, step) && step.Propose? && Held(s.nodes[step.n])
    requires Own(s.nodes[step.n].waiters, News(step))
    ensures var e := EffectOf(s, step); var w := s.nodes[step.n].waiters;
            Moves(w, e.node.waiters, e.answers, News(step)) && Keeps(w, e.node.waiters, e.answers, News(step))
  {
    hide Moves, Keeps, AddWaiters, GrowLog, AdvanceCommit, Refuse;
    var node, batch := s.nodes[step.n], step.batch;
    if node.role != Leader || node.lead.transferTarget != NO_NODE {
      RefuseMoves(node.waiters, batch);
    } else {
      var es := ProposalEntries(LastIndex(node.log), node.term, batch);
      GrowWaiters(node, es);
      ProposeMoves(node.waiters, LastIndex(node.log), node.term, batch);
      AdvanceWaiters(Cfg(s, step.n),
            GrowLog(node, es).(waiters := AddWaiters(node.waiters, LastIndex(node.log), node.term, batch)));
    }
  }

  lemma GrowWaiters(s: Node, es: seq<Entry>)
    ensures GrowLog(s, es).waiters == s.waiters
  {
  }

  lemma ApplierMoves(cfg: Config, s: Node, a: ApplierStep)
    requires ApplierEnabled(s, a) && Own(s.waiters, map[])
    ensures var r := ApplierDo(cfg, s, a);
            Moves(s.waiters, r.0.waiters, r.1, map[]) && Keeps(s.waiters, r.0.waiters, r.1, map[])
  {
    hide Moves, Keeps, ApplierFinish, Own;
    QuietMoves(s.waiters);
    if a.ApplyDone? {
      FinishMoves(cfg, s);
    }
  }

  lemma EffectMoves(s: Group, step: Step)
    requires Enabled(s, step) && !step.Transmit? && Held(s.nodes[Actor(step)])
    requires Own(s.nodes[Actor(step)].waiters, News(step))
    ensures var e := EffectOf(s, step); var w := s.nodes[Actor(step)].waiters;
            && Moves(w, e.node.waiters, e.answers, News(step))
            && (!IsCrash(step) ==> Keeps(w, e.node.waiters, e.answers, News(step)))
  {
    hide Enabled, EffectOf, Moves, Keeps, Own, Held, ApplierDo, ApplierEnabled;
    ActorPresent(s, step);
    if step.Propose? {
      ProposalMoves(s, step);
    } else if step.Applier? {
      ApplierEffect(s, step.n, step.a);
      ApplierMoves(Cfg(s, step.n), s.nodes[step.n], step.a);
    } else {
      PlainMoves(s, step);
    }
  }

  lemma PlainMoves(s: Group, step: Step)
    requires Enabled(s, step) && !step.Transmit? && !step.Propose? && !step.Applier?
             && Own(s.nodes[Actor(step)].waiters, News(step))
    ensures var e := EffectOf(s, step); var w := s.nodes[Actor(step)].waiters;
            && Moves(w, e.node.waiters, e.answers, News(step))
            && (!IsCrash(step) ==> Keeps(w, e.node.waiters, e.answers, News(step)))
  {
    hide Moves, Keeps, HandleRequestVote, HandleAppendEntries, HandleInstallSnapshot, BecomeFollower, OnAppendReply,
         OnSnapshotReply, HandlePreVote, HasQuorumAckSince, CaughtUp, MayTransfer, VoteRequest, BecomeLeader,
         CutDisk, Save, PrepareAppend, ProposalEntries;
    var w := s.nodes[Actor(step)].waiters;
    match step
    case AnswerVote(_, _) => MessageMoves(s, step);
    case AnswerAppend(_, _) => MessageMoves(s, step);
    case AnswerSnapshot(_, _) => MessageMoves(s, step);
    case LearnTerm(_, _) => MessageMoves(s, step);
    case CheckQuorum(_, _) => MessageMoves(s, step);
    case TakeAppendReply(_, _) => ReplyMoves(s, step);
    case TakeSnapshotReply(_, _) => ReplyMoves(s, step);
    case WinElection(n, _) => WinWaiters(Cfg(s, n), s.nodes[n], s.now); QuietMoves(w);
    case Crash(_) => CrashMoves(w, map[]);
    case CutAnswer(_, _, _) => CrashMoves(w, map[]);
    case CutPropose(_, batch, _) => CrashMoves(w, Submitted(batch));
    case _ => QuietMoves(w);
  }

  lemma WinWaiters(cfg: Config, s: Node, now: nat)
    ensures BecomeLeader(cfg, s, now).waiters == s.waiters
  {
  }

  lemma CrashMoves(w: Waiters, news: Submissions)
    ensures Moves(w, map[], {}, news)
  {
  }

  // ------------------------------------------------------------------
  // Where proposals wait
  // ------------------------------------------------------------------

  /** Only a leader has proposals waiting, at indexes its log reaches. */
  ghost predicate Held(s: Node) {
    && (s.role != Leader ==> s.waiters == map[])
    && forall i :: i in s.waiters ==> i <= LastIndex(s.log)
  }

  /** What leaves waiters where they are. */
  ghost predicate Holds(s: Node, s': Node) {
    s'.role == s.role && s'.waiters == s.waiters && LastIndex(s'.log) >= LastIndex(s.log)
  }

  lemma HoldsOn(s: Node, s': Node)
    requires Held(s) && Holds(s, s')
    ensures Held(s')
  {
  }

  lemma NoneHeld(s: Node)
    requires s.waiters == map[]
    ensures Held(s)
  {
  }

  lemma StepDownHeld(s: Node, t: nat, leader: NodeId)
    requires Held(s)
    ensures BecomeFollower(s, t, leader).0.waiters == map[]
  {
  }

  lemma FollowHeld(s: Node, t: nat, leader: NodeId)
    requires Held(s)
    ensures Follow(s, t, leader).0.waiters == map[]
  {
    hide Save;
  }

  lemma AnswerHeld(s: Node, m: Msg)
    requires Held(s)
    ensures m.VoteMsg? ==> Held(HandleRequestVote(s, m.vote).0)
    ensures m.AppendMsg? ==> Held(HandleAppendEntries(s, m.append).0)
    ensures m.SnapMsg? ==> Held(HandleInstallSnapshot(s, m.install).0)
  {
    hide BecomeFollower, Follow, AppendSameTerm, InstallSameTerm, LogUpToDate, Save, Held;
    if m.VoteMsg? {
      VoteHeld(s, m.vote);
    } else if m.AppendMsg? && m.append.term >= s.term {
      var f := Follow(s, m.append.term, m.append.leader).0;
      FollowHeld(s, m.append.term, m.append.leader);
      AppendWaiters(f, m.append);
      NoneHeld(AppendSameTerm(f, m.append).0);
    } else if m.SnapMsg? && m.install.term >= s.term {
      var f := Follow(s, m.install.term, m.install.leader).0;
      FollowHeld(s, m.install.term, m.install.leader);
      InstallWaiters(f, m.install.snap);
      NoneHeld(f);
      NoneHeld(InstallSameTerm(f, m.install.snap));
    }
  }

  lemma VoteHeld(s: Node, req: VoteReq)
    requires Held(s)
    ensures Held(HandleRequestVote(s, req).0)
  {
    hide LogUpToDate, Save;
  }

  lemma GrowHeld(cfg: Config, s: Node, batch: seq<(nat, Command)>)
    requires Held(s)
    ensures Held(AppendProposals(cfg, s, batch).0)
  {
    hide AddWaiters, Save, CommitCandidate;
    AddedWaiters(s.waiters, LastIndex(s.log), s.term, batch);
  }

  lemma ReplyHeld(cfg: Config, s: Node, peer: NodeId, req: AppendReq, sentAt: nat, resp: AppendResp)
    requires Held(s)
    ensures Held(OnAppendReply(cfg, s, peer, req, sentAt, resp).0)
  {
    hide Save, BacktrackTo, CommitCandidate;
  }

  lemma SnapReplyHeld(cfg: Config, s: Node, peer: NodeId, req: SnapReq, sentAt: nat, respTerm: nat)
    requires Held(s)
    ensures Held(OnSnapshotReply(cfg, s, peer, req, sentAt, respTerm).0)
  {
    hide Save, CommitCandidate;
  }

  lemma ApplierHeld(cfg: Config, s: Node, a: ApplierStep)
    requires Held(s) && ApplierEnabled(s, a)
    ensures Held(ApplierDo(cfg, s, a).0)
  {
    hide AppliedAnswers, SaveSnapshot, Slice, TermIn, SnapshotNeeded;
  }

  lemma WinHeld(cfg: Config, s: Node, now: nat)
    requires Held(s)
    ensures Held(BecomeLeader(cfg, s, now))
  {
    hide Save, CommitCandidate, NewLead;
  }

  lemma EffectHeld(s: Group, step: Step)
    requires Enabled(s, step) && !step.Transmit? && Held(s.nodes[Actor(step)])
    ensures Held(EffectOf(s, step).node)
  {
    hide Held, HandleRequestVote, HandleAppendEntries, HandleInstallSnapshot, BecomeFollower, OnAppendReply,
         OnSnapshotReply, HandlePreVote, HasQuorumAckSince, CaughtUp, VoteRequest, BecomeLeader, CutDisk, Save,
         PrepareAppend, ProposalEntries, AppendProposals, ApplierDo, ApplierEnabled, IsQuorum, PreGranted, VoteGranted;
    var n, node := Actor(step), s.nodes[Actor(step)];
    match step
    case Crash(_) => NoneHeld(EffectOf(s, step).node);
    case CutAnswer(_, _, _) => NoneHeld(EffectOf(s, step).node);
    case CutPropose(_, _, _) => NoneHeld(EffectOf(s, step).node);
    case Campaign(_, _) => StandHeld(Cfg(s, n), node);
    case CampaignNow(_, _) => StandHeld(Cfg(s, n), node);
    case AnswerVote(_, m) => AnswerHeld(node, m);
    case AnswerAppend(_, m) => AnswerHeld(node, m);
    case AnswerSnapshot(_, m) => AnswerHeld(node, m);
    case LearnTerm(_, m) => StepDownHeld(node, m.voteResp.term, NO_NODE); NoneHeld(EffectOf(s, step).node);
    case CheckQuorum(_, _) => StepDownHeld(node, node.term, NO_NODE); NoneHeld(EffectOf(s, step).node);
    case WinElection(_, _) => WinHeld(Cfg(s, n), node, s.now);
    case Propose(_, batch) => GrowHeld(Cfg(s, n), node, batch);
    case TakeAppendReply(_, m) => ReplyHeld(Cfg(s, n), node, m.from, m.append, m.sentAt, m.appendResp);
    case TakeSnapshotReply(_, m) => SnapReplyHeld(Cfg(s, n), node, m.from, m.install, m.sentAt, m.respTerm);
    case Applier(_, a) => ApplierHeld(Cfg(s, n), node, a);
    case BeginTransfer(_, _) => HoldsOn(node, EffectOf(s, step).node);
    case EndTransfer(_) => HoldsOn(node, EffectOf(s, step).node);
    case _ =>
  }

  lemma StandHeld(cfg: Config, s: Node)
    requires Held(s) && s.role != Leader
    ensures Held(StartElection(cfg, s).0)
  {
    hide Save;
  }

  ghost predicate AllHeld(s: Group) {
    forall n :: n in s.nodes ==> Held(s.nodes[n])
  }

  lemma StepHeld(s: Group, step: Step)
    requires Enabled(s, step) && AllHeld(s)
    ensures AllHeld(Do(s, step))
  {
    hide Enabled, Do, EffectOf, Held;
    DoShape(s, step);
    if !step.Transmit? {
      EffectHeld(s, step);
    }
  }

  // ------------------------------------------------------------------
  // Every step of the group
  // ------------------------------------------------------------------

  lemma OwnWaiters(s: Group, step: Step)
    requires AnsweredOnce(s) && Enabled(s, step) && !step.Transmit?
    ensures Own(s.nodes[Actor(step)].waiters, News(step))
  {
    NewsAreNew(s, step);
    var n := Actor(step);
    var w := s.nodes[n].waiters;
    forall i, j | i in w && j in w && w[i].pid == w[j].pid
      ensures i == j
    {
      assert s.nodes[n].waiters[i].pid == s.nodes[n].waiters[j].pid;
    }
  }

  /** One replica's step, seen from the group. */
  ghost predicate Moved(s: Group, s': Group, n: NodeId, ans: set<Answer>, news: Submissions) {
    && n in s.nodes && s'.nodes.Keys == s.nodes.Keys
    && (forall m :: m in s.nodes && m != n ==> s'.nodes[m] == s.nodes[m])
    && s'.proposed == s.proposed + news
    && news.Keys !! s.proposed.Keys
    && s'.answered == s.answered + ans
  }

  lemma MovesAnsweredOnce(s: Group, s': Group, n: NodeId, ans: set<Answer>, news: Submissions)
    requires AnsweredOnce(s) && Moved(s, s', n, ans, news)
    requires Own(s.nodes[n].waiters, news) && Moves(s.nodes[n].waiters, s'.nodes[n].waiters, ans, news)
    ensures AnsweredOnce(s')
  {
    hide Moved, Own, Moves, WaitersAsProposed, WaitersApart, AnswersAsProposed, AnswersApart, AnsweredOrWaiting;
    MovesKeepCommands(s, s', n, ans, news);
    MovesKeepWaitersApart(s, s', n, ans, news);
    MovesKeepAnswersApart(s, s', n, ans, news);
    MovesKeepDone(s, s', n, ans, news);
  }

  lemma MovesKeepCommands(s: Group, s': Group, n: NodeId, ans: set<Answer>, news: Submissions)
    requires Moved(s, s', n, ans, news) && Moves(s.nodes[n].waiters, s'.nodes[n].waiters, ans, news)
    requires WaitersAsProposed(s) && AnswersAsProposed(s)
    ensures WaitersAsProposed(s') && AnswersAsProposed(s')
  {
  }

  lemma MovesKeepWaitersApart(s: Group, s': Group, n: NodeId, ans: set<Answer>, news: Submissions)
    requires Moved(s, s', n, ans, news) && Moves(s.nodes[n].waiters, s'.nodes[n].waiters, ans, news)
    requires WaitersAsProposed(s) && WaitersApart(s)
    ensures WaitersApart(s')
  {
    hide Moved, Moves, WaitersAsProposed, WaitersApart;
    MovedKeys(s, s', n, ans, news);
    forall m, i, q, j |
      && m in s'.nodes && i in s'.nodes[m].waiters
      && q in s'.nodes && j in s'.nodes[q].waiters
      && s'.nodes[m].waiters[i].pid == s'.nodes[q].waiters[j].pid
      ensures m == q && i == j
    {
      Origin(s, s', n, ans, news, m, i);
      Origin(s, s', n, ans, news, q, j);
      PairApart(s, s', n, ans, news, m, i, q, j);
    }
    WaitersApartMeans(s');
  }

  lemma MovedKeys(s: Group, s': Group, n: NodeId, ans: set<Answer>, news: Submissions)
    requires Moved(s, s', n, ans, news)
    ensures s'.nodes.Keys == s.nodes.Keys && n in s.nodes
  {
  }

  lemma WaitersApartMeans(s: Group)
    requires forall n, i, m, j ::
               (&& n in s.nodes && i in s.nodes[n].waiters
                && m in s.nodes && j in s.nodes[m].waiters
                && s.nodes[n].waiters[i].pid == s.nodes[m].waiters[j].pid) ==> n == m && i == j
    ensures WaitersApart(s)
  {
  }

  /** A waiter was there before, or is one of the new ones at the replica that stepped. */
  ghost predicate Came(s: Group, s': Group, n: NodeId, news: Submissions, m: NodeId, i: nat) {
    && m in s.nodes && m in s'.nodes && i in s'.nodes[m].waiters
    && var p := s'.nodes[m].waiters[i];
       if p.pid in news then m == n else i in s.nodes[m].waiters && s.nodes[m].waiters[i] == p
  }

  lemma Origin(s: Group, s': Group, n: NodeId, ans: set<Answer>, news: Submissions, m: NodeId, i: nat)
    requires Moved(s, s', n, ans, news) && Moves(s.nodes[n].waiters, s'.nodes[n].waiters, ans, news)
    requires WaitersAsProposed(s) && m in s'.nodes && i in s'.nodes[m].waiters
    ensures Came(s, s', n, news, m, i)
  {
  }

  lemma PairApart(s: Group, s': Group, n: NodeId, ans: set<Answer>, news: Submissions, m: NodeId, i: nat, q: NodeId,
                  j: nat)
    requires n in s.nodes && n in s'.nodes && Moves(s.nodes[n].waiters, s'.nodes[n].waiters, ans, news)
             && WaitersApart(s)
    requires Came(s, s', n, news, m, i) && Came(s, s', n, news, q, j)
    requires s'.nodes[m].waiters[i].pid == s'.nodes[q].waiters[j].pid
    ensures m == q && i == j
  {
    if s'.nodes[m].waiters[i].pid !in news {
      assert s.nodes[m].waiters[i].pid == s.nodes[q].waiters[j].pid;
    }
  }

  lemma MovesKeepAnswersApart(s: Group, s': Group, n: NodeId, ans: set<Answer>, news: Submissions)
    requires Moved(s, s', n, ans, news) && Moves(s.nodes[n].waiters, s'.nodes[n].waiters, ans, news)
    requires AnswersAsProposed(s) && AnswersApart(s) && AnsweredOrWaiting(s)
    ensures AnswersApart(s')
  {
  }

  lemma MovesKeepDone(s: Group, s': Group, n: NodeId, ans: set<Answer>, news: Submissions)
    requires Moved(s, s', n, ans, news) && Moves(s.nodes[n].waiters, s'.nodes[n].waiters, ans, news)
    requires WaitersAsProposed(s) && WaitersApart(s) && AnswersAsProposed(s) && AnsweredOrWaiting(s)
    ensures AnsweredOrWaiting(s')
  {
    hide Moves, WaitersAsProposed, WaitersApart, AnswersAsProposed, Came;
    forall a, m, i | a in s'.answered && m in s'.nodes && i in s'.nodes[m].waiters
      ensures s'.nodes[m].waiters[i].pid != a.pid
    {
      Origin(s, s', n, ans, news, m, i);
      DoneApart(s, s', n, ans, news, a, m, i);
    }
  }

  lemma DoneApart(s: Group, s': Group, n: NodeId, ans: set<Answer>, news: Submissions, a: Answer, m: NodeId, i: nat)
    requires Moved(s, s', n, ans, news) && Moves(s.nodes[n].waiters, s'.nodes[n].waiters, ans, news)
             && Came(s, s', n, news, m, i)
    requires AnswersAsProposed(s) && WaitersApart(s) && AnsweredOrWaiting(s) && WaitersAsProposed(s) && a in s'.answered
    ensures s'.nodes[m].waiters[i].pid != a.pid
  {
    if a in s.answered {
      NotNews(s, s', n, ans, news, a);
    } else if a.pid !in news && m != n {
      var j :| j in s.nodes[n].waiters && s.nodes[n].waiters[j].pid == a.pid;
      assert s.nodes[m].waiters[i].pid != s.nodes[n].waiters[j].pid;
    }
  }

  lemma NotNews(s: Group, s': Group, n: NodeId, ans: set<Answer>, news: Submissions, a: Answer)
    requires Moved(s, s', n, ans, news) && AnswersAsProposed(s) && a in s.answered
    ensures a.pid !in news
  {
  }

  lemma MovesForgetNone(s: Group, s': Group, n: NodeId, ans: set<Answer>, news: Submissions)
    requires NoneForgotten(s) && Moved(s, s', n, ans, news)
    requires Keeps(s.nodes[n].waiters, s'.nodes[n].waiters, ans, news)
    ensures NoneForgotten(s')
  {
    var w, w' := s.nodes[n].waiters, s'.nodes[n].waiters;
    forall pid | pid in s'.proposed
      ensures Waits(s', pid) || IsAnswered(s', pid)
    {
      if pid in news {
        if i :| i in w' && w'[i].pid == pid {
          assert Waits(s', pid);
        } else {
          var a :| a in ans && a.pid == pid;
          assert IsAnswered(s', pid);
        }
      } else if IsAnswered(s, pid) {
        var a :| a in s.answered && a.pid == pid;
        assert a in s'.answered;
      } else {
        var m, i :| m in s.nodes && i in s.nodes[m].waiters && s.nodes[m].waiters[i].pid == pid;
        StillThere(s, s', n, m, i, ans, news);
      }
    }
  }

  lemma StillThere(s: Group, s': Group, n: NodeId, m: NodeId, i: nat, ans: set<Answer>, news: Submissions)
    requires n in s.nodes && m in s.nodes && i in s.nodes[m].waiters && s'.nodes.Keys == s.nodes.Keys
    requires m != n ==> s'.nodes[m] == s.nodes[m]
    requires s'.answered == s.answered + ans
    requires Keeps(s.nodes[n].waiters, s'.nodes[n].waiters, ans, news)
    ensures Waits(s', s.nodes[m].waiters[i].pid) || IsAnswered(s', s.nodes[m].waiters[i].pid)
  {
    if i in s'.nodes[m].waiters && s'.nodes[m].waiters[i] == s.nodes[m].waiters[i] {
      assert Waits(s', s.nodes[m].waiters[i].pid);
    } else {
      var a :| a in ans && a.pid == s.nodes[m].waiters[i].pid;
      assert a in s'.answered;
    }
  }

  lemma DoMoves(s: Group, step: Step)
    requires Enabled(s, step) && !step.Transmit?
    ensures var s', e, n := Do(s, step), EffectOf(s, step), Actor(step);
            s'.nodes == s.nodes[n := e.node] && Moved(s, s', n, e.answers, News(step))
  {
    hide EffectOf, Submitted, Cfg, PrepareAppend;
    NewsAreNew(s, step);
    DoShape(s, step);
  }

  lemma NewsAreNew(s: Group, step: Step)
    requires Enabled(s, step)
    ensures News(step).Keys !! s.proposed.Keys
  {
    if step.Propose? || step.CutPropose? {
      SubmittedReads(step.batch);
    }
  }

  lemma StepAnswers(s: Group, step: Step)
    requires AllHeld(s) && Enabled(s, step) && AnsweredOnce(s)
    ensures AnsweredOnce(Do(s, step))
    ensures !IsCrash(step) && NoneForgotten(s) ==> NoneForgotten(Do(s, step))
  {
    hide Enabled, EffectOf, Moves, Keeps, Own, Held, AnsweredOnce, NoneForgotten, Moved;
    if step.Transmit? {
      TransmitAnswers(s, step);
    } else {
      DoMoves(s, step);
      OwnWaiters(s, step);
      ActorPresent(s, step);
      EffectMoves(s, step);
      var e := EffectOf(s, step);
      MovesAnsweredOnce(s, Do(s, step), Actor(step), e.answers, News(step));
      if !IsCrash(step) && NoneForgotten(s) {
        MovesForgetNone(s, Do(s, step), Actor(step), e.answers, News(step));
      }
    }
  }

  lemma TransmitAnswers(s: Group, step: Step)
    requires Enabled(s, step) && step.Transmit? && AnsweredOnce(s)
    ensures AnsweredOnce(Do(s, step))
    ensures NoneForgotten(s) ==> NoneForgotten(Do(s, step))
  {
    var s' := Do(s, step);
    if NoneForgotten(s) {
      forall pid | pid in s'.proposed
        ensures Waits(s', pid) || IsAnswered(s', pid)
      {
        assert Waits(s, pid) || IsAnswered(s, pid);
      }
    }
  }

  /** Over any whole run, timely or not, each proposal is answered at most
      once; in a run without crashes each one is still waiting or has been
      answered. */
  lemma {:induction false} ProposalsAccounted(run: seq<Group>, steps: seq<Step>, k: nat)
    requires IsRun(run, steps) && k < |run|
    ensures AnsweredOnce(run[k]) && AllHeld(run[k])
    ensures (forall i :: 0 <= i < k ==> !IsCrash(steps[i])) ==> NoneForgotten(run[k])
  {
    hide Enabled, Do, Init, AnsweredOnce, NoneForgotten, AllHeld;
    if k == 0 {
      StartAccounted(run[0]);
    } else {
      ProposalsAccounted(run, steps, k - 1);
      StepAnswers(run[k - 1], steps[k - 1]);
      StepHeld(run[k - 1], steps[k - 1]);
    }
  }

  lemma StartAccounted(s: Group)
    requires Init(s)
    ensures AnsweredOnce(s) && NoneForgotten(s) && AllHeld(s)
  {
  }
}
