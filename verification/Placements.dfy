/** A result handed to a client is the result of the very command it proposed,
    at an index no other proposal is answered at. */
module Placements {
  import opened Types
  import opened LogSpec
  import opened DiskSpec
  import opened Replica
  import opened Cluster
  import opened Link
  import opened Frames
  import opened NodeApplier
  import opened Steps
  import opened Safety
  import opened Proposals
  import C = Consensus

  /** The proposal that a leader placed at an index in a term. */
  type Owners = map<(nat, nat), nat>

  ghost predicate OwnersOk(ll: Logs, own: Owners) {
    forall i: nat, t: nat :: (i, t) in own ==> t in ll && i <= |ll[t]|
  }

  predicate Owns(own: Owners, i: nat, t: nat, pid: nat) {
    (i, t) in own && own[(i, t)] == pid
  }

  ghost predicate WaitersOwn(own: Owners, w: Waiters) {
    forall i :: i in w ==> Owns(own, i, w[i].term, w[i].pid)
  }

  /** The committed entry at the answered index is the one placed for the proposal. */
  ghost predicate AnswerOwns(ll: Logs, commits: set<C.Commit>, own: Owners, a: Answer) {
    a.outcome.Applied? ==>
      exists c :: c in commits && c.term in ll && 0 < a.index <= c.len <= |ll[c.term]|
                  && Owns(own, a.index, ll[c.term][a.index - 1].term, a.pid)
  }

  ghost predicate OwnersProposed(proposed: Submissions, own: Owners) {
    forall i: nat, t: nat :: (i, t) in own ==> own[(i, t)] in proposed
  }

  ghost predicate Placed(s: Group, h: C.History, own: Owners) {
    && OwnersOk(h.leaderLog, own)
    && OwnersProposed(s.proposed, own)
    && (forall n :: n in s.nodes ==> WaitersOwn(own, s.nodes[n].waiters))
    && (forall a :: a in s.answered ==> AnswerOwns(h.leaderLog, h.commits, own, a))
  }

  /** Nothing in `own` changes. */
  ghost predicate OwnersGrow(own: Owners, own': Owners) {
    forall i: nat, t: nat :: (i, t) in own ==> Owns(own', i, t, own[(i, t)])
  }

  /** What is new was proposed now, and lies beyond what leaders had. */
  ghost predicate OwnersNew(ll: Logs, news: Submissions, own: Owners, own': Owners) {
    forall i: nat, t: nat :: (i, t) in own' && (i, t) !in own ==>
      own'[(i, t)] in news && (t in ll ==> i > |ll[t]|)
  }

  function AddOwners(own: Owners, last: nat, term: nat, batch: seq<(nat, Command)>): Owners {
    if |batch| == 0 then own
    else AddOwners(own, last, term, batch[..|batch| - 1])[(last + |batch|, term) := batch[|batch| - 1].0]
  }

  lemma {:induction false} AddedOwners(own: Owners, last: nat, term: nat, batch: seq<(nat, Command)>)
    ensures var own' := AddOwners(own, last, term, batch);
            && (forall i: nat, t: nat :: (i, t) in own' <==> (i, t) in own || (t == term && last < i <= last + |batch|))
            && (forall i: nat, t: nat :: (i, t) in own && !(t == term && last < i <= last + |batch|) ==>
              own'[(i, t)] == own[(i, t)])
            && (forall i :: last < i <= last + |batch| ==> own'[(i, term)] == batch[i - last - 1].0)
  {
    if |batch| > 0 {
      AddedOwners(own, last, term, batch[..|batch| - 1]);
    }
  }

  // ------------------------------------------------------------------
  // What stays as the history and the owners grow
  // ------------------------------------------------------------------

  lemma AnswerStays(h: C.History, h': C.History, own: Owners, own': Owners, a: Answer)
    requires Later(h, h') && OwnersGrow(own, own') && AnswerOwns(h.leaderLog, h.commits, own, a)
    ensures AnswerOwns(h'.leaderLog, h'.commits, own', a)
  {
    if a.outcome.Applied? {
      var c :| c in h.commits && c.term in h.leaderLog && 0 < a.index <= c.len <= |h.leaderLog[c.term]|
               && Owns(own, a.index, h.leaderLog[c.term][a.index - 1].term, a.pid);
      assert Agree(h.leaderLog[c.term], h'.leaderLog[c.term], |h.leaderLog[c.term]|);
    }
  }

  lemma OwnersStay(h: C.History, h': C.History, own: Owners)
    requires Later(h, h') && OwnersOk(h.leaderLog, own)
    ensures OwnersOk(h'.leaderLog, own)
  {
    forall i: nat, t: nat | (i, t) in own
      ensures t in h'.leaderLog && i <= |h'.leaderLog[t]|
    {
      assert Agree(h.leaderLog[t], h'.leaderLog[t], |h.leaderLog[t]|);
    }
  }

  lemma WaitersStay(own: Owners, own': Owners, w: Waiters, w': Waiters)
    requires OwnersGrow(own, own') && WaitersOwn(own, w) && forall i :: i in w' ==> i in w && w'[i] == w[i]
    ensures WaitersOwn(own', w')
  {
  }

  // ------------------------------------------------------------------
  // Steps
  // ------------------------------------------------------------------

  /** A leader places a batch above everything its term has in the log. */
  lemma BatchPlaced(h: C.History, own: Owners, w: Waiters, last: nat, term: nat, batch: seq<(nat, Command)>)
    requires OwnersOk(h.leaderLog, own) && WaitersOwn(own, w)
    requires term in h.leaderLog && |h.leaderLog[term]| == last && DistinctIds(batch)
    ensures var own' := AddOwners(own, last, term, batch);
            && OwnersGrow(own, own')
            && OwnersNew(h.leaderLog, Submitted(batch), own, own')
            && WaitersOwn(own', AddWaiters(w, last, term, batch))
  {
    hide AddOwners, AddWaiters, Submitted;
    AddedOwners(own, last, term, batch);
    AddedWaiters(w, last, term, batch);
    SubmittedReads(batch);
    assert forall j :: 0 <= j < |batch| ==> ProposedAs(Submitted(batch), batch[j].0, batch[j].1);
  }

  lemma BatchInLog(h: C.History, h': C.History, own: Owners, last: nat, term: nat, batch: seq<(nat, Command)>)
    requires Later(h, h') && OwnersOk(h.leaderLog, own)
    requires term in h'.leaderLog && |h'.leaderLog[term]| >= last + |batch|
    ensures OwnersOk(h'.leaderLog, AddOwners(own, last, term, batch))
  {
    hide AddOwners;
    AddedOwners(own, last, term, batch);
    OwnersStay(h, h', own);
  }

  /** Only applying produces results. */
  lemma OnlyApplierApplies(s: Group, step: Step)
    requires Enabled(s, step) && !step.Transmit? && !step.Applier?
    ensures forall a :: a in EffectOf(s, step).answers ==> a.outcome.Failed?
  {
    hide Persist, AppendSameTerm, InstallSameTerm, LogUpToDate, AdvanceCommit, BacktrackTo, PrepareAppend, Save,
         CutDisk, GrowLog;
  }

  lemma FinishOwns(h: C.History, w: Machine, now: nat, others: seq<NodeId>, n: NodeId, s: Node, own: Owners, a: Answer)
    requires NodeOk(h, w, now, others, n, s) && WaitersOwn(own, s.waiters) && Indexed(h.logs[n])
    requires C.CommitsOk(h.peers, h.leaderLog, h.acks, h.commits) && AllApplied(s) && a in AppliedAnswers(s)
    ensures AnswerOwns(h.leaderLog, h.commits, own, a)
  {
    hide LeaderOk, CandidateOk, DiskOk, Replay, C.CommitOk;
    var es := s.appl.phase.entries;
    var j :| 0 <= j < |es| && es[j].index in s.waiters
        && FirstAt(es, j) && a == AnswerFor(s.waiters[es[j].index], es[j], s.appl.phase.results[j]);
    FinishEntry(w, h.logs[n], s, j);
    var full, k := h.logs[n], s.appl.lastApplied + j;
    assert Owns(own, k + 1, full[k].term, a.pid);
    CommittedOwner(h, full, s.commitIndex, s.term, own, k, a);
  }

  lemma CommittedOwner(h: C.History, full: seq<Entry>, commit: nat, t: nat, own: Owners, k: nat, a: Answer)
    requires Committed(h.leaderLog, h.commits, full, commit, t) && C.CommitsOk(h.peers, h.leaderLog, h.acks, h.commits)
    requires k < commit && a.index == k + 1 && Owns(own, k + 1, full[k].term, a.pid)
    ensures AnswerOwns(h.leaderLog, h.commits, own, a)
  {
    var c :| c in h.commits && c.term <= t && commit <= c.len && c.term in h.leaderLog
        && Agree(full, h.leaderLog[c.term], commit);
    assert C.CommitOk(h.peers, h.leaderLog, h.acks, c);
  }

  lemma NewAnswersOwn(s: Group, h: C.History, step: Step, own: Owners)
    requires Inv(s, h) && Enabled(s, step) && !step.Transmit? && WaitersOwn(own, s.nodes[Actor(step)].waiters)
    ensures forall a :: a in EffectOf(s, step).answers ==> AnswerOwns(h.leaderLog, h.commits, own, a)
  {
    hide Inv, Linked, NodeOk, C.Inv, C.CommitsOk, C.LeaderLogsOk, C.AcksOk, C.Complete, C.LeadersGrown, C.CampaignsOk,
         AnswerOwns, WaitersOwn, AppliedAnswers, AllApplied, C.Good, Indexed;
    if step.Applier? {
      var n, node := step.n, s.nodes[step.n];
      InvParted(s, h);
      NodeAt(s, h, n);
      NodeKnown(h, s.machine, s.now, Others(s.peers, n), n, node);
      C.CommitParts(h);
      C.LogParts(h);
      if step.a.ApplyDone? {
        forall a | a in AppliedAnswers(node)
          ensures AnswerOwns(h.leaderLog, h.commits, own, a)
        {
          FinishOwns(h, s.machine, s.now, Others(s.peers, n), n, node, own, a);
        }
      }
    } else {
      OnlyApplierApplies(s, step);
      FailedOwn(h, own, EffectOf(s, step).answers);
    }
  }

  lemma FailedOwn(h: C.History, own: Owners, ans: set<Answer>)
    requires forall a :: a in ans ==> a.outcome.Failed?
    ensures forall a :: a in ans ==> AnswerOwns(h.leaderLog, h.commits, own, a)
  {
  }

  /** A step that takes in no proposals leaves waiters as they are, or drops them. */
  lemma QuietWaiters(s: Group, step: Step)
    requires AllHeld(s) && Enabled(s, step) && AnsweredOnce(s) && !step.Transmit? && !step.Propose?
    ensures var w, w' := s.nodes[Actor(step)].waiters, EffectOf(s, step).node.waiters;
            forall i :: i in w' ==> i in w && w'[i] == w[i]
  {
    hide Enabled, AnsweredOnce, Own, Held, Keeps, EffectOf;
    OwnWaiters(s, step);
    ActorPresent(s, step);
    EffectMoves(s, step);
    if step.CutPropose? {
      CrashedWaiters(s, step);
    }
  }

  lemma CrashedWaiters(s: Group, step: Step)
    requires Enabled(s, step) && IsCrash(step)
    ensures EffectOf(s, step).node.waiters == map[]
  {
    hide CutDisk, Save;
  }

  lemma ProposeWaiters(s: Group, step: Step)
    requires Enabled(s, step) && step.Propose?
    ensures var node := s.nodes[step.n];
            var added := AddWaiters(node.waiters, LastIndex(node.log), node.term, step.batch);
            EffectOf(s, step).node.waiters == if TakesProposals(node) then added else node.waiters
  {
    hide GrowLog, AdvanceCommit, AddWaiters;
    var node := s.nodes[step.n];
    var es := ProposalEntries(LastIndex(node.log), node.term, step.batch);
    GrowWaiters(node, es);
    AdvanceWaiters(Cfg(s, step.n),
          GrowLog(node, es).(waiters := AddWaiters(node.waiters, LastIndex(node.log), node.term, step.batch)));
  }

  /** After a batch was taken the leader's log holds it. */
  lemma ProposedLog(s: Group, step: Step)
    requires Enabled(s, step) && step.Propose? && TakesProposals(s.nodes[step.n])
    ensures var node, node' := s.nodes[step.n], EffectOf(s, step).node;
            node'.role == Leader && node'.term == node.term
                && LastIndex(node'.log) == LastIndex(node.log) + |step.batch|
  {
    hide AddWaiters, Save, CommitCandidate;
  }

  /** The leader's log before and after it takes a batch, in the history. */
  lemma LogsAround(s: Group, h: C.History, step: Step, h': C.History)
    requires Inv(s, h) && Enabled(s, step) && step.Propose? && Inv(Do(s, step), h') && TakesProposals(s.nodes[step.n])
    ensures var node := s.nodes[step.n];
            && node.term in h.leaderLog && |h.leaderLog[node.term]| == LastIndex(node.log)
            && node.term in h'.leaderLog && |h'.leaderLog[node.term]| == LastIndex(node.log) + |step.batch|
  {
    hide Inv, Enabled, EffectOf, Do, C.Good, C.TermsAtMost, LastTerm, Linked, C.Inv;
    DoShape(s, step);
    ProposedLog(s, step);
    InvParted(s, h);
    InvParted(Do(s, step), h');
    LeaderRecorded(s, h, step.n);
    NodeLog(s, h, step.n);
    LeaderRecorded(Do(s, step), h', step.n);
    NodeLog(Do(s, step), h', step.n);
  }

  /** The owners after a step, and what they own at the node that took it. */
  lemma ActorPlaced(s: Group, h: C.History, step: Step, h': C.History, own: Owners) returns (own': Owners)
    requires Inv(s, h) && Enabled(s, step) && AnsweredOnce(s) && AllHeld(s) && Inv(Do(s, step), h') && Later(h, h')
    requires !step.Transmit? && OwnersOk(h.leaderLog, own) && WaitersOwn(own, s.nodes[Actor(step)].waiters)
    ensures OwnersGrow(own, own') && OwnersOk(h'.leaderLog, own') && OwnersNew(h.leaderLog, News(step), own, own')
    ensures WaitersOwn(own', EffectOf(s, step).node.waiters)
  {
    hide Inv, Enabled, AnsweredOnce, AllHeld, Later, OwnersOk, WaitersOwn, EffectOf, Do, AddOwners, AddWaiters,
         OwnersGrow, Submitted;
    ActorPresent(s, step);
    var node := s.nodes[Actor(step)];
    own' := own;
    OwnersStay(h, h', own);
    GrowRefl(own);
    if step.Propose? {
      ProposeWaiters(s, step);
      if TakesProposals(node) {
        own' := AddOwners(own, LastIndex(node.log), node.term, step.batch);
        LogsAround(s, h, step, h');
        FreshAreDistinct(s, step);
        BatchPlaced(h, own, node.waiters, LastIndex(node.log), node.term, step.batch);
        BatchInLog(h, h', own, LastIndex(node.log), node.term, step.batch);
      }
    } else {
      QuietWaiters(s, step);
      WaitersStay(own, own, node.waiters, EffectOf(s, step).node.waiters);
    }
  }

  lemma StepPlaced(s: Group, h: C.History, step: Step, h': C.History, own: Owners) returns (own': Owners)
    requires Inv(s, h) && Enabled(s, step) && AnsweredOnce(s) && AllHeld(s) && Inv(Do(s, step), h') && Later(h, h')
             && Placed(s, h, own)
    ensures Placed(Do(s, step), h', own')
    ensures OwnersGrow(own, own') && OwnersNew(h.leaderLog, News(step), own, own')
  {
    hide Inv, Enabled, AnsweredOnce, AllHeld, Later, OwnersOk, WaitersOwn, AnswerOwns, EffectOf, OwnersGrow, OwnersNew,
         OwnersProposed, Moved, News;
    own' := own;
    GrowRefl(own);
    OwnersStay(h, h', own);
    if !step.Transmit? {
      hide Do;
      ActorPresent(s, step);
      own' := ActorPlaced(s, h, step, h', own);
      NewAnswersOwn(s, h, step, own);
      DoMoves(s, step);
      MovedAnswers(s, Do(s, step), Actor(step), EffectOf(s, step).answers, News(step));
      MoreProposed(s.proposed, News(step), h.leaderLog, own, own');
      forall n | n in s.nodes && n != Actor(step)
        ensures WaitersOwn(own', s.nodes[n].waiters)
      {
        WaitersStay(own, own', s.nodes[n].waiters, s.nodes[n].waiters);
      }
    }
    forall a | a in Do(s, step).answered
      ensures AnswerOwns(h'.leaderLog, h'.commits, own', a)
    {
      AnswerStays(h, h', own, own', a);
    }
  }

  lemma GrowRefl(own: Owners)
    ensures OwnersGrow(own, own)
    ensures forall ll: Logs, news :: OwnersNew(ll, news, own, own)
  {
  }

  lemma MovedAnswers(s: Group, s': Group, n: NodeId, ans: set<Answer>, news: Submissions)
    requires Moved(s, s', n, ans, news)
    ensures s'.answered == s.answered + ans && s'.proposed == s.proposed + news
  {
  }

  lemma FreshAreDistinct(s: Group, step: Step)
    requires Enabled(s, step) && step.Propose?
    ensures DistinctIds(step.batch)
  {
  }

  lemma MoreProposed(proposed: Submissions, news: Submissions, ll: Logs, own: Owners, own': Owners)
    requires OwnersProposed(proposed, own) && OwnersGrow(own, own') && OwnersNew(ll, news, own, own')
    ensures OwnersProposed(proposed + news, own')
  {
    forall i: nat, t: nat | (i, t) in own'
      ensures own'[(i, t)] in proposed + news
    {
      assert (i, t) in own ==> Owns(own', i, t, own[(i, t)]);
    }
  }

  // ------------------------------------------------------------------
  // Runs
  // ------------------------------------------------------------------

  lemma {:induction false} RunPlaced(run: seq<Group>, steps: seq<Step>, hs: seq<C.History>, k: nat)
      returns (own: Owners)
    requires TimelyRun(run, steps) && Explains(hs, run) && k < |run|
    ensures Placed(run[k], hs[k], own)
    decreases k
  {
    hide Inv, Enabled, Do, AnsweredOnce, AllHeld, NoneForgotten, Placed, Later, Timely;
    if k == 0 {
      own := map[];
      StartPlaced(run[0], hs[0]);
    } else {
      var before := RunPlaced(run, steps, hs, k - 1);
      ProposalsAccounted(run, steps, k - 1);
      assert Later(hs[k - 1], hs[k]);
      own := StepPlaced(run[k - 1], hs[k - 1], steps[k - 1], hs[k], before);
    }
  }

  /** What is placed after state `i` is placed beyond what leaders had by then. */
  lemma {:induction false} PlacedSince(run: seq<Group>, steps: seq<Step>, hs: seq<C.History>, i: nat, was: Owners,
                                       k: nat)
      returns (own: Owners)
    requires TimelyRun(run, steps) && Explains(hs, run) && i <= k < |run| && Placed(run[i], hs[i], was)
    ensures Placed(run[k], hs[k], own) && OwnersGrow(was, own)
    ensures forall x: nat, t: nat ::
              (x, t) in own && (x, t) !in was && t in hs[i].leaderLog ==> x > |hs[i].leaderLog[t]|
    decreases k
  {
    hide Inv, Enabled, Do, AnsweredOnce, AllHeld, NoneForgotten, Placed, Later, Timely, OwnersGrow, OwnersNew;
    if k == i {
      own := was;
      GrowRefl(was);
    } else {
      var before := PlacedSince(run, steps, hs, i, was, k - 1);
      ProposalsAccounted(run, steps, k - 1);
      assert Later(hs[k - 1], hs[k]) && Later(hs[i], hs[k - 1]);
      own := StepPlaced(run[k - 1], hs[k - 1], steps[k - 1], hs[k], before);
      SinceOn(hs[i], hs[k - 1], News(steps[k - 1]), was, before, own);
    }
  }

  lemma SinceOn(h: C.History, h1: C.History, news: Submissions, was: Owners, before: Owners, own: Owners)
    requires Later(h, h1) && OwnersGrow(was, before) && OwnersGrow(before, own)
             && OwnersNew(h1.leaderLog, news, before, own)
    requires forall x: nat, t: nat ::
               (x, t) in before && (x, t) !in was && t in h.leaderLog ==> x > |h.leaderLog[t]|
    ensures OwnersGrow(was, own)
    ensures forall x: nat, t: nat :: (x, t) in own && (x, t) !in was && t in h.leaderLog ==> x > |h.leaderLog[t]|
  {
    forall x: nat, t: nat | (x, t) in was
      ensures Owns(own, x, t, was[(x, t)])
    {
      assert Owns(before, x, t, was[(x, t)]);
    }
    forall x: nat, t: nat | (x, t) in own && (x, t) !in was && t in h.leaderLog
      ensures x > |h.leaderLog[t]|
    {
      assert Agree(h.leaderLog[t], h1.leaderLog[t], |h.leaderLog[t]|);
    }
  }

  lemma StartPlaced(s: Group, h: C.History)
    requires Init(s)
    ensures Placed(s, h, map[])
  {
  }

  lemma {:induction false} AnswersStay(run: seq<Group>, steps: seq<Step>, j: nat, i: nat)
    requires IsRun(run, steps) && j <= i < |run|
    ensures run[j].answered <= run[i].answered
    decreases i
  {
    hide Enabled, Init;
    if j < i {
      AnswersStay(run, steps, j, i - 1);
      AnsweredGrows(run[i - 1], steps[i - 1]);
    }
  }

  lemma AnsweredGrows(s: Group, step: Step)
    requires Enabled(s, step)
    ensures s.answered <= Do(s, step).answered
  {
    hide Do, Enabled, EffectOf;
    DoShape(s, step);
  }

  lemma OwnersDiffer(h: C.History, chosen: seq<Entry>, own: Owners, a: Answer, b: Answer)
    requires IsChosen(h, chosen) && AnswerOwns(h.leaderLog, h.commits, own, a)
             && AnswerOwns(h.leaderLog, h.commits, own, b)
    requires a.outcome.Applied? && b.outcome.Applied? && a.index == b.index
    ensures a.pid == b.pid
  {
    var c :| c in h.commits && c.term in h.leaderLog && 0 < a.index <= c.len <= |h.leaderLog[c.term]|
             && Owns(own, a.index, h.leaderLog[c.term][a.index - 1].term, a.pid);
    var d :| d in h.commits && d.term in h.leaderLog && 0 < b.index <= d.len <= |h.leaderLog[d.term]|
             && Owns(own, b.index, h.leaderLog[d.term][b.index - 1].term, b.pid);
    assert Agree(h.leaderLog[c.term], chosen, c.len) && Agree(h.leaderLog[d.term], chosen, d.len);
  }

  /** Two proposals that got results got them at different indexes. */
  lemma ResultsAtOwnIndex(run: seq<Group>, steps: seq<Step>, i: nat, a: Answer, j: nat, b: Answer)
    requires TimelyRun(run, steps) && i < |run| && j < |run| && a in run[i].answered && b in run[j].answered
    requires a.outcome.Applied? && b.outcome.Applied? && a.pid != b.pid
    ensures a.index != b.index
  {
    hide Inv, Enabled, Do, Init, AnswerOwns, OwnersOk, WaitersOwn, IsChosen, Timely;
    var hs := RunExplained(run, steps);
    var k := |run| - 1;
    var own := RunPlaced(run, steps, hs, k);
    AnswersStay(run, steps, i, k);
    AnswersStay(run, steps, j, k);
    InvParted(run[k], hs[k]);
    var chosen := TakeChosen(hs[k]);
    if a.index == b.index {
      OwnersDiffer(hs[k], chosen, own, a, b);
      assert false;
    }
  }

  /** What owns an index that was committed before was placed in a log that a
      leader had by then. */
  lemma PlacedBy(h: C.History, h': C.History, chosen: seq<Entry>, c: C.Commit, own: Owners, b: Answer)
    requires Later(h, h') && IsChosen(h', chosen) && C.LeaderLogsOk(h.leaderLog)
    requires c in h.commits && c.term in h.leaderLog && c.len <= |h.leaderLog[c.term]|
    requires AnswerOwns(h'.leaderLog, h'.commits, own, b) && b.outcome.Applied? && 0 < b.index <= c.len
    ensures exists t: nat :: Owns(own, b.index, t, b.pid) && t in h.leaderLog && b.index <= |h.leaderLog[t]|
  {
    hide Owns;
    var d :| d in h'.commits && d.term in h'.leaderLog && 0 < b.index <= d.len <= |h'.leaderLog[d.term]|
             && Owns(own, b.index, h'.leaderLog[d.term][b.index - 1].term, b.pid);
    var log, x := h.leaderLog[c.term], b.index - 1;
    assert Agree(h'.leaderLog[c.term], chosen, c.len) && Agree(h'.leaderLog[d.term], chosen, d.len);
    assert Agree(log, h'.leaderLog[c.term], |log|);
    assert log[x] == h'.leaderLog[d.term][x];
    assert C.Good(h.leaderLog, log);
    assert Owns(own, b.index, log[x].term, b.pid) && log[x].term in h.leaderLog;
  }

  lemma BeyondCommit(run: seq<Group>, steps: seq<Step>, hs: seq<C.History>, i: nat, c: C.Commit, j: nat, b: Answer)
    requires TimelyRun(run, steps) && Explains(hs, run) && i < |run| && j < |run| && b in run[j].answered
    requires c in hs[i].commits && b.outcome.Applied? && b.pid !in run[i].proposed
    ensures c.len < b.index
  {
    hide Inv, Enabled, Do, Init, AnswerOwns, OwnersOk, WaitersOwn, IsChosen, Timely, C.LeaderLogsOk, C.CommitsOk, Later,
         C.Complete, C.LeadersGrown, C.CampaignsOk, C.LogsOk, C.AcksOk;
    var k := |run| - 1;
    var was := RunPlaced(run, steps, hs, i);
    var own := PlacedSince(run, steps, hs, i, was, k);
    AnswersStay(run, steps, j, k);
    InvParted(run[k], hs[k]);
    InvParted(run[i], hs[i]);
    var chosen := TakeChosen(hs[k]);
    assert Later(hs[i], hs[k]);
    C.LogParts(hs[i]);
    C.CommitParts(hs[i]);
    CommitInLog(hs[i], c);
    if b.index <= c.len {
      ResultIndex(hs[k], own, b);
      PlacedBy(hs[i], hs[k], chosen, c, own, b);
    }
  }

  lemma CommitInLog(h: C.History, c: C.Commit)
    requires C.CommitsOk(h.peers, h.leaderLog, h.acks, h.commits) && c in h.commits
    ensures c.term in h.leaderLog && c.len <= |h.leaderLog[c.term]|
  {
  }

  /** Results follow real time: whatever any replica had committed, and so could
      show to a read, before a proposal was made lies below its result. */
  lemma LaterResultsFurther(run: seq<Group>, steps: seq<Step>, i: nat, n: NodeId, j: nat, b: Answer)
    requires TimelyRun(run, steps) && i < |run| && n in run[i].nodes && j < |run| && b in run[j].answered
    requires b.outcome.Applied? && b.pid !in run[i].proposed
    ensures run[i].nodes[n].commitIndex < b.index
  {
    hide Inv, Enabled, Do, Init, Timely, Later, AnswerOwns;
    var hs := RunExplained(run, steps);
    if run[i].nodes[n].commitIndex > 0 {
      CommitRecorded(run[i], hs[i], n);
      var c :| c in hs[i].commits && c.term <= run[i].nodes[n].term && run[i].nodes[n].commitIndex <= c.len;
      BeyondCommit(run, steps, hs, i, c, j, b);
    } else {
      var own := RunPlaced(run, steps, hs, j);
      ResultIndex(hs[j], own, b);
    }
  }

  /** So does every result given before. */
  lemma ResultsInOrder(run: seq<Group>, steps: seq<Step>, i: nat, a: Answer, j: nat, b: Answer)
    requires TimelyRun(run, steps) && i < |run| && j < |run| && a in run[i].answered && b in run[j].answered
    requires a.outcome.Applied? && b.outcome.Applied? && b.pid !in run[i].proposed
    ensures a.index < b.index
  {
    hide Inv, Enabled, Do, Init, Timely, Later, OwnersOk, WaitersOwn, OwnersProposed, Owns;
    var hs := RunExplained(run, steps);
    var own := RunPlaced(run, steps, hs, i);
    assert AnswerOwns(hs[i].leaderLog, hs[i].commits, own, a);
    var c :| c in hs[i].commits && c.term in hs[i].leaderLog && 0 < a.index <= c.len <= |hs[i].leaderLog[c.term]|
             && Owns(own, a.index, hs[i].leaderLog[c.term][a.index - 1].term, a.pid);
    BeyondCommit(run, steps, hs, i, c, j, b);
  }

  lemma ResultIndex(h: C.History, own: Owners, a: Answer)
    requires AnswerOwns(h.leaderLog, h.commits, own, a) && a.outcome.Applied?
    ensures a.index > 0
  {
  }

  /** The committed entry at the answered index carries the command proposed
      under the answered id, and the result is what applying it there gave. */
  ghost predicate Earned(s: Group, chosen: seq<Entry>, a: Answer) {
    && a.pid in s.proposed
    && 0 < a.index <= |chosen|
    && chosen[a.index - 1].payload == Normal(s.proposed[a.pid])
    && a.outcome == Applied(EntryResult(s.machine, Replay(s.machine, chosen[..a.index - 1]), chosen[a.index - 1]))
  }

  /** From proposal to answer: one sequence of entries explains every replica,
      and every result ever returned is that of the proposed command, as
      committed at an index of its own. */
  lemma ResultsBelongToProposals(run: seq<Group>, steps: seq<Step>) returns (chosen: seq<Entry>)
    requires TimelyRun(run, steps)
    ensures Indexed(chosen)
    ensures forall i, n :: 0 <= i < |run| && n in run[i].nodes ==> Reflects(run[i].machine, chosen, run[i].nodes[n])
    ensures forall i, a :: 0 <= i < |run| && a in run[i].answered && a.outcome.Applied? ==> Earned(run[i], chosen, a)
  {
    hide IsRun, Timely, Reflects, Replay, EntryResult, NoneForgotten, WaitersAsProposed, WaitersApart, AnswersApart,
         AnsweredOrWaiting;
    chosen := OneSequenceApplied(run, steps);
    forall i, a | 0 <= i < |run| && a in run[i].answered && a.outcome.Applied?
      ensures Earned(run[i], chosen, a)
    {
      ProposalsAccounted(run, steps, i);
      assert Truthful(run[i].machine, chosen, a);
    }
  }
}
