/** What holds over whole runs of a group: whatever messages are lost,
    delayed, reordered or duplicated and whichever replicas crash, all
    replicas apply prefixes of one sequence of entries, provided that the
    snapshots installed are timely. The proviso is exact: it holds if and only
    if every commit was earned by a leader (`TimelyIffEarned`). */
module Safety {
  import opened Types
  import opened Quorum
  import opened LogSpec
  import opened DiskSpec
  import opened CommitRule
  import opened Replica
  import opened Cluster
  import opened Link
  import opened Frames
  import opened NodeElection
  import opened NodeLeader
  import opened Steps
  import C = Consensus

  // ------------------------------------------------------------------
  // Every state of a run is explained by a history
  // ------------------------------------------------------------------

  /** What a later history keeps of an earlier one. */
  ghost predicate Later(h: C.History, h': C.History) {
    && C.LeadersExtend(h.leaderLog, h'.leaderLog)
    && h.commits <= h'.commits
    && (forall t :: t in h.elections ==> t in h'.elections && h'.elections[t] == h.elections[t])
  }

  lemma LaterTrans(h: C.History, h1: C.History, h2: C.History)
    requires Later(h, h1) && Later(h1, h2)
    ensures Later(h, h2)
  {
    forall t | t in h.leaderLog
      ensures t in h2.leaderLog && Agree(h.leaderLog[t], h2.leaderLog[t], |h.leaderLog[t]|)
    {
      assert Agree(h.leaderLog[t], h1.leaderLog[t], |h.leaderLog[t]|);
      assert Agree(h1.leaderLog[t], h2.leaderLog[t], |h1.leaderLog[t]|);
    }
  }

  /** One history for each state, each explaining its state, only growing, and
      with no commit that a leader of the run has not made. */
  ghost predicate Explains(hs: seq<C.History>, run: seq<Group>) {
    && |hs| == |run|
    && (forall i :: 0 <= i < |run| ==> Inv(run[i], hs[i]))
    && (forall i, j :: 0 <= i <= j < |run| ==> Later(hs[i], hs[j]))
    && (forall i, c :: 0 <= i < |run| && c in hs[i].commits ==> CommittedBy(run, i, c.term, c.len))
  }

  ghost function EmptyHistory(peers: seq<NodeId>): C.History {
    C.History(PeerSet(peers), Everywhere<nat>(peers, 0), Everywhere<NodeId>(peers, NO_NODE),
          Everywhere<seq<Entry>>(peers, []),
              map[], {}, map[], map[], map[], {})
  }

  lemma InitExplained(s: Group)
    requires Init(s)
    ensures Inv(s, EmptyHistory(s.peers))
  {
    var h := EmptyHistory(s.peers);
    EmptyInv(s.peers);
    forall n | n in s.nodes
      ensures NodeOk(h, s.machine, s.now, Others(s.peers, n), n, s.nodes[n])
    {
      BootOk(s.peers, s.machine, s.now, Others(s.peers, n), n);
    }
  }

  lemma EmptyInv(peers: seq<NodeId>)
    requires NO_NODE !in peers
    ensures C.Inv(EmptyHistory(peers))
  {
    EmptyReads(peers);
  }

  lemma EmptyReads(peers: seq<NodeId>)
    ensures var h := EmptyHistory(peers);
            && h.term.Keys == h.vote.Keys == h.logs.Keys == h.peers
            && forall n :: n in h.peers ==> h.term[n] == 0 && h.vote[n] == NO_NODE && h.logs[n] == []
  {
    EverywhereReads<nat>(peers, 0);
    EverywhereReads<NodeId>(peers, NO_NODE);
    EverywhereReads<seq<Entry>>(peers, []);
  }

  lemma BootOk(peers: seq<NodeId>, w: Machine, now: nat, others: seq<NodeId>, n: NodeId)
    requires n in peers
    ensures NodeOk(EmptyHistory(peers), w, now, others, n, Boot(w, EMPTY_DISK))
  {
    EmptyReads(peers);
  }

  lemma TimelyPrefix(run: seq<Group>, steps: seq<Step>, k: nat)
    requires TimelyRun(run, steps) && k <= |steps|
    ensures TimelyRun(run[..k + 1], steps[..k])
  {
    hide Init, Do, Enabled, Installs;
    forall i | 0 <= i < k
      ensures Timely(run[..k + 1], i, steps[i])
    {
      assert Timely(run, i, steps[i]);
      TimelyWithin(run, k + 1, i, steps[i]);
    }
  }

  /** What comes after a step does not matter to its being timely. */
  lemma TimelyWithin(run: seq<Group>, k: nat, i: nat, step: Step)
    requires i < k <= |run|
    ensures Timely(run[..k], i, step) <==> Timely(run, i, step)
  {
    hide CommittedBy;
    if step.AnswerSnapshot? && Installs(run[i], step.n, step.m) {
      CommittedWithin(run, k, i, step.m.install.term, step.m.install.snap.index);
    }
  }

  lemma CommittedWithin(run: seq<Group>, k: nat, i: nat, t: nat, idx: nat)
    requires i < k <= |run|
    ensures CommittedBy(run[..k], i, t, idx) <==> CommittedBy(run, i, t, idx)
  {
    if CommittedBy(run, i, t, idx) {
      var j, n :| 0 <= j <= i < |run| && n in run[j].nodes
        && run[j].nodes[n].role == Leader && run[j].nodes[n].term <= t && idx <= run[j].nodes[n].commitIndex;
      assert run[..k][j] == run[j];
    }
    if CommittedBy(run[..k], i, t, idx) {
      var j, n :| 0 <= j <= i < k && n in run[..k][j].nodes
        && run[..k][j].nodes[n].role == Leader && run[..k][j].nodes[n].term <= t
        && idx <= run[..k][j].nodes[n].commitIndex;
      assert run[..k][j] == run[j];
    }
  }

  /** What was committed stays committed, and more terms and fewer entries do too. */
  lemma CommittedOn(run: seq<Group>, i: nat, t: nat, idx: nat, i': nat, t': nat, idx': nat)
    requires CommittedBy(run, i, t, idx) && i <= i' < |run| && t <= t' && idx' <= idx
    ensures CommittedBy(run, i', t', idx')
  {
    var j, n :| 0 <= j <= i < |run| && n in run[j].nodes
      && run[j].nodes[n].role == Leader && run[j].nodes[n].term <= t && idx <= run[j].nodes[n].commitIndex;
    assert 0 <= j <= i' && n in run[j].nodes;
  }

  lemma CommittedNow(run: seq<Group>, i: nat, n: NodeId, t: nat, idx: nat)
    requires i < |run| && n in run[i].nodes && run[i].nodes[n].role == Leader
    requires run[i].nodes[n].term <= t && idx <= run[i].nodes[n].commitIndex
    ensures CommittedBy(run, i, t, idx)
  {
  }

  /** What a leader had committed by then is covered by a commit of its term or below. */
  lemma CommittedIsCovered(hs: seq<C.History>, run: seq<Group>, i: nat, t: nat, idx: nat)
    requires Explains(hs, run) && CommittedBy(run, i, t, idx)
    ensures Covered(hs[i], t, idx)
  {
    hide Inv;
    var j, n :| 0 <= j <= i < |run| && n in run[j].nodes
      && run[j].nodes[n].role == Leader && run[j].nodes[n].term <= t && idx <= run[j].nodes[n].commitIndex;
    CommitRecorded(run[j], hs[j], n);
    assert Later(hs[j], hs[i]);
  }

  /** The history of one more step. */
  lemma StepExplained(run: seq<Group>, steps: seq<Step>, k: nat, before: seq<C.History>) returns (h: C.History)
    requires TimelyRun(run, steps) && k < |steps| && Explains(before, run[..k + 1])
    ensures Inv(run[k + 1], h) && Later(before[k], h) && CommitsLed(before[k], h, run[k + 1])
  {
    hide Inv, Init, Do, Enabled, Later, CommittedBy, Covered, CommitsLed;
    var s, step := run[k], steps[k];
    assert run[..k + 1][k] == s && Inv(run[..k + 1][k], before[k]);
    InvParted(s, before[k]);
    if step.AnswerSnapshot? && Installs(s, step.n, step.m) {
      var req := step.m.install;
      assert Timely(run, k, step);
      CommittedWithin(run, k + 1, k, req.term, req.snap.index);
      CommittedIsCovered(before, run[..k + 1], k, req.term, req.snap.index);
    }
    h := StepKeeps(s, before[k], step);
    InvJoined(run[k + 1], h);
    ExtendsLater(before[k], h, s.now);
  }

  lemma ExplainsOneMore(before: seq<C.History>, run: seq<Group>, h: C.History)
    requires |run| == |before| + 1 > 1 && Explains(before, run[..|before|])
    requires Inv(run[|before|], h) && Later(before[|before| - 1], h)
             && CommitsLed(before[|before| - 1], h, run[|before|])
    ensures Explains(before + [h], run)
  {
    hide Inv, Later, CommittedBy, CommitsLed;
    var hs, k := before + [h], |before| - 1;
    LaterRefl(h);
    forall i | 0 <= i <= k
      ensures Later(hs[i], h) && Inv(run[i], hs[i])
    {
      assert Later(before[i], before[k]) && run[..|before|][i] == run[i];
      LaterTrans(before[i], before[k], h);
    }
    forall i, c | 0 <= i < |run| && c in hs[i].commits
      ensures CommittedBy(run, i, c.term, c.len)
    {
      if i <= k {
        CommittedWithin(run, k + 1, i, c.term, c.len);
      } else if c in before[k].commits {
        CommittedWithin(run, k + 1, k, c.term, c.len);
        CommittedOn(run, k, c.term, c.len, i, c.term, c.len);
      } else {
        LedIsCommitted(run, i, before[k], h, c);
      }
    }
  }

  lemma LedIsCommitted(run: seq<Group>, i: nat, h: C.History, h': C.History, c: C.Commit)
    requires i < |run| && CommitsLed(h, h', run[i]) && c in h'.commits && c !in h.commits
    ensures CommittedBy(run, i, c.term, c.len)
  {
    assert Led(run[i], c);
  }

  lemma {:induction false} RunExplained(run: seq<Group>, steps: seq<Step>) returns (hs: seq<C.History>)
    requires TimelyRun(run, steps)
    ensures Explains(hs, run) && |run| > 0
  {
    hide Inv, Init, Do, Enabled, Later, Timely, CommittedBy, CommitsLed;
    if |steps| == 0 {
      var h := EmptyHistory(run[0].peers);
      InitExplained(run[0]);
      LaterRefl(h);
      hs := [h];
    } else {
      var k := |steps| - 1;
      TimelyPrefix(run, steps, k);
      var before := RunExplained(run[..k + 1], steps[..k]);
      var h := StepExplained(run, steps, k, before);
      ExplainsOneMore(before, run, h);
      hs := before + [h];
    }
  }

  // ------------------------------------------------------------------
  // When runs are timely
  // ------------------------------------------------------------------

  /** The replica's commit index was reached by a leader of its term or below. */
  ghost predicate CommitEarned(run: seq<Group>, i: nat, n: NodeId) {
    i < |run| && n in run[i].nodes && run[i].nodes[n].commitIndex > 0 ==>
      CommittedBy(run, i, run[i].nodes[n].term, run[i].nodes[n].commitIndex)
  }

  lemma EarnedWhenTimely(hs: seq<C.History>, run: seq<Group>, i: nat, n: NodeId)
    requires Explains(hs, run)
    ensures CommitEarned(run, i, n)
  {
    hide Inv, Later, CommittedBy;
    if i < |run| && n in run[i].nodes && run[i].nodes[n].commitIndex > 0 {
      var s := run[i].nodes[n];
      CommitRecorded(run[i], hs[i], n);
      var c :| c in hs[i].commits && c.term <= s.term && s.commitIndex <= c.len;
      CommittedOn(run, i, c.term, c.len, i, s.term, s.commitIndex);
    }
  }

  /** Installing a snapshot leaves a follower of the request's term that has
      committed what the snapshot covers. */
  lemma InstallCommits(s: Group, n: NodeId, m: Msg)
    requires Enabled(s, AnswerSnapshot(n, m)) && Installs(s, n, m)
    ensures var s' := Do(s, AnswerSnapshot(n, m));
            && n in s'.nodes && s'.nodes == s.nodes[n := s'.nodes[n]]
            && s'.nodes[n].role == Follower && s'.nodes[n].term == m.install.term
            && s'.nodes[n].commitIndex == m.install.snap.index
  {
    hide Save, SaveSnapshot, Reset, CompactTo, TermIn;
  }

  lemma TimelyWhenEarned(run: seq<Group>, steps: seq<Step>, i: nat, n: NodeId, m: Msg)
    requires IsRun(run, steps) && i < |steps| && steps[i] == AnswerSnapshot(n, m) && Installs(run[i], n, m)
             && CommitEarned(run, i + 1, n)
    ensures CommittedBy(run, i, m.install.term, m.install.snap.index)
  {
    hide Init, Enabled, Do;
    InstallCommits(run[i], n, m);
    var t, idx := m.install.term, m.install.snap.index;
    var j, l :| 0 <= j <= i + 1 < |run| && l in run[j].nodes
      && run[j].nodes[l].role == Leader && run[j].nodes[l].term <= t && idx <= run[j].nodes[l].commitIndex;
    if j == i + 1 {
      CommittedNow(run, i, l, t, idx);
    }
  }

  /** The exact condition, for every run: snapshots are installed in time if and
      only if no replica ever has a commit index that no leader of its term or
      below had reached. */
  lemma TimelyIffEarned(run: seq<Group>, steps: seq<Step>)
    requires IsRun(run, steps)
    ensures TimelyRun(run, steps) <==> forall i, n :: 0 <= i < |run| && n in run[i].nodes ==> CommitEarned(run, i, n)
  {
    hide Init, Enabled, Do, CommittedBy, Inv, Installs, CommitEarned;
    if TimelyRun(run, steps) {
      var hs := RunExplained(run, steps);
      forall i, n | 0 <= i < |run| && n in run[i].nodes
        ensures CommitEarned(run, i, n)
      {
        EarnedWhenTimely(hs, run, i, n);
      }
    }
    if forall i, n :: 0 <= i < |run| && n in run[i].nodes ==> CommitEarned(run, i, n) {
      forall i | 0 <= i < |steps|
        ensures Timely(run, i, steps[i])
      {
        if steps[i].AnswerSnapshot? && Installs(run[i], steps[i].n, steps[i].m) {
          InstallCommits(run[i], steps[i].n, steps[i].m);
          assert CommitEarned(run, i + 1, steps[i].n);
          TimelyWhenEarned(run, steps, i, steps[i].n, steps[i].m);
        }
      }
    }
  }

  /** What a replica has stored a snapshot of, it has committed. */
  lemma StoredWithinCommit(s: Group, h: C.History, n: NodeId)
    requires Inv(s, h) && n in s.nodes
    ensures SnapIndex(s.nodes[n].disk) <= s.nodes[n].commitIndex
  {
    hide C.Inv, MsgsOk, ClientsOk, CandidateOk, LeaderOk, WaitersOk, Compacts, Committed, ApplierOk;
  }

  lemma LaterRefl(h: C.History)
    ensures Later(h, h)
  {
  }

  lemma ExtendsLater(h: C.History, h': C.History, now: nat)
    requires Extends(h, h', now)
    ensures Later(h, h')
  {
  }

  lemma InvParted(s: Group, h: C.History)
    requires Inv(s, h)
    ensures C.Inv(h) && Linked(s, h)
  {
  }

  lemma InvJoined(s: Group, h: C.History)
    requires C.Inv(h) && Linked(s, h)
    ensures Inv(s, h)
  {
  }

  // ------------------------------------------------------------------
  // Election safety
  // ------------------------------------------------------------------

  lemma LeaderRecorded(s: Group, h: C.History, n: NodeId)
    requires Inv(s, h) && n in s.nodes && s.nodes[n].role == Leader
    ensures s.nodes[n].term in h.elections && h.elections[s.nodes[n].term].leader == n
    ensures s.nodes[n].term in h.leaderLog && n in h.logs && h.leaderLog[s.nodes[n].term] == h.logs[n]
  {
    hide C.Inv, MsgsOk, ClientsOk, NodeOk;
    NodeKnown(h, s.machine, s.now, Others(s.peers, n), n, s.nodes[n]);
  }

  // ------------------------------------------------------------------
  // Log matching
  // ------------------------------------------------------------------

  /** The entry a replica still holds at an index. */
  function EntryAt(l: LogState, k: nat): Entry
    requires l.snapIndex < k <= LastIndex(l)
  {
    l.entries[k - l.snapIndex - 1]
  }

  lemma LogRecorded(s: Group, h: C.History, n: NodeId)
    requires Inv(s, h) && n in s.nodes
    ensures n in h.logs && C.Good(h.leaderLog, h.logs[n]) && Compacts(h.logs[n], s.nodes[n].log)
  {
    hide MsgsOk, ClientsOk, NodeOk, C.Inv, C.LeaderLogsOk, C.AcksOk;
    C.LogParts(h);
    NodeKnown(h, s.machine, s.now, Others(s.peers, n), n, s.nodes[n]);
  }

  lemma GoodLater(h: C.History, h': C.History, log: seq<Entry>)
    requires Later(h, h') && C.Good(h.leaderLog, log)
    ensures C.Good(h'.leaderLog, log)
  {
    forall i | 0 <= i < |log|
      ensures log[i].term in h'.leaderLog && Agree(log, h'.leaderLog[log[i].term], i + 1)
    {
      assert Agree(log, h.leaderLog[log[i].term], i + 1);
      assert Agree(h.leaderLog[log[i].term], h'.leaderLog[log[i].term], |h.leaderLog[log[i].term]|);
    }
  }

  /** Two replicas, at any two moments of a run, that hold entries of the same
      term at the same index hold the same entries below it as well. */
  lemma LogsMatch(run: seq<Group>, steps: seq<Step>, i: nat, j: nat, n: NodeId, m: NodeId, k: nat, q: nat)
    requires TimelyRun(run, steps) && i < |run| && j < |run| && n in run[i].nodes && m in run[j].nodes
    requires var a, b := run[i].nodes[n].log, run[j].nodes[m].log;
             && a.snapIndex < q <= k <= LastIndex(a)
             && b.snapIndex < q <= k <= LastIndex(b)
             && EntryAt(a, k).term == EntryAt(b, k).term
    ensures EntryAt(run[i].nodes[n].log, q) == EntryAt(run[j].nodes[m].log, q)
  {
    hide TimelyRun, Inv, Later, C.Good;
    var hs := RunExplained(run, steps);
    var h := hs[|run| - 1];
    LogRecorded(run[i], hs[i], n);
    LogRecorded(run[j], hs[j], m);
    var x, y := hs[i].logs[n], hs[j].logs[m];
    GoodLater(hs[i], h, x);
    GoodLater(hs[j], h, y);
    C.LogMatching(h.leaderLog, x, y, k);
  }

  // ------------------------------------------------------------------
  // State machine safety
  // ------------------------------------------------------------------

  /** How far the state machine has got, whatever its applier is in the middle of. */
  function AppliedTo(a: ApplierState): nat {
    match a.phase
    case Restored(i) => i
    case Applying(_, rs) => a.lastApplied + |rs|
    case _ => a.lastApplied
  }

  /** A replica's committed entries, snapshot and state machine are prefixes
      of `chosen` and their replays. */
  ghost predicate Reflects(w: Machine, chosen: seq<Entry>, s: Node) {
    && s.log.snapIndex <= s.commitIndex <= Min(|chosen|, LastIndex(s.log))
    && s.log.snapTerm == TermAt(chosen, s.log.snapIndex)
    && (forall k :: s.log.snapIndex < k <= s.commitIndex ==> EntryAt(s.log, k) == chosen[k - 1])
    && (s.disk.snap.Some? ==> SnapOk(w, chosen, s.disk.snap.value))
    && s.appl.lastApplied <= AppliedTo(s.appl) <= s.commitIndex
    && s.appl.sm == Replay(w, chosen[..AppliedTo(s.appl)])
  }

  /** A result handed to a client is the result of its own command, applied
      at the answered index of `chosen`. */
  ghost predicate Truthful(w: Machine, chosen: seq<Entry>, a: Answer) {
    a.outcome.Applied? ==>
      && 0 < a.index <= |chosen|
      && chosen[a.index - 1].payload == Normal(a.cmd)
      && a.outcome.result == EntryResult(w, Replay(w, chosen[..a.index - 1]), chosen[a.index - 1])
  }

  lemma {:induction false} LongestCommit(cs: set<C.Commit>) returns (c: C.Commit)
    requires cs != {}
    ensures c in cs && forall d :: d in cs ==> d.len <= c.len
  {
    var e :| e in cs;
    var rest := cs - {e};
    assert forall x :: x in cs ==> x == e || x in rest;
    if rest == {} {
      c := e;
    } else {
      var d := LongestCommit(rest);
      c := if d.len <= e.len then e else d;
    }
  }

  /** `chosen` is the longest committed prefix; all others are its prefixes. */
  ghost predicate IsChosen(h: C.History, chosen: seq<Entry>) {
    && Indexed(chosen)
    && forall c :: c in h.commits ==> c.term in h.leaderLog && Agree(h.leaderLog[c.term], chosen, c.len)
  }

  lemma TakeChosen(h: C.History) returns (chosen: seq<Entry>)
    requires C.Inv(h)
    ensures IsChosen(h, chosen)
  {
    hide C.Inv, C.LogsOk, C.AcksOk, C.Complete, C.CommitsOk, C.LeadersGrown, C.CampaignsOk;
    chosen := [];
    C.CommitParts(h);
    C.LogParts(h);
    if h.commits != {} {
      var c := LongestCommit(h.commits);
      CommitKnown(h, c);
      chosen := h.leaderLog[c.term][..c.len];
      forall d | d in h.commits
        ensures d.term in h.leaderLog && Agree(h.leaderLog[d.term], chosen, d.len)
      {
        if d.term <= c.term {
          CommitInLeader(h, d, c.term);
        } else {
          CommitKnown(h, d);
          CommitInLeader(h, c, d.term);
        }
      }
      LeaderLogIndexed(h, c.term);
    }
  }

  lemma CommitKnown(h: C.History, c: C.Commit)
    requires C.CommitsOk(h.peers, h.leaderLog, h.acks, h.commits) && c in h.commits
    ensures c.term in h.leaderLog && c.len <= |h.leaderLog[c.term]|
  {
  }

  lemma LeaderLogIndexed(h: C.History, t: nat)
    requires C.LeaderLogsOk(h.leaderLog) && t in h.leaderLog
    ensures Indexed(h.leaderLog[t])
  {
  }

  lemma ChosenIndexed(h: C.History, chosen: seq<Entry>)
    requires IsChosen(h, chosen)
    ensures Indexed(chosen)
  {
  }

  lemma CommittedChosen(h: C.History, h': C.History, chosen: seq<Entry>, log: seq<Entry>, k: nat, t: nat)
    requires Later(h, h') && IsChosen(h', chosen) && Committed(h.leaderLog, h.commits, log, k, t)
    ensures Agree(log, chosen, k)
  {
    if k > 0 {
      var c :| c in h.commits && c.term <= t && k <= c.len && c.term in h.leaderLog
          && Agree(log, h.leaderLog[c.term], k);
      assert c in h'.commits;
      assert Agree(h.leaderLog[c.term], h'.leaderLog[c.term], |h.leaderLog[c.term]|);
      assert Agree(h'.leaderLog[c.term], chosen, c.len);
    }
  }

  lemma AgreeSlices(a: seq<Entry>, b: seq<Entry>, k: nat, i: nat)
    requires Agree(a, b, k) && i <= k
    ensures a[..i] == b[..i]
  {
  }

  lemma NodeReflects(w: Machine, full: seq<Entry>, chosen: seq<Entry>, s: Node)
    requires Compacts(full, s.log) && s.log.snapIndex <= s.commitIndex && Agree(full, chosen, s.commitIndex)
    requires DiskOk(w, full, s) && ApplierOk(w, full[..s.commitIndex], s.appl, s.log.snapIndex)
    ensures Reflects(w, chosen, s)
  {
    hide Replay, PhaseOk;
    CompactsReads(full, s.log);
    AgreeSlices(full, chosen, s.commitIndex, s.commitIndex);
    var com := full[..s.commitIndex];
    var k := AppliedTo(s.appl);
    AppliedInPhase(w, com, s.appl);
    assert com[..k] == chosen[..k];
    if s.disk.snap.Some? {
      SnapReflects(w, com, chosen, s.disk.snap.value);
    }
  }

  lemma SnapReflects(w: Machine, com: seq<Entry>, chosen: seq<Entry>, snap: Snapshot)
    requires SnapOk(w, com, snap) && com <= chosen
    ensures SnapOk(w, chosen, snap)
  {
    hide Replay;
    assert com[..snap.index] == chosen[..snap.index];
  }

  lemma AppliedInPhase(w: Machine, com: seq<Entry>, a: ApplierState)
    requires PhaseOk(w, com, a)
    ensures a.lastApplied <= AppliedTo(a) <= |com| && a.sm == Replay(w, com[..AppliedTo(a)])
  {
    hide Replay;
  }

  lemma StateReflects(s: Group, h: C.History, h': C.History, chosen: seq<Entry>, n: NodeId)
    requires Inv(s, h) && Later(h, h') && IsChosen(h', chosen) && n in s.nodes
    ensures Reflects(s.machine, chosen, s.nodes[n])
  {
    hide C.Inv, Linked, CandidateOk, LeaderOk, WaitersOk, Reflects, Compacts, Committed, DiskOk, ApplierOk, Later,
         IsChosen;
    InvParted(s, h);
    NodeAt(s, h, n);
    CommittedChosen(h, h', chosen, h.logs[n], s.nodes[n].commitIndex, s.nodes[n].term);
    NodeReflects(s.machine, h.logs[n], chosen, s.nodes[n]);
  }

  lemma AnswerTruthful(s: Group, h: C.History, h': C.History, chosen: seq<Entry>, a: Answer)
    requires Inv(s, h) && Later(h, h') && IsChosen(h', chosen) && a in s.answered
    ensures Truthful(s.machine, chosen, a)
  {
    hide C.Inv, NodesOk, MsgsOk, Replay, EntryResult;
    if a.outcome.Applied? {
      var c :| c in h.commits && c.term in h.leaderLog && 0 < a.index <= c.len && c.len <= |h.leaderLog[c.term]|
               && h.leaderLog[c.term][a.index - 1].payload == Normal(a.cmd)
               && a.outcome.result == EntryResult(s.machine, Replay(s.machine, h.leaderLog[c.term][..a.index - 1]),
                 h.leaderLog[c.term][a.index - 1]);
      assert Agree(h.leaderLog[c.term], h'.leaderLog[c.term], |h.leaderLog[c.term]|);
      assert Agree(h'.leaderLog[c.term], chosen, c.len);
      AgreeSlices(h.leaderLog[c.term], chosen, c.len, a.index - 1);
    }
  }

  /** State machine safety: one sequence of entries explains every replica in
      every state of a run, and every answer ever given. */
  lemma OneSequenceApplied(run: seq<Group>, steps: seq<Step>) returns (chosen: seq<Entry>)
    requires TimelyRun(run, steps)
    ensures Indexed(chosen)
    ensures forall i, n :: 0 <= i < |run| && n in run[i].nodes ==> Reflects(run[i].machine, chosen, run[i].nodes[n])
    ensures forall i, a :: 0 <= i < |run| && a in run[i].answered ==> Truthful(run[i].machine, chosen, a)
  {
    hide TimelyRun, Inv, Later, IsChosen, Reflects, Truthful;
    var hs := RunExplained(run, steps);
    var last := |run| - 1;
    InvParted(run[last], hs[last]);
    chosen := TakeChosen(hs[last]);
    ChosenIndexed(hs[last], chosen);
    forall i, n | 0 <= i < |run| && n in run[i].nodes
      ensures Reflects(run[i].machine, chosen, run[i].nodes[n])
    {
      StateReflects(run[i], hs[i], hs[last], chosen, n);
    }
    forall i, a | 0 <= i < |run| && a in run[i].answered
      ensures Truthful(run[i].machine, chosen, a)
    {
      AnswerTruthful(run[i], hs[i], hs[last], chosen, a);
    }
  }

  // ------------------------------------------------------------------
  // Leader completeness
  // ------------------------------------------------------------------

  lemma CommitRecorded(s: Group, h: C.History, n: NodeId)
    requires Inv(s, h) && n in s.nodes
    ensures n in h.logs && Committed(h.leaderLog, h.commits, h.logs[n], s.nodes[n].commitIndex, s.nodes[n].term)
  {
    hide C.Inv, MsgsOk, ClientsOk, CandidateOk, LeaderOk, WaitersOk, Compacts, Committed, DiskOk, ApplierOk;
  }

  lemma CommittedLater(h: C.History, h': C.History, log: seq<Entry>, k: nat, t: nat)
    requires Later(h, h') && Committed(h.leaderLog, h.commits, log, k, t)
    ensures Committed(h'.leaderLog, h'.commits, log, k, t)
  {
    if k > 0 {
      var c :| c in h.commits && c.term <= t && k <= c.len && c.term in h.leaderLog
          && Agree(log, h.leaderLog[c.term], k);
      assert Agree(h.leaderLog[c.term], h'.leaderLog[c.term], |h.leaderLog[c.term]|);
      assert Agree(log, h'.leaderLog[c.term], k);
    }
  }

  lemma LeaderEndsInTerm(h: C.History, now: nat, others: seq<NodeId>, n: NodeId, s: Node)
    requires LeaderOk(h, now, others, n, s)
    requires C.CampaignsOk(h.term, h.campaigns) && C.LeadersGrown(h.elections, h.leaderLog, h.campaigns)
    ensures |h.logs[n]| > 0 && LastTerm(h.logs[n]) == s.term
  {
  }

  /** What a replica's compacted log says about its full log. */
  lemma SnapWithinCommit(s: Group, h: C.History, n: NodeId)
    requires Inv(s, h) && n in s.nodes
    ensures s.nodes[n].log.snapIndex <= s.nodes[n].commitIndex
  {
    hide C.Inv, MsgsOk, ClientsOk, CandidateOk, LeaderOk, WaitersOk, Compacts, Committed, DiskOk, ApplierOk;
  }

  lemma NodeLog(s: Group, h: C.History, n: NodeId)
    requires C.Inv(h) && Linked(s, h) && n in s.nodes
    ensures n in h.term && n in h.logs && h.term[n] == s.nodes[n].term
    ensures C.Good(h.leaderLog, h.logs[n]) && C.TermsAtMost(h.logs[n], s.nodes[n].term)
    ensures LastIndex(s.nodes[n].log) == |h.logs[n]| && LastTermIn(s.nodes[n].log) == LastTerm(h.logs[n])
  {
    hide Linked, NodeOk, LeaderOk, CandidateOk, WaitersOk, DiskOk, Committed, C.Retained, C.Complete,
         C.GrantsComplete, C.CommitsOk;
    hide C.Good, C.GrantsOk, C.CampaignsOk, C.ElectionsOk, C.LeadersGrown, C.LeaderLogsOk, C.AcksOk;
    NodeAt(s, h, n);
    NodeKnown(h, s.machine, s.now, Others(s.peers, n), n, s.nodes[n]);
    CompactsReads(h.logs[n], s.nodes[n].log);
  }

  /** A leader's log already reached past whatever a lower term commits, even
      what is committed only after that leader is gone. */
  lemma ReachesPast(h: C.History, full: seq<Entry>, c: nat, t: nat, lead: seq<Entry>, u: nat)
    requires u in h.leaderLog && t < u
    requires C.TermsAtMost(full, t) && Agree(full, h.leaderLog[u], c)
    requires Agree(lead, h.leaderLog[u], |lead|) && |lead| > 0 && LastTerm(lead) == u
    ensures Agree(full, lead, c)
  {
    assert h.leaderLog[u][|lead| - 1] == lead[|lead| - 1];
    assert c <= |lead|;
  }

  lemma LaterLog(h: C.History, h': C.History, t: nat)
    requires Later(h, h') && t in h.leaderLog
    ensures t in h'.leaderLog && Agree(h.leaderLog[t], h'.leaderLog[t], |h.leaderLog[t]|)
  {
  }

  /** What `m` had committed in state `i`, and the log of the leader `n` of a
      term at least as high in state `j`, seen from the later of the two. */
  lemma LeaderAgrees(s: Group, h: C.History, m: NodeId, s': Group, h': C.History, n: NodeId, h2: C.History)
    requires Inv(s, h) && m in s.nodes && Inv(s', h') && n in s'.nodes && s'.nodes[n].role == Leader
    requires C.Inv(h2) && Later(h, h2) && Later(h', h2) && s.nodes[m].term <= s'.nodes[n].term
    requires s.nodes[m].term < s'.nodes[n].term || h2 == h'
    ensures m in h.logs && n in h'.logs && Agree(h.logs[m], h'.logs[n], s.nodes[m].commitIndex)
  {
    hide Inv, Later, Linked, Committed, Agree, C.Good, NodeOk, LeaderOk, CandidateOk, WaitersOk, DiskOk, CoreOk,
         LastTerm, C.TermsAtMost;
    hide C.Inv, C.Complete, C.CommitsOk, C.LeadersGrown, C.CampaignsOk, C.LeaderLogsOk, C.LogsOk, C.AcksOk;
    var a, b := s.nodes[m], s'.nodes[n];
    InvParted(s, h);
    InvParted(s', h');
    NodeLog(s, h, m);
    CommitRecorded(s, h, m);
    CommittedLater(h, h2, h.logs[m], a.commitIndex, a.term);
    LeaderRecorded(s', h', n);
    LaterLog(h', h2, b.term);
    C.CommitParts(h2);
    CommittedInLeader(h2, h.logs[m], a.commitIndex, a.term, b.term);
    if a.term < b.term {
      NodeAt(s', h', n);
      NodeKnown(h', s'.machine, s'.now, Others(s'.peers, n), n, b);
      C.CommitParts(h');
      LeaderEndsInTerm(h', s'.now, Others(s'.peers, n), n, b);
      ReachesPast(h2, h.logs[m], a.commitIndex, a.term, h'.logs[n], b.term);
    }
  }

  /** Leader completeness: what a replica has committed at any moment of a run
      is in the log of every leader of a higher term, before or after, and of
      every later leader of the same term. */
  lemma LeadersHoldCommitted(run: seq<Group>, steps: seq<Step>, i: nat, j: nat, m: NodeId, n: NodeId)
    requires TimelyRun(run, steps) && i < |run| && j < |run| && m in run[i].nodes && n in run[j].nodes
    requires run[j].nodes[n].role == Leader
    requires run[i].nodes[m].term < run[j].nodes[n].term || (run[i].nodes[m].term == run[j].nodes[n].term && i <= j)
    ensures var a, b := run[i].nodes[m], run[j].nodes[n];
            && a.commitIndex <= Min(LastIndex(a.log), LastIndex(b.log))
            && forall k :: a.log.snapIndex < k <= a.commitIndex && b.log.snapIndex < k ==>
              EntryAt(a.log, k) == EntryAt(b.log, k)
  {
    hide TimelyRun, Inv, Later, Committed, Compacts, Agree, C.Good, C.Inv;
    var hs := RunExplained(run, steps);
    var last := if i <= j then j else i;
    assert Later(hs[i], hs[last]) && Later(hs[j], hs[last]);
    InvParted(run[last], hs[last]);
    LeaderAgrees(run[i], hs[i], m, run[j], hs[j], n, hs[last]);
    LogRecorded(run[i], hs[i], m);
    LogRecorded(run[j], hs[j], n);
    AgreeAt(hs[i].logs[m], run[i].nodes[m].log, hs[j].logs[n], run[j].nodes[n].log, run[i].nodes[m].commitIndex);
  }

  lemma AgreeAt(x: seq<Entry>, a: LogState, y: seq<Entry>, b: LogState, c: nat)
    requires Compacts(x, a) && Compacts(y, b) && Agree(x, y, c)
    ensures c <= Min(LastIndex(a), LastIndex(b))
    ensures forall k :: a.snapIndex < k <= c && b.snapIndex < k ==> EntryAt(a, k) == EntryAt(b, k)
  {
    CompactsReads(x, a);
    CompactsReads(y, b);
  }

  // ------------------------------------------------------------------
  // Linearizable reads
  // ------------------------------------------------------------------

  lemma CommitBefore(s: Group, h: C.History, n: NodeId)
    requires Inv(s, h) && n in s.nodes && s.nodes[n].commitIndex > 0
    ensures exists c :: c in h.commits && c.at < s.now && s.nodes[n].commitIndex <= c.len
  {
    hide C.Inv, MsgsOk, ClientsOk, NodesOk, Linked;
    InvParted(s, h);
    CommitRecorded(s, h, n);
    ClockKnown(s, h);
  }

  lemma ClockKnown(s: Group, h: C.History)
    requires Linked(s, h)
    ensures ClockOk(h, s.now)
  {
    hide MsgsOk, ClientsOk, NodesOk;
  }

  lemma ConfirmedCovers(s: Group, h: C.History, rd: Read)
    requires Inv(s, h) && rd in s.confirmed
    ensures Covers(h.commits, rd)
  {
    hide C.Inv, MsgsOk, NodesOk;
  }

  /** No replica had committed past a confirmed read's index when the read began. */
  lemma ReadCoversCommits(run: seq<Group>, steps: seq<Step>, i: nat, j: nat, rd: Read, n: NodeId)
    requires TimelyRun(run, steps) && i < |run| && j < |run| && rd in run[j].confirmed && n in run[i].nodes
    requires run[i].now <= rd.start
    ensures run[i].nodes[n].commitIndex <= rd.index
  {
    hide TimelyRun, Inv;
    var hs := RunExplained(run, steps);
    var last := |run| - 1;
    if run[i].nodes[n].commitIndex > 0 {
      CommitBefore(run[i], hs[i], n);
      var c :| c in hs[i].commits && c.at < run[i].now && run[i].nodes[n].commitIndex <= c.len;
      if i <= j {
        assert Later(hs[i], hs[j]);
        ConfirmedCovers(run[j], hs[j], rd);
      } else {
        ReadStays(run, steps, j, i, rd);
        ConfirmedCovers(run[i], hs[i], rd);
      }
    }
  }

  lemma {:induction false} ReadStays(run: seq<Group>, steps: seq<Step>, j: nat, i: nat, rd: Read)
    requires TimelyRun(run, steps) && j <= i < |run| && rd in run[j].confirmed
    ensures rd in run[i].confirmed
    decreases i
  {
    hide Enabled, Init;
    if j < i {
      ReadStays(run, steps, j, i - 1, rd);
      ConfirmedGrows(run[i - 1], steps[i - 1]);
    }
  }

  lemma ConfirmedGrows(s: Group, step: Step)
    requires Enabled(s, step)
    ensures s.confirmed <= Do(s, step).confirmed
  {
    hide Do, Enabled, EffectOf;
    DoShape(s, step);
  }

  /** A read served from a replica that applied up to the read's index sees
      every write answered before the read began, at every replica; the state
      it reads is a replay of the chosen sequence past all of them. */
  lemma ReadsSeeAnsweredWrites(run: seq<Group>, steps: seq<Step>, i: nat, j: nat, rd: Read, n: NodeId, a: Answer)
      returns (chosen: seq<Entry>)
    requires TimelyRun(run, steps) && i < |run| && j < |run| && rd in run[j].confirmed
    requires run[i].now <= rd.start && a in run[i].answered && a.outcome.Applied?
    requires n in run[j].nodes && run[j].nodes[n].appl.lastApplied >= rd.index
    ensures var served := AppliedTo(run[j].nodes[n].appl);
            && a.index <= served <= |chosen|
            && run[j].nodes[n].appl.sm == Replay(run[j].machine, chosen[..served])
            && Truthful(run[i].machine, chosen, a)
  {
    hide TimelyRun, Inv, Truthful, Reflects;
    chosen := OneSequenceApplied(run, steps);
    assert Truthful(run[i].machine, chosen, a);
    assert Reflects(run[j].machine, chosen, run[j].nodes[n]);
    ReflectsApplied(run[j].machine, chosen, run[j].nodes[n]);
    var hs := RunExplained(run, steps);
    AnswerCommitted(run[i], hs[i], a);
    var c :| c in hs[i].commits && c.at < run[i].now && a.index <= c.len;
    if i <= j {
      assert Later(hs[i], hs[j]);
      ConfirmedCovers(run[j], hs[j], rd);
    } else {
      ReadStays(run, steps, j, i, rd);
      ConfirmedCovers(run[i], hs[i], rd);
    }
  }

  lemma ReflectsApplied(w: Machine, chosen: seq<Entry>, s: Node)
    requires Reflects(w, chosen, s)
    ensures s.appl.lastApplied <= AppliedTo(s.appl) <= Min(s.commitIndex, |chosen|)
    ensures s.appl.sm == Replay(w, chosen[..AppliedTo(s.appl)])
  {
  }

  lemma AnswerCommitted(s: Group, h: C.History, a: Answer)
    requires Inv(s, h) && a in s.answered && a.outcome.Applied?
    ensures exists c :: c in h.commits && c.at < s.now && a.index <= c.len
  {
    hide C.Inv, NodesOk, MsgsOk;
    assert AnswerOk(h, s.machine, a);
  }

  /** Reads never go back in time: a read that begins after another was served
      has an index at least as far as the state the other one saw. */
  lemma ReadsNeverGoBack(run: seq<Group>, steps: seq<Step>, i: nat, j: nat, n: NodeId, rd: Read)
    requires TimelyRun(run, steps) && i < |run| && j < |run| && rd in run[j].confirmed
    requires n in run[i].nodes && run[i].now <= rd.start
    ensures AppliedTo(run[i].nodes[n].appl) <= rd.index
  {
    hide TimelyRun, Reflects;
    var chosen := OneSequenceApplied(run, steps);
    ReflectsApplied(run[i].machine, chosen, run[i].nodes[n]);
    ReadCoversCommits(run, steps, i, j, rd, n);
  }
}
