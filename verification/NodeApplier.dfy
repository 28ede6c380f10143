/** The applier, local snapshots and restarts keep a node linked to the
    history: the state machine is always the replay of a committed prefix. */
module NodeApplier {
  import opened Types
  import opened LogSpec
  import opened DiskSpec
  import opened CommitRule
  import opened Replica
  import opened Cluster
  import opened Link
  import opened Frames
  import opened NodeElection
  import C = Consensus

  lemma ApplierOnly(h: C.History, w: Machine, now: nat, others: seq<NodeId>, n: NodeId, s: Node, a: ApplierState)
    requires NodeOk(h, w, now, others, n, s)
    requires ApplierOk(w, h.logs[n][..s.commitIndex], a, s.log.snapIndex)
    requires a.phase.Saved? ==> a.phase.index <= SnapIndex(s.disk)
    ensures NodeOk(h, w, now, others, n, s.(appl := a))
  {
    if s.role == Leader {
      forall p | p in others
        ensures PeerOk(h, now, s.(appl := a), |h.logs[n]|, p)
      {
        assert PeerOk(h, now, s, |h.logs[n]|, p);
      }
    }
  }

  /** The applier always finds its range in memory, and it is not empty. */
  lemma TakeInRange(w: Machine, full: seq<Entry>, s: Node)
    requires Compacts(full, s.log) && s.commitIndex <= |full|
    requires ApplierOk(w, full[..s.commitIndex], s.appl, s.log.snapIndex)
    requires ApplierReady(s) && s.appl.pending.None?
    ensures InRange(s.log, s.appl.lastApplied + 1, s.commitIndex)
    ensures Slice(s.log, s.appl.lastApplied + 1, s.commitIndex) == full[s.appl.lastApplied..s.commitIndex]
    ensures s.appl.lastApplied < s.commitIndex
  {
    CompactsReads(full, s.log);
    CompactsSlice(full, s.log, s.appl.lastApplied + 1, s.commitIndex);
  }

  lemma TakeApplier(w: Machine, full: seq<Entry>, s: Node)
    requires Compacts(full, s.log) && s.commitIndex <= |full|
    requires ApplierOk(w, full[..s.commitIndex], s.appl, s.log.snapIndex) && ApplierReady(s)
    ensures ApplierOk(w, full[..s.commitIndex], ApplierTake(s).appl, s.log.snapIndex)
  {
    if s.appl.pending.None? {
      TakeInRange(w, full, s);
      assert full[s.appl.lastApplied..s.commitIndex] == full[..s.commitIndex][s.appl.lastApplied..s.commitIndex];
    }
  }

  lemma TakeNode(h: C.History, w: Machine, now: nat, others: seq<NodeId>, n: NodeId, s: Node)
    requires NodeOk(h, w, now, others, n, s) && ApplierReady(s)
    ensures NodeOk(h, w, now, others, n, ApplierTake(s))
  {
    TakeApplier(w, h.logs[n], s);
    ApplierOnly(h, w, now, others, n, s, ApplierTake(s).appl);
  }

  lemma RestoreNode(h: C.History, w: Machine, now: nat, others: seq<NodeId>, n: NodeId, s: Node)
    requires NodeOk(h, w, now, others, n, s)
    ensures s.appl.phase.Restoring? ==> NodeOk(h, w, now, others, n, ApplierRestore(s))
    ensures s.appl.phase.Restored? ==> NodeOk(h, w, now, others, n, ApplierRestored(s))
  {
    hide LeaderOk, CandidateOk, WaitersOk, Committed, Compacts, Replay;
    if s.appl.phase.Restoring? {
      ApplierOnly(h, w, now, others, n, s, ApplierRestore(s).appl);
    } else if s.appl.phase.Restored? {
      ApplierOnly(h, w, now, others, n, s, ApplierRestored(s).appl);
    }
  }

  lemma ReplayNext(w: Machine, es: seq<Entry>, k: nat)
    requires k < |es|
    ensures Replay(w, es[..k + 1]) == ApplyEntry(w, Replay(w, es[..k]), es[k])
  {
    assert es[..k + 1][..k] == es[..k];
  }

  lemma ApplyApplier(w: Machine, com: seq<Entry>, cfg: Config, s: Node)
    requires cfg.machine == w && ApplierOk(w, com, s.appl, s.log.snapIndex) && MoreToApply(s)
    ensures ApplierOk(w, com, ApplyOne(cfg, s).appl, s.log.snapIndex)
  {
    var k := s.appl.lastApplied + |s.appl.phase.results|;
    ReplayNext(w, com, k);
    assert s.appl.phase.entries[|s.appl.phase.results|] == com[k];
  }

  lemma ApplyNode(h: C.History, w: Machine, now: nat, cfg: Config, n: NodeId, s: Node)
    requires NodeOk(h, w, now, cfg.others, n, s) && cfg.machine == w && MoreToApply(s)
    ensures NodeOk(h, w, now, cfg.others, n, ApplyOne(cfg, s))
  {
    ApplyApplier(w, h.logs[n][..s.commitIndex], cfg, s);
    ApplierOnly(h, w, now, cfg.others, n, s, ApplyOne(cfg, s).appl);
  }

  // ------------------------------------------------------------------
  // Finishing a batch
  // ------------------------------------------------------------------

  lemma WaitersOnly(h: C.History, w: Machine, now: nat, others: seq<NodeId>, n: NodeId, s: Node,
                    waiters: map<nat, Proposal>)
    requires NodeOk(h, w, now, others, n, s)
    requires forall i :: i in waiters ==> i in s.waiters && waiters[i] == s.waiters[i]
    ensures NodeOk(h, w, now, others, n, s.(waiters := waiters))
  {
    if s.role == Leader {
      forall p | p in others
        ensures PeerOk(h, now, s.(waiters := waiters), |h.logs[n]|, p)
      {
        assert PeerOk(h, now, s, |h.logs[n]|, p);
      }
    } else {
      assert waiters == map[];
    }
  }

  lemma FinishApplier(w: Machine, com: seq<Entry>, cfg: Config, s: Node)
    requires Indexed(com) && ApplierOk(w, com, s.appl, s.log.snapIndex) && AllApplied(s)
    ensures ApplierOk(w, com, ApplierFinish(cfg, s).0.appl, s.log.snapIndex)
  {
    var es := s.appl.phase.entries;
    assert es[|es| - 1] == com[s.appl.lastApplied + |es| - 1];
  }

  lemma FinishNode(h: C.History, w: Machine, now: nat, cfg: Config, n: NodeId, s: Node)
    requires NodeOk(h, w, now, cfg.others, n, s) && Indexed(h.logs[n]) && AllApplied(s)
    ensures NodeOk(h, w, now, cfg.others, n, ApplierFinish(cfg, s).0)
  {
    var s' := ApplierFinish(cfg, s).0;
    FinishApplier(w, h.logs[n][..s.commitIndex], cfg, s);
    ApplierOnly(h, w, now, cfg.others, n, s, s'.appl);
    WaitersOnly(h, w, now, cfg.others, n, s.(appl := s'.appl), s'.waiters);
  }

  /** Every result handed to a waiter is the result of its own command. */
  lemma FinishAnswers(h: C.History, w: Machine, n: NodeId, s: Node, a: Answer)
    requires CoreOk(h, n, s) && WaitersOk(h.logs[n], s)
             && ApplierOk(w, h.logs[n][..s.commitIndex], s.appl, s.log.snapIndex)
    requires C.CommitsOk(h.peers, h.leaderLog, h.acks, h.commits) && Indexed(h.logs[n])
    requires AllApplied(s) && a in AppliedAnswers(s)
    ensures AnswerOk(h, w, a)
  {
    var es := s.appl.phase.entries;
    var j :| 0 <= j < |es| && es[j].index in s.waiters
        && FirstAt(es, j) && a == AnswerFor(s.waiters[es[j].index], es[j], s.appl.phase.results[j]);
    FinishEntry(w, h.logs[n], s, j);
    CommittedAnswer(h, w, h.logs[n], s.commitIndex, s.term, s.appl.lastApplied + j, a);
  }

  lemma FinishEntry(w: Machine, full: seq<Entry>, s: Node, j: nat)
    requires WaitersOk(full, s) && s.commitIndex <= |full| && PhaseOk(w, full[..s.commitIndex], s.appl) && Indexed(full)
    requires AllApplied(s) && j < |s.appl.phase.entries| && s.appl.phase.entries[j].index in s.waiters
    ensures var e, k := s.appl.phase.entries[j], s.appl.lastApplied + j;
            && k < s.commitIndex && e == full[k] && e.index == k + 1
            && e == Entry(k + 1, s.waiters[k + 1].term, Normal(s.waiters[k + 1].cmd))
            && s.appl.phase.results[j] == EntryResult(w, Replay(w, full[..k]), e)
  {
    var k := s.appl.lastApplied + j;
    assert s.appl.phase.entries[j] == full[..s.commitIndex][k] == full[k];
    assert WaiterOk(full, s.term, k + 1, s.waiters[k + 1]);
    assert full[..s.commitIndex][..k] == full[..k];
  }

  lemma CommittedAnswer(h: C.History, w: Machine, full: seq<Entry>, commit: nat, t: nat, k: nat, a: Answer)
    requires Committed(h.leaderLog, h.commits, full, commit, t) && C.CommitsOk(h.peers, h.leaderLog, h.acks, h.commits)
    requires k < commit && a.index == k + 1 && full[k].payload == Normal(a.cmd)
    requires a.outcome == Applied(EntryResult(w, Replay(w, full[..k]), full[k]))
    ensures AnswerOk(h, w, a)
  {
    var c :| c in h.commits && c.term <= t && commit <= c.len && c.term in h.leaderLog
        && Agree(full, h.leaderLog[c.term], commit);
    assert C.CommitOk(h.peers, h.leaderLog, h.acks, c);
    assert full[..k] == h.leaderLog[c.term][..k];
  }

  // ------------------------------------------------------------------
  // Local snapshots
  // ------------------------------------------------------------------

  lemma SnapshotTakeNode(h: C.History, w: Machine, now: nat, others: seq<NodeId>, n: NodeId, s: Node)
    requires NodeOk(h, w, now, others, n, s) && s.appl.phase.SnapshotDue?
    ensures NodeOk(h, w, now, others, n, SnapshotTake(s))
  {
    hide LeaderOk, CandidateOk, WaitersOk, Committed, Replay;
    var com := h.logs[n][..s.commitIndex];
    CompactsReads(h.logs[n], s.log);
    assert TermAt(com, s.appl.lastApplied) == TermAt(h.logs[n], s.appl.lastApplied);
    ApplierOnly(h, w, now, others, n, s, SnapshotTake(s).appl);
  }

  lemma DiskOnly(h: C.History, w: Machine, now: nat, others: seq<NodeId>, n: NodeId, s: Node, d: Disk)
    requires NodeOk(h, w, now, others, n, s) && DiskOk(w, h.logs[n], s.(disk := d))
    ensures NodeOk(h, w, now, others, n, s.(disk := d))
  {
    if s.role == Leader {
      forall p | p in others
        ensures PeerOk(h, now, s.(disk := d), |h.logs[n]|, p)
      {
        assert PeerOk(h, now, s, |h.logs[n]|, p);
      }
    }
  }

  lemma SnapshotSaveDisk(w: Machine, full: seq<Entry>, s: Node, snap: Snapshot)
    requires DiskOk(w, full, s) && SnapOk(w, full[..s.commitIndex], snap)
    ensures DiskOk(w, full, s.(disk := SaveSnapshot(s.disk, snap, false)))
    ensures snap.index <= SnapIndex(SaveSnapshot(s.disk, snap, false))
  {
    var k := SnapIndex(s.disk);
    if snap.index > k {
      assert full[k..][snap.index - k..] == full[snap.index..];
    }
  }

  lemma SnapshotSaveNode(h: C.History, w: Machine, now: nat, others: seq<NodeId>, n: NodeId, s: Node)
    requires NodeOk(h, w, now, others, n, s) && s.appl.phase.Saving?
    ensures NodeOk(h, w, now, others, n, SnapshotSave(s))
    ensures s.appl.phase.snap.index <= SnapIndex(SnapshotSave(s).disk)
  {
    var s' := SnapshotSave(s);
    SnapshotSaveDisk(w, h.logs[n], s, s.appl.phase.snap);
    DiskOnly(h, w, now, others, n, s, s'.disk);
    ApplierOnly(h, w, now, others, n, s.(disk := s'.disk), s'.appl);
  }

  lemma CompactNode(h: C.History, w: Machine, now: nat, others: seq<NodeId>, n: NodeId, s: Node)
    requires NodeOk(h, w, now, others, n, s) && s.appl.phase.Saved?
    ensures NodeOk(h, w, now, others, n, SnapshotCompact(s))
  {
    var ph := s.appl.phase;
    var com := h.logs[n][..s.commitIndex];
    assert TermAt(com, ph.index) == TermAt(h.logs[n], ph.index);
    CompactToCompacts(h.logs[n], s.log, ph.index, ph.term);
    var a := s.appl.(phase := Idle);
    ApplierOnly(h, w, now, others, n, s, a);
    LogOnly(h, w, now, others, n, s.(appl := a), CompactTo(s.log, ph.index, ph.term));
  }

  lemma LogOnly(h: C.History, w: Machine, now: nat, others: seq<NodeId>, n: NodeId, s: Node, l: LogState)
    requires NodeOk(h, w, now, others, n, s) && Compacts(h.logs[n], l)
    requires l.snapIndex <= SnapIndex(s.disk) && l.snapIndex <= Max(PhaseEnd(s.appl), PendingIndex(s.appl))
    ensures NodeOk(h, w, now, others, n, s.(log := l))
  {
    if s.role == Leader {
      forall p | p in others
        ensures PeerOk(h, now, s.(log := l), |h.logs[n]|, p)
      {
        assert PeerOk(h, now, s, |h.logs[n]|, p);
      }
    }
  }

  // ------------------------------------------------------------------
  // Crash and restart
  // ------------------------------------------------------------------

  lemma BootNode(h: C.History, w: Machine, now: nat, others: seq<NodeId>, n: NodeId, s: Node)
    requires NodeOk(h, w, now, others, n, s)
    ensures NodeOk(h, w, now, others, n, Boot(w, s.disk))
  {
    var full := h.logs[n];
    var d := SnapIndex(s.disk);
    var com, com' := full[..s.commitIndex], full[..d];
    CommittedWeaken(h.leaderLog, h.commits, full, s.commitIndex, s.term, full, d, s.term);
    if s.disk.snap.Some? {
      SnapOkAgree(w, com, com', s.disk.snap.value);
      assert TermAt(com, d) == TermAt(full, d);
      assert com'[..d] == com';
    } else {
      assert full[..0] == [];
    }
    BootApplier(w, com', s.disk);
  }

  lemma BootApplier(w: Machine, com: seq<Entry>, d: Disk)
    requires |com| == SnapIndex(d) && (d.snap.Some? ==> SnapOk(w, com, d.snap.value))
    ensures ApplierOk(w, com, Boot(w, d).appl, SnapIndex(d))
  {
    assert com[..|com|] == com;
  }

  // ------------------------------------------------------------------
  // All applier steps
  // ------------------------------------------------------------------

  lemma ApplierNode(h: C.History, w: Machine, now: nat, cfg: Config, n: NodeId, s: Node, a: ApplierStep)
    requires NodeOk(h, w, now, cfg.others, n, s) && cfg.machine == w && Indexed(h.logs[n]) && ApplierEnabled(s, a)
    ensures NodeOk(h, w, now, cfg.others, n, ApplierDo(cfg, s, a).0)
  {
    match a
    case TakeWork => TakeNode(h, w, now, cfg.others, n, s);
    case RestoreState => RestoreNode(h, w, now, cfg.others, n, s);
    case RestoreDone => RestoreNode(h, w, now, cfg.others, n, s);
    case ApplyNext => ApplyNode(h, w, now, cfg, n, s);
    case ApplyDone => FinishNode(h, w, now, cfg, n, s);
    case TakeSnapshot => SnapshotTakeNode(h, w, now, cfg.others, n, s);
    case StoreSnapshot => SnapshotSaveNode(h, w, now, cfg.others, n, s);
    case CompactLog => CompactNode(h, w, now, cfg.others, n, s);
  }

  lemma ApplierAnswers(h: C.History, w: Machine, now: nat, cfg: Config, n: NodeId, s: Node, a: ApplierStep)
    requires NodeOk(h, w, now, cfg.others, n, s) && Indexed(h.logs[n]) && ApplierEnabled(s, a)
    requires C.CommitsOk(h.peers, h.leaderLog, h.acks, h.commits)
    ensures forall x :: x in ApplierDo(cfg, s, a).1 ==> AnswerOk(h, w, x)
  {
    if a.ApplyDone? {
      forall x | x in AppliedAnswers(s)
        ensures AnswerOk(h, w, x)
      {
        FinishAnswers(h, w, n, s, x);
      }
    }
  }
}
