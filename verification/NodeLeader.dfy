/** A leader's own steps keep it linked to the history: winning an election,
    appending, and moving the commit index. */
module NodeLeader {
  import opened Types
  import opened Quorum
  import opened LogSpec
  import opened DiskSpec
  import opened CommitRule
  import opened Replica
  import opened Cluster
  import opened Link
  import opened Frames
  import opened Preserve
  import C = Consensus

  // ------------------------------------------------------------------
  // The peers of a node
  // ------------------------------------------------------------------

  lemma {:induction false} OthersFacts(peers: seq<NodeId>, n: NodeId)
    requires Distinct(peers)
    ensures Distinct(Others(peers, n))
    ensures forall p :: p in Others(peers, n) <==> p in peers && p != n
    ensures |Others(peers, n)| == |peers| - (if n in peers then 1 else 0)
    ensures |PeerSet(peers)| == |peers|
  {
    if |peers| == 0 {
      assert PeerSet(peers) == {};
    } else {
      var front, p := peers[..|peers| - 1], peers[|peers| - 1];
      OthersFacts(front, n);
      assert p !in front;
      assert forall q :: q in peers <==> q in front || q == p;
      assert PeerSet(peers) == PeerSet(front) + {p};
      assert p !in Others(front, n);
    }
  }

  // ------------------------------------------------------------------
  // Appending to log and disk
  // ------------------------------------------------------------------

  /** Saving entries that follow position `p` of the full log truncates the
      stored log to `p` and appends them. */
  lemma {:induction false} SaveEntries(d: Disk, full: seq<Entry>, p: nat, es: seq<Entry>)
    requires SnapIndex(d) <= p <= |full| && d.entries == full[SnapIndex(d)..]
    requires Follows(p, es) && |es| > 0
    ensures AppendEntries(d, es) == d.(entries := (full[..p] + es)[SnapIndex(d)..])
  {
    var front, e := es[..|es| - 1], es[|es| - 1];
    var k := SnapIndex(d);
    if |front| == 0 {
      assert AppendEntries(d, front) == d;
      assert d.entries[..p - k] == full[k..p];
      assert (full[..p] + es)[k..] == full[k..p] + [e];
    } else {
      SaveEntries(d, full, p, front);
      assert (full[..p] + front)[k..] + [e] == (full[..p] + es)[k..];
    }
  }

  lemma GrowDisk(w: Machine, full: seq<Entry>, s: Node, es: seq<Entry>)
    requires DiskOk(w, full, s) && Follows(|full|, es)
    ensures DiskOk(w, full + es, GrowLog(s, es))
  {
    if |es| > 0 {
      SaveEntries(s.disk, full, |full|, es);
      assert full[..|full|] == full;
    } else {
      assert full + es == full;
    }
    assert (full + es)[..s.commitIndex] == full[..s.commitIndex];
  }

  lemma GrowCore(h: C.History, n: NodeId, s: Node, es: seq<Entry>, now: nat)
    requires CoreOk(h, n, s) && Extends(h, C.Extend(h, n, es), now)
    ensures CoreOk(C.Extend(h, n, es), n, GrowLog(s, es))
  {
    var h' := C.Extend(h, n, es);
    CommittedKeeps(h, h', now, h.logs[n], s.commitIndex, s.term);
    CommittedWeaken(h'.leaderLog, h'.commits, h.logs[n], s.commitIndex, s.term, h'.logs[n], s.commitIndex, s.term);
    GrowFrame(s, es);
  }

  lemma GrowFrame(s: Node, es: seq<Entry>)
    ensures GrowLog(s, es) == s.(log := AppendTo(s.log, es), disk := GrowLog(s, es).disk)
  {
  }

  // ------------------------------------------------------------------
  // Commit
  // ------------------------------------------------------------------

  lemma {:induction false} CountFirst(x: nat, s: seq<nat>, c: nat)
    ensures CountAtLeast([x] + s, c) == CountAtLeast(s, c) + (if x >= c then 1 else 0)
  {
    if |s| == 0 {
      assert [x] + s == [x];
      assert [x][..0] == [];
    } else {
      CountFirst(x, s[..|s| - 1], c);
      assert ([x] + s)[..|s|] == [x] + s[..|s| - 1];
    }
  }

  /** The commit candidate was acknowledged by a majority. */
  lemma CandidateAcked(h: C.History, now: nat, peers: seq<NodeId>, cfg: Config, n: NodeId, s: Node, c: nat)
    requires Distinct(peers) && n in peers && cfg.others == Others(peers, n) && h.peers == PeerSet(peers)
    requires LeaderOk(h, now, cfg.others, n, s)
    requires CountAtLeast(Matches(cfg, s), c) >= QuorumSize(cfg)
    requires c <= LastIndex(s.log) == |h.logs[n]|
    ensures IsQuorum(h.peers, C.Ackers(h.peers, h.acks, s.term, c))
  {
    OthersFacts(peers, n);
    CountFirst(LastIndex(s.log), Values(cfg.others, s.lead.matchIndex), c);
    CountIsCardinality(cfg.others, s.lead.matchIndex, c);
    var some := AtLeast(cfg.others, s.lead.matchIndex, c);
    forall p | p in some + {n}
      ensures p in C.Ackers(h.peers, h.acks, s.term, c)
    {
      assert p in some ==> PeerOk(h, now, s, |h.logs[n]|, p);
    }
    SubsetSize(some + {n}, C.Ackers(h.peers, h.acks, s.term, c));
  }

  ghost function CommitHistory(h: C.History, cfg: Config, s: Node, now: nat): C.History {
    var c := CommitCandidate(cfg, s);
    if c <= s.commitIndex || TermIn(s.log, c) != s.term then h else C.Settle(h, C.Commit(s.term, c, now))
  }

  ghost predicate LeaderHere(h: C.History, now: nat, peers: seq<NodeId>, cfg: Config, n: NodeId, s: Node) {
    && Distinct(peers) && n in peers && cfg.others == Others(peers, n) && h.peers == PeerSet(peers)
    && s.role == Leader
    && s.term > 0
    && CoreOk(h, n, s)
    && LeaderOk(h, now, cfg.others, n, s)
  }

  /** If the commit index moves, a majority acknowledged an entry of this term. */
  ghost predicate CommitJustified(h: C.History, cfg: Config, s: Node, now: nat) {
    var c := CommitCandidate(cfg, s);
    c > s.commitIndex && TermIn(s.log, c) == s.term ==>
          C.CommitOk(h.peers, h.leaderLog, h.acks, C.Commit(s.term, c, now))
  }

  lemma CommitIsJustified(h: C.History, now: nat, peers: seq<NodeId>, cfg: Config, n: NodeId, s: Node)
    requires LeaderHere(h, now + 1, peers, cfg, n, s)
    ensures CommitJustified(h, cfg, s, now)
  {
    var c := CommitCandidate(cfg, s);
    if c > s.commitIndex && TermIn(s.log, c) == s.term {
      CompactsReads(h.logs[n], s.log);
      assert Has(s.log, c);
      QuorumIndexIsGreatest(Matches(cfg, s), QuorumSize(cfg), c);
      CandidateAcked(h, now + 1, peers, cfg, n, s, c);
    }
  }

  lemma AdvanceHistory(h: C.History, now: nat, cfg: Config, n: NodeId, s: Node)
    requires C.Inv(h) && CommitJustified(h, cfg, s, now)
    requires s.term in h.elections && h.elections[s.term].leader == n
    ensures C.Inv(CommitHistory(h, cfg, s, now))
    ensures Extends(h, CommitHistory(h, cfg, s, now), now) && ActsFor(h, CommitHistory(h, cfg, s, now), n)
  {
    var c := C.Commit(s.term, CommitCandidate(cfg, s), now);
    if c.len > s.commitIndex && TermIn(s.log, c.len) == s.term {
      SettleHistory(h, c, n);
    } else {
      ExtendsRefl(h, n, now);
    }
  }

  lemma SettleHistory(h: C.History, c: C.Commit, n: NodeId)
    requires C.Inv(h) && C.CommitOk(h.peers, h.leaderLog, h.acks, c)
    requires c.term in h.elections && h.elections[c.term].leader == n
    ensures C.Inv(C.Settle(h, c))
    ensures Extends(h, C.Settle(h, c), c.at) && ActsFor(h, C.Settle(h, c), n)
  {
    C.SettleKeeps(h, c);
    SettleGrows(h, n, c);
  }

  lemma AdvanceNode(h: C.History, w: Machine, now: nat, cfg: Config, n: NodeId, s: Node)
    requires NodeOk(h, w, now + 1, cfg.others, n, s) && s.role == Leader && CommitJustified(h, cfg, s, now)
    ensures NodeOk(CommitHistory(h, cfg, s, now), w, now + 1, cfg.others, n, AdvanceCommit(cfg, s))
  {
    var c := CommitCandidate(cfg, s);
    if c > s.commitIndex && TermIn(s.log, c) == s.term {
      var h' := CommitHistory(h, cfg, s, now);
      AdvanceLeader(h, now, cfg, n, s);
      AdvanceApplied(w, h.logs[n], s.appl, s.log.snapIndex, s.commitIndex, c);
      AdvanceDisk(w, h.logs[n], s, c);
      assert Committed(h'.leaderLog, h'.commits, h'.logs[n], c, s.term) by {
        assert C.Commit(s.term, c, now) in h'.commits;
      }
    }
  }

  lemma AdvanceLeader(h: C.History, now: nat, cfg: Config, n: NodeId, s: Node)
    requires LeaderOk(h, now + 1, cfg.others, n, s) && CommitJustified(h, cfg, s, now)
    ensures LeaderOk(CommitHistory(h, cfg, s, now), now + 1, cfg.others, n, AdvanceCommit(cfg, s))
  {
    var h' := CommitHistory(h, cfg, s, now);
    var s' := AdvanceCommit(cfg, s);
    forall p | p in cfg.others
      ensures PeerOk(h', now + 1, s', |h.logs[n]|, p)
    {
      assert PeerOk(h, now + 1, s, |h.logs[n]|, p);
    }
  }

  lemma SnapOkGrows(w: Machine, full: seq<Entry>, c: nat, c': nat, snap: Snapshot)
    requires c <= c' <= |full| && SnapOk(w, full[..c], snap)
    ensures SnapOk(w, full[..c'], snap)
  {
    assert full[..c'][..snap.index] == full[..c][..snap.index];
  }

  lemma AdvanceDisk(w: Machine, full: seq<Entry>, s: Node, c: nat)
    requires DiskOk(w, full, s) && s.commitIndex <= c <= |full|
    ensures DiskOk(w, full, s.(commitIndex := c))
  {
    if s.disk.snap.Some? {
      SnapOkGrows(w, full, s.commitIndex, c, s.disk.snap.value);
    }
  }

  /** The applier's work stays valid when more is committed. */
  lemma AdvanceApplied(w: Machine, full: seq<Entry>, a: ApplierState, snapIndex: nat, c: nat, c': nat)
    requires c <= c' <= |full| && ApplierOk(w, full[..c], a, snapIndex)
    ensures ApplierOk(w, full[..c'], a, snapIndex)
  {
    ApplierGrows(w, full[..c], full[..c'], a, snapIndex);
  }

  lemma ApplierGrows(w: Machine, com: seq<Entry>, com': seq<Entry>, a: ApplierState, snapIndex: nat)
    requires Agree(com, com', |com|) && ApplierOk(w, com, a, snapIndex)
    ensures ApplierOk(w, com', a, snapIndex)
  {
    assert forall k: nat :: k <= |com| ==> com[..k] == com'[..k];
    if a.pending.Some? {
      SnapOkAgree(w, com, com', a.pending.value);
    }
    if a.phase.Applying? {
      var end := a.lastApplied + |a.phase.entries|;
      assert com[a.lastApplied..end] == com'[a.lastApplied..end];
    }
  }

  // ------------------------------------------------------------------
  // Winning an election
  // ------------------------------------------------------------------

  /** Election safety: a majority of votes in a term leaves no room for
      another leader, nor for the same node to be elected twice. */
  lemma WinIsFirst(h: C.History, n: NodeId, s: Node, voters: set<NodeId>)
    requires C.GrantsOk(h.term, h.vote, h.grants) && C.ElectionsOk(h.peers, h.grants, h.elections)
    requires CoreOk(h, n, s) && CandidateOk(h, n, s) && n in h.peers
    requires IsQuorum(h.peers, voters) && forall v :: v in voters ==> C.Grant(v, s.term, n) in h.grants
    ensures C.MayLead(h, n, voters)
  {
    if s.term in h.elections {
      assert C.ElectionOk(h.peers, h.grants, s.term, h.elections[s.term]);
      var x := QuorumsIntersect(h.peers, voters, h.elections[s.term].voters);
      assert false;
    }
  }

  function NoopFor(full: seq<Entry>, term: nat): seq<Entry> {
    [Entry(|full| + 1, term, Noop)]
  }

  ghost function WinHistory(h: C.History, n: NodeId, voters: set<NodeId>, now: nat): C.History {
    C.Extend(C.Elect(h, n, voters, now), n, NoopFor(C.LogOf(h.logs, n), C.TermOf(h.term, n)))
  }

  lemma WinHistoryOk(h: C.History, n: NodeId, voters: set<NodeId>, now: nat)
    requires C.Inv(h) && C.MayLead(h, n, voters)
    ensures C.Inv(WinHistory(h, n, voters, now))
    ensures Extends(h, WinHistory(h, n, voters, now), now) && ActsFor(h, WinHistory(h, n, voters, now), n)
  {
    hide C.Inv, Extends, ActsFor, IsQuorum;
    var h1 := C.Elect(h, n, voters, now);
    C.ElectKeeps(h, n, voters, now);
    C.ElectionKeys(h);
    ElectGrows(h, n, voters, now);
    ElectThenExtend(h1, n, NoopFor(h.logs[n], C.TermOf(h.term, n)), now);
    ExtendsTrans(h, h1, WinHistory(h, n, voters, now), now);
    ActsForTrans(h, h1, WinHistory(h, n, voters, now), n, now);
  }

  lemma ElectThenExtend(h: C.History, n: NodeId, es: seq<Entry>, now: nat)
    requires C.Inv(h) && C.MayExtend(h, n, es)
    ensures C.Inv(C.Extend(h, n, es))
    ensures Extends(h, C.Extend(h, n, es), now) && ActsFor(h, C.Extend(h, n, es), n)
  {
    C.ExtendKeeps(h, n, es);
    ExtendGrows(h, n, es, now);
  }

  /** The new leader before it looks at its commit index. */
  function NewLeader(cfg: Config, s: Node, now: nat): Node {
    var last := LastIndex(s.log);
    GrowLog(s.(role := Leader, leaderId := cfg.id,
               lead := NewLead(cfg, last, now)),
            [Entry(last + 1, s.term, Noop)])
  }

  lemma WinNode(h: C.History, w: Machine, now: nat, cfg: Config, n: NodeId, s: Node, voters: set<NodeId>)
    requires NodeOk(h, w, now, cfg.others, n, s) && s.role == Candidate && C.MayLead(h, n, voters)
    requires C.CommitsOk(h.peers, h.leaderLog, h.acks, h.commits) && h.elections.Keys == h.leaderLog.Keys
    requires Extends(h, WinHistory(h, n, voters, now), now)
    ensures NodeOk(WinHistory(h, n, voters, now), w, now + 1, cfg.others, n, NewLeader(cfg, s, now))
  {
    hide LeaderOk, CoreOk, CandidateOk, DiskOk, WaitersOk, ApplierOk, Extends, WinHistory, NewLeader, C.CommitsOk,
         C.MayLead;
    WinCore(h, now, cfg, n, s, voters);
    WinLeader(h, now, cfg, n, s, voters);
    WinRest(h, w, now, cfg, n, s, voters);
  }

  /** Disk, waiters and applier of a new leader; it commits nothing yet. */
  lemma WinRest(h: C.History, w: Machine, now: nat, cfg: Config, n: NodeId, s: Node, voters: set<NodeId>)
    requires CoreOk(h, n, s) && s.role == Candidate && WaitersOk(h.logs[n], s) && DiskOk(w, h.logs[n], s)
    requires ApplierOk(w, h.logs[n][..s.commitIndex], s.appl, s.log.snapIndex)
    ensures var h', s' := WinHistory(h, n, voters, now), NewLeader(cfg, s, now);
            && n in h'.logs && s'.role == Leader && s'.commitIndex == s.commitIndex <= |h'.logs[n]|
            && WaitersOk(h'.logs[n], s') && DiskOk(w, h'.logs[n], s')
            && ApplierOk(w, h'.logs[n][..s'.commitIndex], s'.appl, s'.log.snapIndex)
  {
    hide ApplierOk, DiskOk, Committed, Everywhere;
    var h', s' := WinHistory(h, n, voters, now), NewLeader(cfg, s, now);
    var full := h.logs[n];
    CompactsReads(full, s.log);
    var s1 := s.(role := Leader, leaderId := cfg.id, lead := s'.lead);
    LeadDisk(w, full, s, s1);
    GrowDisk(w, full, s1, NoopFor(full, s.term));
    assert h'.logs[n] == full + NoopFor(full, s.term);
    assert h'.logs[n][..s.commitIndex] == full[..s.commitIndex];
  }

  /** What is on disk does not depend on the role. */
  lemma LeadDisk(w: Machine, full: seq<Entry>, s: Node, s1: Node)
    requires DiskOk(w, full, s) && s1 == s.(role := s1.role, leaderId := s1.leaderId, lead := s1.lead)
    ensures DiskOk(w, full, s1)
  {
  }

  lemma WinCore(h: C.History, now: nat, cfg: Config, n: NodeId, s: Node, voters: set<NodeId>)
    requires CoreOk(h, n, s) && Extends(h, WinHistory(h, n, voters, now), now)
    ensures CoreOk(WinHistory(h, n, voters, now), n, NewLeader(cfg, s, now))
  {
    var h' := WinHistory(h, n, voters, now);
    CompactsReads(h.logs[n], s.log);
    CommittedKeeps(h, h', now, h.logs[n], s.commitIndex, s.term);
    CommittedWeaken(h'.leaderLog, h'.commits, h.logs[n], s.commitIndex, s.term, h'.logs[n], s.commitIndex, s.term);
  }

  lemma WinLeader(h: C.History, now: nat, cfg: Config, n: NodeId, s: Node, voters: set<NodeId>)
    requires CoreOk(h, n, s) && C.MayLead(h, n, voters)
    requires C.CommitsOk(h.peers, h.leaderLog, h.acks, h.commits) && h.elections.Keys == h.leaderLog.Keys
    ensures LeaderOk(WinHistory(h, n, voters, now), now + 1, cfg.others, n, NewLeader(cfg, s, now))
  {
    var h' := WinHistory(h, n, voters, now);
    var s' := NewLeader(cfg, s, now);
    CompactsReads(h.logs[n], s.log);
    forall c | c in h'.commits
      ensures c.term != s.term
    {
      assert C.CommitOk(h.peers, h.leaderLog, h.acks, c);
    }
    EverywhereReads<nat>(cfg.others, LastIndex(s.log) + 1);
    EverywhereReads<nat>(cfg.others, 0);
    EverywhereReads<nat>(cfg.others, now);
    forall p | p in cfg.others
      ensures PeerOk(h', now + 1, s', |h'.logs[n]|, p)
    {
    }
  }

  // ------------------------------------------------------------------
  // Proposals
  // ------------------------------------------------------------------

  lemma {:induction false} AddWaitersFacts(waiters: map<nat, Proposal>, last: nat, term: nat,
                                           batch: seq<(nat, Command)>, i: nat)
    ensures i in AddWaiters(waiters, last, term, batch) <==> i in waiters || last < i <= last + |batch|
    ensures last < i <= last + |batch| ==>
              AddWaiters(waiters, last, term, batch)[i] == Proposal(batch[i - last - 1].0, term, batch[i - last - 1].1)
    ensures i in waiters && !(last < i <= last + |batch|) ==> AddWaiters(waiters, last, term, batch)[i] == waiters[i]
  {
    if |batch| > 0 {
      AddWaitersFacts(waiters, last, term, batch[..|batch| - 1], i);
    }
  }

  /** The leader with the batch appended and its waiters registered, before it
      looks at its commit index. */
  function Proposed(s: Node, batch: seq<(nat, Command)>): Node {
    var es := ProposalEntries(LastIndex(s.log), s.term, batch);
    GrowLog(s, es).(waiters := AddWaiters(s.waiters, LastIndex(s.log), s.term, batch))
  }

  lemma ProposeNode(h: C.History, w: Machine, now: nat, cfg: Config, n: NodeId, s: Node, batch: seq<(nat, Command)>)
    requires NodeOk(h, w, now, cfg.others, n, s) && s.role == Leader
    requires Extends(h, C.Extend(h, n, ProposalEntries(LastIndex(s.log), s.term, batch)), now)
    ensures NodeOk(C.Extend(h, n, ProposalEntries(LastIndex(s.log), s.term, batch)), w, now + 1, cfg.others, n,
              Proposed(s, batch))
  {
    hide LeaderOk, CoreOk, CandidateOk, DiskOk, WaitersOk, ApplierOk, Extends, C.Extend, Proposed, ProposalEntries;
    ProposeCore(h, now, n, s, batch);
    ProposeLeader(h, now, cfg, n, s, batch);
    ProposeRest(h, w, n, s, batch);
  }

  lemma ProposeCore(h: C.History, now: nat, n: NodeId, s: Node, batch: seq<(nat, Command)>)
    requires CoreOk(h, n, s) && Extends(h, C.Extend(h, n, ProposalEntries(LastIndex(s.log), s.term, batch)), now)
    ensures CoreOk(C.Extend(h, n, ProposalEntries(LastIndex(s.log), s.term, batch)), n, Proposed(s, batch))
  {
    hide Extends, ProposalEntries, GrowLog, C.Extend, Committed, Compacts;
    GrowCore(h, n, s, ProposalEntries(LastIndex(s.log), s.term, batch), now);
  }

  lemma ProposeRest(h: C.History, w: Machine, n: NodeId, s: Node, batch: seq<(nat, Command)>)
    requires CoreOk(h, n, s) && s.role == Leader && WaitersOk(h.logs[n], s) && DiskOk(w, h.logs[n], s)
    requires ApplierOk(w, h.logs[n][..s.commitIndex], s.appl, s.log.snapIndex)
    ensures var h', s' := C.Extend(h, n, ProposalEntries(LastIndex(s.log), s.term, batch)), Proposed(s, batch);
            && n in h'.logs && s'.role == Leader && s'.commitIndex == s.commitIndex <= |h'.logs[n]|
            && WaitersOk(h'.logs[n], s') && DiskOk(w, h'.logs[n], s')
            && ApplierOk(w, h'.logs[n][..s'.commitIndex], s'.appl, s'.log.snapIndex)
  {
    hide ApplierOk, Committed;
    var es := ProposalEntries(LastIndex(s.log), s.term, batch);
    var full := h.logs[n];
    CompactsReads(full, s.log);
    GrowDisk(w, full, s, es);
    ProposeWaiters(full, s, batch);
    assert (full + es)[..s.commitIndex] == full[..s.commitIndex];
  }

  lemma ProposeLeader(h: C.History, now: nat, cfg: Config, n: NodeId, s: Node, batch: seq<(nat, Command)>)
    requires CoreOk(h, n, s) && LeaderOk(h, now, cfg.others, n, s)
    requires Extends(h, C.Extend(h, n, ProposalEntries(LastIndex(s.log), s.term, batch)), now)
    ensures LeaderOk(C.Extend(h, n, ProposalEntries(LastIndex(s.log), s.term, batch)), now + 1, cfg.others, n,
              Proposed(s, batch))
  {
    var es := ProposalEntries(LastIndex(s.log), s.term, batch);
    var h' := C.Extend(h, n, es);
    forall p | p in cfg.others
      ensures PeerOk(h', now + 1, Proposed(s, batch), |h'.logs[n]|, p)
    {
      assert PeerOk(h, now, s, |h.logs[n]|, p);
    }
  }

  lemma ProposeWaiters(full: seq<Entry>, s: Node, batch: seq<(nat, Command)>)
    requires Compacts(full, s.log) && WaitersOk(full, s) && s.role == Leader
    ensures WaitersOk(full + ProposalEntries(LastIndex(s.log), s.term, batch), Proposed(s, batch))
  {
    var es := ProposalEntries(LastIndex(s.log), s.term, batch);
    var s' := Proposed(s, batch);
    CompactsReads(full, s.log);
    forall i | i in s'.waiters
      ensures WaiterOk(full + es, s'.term, i, s'.waiters[i])
    {
      AddWaitersFacts(s.waiters, LastIndex(s.log), s.term, batch, i);
      if !(|full| < i <= |full| + |batch|) {
        assert WaiterOk(full, s.term, i, s.waiters[i]);
      }
    }
  }

  // ------------------------------------------------------------------
  // Replies
  // ------------------------------------------------------------------

  /** Only the leader's bookkeeping changed. */
  lemma LeadNode(h: C.History, w: Machine, now: nat, others: seq<NodeId>, n: NodeId, s: Node, lead: LeaderState)
    requires NodeOk(h, w, now, others, n, s)
    requires s.role == Leader ==> LeaderOk(h, now + 1, others, n, s.(lead := lead))
    ensures NodeOk(h, w, now + 1, others, n, s.(lead := lead))
  {
  }

  lemma AckLeader(h: C.History, now: nat, others: seq<NodeId>, n: NodeId, s: Node, peer: NodeId, sentAt: nat)
    requires LeaderOk(h, now, others, n, s) && peer in others
    requires sentAt <= now && NotPastBy(h.elections, s.term, peer, sentAt)
    ensures LeaderOk(h, now + 1, others, n, RecordAck(s, peer, sentAt))
  {
    var s' := RecordAck(s, peer, sentAt);
    forall p | p in others
      ensures PeerOk(h, now + 1, s', |h.logs[n]|, p)
    {
      assert PeerOk(h, now, s, |h.logs[n]|, p);
    }
  }

  /** Setting what is known about one peer. */
  function Track(s: Node, peer: NodeId, matched: nat, next: nat): Node {
    s.(lead := s.lead.(matchIndex := s.lead.matchIndex[peer := matched], nextIndex := s.lead.nextIndex[peer := next]))
  }

  lemma TrackLeader(h: C.History, now: nat, others: seq<NodeId>, n: NodeId, s: Node, peer: NodeId, matched: nat,
                    next: nat)
    requires LeaderOk(h, now, others, n, s) && peer in others
    requires matched <= C.Acked(h.acks, peer, s.term) && 1 <= next <= |h.logs[n]| + 1
    ensures LeaderOk(h, now, others, n, Track(s, peer, matched, next))
  {
    var s' := Track(s, peer, matched, next);
    forall p | p in others
      ensures PeerOk(h, now, s', |h.logs[n]|, p)
    {
      assert PeerOk(h, now, s, |h.logs[n]|, p);
    }
  }

  /** The leader after a reply to AppendEntries in its own term, before it
      looks at its commit index. */
  function AfterAppendReply(s: Node, peer: NodeId, req: AppendReq, sentAt: nat, resp: AppendResp): Node {
    var s1 := RecordAck(s, peer, sentAt);
    var m := req.prevIndex + |req.entries|;
    if !resp.success then Track(s1, peer, Get(s1.lead.matchIndex, peer), BacktrackTo(s1, resp))
    else if m > Get(s1.lead.matchIndex, peer) then Track(s1, peer, m, m + 1)
    else s1
  }

  lemma AfterAppendReplySplit(cfg: Config, s: Node, peer: NodeId, req: AppendReq, sentAt: nat, resp: AppendResp)
    requires resp.term <= s.term && s.role == Leader && s.term == req.term && peer in s.lead.matchIndex
    ensures var s1 := AfterAppendReply(s, peer, req, sentAt, resp);
            var moved := resp.success && req.prevIndex + |req.entries| > Get(s.lead.matchIndex, peer);
            OnAppendReply(cfg, s, peer, req, sentAt, resp) == (if moved then AdvanceCommit(cfg, s1) else s1, {})
  {
    assert s.lead.matchIndex[peer := Get(s.lead.matchIndex, peer)] == s.lead.matchIndex;
  }

  lemma AppendReplyNode(h: C.History, w: Machine, now: nat, others: seq<NodeId>, n: NodeId, s: Node,
                        peer: NodeId, req: AppendReq, sentAt: nat, resp: AppendResp)
    requires NodeOk(h, w, now, others, n, s) && s.role == Leader && s.term == req.term && resp.term == req.term
    requires peer in others && sentAt <= now
    requires AppendReqOk(h, peer, req) && AppendReplyOk(h, peer, req, sentAt, resp)
    ensures NodeOk(h, w, now + 1, others, n, AfterAppendReply(s, peer, req, sentAt, resp))
  {
    CompactsReads(h.logs[n], s.log);
    AppendReplyLeader(h, now, others, n, s, peer, req, sentAt, resp);
    LeadNode(h, w, now, others, n, s, AfterAppendReply(s, peer, req, sentAt, resp).lead);
  }

  lemma AppendReplyLeader(h: C.History, now: nat, others: seq<NodeId>, n: NodeId, s: Node,
                          peer: NodeId, req: AppendReq, sentAt: nat, resp: AppendResp)
    requires LeaderOk(h, now, others, n, s) && LastIndex(s.log) == |h.logs[n]| && s.term == req.term
    requires peer in others && sentAt <= now && NotPastBy(h.elections, s.term, peer, sentAt)
    requires resp.success ==> req.prevIndex + |req.entries| <= |h.logs[n]|
    requires resp.success ==> C.Acked(h.acks, peer, req.term) >= req.prevIndex + |req.entries|
    ensures LeaderOk(h, now + 1, others, n, AfterAppendReply(s, peer, req, sentAt, resp))
  {
    var s1 := RecordAck(s, peer, sentAt);
    AckLeader(h, now, others, n, s, peer, sentAt);
    assert PeerOk(h, now + 1, s1, |h.logs[n]|, peer);
    if !resp.success {
      TrackLeader(h, now + 1, others, n, s1, peer, Get(s1.lead.matchIndex, peer), BacktrackTo(s1, resp));
    } else if req.prevIndex + |req.entries| > Get(s1.lead.matchIndex, peer) {
      TrackLeader(h, now + 1, others, n, s1, peer, req.prevIndex + |req.entries|, req.prevIndex + |req.entries| + 1);
    }
  }

  /** The same for a reply to InstallSnapshot; `next` is set last. */
  function AfterSnapReply(s: Node, peer: NodeId, req: SnapReq, sentAt: nat): Node {
    var s1 := RecordAck(s, peer, sentAt);
    if req.snap.index > Get(s1.lead.matchIndex, peer)
    then s1.(lead := s1.lead.(matchIndex := s1.lead.matchIndex[peer := req.snap.index])) else s1
  }

  lemma SnapReplyNode(h: C.History, w: Machine, now: nat, others: seq<NodeId>, n: NodeId, s: Node,
                      peer: NodeId, req: SnapReq, sentAt: nat)
    requires NodeOk(h, w, now, others, n, s) && s.role == Leader && s.term == req.term
    requires peer in others && sentAt <= now && SnapReplyOk(h, peer, req, sentAt, req.term)
    ensures NodeOk(h, w, now + 1, others, n, AfterSnapReply(s, peer, req, sentAt))
  {
    SnapReplyLeader(h, now, others, n, s, peer, req, sentAt);
    LeadNode(h, w, now, others, n, s, AfterSnapReply(s, peer, req, sentAt).lead);
  }

  lemma SnapReplyLeader(h: C.History, now: nat, others: seq<NodeId>, n: NodeId, s: Node,
                        peer: NodeId, req: SnapReq, sentAt: nat)
    requires LeaderOk(h, now, others, n, s) && s.term == req.term
    requires peer in others && sentAt <= now && SnapReplyOk(h, peer, req, sentAt, req.term)
    ensures LeaderOk(h, now + 1, others, n, AfterSnapReply(s, peer, req, sentAt))
  {
    var s1 := RecordAck(s, peer, sentAt);
    AckLeader(h, now, others, n, s, peer, sentAt);
    assert PeerOk(h, now + 1, s1, |h.logs[n]|, peer);
    if req.snap.index > Get(s1.lead.matchIndex, peer) {
      TrackLeader(h, now + 1, others, n, s1, peer, req.snap.index, Get(s1.lead.nextIndex, peer));
      assert s1.lead.nextIndex[peer := Get(s1.lead.nextIndex, peer)] == s1.lead.nextIndex;
    }
  }

  lemma NextAfterSnapshot(h: C.History, w: Machine, now: nat, others: seq<NodeId>, n: NodeId, s: Node, peer: NodeId)
    requires NodeOk(h, w, now, others, n, s) && s.role == Leader && peer in others
    requires C.AcksOk(h.term, h.leaderLog, h.logs, h.acks)
    ensures NodeOk(h, w, now, others, n,
              s.(lead := s.lead.(nextIndex := s.lead.nextIndex[peer := Get(s.lead.matchIndex, peer) + 1])))
  {
    assert PeerOk(h, now, s, |h.logs[n]|, peer);
    C.AcksBounded(h);
    var m := Get(s.lead.matchIndex, peer);
    TrackLeader(h, now, others, n, s, peer, m, m + 1);
    assert s.lead.matchIndex[peer := m] == s.lead.matchIndex;
  }
}
