/** What a leader gains from a reply: the acknowledgement counts, the peer's
    indexes move to where the next request should start, and a rejection costs
    no more than it must. */
module Replies {
  import opened Types
  import opened Quorum
  import opened LogSpec
  import opened DiskSpec
  import opened CommitRule
  import opened Replica
  import opened Cluster
  import opened Link
  import opened Steps
  import opened Safety
  import opened Senders
  import opened Ballots
  import V = Votes
  import L = RaftLog
  import C = Consensus

  // ------------------------------------------------------------------
  // One reply
  // ------------------------------------------------------------------

  /** What the leader knows of other peers is as it was, and so is its log. */
  ghost predicate OnlyOf(p: NodeId, s: Node, s': Node) {
    && s'.role == Leader && s'.term == s.term && s'.log == s.log && s'.waiters == s.waiters
    && forall q :: q != p ==>
         && Get(s'.lead.matchIndex, q) == Get(s.lead.matchIndex, q)
         && Get(s'.lead.nextIndex, q) == Get(s.lead.nextIndex, q)
         && Get(s'.lead.ackedAt, q) == Get(s.lead.ackedAt, q)
  }

  /** What a reply to AppendEntries does that is taken in the term of the
      request: it acknowledges the time the request was sent; a success that
      confirms more than was known moves the match there and the next index
      right after it; a rejection leaves the match. */
  ghost predicate AppendReplied(a: Node, b: Node, p: NodeId, req: AppendReq, sentAt: nat, resp: AppendResp) {
    var end := req.prevIndex + |req.entries|;
    var moves := resp.success && end > Get(a.lead.matchIndex, p);
    && OnlyOf(p, a, b)
    && Get(b.lead.ackedAt, p) == Max(Get(a.lead.ackedAt, p), sentAt)
    && Get(b.lead.matchIndex, p) == (if moves then end else Get(a.lead.matchIndex, p))
    && (moves ==> Get(b.lead.nextIndex, p) == end + 1)
    && (resp.success && !moves ==> Get(b.lead.nextIndex, p) == Get(a.lead.nextIndex, p))
  }

  /** What a reply to a snapshot does: the peer holds it, and the next index is
      right after all that the peer is known to hold. */
  ghost predicate SnapshotReplied(a: Node, b: Node, p: NodeId, req: SnapReq, sentAt: nat) {
    && OnlyOf(p, a, b)
    && Get(b.lead.ackedAt, p) == Max(Get(a.lead.ackedAt, p), sentAt)
    && Get(b.lead.matchIndex, p) == Max(Get(a.lead.matchIndex, p), req.snap.index)
    && Get(b.lead.nextIndex, p) == Get(b.lead.matchIndex, p) + 1
  }

  lemma OnAppendReplied(cfg: Config, s: Node, p: NodeId, req: AppendReq, sentAt: nat, resp: AppendResp)
    requires s.role == Leader && s.term == req.term && resp.term <= s.term
    ensures var r := OnAppendReply(cfg, s, p, req, sentAt, resp);
            AppendReplied(s, r.0, p, req, sentAt, resp) && r.1 == {}
  {
    hide AdvanceCommit, BacktrackTo;
    var end := req.prevIndex + |req.entries|;
    var s1 := RecordAck(s, p, sentAt);
    AdvanceTerm(cfg, s1.(lead := s1.lead.(matchIndex := s1.lead.matchIndex[p := end],
        nextIndex := s1.lead.nextIndex[p := end + 1])));
  }

  lemma OnSnapshotReplied(cfg: Config, s: Node, p: NodeId, req: SnapReq, sentAt: nat, respTerm: nat)
    requires s.role == Leader && s.term == req.term && respTerm <= s.term
    ensures var r := OnSnapshotReply(cfg, s, p, req, sentAt, respTerm);
            SnapshotReplied(s, r.0, p, req, sentAt) && r.1 == {}
  {
    hide AdvanceCommit;
    var s1 := RecordAck(s, p, sentAt);
    AdvanceTerm(cfg, s1.(lead := s1.lead.(matchIndex := s1.lead.matchIndex[p := req.snap.index])));
  }

  lemma AppendReplyTaken(s: Group, n: NodeId, m: Msg)
    requires Enabled(s, TakeAppendReply(n, m)) && Leads(s, n, m.append.term) && m.appendResp.term <= m.append.term
    ensures var s' := Do(s, TakeAppendReply(n, m));
            && s'.nodes == s.nodes[n := s'.nodes[n]] && s'.answered == s.answered
            && AppendReplied(s.nodes[n], s'.nodes[n], m.from, m.append, m.sentAt, m.appendResp)
  {
    hide OnAppendReply, AppendReplied, Do;
    DoShape(s, TakeAppendReply(n, m));
    OnAppendReplied(Cfg(s, n), s.nodes[n], m.from, m.append, m.sentAt, m.appendResp);
  }

  lemma SnapshotReplyTaken(s: Group, n: NodeId, m: Msg)
    requires Enabled(s, TakeSnapshotReply(n, m)) && Leads(s, n, m.install.term) && m.respTerm <= m.install.term
    ensures var s' := Do(s, TakeSnapshotReply(n, m));
            && s'.nodes == s.nodes[n := s'.nodes[n]] && s'.answered == s.answered
            && SnapshotReplied(s.nodes[n], s'.nodes[n], m.from, m.install, m.sentAt)
  {
    hide OnSnapshotReply, SnapshotReplied, Do;
    DoShape(s, TakeSnapshotReply(n, m));
    OnSnapshotReplied(Cfg(s, n), s.nodes[n], m.from, m.install, m.sentAt, m.respTerm);
  }

  // ------------------------------------------------------------------
  // While a leader stays in office
  // ------------------------------------------------------------------

  /** The step takes a rejection by `p`. */
  predicate Rejects(step: Step, n: NodeId, p: NodeId) {
    step.TakeAppendReply? && step.n == n && step.m.AppendReply? && step.m.from == p && !step.m.appendResp.success
  }

  /** What a leader learned of a peer it keeps: acknowledgements and matches
      only grow, and the next index stays beyond a known match unless the peer
      rejects a request. */
  ghost predicate Remembers(step: Step, n: NodeId, a: Node, b: Node) {
    forall p ::
      && Get(b.lead.ackedAt, p) >= Get(a.lead.ackedAt, p)
      && Get(b.lead.matchIndex, p) >= Get(a.lead.matchIndex, p)
      && (!Rejects(step, n, p) ==>
            || Get(b.lead.nextIndex, p) >= Get(a.lead.nextIndex, p)
            || Get(b.lead.nextIndex, p) > Get(a.lead.matchIndex, p))
  }

  lemma SameLead(step: Step, n: NodeId, a: Node, b: Node)
    requires b.lead.ackedAt == a.lead.ackedAt && b.lead.matchIndex == a.lead.matchIndex
    requires b.lead.nextIndex == a.lead.nextIndex
    ensures Remembers(step, n, a, b)
  {
  }

  lemma AppendRemembered(cfg: Config, s: Node, step: Step, n: NodeId, m: Msg)
    requires m.AppendReply? && step == TakeAppendReply(n, m) && s.role == Leader
    ensures var s' := OnAppendReply(cfg, s, m.from, m.append, m.sentAt, m.appendResp).0;
            s'.role == Leader ==> Remembers(step, n, s, s')
  {
    hide AdvanceCommit, BacktrackTo, Persist;
    if s.term == m.append.term && m.appendResp.term <= s.term {
      OnAppendReplied(cfg, s, m.from, m.append, m.sentAt, m.appendResp);
      hide OnAppendReply;
    }
  }

  lemma SnapshotRemembered(cfg: Config, s: Node, step: Step, n: NodeId, m: Msg)
    requires m.SnapReply? && step == TakeSnapshotReply(n, m) && s.role == Leader
    ensures var s' := OnSnapshotReply(cfg, s, m.from, m.install, m.sentAt, m.respTerm).0;
            s'.role == Leader ==> Remembers(step, n, s, s')
  {
    hide AdvanceCommit, Persist;
    if s.term == m.install.term && m.respTerm <= s.term {
      OnSnapshotReplied(cfg, s, m.from, m.install, m.sentAt, m.respTerm);
      hide OnSnapshotReply;
    }
  }

  lemma RepliesRemembered(s: Group, step: Step, n: NodeId)
    requires Enabled(s, step) && (step.TakeAppendReply? || step.TakeSnapshotReply?) && step.n == n
    requires s.nodes[n].role == Leader && EffectOf(s, step).node.role == Leader
    ensures Remembers(step, n, s.nodes[n], EffectOf(s, step).node)
  {
    hide Remembers, OnAppendReply, OnSnapshotReply;
    if step.TakeAppendReply? {
      AppendRemembered(Cfg(s, n), s.nodes[n], step, n, step.m);
    } else {
      SnapshotRemembered(Cfg(s, n), s.nodes[n], step, n, step.m);
    }
  }

  /** Steps that a leader survives and that are no replies leave it what it knows. */
  lemma OthersRemembered(s: Group, step: Step)
    requires Enabled(s, step) && !step.Transmit? && !step.TakeAppendReply? && !step.TakeSnapshotReply?
    requires s.nodes[Actor(step)].role == Leader && EffectOf(s, step).node.role == Leader
    ensures var a, b := s.nodes[Actor(step)], EffectOf(s, step).node;
            && b.lead.ackedAt == a.lead.ackedAt && b.lead.matchIndex == a.lead.matchIndex
            && b.lead.nextIndex == a.lead.nextIndex
  {
    hide IsQuorum, PreGranted, VoteGranted, CommitCandidate, Save, AppendSameTerm, CutDisk, InstallSameTerm,
         BacktrackTo, PrepareAppend, HandleRequestVote, HandlePreVote, ProposalEntries, AddWaiters, HasQuorumAckSince,
         AppliedAnswers, Slice, TermIn, SaveSnapshot;
    match step
    case AnswerVote(_, m) => VoteLead(s.nodes[step.n], m.vote);
    case AnswerAppend(_, m) => FollowEnds(s.nodes[step.n], m.append.term, m.append.leader); AppendLead(s, step);
    case AnswerSnapshot(_, m) => FollowEnds(s.nodes[step.n], m.install.term, m.install.leader); InstallLead(s, step);
    case _ =>
  }

  lemma VoteLead(s: Node, req: VoteReq)
    requires s.role == Leader
    ensures var s' := HandleRequestVote(s, req).0; s'.role == Leader ==> s'.lead == s.lead
  {
    hide LogUpToDate, Save;
  }

  lemma FollowEnds(s: Node, t: nat, leader: NodeId)
    requires s.role == Leader
    ensures Follow(s, t, leader).0.role == Follower
  {
  }

  lemma AppendLead(s: Group, step: Step)
    requires Enabled(s, step) && step.AnswerAppend? && s.nodes[step.n].role == Leader
    ensures EffectOf(s, step).node.role == Leader ==> EffectOf(s, step).node == s.nodes[step.n]
  {
    hide Fresh, Save, FirstIndexOfTerm, TermIn;
  }

  lemma InstallLead(s: Group, step: Step)
    requires Enabled(s, step) && step.AnswerSnapshot? && s.nodes[step.n].role == Leader
    ensures EffectOf(s, step).node.role == Leader ==> EffectOf(s, step).node == s.nodes[step.n]
  {
    hide Save, SaveSnapshot, TermIn;
  }

  lemma StepRemembered(s: Group, step: Step, n: NodeId, t: nat)
    requires Enabled(s, step) && Leads(s, n, t) && Leads(Do(s, step), n, t)
    ensures Remembers(step, n, s.nodes[n], Do(s, step).nodes[n])
  {
    hide Enabled, Do, EffectOf, Remembers;
    DoShape(s, step);
    if step.Transmit? || Actor(step) != n {
      SameLead(step, n, s.nodes[n], Do(s, step).nodes[n]);
    } else if step.TakeAppendReply? || step.TakeSnapshotReply? {
      RepliesRemembered(s, step, n);
    } else {
      OthersRemembered(s, step);
      SameLead(step, n, s.nodes[n], Do(s, step).nodes[n]);
    }
  }

  /** Over a term of office. */
  lemma {:induction false} OfficeRemembers(run: seq<Group>, steps: seq<Step>, i: nat, j: nat, n: NodeId, t: nat,
                                           p: NodeId, k: nat)
    requires IsRun(run, steps) && i <= j < |run| && Leads(run[i], n, t) && Leads(run[j], n, t)
    requires k <= Get(run[i].nodes[n].lead.matchIndex, p)
    ensures var a, b := run[i].nodes[n], run[j].nodes[n];
            && Get(b.lead.ackedAt, p) >= Get(a.lead.ackedAt, p)
            && Get(b.lead.matchIndex, p) >= Get(a.lead.matchIndex, p)
            && ((&& Get(a.lead.nextIndex, p) > k
                 && forall x :: i <= x < j ==> !Rejects(steps[x], n, p)) ==> Get(b.lead.nextIndex, p) > k)
    decreases j
  {
    hide Enabled, Do, Init;
    if i < j {
      V.OfficeUnbroken(run, steps, i, j - 1, j, n);
      OfficeRemembers(run, steps, i, j - 1, n, t, p, k);
      StepRemembered(run[j - 1], steps[j - 1], n, t);
      assert Remembers(steps[j - 1], n, run[j - 1].nodes[n], run[j].nodes[n]);
    }
  }

  // ------------------------------------------------------------------
  // Acknowledgements confirm reads and keep a leader in office
  // ------------------------------------------------------------------

  /** Step `x` takes `p`'s reply, in the leader's term, to a request sent at or after `since`. */
  ghost predicate AckTaken(run: seq<Group>, steps: seq<Step>, x: nat, n: NodeId, t: nat, p: NodeId, since: nat) {
    && x < |steps| < |run| && Leads(run[x], n, t) && Actor(steps[x]) == n
    && match steps[x]
       case TakeAppendReply(_, m) =>
         m.AppendReply? && m.from == p && m.append.term == t && m.appendResp.term <= t && m.sentAt >= since
       case TakeSnapshotReply(_, m) =>
         m.SnapReply? && m.from == p && m.install.term == t && m.respTerm <= t && m.sentAt >= since
       case _ => false
  }

  lemma AckCounts(run: seq<Group>, steps: seq<Step>, x: nat, j: nat, n: NodeId, t: nat, p: NodeId, since: nat)
    requires IsRun(run, steps) && x < j < |run| && AckTaken(run, steps, x, n, t, p, since) && Leads(run[j], n, t)
    ensures Get(run[j].nodes[n].lead.ackedAt, p) >= since
  {
    hide Enabled, Do, Init, OnlyOf;
    if steps[x].TakeAppendReply? {
      AppendReplyTaken(run[x], n, steps[x].m);
    } else {
      SnapshotReplyTaken(run[x], n, steps[x].m);
    }
    V.OfficeUnbroken(run, steps, x, x + 1, j, n);
    OfficeRemembers(run, steps, x + 1, j, n, t, p, 0);
  }

  lemma {:induction false} RunPeers(run: seq<Group>, steps: seq<Step>, j: nat)
    requires IsRun(run, steps) && j < |run|
    ensures Distinct(run[j].peers) && run[j].nodes.Keys == PeerSet(run[j].peers)
    decreases j
  {
    hide Enabled, Do, EffectOf;
    if j > 0 {
      RunPeers(run, steps, j - 1);
      DoShape(run[j - 1], steps[j - 1]);
    }
  }

  lemma LaterAcks(cfg: Config, s: Node, since: nat, t: nat)
    requires Proper(cfg) && HasQuorumAckSince(cfg, s, since) && t <= since
    ensures HasQuorumAckSince(cfg, s, t)
  {
    hide HasQuorumAckSince;
    AcksCountMajority(cfg, s, since);
    AcksCountMajority(cfg, s, t);
    var acked := s.lead.ackedAt;
    SubsetSize(AtLeast(cfg.others, acked, since) + {cfg.id}, AtLeast(cfg.others, acked, t) + {cfg.id});
  }

  lemma MajorityCounted(run: seq<Group>, steps: seq<Step>, j: nat, n: NodeId, t: nat, since: nat, acked: set<NodeId>)
    requires IsRun(run, steps) && j < |run| && Leads(run[j], n, t)
    requires IsQuorum(PeerSet(run[j].peers), acked + {n})
    requires forall p :: p in acked ==> exists x :: 0 <= x < j && AckTaken(run, steps, x, n, t, p, since)
    ensures Proper(Cfg(run[j], n)) && HasQuorumAckSince(Cfg(run[j], n), run[j].nodes[n], since)
  {
    hide IsRun, AckTaken, HasQuorumAckSince, Others, Cfg;
    var s, cfg := run[j].nodes[n], Cfg(run[j], n);
    RunPeers(run, steps, j);
    CfgMembers(run[j], n);
    assert cfg.id == n by { CfgIs(run[j], n); }
    forall p | p in acked - {n}
      ensures p in AtLeast(cfg.others, s.lead.ackedAt, since)
    {
      var x :| 0 <= x < j && AckTaken(run, steps, x, n, t, p, since);
      AckCounts(run, steps, x, j, n, t, p, since);
      assert p in Members(cfg);
    }
    var known := AtLeast(cfg.others, s.lead.ackedAt, since) + {n};
    assert acked + {n} <= known && known <= Members(cfg);
    SubsetSize(acked + {n}, known);
    AcksCountMajority(cfg, s, since);
  }

  lemma CfgIs(s: Group, n: NodeId)
    ensures Cfg(s, n).id == n
  {
  }

  lemma Confirmable(s: Group, rd: Read, since: nat)
    requires rd in s.begun && Leads(s, rd.node, rd.term) && rd.start <= since
    requires Proper(Cfg(s, rd.node)) && HasQuorumAckSince(Cfg(s, rd.node), s.nodes[rd.node], since)
    ensures Enabled(s, ConfirmRead(rd))
  {
    hide HasQuorumAckSince, Cfg, Proper;
    LaterAcks(Cfg(s, rd.node), s.nodes[rd.node], since, rd.start);
  }

  lemma StaysInOffice(s: Group, n: NodeId, since: nat, c: nat)
    requires n in s.nodes && c <= since
    requires Proper(Cfg(s, n)) && HasQuorumAckSince(Cfg(s, n), s.nodes[n], since)
    ensures !Enabled(s, CheckQuorum(n, c))
  {
    hide HasQuorumAckSince, Cfg, Proper;
    LaterAcks(Cfg(s, n), s.nodes[n], since, c);
  }

  /** Once the replies of a majority to requests sent since `since` have been
      taken, every read of this term begun by then can be confirmed, and
      check-quorum does not depose the leader for silence since then. */
  lemma MajorityAcknowledges(run: seq<Group>, steps: seq<Step>, j: nat, n: NodeId, t: nat, since: nat,
                             acked: set<NodeId>)
    requires IsRun(run, steps) && j < |run| && Leads(run[j], n, t)
    requires IsQuorum(PeerSet(run[j].peers), acked + {n})
    requires forall p :: p in acked ==> exists x :: 0 <= x < j && AckTaken(run, steps, x, n, t, p, since)
    ensures forall rd :: rd in run[j].begun && rd.node == n && rd.term == t && rd.start <= since ==>
              Enabled(run[j], ConfirmRead(rd))
    ensures forall c: nat :: c <= since ==> !Enabled(run[j], CheckQuorum(n, c))
  {
    hide IsRun, AckTaken, HasQuorumAckSince, Cfg, Proper, Enabled, IsQuorum, PeerSet;
    MajorityCounted(run, steps, j, n, t, since, acked);
    forall rd | rd in run[j].begun && rd.node == n && rd.term == t && rd.start <= since
      ensures Enabled(run[j], ConfirmRead(rd))
    {
      Confirmable(run[j], rd, since);
    }
    forall c: nat | c <= since
      ensures !Enabled(run[j], CheckQuorum(n, c))
    {
      StaysInOffice(run[j], n, since, c);
    }
  }

  // ------------------------------------------------------------------
  // Snapshots are sent once
  // ------------------------------------------------------------------

  /** After a peer has acknowledged a snapshot, the leader decides to send it
      another one only once it has compacted its log past what the peer is
      known to hold, or the peer has rejected a request since. */
  lemma SnapshotAgainOnlyPast(run: seq<Group>, steps: seq<Step>, i: nat, j: nat, n: NodeId, m: Msg)
    requires IsRun(run, steps) && i < j < |run| && steps[i] == TakeSnapshotReply(n, m)
    requires Leads(run[i], n, m.install.term) && m.respTerm <= m.install.term && Leads(run[j], n, m.install.term)
    requires forall x :: i < x < j ==> !Rejects(steps[x], n, m.from)
    ensures Enabled(run[j], DecideSnapshot(n, m.from)) ==> run[j].nodes[n].log.snapIndex > m.install.snap.index
  {
    hide Init, Do, OnlyOf;
    var t, p := m.install.term, m.from;
    SnapshotReplyTaken(run[i], n, m);
    V.OfficeUnbroken(run, steps, i, i + 1, j, n);
    OfficeRemembers(run, steps, i + 1, j, n, t, p, Get(run[i + 1].nodes[n].lead.matchIndex, p));
  }

  // ------------------------------------------------------------------
  // A rejection costs no more than it must
  // ------------------------------------------------------------------

  /** The receiver's hint about the request it rejects: its log is too short, or
      holds another term there, whose first index it names. */
  ghost predicate HintOf(l: LogState, req: AppendReq, resp: AppendResp) {
    if req.prevIndex > LastIndex(l) then resp.conflictTerm == 0 && resp.conflictIndex == LastIndex(l) + 1
    else
      && l.snapIndex <= req.prevIndex && resp.conflictTerm == TermIn(l, req.prevIndex) != req.prevTerm
      && resp.conflictIndex == FirstIndexOfTerm(l, resp.conflictTerm, req.prevIndex)
  }

  lemma RejectionHints(s: Node, req: AppendReq)
    requires req.term >= s.term && !HandleAppendEntries(s, req).1.success
    ensures HintOf(s.log, req, HandleAppendEntries(s, req).1)
  {
    hide FirstIndexOfTerm, TermIn, Absorb, Save;
  }

  /** Terms start above 0 and never decrease along the log. */
  ghost predicate Climbs(log: seq<Entry>) {
    forall i, j :: 0 <= i <= j < |log| ==> 0 < log[i].term <= log[j].term
  }

  /** Where the leader resumes lies beyond every index `a` at which the
      receiver's log and its own agree and for which it still has the entry. */
  lemma ResumesBeyond(s: Node, mine: seq<Entry>, l: LogState, theirs: seq<Entry>, req: AppendReq, resp: AppendResp,
                      a: nat)
    requires Compacts(mine, s.log) && Compacts(theirs, l) && Climbs(mine) && Climbs(theirs) && Indexed(mine)
    requires req.prevIndex <= |mine| && req.prevTerm == TermAt(mine, req.prevIndex) && HintOf(l, req, resp)
    requires s.log.snapIndex < a <= |mine| && a <= |theirs| && Agree(mine, theirs, a)
    ensures BacktrackTo(s, resp) > a
  {
    hide FirstIndexOfTerm, LastIndexOfTerm;
    CompactsReads(mine, s.log);
    CompactsReads(theirs, l);
    var prev, t := req.prevIndex, resp.conflictTerm;
    if prev <= LastIndex(l) {
      assert a < prev;
      var idx := LastIndexOfTerm(s.log, t);
      assert t == TermAt(theirs, prev) && a - 1 <= prev - 1 && mine[a - 1] == theirs[a - 1];
      assert theirs[a - 1].term <= theirs[prev - 1].term;
      if idx != 0 {
        LastOfTerm(s.log, mine, t, a);
      } else {
        FirstOfTerm(s.log, mine, l, theirs, t, prev, a);
      }
    }
  }

  /** The last entry of a term that is no smaller than the one at `a`. */
  lemma LastOfTerm(l: LogState, full: seq<Entry>, t: nat, a: nat)
    requires Compacts(full, l) && Climbs(full) && Indexed(full) && l.snapIndex < a <= |full|
    requires 0 < full[a - 1].term <= t && LastIndexOfTerm(l, t) != 0
    ensures a <= LastIndexOfTerm(l, t) <= |full|
  {
    assert L.Ordered(l);
    L.LastIndexIsLast(l, t, |l.entries|);
    var idx := LastIndexOfTerm(l, t);
    CompactsReads(full, l);
    assert full[a - 1] == l.entries[a - 1 - l.snapIndex];
    assert idx <= |full| && full[idx - 1].term == t;
  }

  /** A term that the leader has no entry of starts after all they agree on. */
  lemma FirstOfTerm(l: LogState, full: seq<Entry>, r: LogState, theirs: seq<Entry>, t: nat, prev: nat, a: nat)
    requires Compacts(full, l) && Compacts(theirs, r) && Climbs(full) && Indexed(full) && l.snapIndex < a <= |full|
    requires a < prev <= |theirs| && r.snapIndex <= prev && Agree(full, theirs, a) && TermIn(r, prev) == t
    requires LastIndexOfTerm(l, t) == 0
    ensures FirstIndexOfTerm(r, t, prev) > a
  {
    FirstIndexStartsRun(r, t, prev);
    var f := FirstIndexOfTerm(r, t, prev);
    CompactsReads(theirs, r);
    assert L.Ordered(l);
    L.LastIndexIsLast(l, t, |l.entries|);
    assert full[a - 1] == l.entries[a - 1 - l.snapIndex] && full[a - 1].term == TermAt(theirs, a);
    assert f <= a ==> TermIn(r, a) == t;
  }

  lemma GoodClimbs(h: C.History, log: seq<Entry>)
    requires C.CampaignsOk(h.term, h.campaigns) && C.LeadersGrown(h.elections, h.leaderLog, h.campaigns)
    requires C.Good(h.leaderLog, log)
    ensures Climbs(log)
  {
    forall i, j | 0 <= i <= j < |log|
      ensures 0 < log[i].term <= log[j].term
    {
      C.LeaderTerms(h, log[i].term);
      C.TermsMonotone(h, log, i, j);
    }
  }

  /** The terms of the receiver's log and of the leader's, at their moments. */
  ghost predicate AgreeAt(l: LogState, r: LogState, a: nat) {
    l.snapIndex < a <= LastIndex(l) && Has(r, a) && a > 0 && TermIn(l, a) == TermIn(r, a)
  }

  /** A rejection never sets the next index back over an index at which the
      receiver, when it rejected, agreed with what the leader has: nothing the
      receiver holds of the leader's log is sent again, except what the leader
      has meanwhile compacted away. */
  lemma BacktracksNoFurther(run: seq<Group>, steps: seq<Step>, i: nat, j: nat, p: NodeId, n: NodeId, m: Msg, a: nat)
    requires TimelyRun(run, steps) && i < j < |steps| && steps[i] == AnswerAppend(p, m) && p in run[i].nodes
    requires m.AppendMsg? && m.append.term >= run[i].nodes[p].term
    requires var resp := HandleAppendEntries(run[i].nodes[p], m.append).1;
             && !resp.success && steps[j] == TakeAppendReply(n, AppendReply(p, m.append, m.sentAt, resp))
    requires Leads(run[j], n, m.append.term) && AgreeAt(run[j].nodes[n].log, run[i].nodes[p].log, a)
    ensures Leads(run[j + 1], n, m.append.term) && Get(run[j + 1].nodes[n].lead.nextIndex, p) > a
  {
    hide Init, Do, Timely, Inv, Later, Explains, HintOf, Climbs, C.Good, Indexed;
    var hs := RunExplained(run, steps);
    var s, l, req := run[j].nodes[n], run[i].nodes[p].log, m.append;
    var resp := HandleAppendEntries(run[i].nodes[p], req).1;
    RejectionHints(run[i].nodes[p], req);
    var mine, theirs := LogsThen(run, steps, hs, i, j, p, n, m, a);
    ResumesBeyond(s, mine, l, theirs, req, resp, a);
    RejectionTerm(run[i].nodes[p], req);
    RejectionTaken(run[j], n, steps[j].m);
  }

  lemma RejectionTerm(s: Node, req: AppendReq)
    requires req.term >= s.term
    ensures HandleAppendEntries(s, req).1.term == req.term
  {
    hide FirstIndexOfTerm, TermIn, Absorb, Save;
  }

  lemma RejectionTaken(s: Group, n: NodeId, m: Msg)
    requires Enabled(s, TakeAppendReply(n, m)) && Leads(s, n, m.append.term)
    requires m.appendResp.term <= m.append.term && !m.appendResp.success
    ensures var s' := Do(s, TakeAppendReply(n, m));
            Leads(s', n, m.append.term)
                && Get(s'.nodes[n].lead.nextIndex, m.from) == BacktrackTo(s.nodes[n], m.appendResp)
  {
    hide BacktrackTo;
    BacktrackSame(s.nodes[n], RecordAck(s.nodes[n], m.from, m.sentAt), m.appendResp);
  }

  lemma BacktrackSame(s: Node, s1: Node, resp: AppendResp)
    requires s1.log == s.log
    ensures BacktrackTo(s1, resp) == BacktrackTo(s, resp)
  {
  }

  /** The full logs behind a rejection and the leader that takes it. */
  lemma LogsThen(run: seq<Group>, steps: seq<Step>, hs: seq<C.History>, i: nat, j: nat, p: NodeId, n: NodeId, m: Msg,
                 a: nat)
      returns (mine: seq<Entry>, theirs: seq<Entry>)
    requires IsRun(run, steps) && Explains(hs, run) && i < j < |run| && p in run[i].nodes
    requires m in run[i].net && m.AppendMsg? && m.to == p
    requires Leads(run[j], n, m.append.term) && AgreeAt(run[j].nodes[n].log, run[i].nodes[p].log, a)
    ensures Compacts(mine, run[j].nodes[n].log) && Compacts(theirs, run[i].nodes[p].log)
    ensures Climbs(mine) && Climbs(theirs) && Indexed(mine) && a <= |mine| && a <= |theirs| && Agree(mine, theirs, a)
    ensures m.append.prevIndex <= |mine| && m.append.prevTerm == TermAt(mine, m.append.prevIndex)
  {
    hide Init, Do, Enabled, Inv, Linked, C.Inv, C.Good, Indexed, Climbs, Committed, NodeOk, C.CommitsOk, C.Complete,
         C.LeadersGrown, C.CampaignsOk, C.AcksOk, Later;
    var h, g := hs[j], run[j];
    InvParted(g, h);
    InvParted(run[i], hs[i]);
    LogRecorded(g, h, n);
    LogRecorded(run[i], hs[i], p);
    mine, theirs := h.logs[n], hs[i].logs[p];
    LeaderRecorded(g, h, n);
    C.CommitParts(h);
    C.LogParts(h);
    assert Later(hs[i], h);
    GoodLater(hs[i], h, theirs);
    GoodClimbs(h, mine);
    GoodClimbs(h, theirs);
    CompactsReads(mine, g.nodes[n].log);
    CompactsReads(theirs, run[i].nodes[p].log);
    C.LogMatching(h.leaderLog, mine, theirs, a);
    MsgAt(run[i], hs[i], m);
    RequestThen(hs[i], h, m.append, p);
  }

  lemma RequestThen(h: C.History, h': C.History, req: AppendReq, to: NodeId)
    requires AppendReqOk(h, to, req) && Later(h, h')
    ensures req.term in h'.leaderLog
    ensures req.prevIndex <= |h'.leaderLog[req.term]|
            && req.prevTerm == TermAt(h'.leaderLog[req.term], req.prevIndex)
  {
    hide Committed;
    assert Agree(h.leaderLog[req.term], h'.leaderLog[req.term], |h.leaderLog[req.term]|);
  }
}
