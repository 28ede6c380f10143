/** The receivers of AppendEntries and InstallSnapshot keep a node linked to
    the history: the full log becomes exactly the merge of what it was with
    the leader's prefix, nothing committed is dropped, and the reply tells the
    truth. */
module NodeFollower {
  import opened Types
  import opened Quorum
  import opened LogSpec
  import opened DiskSpec
  import opened CommitRule
  import opened Replica
  import opened Cluster
  import opened Link
  import opened Frames
  import opened Preserve
  import opened NodeLeader
  import C = Consensus

  /** Equal index and term imply equal prefixes. */
  ghost predicate Matching(a: seq<Entry>, b: seq<Entry>) {
    forall i :: 0 <= i < |a| && i < |b| && a[i].term == b[i].term ==> Agree(a, b, i + 1)
  }

  lemma MatchingLeader(h: C.History, n: NodeId, t: nat)
    requires C.LeaderLogsOk(h.leaderLog) && C.LogsOk(h.leaderLog, h.logs) && n in h.logs && t in h.leaderLog
    ensures Matching(h.logs[n], h.leaderLog[t])
  {
    var a, b := h.logs[n], h.leaderLog[t];
    forall i | 0 <= i < |a| && i < |b| && a[i].term == b[i].term
      ensures Agree(a, b, i + 1)
    {
      C.LogMatching(h.leaderLog, a, b, i + 1);
    }
  }

  // ------------------------------------------------------------------
  // Merging entries
  // ------------------------------------------------------------------

  /** `r` is how far the log already agrees with the leader's prefix `lead[..q]`. */
  ghost predicate Split(full: seq<Entry>, lead: seq<Entry>, p: nat, r: nat, q: nat) {
    && p <= r <= q <= |lead|
    && Agree(full, lead, r)
    && (r < q ==> r >= |full| || full[r].term != lead[r].term)
  }

  /** The loop over incoming entries stops at the first one not held. */
  lemma {:induction false} FreshFacts(full: seq<Entry>, l: LogState, lead: seq<Entry>, p: nat, q: nat) returns (r: nat)
    requires Compacts(full, l) && l.snapIndex <= p <= q <= |lead|
    requires Indexed(lead) && Matching(full, lead) && Agree(full, lead, p)
    ensures Split(full, lead, p, r, q) && Fresh(l, lead[p..q]) == lead[r..q]
    decreases q - p
  {
    r := p;
    if p < q {
      var es := lead[p..q];
      CompactsReads(full, l);
      assert es[0] == lead[p] && es[1..] == lead[p + 1..q];
      if Has(l, p + 1) && TermIn(l, p + 1) == lead[p].term {
        assert full[p].term == lead[p].term;
        r := FreshFacts(full, l, lead, p + 1, q);
      }
    }
  }

  /** Merging leaves the committed prefix alone. */
  lemma SplitCommitted(full: seq<Entry>, lead: seq<Entry>, p: nat, r: nat, q: nat, c: nat)
    requires Split(full, lead, p, r, q) && Agree(full, lead, c)
    ensures r < q ==> c <= r
    ensures Agree(full, C.Merge(full, lead[..q]), c)
    ensures C.Merge(full, lead[..q]) == if r < q then lead[..q] else full
  {
    if r == q {
      assert lead[..q] <= full;
    } else {
      assert lead[..q][r] == lead[r];
    }
  }

  ghost predicate Fits(w: Machine, full: seq<Entry>, s: Node) {
    && Compacts(full, s.log)
    && DiskOk(w, full, s)
  }

  lemma MergeFits(w: Machine, full: seq<Entry>, s: Node, lead: seq<Entry>, p: nat, q: nat)
    requires Fits(w, full, s) && s.log.snapIndex <= p <= q <= |lead|
    requires Indexed(lead) && Matching(full, lead) && Agree(full, lead, p) && Agree(full, lead, s.commitIndex)
    ensures Fits(w, C.Merge(full, lead[..q]), MergeEntries(s, lead[p..q]))
    ensures MergeEntries(s, lead[p..q]) == s.(log := MergeEntries(s, lead[p..q]).log,
              disk := MergeEntries(s, lead[p..q]).disk)
  {
    var r := FreshFacts(full, s.log, lead, p, q);
    SplitCommitted(full, lead, p, r, q, s.commitIndex);
    if r < q {
      MergeReplaces(w, full, s, lead, p, r, q);
    }
  }

  lemma MergeReplaces(w: Machine, full: seq<Entry>, s: Node, lead: seq<Entry>, p: nat, r: nat, q: nat)
    requires Fits(w, full, s) && s.log.snapIndex <= p <= r < q <= |lead|
    requires Indexed(lead) && Agree(full, lead, r) && s.commitIndex <= r
    requires Fresh(s.log, lead[p..q]) == lead[r..q]
    ensures Fits(w, lead[..q], MergeEntries(s, lead[p..q]))
  {
    hide Compacts, DiskOk, Agree, Fresh, MergeEntries, Save;
    var es := lead[r..q];
    assert es[0] == lead[r] && es[0].index == r + 1;
    MergeShape(s, lead[p..q], es);
    ReplaceLog(full, s.log, lead, r, q);
    ReplaceDisk(w, full, s, lead, r, q);
    MergedDisk(w, lead[..q], s, MergeEntries(s, lead[p..q]));
  }

  /** What is on disk does not depend on what is in memory. */
  lemma MergedDisk(w: Machine, full: seq<Entry>, s: Node, s': Node)
    requires DiskOk(w, full, s.(disk := s'.disk)) && s' == s.(log := s'.log, disk := s'.disk)
             && s'.log.snapIndex == s.log.snapIndex
    ensures DiskOk(w, full, s')
  {
  }

  lemma MergeShape(s: Node, es: seq<Entry>, news: seq<Entry>)
    requires Fresh(s.log, es) == news && |news| > 0
    ensures var l := if Has(s.log, news[0].index) then TruncateFrom(s.log, news[0].index) else s.log;
            MergeEntries(s, es) == s.(log := AppendTo(l, news), disk := Save(s.disk, None, news))
  {
  }

  lemma ReplaceLog(full: seq<Entry>, l: LogState, lead: seq<Entry>, r: nat, q: nat)
    requires Compacts(full, l) && l.snapIndex <= r < q <= |lead| && Agree(full, lead, r)
    ensures Compacts(lead[..q], AppendTo(if Has(l, r + 1) then TruncateFrom(l, r + 1) else l, lead[r..q]))
  {
    CompactsReads(full, l);
    var k := l.snapIndex;
    assert full[k..][..r - k] == lead[..q][k..r];
    assert lead[..q][k..] == lead[..q][k..r] + lead[r..q];
    if !Has(l, r + 1) {
      assert full[k..][..r - k] == full[k..];
    }
  }

  lemma ReplaceDisk(w: Machine, full: seq<Entry>, s: Node, lead: seq<Entry>, r: nat, q: nat)
    requires DiskOk(w, full, s) && s.commitIndex <= r < q <= |lead| && Indexed(lead) && Agree(full, lead, r)
    ensures DiskOk(w, lead[..q], s.(disk := Save(s.disk, None, lead[r..q])))
  {
    SaveEntries(s.disk, full, r, lead[r..q]);
    assert full[..r] + lead[r..q] == lead[..q];
    assert full[..s.commitIndex] == lead[..q][..s.commitIndex];
  }

  // ------------------------------------------------------------------
  // AppendEntries
  // ------------------------------------------------------------------

  /** What a follower in the leader's term may rely on. */
  ghost predicate Following(h: C.History, n: NodeId, s: Node, lead: seq<Entry>) {
    && n in h.logs
    && s.role == Follower
    && s.term in h.leaderLog
    && lead == h.leaderLog[s.term]
    && Indexed(lead)
    && Matching(h.logs[n], lead)
    && Agree(h.logs[n], lead, s.commitIndex)
  }

  lemma FollowingHere(h: C.History, n: NodeId, s: Node)
    requires C.LeaderLogsOk(h.leaderLog) && C.LogsOk(h.leaderLog, h.logs)
    requires C.Complete(h) && C.CommitsOk(h.peers, h.leaderLog, h.acks, h.commits)
    requires CoreOk(h, n, s) && s.role == Follower && s.term in h.leaderLog
    ensures Following(h, n, s, h.leaderLog[s.term])
  {
    MatchingLeader(h, n, s.term);
    CommittedInLeader(h, h.logs[n], s.commitIndex, s.term, s.term);
  }

  ghost function AppendHistory(h: C.History, n: NodeId, s: Node, req: AppendReq): C.History {
    if AppendSameTerm(s, req).1.success then C.Accept(h, n, req.prevIndex + |req.entries|) else h
  }

  /** The node after merging a prefix of its leader's log, before learning the
      leader's commit index. */
  lemma AcceptNode(h: C.History, w: Machine, now: nat, others: seq<NodeId>, n: NodeId, s: Node, s': Node,
                   lead: seq<Entry>, q: nat)
    requires NodeOk(h, w, now, others, n, s) && Following(h, n, s, lead) && q <= |lead|
    requires Fits(w, C.Merge(h.logs[n], lead[..q]), s')
             && Agree(h.logs[n], C.Merge(h.logs[n], lead[..q]), s.commitIndex)
    requires s' == s.(log := s'.log, disk := s'.disk) && s'.log.snapIndex == s.log.snapIndex
    ensures NodeOk(C.Accept(h, n, q), w, now, others, n, s')
  {
    var h' := C.Accept(h, n, q);
    var full, full' := h.logs[n], h'.logs[n];
    CommittedWeaken(h.leaderLog, h.commits, full, s.commitIndex, s.term, full', s.commitIndex, s.term);
    assert full[..s.commitIndex] == full'[..s.commitIndex];
  }

  lemma LearnNode(h: C.History, w: Machine, now: nat, others: seq<NodeId>, n: NodeId, s: Node, c: nat)
    requires NodeOk(h, w, now, others, n, s) && s.role == Follower
    requires Committed(h.leaderLog, h.commits, h.logs[n], c, s.term)
    ensures NodeOk(h, w, now, others, n, LearnCommit(s, c))
  {
    if c > s.commitIndex {
      AdvanceApplied(w, h.logs[n], s.appl, s.log.snapIndex, s.commitIndex, c);
      AdvanceDisk(w, h.logs[n], s, c);
    }
  }

  /** Everything sent lies inside the receiver's snapshot. */
  predicate AllCompacted(s: Node, req: AppendReq) {
    req.prevIndex < s.log.snapIndex && req.prevIndex + |req.entries| <= s.log.snapIndex
  }

  /** The three ways the receiver can end: refuse, already have it all, or
      merge from position `p` on and learn the leader's commit index. */
  ghost predicate AppendedAs(s: Node, req: AppendReq, lead: seq<Entry>, s': Node, ok: bool) {
    var q := req.prevIndex + |req.entries|;
    var p := Max(req.prevIndex, s.log.snapIndex);
    if !ok || AllCompacted(s, req) then s' == s && (AllCompacted(s, req) ==> ok)
    else p <= q <= |lead| && s' == Absorb(s, req, lead[p..q])
  }

  /** What the handler does in the sender's term, by outcome. */
  lemma AppendForm(s: Node, req: AppendReq)
    ensures var r := AppendSameTerm(s, req);
            && r.1.term == s.term
            && (AllCompacted(s, req) ==> r.0 == s && r.1.success)
            && (!AllCompacted(s, req) && !r.1.success ==> r.0 == s)
            && (!AllCompacted(s, req) && r.1.success ==>
                  Skip(s, req) <= |req.entries| && r.0 == Absorb(s, req, req.entries[Skip(s, req)..]))
  {
    hide Absorb, FirstIndexOfTerm, TermIn;
  }

  lemma AppendShape(s: Node, req: AppendReq, lead: seq<Entry>)
    requires req.prevIndex + |req.entries| <= |lead|
             && req.entries == lead[req.prevIndex..req.prevIndex + |req.entries|]
    ensures AppendedAs(s, req, lead, AppendSameTerm(s, req).0, AppendSameTerm(s, req).1.success)
    ensures AppendSameTerm(s, req).1.term == s.term
  {
    hide Absorb, AppendSameTerm;
    AppendForm(s, req);
    var q := req.prevIndex + |req.entries|;
    var p := Max(req.prevIndex, s.log.snapIndex);
    assert p <= q ==> req.entries[p - req.prevIndex..] == lead[p..q];
  }

  lemma AppendNode(h: C.History, w: Machine, now: nat, others: seq<NodeId>, n: NodeId, s: Node, req: AppendReq,
                   lead: seq<Entry>, s': Node, ok: bool)
    requires NodeOk(h, w, now, others, n, s) && s.term == req.term && AppendReqOk(h, n, req)
    requires Following(h, n, s, lead) && AppendedAs(s, req, lead, s', ok)
    requires ok && !AllCompacted(s, req) ==> Agree(h.logs[n], lead, Max(req.prevIndex, s.log.snapIndex))
    ensures NodeOk(if ok then C.Accept(h, n, req.prevIndex + |req.entries|) else h, w, now, others, n, s')
  {
    hide NodeOk, AppendReqOk, Following, Agree, C.Accept, MergeEntries;
    var q := req.prevIndex + |req.entries|;
    if AllCompacted(s, req) {
      CompactedNode(h, w, now, others, n, s, req, lead);
    } else if ok {
      AppendMerged(h, w, now, others, n, s, req, lead, Max(req.prevIndex, s.log.snapIndex), q);
    }
  }

  lemma CompactedNode(h: C.History, w: Machine, now: nat, others: seq<NodeId>, n: NodeId, s: Node, req: AppendReq,
                      lead: seq<Entry>)
    requires NodeOk(h, w, now, others, n, s) && s.term == req.term && AppendReqOk(h, n, req)
    requires Following(h, n, s, lead) && AllCompacted(s, req)
    ensures NodeOk(C.Accept(h, n, req.prevIndex + |req.entries|), w, now, others, n, s)
  {
    hide NodeOk, DiskOk, Committed, Compacts, Matching, WaitersOk, LeaderOk, CandidateOk, C.Accept;
    var q := req.prevIndex + |req.entries|;
    NodeKnown(h, w, now, others, n, s);
    assert lead[..q] <= h.logs[n];
    AcceptNode(h, w, now, others, n, s, s, lead, q);
  }

  /** The consistency check, or the snapshot, makes the logs agree up to the
      point where the new entries start. */
  lemma AppendAgrees(full: seq<Entry>, s: Node, req: AppendReq, lead: seq<Entry>, p: nat)
    requires Compacts(full, s.log) && s.log.snapIndex <= s.commitIndex && Matching(full, lead)
             && Agree(full, lead, s.commitIndex)
    requires req.prevIndex + |req.entries| <= |lead| && req.prevTerm == TermAt(lead, req.prevIndex)
    requires p == Max(req.prevIndex, s.log.snapIndex) && AppendSameTerm(s, req).1.success
    requires !AllCompacted(s, req)
    ensures Agree(full, lead, p)
  {
    CompactsReads(full, s.log);
    if p > 0 && req.prevIndex >= s.log.snapIndex {
      assert full[p - 1].term == lead[p - 1].term;
    }
  }

  lemma AppendMerged(h: C.History, w: Machine, now: nat, others: seq<NodeId>, n: NodeId, s: Node, req: AppendReq,
                     lead: seq<Entry>, p: nat, q: nat)
    requires NodeOk(h, w, now, others, n, s) && s.term == req.term && AppendReqOk(h, n, req)
    requires Following(h, n, s, lead) && q == req.prevIndex + |req.entries| <= |lead|
    requires p == Max(req.prevIndex, s.log.snapIndex) <= q && Agree(h.logs[n], lead, p)
    ensures var s1 := MergeEntries(s, lead[p..q]);
            NodeOk(C.Accept(h, n, q), w, now, others, n, LearnCommit(s1, Min(req.commit, q)))
  {
    hide NodeOk, DiskOk, Committed, Compacts, WaitersOk, LeaderOk, CandidateOk, MergeEntries, Matching, C.Merge;
    var full := h.logs[n];
    var s1 := MergeEntries(s, lead[p..q]);
    var h' := C.Accept(h, n, q);
    NodeKnown(h, w, now, others, n, s);
    MergeFits(w, full, s, lead, p, q);
    MergeSnapIndex(s, lead[p..q]);
    MergedAgrees(full, s, lead, p, q);
    AcceptNode(h, w, now, others, n, s, s1, lead, q);
    CommittedWeaken(h.leaderLog, h.commits, lead, req.commit, req.term, h'.logs[n], Min(req.commit, q), req.term);
    LearnNode(h', w, now, others, n, s1, Min(req.commit, q));
  }

  lemma MergedAgrees(full: seq<Entry>, s: Node, lead: seq<Entry>, p: nat, q: nat)
    requires Compacts(full, s.log) && s.log.snapIndex <= p <= q <= |lead|
    requires Indexed(lead) && Matching(full, lead) && Agree(full, lead, p) && Agree(full, lead, s.commitIndex)
    ensures Agree(full, C.Merge(full, lead[..q]), s.commitIndex)
    ensures Agree(lead, C.Merge(full, lead[..q]), q)
  {
    var r := FreshFacts(full, s.log, lead, p, q);
    SplitCommitted(full, lead, p, r, q, s.commitIndex);
  }

  lemma MergeSnapIndex(s: Node, es: seq<Entry>)
    ensures MergeEntries(s, es).log.snapIndex == s.log.snapIndex
  {
  }

  // ------------------------------------------------------------------
  // The reply to AppendEntries
  // ------------------------------------------------------------------

  lemma ConflictTrue(ll: Logs, full: seq<Entry>, s: Node, req: AppendReq)
    requires Compacts(full, s.log) && C.Good(ll, full) && req.term in ll
    requires req.prevIndex <= |ll[req.term]| && req.prevTerm == TermAt(ll[req.term], req.prevIndex)
    requires !AppendSameTerm(s, req).1.success
    ensures ConflictOk(ll, req, AppendSameTerm(s, req).1)
  {
    CompactsReads(full, s.log);
    if req.prevIndex <= |full| {
      var t := TermAt(full, req.prevIndex);
      assert req.prevIndex > 0;
      FirstIndexStartsRun(s.log, t, req.prevIndex);
      assert Agree(full, ll[t], req.prevIndex);
    }
  }

  /** A node in term `t` has not helped elect a later leader. */
  lemma StillInTerm(h: C.History, n: NodeId, t: nat, at: nat)
    requires C.GrantsOk(h.term, h.vote, h.grants) && C.ElectionsOk(h.peers, h.grants, h.elections)
    requires C.TermOf(h.term, n) == t
    ensures NotPastBy(h.elections, t, n, at)
  {
    forall u | u in h.elections && u > t && n in h.elections[u].voters
      ensures false
    {
      C.VotersInTerm(h, u, n);
    }
  }

  lemma AppendReplyTrue(h: C.History, n: NodeId, s: Node, req: AppendReq, sentAt: nat)
    requires C.GrantsOk(h.term, h.vote, h.grants) && C.ElectionsOk(h.peers, h.grants, h.elections)
             && C.LogsOk(h.leaderLog, h.logs)
    requires CoreOk(h, n, s) && s.term == req.term && AppendReqOk(h, n, req)
    ensures AppendReplyOk(AppendHistory(h, n, s, req), n, req, sentAt, AppendSameTerm(s, req).1)
  {
    StillInTerm(h, n, s.term, sentAt);
    if !AppendSameTerm(s, req).1.success {
      ConflictTrue(h.leaderLog, h.logs[n], s, req);
    }
  }

  // ------------------------------------------------------------------
  // InstallSnapshot
  // ------------------------------------------------------------------

  lemma PhaseEndBound(w: Machine, com: seq<Entry>, a: ApplierState, snapIndex: nat)
    requires ApplierOk(w, com, a, snapIndex)
    ensures PhaseEnd(a) <= |com|
  {
  }

  lemma InstallNode(h: C.History, w: Machine, now: nat, others: seq<NodeId>, n: NodeId, s: Node, req: SnapReq)
    requires NodeOk(h, w, now, others, n, s) && s.role == Follower && s.term == req.term && SnapReqOk(h, w, n, req)
    requires Following(h, n, s, h.leaderLog[req.term])
    ensures NodeOk(C.Accept(h, n, req.snap.index), w, now, others, n, InstallSameTerm(s, req.snap))
  {
    var lead := h.leaderLog[req.term];
    var full := h.logs[n];
    var q := req.snap.index;
    if q <= s.commitIndex {
      assert lead[..q] <= full;
      AcceptNode(h, w, now, others, n, s, s, lead, q);
    } else {
      InstallFits(w, full, s, lead, req.snap);
      InstallCore(h, w, n, s, lead, req);
      InstallApplier(w, full, s, lead, req.snap);
    }
  }

  /** Keeping the suffix is right exactly when the log already holds the
      snapshot's prefix. */
  lemma InstallMerge(full: seq<Entry>, s: Node, lead: seq<Entry>, snap: Snapshot)
    requires Compacts(full, s.log) && Matching(full, lead) && Agree(full, lead, s.commitIndex)
    requires s.log.snapIndex <= s.commitIndex < snap.index <= |lead| && snap.term == TermAt(lead, snap.index)
    ensures var keep := Has(s.log, snap.index) && TermIn(s.log, snap.index) == snap.term;
            && (keep <==> lead[..snap.index] <= full)
            && C.Merge(full, lead[..snap.index]) == (if keep then full else lead[..snap.index])
    ensures Agree(full, C.Merge(full, lead[..snap.index]), s.commitIndex)
    ensures Agree(lead, C.Merge(full, lead[..snap.index]), snap.index)
  {
    CompactsReads(full, s.log);
    var q := snap.index;
    if q <= |full| && full[q - 1].term == lead[q - 1].term {
      assert Agree(full, lead, q);
    }
    if lead[..q] <= full {
      assert full[q - 1] == lead[..q][q - 1];
      assert forall j :: 0 <= j < q ==> lead[..q][j] == full[j];
    }
  }

  lemma InstallFits(w: Machine, full: seq<Entry>, s: Node, lead: seq<Entry>, snap: Snapshot)
    requires Fits(w, full, s) && Matching(full, lead) && Agree(full, lead, s.commitIndex)
    requires s.commitIndex < snap.index <= |lead| && SnapOk(w, lead, snap)
    ensures Fits(w, C.Merge(full, lead[..snap.index]), InstallSameTerm(s, snap))
  {
    InstallMerge(full, s, lead, snap);
    if lead[..snap.index] <= full {
      CompactToCompacts(full, s.log, snap.index, snap.term);
    }
    InstallDisk(w, full, s, lead, snap);
  }

  lemma InstallDisk(w: Machine, full: seq<Entry>, s: Node, lead: seq<Entry>, snap: Snapshot)
    requires DiskOk(w, full, s) && s.commitIndex < snap.index <= |lead| && SnapOk(w, lead, snap)
    requires var keep := Has(s.log, snap.index) && TermIn(s.log, snap.index) == snap.term;
             var prefix := lead[..snap.index];
             (keep ==> prefix <= full) && C.Merge(full, prefix) == if keep then full else prefix
    ensures DiskOk(w, C.Merge(full, lead[..snap.index]), InstallSameTerm(s, snap))
  {
    var q := snap.index;
    var k := SnapIndex(s.disk);
    var full' := C.Merge(full, lead[..q]);
    assert full'[..q] == lead[..q];
    SnapOkAgree(w, lead, full'[..q], snap);
    if lead[..q] <= full {
      assert full[k..][q - k..] == full[q..];
    }
  }

  lemma InstallCore(h: C.History, w: Machine, n: NodeId, s: Node, lead: seq<Entry>, req: SnapReq)
    requires CoreOk(h, n, s) && s.term == req.term && SnapReqOk(h, w, n, req) && Following(h, n, s, lead)
    requires s.commitIndex < req.snap.index
    requires Compacts(C.Merge(h.logs[n], lead[..req.snap.index]), InstallSameTerm(s, req.snap).log)
    ensures CoreOk(C.Accept(h, n, req.snap.index), n, InstallSameTerm(s, req.snap))
  {
    var q := req.snap.index;
    var h' := C.Accept(h, n, q);
    InstallMerge(h.logs[n], s, lead, req.snap);
    CommittedWeaken(h.leaderLog, h.commits, lead, q, req.term, h'.logs[n], q, req.term);
  }

  lemma InstallApplier(w: Machine, full: seq<Entry>, s: Node, lead: seq<Entry>, snap: Snapshot)
    requires Compacts(full, s.log) && Matching(full, lead) && Agree(full, lead, s.commitIndex)
    requires s.log.snapIndex <= s.commitIndex < snap.index <= |lead| && SnapOk(w, lead, snap)
    requires ApplierOk(w, full[..s.commitIndex], s.appl, s.log.snapIndex)
    ensures ApplierOk(w, C.Merge(full, lead[..snap.index])[..snap.index], s.appl.(pending := Some(snap)), snap.index)
  {
    InstallMerge(full, s, lead, snap);
    var com, com' := full[..s.commitIndex], C.Merge(full, lead[..snap.index])[..snap.index];
    assert Agree(com, com', |com|);
    ApplierGrows(w, com, com', s.appl, s.log.snapIndex);
    PhaseEndBound(w, com, s.appl, s.log.snapIndex);
    SnapOkAgree(w, lead, com', snap);
    PendingSet(w, com', s.appl, s.log.snapIndex, snap);
  }

  lemma PendingSet(w: Machine, com: seq<Entry>, a: ApplierState, snapIndex: nat, snap: Snapshot)
    requires ApplierOk(w, com, a, snapIndex) && SnapOk(w, com, snap) && PhaseEnd(a) <= snap.index
    ensures ApplierOk(w, com, a.(pending := Some(snap)), snap.index)
  {
  }
}
