/** How a group's replicas and messages relate to a consensus history. */
module Link {
  import opened Types
  import opened Quorum
  import opened LogSpec
  import opened DiskSpec
  import opened CommitRule
  import opened Replica
  import opened Cluster
  import C = Consensus

  type Logs = C.LeaderLogs

  /** The first `k` entries of `log` were committed by a leader of term at most `t`. */
  ghost predicate Committed(ll: Logs, commits: set<C.Commit>, log: seq<Entry>, k: nat, t: nat) {
    && k <= |log|
    && (k > 0 ==> exists c :: c in commits && c.term <= t && k <= c.len && c.term in ll && Agree(log, ll[c.term], k))
  }

  /** A snapshot is the replay of a committed prefix. */
  ghost predicate SnapOk(w: Machine, com: seq<Entry>, snap: Snapshot) {
    && snap.index <= |com|
    && snap.term == TermAt(com, snap.index)
    && snap.data == Replay(w, com[..snap.index])
  }

  // ------------------------------------------------------------------
  // Replicas
  // ------------------------------------------------------------------

  /** Term, vote and compacted log agree with the history. */
  ghost predicate CoreOk(h: C.History, n: NodeId, s: Node) {
    && n in h.term && n in h.vote && n in h.logs
    && s.term == h.term[n]
    && s.votedFor == h.vote[n]
    && Compacts(h.logs[n], s.log)
    && s.log.snapIndex <= s.commitIndex
    && Committed(h.leaderLog, h.commits, h.logs[n], s.commitIndex, s.term)
  }

  ghost predicate CandidateOk(h: C.History, n: NodeId, s: Node) {
    && n in h.logs
    && (n, s.term) in h.campaigns
    && h.campaigns[(n, s.term)] == h.logs[n]
    && C.Grant(n, s.term, n) in h.grants
    && (s.term in h.elections ==> h.elections[s.term].leader != n)
  }

  /** An acknowledgement of an RPC sent at `at` shows that the peer had not
      yet helped elect a later leader, unless it only is the election's grace. */
  ghost predicate AckTimeOk(elections: map<nat, C.Election>, t: nat, p: NodeId, at: nat) {
    || (t in elections && at <= elections[t].at)
    || NotPastBy(elections, t, p, at)
  }

  ghost predicate NotPastBy(elections: map<nat, C.Election>, t: nat, p: NodeId, at: nat) {
    forall u :: u in elections && u > t && elections[u].at < at ==> p !in elections[u].voters
  }

  ghost predicate PeerOk(h: C.History, now: nat, s: Node, last: nat, p: NodeId) {
    && p in s.lead.nextIndex && p in s.lead.matchIndex && p in s.lead.ackedAt
    && s.lead.matchIndex[p] <= C.Acked(h.acks, p, s.term)
    && 1 <= s.lead.nextIndex[p] <= last + 1
    && s.lead.ackedAt[p] < now
    && AckTimeOk(h.elections, s.term, p, s.lead.ackedAt[p])
  }

  ghost predicate LeaderOk(h: C.History, now: nat, others: seq<NodeId>, n: NodeId, s: Node) {
    && n in h.logs
    && s.term in h.elections
    && h.elections[s.term].leader == n
    && s.term in h.leaderLog
    && h.leaderLog[s.term] == h.logs[n]
    && (n, s.term) in h.campaigns
    && s.lead.noopIndex == |h.campaigns[(n, s.term)]| + 1 <= |h.logs[n]|
    && C.Acked(h.acks, n, s.term) == |h.logs[n]|
    && (forall p :: p in s.lead.matchIndex ==> p in others)
    && (forall p :: p in others ==> PeerOk(h, now, s, |h.logs[n]|, p))
    && (forall c :: c in h.commits && c.term == s.term ==> c.len <= s.commitIndex)
  }

  ghost predicate WaiterOk(full: seq<Entry>, term: nat, i: nat, p: Proposal) {
    && p.term == term
    && 0 < i <= |full|
    && full[i - 1] == Entry(i, p.term, Normal(p.cmd))
  }

  ghost predicate WaitersOk(full: seq<Entry>, s: Node) {
    && (s.role != Leader ==> s.waiters == map[])
    && forall i :: i in s.waiters ==> WaiterOk(full, s.term, i, s.waiters[i])
  }

  ghost predicate DiskOk(w: Machine, full: seq<Entry>, s: Node) {
    && (s.disk.hs.Some? ==> s.disk.hs.value == HardState(s.term, s.votedFor))
    && (s.disk.hs.None? ==> s.term == 0 && s.votedFor == NO_NODE)
    && s.log.snapIndex <= SnapIndex(s.disk) <= s.commitIndex <= |full|
    && s.disk.entries == full[SnapIndex(s.disk)..]
    && (s.disk.snap.Some? ==> SnapOk(w, full[..s.commitIndex], s.disk.snap.value))
    && (s.appl.phase.Saved? ==> s.appl.phase.index <= SnapIndex(s.disk))
  }

  /** The index the applier's current work ends at. */
  function PhaseEnd(a: ApplierState): nat {
    match a.phase
    case Restoring(snap) => snap.index
    case Restored(i) => i
    case Applying(es, _) => a.lastApplied + |es|
    case _ => a.lastApplied
  }

  function PendingIndex(a: ApplierState): nat {
    if a.pending.Some? then a.pending.value.index else 0
  }

  /** The state machine is the replay of a committed prefix, whatever the
      applier is in the middle of. */
  ghost predicate PhaseOk(w: Machine, com: seq<Entry>, a: ApplierState) {
    && a.lastApplied <= |com|
    && match a.phase
       case Idle => a.sm == Replay(w, com[..a.lastApplied])
       case Restoring(snap) => SnapOk(w, com, snap) && a.lastApplied <= snap.index
           && a.sm == Replay(w, com[..a.lastApplied])
       case Restored(i) => a.lastApplied <= i <= |com| && a.sm == Replay(w, com[..i])
       case Applying(es, rs) =>
         && |rs| <= |es|
         && 0 < |es|
         && a.lastApplied + |es| <= |com|
         && es == com[a.lastApplied..a.lastApplied + |es|]
         && a.sm == Replay(w, com[..a.lastApplied + |rs|])
         && forall j :: 0 <= j < |rs| ==> rs[j] == EntryResult(w, Replay(w, com[..a.lastApplied + j]), es[j])
       case SnapshotDue(i) => i == a.lastApplied && a.sm == Replay(w, com[..i])
       case Saving(snap) => snap.index == a.lastApplied && SnapOk(w, com, snap) && a.sm == Replay(w, com[..snap.index])
       case Saved(i, t) => i == a.lastApplied && t == TermAt(com, i) && a.sm == Replay(w, com[..i])
  }

  ghost predicate ApplierOk(w: Machine, com: seq<Entry>, a: ApplierState, snapIndex: nat) {
    && PhaseOk(w, com, a)
    && (a.pending.Some? ==> SnapOk(w, com, a.pending.value) && PhaseEnd(a) <= a.pending.value.index)
    && snapIndex <= Max(PhaseEnd(a), PendingIndex(a))
  }

  ghost predicate NodeOk(h: C.History, w: Machine, now: nat, others: seq<NodeId>, n: NodeId, s: Node) {
    && CoreOk(h, n, s)
    && (s.role == Candidate ==> CandidateOk(h, n, s))
    && (s.role == Leader ==> LeaderOk(h, now, others, n, s))
    && WaitersOk(h.logs[n], s)
    && DiskOk(w, h.logs[n], s)
    && ApplierOk(w, h.logs[n][..s.commitIndex], s.appl, s.log.snapIndex)
  }

  /** The parts of what is known about a replica, by name. */
  lemma NodeKnown(h: C.History, w: Machine, now: nat, others: seq<NodeId>, n: NodeId, s: Node)
    requires NodeOk(h, w, now, others, n, s)
    ensures n in h.term && n in h.vote && n in h.logs && s.term == h.term[n] && CoreOk(h, n, s)
    ensures s.role == Leader ==> LeaderOk(h, now, others, n, s)
    ensures s.role == Candidate ==> CandidateOk(h, n, s)
    ensures DiskOk(w, h.logs[n], s) && WaitersOk(h.logs[n], s)
  {
  }

  // ------------------------------------------------------------------
  // Messages
  // ------------------------------------------------------------------

  ghost predicate AppendReqOk(h: C.History, to: NodeId, req: AppendReq) {
    && req.term in h.leaderLog
    && req.term in h.elections
    && h.elections[req.term].leader == req.leader
    && to != req.leader
    && to in h.peers
    && req.prevIndex + |req.entries| <= |h.leaderLog[req.term]|
    && req.entries == h.leaderLog[req.term][req.prevIndex..req.prevIndex + |req.entries|]
    && req.prevTerm == TermAt(h.leaderLog[req.term], req.prevIndex)
    && Committed(h.leaderLog, h.commits, h.leaderLog[req.term], req.commit, req.term)
  }

  ghost predicate SnapReqOk(h: C.History, w: Machine, to: NodeId, req: SnapReq) {
    && req.term in h.leaderLog
    && req.term in h.elections
    && h.elections[req.term].leader == req.leader
    && to != req.leader
    && to in h.peers
    && Committed(h.leaderLog, h.commits, h.leaderLog[req.term], req.snap.index, req.term)
    && SnapOk(w, h.leaderLog[req.term], req.snap)
  }

  /** A decision to send a snapshot was made by the leader of its term. */
  ghost predicate IntentOk(h: C.History, it: Intent) {
    && it.term in h.leaderLog
    && it.term in h.elections
    && h.elections[it.term].leader == it.node
    && it.peer != it.node
    && it.peer in h.peers
  }

  /** A snapshot sent under a leader's term is one of a committed prefix, but
      perhaps committed only by a later leader. */
  ghost predicate SnapSentOk(h: C.History, w: Machine, to: NodeId, req: SnapReq) {
    && IntentOk(h, Intent(req.leader, to, req.term))
    && exists u :: u in h.leaderLog && CommittedSnap(h.leaderLog, h.commits, w, u, req.snap)
  }

  ghost predicate CommittedSnap(ll: Logs, commits: set<C.Commit>, w: Machine, u: nat, snap: Snapshot)
    requires u in ll
  {
    Committed(ll, commits, ll[u], snap.index, u) && SnapOk(w, ll[u], snap)
  }

  /** What a rejection tells the leader: the follower's log has term
      `conflictTerm` where the leader's has another, or ends before. */
  ghost predicate ConflictOk(ll: Logs, req: AppendReq, resp: AppendResp) {
    && 1 <= resp.conflictIndex <= req.prevIndex
    && (resp.conflictTerm != 0 ==>
          && resp.conflictTerm != req.prevTerm
          && resp.conflictTerm in ll
          && req.prevIndex <= |ll[resp.conflictTerm]|
          && TermAt(ll[resp.conflictTerm], req.prevIndex) == resp.conflictTerm)
  }

  ghost predicate AppendReplyOk(h: C.History, from: NodeId, req: AppendReq, sentAt: nat, resp: AppendResp) {
    && from in h.peers
    && resp.term >= req.term
    && (resp.success ==> resp.term == req.term && C.Acked(h.acks, from, req.term) >= req.prevIndex + |req.entries|)
    && (resp.term == req.term ==> NotPastBy(h.elections, req.term, from, sentAt))
    && (resp.term == req.term && !resp.success ==> ConflictOk(h.leaderLog, req, resp))
  }

  ghost predicate SnapReplyOk(h: C.History, from: NodeId, req: SnapReq, sentAt: nat, respTerm: nat) {
    && from in h.peers
    && respTerm >= req.term
    && (respTerm == req.term ==>
      C.Acked(h.acks, from, req.term) >= req.snap.index && NotPastBy(h.elections, req.term, from, sentAt))
  }

  ghost predicate MsgOk(h: C.History, w: Machine, m: Msg) {
    match m
    case VoteMsg(req) =>
      && (req.cand, req.term) in h.campaigns
      && req.lastIndex == |h.campaigns[(req.cand, req.term)]|
      && req.lastTerm == LastTerm(h.campaigns[(req.cand, req.term)])
    case VoteReply(v, req, resp) => resp.granted ==> C.Grant(v, req.term, req.cand) in h.grants
    case AppendMsg(to, req, _) => AppendReqOk(h, to, req)
    case AppendReply(from, req, sentAt, resp) => AppendReqOk(h, from, req) && AppendReplyOk(h, from, req, sentAt, resp)
    case SnapMsg(to, req, _) => SnapSentOk(h, w, to, req)
    case SnapReply(from, req, sentAt, t) => SnapSentOk(h, w, from, req) && SnapReplyOk(h, from, req, sentAt, t)
    case _ => true
  }

  ghost predicate PreparedOk(h: C.History, w: Machine, p: Prepared) {
    match p
    case PreparedAppend(to, req) => AppendReqOk(h, to, req)
    case PreparedSnap(to, req) => SnapSentOk(h, w, to, req)
  }

  function SentAt(m: Msg): nat {
    if m.AppendMsg? || m.AppendReply? || m.SnapMsg? || m.SnapReply? then m.sentAt else 0
  }

  // ------------------------------------------------------------------
  // Answers and reads
  // ------------------------------------------------------------------

  /** A result is only returned for the committed entry at its index that
      carries the proposed command, and is what applying it gave. */
  ghost predicate AnswerOk(h: C.History, w: Machine, a: Answer) {
    a.outcome.Applied? ==>
      exists c :: c in h.commits && c.term in h.leaderLog && 0 < a.index <= c.len && c.len <= |h.leaderLog[c.term]|
                  && h.leaderLog[c.term][a.index - 1].payload == Normal(a.cmd)
                  && a.outcome.result == EntryResult(w, Replay(w, h.leaderLog[c.term][..a.index - 1]),
                    h.leaderLog[c.term][a.index - 1])
  }

  /** Everything committed before the read began is at or below its index. */
  ghost predicate Covers(commits: set<C.Commit>, rd: Read) {
    forall c :: c in commits && c.at < rd.start ==> c.len <= rd.index
  }

  ghost predicate ReadOk(h: C.History, rd: Read) {
    && rd.term in h.elections
    && h.elections[rd.term].at < rd.start
    && (Covers(h.commits, rd) || exists u :: u in h.elections && u > rd.term && h.elections[u].at < rd.start)
  }

  ghost predicate ClockOk(h: C.History, now: nat) {
    && (forall t :: t in h.elections ==> h.elections[t].at < now)
    && (forall c :: c in h.commits ==> c.at < now)
  }

  // ------------------------------------------------------------------
  // The invariant
  // ------------------------------------------------------------------

  ghost predicate Fixed(s: Group, h: C.History) {
    && Distinct(s.peers)
    && |s.peers| > 0
    && h.peers == PeerSet(s.peers)
    && s.nodes.Keys == h.peers
    && ClockOk(h, s.now)
  }

  ghost predicate NodesOk(s: Group, h: C.History) {
    forall n :: n in s.nodes ==> NodeOk(h, s.machine, s.now, Others(s.peers, n), n, s.nodes[n])
  }

  ghost predicate MsgsOk(s: Group, h: C.History) {
    && (forall m :: m in s.net ==> MsgOk(h, s.machine, m) && SentAt(m) < s.now)
    && (forall p :: p in s.prepared ==> PreparedOk(h, s.machine, p))
    && (forall it :: it in s.intents ==> IntentOk(h, it))
  }

  ghost predicate ClientsOk(s: Group, h: C.History) {
    && (forall a :: a in s.answered ==> AnswerOk(h, s.machine, a))
    && (forall rd :: rd in s.begun ==> ReadOk(h, rd) && rd.start < s.now)
    && (forall rd :: rd in s.confirmed ==> rd in s.begun && Covers(h.commits, rd))
  }

  ghost predicate Linked(s: Group, h: C.History) {
    && Fixed(s, h)
    && NodesOk(s, h)
    && MsgsOk(s, h)
    && ClientsOk(s, h)
  }

  ghost predicate Inv(s: Group, h: C.History) {
    C.Inv(h) && Linked(s, h)
  }
}
