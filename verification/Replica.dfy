/** One replica as a value, and what each critical section of the source does
    to it. Every function is total: where the source would panic the function
    returns some value, and the cluster theorems show the case never arises.
    Effects leave a replica as messages (built by the cluster model) and as
    answers to proposals. */
module Replica {
  import opened Types
  import opened LogSpec
  import opened DiskSpec
  import opened CommitRule

  datatype Role = Follower | Candidate | Leader

  /** A proposal waiting for its log index to be applied. */
  datatype Proposal = Proposal(pid: nat, term: nat, cmd: Command)

  datatype Outcome = Applied(result: Option<Result>) | Failed

  /** What is sent on a proposal's channel; index 0 if it was never appended. */
  datatype Answer = Answer(pid: nat, index: nat, cmd: Command, outcome: Outcome)

  /** Where the applier goroutine stands between two critical sections. */
  datatype Phase =
    | Idle
    | Restoring(snap: Snapshot)
    | Restored(index: nat)
    | Applying(entries: seq<Entry>, results: seq<Option<Result>>)
    | SnapshotDue(index: nat)
    | Saving(snap: Snapshot)
    | Saved(index: nat, term: nat)

  datatype LeaderState = LeaderState(
    nextIndex: PeerMap,
    matchIndex: PeerMap,
    ackedAt: PeerMap,
    noopIndex: nat,
    transferTarget: NodeId)

  datatype ApplierState = ApplierState(
    lastApplied: nat,
    pending: Option<Snapshot>,
    phase: Phase,
    sm: KvState)

  datatype Node = Node(
    term: nat,
    votedFor: NodeId,
    role: Role,
    leaderId: NodeId,
    log: LogState,
    commitIndex: nat,
    lead: LeaderState,
    waiters: map<nat, Proposal>,
    appl: ApplierState,
    disk: Disk)

  datatype Config = Config(
    id: NodeId,
    others: seq<NodeId>,
    machine: Machine,
    maxAppendEntries: nat,
    snapshotThreshold: nat)

  function QuorumSize(cfg: Config): nat {
    (|cfg.others| + 1) / 2 + 1
  }

  datatype VoteReq = VoteReq(term: nat, cand: NodeId, lastIndex: nat, lastTerm: nat)

  datatype VoteResp = VoteResp(term: nat, granted: bool)

  datatype AppendReq = AppendReq(
    term: nat,
    leader: NodeId,
    prevIndex: nat,
    prevTerm: nat,
    entries: seq<Entry>,
    commit: nat)

  datatype AppendResp = AppendResp(term: nat, success: bool, conflictIndex: nat, conflictTerm: nat)

  datatype SnapReq = SnapReq(term: nat, leader: NodeId, snap: Snapshot)

  const NO_LEAD: LeaderState := LeaderState(map[], map[], map[], 0, NO_NODE)

  // ------------------------------------------------------------------
  // Start and role transitions
  // ------------------------------------------------------------------

  /** `New`: everything volatile is rebuilt from stable storage. */
  function Boot(m: Machine, d: Disk): Node {
    Node(
      if d.hs.Some? then d.hs.value.term else 0,
      if d.hs.Some? then d.hs.value.votedFor else NO_NODE,
      Follower, NO_NODE,
      LogState(SnapIndex(d), SnapTerm(d), d.entries),
      SnapIndex(d),
      NO_LEAD, map[],
      ApplierState(SnapIndex(d), None, Idle, if d.snap.Some? then d.snap.value.data else m.init),
      d)
  }

  function Persist(s: Node, hardState: bool, es: seq<Entry>): Node {
    s.(disk := Save(s.disk, if hardState then Some(HardState(s.term, s.votedFor)) else None, es))
  }

  /** Appends to the log and makes the entries durable. */
  function GrowLog(s: Node, es: seq<Entry>): Node {
    Persist(s.(log := AppendTo(s.log, es)), false, es)
  }

  function FailAll(waiters: map<nat, Proposal>): set<Answer> {
    set i | i in waiters :: Answer(waiters[i].pid, i, waiters[i].cmd, Failed)
  }

  /** Follower in the given term; a leader that steps down fails its waiters. */
  function BecomeFollower(s: Node, term: nat, leader: NodeId): (Node, set<Answer>) {
    var s1 := if term > s.term then Persist(s.(term := term, votedFor := NO_NODE), true, []) else s;
    var s2 := s1.(role := Follower, leaderId := leader);
    if s.role == Leader then
      (s2.(lead := s2.lead.(transferTarget := NO_NODE), waiters := map[]), FailAll(s.waiters))
    else (s2, {})
  }

  /** What a new leader assumes of its peers, its log ending at `last`. */
  function NewLead(cfg: Config, last: nat, now: nat): LeaderState {
    LeaderState(Everywhere<nat>(cfg.others, last + 1), Everywhere<nat>(cfg.others, 0),
                Everywhere<nat>(cfg.others, now), last + 1, NO_NODE)
  }

  function BecomeLeader(cfg: Config, s: Node, now: nat): Node {
    var last := LastIndex(s.log);
    var noop := Entry(last + 1, s.term, Noop);
    var s1 := s.(role := Leader, leaderId := cfg.id,
                 lead := NewLead(cfg, last, now));
    AdvanceCommit(cfg, GrowLog(s1, [noop]))
  }

  predicate HasQuorumAckSince(cfg: Config, s: Node, t: nat) {
    1 + CountAtLeast(Values(cfg.others, s.lead.ackedAt), t) >= QuorumSize(cfg)
  }

  // ------------------------------------------------------------------
  // Elections
  // ------------------------------------------------------------------

  predicate LogUpToDate(s: Node, lastIndex: nat, lastTerm: nat) {
    if lastTerm != LastTermIn(s.log) then lastTerm > LastTermIn(s.log) else lastIndex >= LastIndex(s.log)
  }

  function StartElection(cfg: Config, s: Node): (Node, VoteReq) {
    var s1 := Persist(s.(term := s.term + 1, votedFor := cfg.id, role := Candidate, leaderId := NO_NODE), true, []);
    (s1, VoteReq(s1.term, cfg.id, LastIndex(s1.log), LastTermIn(s1.log)))
  }

  function HandleRequestVote(s: Node, req: VoteReq): (Node, VoteResp, set<Answer>) {
    if req.term < s.term then (s, VoteResp(s.term, false), {})
    else
      var (s1, ans) := if req.term > s.term then BecomeFollower(s, req.term, NO_NODE) else (s, {});
      if (s1.votedFor == NO_NODE || s1.votedFor == req.cand) && LogUpToDate(s1, req.lastIndex, req.lastTerm) then
        (Persist(s1.(votedFor := req.cand), true, []), VoteResp(s1.term, true), ans)
      else (s1, VoteResp(s1.term, false), ans)
  }

  /** `recent`: a leader was heard from within the minimum election timeout. */
  function HandlePreVote(s: Node, req: VoteReq, recent: bool): VoteResp {
    if req.term <= s.term || s.role == Leader || recent then VoteResp(s.term, false)
    else VoteResp(s.term, LogUpToDate(s, req.lastIndex, req.lastTerm))
  }

  // ------------------------------------------------------------------
  // Replication, leader side
  // ------------------------------------------------------------------

  /** The values whose median is the commit candidate. */
  function Matches(cfg: Config, s: Node): seq<nat> {
    [LastIndex(s.log)] + Values(cfg.others, s.lead.matchIndex)
  }

  function CommitCandidate(cfg: Config, s: Node): nat {
    QuorumIndex(Matches(cfg, s), QuorumSize(cfg))
  }

  function AdvanceCommit(cfg: Config, s: Node): Node {
    var c := CommitCandidate(cfg, s);
    if c <= s.commitIndex || TermIn(s.log, c) != s.term then s else s.(commitIndex := c)
  }

  /** The request `replicateOnce` builds when the peer's next entry is in memory. */
  function PrepareAppend(cfg: Config, s: Node, peer: NodeId): AppendReq {
    var next := Max(1, Get(s.lead.nextIndex, peer));
    var last := Min(LastIndex(s.log), next - 1 + cfg.maxAppendEntries);
    AppendReq(s.term, cfg.id, next - 1, TermIn(s.log, next - 1), Slice(s.log, next, last), s.commitIndex)
  }

  function RecordAck(s: Node, peer: NodeId, sentAt: nat): Node {
    s.(lead := s.lead.(ackedAt := s.lead.ackedAt[peer := Max(Get(s.lead.ackedAt, peer), sentAt)]))
  }

  /** Where to resume after a rejection. */
  function BacktrackTo(s: Node, resp: AppendResp): nat {
    var idx := LastIndexOfTerm(s.log, resp.conflictTerm);
    var next := if resp.conflictTerm != 0 && idx != 0 then idx + 1 else resp.conflictIndex;
    Max(1, Min(next, LastIndex(s.log) + 1))
  }

  function OnAppendReply(cfg: Config, s: Node, peer: NodeId, req: AppendReq, sentAt: nat, resp: AppendResp)
    : (Node, set<Answer>)
  {
    if resp.term > s.term then BecomeFollower(s, resp.term, NO_NODE)
    else if s.role != Leader || s.term != req.term then (s, {})
    else
      var s1 := RecordAck(s, peer, sentAt);
      if resp.success then
        var m := req.prevIndex + |req.entries|;
        if m > Get(s1.lead.matchIndex, peer) then
          (AdvanceCommit(cfg, s1.(lead := s1.lead.(matchIndex := s1.lead.matchIndex[peer := m],
                                                   nextIndex := s1.lead.nextIndex[peer := m + 1]))), {})
        else (s1, {})
      else
        (s1.(lead := s1.lead.(nextIndex := s1.lead.nextIndex[peer := BacktrackTo(s1, resp)])), {})
  }

  function OnSnapshotReply(cfg: Config, s: Node, peer: NodeId, req: SnapReq, sentAt: nat, respTerm: nat)
    : (Node, set<Answer>)
  {
    if respTerm > s.term then BecomeFollower(s, respTerm, NO_NODE)
    else if s.role != Leader || s.term != req.term then (s, {})
    else
      var s1 := RecordAck(s, peer, sentAt);
      var s2 := if req.snap.index > Get(s1.lead.matchIndex, peer)
                then AdvanceCommit(cfg, s1.(lead := s1.lead.(matchIndex := s1.lead.matchIndex[peer := req.snap.index])))
                else s1;
      (s2.(lead := s2.lead.(nextIndex := s2.lead.nextIndex[peer := Get(s2.lead.matchIndex, peer) + 1])), {})
  }

  // ------------------------------------------------------------------
  // Replication, follower side
  // ------------------------------------------------------------------

  /** Adopts the sender's term and leadership if either is news. */
  function Follow(s: Node, term: nat, leader: NodeId): (Node, set<Answer>) {
    if term > s.term || s.role != Follower || s.leaderId != leader then BecomeFollower(s, term, leader) else (s, {})
  }

  /** The first entries that the log does not already hold, to the end. */
  function Fresh(l: LogState, es: seq<Entry>): seq<Entry> {
    if |es| == 0 then []
    else if Has(l, es[0].index) && TermIn(l, es[0].index) == es[0].term then Fresh(l, es[1..])
    else es
  }

  /** Appends the fresh entries, truncating only on a real conflict. */
  function MergeEntries(s: Node, es: seq<Entry>): Node {
    var news := Fresh(s.log, es);
    if |news| == 0 then s
    else
      var l := if Has(s.log, news[0].index) then TruncateFrom(s.log, news[0].index) else s.log;
      Persist(s.(log := AppendTo(l, news)), false, news)
  }

  function LearnCommit(s: Node, c: nat): Node {
    if c > s.commitIndex then s.(commitIndex := c) else s
  }

  /** How many of the sent entries lie inside the receiver's snapshot. */
  function Skip(s: Node, req: AppendReq): nat {
    if req.prevIndex < s.log.snapIndex then s.log.snapIndex - req.prevIndex else 0
  }

  /** Merges the entries beyond the snapshot and learns the leader's commit
      index, but only as far as the request verified the log. */
  function Absorb(s: Node, req: AppendReq, es: seq<Entry>): Node {
    LearnCommit(MergeEntries(s, es), Min(req.commit, req.prevIndex + |req.entries|))
  }

  /** The receiver of AppendEntries, once it follows the sender's term. */
  function AppendSameTerm(s: Node, req: AppendReq): (Node, AppendResp) {
    var skip := Skip(s, req);
    if skip > 0 && skip >= |req.entries| then (s, AppendResp(s.term, true, 0, 0))
    else
      var prev := req.prevIndex + skip;
      if prev > LastIndex(s.log) then (s, AppendResp(s.term, false, LastIndex(s.log) + 1, 0))
      else if skip == 0 && TermIn(s.log, prev) != req.prevTerm then
        var t := TermIn(s.log, prev);
        (s, AppendResp(s.term, false, FirstIndexOfTerm(s.log, t, prev), t))
      else
        (Absorb(s, req, req.entries[skip..]), AppendResp(s.term, true, 0, 0))
  }

  /** The entries the receiver writes: from where the loop over them stops. */
  function ToWrite(s: Node, req: AppendReq): seq<Entry> {
    var skip := Skip(s, req);
    if AppendSameTerm(s, req).1.success && skip < |req.entries| then Fresh(s.log, req.entries[skip..]) else []
  }

  function HandleAppendEntries(s: Node, req: AppendReq): (Node, AppendResp, set<Answer>) {
    if req.term < s.term then (s, AppendResp(s.term, false, 0, 0), {})
    else
      var (s1, ans) := Follow(s, req.term, req.leader);
      var (s2, resp) := AppendSameTerm(s1, req);
      (s2, resp, ans)
  }

  /** Nothing is gained from a snapshot of what is already committed. */
  function InstallSameTerm(s: Node, snap: Snapshot): Node {
    if snap.index <= s.commitIndex then s
    else
      var keep := Has(s.log, snap.index) && TermIn(s.log, snap.index) == snap.term;
      s.(disk := SaveSnapshot(s.disk, snap, !keep),
         log := if keep then CompactTo(s.log, snap.index, snap.term) else Reset(snap.index, snap.term),
         commitIndex := snap.index,
         appl := s.appl.(pending := Some(snap)))
  }

  /** New state, the term of the response, and failed proposals. */
  function HandleInstallSnapshot(s: Node, req: SnapReq): (Node, nat, set<Answer>) {
    if req.term < s.term then (s, s.term, {})
    else
      var (s1, ans) := Follow(s, req.term, req.leader);
      (InstallSameTerm(s1, req.snap), s1.term, ans)
  }

  // ------------------------------------------------------------------
  // Proposals
  // ------------------------------------------------------------------

  function Refuse(batch: seq<(nat, Command)>): set<Answer> {
    set i | 0 <= i < |batch| :: Answer(batch[i].0, 0, batch[i].1, Failed)
  }

  function ProposalEntries(last: nat, term: nat, batch: seq<(nat, Command)>): seq<Entry> {
    seq(|batch|, i requires 0 <= i < |batch| => Entry(last + 1 + i, term, Normal(batch[i].1)))
  }

  function AddWaiters(waiters: map<nat, Proposal>, last: nat, term: nat, batch: seq<(nat, Command)>)
    : map<nat, Proposal>
  {
    if |batch| == 0 then waiters
    else
      var p := batch[|batch| - 1];
      AddWaiters(waiters, last, term, batch[..|batch| - 1])[last + |batch| := Proposal(p.0, term, p.1)]
  }

  function AppendProposals(cfg: Config, s: Node, batch: seq<(nat, Command)>): (Node, set<Answer>) {
    if s.role != Leader || s.lead.transferTarget != NO_NODE then (s, Refuse(batch))
    else
      var last := LastIndex(s.log);
      var es := ProposalEntries(last, s.term, batch);
      var s1 := GrowLog(s, es);
      (AdvanceCommit(cfg, s1.(waiters := AddWaiters(s1.waiters, last, s.term, batch))), {})
  }

  // ------------------------------------------------------------------
  // The applier
  // ------------------------------------------------------------------

  predicate ApplierReady(s: Node) {
    s.appl.phase.Idle? && (s.appl.pending.Some? || s.appl.lastApplied < s.commitIndex)
  }

  /** Picks up a pending snapshot, else the committed entries not yet applied. */
  function ApplierTake(s: Node): Node {
    if s.appl.pending.Some? then s.(appl := s.appl.(pending := None, phase := Restoring(s.appl.pending.value)))
    else s.(appl := s.appl.(phase := Applying(Slice(s.log, s.appl.lastApplied + 1, s.commitIndex), [])))
  }

  /** Restore of the state machine, outside the lock. */
  function ApplierRestore(s: Node): Node
    requires s.appl.phase.Restoring?
  {
    s.(appl := s.appl.(sm := s.appl.phase.snap.data, phase := Restored(s.appl.phase.snap.index)))
  }

  function ApplierRestored(s: Node): Node
    requires s.appl.phase.Restored?
  {
    s.(appl := s.appl.(lastApplied := Max(s.appl.lastApplied, s.appl.phase.index), phase := Idle))
  }

  predicate MoreToApply(s: Node) {
    s.appl.phase.Applying? && |s.appl.phase.results| < |s.appl.phase.entries|
  }

  /** One call of the state machine, outside the lock. */
  function ApplyOne(cfg: Config, s: Node): Node
    requires MoreToApply(s)
  {
    var ph := s.appl.phase;
    var e := ph.entries[|ph.results|];
    s.(appl := s.appl.(sm := ApplyEntry(cfg.machine, s.appl.sm, e),
                       phase := Applying(ph.entries, ph.results + [EntryResult(cfg.machine, s.appl.sm, e)])))
  }

  predicate AllApplied(s: Node) {
    s.appl.phase.Applying? && |s.appl.phase.results| == |s.appl.phase.entries| > 0
  }

  /** The answer a waiter gets for the entry applied at its index. */
  function AnswerFor(p: Proposal, e: Entry, result: Option<Result>): Answer {
    Answer(p.pid, e.index, p.cmd, if p.term == e.term then Applied(result) else Failed)
  }

  /** No entry before the `j`th has its index. */
  predicate FirstAt(es: seq<Entry>, j: nat)
    requires j < |es|
  {
    forall i :: 0 <= i < j ==> es[i].index != es[j].index
  }

  /** Each waiter is answered by the first entry at its index, and then gone. */
  function AppliedAnswers(s: Node): set<Answer>
    requires AllApplied(s)
  {
    AnswersTo(s.waiters, s.appl.phase.entries, s.appl.phase.results)
  }

  function AnswersTo(w: map<nat, Proposal>, es: seq<Entry>, rs: seq<Option<Result>>): set<Answer>
    requires |rs| == |es|
  {
    set j | 0 <= j < |es| && es[j].index in w && FirstAt(es, j) :: AnswerFor(w[es[j].index], es[j], rs[j])
  }

  predicate SnapshotNeeded(cfg: Config, s: Node, applied: nat) {
    cfg.snapshotThreshold > 0 && applied > s.log.snapIndex && applied - s.log.snapIndex >= cfg.snapshotThreshold
  }

  function ApplierFinish(cfg: Config, s: Node): (Node, set<Answer>)
    requires AllApplied(s)
  {
    var es := s.appl.phase.entries;
    var last := es[|es| - 1].index;
    var applied := Max(s.appl.lastApplied, last);
    var indexes := set j | 0 <= j < |es| :: es[j].index;
    (s.(waiters := s.waiters - indexes,
        appl := s.appl.(lastApplied := applied,
                        phase := if SnapshotNeeded(cfg, s, applied) then SnapshotDue(last) else Idle)),
     AppliedAnswers(s))
  }

  /** Serialises the state machine and looks the term up, unless a snapshot
      from the leader overtook this one. */
  function SnapshotTake(s: Node): Node
    requires s.appl.phase.SnapshotDue?
  {
    var i := s.appl.phase.index;
    s.(appl := s.appl.(phase := if Has(s.log, i) then Saving(Snapshot(i, TermIn(s.log, i), s.appl.sm)) else Idle))
  }

  /** Writing the snapshot file, without the Raft lock. */
  function SnapshotSave(s: Node): Node
    requires s.appl.phase.Saving?
  {
    var snap := s.appl.phase.snap;
    s.(disk := SaveSnapshot(s.disk, snap, false), appl := s.appl.(phase := Saved(snap.index, snap.term)))
  }

  function SnapshotCompact(s: Node): Node
    requires s.appl.phase.Saved?
  {
    s.(log := CompactTo(s.log, s.appl.phase.index, s.appl.phase.term), appl := s.appl.(phase := Idle))
  }

  /** The applier's actions, each one critical section or one unlocked call. */
  datatype ApplierStep =
    | TakeWork
    | RestoreState
    | RestoreDone
    | ApplyNext
    | ApplyDone
    | TakeSnapshot
    | StoreSnapshot
    | CompactLog

  predicate ApplierEnabled(s: Node, a: ApplierStep) {
    match a
    case TakeWork => ApplierReady(s)
    case RestoreState => s.appl.phase.Restoring?
    case RestoreDone => s.appl.phase.Restored?
    case ApplyNext => MoreToApply(s)
    case ApplyDone => AllApplied(s)
    case TakeSnapshot => s.appl.phase.SnapshotDue?
    case StoreSnapshot => s.appl.phase.Saving?
    case CompactLog => s.appl.phase.Saved?
  }

  function ApplierDo(cfg: Config, s: Node, a: ApplierStep): (Node, set<Answer>)
    requires ApplierEnabled(s, a)
  {
    match a
    case TakeWork => (ApplierTake(s), {})
    case RestoreState => (ApplierRestore(s), {})
    case RestoreDone => (ApplierRestored(s), {})
    case ApplyNext => (ApplyOne(cfg, s), {})
    case ApplyDone => ApplierFinish(cfg, s)
    case TakeSnapshot => (SnapshotTake(s), {})
    case StoreSnapshot => (SnapshotSave(s), {})
    case CompactLog => (SnapshotCompact(s), {})
  }

  // ------------------------------------------------------------------
  // Leadership transfer
  // ------------------------------------------------------------------

  predicate MayTransfer(s: Node, target: NodeId) {
    s.role == Leader && target in s.lead.matchIndex && s.lead.transferTarget == NO_NODE
  }

  function SetTransfer(s: Node, target: NodeId): Node {
    s.(lead := s.lead.(transferTarget := target))
  }

  predicate CaughtUp(s: Node, target: NodeId) {
    s.role == Leader && s.lead.transferTarget == target && Get(s.lead.matchIndex, target) == LastIndex(s.log)
  }
}
