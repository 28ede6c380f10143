/** One Raft group: replicas, a network that loses, delays, reorders and
    duplicates messages, crashes, and a clock that moves with every step.

    A step is one critical section of one replica, one unlocked action of its
    applier or of a goroutine that sends a snapshot, or a crash: between
    critical sections or in the middle of what one of them saves. Messages are
    never removed: losing one is never delivering it, duplicating one is
    delivering it twice. A reply carries the request it answers, because each
    RPC is one goroutine's call. */
module Cluster {
  import opened Types
  import opened Quorum
  import opened LogSpec
  import opened DiskSpec
  import opened CommitRule
  import opened Replica

  datatype Msg =
    | VoteMsg(vote: VoteReq)
    | VoteReply(from: NodeId, vote: VoteReq, voteResp: VoteResp)
    | PreVoteMsg(vote: VoteReq)
    | PreVoteReply(from: NodeId, vote: VoteReq, voteResp: VoteResp)
    | AppendMsg(to: NodeId, append: AppendReq, sentAt: nat)
    | AppendReply(from: NodeId, append: AppendReq, sentAt: nat, appendResp: AppendResp)
    | SnapMsg(to: NodeId, install: SnapReq, sentAt: nat)
    | SnapReply(from: NodeId, install: SnapReq, sentAt: nat, respTerm: nat)
    | TimeoutNow(to: NodeId, term: nat)

  /** A request built under the lock and not yet handed to the transport. */
  datatype Prepared =
    | PreparedAppend(to: NodeId, append: AppendReq)
    | PreparedSnap(to: NodeId, install: SnapReq)

  /** A decision, made under the lock while leading `term`, to send `peer` the
      snapshot that storage holds when it is read later, without the lock. */
  datatype Intent = Intent(node: NodeId, peer: NodeId, term: nat)

  /** A linearizable read: the index and time noted when it began. */
  datatype Read = Read(node: NodeId, term: nat, index: nat, start: nat)

  datatype Group = Group(
    peers: seq<NodeId>,
    machine: Machine,
    maxAppendEntries: nat,
    snapshotThreshold: nat,
    nodes: map<NodeId, Node>,
    intents: set<Intent>,
    prepared: set<Prepared>,
    net: set<Msg>,
    now: nat,
    proposed: map<nat, Command>,
    answered: set<Answer>,
    begun: set<Read>,
    confirmed: set<Read>)

  ghost function PeerSet(peers: seq<NodeId>): set<NodeId> {
    set p | p in peers
  }

  /** Every peer except `n`, in configuration order. */
  function Others(peers: seq<NodeId>, n: NodeId): seq<NodeId> {
    if |peers| == 0 then []
    else
      var front := Others(peers[..|peers| - 1], n);
      if peers[|peers| - 1] == n then front else front + [peers[|peers| - 1]]
  }

  function Cfg(s: Group, n: NodeId): Config {
    Config(n, Others(s.peers, n), s.machine, s.maxAppendEntries, s.snapshotThreshold)
  }

  ghost predicate Init(s: Group) {
    && Distinct(s.peers)
    && NO_NODE !in s.peers
    && |s.peers| > 0
    && s.nodes.Keys == PeerSet(s.peers)
    && (forall n :: n in s.nodes ==> s.nodes[n] == Boot(s.machine, EMPTY_DISK))
    && s.intents == {} && s.prepared == {} && s.net == {}
    && s.proposed == map[] && s.answered == {} && s.begun == {} && s.confirmed == {}
  }

  // ------------------------------------------------------------------
  // Steps
  // ------------------------------------------------------------------

  datatype Step =
    | Crash(n: NodeId)
    | CutAnswer(n: NodeId, m: Msg, k: nat)
    | CutPropose(n: NodeId, batch: seq<(nat, Command)>, k: nat)
    | AskPreVote(n: NodeId)
    | AnswerPreVote(n: NodeId, m: Msg, recent: bool)
    | Campaign(n: NodeId, voters: set<NodeId>)
    | CampaignNow(n: NodeId, m: Msg)
    | AnswerVote(n: NodeId, m: Msg)
    | LearnTerm(n: NodeId, m: Msg)
    | WinElection(n: NodeId, voters: set<NodeId>)
    | CheckQuorum(n: NodeId, since: nat)
    | Propose(n: NodeId, batch: seq<(nat, Command)>)
    | BuildAppend(n: NodeId, peer: NodeId)
    | DecideSnapshot(n: NodeId, peer: NodeId)
    | ReadSnapshot(it: Intent)
    | Transmit(p: Prepared)
    | AnswerAppend(n: NodeId, m: Msg)
    | TakeAppendReply(n: NodeId, m: Msg)
    | AnswerSnapshot(n: NodeId, m: Msg)
    | TakeSnapshotReply(n: NodeId, m: Msg)
    | Applier(n: NodeId, a: ApplierStep)
    | BeginRead(n: NodeId)
    | ConfirmRead(rd: Read)
    | BeginTransfer(n: NodeId, target: NodeId)
    | EndTransfer(n: NodeId)
    | SendTimeoutNow(n: NodeId, target: NodeId)

  /** What a step does at the node that takes it. */
  datatype Effect = Effect(node: Node, sent: set<Msg>, answers: set<Answer>)

  function Quietly(node: Node): Effect {
    Effect(node, {}, {})
  }

  function VoteRequest(n: NodeId, s: Node, term: nat): VoteReq {
    VoteReq(term, n, LastIndex(s.log), LastTermIn(s.log))
  }

  ghost predicate PreGranted(net: set<Msg>, v: NodeId, c: NodeId, t: nat) {
    exists m :: m in net && m.PreVoteReply? && m.from == v && m.vote.cand == c && m.vote.term == t && m.voteResp.granted
  }

  ghost predicate VoteGranted(net: set<Msg>, v: NodeId, c: NodeId, t: nat) {
    exists m :: m in net && m.VoteReply? && m.from == v && m.vote.cand == c && m.vote.term == t && m.voteResp.granted
  }

  /** The request `m` makes its receiver `n` persist something. */
  predicate Persists(n: NodeId, s: Node, m: Msg) {
    match m
    case VoteMsg(req) => req.cand != n && req.term > s.term
    case AppendMsg(to, req, _) => to == n && req.term >= s.term
    case SnapMsg(to, req, _) => to == n && req.term >= s.term
    case _ => false
  }

  /** What a crash leaves on disk in the middle of answering `m`: the term it
      brought and the first `k` of the entries to be written. */
  function CutDisk(s: Node, m: Msg, k: nat): Disk {
    match m
    case VoteMsg(req) => BecomeFollower(s, req.term, NO_NODE).0.disk
    case AppendMsg(_, req, _) =>
      var f := Follow(s, req.term, req.leader).0;
      var news := ToWrite(f, req);
      Save(f.disk, None, news[..Min(k, |news|)])
    case SnapMsg(_, req, _) => Follow(s, req.term, req.leader).0.disk
    case _ => s.disk
  }

  /** The proposals of a batch, by ID. */
  function Submitted(batch: seq<(nat, Command)>): map<nat, Command> {
    if |batch| == 0 then map[] else Submitted(batch[..|batch| - 1])[batch[|batch| - 1].0 := batch[|batch| - 1].1]
  }

  /** No ID of the batch was used before. */
  predicate FreshIds(proposed: map<nat, Command>, batch: seq<(nat, Command)>) {
    && (forall i :: 0 <= i < |batch| ==> batch[i].0 !in proposed)
    && (forall i, j :: 0 <= i < j < |batch| ==> batch[i].0 != batch[j].0)
  }

  /** A leader takes proposals unless it is handing over. */
  predicate TakesProposals(s: Node) {
    s.role == Leader && s.lead.transferTarget == NO_NODE
  }

  /** The step is a crash, between critical sections or inside one. */
  predicate IsCrash(step: Step) {
    step.Crash? || step.CutAnswer? || step.CutPropose?
  }

  /** The node a step runs on. */
  function Actor(step: Step): NodeId {
    match step
    case Transmit(_) => NO_NODE
    case ReadSnapshot(it) => it.node
    case ConfirmRead(rd) => rd.node
    case _ => step.n
  }

  ghost predicate Enabled(s: Group, step: Step)
  {
    && (!step.Transmit? ==> Actor(step) in s.nodes)
    && match step
       case Crash(n) => true
       case CutAnswer(n, m, k) => m in s.net && Persists(n, s.nodes[n], m)
       case CutPropose(n, batch, k) => FreshIds(s.proposed, batch) && TakesProposals(s.nodes[n]) && k <= |batch|
       case AskPreVote(n) => s.nodes[n].role != Leader
       case AnswerPreVote(n, m, recent) => m in s.net && m.PreVoteMsg? && m.vote.cand != n
       case Campaign(n, voters) =>
         && s.nodes[n].role != Leader
         && IsQuorum(PeerSet(s.peers), voters)
         && n in voters
         && forall v :: v in voters && v != n ==> PreGranted(s.net, v, n, s.nodes[n].term + 1)
       case CampaignNow(n, m) => s.nodes[n].role != Leader && m in s.net && m.TimeoutNow? && m.to == n
       case AnswerVote(n, m) => m in s.net && m.VoteMsg? && m.vote.cand != n
       case LearnTerm(n, m) =>
         && m in s.net
         && (m.VoteReply? || m.PreVoteReply?)
         && m.vote.cand == n
         && m.voteResp.term > s.nodes[n].term
       case WinElection(n, voters) =>
         && s.nodes[n].role == Candidate
         && IsQuorum(PeerSet(s.peers), voters)
         && n in voters
         && forall v :: v in voters && v != n ==> VoteGranted(s.net, v, n, s.nodes[n].term)
       case CheckQuorum(n, since) => s.nodes[n].role == Leader && !HasQuorumAckSince(Cfg(s, n), s.nodes[n], since)
       case Propose(n, batch) => FreshIds(s.proposed, batch)
       case BuildAppend(n, peer) =>
         && s.nodes[n].role == Leader
         && peer in Others(s.peers, n)
         && Get(s.nodes[n].lead.nextIndex, peer) > s.nodes[n].log.snapIndex
       case DecideSnapshot(n, peer) =>
         && s.nodes[n].role == Leader
         && peer in Others(s.peers, n)
         && Get(s.nodes[n].lead.nextIndex, peer) <= s.nodes[n].log.snapIndex
       // Nothing is checked again: whatever role the node has by now.
       case ReadSnapshot(it) => it in s.intents && s.nodes[it.node].disk.snap.Some?
       case Transmit(p) => p in s.prepared
       case AnswerAppend(n, m) => m in s.net && m.AppendMsg? && m.to == n
       case TakeAppendReply(n, m) => m in s.net && m.AppendReply? && m.append.leader == n
       case AnswerSnapshot(n, m) => m in s.net && m.SnapMsg? && m.to == n
       case TakeSnapshotReply(n, m) => m in s.net && m.SnapReply? && m.install.leader == n
       case Applier(n, a) => ApplierEnabled(s.nodes[n], a)
       case BeginRead(n) => s.nodes[n].role == Leader && s.nodes[n].commitIndex >= s.nodes[n].lead.noopIndex
       case ConfirmRead(rd) =>
         && rd in s.begun
         && s.nodes[rd.node].role == Leader
         && s.nodes[rd.node].term == rd.term
         && HasQuorumAckSince(Cfg(s, rd.node), s.nodes[rd.node], rd.start)
       case BeginTransfer(n, target) => MayTransfer(s.nodes[n], target)
       case EndTransfer(n) => s.nodes[n].role == Leader
       case SendTimeoutNow(n, target) => target != NO_NODE && CaughtUp(s.nodes[n], target)
  }

  /** What the acting node becomes, what it sends and which proposals it answers. */
  ghost function EffectOf(s: Group, step: Step): Effect
    requires Enabled(s, step) && !step.Transmit?
  {
    var n := Actor(step);
    var node := s.nodes[n];
    var cfg := Cfg(s, n);
    match step
    case Crash(_) => Quietly(Boot(s.machine, node.disk))
    case CutAnswer(_, m, k) => Quietly(Boot(s.machine, CutDisk(node, m, k)))
    case CutPropose(_, batch, k) =>
      var es := ProposalEntries(LastIndex(node.log), node.term, batch);
      Quietly(Boot(s.machine, Save(node.disk, None, es[..k])))
    case AskPreVote(_) => Effect(node, {PreVoteMsg(VoteRequest(n, node, node.term + 1))}, {})
    case AnswerPreVote(_, m, recent) => Effect(node, {PreVoteReply(n, m.vote, HandlePreVote(node, m.vote, recent))}, {})
    case Campaign(_, _) => var (node', req) := StartElection(cfg, node); Effect(node', {VoteMsg(req)}, {})
    case CampaignNow(_, _) => var (node', req) := StartElection(cfg, node); Effect(node', {VoteMsg(req)}, {})
    case AnswerVote(_, m) =>
      var (node', resp, ans) := HandleRequestVote(node, m.vote);
      Effect(node', {VoteReply(n, m.vote, resp)}, ans)
    case LearnTerm(_, m) => var (node', ans) := BecomeFollower(node, m.voteResp.term, NO_NODE); Effect(node', {}, ans)
    case WinElection(_, _) => Quietly(BecomeLeader(cfg, node, s.now))
    case CheckQuorum(_, _) => var (node', ans) := BecomeFollower(node, node.term, NO_NODE); Effect(node', {}, ans)
    case Propose(_, batch) => var (node', ans) := AppendProposals(cfg, node, batch); Effect(node', {}, ans)
    case BuildAppend(_, _) => Quietly(node)
    case DecideSnapshot(_, _) => Quietly(node)
    case ReadSnapshot(_) => Quietly(node)
    case AnswerAppend(_, m) =>
      var (node', resp, ans) := HandleAppendEntries(node, m.append);
      Effect(node', {AppendReply(n, m.append, m.sentAt, resp)}, ans)
    case TakeAppendReply(_, m) =>
      var (node', ans) := OnAppendReply(cfg, node, m.from, m.append, m.sentAt, m.appendResp);
      Effect(node', {}, ans)
    case AnswerSnapshot(_, m) =>
      var (node', t, ans) := HandleInstallSnapshot(node, m.install);
      Effect(node', {SnapReply(n, m.install, m.sentAt, t)}, ans)
    case TakeSnapshotReply(_, m) =>
      var (node', ans) := OnSnapshotReply(cfg, node, m.from, m.install, m.sentAt, m.respTerm);
      Effect(node', {}, ans)
    case Applier(_, a) => var (node', ans) := ApplierDo(cfg, node, a); Effect(node', {}, ans)
    case BeginRead(_) => Quietly(node)
    case ConfirmRead(_) => Quietly(node)
    case BeginTransfer(_, target) => Quietly(SetTransfer(node, target))
    case EndTransfer(_) => Quietly(SetTransfer(node, NO_NODE))
    case SendTimeoutNow(_, target) => Effect(node, {TimeoutNow(target, node.term)}, {})
  }

  /** A crash ends the goroutines of its node. */
  function Without(intents: set<Intent>, n: NodeId): set<Intent> {
    set it | it in intents && it.node != n
  }

  /** The request carries the term of the decision and what storage holds now. */
  function SentSnapshot(it: Intent, s: Node): Prepared
    requires s.disk.snap.Some?
  {
    PreparedSnap(it.peer, SnapReq(it.term, it.node, s.disk.snap.value))
  }

  /** The group after a step. */
  ghost function Do(s: Group, step: Step): Group
    requires Enabled(s, step)
  {
    var s1 := s.(now := s.now + 1);
    if step.Transmit? then
      s1.(net := s.net + {match step.p
                          case PreparedAppend(to, req) => AppendMsg(to, req, s.now)
                          case PreparedSnap(to, req) => SnapMsg(to, req, s.now)})
    else
      var n := Actor(step);
      var node := s.nodes[n];
      var e := EffectOf(s, step);
      var s2 := s1.(nodes := s.nodes[n := e.node], net := s.net + e.sent, answered := s.answered + e.answers);
      match step
      case Crash(_) => s2.(intents := Without(s.intents, n))
      case CutAnswer(_, _, _) => s2.(intents := Without(s.intents, n))
      case CutPropose(_, batch, _) => s2.(intents := Without(s.intents, n), proposed := s.proposed + Submitted(batch))
      case Propose(_, batch) => s2.(proposed := s.proposed + Submitted(batch))
      case BuildAppend(_, peer) =>
        s2.(prepared := s.prepared + {PreparedAppend(peer, PrepareAppend(Cfg(s, n), node, peer))})
      case DecideSnapshot(_, peer) => s2.(intents := s.intents + {Intent(n, peer, node.term)})
      case ReadSnapshot(it) => s2.(intents := s.intents - {it}, prepared := s.prepared + {SentSnapshot(it, node)})
      case BeginRead(_) => s2.(begun := s.begun + {Read(n, node.term, node.commitIndex, s.now)})
      case ConfirmRead(rd) => s2.(confirmed := s.confirmed + {rd})
      case _ => s2
  }

  lemma ActorPresent(s: Group, step: Step)
    requires Enabled(s, step)
    ensures !step.Transmit? ==> Actor(step) in s.nodes
  {
  }

  /** What every step leaves alone, and where its effect shows. */
  lemma DoShape(s: Group, step: Step)
    requires Enabled(s, step)
    ensures var s' := Do(s, step);
            && s'.peers == s.peers && s'.machine == s.machine
            && s'.maxAppendEntries == s.maxAppendEntries && s'.snapshotThreshold == s.snapshotThreshold
            && s.confirmed <= s'.confirmed && s'.nodes.Keys == s.nodes.Keys
            && (step.Transmit? ==> s'.nodes == s.nodes && s'.answered == s.answered)
            && (!step.Transmit? ==>
                  var n, e := Actor(step), EffectOf(s, step);
                  && n in s.nodes && s'.nodes == s.nodes[n := e.node]
                  && s'.net == s.net + e.sent && s'.answered == s.answered + e.answers)
  {
    hide Enabled, EffectOf, PrepareAppend, Submitted, Cfg, SentSnapshot, Without;
    ActorPresent(s, step);
  }

  /** A run: the states it visits and the steps between them. */
  ghost predicate IsRun(run: seq<Group>, steps: seq<Step>) {
    && |run| == |steps| + 1
    && Init(run[0])
    && forall i :: 0 <= i < |steps| ==> Enabled(run[i], steps[i]) && run[i + 1] == Do(run[i], steps[i])
  }

  /** Some leader of term `t` or below has, by state `i`, committed up to `k`. */
  ghost predicate CommittedBy(run: seq<Group>, i: nat, t: nat, k: nat) {
    exists j, n ::
      && 0 <= j <= i < |run| && n in run[j].nodes
      && run[j].nodes[n].role == Leader && run[j].nodes[n].term <= t && k <= run[j].nodes[n].commitIndex
  }

  /** The step makes its node replace its committed prefix by the snapshot of `m`. */
  ghost predicate Installs(s: Group, n: NodeId, m: Msg) {
    && n in s.nodes && m.SnapMsg?
    && m.install.term >= s.nodes[n].term
    && m.install.snap.index > s.nodes[n].commitIndex
  }

  /** A run in which every snapshot a replica installs covers only what a leader
      of the request's term or below has committed by then. It is what a sender
      guarantees that still leads when its request is sent. */
  ghost predicate TimelyRun(run: seq<Group>, steps: seq<Step>) {
    IsRun(run, steps) && forall i :: 0 <= i < |steps| ==> Timely(run, i, steps[i])
  }

  ghost predicate Timely(run: seq<Group>, i: nat, step: Step) {
    step.AnswerSnapshot? && i < |run| && Installs(run[i], step.n, step.m) ==>
      CommittedBy(run, i, step.m.install.term, step.m.install.snap.index)
  }
}
