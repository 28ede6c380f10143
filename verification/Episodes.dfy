/** Stretches of a run seen through term, role and log: elections, round trips
    that succeed or are rejected, votes that are refused. */
module Episodes {
  import opened Types
  import opened Quorum
  import opened LogSpec
  import opened DiskSpec
  import opened CommitRule
  import opened Replica
  import opened Cluster
  import opened NodeLeader
  import opened CommitSteps
  import opened Traces

  // ------------------------------------------------------------------
  // What the handlers do, seen through term, role and log
  // ------------------------------------------------------------------

  datatype View = View(term: nat, role: Role, log: LogState)

  predicate Is(s: Node, v: View) {
    s.term == v.term && s.role == v.role && s.log == v.log
  }

  /** Applier and stored snapshot are as they were. */
  predicate Rest(s: Node, s': Node) {
    s'.appl == s.appl && s'.disk.snap == s.disk.snap
  }

  lemma {:induction false} WritesKeepSnapshot(d: Disk, es: seq<Entry>)
    ensures AppendEntries(d, es).snap == d.snap
  {
    if |es| > 0 {
      WritesKeepSnapshot(d, es[..|es| - 1]);
    }
  }

  lemma Voted(s: Node, req: VoteReq)
    requires req.term > s.term
    ensures var r := HandleRequestVote(s, req);
            && Is(r.0, View(req.term, Follower, s.log)) && Rest(s, r.0) && r.0.commitIndex == s.commitIndex
            && r.1.granted == LogUpToDate(s, req.lastIndex, req.lastTerm)
  {
    hide LastTermIn;
  }

  lemma PreVoted(s: Node, req: VoteReq)
    requires req.term > s.term && s.role != Leader && LogUpToDate(s, req.lastIndex, req.lastTerm)
    ensures HandlePreVote(s, req, false).granted
  {
  }

  /** A leader's commit index and match indexes stay within its log. */
  ghost predicate InOrder(s: Node) {
    && s.commitIndex <= LastIndex(s.log)
    && forall p :: p in s.lead.matchIndex ==> s.lead.matchIndex[p] <= LastIndex(s.log)
  }

  lemma Advanced(cfg: Config, s: Node)
    requires InOrder(s)
    ensures var c := AdvanceCommit(cfg, s).commitIndex;
            s.commitIndex <= c <= LastIndex(s.log) && AdvanceCommit(cfg, s) == s.(commitIndex := c)
  {
    CandidateInLog(cfg, s);
  }

  /** The log's last entry is of the leader's term and three of six peers hold it. */
  ghost predicate LastHeld(cfg: Config, s: Node, q: set<NodeId>) {
    && Distinct(cfg.others) && |cfg.others| == 6 && |q| == 3
    && (forall p :: p in q ==> p in cfg.others && Get(s.lead.matchIndex, p) == LastIndex(s.log))
    && TermIn(s.log, LastIndex(s.log)) == s.term
  }

  lemma AdvancedToLast(cfg: Config, s: Node, q: set<NodeId>)
    requires InOrder(s) && LastHeld(cfg, s, q)
    ensures AdvanceCommit(cfg, s).commitIndex == LastIndex(s.log)
  {
    var k := LastIndex(s.log);
    CountFirst(k, Values(cfg.others, s.lead.matchIndex), k);
    CountIsCardinality(cfg.others, s.lead.matchIndex, k);
    SubsetSize(q, AtLeast(cfg.others, s.lead.matchIndex, k));
    QuorumIndexIsGreatest(Matches(cfg, s), QuorumSize(cfg), k);
    CandidateInLog(cfg, s);
  }

  lemma Leads(cfg: Config, s: Node, now: nat)
    requires s.commitIndex <= LastIndex(s.log)
    ensures var s', last := BecomeLeader(cfg, s, now), LastIndex(s.log);
            && Is(s', View(s.term, Leader, AppendTo(s.log, [Entry(last + 1, s.term, Noop)]))) && Rest(s, s')
            && InOrder(s')
            && s'.lead.transferTarget == NO_NODE
            && forall p :: p in cfg.others ==> Get(s'.lead.nextIndex, p) == last + 1 && Get(s'.lead.matchIndex, p) == 0
  {
    hide AdvanceCommit, AppendEntries;
    var last := LastIndex(s.log);
    var noop := Entry(last + 1, s.term, Noop);
    EverywhereReads<nat>(cfg.others, last + 1);
    EverywhereReads<nat>(cfg.others, 0);
    var lead := NewLead(cfg, last, now);
    WritesKeepSnapshot(s.disk, [noop]);
    Advanced(cfg, GrowLog(s.(role := Leader, leaderId := cfg.id, lead := lead), [noop]));
  }

  /** A success reply. */
  lemma Acked(cfg: Config, s: Node, p: NodeId, req: AppendReq, sentAt: nat, resp: AppendResp, q: set<NodeId>)
    requires s.role == Leader && s.term == req.term == resp.term && resp.success && InOrder(s)
    requires Get(s.lead.matchIndex, p) < req.prevIndex + |req.entries| <= LastIndex(s.log)
    ensures var s', m := OnAppendReply(cfg, s, p, req, sentAt, resp).0, req.prevIndex + |req.entries|;
            && Is(s', View(s.term, Leader, s.log)) && Rest(s, s') && InOrder(s') && s.commitIndex <= s'.commitIndex
            && s'.lead.matchIndex == s.lead.matchIndex[p := m] && s'.lead.nextIndex == s.lead.nextIndex[p := m + 1]
            && (LastHeld(cfg, s', q) ==> s'.commitIndex == LastIndex(s.log))
  {
    hide AdvanceCommit;
    var m := req.prevIndex + |req.entries|;
    var s1 := RecordAck(s, p, sentAt);
    var s2 := s1.(lead := s1.lead.(matchIndex := s1.lead.matchIndex[p := m],
          nextIndex := s1.lead.nextIndex[p := m + 1]));
    Advanced(cfg, s2);
    if LastHeld(cfg, s2, q) {
      AdvancedToLast(cfg, s2, q);
    }
  }

  /** A rejection. */
  lemma Backed(cfg: Config, s: Node, p: NodeId, req: AppendReq, sentAt: nat, resp: AppendResp)
    requires s.role == Leader && s.term == req.term == resp.term && !resp.success && InOrder(s)
    ensures var s' := OnAppendReply(cfg, s, p, req, sentAt, resp).0;
            && Is(s', View(s.term, Leader, s.log)) && Rest(s, s') && InOrder(s') && s'.commitIndex == s.commitIndex
            && s'.lead.matchIndex == s.lead.matchIndex
            && s'.lead.nextIndex == s.lead.nextIndex[p := BacktrackTo(s, resp)]
  {
    hide LastIndexOfTermIn;
  }

  /** The request continues the receiver's log with something it does not hold. */
  predicate Continues(l: LogState, req: AppendReq) {
    && l.snapIndex <= req.prevIndex <= LastIndex(l)
    && TermIn(l, req.prevIndex) == req.prevTerm
    && (|req.entries| > 0 ==> !(Has(l, req.entries[0].index) && TermIn(l, req.entries[0].index) == req.entries[0].term))
  }

  function Continued(l: LogState, es: seq<Entry>): LogState {
    if |es| == 0 then l
    else AppendTo(if Has(l, es[0].index) then TruncateFrom(l, es[0].index) else l, es)
  }

  lemma Followed(s: Node, t: nat, leader: NodeId)
    requires t >= s.term
    ensures var f := Follow(s, t, leader).0;
            Is(f, View(t, Follower, s.log)) && Rest(s, f) && f.commitIndex == s.commitIndex
  {
  }

  lemma MergedKeeps(s: Node, es: seq<Entry>)
    ensures Rest(s, MergeEntries(s, es)) && MergeEntries(s, es).commitIndex == s.commitIndex
    ensures MergeEntries(s, es).term == s.term && MergeEntries(s, es).role == s.role
  {
    hide Fresh, AppendEntries;
    WritesKeepSnapshot(s.disk, Fresh(s.log, es));
  }

  lemma Taken(s: Node, req: AppendReq)
    requires req.term >= s.term && Continues(s.log, req)
    ensures var (s', resp, _) := HandleAppendEntries(s, req);
            && Is(s', View(req.term, Follower, Continued(s.log, req.entries))) && Rest(s, s')
            && s'.commitIndex == Max(s.commitIndex, Min(req.commit, req.prevIndex + |req.entries|))
            && resp == AppendResp(req.term, true, 0, 0)
  {
    hide Follow, Persist, AppendEntries;
    var f := Follow(s, req.term, req.leader).0;
    Followed(s, req.term, req.leader);
    assert req.entries[0..] == req.entries;
    MergedKeeps(f, req.entries);
    assert Fresh(f.log, req.entries) == req.entries;
    PersistLog(f.(log := Continued(f.log, req.entries)), req.entries);
  }

  lemma PersistLog(s: Node, es: seq<Entry>)
    ensures Persist(s, false, es).log == s.log
  {
  }

  lemma TooShort(s: Node, req: AppendReq)
    requires req.term >= s.term && s.log.snapIndex <= LastIndex(s.log) < req.prevIndex
    ensures var (s', resp, _) := HandleAppendEntries(s, req);
            && Is(s', View(req.term, Follower, s.log)) && Rest(s, s') && s'.commitIndex == s.commitIndex
            && resp == AppendResp(req.term, false, LastIndex(s.log) + 1, 0)
  {
    hide Follow;
    Followed(s, req.term, req.leader);
  }

  lemma WrongTerm(s: Node, req: AppendReq)
    requires req.term >= s.term && s.log.snapIndex <= req.prevIndex <= LastIndex(s.log)
             && TermIn(s.log, req.prevIndex) != req.prevTerm
    ensures var (s', resp, _) := HandleAppendEntries(s, req);
            && Is(s', View(req.term, Follower, s.log)) && Rest(s, s') && s'.commitIndex == s.commitIndex
            && resp == AppendResp(req.term, false,
              FirstIndexOfTerm(s.log, TermIn(s.log, req.prevIndex), req.prevIndex), TermIn(s.log, req.prevIndex))
  {
    hide Follow, FirstIndexOfTerm;
    Followed(s, req.term, req.leader);
  }

  // ------------------------------------------------------------------
  // Stretches of a run, seen the same way
  // ------------------------------------------------------------------

  /** A leader that has just taken office. */
  ghost predicate TookOffice(others: seq<NodeId>, s: Node, s': Node) {
    var last := LastIndex(s.log);
    && Is(s', View(s.term + 1, Leader, AppendTo(s.log, [Entry(last + 1, s.term + 1, Noop)])))
    && Rest(s, s') && InOrder(s') && s'.lead.transferTarget == NO_NODE
    && forall p :: p in others ==> Get(s'.lead.nextIndex, p) == last + 1 && Get(s'.lead.matchIndex, p) == 0
  }

  /** A replica that has moved on to a term. */
  predicate MovedTo(s: Node, s': Node, t: nat) {
    Is(s', View(t, Follower, s.log)) && Rest(s, s') && s'.commitIndex == s.commitIndex
  }

  ghost predicate Elected(s: Group, s': Group, n: NodeId, voters: seq<NodeId>) {
    && s'.nodes.Keys == s.nodes.Keys && n in s.nodes
    && (forall v :: v in voters ==> v in s.nodes && MovedTo(s.nodes[v], s'.nodes[v], s.nodes[n].term + 1))
    && (forall v :: v in s.nodes && v !in voters && v != n ==> s'.nodes[v] == s.nodes[v])
    && TookOffice(Others(s.peers, n), s.nodes[n], s'.nodes[n])
    && VoteMsg(VoteReq(s.nodes[n].term + 1, n, LastIndex(s.nodes[n].log), LastTermIn(s.nodes[n].log))) in s'.net
  }

  /** Pre-votes, the campaign and the votes. */
  lemma Polls(t: Trace, n: NodeId, pre: seq<NodeId>, voters: seq<NodeId>) returns (t': Trace)
    requires Runs(t) && n in t.s.nodes && t.s.nodes[n].role != Leader
    requires forall v :: v in pre ==>
               v in t.s.nodes && v != n && MayElect(t.s.nodes[v], t.s.nodes[n]) && t.s.nodes[v].role != Leader
    requires forall v :: v in voters ==> v in t.s.nodes && v != n && MayElect(t.s.nodes[v], t.s.nodes[n])
    requires Distinct(voters)
    requires IsQuorum(PeerSet(t.s.peers), SetOf(pre) + {n})
    ensures GoesOn(t, t') && Runs(t') && t'.s.proposed == t.s.proposed && t'.s.nodes.Keys == t.s.nodes.Keys
    ensures var node := t.s.nodes[n];
            && Is(t'.s.nodes[n], View(node.term + 1, Candidate, node.log)) && Rest(node, t'.s.nodes[n])
            && t'.s.nodes[n].commitIndex == node.commitIndex
            && VoteMsg(VoteReq(node.term + 1, n, LastIndex(node.log), LastTermIn(node.log))) in t'.s.net
            && (forall v :: v in voters ==> MovedTo(t.s.nodes[v], t'.s.nodes[v], node.term + 1))
            && (forall v :: v in t.s.nodes && v !in voters && v != n ==> t'.s.nodes[v] == t.s.nodes[v])
            && (forall v :: v in voters ==> VoteGranted(t'.s.net, v, n, node.term + 1))
  {
    hide Runs, IsQuorum, PeerSet, HandleRequestVote, LogUpToDate, VoteGranted;
    var t1, req := Stands(t, n, pre);
    forall v | v in voters
      ensures HandleRequestVote(t1.s.nodes[v], req).1.granted
    {
      Voted(t.s.nodes[v], req);
    }
    t' := Votes(t1, req, voters);
    GoesOnTrans(t, t1, t');
    forall v | v in voters
      ensures MovedTo(t.s.nodes[v], t'.s.nodes[v], req.term)
    {
      Voted(t.s.nodes[v], req);
    }
  }

  /** A full election: pre-votes, votes, victory and the no-op. */
  lemma Elects(t: Trace, n: NodeId, pre: seq<NodeId>, voters: seq<NodeId>) returns (t': Trace)
    requires Runs(t) && n in t.s.nodes && t.s.nodes[n].role != Leader
    requires t.s.nodes[n].commitIndex <= LastIndex(t.s.nodes[n].log)
    requires forall v :: v in pre ==>
               v in t.s.nodes && v != n && MayElect(t.s.nodes[v], t.s.nodes[n]) && t.s.nodes[v].role != Leader
    requires forall v :: v in voters ==> v in t.s.nodes && v != n && MayElect(t.s.nodes[v], t.s.nodes[n])
    requires Distinct(voters)
    requires IsQuorum(PeerSet(t.s.peers), SetOf(pre) + {n}) && IsQuorum(PeerSet(t.s.peers), SetOf(voters) + {n})
    ensures GoesOn(t, t') && Runs(t') && t'.s.proposed == t.s.proposed
    ensures Elected(t.s, t'.s, n, voters)
  {
    hide Runs, IsQuorum, PeerSet, Others, BecomeLeader, LogUpToDate, InOrder, Get, MayElect, VoteGranted, MovedTo;
    var t1 := Polls(t, n, pre, voters);
    t' := Wins(t1, n, voters);
    GoesOnTrans(t, t1, t');
    Leads(Cfg(t1.s, n), t1.s.nodes[n], t1.s.now);
  }

  /** `v` is no further than `c` in term and log. */
  predicate MayElect(v: Node, c: Node) {
    v.term <= c.term && LogUpToDate(v, LastIndex(c.log), LastTermIn(c.log))
  }

  /** Pre-votes and the campaign. */
  lemma Stands(t: Trace, n: NodeId, pre: seq<NodeId>) returns (t': Trace, req: VoteReq)
    requires Runs(t) && n in t.s.nodes && t.s.nodes[n].role != Leader
    requires forall v :: v in pre ==>
               v in t.s.nodes && v != n && MayElect(t.s.nodes[v], t.s.nodes[n]) && t.s.nodes[v].role != Leader
    requires IsQuorum(PeerSet(t.s.peers), SetOf(pre) + {n})
    ensures GoesOn(t, t') && Runs(t') && t'.s.proposed == t.s.proposed
    ensures var s, s' := t.s, t'.s; var node := s.nodes[n];
            && req == VoteReq(node.term + 1, n, LastIndex(node.log), LastTermIn(node.log)) && VoteMsg(req) in s'.net
            && (forall v :: v in s.nodes && v != n ==> s'.nodes[v] == s.nodes[v])
            && Is(s'.nodes[n], View(node.term + 1, Candidate, node.log)) && Rest(node, s'.nodes[n])
            && s'.nodes[n].commitIndex == node.commitIndex
  {
    hide Runs, IsQuorum, PeerSet, HandlePreVote, LogUpToDate, AppendEntries;
    var node := t.s.nodes[n];
    forall v | v in pre
      ensures HandlePreVote(t.s.nodes[v], VoteRequest(n, node, node.term + 1), false).granted
    {
      PreVoted(t.s.nodes[v], VoteRequest(n, node, node.term + 1));
    }
    t' := Campaigns(t, n, pre);
    req := StartElection(Cfg(t.s, n), node).1;
    WritesKeepSnapshot(node.disk.(hs := Some(HardState(node.term + 1, n))), []);
  }

  /** What a leader that has compacted nothing sends. */
  lemma Built(cfg: Config, s: Node, p: NodeId)
    requires s.log.snapIndex == 0 && cfg.maxAppendEntries == 8 && LastIndex(s.log) <= 8
    requires 1 <= Get(s.lead.nextIndex, p) <= LastIndex(s.log) + 1
    ensures var next := Get(s.lead.nextIndex, p);
            PrepareAppend(cfg, s, p) ==
              AppendReq(s.term, cfg.id, next - 1, TermIn(s.log, next - 1), s.log.entries[next - 1..], s.commitIndex)
  {
  }

  ghost predicate OthersKept(s: Group, s': Group, n: NodeId, p: NodeId) {
    && s'.nodes.Keys == s.nodes.Keys && n in s.nodes && p in s.nodes
    && forall v :: v in s.nodes && v != n && v != p ==> s'.nodes[v] == s.nodes[v]
  }

  /** The leader after a success reply that covers `m` entries. */
  ghost predicate Confirmed(cfg: Config, s: Node, s': Node, p: NodeId, m: nat, q: set<NodeId>) {
    && Is(s', View(s.term, Leader, s.log)) && Rest(s, s') && InOrder(s') && s.commitIndex <= s'.commitIndex
    && s'.lead.matchIndex == s.lead.matchIndex[p := m] && s'.lead.nextIndex == s.lead.nextIndex[p := m + 1]
    && (LastHeld(cfg, s', q) ==> s'.commitIndex == LastIndex(s.log))
  }

  ghost predicate Delivered(s: Group, s': Group, n: NodeId, p: NodeId, q: set<NodeId>) {
    && OthersKept(s, s', n, p)
    && var cfg, node := Cfg(s, n), s.nodes[n];
       var req := PrepareAppend(cfg, node, p);
       var m := req.prevIndex + |req.entries|;
       && Confirmed(cfg, node, s'.nodes[n], p, m, q)
       && Is(s'.nodes[p], View(node.term, Follower, Continued(s.nodes[p].log, req.entries)))
       && Rest(s.nodes[p], s'.nodes[p])
       && s'.nodes[p].commitIndex == Max(s.nodes[p].commitIndex, Min(node.commitIndex, m))
  }

  /** A round trip that succeeds. */
  lemma Delivers(t: Trace, n: NodeId, p: NodeId, q: set<NodeId>) returns (t': Trace)
    requires Runs(t) && n in t.s.nodes && p in t.s.nodes && p != n && p in Others(t.s.peers, n)
    requires t.s.nodes[n].role == Leader && InOrder(t.s.nodes[n]) && t.s.nodes[p].term <= t.s.nodes[n].term
    requires Get(t.s.nodes[n].lead.nextIndex, p) > t.s.nodes[n].log.snapIndex
    requires var req := PrepareAppend(Cfg(t.s, n), t.s.nodes[n], p);
             && Continues(t.s.nodes[p].log, req)
             && Get(t.s.nodes[n].lead.matchIndex, p) < req.prevIndex + |req.entries| <= LastIndex(t.s.nodes[n].log)
    ensures GoesOn(t, t') && Runs(t') && t'.s.proposed == t.s.proposed
    ensures Delivered(t.s, t'.s, n, p, q)
  {
    hide Runs, Others, HandleAppendEntries, OnAppendReply, InOrder, LastHeld, Continues, Continued, Get, Slice,
         TermIn, Rest;
    var cfg, node := Cfg(t.s, n), t.s.nodes[n];
    var req := PrepareAppend(cfg, node, p);
    var sentAt: nat;
    t', sentAt := Replicates(t, n, p);
    Taken(t.s.nodes[p], req);
    Acked(cfg, node, p, req, sentAt, AppendResp(req.term, true, 0, 0), q);
  }

  ghost predicate Bounced(s: Group, s': Group, n: NodeId, p: NodeId) {
    && OthersKept(s, s', n, p)
    && var node, node' := s.nodes[n], s'.nodes[n];
       && MovedTo(s.nodes[p], s'.nodes[p], node.term)
       && Is(node', View(node.term, Leader, node.log)) && Rest(node, node') && InOrder(node')
       && node'.commitIndex == node.commitIndex
       && node'.lead.matchIndex == node.lead.matchIndex
       && node'.lead.nextIndex ==
            node.lead.nextIndex[p := BacktrackTo(node, Refusal(PrepareAppend(Cfg(s, n), node, p), s.nodes[p].log))]
  }

  /** A round trip that is rejected. */
  lemma Bounces(t: Trace, n: NodeId, p: NodeId) returns (t': Trace)
    requires Runs(t) && n in t.s.nodes && p in t.s.nodes && p != n && p in Others(t.s.peers, n)
    requires t.s.nodes[n].role == Leader && InOrder(t.s.nodes[n]) && t.s.nodes[p].term <= t.s.nodes[n].term
    requires Get(t.s.nodes[n].lead.nextIndex, p) > t.s.nodes[n].log.snapIndex
    requires var req, l := PrepareAppend(Cfg(t.s, n), t.s.nodes[n], p), t.s.nodes[p].log;
             l.snapIndex <= req.prevIndex && (req.prevIndex > LastIndex(l) || TermIn(l, req.prevIndex) != req.prevTerm)
    ensures GoesOn(t, t') && Runs(t') && t'.s.proposed == t.s.proposed
    ensures Bounced(t.s, t'.s, n, p)
  {
    hide Runs, Others, HandleAppendEntries, OnAppendReply, InOrder, Get, Slice, TermIn, Rest, BacktrackTo,
         FirstIndexOfTerm;
    var cfg, node, peer := Cfg(t.s, n), t.s.nodes[n], t.s.nodes[p];
    var req := PrepareAppend(cfg, node, p);
    var sentAt: nat;
    t', sentAt := Replicates(t, n, p);
    if req.prevIndex > LastIndex(peer.log) {
      TooShort(peer, req);
    } else {
      WrongTerm(peer, req);
    }
    Backed(cfg, node, p, req, sentAt, Refusal(req, peer.log));
  }

  /** How a receiver with this log refuses the request. */
  function Refusal(req: AppendReq, l: LogState): AppendResp {
    if req.prevIndex > LastIndex(l) then AppendResp(req.term, false, LastIndex(l) + 1, 0)
    else AppendResp(req.term, false, FirstIndexOfTerm(l, TermIn(l, req.prevIndex), req.prevIndex),
          TermIn(l, req.prevIndex))
  }

  /** A voter refuses a candidate whose log is behind, and learns its term. */
  lemma Refuses(t: Trace, v: NodeId, req: VoteReq) returns (t': Trace)
    requires Runs(t) && VoteMsg(req) in t.s.net && v in t.s.nodes && v != req.cand && req.term > t.s.nodes[v].term
    ensures GoesOn(t, t') && Runs(t') && t'.s.proposed == t.s.proposed
    ensures forall u :: u in t.s.nodes && u != v ==> t'.s.nodes[u] == t.s.nodes[u]
    ensures Is(t'.s.nodes[v], View(req.term, Follower, t.s.nodes[v].log)) && Rest(t.s.nodes[v], t'.s.nodes[v])
    ensures t'.s.nodes[v].commitIndex == t.s.nodes[v].commitIndex
  {
    hide Runs, HandleRequestVote, LogUpToDate;
    t' := Act(t, AnswerVote(v, VoteMsg(req)));
    Voted(t.s.nodes[v], req);
  }

  // ------------------------------------------------------------------
  // The applier
  // ------------------------------------------------------------------

  /** Only the applier's own state differs. */
  predicate SameBut(s: Node, s': Node) {
    && Is(s', View(s.term, s.role, s.log)) && s'.commitIndex == s.commitIndex && s'.lead == s.lead
    && s'.appl.pending == s.appl.pending
  }

  predicate AppliesAt(s: Node, es: seq<Entry>, done: nat) {
    && s.appl.phase.Applying? && s.appl.phase.entries == es && |s.appl.phase.results| == done <= |es|
  }

  lemma {:induction false} AppliesRest(t: Trace, n: NodeId, es: seq<Entry>, done: nat) returns (t': Trace)
    requires Runs(t) && n in t.s.nodes && AppliesAt(t.s.nodes[n], es, done)
    ensures GoesOn(t, t') && Runs(t') && t'.s.proposed == t.s.proposed && OthersKept(t.s, t'.s, n, n)
    ensures SameBut(t.s.nodes[n], t'.s.nodes[n]) && AppliesAt(t'.s.nodes[n], es, |es|)
    ensures t'.s.nodes[n].disk == t.s.nodes[n].disk && t'.s.nodes[n].appl.lastApplied == t.s.nodes[n].appl.lastApplied
    decreases |es| - done
  {
    hide Runs, GoesOn;
    if done == |es| {
      t' := t;
      GoesOnRefl(t);
    } else {
      var t1 := Applies(t, n, ApplyNext);
      GoesOnKeeps(t, t1);
      t' := AppliesRest(t1, n, es, done + 1);
      GoesOnTrans(t, t1, t');
    }
  }

  lemma GoesOnKeeps(t: Trace, t': Trace)
    requires GoesOn(t, t')
    ensures Runs(t) && Runs(t') && Grows(t.s, t'.s)
  {
    hide Runs;
  }

  /** Everything committed is applied, and a snapshot of it is stored. */
  ghost predicate Stored(s: Node, s': Node) {
    && SameBut(s, s')
    && s'.appl.lastApplied == s.commitIndex
    && s'.appl.phase == Saved(s.commitIndex, TermIn(s.log, s.commitIndex))
    && s'.disk.snap.Some? && s'.disk.snap.value.index == s.commitIndex
    && s'.disk.snap.value.term == TermIn(s.log, s.commitIndex)
  }

  /** The applier is idle with entries to apply, and any entry calls for a snapshot. */
  ghost predicate Ready(cfg: Config, s: Node) {
    && cfg.snapshotThreshold == 1
    && s.appl.phase == Idle && s.appl.pending == None
    && s.log.snapIndex <= s.appl.lastApplied < s.commitIndex <= LastIndex(s.log)
    && SnapIndex(s.disk) < s.commitIndex
    && s.log.entries[s.commitIndex - s.log.snapIndex - 1].index == s.commitIndex
  }

  /** The applier takes all committed entries and applies them. */
  lemma AppliesAll(t: Trace, n: NodeId) returns (t': Trace, es: seq<Entry>)
    requires Runs(t) && n in t.s.nodes && Ready(Cfg(t.s, n), t.s.nodes[n])
    ensures GoesOn(t, t') && Runs(t') && t'.s.proposed == t.s.proposed && OthersKept(t.s, t'.s, n, n)
    ensures SameBut(t.s.nodes[n], t'.s.nodes[n]) && AppliesAt(t'.s.nodes[n], es, |es|)
    ensures t'.s.nodes[n].disk == t.s.nodes[n].disk && t'.s.nodes[n].appl.lastApplied == t.s.nodes[n].appl.lastApplied
    ensures |es| > 0 && es[|es| - 1].index == t.s.nodes[n].commitIndex
  {
    hide Runs, GoesOn, Others;
    var s := t.s.nodes[n];
    es := Slice(s.log, s.appl.lastApplied + 1, s.commitIndex);
    var t1 := Applies(t, n, TakeWork);
    GoesOnKeeps(t, t1);
    t' := AppliesRest(t1, n, es, 0);
    GoesOnTrans(t, t1, t');
    GoesOnKeeps(t, t');
  }

  lemma Snapshots(t: Trace, n: NodeId) returns (t': Trace)
    requires Runs(t) && n in t.s.nodes && Ready(Cfg(t.s, n), t.s.nodes[n])
    ensures GoesOn(t, t') && Runs(t') && t'.s.proposed == t.s.proposed && OthersKept(t.s, t'.s, n, n)
    ensures Stored(t.s.nodes[n], t'.s.nodes[n])
  {
    hide Runs, GoesOn, Others, AppliesAt;
    var k := t.s.nodes[n].commitIndex;
    var t1, es := AppliesAll(t, n);
    GoesOnKeeps(t, t1);
    var t2 := Finishes(t1, n, es, k);
    GoesOnTrans(t, t1, t2);
    GoesOnKeeps(t, t2);
    t' := Stores(t2, n, k);
    GoesOnTrans(t, t2, t');
    GoesOnKeeps(t, t');
  }

  lemma Finishes(t: Trace, n: NodeId, es: seq<Entry>, k: nat) returns (t': Trace)
    requires Runs(t) && n in t.s.nodes && AppliesAt(t.s.nodes[n], es, |es|) && |es| > 0 && es[|es| - 1].index == k
    requires Cfg(t.s, n).snapshotThreshold == 1 && t.s.nodes[n].log.snapIndex < k && t.s.nodes[n].appl.lastApplied <= k
    ensures GoesOn(t, t') && Runs(t') && t'.s.proposed == t.s.proposed && OthersKept(t.s, t'.s, n, n)
    ensures SameBut(t.s.nodes[n], t'.s.nodes[n]) && t'.s.nodes[n].disk == t.s.nodes[n].disk
    ensures t'.s.nodes[n].appl.lastApplied == k && t'.s.nodes[n].appl.phase == SnapshotDue(k)
  {
    hide Runs, GoesOn, Others, AppliedAnswers;
    t' := Applies(t, n, ApplyDone);
    GoesOnKeeps(t, t');
  }

  lemma Stores(t: Trace, n: NodeId, k: nat) returns (t': Trace)
    requires Runs(t) && n in t.s.nodes && t.s.nodes[n].appl.phase == SnapshotDue(k) && Has(t.s.nodes[n].log, k)
    requires SnapIndex(t.s.nodes[n].disk) < k && t.s.nodes[n].appl.lastApplied == k == t.s.nodes[n].commitIndex
    ensures GoesOn(t, t') && Runs(t') && t'.s.proposed == t.s.proposed && OthersKept(t.s, t'.s, n, n)
    ensures Stored(t.s.nodes[n], t'.s.nodes[n])
  {
    hide Runs, GoesOn, Others;
    var t1 := Applies(t, n, TakeSnapshot);
    GoesOnKeeps(t, t1);
    t' := Applies(t1, n, StoreSnapshot);
    GoesOnTrans(t, t1, t');
    GoesOnKeeps(t, t');
  }
}
