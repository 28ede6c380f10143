/** A snapshot read from storage after its sender stepped down can break state
    machine safety: a run of seven replicas in which two of them commit
    different entries at index 2. Every step is one the source can take; the
    only step out of the ordinary is the late read.

    Replica 1 leads term 1, decides to send 7 a snapshot and loses its office.
    Replica 6 leads term 2, replica 5 leads term 3, both with a request to 7
    under way; 6 starts a campaign for term 4 and replica 4 leads term 5. Then
    1, long a follower, reads its snapshot of term 5 and sends it as of term 1.
    On top of it 7 takes an entry of term 2, acknowledges 5's entry of term 3,
    which 5 then commits, and elects 6, whose log contradicts both. */
module LateRead {
  import opened Types
  import opened Quorum
  import opened LogSpec
  import opened DiskSpec
  import opened CommitRule
  import opened Replica
  import opened Cluster
  import opened NodeLeader
  import opened Traces
  import opened Episodes
  import opened Safety

  // ------------------------------------------------------------------
  // The cast
  // ------------------------------------------------------------------

  const PEERS: seq<NodeId> := [1, 2, 3, 4, 5, 6, 7]

  ghost predicate Setup(s: Group) {
    && s.peers == PEERS && s.maxAppendEntries == 8 && s.snapshotThreshold == 1
    && forall n :: 1 <= n <= 7 ==> n in s.nodes
  }

  function Log(es: seq<Entry>): LogState {
    LogState(0, 0, es)
  }

  lemma Members()
    ensures Distinct(PEERS) && |PEERS| == 7 && forall p :: p in PEERS <==> 1 <= p <= 7
  {
    forall p | 1 <= p <= 7
      ensures p in PEERS
    {
      assert PEERS[p - 1] == p;
    }
  }

  lemma Seven(n: NodeId)
    requires 1 <= n <= 7
    ensures Distinct(PEERS) && Distinct(Others(PEERS, n)) && |Others(PEERS, n)| == 6
    ensures forall p :: p in Others(PEERS, n) <==> 1 <= p <= 7 && p != n
    ensures |PeerSet(PEERS)| == 7 && forall p :: p in PeerSet(PEERS) <==> 1 <= p <= 7
  {
    hide Others, Distinct;
    Members();
    OthersFacts(PEERS, n);
  }

  lemma Majority(n: NodeId, a: NodeId, b: NodeId, c: NodeId)
    requires 1 <= n <= 7 && 1 <= a <= 7 && 1 <= b <= 7 && 1 <= c <= 7
    requires n != a && n != b && n != c && a != b && a != c && b != c
    ensures IsQuorum(PeerSet(PEERS), SetOf([a, b, c]) + {n})
  {
    hide Others, Distinct, PeerSet, SetOf;
    Seven(n);
    FourNodes(n, a, b, c);
  }

  lemma FourNodes(n: NodeId, a: NodeId, b: NodeId, c: NodeId)
    requires n != a && n != b && n != c && a != b && a != c && b != c
    ensures |SetOf([a, b, c]) + {n}| == 4 && forall p :: p in SetOf([a, b, c]) + {n} <==> p in {a, b, c, n}
  {
    var ab := {a} + {b};
    var abc := ab + {c};
    assert |ab| == 2;
    assert |abc| == 3;
    assert SetOf([a, b, c]) == abc;
    assert |abc + {n}| == 4;
  }

  const A1 := Entry(1, 1, Noop)
  const X2 := Entry(2, 2, Noop)
  const E2 := Entry(2, 3, Noop)
  const B3 := Entry(3, 5, Noop)
  const X5 := Entry(5, 4, Noop)

  function XLog(cmd: Command): seq<Entry> {
    [A1, X2, Entry(3, 2, Normal(cmd)), Entry(4, 2, Normal(cmd))]
  }

  ghost function Start(w: Machine): Group {
    Group(PEERS, w, 8, 1, Everywhere<Node>(PEERS, Boot(w, EMPTY_DISK)), {}, {}, {}, 0, map[], {}, {}, {})
  }

  // ------------------------------------------------------------------
  // Term 1: replica 1 commits, snapshots and decides to send the snapshot
  // ------------------------------------------------------------------

  lemma Starts(w: Machine) returns (t: Trace)
    ensures Runs(t) && Run(t)[0].machine == w && Setup(t.s) && t.s.proposed == map[]
    ensures forall n :: 1 <= n <= 7 ==> t.s.nodes[n] == Boot(w, EMPTY_DISK)
  {
    t := Trace([], Start(w), []);
    assert Run(t) == [Start(w)];
    EverywhereReads<Node>(PEERS, Boot(w, EMPTY_DISK));
    Members();
    assert Init(Start(w));
  }

  ghost predicate Scene1(s: Group, w: Machine) {
    && Setup(s) && s.proposed == map[]
    && TookOffice(Others(PEERS, 1), Boot(w, EMPTY_DISK), s.nodes[1])
    && (forall n :: 2 <= n <= 4 ==> Is(s.nodes[n], View(1, Follower, Log([]))) && s.nodes[n].commitIndex == 0)
    && (forall n :: 5 <= n <= 7 ==> s.nodes[n] == Boot(w, EMPTY_DISK))
  }

  lemma Act1(w: Machine) returns (t: Trace)
    ensures Runs(t) && Run(t)[0].machine == w && Scene1(t.s, w)
  {
    hide Runs, Others, Rest, InOrder, Get, GoesOn, TookOffice;
    var t0 := Starts(w);
    t := Office(t0, 1, 2, 3, 4, 2, 3, 4);
    SameStart(t0, t);
    assert 2 in [2, 3, 4] && 3 in [2, 3, 4] && 4 in [2, 3, 4];
  }

  lemma SameStart(t: Trace, t': Trace)
    requires GoesOn(t, t')
    ensures Run(t')[0] == Run(t)[0]
  {
    hide Runs;
  }

  lemma DistinctThree(a: NodeId, b: NodeId, c: NodeId)
    requires a != b && a != c && b != c
    ensures Distinct([a, b, c])
  {
  }

  /** What a stretch of steps keeps of the setting. */
  lemma Onward(t: Trace, t': Trace)
    requires GoesOn(t, t')
    ensures Runs(t) && Runs(t') && Run(t) <= Run(t') && t.steps <= t'.steps
    ensures Setup(t.s) ==> Setup(t'.s)
    ensures t.s.net <= t'.s.net && t.s.intents <= t'.s.intents && t'.s.nodes.Keys == t.s.nodes.Keys
    ensures t'.s.peers == t.s.peers && t'.s.maxAppendEntries == t.s.maxAppendEntries
  {
    hide Runs;
  }

  // ------------------------------------------------------------------
  // Round trips of a leader that has compacted nothing
  // ------------------------------------------------------------------

  /** What the leader knows of a peer. */
  predicate At(s: Node, p: NodeId, next: nat, held: nat) {
    Get(s.lead.nextIndex, p) == next && Get(s.lead.matchIndex, p) == held
  }

  ghost predicate Sender(s: Group, n: NodeId, p: NodeId, next: nat) {
    && Setup(s) && 1 <= n <= 7 && 1 <= p <= 7 && p != n
    && s.nodes[n].role == Leader && InOrder(s.nodes[n]) && s.nodes[p].term <= s.nodes[n].term
    && s.nodes[n].log.snapIndex == 0 && LastIndex(s.nodes[n].log) <= 8
    && At(s.nodes[n], p, next, 0) && 1 <= next <= LastIndex(s.nodes[n].log)
  }

  function Request(s: Node, n: NodeId, next: nat): AppendReq
    requires 1 <= next <= |s.log.entries|
  {
    AppendReq(s.term, n, next - 1, TermIn(s.log, next - 1), s.log.entries[next - 1..], s.commitIndex)
  }

  lemma Gives(t: Trace, n: NodeId, p: NodeId, next: nat, q: set<NodeId>) returns (t': Trace)
    requires Runs(t) && Sender(t.s, n, p, next) && Continues(t.s.nodes[p].log, Request(t.s.nodes[n], n, next))
    ensures GoesOn(t, t') && Runs(t') && t'.s.proposed == t.s.proposed && OthersKept(t.s, t'.s, n, p) && Setup(t'.s)
    ensures var s, s', peer, peer' := t.s.nodes[n], t'.s.nodes[n], t.s.nodes[p], t'.s.nodes[p];
            && Is(peer', View(s.term, Follower, Continued(peer.log, s.log.entries[next - 1..]))) && Rest(peer, peer')
            && peer'.commitIndex == Max(peer.commitIndex, Min(s.commitIndex, LastIndex(s.log)))
            && Confirmed(Cfg(t.s, n), s, s', p, LastIndex(s.log), q)
  {
    hide Runs, Others, Distinct, InOrder, GoesOn, PrepareAppend, Continues, Continued, Confirmed, TermIn, OthersKept,
         Rest;
    Seven(n);
    Built(Cfg(t.s, n), t.s.nodes[n], p);
    t' := Delivers(t, n, p, q);
    Onward(t, t');
  }

  lemma Fails(t: Trace, n: NodeId, p: NodeId, next: nat) returns (t': Trace)
    requires Runs(t) && Sender(t.s, n, p, next) && t.s.nodes[p].log.snapIndex <= next - 1
    requires var l := t.s.nodes[p].log;
             next - 1 > LastIndex(l) || TermIn(l, next - 1) != TermIn(t.s.nodes[n].log, next - 1)
    ensures GoesOn(t, t') && Runs(t') && t'.s.proposed == t.s.proposed && OthersKept(t.s, t'.s, n, p) && Setup(t'.s)
    ensures MovedTo(t.s.nodes[p], t'.s.nodes[p], t.s.nodes[n].term)
    ensures var s, s' := t.s.nodes[n], t'.s.nodes[n];
            && Is(s', View(s.term, Leader, s.log)) && Rest(s, s') && InOrder(s') && s'.commitIndex == s.commitIndex
            && s'.lead.matchIndex == s.lead.matchIndex
            && s'.lead.nextIndex ==
                 s.lead.nextIndex[p := BacktrackTo(s, Refusal(Request(s, n, next), t.s.nodes[p].log))]
  {
    hide Runs, Others, Distinct, InOrder, GoesOn, PrepareAppend, BacktrackTo, Refusal, OthersKept, Rest, MovedTo;
    Seven(n);
    Built(Cfg(t.s, n), t.s.nodes[n], p);
    t' := Bounces(t, n, p);
    Onward(t, t');
  }

  // ------------------------------------------------------------------
  // Term 1, continued
  // ------------------------------------------------------------------

  ghost predicate Leader1(s: Node, w: Machine) {
    Is(s, View(1, Leader, Log([A1]))) && InOrder(s) && Rest(Boot(w, EMPTY_DISK), s)
  }

  predicate Holds1(s: Node) {
    Is(s, View(1, Follower, Log([A1]))) && s.commitIndex <= 1
  }

  /** Replica `p` of 4, 5 and 6, still as it started, takes replica 1's first entry. */
  lemma Give1(t: Trace, w: Machine, p: NodeId) returns (t': Trace)
    requires Runs(t) && Setup(t.s) && Leader1(t.s.nodes[1], w) && 4 <= p <= 6 && At(t.s.nodes[1], p, 1, 0)
    requires t.s.nodes[p].term <= 1 && t.s.nodes[p].log == Log([]) && t.s.nodes[p].commitIndex == 0
    ensures GoesOn(t, t') && Runs(t') && t'.s.proposed == t.s.proposed && OthersKept(t.s, t'.s, 1, p) && Setup(t'.s)
    ensures Leader1(t'.s.nodes[1], w) && Holds1(t'.s.nodes[p])
    ensures Confirmed(Cfg(t.s, 1), t.s.nodes[1], t'.s.nodes[1], p, 1, {4, 5, 6})
  {
    hide Runs, Others, InOrder, GoesOn, OthersKept, LastHeld;
    assert t.s.nodes[1].log.entries[0..] == [A1];
    t' := Gives(t, 1, p, 1, {4, 5, 6});
    Onward(t, t');
    assert Continued(Log([]), [A1]) == Log([A1]);
  }

  lemma ConfirmedAt(cfg: Config, s: Node, s': Node, p: NodeId, m: nat, q: set<NodeId>)
    requires Confirmed(cfg, s, s', p, m, q)
    ensures At(s', p, m + 1, m)
    ensures forall r, next, held :: r != p && At(s, r, next, held) ==> At(s', r, next, held)
  {
    hide LastHeld, InOrder, Rest;
  }

  /** Three peers hold the leader's whole log. */
  lemma ThreeHold(g: Group, n: NodeId, s: Node, a: NodeId, b: NodeId, c: NodeId)
    requires Setup(g) && 1 <= n <= 7 && 1 <= a <= 7 && 1 <= b <= 7 && 1 <= c <= 7
    requires n != a && n != b && n != c && a != b && a != c && b != c
    requires var last := LastIndex(s.log);
             At(s, a, last + 1, last) && At(s, b, last + 1, last) && At(s, c, last + 1, last)
                 && TermIn(s.log, last) == s.term
    ensures LastHeld(Cfg(g, n), s, {a, b, c})
  {
    hide Others, Distinct, TermIn;
    Seven(n);
    assert {a, b, c} == {a} + {b} + {c};
    assert |{a} + {b}| == 2;
  }

  ghost predicate Scene2(s: Group, w: Machine) {
    && Setup(s) && s.proposed == map[]
    && Leader1(s.nodes[1], w) && s.nodes[1].commitIndex == 1 && At(s.nodes[1], 7, 1, 0)
    && Is(s.nodes[2], View(1, Follower, Log([]))) && Is(s.nodes[3], View(1, Follower, Log([])))
    && s.nodes[3].commitIndex == 0
    && Holds1(s.nodes[4]) && Holds1(s.nodes[5]) && Holds1(s.nodes[6])
    && s.nodes[7] == Boot(w, EMPTY_DISK)
  }

  lemma Act2(t: Trace, w: Machine) returns (t': Trace)
    requires Runs(t) && Scene1(t.s, w)
    ensures GoesOn(t, t') && Runs(t') && Scene2(t'.s, w)
  {
    hide Runs, GoesOn, Holds1, Confirmed, At, TookOffice, Others, LastHeld, InOrder, Rest;
    Begin1(t.s, w);
    var t1 := Give1(t, w, 4);
    ConfirmedAt(Cfg(t.s, 1), t.s.nodes[1], t1.s.nodes[1], 4, 1, {4, 5, 6});
    var t2 := Give1(t1, w, 5);
    ConfirmedAt(Cfg(t1.s, 1), t1.s.nodes[1], t2.s.nodes[1], 5, 1, {4, 5, 6});
    t' := Give1(t2, w, 6);
    ConfirmedAt(Cfg(t2.s, 1), t2.s.nodes[1], t'.s.nodes[1], 6, 1, {4, 5, 6});
    Committed1(t2.s, t2.s.nodes[1], t'.s.nodes[1], w);
    GoesOnTrans(t, t1, t2);
    GoesOnTrans(t, t2, t');
  }

  lemma Committed1(g: Group, s: Node, s': Node, w: Machine)
    requires Setup(g) && Leader1(s', w) && Confirmed(Cfg(g, 1), s, s', 6, 1, {4, 5, 6})
    requires At(s', 4, 2, 1) && At(s', 5, 2, 1) && At(s', 6, 2, 1)
    ensures s'.commitIndex == 1
  {
    hide Others, InOrder, Rest, At, LastHeld;
    ThreeHold(g, 1, s', 4, 5, 6);
  }

  lemma Begin1(s: Group, w: Machine)
    requires Scene1(s, w)
    ensures Leader1(s.nodes[1], w)
    ensures At(s.nodes[1], 4, 1, 0) && At(s.nodes[1], 5, 1, 0) && At(s.nodes[1], 6, 1, 0) && At(s.nodes[1], 7, 1, 0)
  {
    hide InOrder, Others;
    Seven(1);
  }

  /** Replica 1 has applied and stored a snapshot of its first entry. */
  predicate Snapped(s: Node) {
    && s.appl.lastApplied == 1 && s.appl.phase == Idle && s.appl.pending == None
    && s.disk.snap.Some? && s.disk.snap.value.index == 1
  }

  ghost predicate Scene3(s: Group, w: Machine) {
    && Setup(s) && s.proposed == map[] && Intent(1, 7, 1) in s.intents
    && Is(s.nodes[1], View(1, Leader, LogState(1, 1, []))) && Snapped(s.nodes[1]) && s.nodes[1].commitIndex == 1
    && Is(s.nodes[2], View(1, Follower, Log([]))) && Is(s.nodes[3], View(1, Follower, Log([])))
    && s.nodes[3].commitIndex == 0
    && Holds1(s.nodes[4]) && Holds1(s.nodes[5]) && Holds1(s.nodes[6])
    && s.nodes[7] == Boot(w, EMPTY_DISK)
  }

  lemma Compacted1(cfg: Config, s: Node, s': Node, w: Machine)
    requires Leader1(s, w) && s.commitIndex == 1 && At(s, 7, 1, 0) && Stored(s, s')
    ensures ApplierEnabled(s', CompactLog)
    ensures var s2 := ApplierDo(cfg, s', CompactLog).0;
            && Is(s2, View(1, Leader, LogState(1, 1, []))) && Snapped(s2) && s2.commitIndex == 1 && At(s2, 7, 1, 0)
  {
    hide InOrder;
  }

  lemma Act3(t: Trace, w: Machine) returns (t': Trace)
    requires Runs(t) && Scene2(t.s, w)
    ensures GoesOn(t, t') && Runs(t') && Scene3(t'.s, w)
  {
    hide Runs, GoesOn, Others, InOrder, Holds1, Is, Snapped, Stored, ApplierDo, ApplierEnabled;
    assert Ready(Cfg(t.s, 1), t.s.nodes[1]) by { Ready1(t.s, w); }
    var t1 := Snapshots(t, 1);
    Onward(t, t1);
    Compacted1(Cfg(t1.s, 1), t.s.nodes[1], t1.s.nodes[1], w);
    var t2 := Applies(t1, 1, CompactLog);
    Onward(t1, t2);
    t' := Decides(t2);
    Onward(t2, t');
    GoesOnTrans(t, t1, t2);
    GoesOnTrans(t, t2, t');
  }

  lemma Ready1(s: Group, w: Machine)
    requires Scene2(s, w)
    ensures Ready(Cfg(s, 1), s.nodes[1])
  {
    hide Others, InOrder;
  }

  lemma Decides(t: Trace) returns (t': Trace)
    requires Runs(t) && Setup(t.s) && Is(t.s.nodes[1], View(1, Leader, LogState(1, 1, []))) && At(t.s.nodes[1], 7, 1, 0)
    ensures GoesOn(t, t') && Runs(t') && t'.s.proposed == t.s.proposed && t'.s.nodes == t.s.nodes
            && Intent(1, 7, 1) in t'.s.intents
  {
    hide Runs, GoesOn, Others;
    Seven(1);
    t' := Act(t, DecideSnapshot(1, 7));
    Onward(t, t');
    assert t'.s.nodes == t.s.nodes;
  }

  // ------------------------------------------------------------------
  // Term 2: replica 6 leads, with a request to 7 under way
  // ------------------------------------------------------------------

  /** The request of replica 6, the leader of term 2, to replica 7. */
  predicate FromX(m: Msg, cmd: Command) {
    && m.AppendMsg? && m.to == 7
    && m.append == AppendReq(2, 6, 1, 1, XLog(cmd)[1..], m.append.commit)
  }

  ghost predicate Scene4(s: Group, w: Machine, cmd: Command, mx: Msg) {
    && Setup(s) && Intent(1, 7, 1) in s.intents && mx in s.net && FromX(mx, cmd)
    && Is(s.nodes[1], View(2, Follower, LogState(1, 1, []))) && Snapped(s.nodes[1]) && s.nodes[1].commitIndex == 1
    && Is(s.nodes[2], View(2, Follower, Log([]))) && Is(s.nodes[3], View(1, Follower, Log([])))
    && s.nodes[3].commitIndex == 0
    && Holds1(s.nodes[4]) && Is(s.nodes[5], View(2, Follower, Log([A1]))) && s.nodes[5].commitIndex <= 1
    && Is(s.nodes[6], View(2, Leader, Log(XLog(cmd)))) && s.nodes[6].commitIndex <= 4
    && s.nodes[7] == Boot(w, EMPTY_DISK)
  }

  /** An election in the setting: three pre-votes and three votes. */
  lemma Office(t: Trace, n: NodeId, a: NodeId, b: NodeId, c: NodeId, x: NodeId, y: NodeId, z: NodeId)
      returns (t': Trace)
    requires Runs(t) && Setup(t.s) && 1 <= n <= 7 && t.s.nodes[n].role != Leader
             && t.s.nodes[n].commitIndex <= LastIndex(t.s.nodes[n].log)
    requires 1 <= a <= 7 && 1 <= b <= 7 && 1 <= c <= 7 && n != a && n != b && n != c && a != b && a != c && b != c
    requires 1 <= x <= 7 && 1 <= y <= 7 && 1 <= z <= 7 && n != x && n != y && n != z && x != y && x != z && y != z
    requires t.s.nodes[a].role != Leader && t.s.nodes[b].role != Leader && t.s.nodes[c].role != Leader
    requires MayElect(t.s.nodes[a], t.s.nodes[n]) && MayElect(t.s.nodes[b], t.s.nodes[n])
             && MayElect(t.s.nodes[c], t.s.nodes[n])
    requires MayElect(t.s.nodes[x], t.s.nodes[n]) && MayElect(t.s.nodes[y], t.s.nodes[n])
             && MayElect(t.s.nodes[z], t.s.nodes[n])
    ensures GoesOn(t, t') && Runs(t') && t'.s.proposed == t.s.proposed && Setup(t'.s)
            && Elected(t.s, t'.s, n, [x, y, z])
    ensures t.s.net <= t'.s.net && t.s.intents <= t'.s.intents
  {
    hide Runs, GoesOn, Others, PeerSet, IsQuorum, Distinct, MayElect, Elected;
    Majority(n, a, b, c);
    Majority(n, x, y, z);
    DistinctThree(x, y, z);
    t' := Elects(t, n, [a, b, c], [x, y, z]);
    Onward(t, t');
  }

  /** What an election leaves, replica by replica. */
  lemma ElectedNodes(s: Group, s': Group, n: NodeId, x: NodeId, y: NodeId, z: NodeId)
    requires Setup(s) && Setup(s') && Elected(s, s', n, [x, y, z]) && 1 <= n <= 7
    requires 1 <= x <= 7 && 1 <= y <= 7 && 1 <= z <= 7
    ensures var t := s.nodes[n].term + 1;
            MovedTo(s.nodes[x], s'.nodes[x], t) && MovedTo(s.nodes[y], s'.nodes[y], t)
                && MovedTo(s.nodes[z], s'.nodes[z], t)
    ensures forall v :: 1 <= v <= 7 && v != x && v != y && v != z && v != n ==> s'.nodes[v] == s.nodes[v]
    ensures var node, node' := s.nodes[n], s'.nodes[n]; var last := LastIndex(node.log);
            && Is(node', View(node.term + 1, Leader, AppendTo(node.log, [Entry(last + 1, node.term + 1, Noop)])))
            && InOrder(node')
            && node'.lead.transferTarget == NO_NODE
            && forall p, next :: 1 <= p <= 7 && p != n && next == last + 1 ==> At(node', p, next, 0)
  {
    hide Others, InOrder, MovedTo;
    Seven(n);
    assert x in [x, y, z] && y in [x, y, z] && z in [x, y, z];
  }

  lemma Elect4(t: Trace, w: Machine) returns (t': Trace)
    requires Runs(t) && Scene3(t.s, w)
    ensures GoesOn(t, t') && Runs(t') && Setup(t'.s) && t'.s.proposed == map[] && t.s.intents <= t'.s.intents
    ensures Elected(t.s, t'.s, 6, [1, 2, 5])
  {
    hide Runs, GoesOn, Elected;
    t' := Office(t, 6, 2, 3, 4, 1, 2, 5);
  }

  lemma Proposes(t: Trace, n: NodeId, cmd: Command) returns (t': Trace)
    requires Runs(t) && Setup(t.s) && 1 <= n <= 7 && t.s.proposed == map[]
    requires t.s.nodes[n].role == Leader && InOrder(t.s.nodes[n]) && t.s.nodes[n].lead.transferTarget == NO_NODE
    ensures GoesOn(t, t') && Runs(t') && Setup(t'.s) && OthersKept(t.s, t'.s, n, n)
    ensures var s, s' := t.s.nodes[n], t'.s.nodes[n];
            && Is(s', View(s.term, Leader,
              AppendTo(s.log, ProposalEntries(LastIndex(s.log), s.term, [(0, cmd), (1, cmd)]))))
            && InOrder(s') && s'.lead == s.lead
  {
    hide Runs, GoesOn, Others, InOrder, AppendProposals;
    var batch := [(0, cmd), (1, cmd)];
    t' := Act(t, Propose(n, batch));
    Onward(t, t');
    ProposedView(Cfg(t.s, n), t.s.nodes[n], batch);
  }

  lemma ProposedView(cfg: Config, s: Node, batch: seq<(nat, Command)>)
    requires s.role == Leader && InOrder(s) && s.lead.transferTarget == NO_NODE
    ensures var s' := AppendProposals(cfg, s, batch).0;
            && Is(s', View(s.term, Leader, AppendTo(s.log, ProposalEntries(LastIndex(s.log), s.term, batch))))
            && InOrder(s') && s'.lead == s.lead
  {
    hide AdvanceCommit, AddWaiters, Save;
    var s1 := GrowLog(s, ProposalEntries(LastIndex(s.log), s.term, batch));
    Advanced(cfg, s1.(waiters := AddWaiters(s1.waiters, LastIndex(s.log), s.term, batch)));
  }

  /** The leader sends replica 7 everything from `next` on. */
  lemma SendsTo7(t: Trace, n: NodeId, next: nat) returns (t': Trace, m: Msg)
    requires Runs(t) && Setup(t.s) && 1 <= n <= 6 && t.s.nodes[n].role == Leader
    requires t.s.nodes[n].log.snapIndex == 0 && LastIndex(t.s.nodes[n].log) <= 8
    requires At(t.s.nodes[n], 7, next, 0) && 1 <= next <= LastIndex(t.s.nodes[n].log)
    ensures GoesOn(t, t') && Runs(t') && Setup(t'.s) && t'.s.nodes == t.s.nodes && t.s.net <= t'.s.net
            && t.s.intents <= t'.s.intents
    ensures m in t'.s.net && m.AppendMsg? && m.to == 7 && m.append == Request(t.s.nodes[n], n, next)
  {
    hide Runs, GoesOn, Others, PrepareAppend, TermIn;
    Seven(n);
    Built(Cfg(t.s, n), t.s.nodes[n], 7);
    t', m := Sends(t, n, 7);
    Onward(t, t');
  }

  lemma Act4(t: Trace, w: Machine, cmd: Command) returns (t': Trace, mx: Msg)
    requires Runs(t) && Scene3(t.s, w)
    ensures GoesOn(t, t') && Runs(t') && Scene4(t'.s, w, cmd, mx)
  {
    hide Runs, GoesOn, Elected, InOrder, Snapped, MovedTo;
    var t1 := Elect4(t, w);
    ElectedNodes(t.s, t1.s, 6, 1, 2, 5);
    assert Is(t1.s.nodes[6], View(2, Leader, Log([A1, X2]))) by { Grown6(t.s.nodes[6], t1.s.nodes[6]); }
    assert At(t1.s.nodes[6], 7, 2, 0);
    var t2 := Proposes(t1, 6, cmd);
    Onward(t1, t2);
    assert Is(t2.s.nodes[6], View(2, Leader, Log(XLog(cmd)))) by { Proposed6(t1.s.nodes[6], t2.s.nodes[6], cmd); }
    t', mx := SendsTo7(t2, 6, 2);
    GoesOnTrans(t, t1, t2);
    GoesOnTrans(t, t2, t');
    Settled4(t, t1, t2, t', w, cmd, mx);
  }

  lemma Grown6(s: Node, s': Node)
    requires Holds1(s) && Is(s', View(2, Leader, AppendTo(s.log, [Entry(2, 2, Noop)])))
    ensures Is(s', View(2, Leader, Log([A1, X2])))
  {
  }

  lemma Proposed6(s: Node, s': Node, cmd: Command)
    requires Is(s, View(2, Leader, Log([A1, X2])))
    requires Is(s', View(2, Leader, AppendTo(s.log, ProposalEntries(2, 2, [(0, cmd), (1, cmd)]))))
    ensures Is(s', View(2, Leader, Log(XLog(cmd))))
  {
    assert ProposalEntries(2, 2, [(0, cmd), (1, cmd)]) == [Entry(3, 2, Normal(cmd)), Entry(4, 2, Normal(cmd))];
  }

  lemma Settled4(t: Trace, t1: Trace, t2: Trace, t': Trace, w: Machine, cmd: Command, mx: Msg)
    requires Scene3(t.s, w) && Setup(t1.s) && Setup(t2.s) && Setup(t'.s)
             && t.s.intents <= t1.s.intents <= t2.s.intents <= t'.s.intents
    requires MovedTo(t.s.nodes[1], t1.s.nodes[1], 2) && MovedTo(t.s.nodes[2], t1.s.nodes[2], 2)
             && MovedTo(t.s.nodes[5], t1.s.nodes[5], 2)
    requires forall v :: v == 3 || v == 4 || v == 7 ==> t1.s.nodes[v] == t.s.nodes[v]
    requires OthersKept(t1.s, t2.s, 6, 6) && t'.s.nodes == t2.s.nodes
    requires Is(t2.s.nodes[6], View(2, Leader, Log(XLog(cmd)))) && InOrder(t2.s.nodes[6])
    requires mx in t'.s.net && mx.AppendMsg? && mx.to == 7 && mx.append == Request(t2.s.nodes[6], 6, 2)
    ensures Scene4(t'.s, w, cmd, mx)
  {
  }

  // ------------------------------------------------------------------
  // Term 3: replica 5 leads, with a request to 7 under way
  // ------------------------------------------------------------------

  const ELOG := [A1, E2]

  predicate FromE(m: Msg) {
    m.AppendMsg? && m.to == 7 && m.append == AppendReq(3, 5, 1, 1, [E2], m.append.commit)
  }

  /** Replica 5 leads term 3; 3 and 4 hold its log. */
  ghost predicate Leader5(s: Node) {
    && Is(s, View(3, Leader, Log(ELOG))) && InOrder(s)
    && At(s, 3, 3, 2) && At(s, 4, 3, 2) && At(s, 7, 2, 0)
  }

  ghost predicate Mail(s: Group, cmd: Command, mx: Msg, me: Msg) {
    && Intent(1, 7, 1) in s.intents && mx in s.net && FromX(mx, cmd) && me in s.net && FromE(me)
  }

  ghost predicate Scene5(s: Group, w: Machine, cmd: Command, mx: Msg, me: Msg) {
    && Setup(s) && Mail(s, cmd, mx, me) && VoteMsg(VoteReq(3, 5, 1, 1)) in s.net
    && Is(s.nodes[1], View(2, Follower, LogState(1, 1, []))) && Snapped(s.nodes[1]) && s.nodes[1].commitIndex == 1
    && Is(s.nodes[2], View(3, Follower, Log([]))) && Is(s.nodes[3], View(3, Follower, Log(ELOG)))
    && Is(s.nodes[4], View(3, Follower, Log(ELOG))) && s.nodes[4].commitIndex <= 2
    && Leader5(s.nodes[5])
    && Is(s.nodes[6], View(2, Leader, Log(XLog(cmd)))) && s.nodes[6].commitIndex <= 4
    && s.nodes[7] == Boot(w, EMPTY_DISK)
  }

  /** Replica 5 as it takes office in term 3, before it has sent anything. */
  ghost predicate Scene5a(s: Group, w: Machine, cmd: Command, mx: Msg) {
    && Setup(s) && Intent(1, 7, 1) in s.intents && mx in s.net && FromX(mx, cmd)
    && VoteMsg(VoteReq(3, 5, 1, 1)) in s.net
    && Is(s.nodes[1], View(2, Follower, LogState(1, 1, []))) && Snapped(s.nodes[1]) && s.nodes[1].commitIndex == 1
    && Is(s.nodes[2], View(3, Follower, Log([]))) && Is(s.nodes[3], View(3, Follower, Log([])))
    && s.nodes[3].commitIndex == 0
    && Is(s.nodes[4], View(3, Follower, Log([A1]))) && s.nodes[4].commitIndex <= 1
    && Is(s.nodes[5], View(3, Leader, Log(ELOG))) && InOrder(s.nodes[5])
    && At(s.nodes[5], 3, 2, 0) && At(s.nodes[5], 4, 2, 0) && At(s.nodes[5], 7, 2, 0)
    && Is(s.nodes[6], View(2, Leader, Log(XLog(cmd)))) && s.nodes[6].commitIndex <= 4
    && s.nodes[7] == Boot(w, EMPTY_DISK)
  }

  lemma Act5a(t: Trace, w: Machine, cmd: Command, mx: Msg) returns (t': Trace)
    requires Runs(t) && Scene4(t.s, w, cmd, mx)
    ensures GoesOn(t, t') && Runs(t') && Scene5a(t'.s, w, cmd, mx)
  {
    hide Runs, GoesOn, Elected, InOrder, Snapped, FromX, XLog;
    t' := Office(t, 5, 2, 3, 4, 2, 3, 4);
    ElectedNodes(t.s, t'.s, 5, 2, 3, 4);
    ElectedMail(t.s, t'.s, 5, [2, 3, 4]);
  }

  lemma ElectedMail(s: Group, s': Group, n: NodeId, voters: seq<NodeId>)
    requires Elected(s, s', n, voters)
    ensures n in s.nodes
    ensures var node := s.nodes[n];
            VoteMsg(VoteReq(node.term + 1, n, LastIndex(node.log), LastTermIn(node.log))) in s'.net
  {
    hide TookOffice;
  }

  /** A log of replica 5's prefix takes the rest of it. */
  lemma GivesE(t: Trace, p: NodeId, next: nat) returns (t': Trace)
    requires Runs(t) && Setup(t.s) && Is(t.s.nodes[5], View(3, Leader, Log(ELOG))) && InOrder(t.s.nodes[5])
    requires 3 <= p <= 4 && 1 <= next <= 2 && At(t.s.nodes[5], p, next, 0) && t.s.nodes[p].term <= 3
             && t.s.nodes[p].log == Log(ELOG[..next - 1])
    requires t.s.nodes[p].commitIndex <= 2
    ensures GoesOn(t, t') && Runs(t') && Setup(t'.s) && OthersKept(t.s, t'.s, 5, p)
    ensures Is(t'.s.nodes[p], View(3, Follower, Log(ELOG))) && t'.s.nodes[p].commitIndex <= 2
    ensures Is(t'.s.nodes[5], View(3, Leader, Log(ELOG))) && InOrder(t'.s.nodes[5])
    ensures Confirmed(Cfg(t.s, 5), t.s.nodes[5], t'.s.nodes[5], p, 2, {})
  {
    hide Runs, GoesOn, Others, InOrder, LastHeld, OthersKept;
    assert next == 1 ==> ELOG[..0] == [] && ELOG[0..] == ELOG;
    assert next == 2 ==> ELOG[..1] == [A1] && ELOG[1..] == [E2];
    t' := Gives(t, 5, p, next, {});
    assert Continued(Log(ELOG[..next - 1]), ELOG[next - 1..]) == Log(ELOG);
  }

  lemma FailsE(t: Trace) returns (t': Trace)
    requires Runs(t) && Setup(t.s) && Is(t.s.nodes[5], View(3, Leader, Log(ELOG))) && InOrder(t.s.nodes[5])
    requires At(t.s.nodes[5], 3, 2, 0) && Is(t.s.nodes[3], View(3, Follower, Log([])))
    ensures GoesOn(t, t') && Runs(t') && Setup(t'.s) && OthersKept(t.s, t'.s, 5, 3)
            && MovedTo(t.s.nodes[3], t'.s.nodes[3], 3)
    ensures Is(t'.s.nodes[5], View(3, Leader, Log(ELOG))) && InOrder(t'.s.nodes[5]) && At(t'.s.nodes[5], 3, 1, 0)
    ensures forall r, next, held :: r != 3 && At(t.s.nodes[5], r, next, held) ==> At(t'.s.nodes[5], r, next, held)
  {
    hide Runs, GoesOn, Others, InOrder, OthersKept, LastIndexOfTermIn, Rest;
    t' := Fails(t, 5, 3, 2);
  }

  lemma Act5b(t: Trace, w: Machine, cmd: Command, mx: Msg) returns (t': Trace, me: Msg)
    requires Runs(t) && Scene5a(t.s, w, cmd, mx)
    ensures GoesOn(t, t') && Runs(t') && Scene5(t'.s, w, cmd, mx, me)
  {
    hide Runs, GoesOn, InOrder, Snapped, FromX, XLog, Confirmed, At, MovedTo;
    assert ELOG[..1] == [A1] && ELOG[..0] == [];
    var t1 := GivesE(t, 4, 2);
    Onward(t, t1);
    ConfirmedAt(Cfg(t.s, 5), t.s.nodes[5], t1.s.nodes[5], 4, 2, {});
    var t2 := FailsE(t1);
    Onward(t1, t2);
    Moved3(t1.s.nodes[3], t2.s.nodes[3]);
    var t3 := GivesE(t2, 3, 1);
    Onward(t2, t3);
    ConfirmedAt(Cfg(t2.s, 5), t2.s.nodes[5], t3.s.nodes[5], 3, 2, {});
    t', me := SendsTo7(t3, 5, 2);
    assert FromE(me);
    GoesOnTrans(t, t1, t2);
    GoesOnTrans(t, t2, t3);
    GoesOnTrans(t, t3, t');
  }

  lemma Moved3(s: Node, s': Node)
    requires Is(s, View(3, Follower, Log([]))) && MovedTo(s, s', 3) && s.commitIndex <= 2
    ensures Is(s', View(3, Follower, Log([]))) && s'.commitIndex <= 2
  {
  }

  // ------------------------------------------------------------------
  // Term 4: replica 6 campaigns and waits for one more vote
  // ------------------------------------------------------------------

  const REQ4 := VoteReq(4, 6, 4, 2)

  /** Replica 6 stands for term 4 and has the votes of 1 and 2. */
  ghost predicate Standing(s: Group, cmd: Command) {
    && Setup(s) && Is(s.nodes[6], View(4, Candidate, Log(XLog(cmd)))) && s.nodes[6].commitIndex <= 4
    && VoteMsg(REQ4) in s.net && VoteGranted(s.net, 1, 6, 4) && VoteGranted(s.net, 2, 6, 4)
  }

  ghost predicate Scene6(s: Group, w: Machine, cmd: Command, mx: Msg, me: Msg) {
    && Setup(s) && Mail(s, cmd, mx, me) && Standing(s, cmd)
    && Is(s.nodes[1], View(4, Follower, LogState(1, 1, []))) && Snapped(s.nodes[1]) && s.nodes[1].commitIndex == 1
    && Is(s.nodes[2], View(4, Follower, Log([]))) && Is(s.nodes[3], View(3, Follower, Log(ELOG)))
    && Is(s.nodes[4], View(4, Follower, Log(ELOG))) && s.nodes[4].commitIndex <= 2
    && Leader5(s.nodes[5])
    && s.nodes[7] == Boot(w, EMPTY_DISK)
  }

  lemma Act6a(t: Trace, w: Machine, cmd: Command, mx: Msg, me: Msg) returns (t': Trace)
    requires Runs(t) && Scene5(t.s, w, cmd, mx, me)
    ensures GoesOn(t, t') && Runs(t') && Setup(t'.s) && VoteMsg(REQ4) in t'.s.net
    ensures Is(t'.s.nodes[6], View(4, Candidate, Log(XLog(cmd)))) && t'.s.nodes[6].commitIndex <= 4
    ensures forall v :: v in t.s.nodes && v != 6 ==> t'.s.nodes[v] == t.s.nodes[v]
  {
    hide Runs, GoesOn, PeerSet, IsQuorum, Snapped, Leader5, Mail;
    var t1 := Refuses(t, 6, VoteReq(3, 5, 1, 1));
    Onward(t, t1);
    Majority(6, 1, 2, 7);
    var req: VoteReq;
    t', req := Stands(t1, 6, [1, 2, 7]);
    Onward(t1, t');
    GoesOnTrans(t, t1, t');
  }

  lemma TwoVotes(t: Trace) returns (t': Trace)
    requires Runs(t) && Setup(t.s) && VoteMsg(REQ4) in t.s.net
    requires Is(t.s.nodes[1], View(2, Follower, LogState(1, 1, []))) && Is(t.s.nodes[2], View(3, Follower, Log([])))
    ensures GoesOn(t, t') && Runs(t') && VoteGranted(t'.s.net, 1, 6, 4) && VoteGranted(t'.s.net, 2, 6, 4)
    ensures t'.s.nodes.Keys == t.s.nodes.Keys
    ensures MovedTo(t.s.nodes[1], t'.s.nodes[1], 4) && MovedTo(t.s.nodes[2], t'.s.nodes[2], 4)
    ensures forall v :: v in t.s.nodes && v != 1 && v != 2 ==> t'.s.nodes[v] == t.s.nodes[v]
  {
    hide Runs, GoesOn, HandleRequestVote, VoteGranted;
    assert Distinct([1, 2]);
    Voted(t.s.nodes[1], REQ4);
    Voted(t.s.nodes[2], REQ4);
    t' := Votes(t, REQ4, [1, 2]);
    Onward(t, t');
    assert 1 in [1, 2] && 2 in [1, 2];
  }

  lemma Act6(t: Trace, w: Machine, cmd: Command, mx: Msg, me: Msg) returns (t': Trace)
    requires Runs(t) && Scene5(t.s, w, cmd, mx, me)
    ensures GoesOn(t, t') && Runs(t') && Scene6(t'.s, w, cmd, mx, me)
  {
    hide Runs, GoesOn, Leader5, FromX, FromE, XLog, VoteGranted, Snapped, Rest;
    var t1 := Act6a(t, w, cmd, mx, me);
    Onward(t, t1);
    var t2 := TwoVotes(t1);
    Onward(t1, t2);
    t' := Refuses(t2, 4, REQ4);
    Onward(t2, t');
    VotesStay(t2.s.net, t'.s.net, 1);
    VotesStay(t2.s.net, t'.s.net, 2);
    RestSnapped(t1.s.nodes[1], t2.s.nodes[1]);
    GoesOnTrans(t, t1, t2);
    GoesOnTrans(t, t2, t');
  }

  lemma VotesStay(net: set<Msg>, net': set<Msg>, v: NodeId)
    requires net <= net' && VoteGranted(net, v, 6, 4)
    ensures VoteGranted(net', v, 6, 4)
  {
  }

  // ------------------------------------------------------------------
  // Term 5: replica 4 leads and commits; replica 1 follows and snapshots
  // ------------------------------------------------------------------

  const BLOG := [A1, E2, B3]

  /** Nothing happened to 5, 6 and 7 or to the mail. */
  ghost predicate Aside(s: Group, s': Group) {
    && s.nodes.Keys == s'.nodes.Keys && Setup(s) && Setup(s')
    && s'.nodes[5] == s.nodes[5] && s'.nodes[6] == s.nodes[6] && s'.nodes[7] == s.nodes[7]
    && s.net <= s'.net && s.intents <= s'.intents
  }

  ghost predicate Leader4(s: Node) {
    Is(s, View(5, Leader, Log(BLOG))) && InOrder(s)
  }

  /** Replica 4 as it takes office in term 5. */
  ghost predicate Scene7a(s: Group) {
    && Setup(s)
    && Is(s.nodes[1], View(5, Follower, LogState(1, 1, []))) && Snapped(s.nodes[1]) && s.nodes[1].commitIndex == 1
    && Is(s.nodes[2], View(5, Follower, Log([]))) && Is(s.nodes[3], View(5, Follower, Log(ELOG)))
    && Leader4(s.nodes[4])
    && At(s.nodes[4], 1, 3, 0) && At(s.nodes[4], 2, 3, 0) && At(s.nodes[4], 3, 3, 0)
  }

  lemma Act7a(t: Trace, w: Machine, cmd: Command, mx: Msg, me: Msg) returns (t': Trace)
    requires Runs(t) && Scene6(t.s, w, cmd, mx, me)
    ensures GoesOn(t, t') && Runs(t') && Aside(t.s, t'.s) && Scene7a(t'.s)
  {
    hide Runs, GoesOn, Elected, InOrder, Snapped, Mail, Standing, Leader5, Others, Rest;
    t' := Office(t, 4, 1, 2, 3, 1, 2, 3);
    ElectedNodes(t.s, t'.s, 4, 1, 2, 3);
    Onward(t, t');
    assert AppendTo(Log(ELOG), [B3]) == Log(BLOG);
    RestSnapped(t.s.nodes[1], t'.s.nodes[1]);
  }

  lemma RestSnapped(s: Node, s': Node)
    requires Rest(s, s') && Snapped(s)
    ensures Snapped(s')
  {
  }

  /** Replica 4 brings a peer up to its log. */
  lemma GivesB(t: Trace, p: NodeId, next: nat, l: LogState, q: set<NodeId>) returns (t': Trace)
    requires Runs(t) && Setup(t.s) && Leader4(t.s.nodes[4]) && 1 <= p <= 3 && 1 <= next <= 3
             && At(t.s.nodes[4], p, next, 0)
    requires t.s.nodes[p].term <= 5 && t.s.nodes[p].log == l && l.snapIndex <= next - 1 == LastIndex(l)
    requires TermIn(l, next - 1) == TermAt(BLOG, next - 1)
    ensures GoesOn(t, t') && Runs(t') && Setup(t'.s) && OthersKept(t.s, t'.s, 4, p) && Aside(t.s, t'.s)
    ensures Is(t'.s.nodes[p], View(5, Follower, AppendTo(l, BLOG[next - 1..]))) && Rest(t.s.nodes[p], t'.s.nodes[p])
    ensures t.s.nodes[p].commitIndex <= t'.s.nodes[p].commitIndex <= Max(3, t.s.nodes[p].commitIndex)
    ensures Leader4(t'.s.nodes[4]) && Confirmed(Cfg(t.s, 4), t.s.nodes[4], t'.s.nodes[4], p, 3, q)
  {
    hide Runs, GoesOn, Others, InOrder, LastHeld;
    assert BLOG[next - 1..][0] == BLOG[next - 1] && BLOG[next - 1].index == next;
    t' := Gives(t, 4, p, next, q);
    Onward(t, t');
  }

  /** A peer whose log is too short says where it ends. */
  lemma FailsB(t: Trace, p: NodeId) returns (t': Trace)
    requires Runs(t) && Setup(t.s) && Leader4(t.s.nodes[4]) && 1 <= p <= 3 && At(t.s.nodes[4], p, 3, 0)
    requires t.s.nodes[p].term <= 5 && LastIndex(t.s.nodes[p].log) <= 1
    ensures GoesOn(t, t') && Runs(t') && Setup(t'.s) && OthersKept(t.s, t'.s, 4, p) && Aside(t.s, t'.s)
    ensures MovedTo(t.s.nodes[p], t'.s.nodes[p], 5)
    ensures Leader4(t'.s.nodes[4]) && At(t'.s.nodes[4], p, LastIndex(t.s.nodes[p].log) + 1, 0)
    ensures forall r, next, held :: r != p && At(t.s.nodes[4], r, next, held) ==> At(t'.s.nodes[4], r, next, held)
  {
    hide Runs, GoesOn, Others, InOrder, LastIndexOfTermIn, Rest;
    t' := Fails(t, 4, p, 3);
    Onward(t, t');
  }

  ghost predicate Scene7(s: Group) {
    && Setup(s) && Leader4(s.nodes[4]) && s.nodes[4].commitIndex == 3 && At(s.nodes[4], 1, 4, 3)
    && Is(s.nodes[1], View(5, Follower, LogState(1, 1, [E2, B3]))) && Snapped(s.nodes[1])
    && 1 <= s.nodes[1].commitIndex <= 3
  }

  lemma Act7b(t: Trace) returns (t': Trace)
    requires Runs(t) && Scene7a(t.s)
    ensures GoesOn(t, t') && Runs(t') && Aside(t.s, t'.s) && Setup(t'.s) && Leader4(t'.s.nodes[4])
    ensures At(t'.s.nodes[4], 3, 4, 3) && At(t'.s.nodes[4], 2, 4, 3) && At(t'.s.nodes[4], 1, 3, 0)
            && t'.s.nodes[1] == t.s.nodes[1]
  {
    hide Runs, GoesOn, Leader4, Snapped, Rest, Confirmed, At;
    var t1 := GivesB(t, 3, 3, Log(ELOG), {});
    ConfirmedAt(Cfg(t.s, 4), t.s.nodes[4], t1.s.nodes[4], 3, 3, {});
    var t2 := FailsB(t1, 2);
    t' := GivesB(t2, 2, 1, Log([]), {});
    ConfirmedAt(Cfg(t2.s, 4), t2.s.nodes[4], t'.s.nodes[4], 2, 3, {});
    GoesOnTrans(t, t1, t2);
    GoesOnTrans(t, t2, t');
  }

  lemma Act7c(t: Trace) returns (t': Trace)
    requires Runs(t) && Setup(t.s) && Leader4(t.s.nodes[4])
    requires At(t.s.nodes[4], 3, 4, 3) && At(t.s.nodes[4], 2, 4, 3) && At(t.s.nodes[4], 1, 3, 0)
    requires Is(t.s.nodes[1], View(5, Follower, LogState(1, 1, []))) && Snapped(t.s.nodes[1])
             && t.s.nodes[1].commitIndex == 1
    ensures GoesOn(t, t') && Runs(t') && Aside(t.s, t'.s) && Scene7(t'.s)
  {
    hide Runs, GoesOn, Leader4, Snapped, Rest, Confirmed, At;
    var t1 := FailsB(t, 1);
    t' := GivesB(t1, 1, 2, LogState(1, 1, []), {1, 2, 3});
    assert BLOG[1..] == [E2, B3] && [] + [E2, B3] == [E2, B3];
    ConfirmedAt(Cfg(t1.s, 4), t1.s.nodes[4], t'.s.nodes[4], 1, 3, {1, 2, 3});
    Committed4(t1.s, t1.s.nodes[4], t'.s.nodes[4]);
    RestSnapped(t.s.nodes[1], t1.s.nodes[1]);
    RestSnapped(t1.s.nodes[1], t'.s.nodes[1]);
    GoesOnTrans(t, t1, t');
  }

  lemma Committed4(g: Group, s: Node, s': Node)
    requires Setup(g) && Leader4(s') && Confirmed(Cfg(g, 4), s, s', 1, 3, {1, 2, 3})
    requires At(s', 1, 4, 3) && At(s', 2, 4, 3) && At(s', 3, 4, 3)
    ensures s'.commitIndex == 3
  {
    hide Others, InOrder, Rest, At, LastHeld;
    ThreeHold(g, 4, s', 1, 2, 3);
  }

  // ------------------------------------------------------------------
  // The late read
  // ------------------------------------------------------------------

  /** Replica 1 learns the commit index and stores a snapshot of term 5. */
  lemma Act8(t: Trace) returns (t': Trace)
    requires Runs(t) && Scene7(t.s)
    ensures GoesOn(t, t') && Runs(t') && Aside(t.s, t'.s) && t'.s.nodes[4] == t.s.nodes[4]
    ensures var d := t'.s.nodes[1].disk; d.snap.Some? && d.snap.value.index == 3 && d.snap.value.term == 5
  {
    hide Runs, GoesOn, Others, InOrder, Stored, HandleAppendEntries;
    var t1 := Heartbeat(t);
    Onward(t, t1);
    var t2 := Snapshots(t1, 1);
    Onward(t1, t2);
    t' := t2;
    StoredSnap(t1.s.nodes[1], t'.s.nodes[1]);
    GoesOnTrans(t, t1, t');
  }

  lemma StoredSnap(s: Node, s': Node)
    requires Stored(s, s') && s.log == LogState(1, 1, [E2, B3]) && s.commitIndex == 3
    ensures s'.disk.snap.Some? && s'.disk.snap.value.index == 3 && s'.disk.snap.value.term == 5
  {
  }

  lemma Heartbeat(t: Trace) returns (t': Trace)
    requires Runs(t) && Scene7(t.s)
    ensures GoesOn(t, t') && Runs(t') && Setup(t'.s) && OthersKept(t.s, t'.s, 1, 1)
    ensures Is(t'.s.nodes[1], View(5, Follower, LogState(1, 1, [E2, B3]))) && Snapped(t'.s.nodes[1])
            && t'.s.nodes[1].commitIndex == 3
    ensures Ready(Cfg(t'.s, 1), t'.s.nodes[1])
  {
    hide Runs, GoesOn, Others, InOrder, HandleAppendEntries, PrepareAppend;
    Seven(4);
    Built(Cfg(t.s, 4), t.s.nodes[4], 1);
    assert BLOG[3..] == [];
    var m, r: Msg;
    var t1: Trace;
    t1, m := Sends(t, 4, 1);
    Onward(t, t1);
    Taken(t1.s.nodes[1], m.append);
    t', r := Answers(t1, m);
    Onward(t1, t');
    GoesOnTrans(t, t1, t');
  }

  /** What is waiting when the late snapshot arrives. */
  ghost predicate Scene8(s: Group, w: Machine, cmd: Command, mx: Msg, me: Msg) {
    && Setup(s) && Mail(s, cmd, mx, me) && Standing(s, cmd) && Leader5(s.nodes[5])
    && Is(s.nodes[4], View(5, Leader, Log(BLOG))) && s.nodes[4].commitIndex == 3
    && s.nodes[7] == Boot(w, EMPTY_DISK)
    && s.nodes[1].disk.snap.Some? && s.nodes[1].disk.snap.value.index == 3 && s.nodes[1].disk.snap.value.term == 5
  }

  lemma AsideKeeps(s: Group, s': Group, w: Machine, cmd: Command, mx: Msg, me: Msg)
    requires Scene6(s, w, cmd, mx, me) && Aside(s, s')
    ensures Mail(s', cmd, mx, me) && Standing(s', cmd) && Leader5(s'.nodes[5]) && s'.nodes[7] == Boot(w, EMPTY_DISK)
  {
    hide FromX, FromE, Snapped, VoteGranted, XLog;
    VotesStay(s.net, s'.net, 1);
    VotesStay(s.net, s'.net, 2);
  }

  lemma Act7and8(t: Trace, w: Machine, cmd: Command, mx: Msg, me: Msg) returns (t': Trace)
    requires Runs(t) && Scene6(t.s, w, cmd, mx, me)
    ensures GoesOn(t, t') && Runs(t') && Scene8(t'.s, w, cmd, mx, me)
  {
    hide Runs, GoesOn, Scene6, Mail, Standing, Leader5, At, InOrder, Snapped;
    var t1 := Act7a(t, w, cmd, mx, me);
    var t2 := Act7b(t1);
    var t3 := Act7c(t2);
    t' := Act8(t3);
    AsideKeeps(t.s, t'.s, w, cmd, mx, me);
    GoesOnTrans(t, t1, t2);
    GoesOnTrans(t, t2, t3);
    GoesOnTrans(t, t3, t');
  }

  /** Replica 7 with the late snapshot and an entry of term 2 on top of it. */
  predicate Mixed(s: Node, t: nat, cmd: Command) {
    Is(s, View(t, Follower, LogState(3, 5, [Entry(4, 2, Normal(cmd))])))
  }

  lemma Installed(w: Machine, snap: Snapshot)
    requires snap.index == 3 && snap.term == 5
    ensures var s := HandleInstallSnapshot(Boot(w, EMPTY_DISK), SnapReq(1, 1, snap)).0;
            Is(s, View(1, Follower, LogState(3, 5, [])))
  {
  }

  lemma Overlapped(s: Node, m: Msg, cmd: Command)
    requires Is(s, View(1, Follower, LogState(3, 5, []))) && FromX(m, cmd)
    ensures Mixed(HandleAppendEntries(s, m.append).0, 2, cmd)
  {
    hide Follow, AppendEntries;
    var f := Follow(s, 2, 6).0;
    Followed(s, 2, 6);
    var es := m.append.entries[2..];
    assert es == [Entry(4, 2, Normal(cmd))];
    assert Fresh(f.log, es) == es;
    assert AppendSameTerm(f, m.append).0 == Absorb(f, m.append, es);
    MergedKeeps(f, es);
  }

  lemma Acknowledged(s: Node, m: Msg, cmd: Command)
    requires Mixed(s, 2, cmd) && FromE(m)
    ensures var (s', resp, _) := HandleAppendEntries(s, m.append);
            Mixed(s', 3, cmd) && resp == AppendResp(3, true, 0, 0)
  {
    hide Follow;
    Followed(s, 3, 5);
  }

  lemma Act9a(t: Trace, w: Machine, cmd: Command, mx: Msg, me: Msg) returns (t': Trace)
    requires Runs(t) && Scene8(t.s, w, cmd, mx, me)
    ensures Runs(t') && Run(t) <= Run(t') && t.steps <= t'.steps && Setup(t'.s) && mx in t'.s.net && me in t'.s.net
            && t.s.net <= t'.s.net
    ensures Is(t'.s.nodes[7], View(1, Follower, LogState(3, 5, [])))
    ensures forall v :: 1 <= v <= 6 ==> t'.s.nodes[v] == t.s.nodes[v]
  {
    hide Runs, HandleInstallSnapshot, Standing, Leader5, FromX, FromE;
    t' := SnapshotArrives(t, Intent(1, 7, 1));
    Installed(w, t.s.nodes[1].disk.snap.value);
  }

  lemma Act9b(t: Trace, cmd: Command, mx: Msg, me: Msg) returns (t': Trace, r: Msg)
    requires Runs(t) && Setup(t.s) && mx in t.s.net && FromX(mx, cmd) && me in t.s.net && FromE(me)
    requires Is(t.s.nodes[7], View(1, Follower, LogState(3, 5, [])))
    ensures GoesOn(t, t') && Runs(t') && Setup(t'.s) && t.s.net <= t'.s.net && Mixed(t'.s.nodes[7], 3, cmd)
    ensures forall v :: 1 <= v <= 6 ==> t'.s.nodes[v] == t.s.nodes[v]
    ensures r in t'.s.net && r == AppendReply(7, me.append, me.sentAt, AppendResp(3, true, 0, 0))
  {
    hide Runs, GoesOn, HandleAppendEntries;
    var t1, rx := Answers(t, mx);
    Onward(t, t1);
    Overlapped(t.s.nodes[7], mx, cmd);
    t', r := Answers(t1, me);
    Onward(t1, t');
    Acknowledged(t1.s.nodes[7], me, cmd);
    GoesOnTrans(t, t1, t');
  }

  /** Replica 5, still leading term 3, commits its entry at index 2. */
  lemma Act9c(t: Trace, me: Msg, r: Msg) returns (t': Trace)
    requires Runs(t) && Setup(t.s) && FromE(me) && Leader5(t.s.nodes[5])
    requires r in t.s.net && r == AppendReply(7, me.append, me.sentAt, AppendResp(3, true, 0, 0))
    ensures GoesOn(t, t') && Runs(t') && Setup(t'.s) && t.s.net <= t'.s.net
    ensures forall v :: 1 <= v <= 7 && v != 5 ==> t'.s.nodes[v] == t.s.nodes[v]
    ensures Is(t'.s.nodes[5], View(3, Leader, Log(ELOG))) && t'.s.nodes[5].commitIndex == 2
  {
    hide Runs, GoesOn, OnAppendReply, Others, InOrder, LastHeld;
    t' := Takes(t, 5, r);
    Onward(t, t');
    var s := t.s.nodes[5];
    Acked(Cfg(t.s, 5), s, 7, me.append, me.sentAt, AppendResp(3, true, 0, 0), {3, 4, 7});
    ThreeHold(t.s, 5, t'.s.nodes[5], 3, 4, 7);
  }

  // ------------------------------------------------------------------
  // Replica 6 wins term 4 and cuts off what replica 5 has committed
  // ------------------------------------------------------------------

  function XFull(cmd: Command): seq<Entry> {
    XLog(cmd) + [X5]
  }

  ghost predicate Leader6(s: Node, cmd: Command) {
    Is(s, View(4, Leader, Log(XFull(cmd)))) && InOrder(s)
  }

  lemma Act10a(t: Trace, cmd: Command) returns (t': Trace)
    requires Runs(t) && Standing(t.s, cmd) && Mixed(t.s.nodes[7], 3, cmd)
    ensures GoesOn(t, t') && Runs(t') && Setup(t'.s) && Leader6(t'.s.nodes[6], cmd) && At(t'.s.nodes[6], 5, 5, 0)
    ensures forall v :: 1 <= v <= 5 ==> t'.s.nodes[v] == t.s.nodes[v]
  {
    hide Runs, GoesOn, HandleRequestVote, BecomeLeader, Others, PeerSet, IsQuorum, InOrder, VoteGranted;
    Voted(t.s.nodes[7], REQ4);
    var t1 := Votes(t, REQ4, [7]);
    Onward(t, t1);
    assert 7 in [7];
    VotesStay(t.s.net, t1.s.net, 1);
    VotesStay(t.s.net, t1.s.net, 2);
    Majority(6, 1, 2, 7);
    t' := Wins(t1, 6, [1, 2, 7]);
    Onward(t1, t');
    Seven(6);
    Leads(Cfg(t1.s, 6), t1.s.nodes[6], t1.s.now);
    GoesOnTrans(t, t1, t');
  }

  /** The leader's first request starts past the end of replica 5's log. */
  lemma Act10b(t: Trace, cmd: Command) returns (t': Trace)
    requires Runs(t) && Setup(t.s) && Leader6(t.s.nodes[6], cmd) && At(t.s.nodes[6], 5, 5, 0)
    requires Is(t.s.nodes[5], View(3, Leader, Log(ELOG))) && t.s.nodes[5].commitIndex == 2
    ensures GoesOn(t, t') && Runs(t') && Setup(t'.s) && OthersKept(t.s, t'.s, 6, 5)
    ensures Leader6(t'.s.nodes[6], cmd) && At(t'.s.nodes[6], 5, 3, 0) && MovedTo(t.s.nodes[5], t'.s.nodes[5], 4)
  {
    hide Runs, GoesOn, Others, InOrder, LastIndexOfTermIn;
    t' := Fails(t, 6, 5, 5);
  }

  /** The second meets an entry of another term. */
  lemma Act10c(t: Trace, cmd: Command) returns (t': Trace)
    requires Runs(t) && Setup(t.s) && Leader6(t.s.nodes[6], cmd) && At(t.s.nodes[6], 5, 3, 0)
    requires Is(t.s.nodes[5], View(4, Follower, Log(ELOG))) && t.s.nodes[5].commitIndex == 2
    ensures GoesOn(t, t') && Runs(t') && Setup(t'.s) && OthersKept(t.s, t'.s, 6, 5)
    ensures Leader6(t'.s.nodes[6], cmd) && At(t'.s.nodes[6], 5, 2, 0) && MovedTo(t.s.nodes[5], t'.s.nodes[5], 4)
  {
    hide Runs, GoesOn, Others, InOrder, FirstIndexOfTerm, LastIndexOfTermIn, BacktrackTo;
    Refused5(t.s.nodes[6], cmd);
    t' := Fails(t, 6, 5, 3);
  }

  lemma Refused5(s: Node, cmd: Command)
    requires Leader6(s, cmd)
    ensures BacktrackTo(s, Refusal(Request(s, 6, 3), Log(ELOG))) == 2
  {
    hide InOrder;
    assert TermIn(Log(ELOG), 2) == 3 && TermIn(Log(ELOG), 1) == 1;
    assert FirstIndexOfTerm(Log(ELOG), 3, 2) == 2;
    assert s.log.entries[4].term == 4 && s.log.entries[3].term == 2;
    assert LastIndexOfTermIn(s.log, 3, 4) == 0;
    assert LastIndexOfTermIn(s.log, 3, 5) == 0;
  }

  /** The third replaces the committed entry. */
  lemma Act10d(t: Trace, cmd: Command) returns (t': Trace)
    requires Runs(t) && Setup(t.s) && Leader6(t.s.nodes[6], cmd) && At(t.s.nodes[6], 5, 2, 0)
    requires Is(t.s.nodes[5], View(4, Follower, Log(ELOG))) && t.s.nodes[5].commitIndex == 2
    ensures GoesOn(t, t') && Runs(t') && Setup(t'.s) && OthersKept(t.s, t'.s, 6, 5)
    ensures Leader6(t'.s.nodes[6], cmd) && t'.s.nodes[5].log == Log(XFull(cmd)) && 2 <= t'.s.nodes[5].commitIndex <= 5
  {
    hide Runs, GoesOn, Others, InOrder, LastHeld;
    var es := XFull(cmd)[1..];
    assert es[0] == X2;
    t' := Gives(t, 6, 5, 2, {});
    assert Continued(Log(ELOG), es) == Log([A1] + es);
    assert [A1] + es == XFull(cmd);
  }

  lemma Act10(t: Trace, cmd: Command) returns (t': Trace)
    requires Runs(t) && Standing(t.s, cmd) && Mixed(t.s.nodes[7], 3, cmd)
    requires Is(t.s.nodes[5], View(3, Leader, Log(ELOG))) && t.s.nodes[5].commitIndex == 2
    ensures GoesOn(t, t') && Runs(t') && Setup(t'.s) && t'.s.nodes[4] == t.s.nodes[4]
    ensures Leader6(t'.s.nodes[6], cmd) && t'.s.nodes[5].log == Log(XFull(cmd)) && 2 <= t'.s.nodes[5].commitIndex <= 5
  {
    hide Runs, GoesOn, Leader6, At, XFull, Rest, Standing;
    assert Setup(t.s) by { StandingSetup(t.s, cmd); }
    var t1 := Act10a(t, cmd);
    var t2 := Act10b(t1, cmd);
    var t3 := Act10c(t2, cmd);
    t' := Act10d(t3, cmd);
    GoesOnTrans(t, t1, t2);
    GoesOnTrans(t, t2, t3);
    GoesOnTrans(t, t3, t');
  }

  lemma StandingSetup(s: Group, cmd: Command)
    requires Standing(s, cmd)
    ensures Setup(s)
  {
  }

  // ------------------------------------------------------------------
  // The run as a whole
  // ------------------------------------------------------------------

  lemma UpToTerm3(w: Machine, cmd: Command) returns (t: Trace, mx: Msg, me: Msg)
    ensures Runs(t) && Run(t)[0].machine == w && Scene5(t.s, w, cmd, mx, me)
  {
    hide Runs, GoesOn, Scene1, Scene2, Scene3, Scene4, Scene5a, Scene5;
    var t1 := Act1(w);
    var t2 := Act2(t1, w);
    SameStart(t1, t2);
    var t3 := Act3(t2, w);
    SameStart(t2, t3);
    var t4: Trace;
    t4, mx := Act4(t3, w, cmd);
    SameStart(t3, t4);
    var t5 := Act5a(t4, w, cmd, mx);
    SameStart(t4, t5);
    t, me := Act5b(t5, w, cmd, mx);
    SameStart(t5, t);
  }

  lemma UpToLateRead(w: Machine, cmd: Command) returns (t: Trace, mx: Msg, me: Msg)
    ensures Runs(t) && Run(t)[0].machine == w && Scene8(t.s, w, cmd, mx, me)
  {
    hide Runs, GoesOn, Scene5, Scene6, Scene8;
    var t5, t6: Trace;
    t5, mx, me := UpToTerm3(w, cmd);
    t6 := Act6(t5, w, cmd, mx, me);
    SameStart(t5, t6);
    t := Act7and8(t6, w, cmd, mx, me);
    SameStart(t6, t);
  }

  lemma WholeRun(w: Machine, cmd: Command) returns (t: Trace, mid: Group)
    ensures Runs(t) && Run(t)[0].machine == w && Setup(t.s) && mid in Run(t) && Setup(mid)
    ensures Is(mid.nodes[5], View(3, Leader, Log(ELOG))) && mid.nodes[5].commitIndex == 2
    ensures Is(t.s.nodes[4], View(5, Leader, Log(BLOG))) && t.s.nodes[4].commitIndex == 3
    ensures Leader6(t.s.nodes[6], cmd) && t.s.nodes[5].log == Log(XFull(cmd)) && 2 <= t.s.nodes[5].commitIndex <= 5
  {
    hide Runs, GoesOn, Leader6, XFull, Leader5, FromX, FromE;
    var t8, mx, me := UpToLateRead(w, cmd);
    var t9 := Act9a(t8, w, cmd, mx, me);
    var ta, r := Act9b(t9, cmd, mx, me);
    var tb := Act9c(ta, me, r);
    assert Standing(tb.s, cmd) by { StillStanding(t8.s, tb.s, cmd); }
    mid := tb.s;
    t := Act10(tb, cmd);
    SameStart(t9, ta);
    SameStart(ta, tb);
    SameStart(tb, t);
    Onward(tb, t);
    assert mid == Run(tb)[|tb.past|];
    assert mid == Run(t)[|tb.past|];
  }

  lemma StillStanding(s: Group, s': Group, cmd: Command)
    requires Standing(s, cmd) && Setup(s') && s'.nodes[6] == s.nodes[6] && s.net <= s'.net
    ensures Standing(s', cmd)
  {
    hide VoteGranted;
    VotesStay(s.net, s'.net, 1);
    VotesStay(s.net, s'.net, 2);
  }

  /** Two replicas have committed different entries at an index. */
  ghost predicate Diverged(s: Group, n: NodeId, m: NodeId, k: nat) {
    && n in s.nodes && m in s.nodes
    && var a, b := s.nodes[n], s.nodes[m];
       && a.log.snapIndex < k <= a.commitIndex <= LastIndex(a.log)
       && b.log.snapIndex < k <= b.commitIndex <= LastIndex(b.log)
       && EntryAt(a.log, k) != EntryAt(b.log, k)
  }

  /** For every state machine and every command there is a run, not a timely
      one, that ends with replicas 4 and 5 having committed different entries
      at index 2. On the way replica 5 commits, in term 3, an entry that the
      leader of term 4 does not hold and that is then cut off replica 5's log. */
  lemma LateReadBreaksSafety(w: Machine, cmd: Command) returns (run: seq<Group>, steps: seq<Step>, i: nat)
    ensures IsRun(run, steps) && i < |run| && run[0].machine == w
    ensures var last := run[|run| - 1]; Diverged(last, 4, 5, 2)
    ensures var was, last := run[i], run[|run| - 1];
            && 5 in was.nodes && was.nodes[5].term == 3 && was.nodes[5].commitIndex == 2
            && LastIndex(was.nodes[5].log) == 2
            && was.nodes[5].log.snapIndex == 0 && EntryAt(was.nodes[5].log, 2) == E2
            && 6 in last.nodes && last.nodes[6].role == Leader && last.nodes[6].term == 4
            && last.nodes[6].log.snapIndex == 0 && LastIndex(last.nodes[6].log) == 5
            && EntryAt(last.nodes[6].log, 2) == X2
            && 5 in last.nodes && EntryAt(last.nodes[5].log, 2) == X2
    ensures !TimelyRun(run, steps)
  {
    hide Runs, TimelyRun, IsRun, InOrder;
    var t, mid := WholeRun(w, cmd);
    run, steps := Run(t), t.steps;
    RunsIsRun(t);
    i :| 0 <= i < |run| && run[i] == mid;
    assert XFull(cmd)[1] == X2;
    if TimelyRun(run, steps) {
      NoDivergence(run, steps, |run| - 1, 4, 5, 2);
    }
  }

  /** What the late read breaks holds in every timely run. */
  lemma NoDivergence(run: seq<Group>, steps: seq<Step>, i: nat, n: NodeId, m: NodeId, k: nat)
    requires TimelyRun(run, steps) && i < |run|
    ensures !Diverged(run[i], n, m, k)
  {
    hide TimelyRun;
    var chosen := OneSequenceApplied(run, steps);
    if n in run[i].nodes && m in run[i].nodes {
      assert Reflects(run[i].machine, chosen, run[i].nodes[n]) && Reflects(run[i].machine, chosen, run[i].nodes[m]);
    }
  }
}
