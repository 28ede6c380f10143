/** Building a run step by step: elections, replication and the applier as
    stretches of steps, and what they leave at each replica. */
module Traces {
  import opened Types
  import opened Quorum
  import opened LogSpec
  import opened DiskSpec
  import opened CommitRule
  import opened Replica
  import opened Cluster

  /** A run so far: the states it has left behind and the one it has reached. */
  datatype Trace = Trace(past: seq<Group>, s: Group, steps: seq<Step>)

  function Run(t: Trace): seq<Group> {
    t.past + [t.s]
  }

  /** The run made its step `i`. */
  ghost predicate Made(t: Trace, i: nat) {
    i < |t.steps| == |t.past| && Enabled(Run(t)[i], t.steps[i]) && Run(t)[i + 1] == Do(Run(t)[i], t.steps[i])
  }

  ghost predicate Runs(t: Trace) {
    && |t.past| == |t.steps|
    && Init(Run(t)[0])
    && forall i :: 0 <= i < |t.steps| ==> Made(t, i)
  }

  lemma RunsIsRun(t: Trace)
    requires Runs(t)
    ensures IsRun(Run(t), t.steps)
  {
    hide Init, Enabled, Do;
    forall i | 0 <= i < |t.steps|
      ensures Enabled(Run(t)[i], t.steps[i]) && Run(t)[i + 1] == Do(Run(t)[i], t.steps[i])
    {
      assert Made(t, i);
    }
  }

  /** What no stretch of steps here loses. */
  ghost predicate Grows(s: Group, s': Group) {
    && s'.peers == s.peers && s'.machine == s.machine
    && s'.maxAppendEntries == s.maxAppendEntries && s'.snapshotThreshold == s.snapshotThreshold
    && s'.nodes.Keys == s.nodes.Keys
    && s.net <= s'.net
    && s.intents <= s'.intents
  }

  /** `t'` goes on from `t`. */
  ghost predicate GoesOn(t: Trace, t': Trace) {
    && Runs(t) && Runs(t')
    && Run(t) <= Run(t') && t.steps <= t'.steps
    && Grows(t.s, t'.s)
  }

  lemma GoesOnTrans(t: Trace, t1: Trace, t2: Trace)
    requires GoesOn(t, t1) && GoesOn(t1, t2)
    ensures GoesOn(t, t2)
  {
    hide Runs;
  }

  lemma GoesOnRefl(t: Trace)
    requires Runs(t)
    ensures GoesOn(t, t)
  {
    hide Runs;
  }

  /** One more step. */
  lemma Go(t: Trace, step: Step) returns (t': Trace)
    requires Runs(t) && Enabled(t.s, step)
    ensures Runs(t') && Run(t) <= Run(t') && t.steps <= t'.steps && t'.s == Do(t.s, step)
    ensures |t'.steps| == |t.steps| + 1
  {
    hide Init, Enabled, Do;
    t' := Trace(Run(t), Do(t.s, step), t.steps + [step]);
    forall i | 0 <= i < |t'.steps|
      ensures Made(t', i)
    {
      if i < |t.steps| {
        assert Made(t, i);
      }
    }
  }

  /** One more step of one node that ends no goroutine and takes no proposal. */
  lemma Act(t: Trace, step: Step) returns (t': Trace)
    requires Runs(t) && Enabled(t.s, step) && !step.Transmit? && !IsCrash(step) && !step.ReadSnapshot?
    ensures GoesOn(t, t')
    ensures var s, s', n, e := t.s, t'.s, Actor(step), EffectOf(t.s, step);
            && n in s.nodes && s'.nodes == s.nodes[n := e.node] && s'.net == s.net + e.sent
            && (!step.Propose? ==> s'.proposed == s.proposed)
    ensures step.BuildAppend? ==>
              PreparedAppend(step.peer, PrepareAppend(Cfg(t.s, step.n), t.s.nodes[step.n], step.peer)) in t'.s.prepared
    ensures step.DecideSnapshot? ==> Intent(step.n, step.peer, t.s.nodes[step.n].term) in t'.s.intents
  {
    hide Runs, Enabled, EffectOf, PrepareAppend;
    t' := Go(t, step);
    ActorPresent(t.s, step);
  }

  // ------------------------------------------------------------------
  // Elections
  // ------------------------------------------------------------------

  lemma {:induction false} PreVotes(t: Trace, n: NodeId, req: VoteReq, voters: seq<NodeId>) returns (t': Trace)
    requires Runs(t) && PreVoteMsg(req) in t.s.net && req.cand == n
    requires forall v :: v in voters ==> v in t.s.nodes && v != n && HandlePreVote(t.s.nodes[v], req, false).granted
    ensures GoesOn(t, t') && t'.s.nodes == t.s.nodes && t'.s.proposed == t.s.proposed
    ensures forall v :: v in voters ==> PreGranted(t'.s.net, v, n, req.term)
    decreases |voters|
  {
    hide Runs, HandlePreVote;
    if |voters| == 0 {
      t' := t;
      GoesOnRefl(t);
    } else {
      var v, m := voters[0], PreVoteMsg(req);
      assert v in voters;
      var t1 := Act(t, AnswerPreVote(v, m, false));
      assert PreVoteReply(v, req, HandlePreVote(t.s.nodes[v], req, false)) in t1.s.net;
      assert t1.s.nodes == t.s.nodes && forall u :: u in voters <==> u == v || u in voters[1..];
      t' := PreVotes(t1, n, req, voters[1..]);
      GoesOnTrans(t, t1, t');
      forall u | u in voters
        ensures PreGranted(t'.s.net, u, n, req.term)
      {
        if u == v {
          assert PreVoteReply(v, req, HandlePreVote(t.s.nodes[v], req, false)) in t'.s.net;
        }
      }
    }
  }

  ghost function SetOf(nodes: seq<NodeId>): set<NodeId> {
    set v | v in nodes
  }

  /** Asks for pre-votes, gets them and campaigns. */
  lemma Campaigns(t: Trace, n: NodeId, voters: seq<NodeId>) returns (t': Trace)
    requires Runs(t) && n in t.s.nodes && t.s.nodes[n].role != Leader
    requires var node := t.s.nodes[n];
             forall v :: v in voters ==> v in t.s.nodes && v != n
                                         && HandlePreVote(t.s.nodes[v], VoteRequest(n, node, node.term + 1),
                                           false).granted
    requires IsQuorum(PeerSet(t.s.peers), SetOf(voters) + {n})
    ensures GoesOn(t, t') && t'.s.proposed == t.s.proposed
    ensures var (node', req) := StartElection(Cfg(t.s, n), t.s.nodes[n]);
            t'.s.nodes == t.s.nodes[n := node'] && VoteMsg(req) in t'.s.net
  {
    hide Runs, HandlePreVote, IsQuorum, StartElection, PeerSet;
    var node := t.s.nodes[n];
    var req := VoteRequest(n, node, node.term + 1);
    var t1 := Act(t, AskPreVote(n));
    assert t1.s.nodes == t.s.nodes;
    var t2 := PreVotes(t1, n, req, voters);
    var step := Campaign(n, SetOf(voters) + {n});
    t' := Act(t2, step);
    GoesOnTrans(t, t1, t2);
    GoesOnTrans(t, t2, t');
  }

  /** Each of `voters` answers the request with a vote. */
  lemma {:induction false} Votes(t: Trace, req: VoteReq, voters: seq<NodeId>) returns (t': Trace)
    requires Runs(t) && VoteMsg(req) in t.s.net && Distinct(voters)
    requires forall v :: v in voters ==>
               v in t.s.nodes && v != req.cand && HandleRequestVote(t.s.nodes[v], req).1.granted
    ensures GoesOn(t, t') && t'.s.proposed == t.s.proposed
    ensures forall v :: v in voters ==> t'.s.nodes[v] == HandleRequestVote(t.s.nodes[v], req).0
    ensures forall v :: v in t.s.nodes && v !in voters ==> t'.s.nodes[v] == t.s.nodes[v]
    ensures forall v :: v in voters ==> VoteGranted(t'.s.net, v, req.cand, req.term)
    decreases |voters|
  {
    hide Runs, HandleRequestVote;
    if |voters| == 0 {
      t' := t;
      GoesOnRefl(t);
    } else {
      var v, m, rest := voters[0], VoteMsg(req), voters[1..];
      assert v in voters;
      var t1 := Act(t, AnswerVote(v, m));
      var reply := VoteReply(v, req, HandleRequestVote(t.s.nodes[v], req).1);
      assert reply in t1.s.net;
      assert forall u :: u in voters <==> u == v || u in rest;
      assert v !in rest;
      t' := Votes(t1, req, rest);
      GoesOnTrans(t, t1, t');
      assert reply in t'.s.net && VoteGranted(t'.s.net, v, req.cand, req.term);
    }
  }

  lemma Wins(t: Trace, n: NodeId, voters: seq<NodeId>) returns (t': Trace)
    requires Runs(t) && n in t.s.nodes && t.s.nodes[n].role == Candidate
    requires IsQuorum(PeerSet(t.s.peers), SetOf(voters) + {n})
    requires forall v :: v in voters ==> VoteGranted(t.s.net, v, n, t.s.nodes[n].term)
    ensures GoesOn(t, t') && t'.s.proposed == t.s.proposed
    ensures t'.s.nodes == t.s.nodes[n := BecomeLeader(Cfg(t.s, n), t.s.nodes[n], t.s.now)]
  {
    hide Runs, IsQuorum, PeerSet, BecomeLeader, VoteGranted;
    t' := Act(t, WinElection(n, SetOf(voters) + {n}));
  }

  // ------------------------------------------------------------------
  // Replication
  // ------------------------------------------------------------------

  /** The leader builds the next request for a peer and hands it to the network. */
  lemma Sends(t: Trace, n: NodeId, p: NodeId) returns (t': Trace, m: Msg)
    requires Runs(t) && n in t.s.nodes && t.s.nodes[n].role == Leader && p in Others(t.s.peers, n)
    requires Get(t.s.nodes[n].lead.nextIndex, p) > t.s.nodes[n].log.snapIndex
    ensures GoesOn(t, t') && t'.s.nodes == t.s.nodes && t'.s.proposed == t.s.proposed
    ensures m in t'.s.net && m.AppendMsg? && m.to == p && m.append == PrepareAppend(Cfg(t.s, n), t.s.nodes[n], p)
  {
    hide Runs, PrepareAppend, Others;
    var req := PrepareAppend(Cfg(t.s, n), t.s.nodes[n], p);
    var t1 := Act(t, BuildAppend(n, p));
    assert t1.s.nodes == t.s.nodes;
    m := AppendMsg(p, req, t1.s.now);
    t' := Go(t1, Transmit(PreparedAppend(p, req)));
    assert Grows(t1.s, t'.s);
    GoesOnTrans(t, t1, t');
  }

  lemma Answers(t: Trace, m: Msg) returns (t': Trace, r: Msg)
    requires Runs(t) && m in t.s.net && m.AppendMsg? && m.to in t.s.nodes
    ensures GoesOn(t, t') && t'.s.proposed == t.s.proposed
    ensures var (node', resp, _) := HandleAppendEntries(t.s.nodes[m.to], m.append);
            && t'.s.nodes == t.s.nodes[m.to := node']
            && r in t'.s.net && r == AppendReply(m.to, m.append, m.sentAt, resp)
  {
    hide Runs, HandleAppendEntries;
    t' := Act(t, AnswerAppend(m.to, m));
    r := AppendReply(m.to, m.append, m.sentAt, HandleAppendEntries(t.s.nodes[m.to], m.append).1);
  }

  lemma Takes(t: Trace, n: NodeId, r: Msg) returns (t': Trace)
    requires Runs(t) && r in t.s.net && r.AppendReply? && r.append.leader == n && n in t.s.nodes
    ensures GoesOn(t, t') && t'.s.proposed == t.s.proposed
    ensures t'.s.nodes ==
              t.s.nodes[n := OnAppendReply(Cfg(t.s, n), t.s.nodes[n], r.from, r.append, r.sentAt, r.appendResp).0]
  {
    hide Runs, OnAppendReply;
    t' := Act(t, TakeAppendReply(n, r));
  }

  /** One round trip: request, answer, reply. */
  lemma Replicates(t: Trace, n: NodeId, p: NodeId) returns (t': Trace, sentAt: nat)
    requires Runs(t) && n in t.s.nodes && t.s.nodes[n].role == Leader && p in Others(t.s.peers, n)
    requires p in t.s.nodes && p != n
    requires Get(t.s.nodes[n].lead.nextIndex, p) > t.s.nodes[n].log.snapIndex
    ensures GoesOn(t, t') && t'.s.proposed == t.s.proposed
    ensures var cfg, node := Cfg(t.s, n), t.s.nodes[n];
            var req := PrepareAppend(cfg, node, p);
            var (follower, resp, _) := HandleAppendEntries(t.s.nodes[p], req);
            t'.s.nodes == t.s.nodes[p := follower][n := OnAppendReply(cfg, node, p, req, sentAt, resp).0]
  {
    hide Runs, HandleAppendEntries, OnAppendReply, Others, Get;
    var t1, m := Sends(t, n, p);
    var t2, r := Answers(t1, m);
    sentAt := m.sentAt;
    t' := Takes(t2, n, r);
    GoesOnTrans(t, t1, t2);
    GoesOnTrans(t, t2, t');
  }

  // ------------------------------------------------------------------
  // The applier and snapshots
  // ------------------------------------------------------------------

  lemma Applies(t: Trace, n: NodeId, a: ApplierStep) returns (t': Trace)
    requires Runs(t) && n in t.s.nodes && ApplierEnabled(t.s.nodes[n], a)
    ensures GoesOn(t, t') && t'.s.proposed == t.s.proposed
    ensures t'.s.nodes == t.s.nodes[n := ApplierDo(Cfg(t.s, n), t.s.nodes[n], a).0]
  {
    hide Runs, ApplierDo, ApplierEnabled;
    t' := Act(t, Applier(n, a));
  }

  /** The snapshot is read, whoever its reader is by now, sent and answered. */
  lemma SnapshotArrives(t: Trace, it: Intent) returns (t': Trace)
    requires Runs(t) && it in t.s.intents && it.node in t.s.nodes && it.peer in t.s.nodes
    requires t.s.nodes[it.node].disk.snap.Some?
    ensures Runs(t') && Run(t) <= Run(t') && t.steps <= t'.steps && t'.s.proposed == t.s.proposed
    ensures var s, s' := t.s, t'.s;
            && s'.peers == s.peers && s'.maxAppendEntries == s.maxAppendEntries
            && s'.snapshotThreshold == s.snapshotThreshold
            && s.net <= s'.net
    ensures var req := SnapReq(it.term, it.node, t.s.nodes[it.node].disk.snap.value);
            t'.s.nodes == t.s.nodes[it.peer := HandleInstallSnapshot(t.s.nodes[it.peer], req).0]
  {
    hide Runs, HandleInstallSnapshot;
    var req := SnapReq(it.term, it.node, t.s.nodes[it.node].disk.snap.value);
    var t1 := Go(t, ReadSnapshot(it));
    assert t1.s.nodes == t.s.nodes;
    var t2 := Go(t1, Transmit(PreparedSnap(it.peer, req)));
    var m := SnapMsg(it.peer, req, t1.s.now);
    t' := Go(t2, AnswerSnapshot(it.peer, m));
  }
}
