/** AppendEntries that starts inside the receiver's snapshot. The handler
    skips what the snapshot covers without comparing terms there. The result
    agrees with the request exactly when the skipped entry at the snapshot
    index has the snapshot's term, which holds in every timely run, but not for
    a snapshot from a later term than the request that carries it. */
module Overlap {
  import opened Types
  import opened LogSpec
  import opened DiskSpec
  import opened Replica
  import opened Cluster
  import opened Link
  import opened Frames
  import opened NodeFollower
  import opened Steps
  import opened Safety
  import opened Handlers
  import C = Consensus

  /** The request starts inside the snapshot and reaches past it. */
  predicate Overlaps(s: Node, req: AppendReq) {
    0 < Skip(s, req) < |req.entries|
  }

  /** The term the sender's log has at an index the request reaches. */
  function RequestTerm(req: AppendReq, k: nat): nat
    requires req.prevIndex <= k <= req.prevIndex + |req.entries|
  {
    if k == req.prevIndex then req.prevTerm else req.entries[k - req.prevIndex - 1].term
  }

  predicate AgreesAt(l: LogState, req: AppendReq, k: nat)
    requires req.prevIndex <= k <= req.prevIndex + |req.entries|
  {
    k <= LastIndex(l) && TermIn(l, k) == RequestTerm(req, k)
  }

  /** The log has the request's term at every index both have. */
  ghost predicate AgreesWith(l: LogState, req: AppendReq) {
    forall k: nat :: req.prevIndex <= k <= req.prevIndex + |req.entries| && l.snapIndex <= k ==> AgreesAt(l, req, k)
  }

  /** Merging gives the log the incoming terms at the incoming indexes. */
  lemma {:induction false} FreshTerms(l: LogState, es: seq<Entry>, first: nat)
    requires l.snapIndex < first <= LastIndex(l) + 1 && Follows(first - 1, es)
    ensures var news := Fresh(l, es); |news| <= |es| && news == es[|es| - |news|..]
    ensures var kept := |es| - |Fresh(l, es)|;
            first + kept <= LastIndex(l) + 1 && forall i :: 0 <= i < kept ==> TermIn(l, first + i) == es[i].term
    decreases |es|
  {
    if |es| > 0 && Has(l, es[0].index) && TermIn(l, es[0].index) == es[0].term {
      FreshTerms(l, es[1..], first + 1);
      var kept := |es| - |Fresh(l, es)|;
      forall i | 0 <= i < kept
        ensures TermIn(l, first + i) == es[i].term
      {
        if i > 0 { assert es[i] == es[1..][i - 1]; assert TermIn(l, first + 1 + (i - 1)) == es[1..][i - 1].term; }
      }
    }
  }

  lemma MergedTerms(s: Node, es: seq<Entry>, first: nat, k: nat)
    requires s.log.snapIndex < first <= LastIndex(s.log) + 1 && Follows(first - 1, es) && first <= k < first + |es|
    ensures var l := MergeEntries(s, es).log;
            l.snapIndex == s.log.snapIndex && l.snapTerm == s.log.snapTerm && k <= LastIndex(l)
                && TermIn(l, k) == es[k - first].term
  {
    FreshTerms(s.log, es, first);
    var news := Fresh(s.log, es);
    var kept := |es| - |news|;
    if |news| > 0 {
      assert news[0] == es[kept] && news[0].index == first + kept;
      if k < first + kept {
        assert TermIn(s.log, first + (k - first)) == es[k - first].term;
      } else {
        assert news[k - first - kept] == es[k - first];
      }
    } else {
      assert TermIn(s.log, first + (k - first)) == es[k - first].term;
    }
  }

  /** The exact condition: comparing the skipped term at the snapshot index is
      the check the handler leaves to the protocol. */
  lemma OverlapAgreesIff(s: Node, req: AppendReq)
    requires Overlaps(s, req) && Follows(req.prevIndex, req.entries)
    ensures AppendSameTerm(s, req).1.success
    ensures AgreesWith(AppendSameTerm(s, req).0.log, req) <==> req.entries[Skip(s, req) - 1].term == s.log.snapTerm
  {
    var skip, snap := Skip(s, req), s.log.snapIndex;
    var es := req.entries[skip..];
    var l := AppendSameTerm(s, req).0.log;
    assert l == MergeEntries(s, es).log;
    MergedTerms(s, es, snap + 1, snap + 1);
    assert l.snapIndex == snap && TermIn(l, snap) == s.log.snapTerm
        && RequestTerm(req, snap) == req.entries[skip - 1].term;
    if req.entries[skip - 1].term == s.log.snapTerm {
      forall k: nat | req.prevIndex <= k <= req.prevIndex + |req.entries| && l.snapIndex <= k
        ensures AgreesAt(l, req, k)
      {
        if k > snap {
          MergedTerms(s, es, snap + 1, k);
          assert es[k - snap - 1] == req.entries[k - req.prevIndex - 1];
        }
      }
    }
    assert AgreesWith(l, req) ==> AgreesAt(l, req, snap);
  }

  /** In every timely run the condition holds whenever a request overlaps a snapshot. */
  lemma OverlapAlwaysAgrees(run: seq<Group>, steps: seq<Step>, i: nat, n: NodeId, m: Msg)
    requires TimelyRun(run, steps) && i < |run| && n in run[i].nodes
    requires m in run[i].net && m.AppendMsg? && m.to == n && m.append.term >= run[i].nodes[n].term
    requires Overlaps(Follow(run[i].nodes[n], m.append.term, m.append.leader).0, m.append)
    ensures var s := Follow(run[i].nodes[n], m.append.term, m.append.leader).0;
            m.append.entries[Skip(s, m.append) - 1].term == s.log.snapTerm
  {
    hide TimelyRun, Inv, Linked, Follow, Midway, NodeOk, CoreOk, DiskOk, LeaderOk, CandidateOk, WaitersOk,
         AppendReqOk, Following, Extends, ActsFor;
    hide C.Inv, C.Complete, C.CommitsOk, C.LeadersGrown, C.CampaignsOk, C.LeaderLogsOk, C.LogsOk, C.AcksOk;
    var hs := RunExplained(run, steps);
    var g, h, req := run[i], hs[i], m.append;
    InvParted(g, h);
    MsgAt(g, h, m);
    var h1 := FollowMidway(g, h, n, req.term, req.leader);
    var s := Follow(g.nodes[n], req.term, req.leader).0;
    MidwayOpens(g, h, h1, n, s);
    AppendReqFrame(h, h1, g.now, n, req);
    NodeKnown(h1, g.machine, g.now, Others(g.peers, n), n, s);
    C.CommitParts(h1);
    C.LogParts(h1);
    AppendTerm(h1, n, req);
    FollowingHere(h1, n, s);
    OverlapTerm(h1, n, s, req);
  }

  lemma OverlapTerm(h: C.History, n: NodeId, s: Node, req: AppendReq)
    requires CoreOk(h, n, s) && s.term == req.term && AppendReqOk(h, n, req)
             && Following(h, n, s, h.leaderLog[req.term])
    requires Overlaps(s, req)
    ensures req.entries[Skip(s, req) - 1].term == s.log.snapTerm
  {
    hide Committed, Matching;
    var lead := h.leaderLog[req.term];
    assert req.entries[Skip(s, req) - 1] == lead[s.log.snapIndex - 1];
    assert lead[s.log.snapIndex - 1] == h.logs[n][s.log.snapIndex - 1];
  }

  /** A snapshot of term 5 carried by a request of term 3 is accepted by a
      replica of term 3; a leader of term 4 then appends across it, and the
      log holds term 4 after term 5: no leader has such a log. */
  lemma StaleSnapshotMixesTerms(w: Machine, data: KvState, cmd: Command, a: NodeId, b: NodeId)
    requires a != NO_NODE && b != NO_NODE
    ensures var start := Boot(w, Disk(Some(HardState(3, NO_NODE)), None, []));
            var s1 := HandleInstallSnapshot(start, SnapReq(3, a, Snapshot(2, 5, data))).0;
            var req := AppendReq(4, b, 1, 1, [Entry(2, 4, Normal(cmd)), Entry(3, 4, Normal(cmd))], 0);
            var s2 := HandleAppendEntries(s1, req).0;
            && s1.log == LogState(2, 5, [])
            && s2.log == LogState(2, 5, [Entry(3, 4, Normal(cmd))])
            && !AgreesWith(s2.log, req)
  {
    var start := Boot(w, Disk(Some(HardState(3, NO_NODE)), None, []));
    var s1 := HandleInstallSnapshot(start, SnapReq(3, a, Snapshot(2, 5, data))).0;
    var es := [Entry(2, 4, Normal(cmd)), Entry(3, 4, Normal(cmd))];
    var req := AppendReq(4, b, 1, 1, es, 0);
    assert s1.log == LogState(2, 5, []);
    var s := Follow(s1, 4, b).0;
    assert s.log == s1.log && Skip(s, req) == 1;
    assert es[1..] == [es[1]];
    assert Fresh(s.log, es[1..]) == es[1..];
    OverlapAgreesIff(s, req);
  }
}
