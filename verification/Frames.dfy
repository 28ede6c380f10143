/** What a growing history preserves. */
module Frames {
  import opened Types
  import opened Quorum
  import opened LogSpec
  import opened DiskSpec
  import opened CommitRule
  import opened Replica
  import opened Cluster
  import opened Link
  import C = Consensus

  /** The history only grew, and new elections happened at time `now`. */
  ghost predicate Extends(h: C.History, h': C.History, now: nat) {
    && h'.peers == h.peers
    && C.LeadersExtend(h.leaderLog, h'.leaderLog)
    && h.commits <= h'.commits
    && h.grants <= h'.grants
    && (forall ct :: ct in h.campaigns ==> ct in h'.campaigns && h'.campaigns[ct] == h.campaigns[ct])
    && (forall t :: t in h.elections ==> t in h'.elections && h'.elections[t] == h.elections[t])
    && (forall t :: t in h'.elections && t !in h.elections ==> h'.elections[t].at == now)
    && (forall c :: c in h'.commits && c !in h.commits ==> c.at == now)
    && (forall v, t: nat :: C.Acked(h.acks, v, t) <= C.Acked(h'.acks, v, t))
  }

  /** Only node `n` changed, and only terms it leads gained entries or commits. */
  ghost predicate ActsFor(h: C.History, h': C.History, n: NodeId) {
    && (forall v :: v != n && v in h.logs ==> v in h'.logs && h'.logs[v] == h.logs[v])
    && (forall v :: v != n && v in h.term ==> v in h'.term && h'.term[v] == h.term[v])
    && (forall v :: v != n && v in h.vote ==> v in h'.vote && h'.vote[v] == h.vote[v])
    && (forall t :: t in h'.elections && h'.elections[t].leader != n ==> t in h.elections)
    && (forall t :: t in h'.elections && h'.elections[t].leader != n && t in h.leaderLog ==>
                      t in h'.leaderLog && h'.leaderLog[t] == h.leaderLog[t])
    && (forall c :: c in h'.commits && c !in h.commits ==> c.term in h'.elections && h'.elections[c.term].leader == n)
    && (forall v, t: nat :: v != n ==> C.Acked(h'.acks, v, t) == C.Acked(h.acks, v, t))
  }

  lemma ExtendsRefl(h: C.History, n: NodeId, now: nat)
    ensures Extends(h, h, now) && ActsFor(h, h, n)
  {
  }

  lemma ExtendsTrans(h: C.History, h1: C.History, h2: C.History, now: nat)
    requires Extends(h, h1, now) && Extends(h1, h2, now)
    ensures Extends(h, h2, now)
  {
    forall t | t in h.leaderLog
      ensures t in h2.leaderLog && Agree(h.leaderLog[t], h2.leaderLog[t], |h.leaderLog[t]|)
    {
      assert Agree(h.leaderLog[t], h1.leaderLog[t], |h.leaderLog[t]|);
      assert Agree(h1.leaderLog[t], h2.leaderLog[t], |h1.leaderLog[t]|);
    }
  }

  lemma ActsForTrans(h: C.History, h1: C.History, h2: C.History, n: NodeId, now: nat)
    requires Extends(h, h1, now) && Extends(h1, h2, now) && ActsFor(h, h1, n) && ActsFor(h1, h2, n)
    ensures ActsFor(h, h2, n)
  {
  }

  // ------------------------------------------------------------------
  // Committed prefixes
  // ------------------------------------------------------------------

  lemma CommittedWeaken(ll: Logs, commits: set<C.Commit>, log: seq<Entry>, k: nat, t: nat, log': seq<Entry>, k': nat,
                        t': nat)
    requires Committed(ll, commits, log, k, t) && k' <= k && t <= t' && Agree(log, log', k')
    ensures Committed(ll, commits, log', k', t')
  {
    if k' > 0 {
      var c :| c in commits && c.term <= t && k <= c.len && c.term in ll && Agree(log, ll[c.term], k);
      assert Agree(log', ll[c.term], k');
    }
  }

  lemma CommittedKeeps(h: C.History, h': C.History, now: nat, log: seq<Entry>, k: nat, t: nat)
    requires Extends(h, h', now) && Committed(h.leaderLog, h.commits, log, k, t)
    ensures Committed(h'.leaderLog, h'.commits, log, k, t)
  {
    if k > 0 {
      var c :| c in h.commits && c.term <= t && k <= c.len && c.term in h.leaderLog
          && Agree(log, h.leaderLog[c.term], k);
      assert Agree(h.leaderLog[c.term], h'.leaderLog[c.term], |h.leaderLog[c.term]|);
      assert Agree(log, h'.leaderLog[c.term], k);
    }
  }

  /** Leader completeness: a later leader's log starts with what was committed. */
  lemma CommittedInLeader(h: C.History, log: seq<Entry>, k: nat, t: nat, u: nat)
    requires C.Complete(h) && C.CommitsOk(h.peers, h.leaderLog, h.acks, h.commits)
    requires Committed(h.leaderLog, h.commits, log, k, t)
    requires t <= u && u in h.leaderLog
    ensures Agree(log, h.leaderLog[u], k)
  {
    if k > 0 {
      var c :| c in h.commits && c.term <= t && k <= c.len && c.term in h.leaderLog
          && Agree(log, h.leaderLog[c.term], k);
      CommitInLeader(h, c, u);
    }
  }

  lemma CommitInLeader(h: C.History, c: C.Commit, u: nat)
    requires C.Complete(h) && C.CommitsOk(h.peers, h.leaderLog, h.acks, h.commits)
    requires c in h.commits && c.term <= u && u in h.leaderLog
    ensures c.term in h.leaderLog && Agree(h.leaderLog[c.term], h.leaderLog[u], c.len)
  {
    assert C.CommitOk(h.peers, h.leaderLog, h.acks, c);
    C.CommitChoosable(h, c);
    if c.term < u {
      assert C.Holds(h, c.term, c.len, h.leaderLog[u]);
    }
  }

  lemma CommitReaches(h: C.History, c: C.Commit, t: nat, k: nat)
    requires C.Complete(h) && C.CommitsOk(h.peers, h.leaderLog, h.acks, h.commits)
    requires c in h.commits && c.term <= t && t in h.leaderLog && k <= c.len
    ensures Committed(h.leaderLog, h.commits, h.leaderLog[t], k, t)
  {
    CommitInLeader(h, c, t);
  }

  /** Two committed prefixes agree as far as both reach. */
  lemma CommittedComparable(h: C.History, a: seq<Entry>, i: nat, t: nat, b: seq<Entry>, j: nat, u: nat)
    requires C.Complete(h) && C.CommitsOk(h.peers, h.leaderLog, h.acks, h.commits)
    requires Committed(h.leaderLog, h.commits, a, i, t) && Committed(h.leaderLog, h.commits, b, j, u)
    ensures Agree(a, b, Min(i, j))
  {
    if i > 0 && j > 0 {
      var c :| c in h.commits && c.term <= t && i <= c.len && c.term in h.leaderLog && Agree(a, h.leaderLog[c.term], i);
      var d :| d in h.commits && d.term <= u && j <= d.len && d.term in h.leaderLog && Agree(b, h.leaderLog[d.term], j);
      if c.term <= d.term {
        CommitInLeader(h, c, d.term);
      } else {
        CommitInLeader(h, d, c.term);
      }
    }
  }

  lemma NothingCommitted(ll: Logs, commits: set<C.Commit>, log: seq<Entry>, t: nat)
    ensures Committed(ll, commits, log, 0, t)
  {
  }

  // ------------------------------------------------------------------
  // Nodes and messages that the step did not touch
  // ------------------------------------------------------------------

  lemma AckTimeKeeps(h: C.History, h': C.History, now: nat, t: nat, p: NodeId, at: nat)
    requires Extends(h, h', now) && at <= now
    ensures NotPastBy(h.elections, t, p, at) ==> NotPastBy(h'.elections, t, p, at)
    ensures t in h.elections && AckTimeOk(h.elections, t, p, at) ==> AckTimeOk(h'.elections, t, p, at)
  {
  }

  lemma LeaderFrame(h: C.History, h': C.History, now: nat, n: NodeId, others: seq<NodeId>, m: NodeId, s: Node)
    requires Extends(h, h', now) && ActsFor(h, h', n) && m != n
    requires LeaderOk(h, now, others, m, s)
    ensures LeaderOk(h', now + 1, others, m, s)
  {
    forall p | p in others
      ensures PeerOk(h', now + 1, s, |h'.logs[m]|, p)
    {
      assert PeerOk(h, now, s, |h.logs[m]|, p);
      AckTimeKeeps(h, h', now, s.term, p, s.lead.ackedAt[p]);
    }
  }

  lemma NodeFrame(h: C.History, h': C.History, w: Machine, now: nat, n: NodeId, others: seq<NodeId>, m: NodeId, s: Node)
    requires Extends(h, h', now) && ActsFor(h, h', n) && m != n
    requires NodeOk(h, w, now, others, m, s)
    ensures NodeOk(h', w, now + 1, others, m, s)
  {
    CommittedKeeps(h, h', now, h.logs[m], s.commitIndex, s.term);
    if s.role == Leader {
      LeaderFrame(h, h', now, n, others, m, s);
    }
  }

  lemma AppendReqFrame(h: C.History, h': C.History, now: nat, to: NodeId, req: AppendReq)
    requires Extends(h, h', now) && AppendReqOk(h, to, req)
    ensures AppendReqOk(h', to, req)
  {
    var a, b := h.leaderLog[req.term], h'.leaderLog[req.term];
    assert Agree(a, b, |a|);
    CommittedKeeps(h, h', now, a, req.commit, req.term);
    CommittedWeaken(h'.leaderLog, h'.commits, a, req.commit, req.term, b, req.commit, req.term);
    assert b[req.prevIndex..req.prevIndex + |req.entries|] == a[req.prevIndex..req.prevIndex + |req.entries|];
  }

  lemma SnapOkAgree(w: Machine, a: seq<Entry>, b: seq<Entry>, snap: Snapshot)
    requires SnapOk(w, a, snap) && Agree(a, b, snap.index)
    ensures SnapOk(w, b, snap)
  {
    assert a[..snap.index] == b[..snap.index];
  }

  lemma SnapSentFrame(h: C.History, h': C.History, w: Machine, now: nat, to: NodeId, req: SnapReq)
    requires Extends(h, h', now) && SnapSentOk(h, w, to, req)
    ensures SnapSentOk(h', w, to, req)
  {
    hide Committed, Agree, Replay;
    var snap := req.snap;
    var u :| u in h.leaderLog && CommittedSnap(h.leaderLog, h.commits, w, u, snap);
    var a, b := h.leaderLog[u], h'.leaderLog[u];
    AgreeShorter(a, b, |a|, snap.index);
    CommittedKeeps(h, h', now, a, snap.index, u);
    CommittedWeaken(h'.leaderLog, h'.commits, a, snap.index, u, b, snap.index, u);
    SnapOkAgree(w, a, b, snap);
    assert CommittedSnap(h'.leaderLog, h'.commits, w, u, snap);
  }

  lemma AgreeShorter(a: seq<Entry>, b: seq<Entry>, k: nat, i: nat)
    requires Agree(a, b, k) && i <= k
    ensures Agree(a, b, i)
  {
  }

  /** What is sent is covered by a commit of term `t` or below. */
  ghost predicate Covered(h: C.History, t: nat, k: nat) {
    k > 0 ==> exists c :: c in h.commits && c.term <= t && k <= c.len
  }

  lemma CoveredLater(h: C.History, h': C.History, now: nat, t: nat, k: nat)
    requires Extends(h, h', now) && Covered(h, t, k)
    ensures Covered(h', t, k)
  {
  }

  /** A sent snapshot is in the log its sender had as leader of the request's
      term exactly when a commit of that term or below covers it. */
  lemma SentInTermIff(h: C.History, w: Machine, to: NodeId, req: SnapReq)
    requires C.Complete(h) && C.CommitsOk(h.peers, h.leaderLog, h.acks, h.commits) && SnapSentOk(h, w, to, req)
    ensures SnapReqOk(h, w, to, req) <==> Covered(h, req.term, req.snap.index)
  {
    hide C.Complete, C.CommitsOk, Agree, SnapOk, Committed;
    var snap, lead := req.snap, h.leaderLog[req.term];
    var u :| u in h.leaderLog && CommittedSnap(h.leaderLog, h.commits, w, u, snap);
    CommittedCovers(h, lead, snap.index, req.term);
    if Covered(h, req.term, snap.index) {
      if snap.index > 0 {
        var c :| c in h.commits && c.term <= req.term && snap.index <= c.len;
        CommitReaches(h, c, req.term, snap.index);
      } else {
        NothingCommitted(h.leaderLog, h.commits, lead, req.term);
      }
      CommittedComparable(h, h.leaderLog[u], snap.index, u, lead, snap.index, req.term);
      SnapOkAgree(w, h.leaderLog[u], lead, snap);
    }
  }

  lemma CommittedCovers(h: C.History, log: seq<Entry>, k: nat, t: nat)
    ensures Committed(h.leaderLog, h.commits, log, k, t) ==> Covered(h, t, k)
  {
  }

  lemma MsgFrame(h: C.History, h': C.History, w: Machine, now: nat, m: Msg)
    requires Extends(h, h', now) && MsgOk(h, w, m) && SentAt(m) <= now
    ensures MsgOk(h', w, m)
  {
    match m
    case AppendMsg(to, req, _) => AppendReqFrame(h, h', now, to, req);
    case AppendReply(from, req, sentAt, resp) =>
      AppendReqFrame(h, h', now, from, req);
      AppendReplyFrame(h, h', now, from, req, sentAt, resp);
    case SnapMsg(to, req, _) => SnapSentFrame(h, h', w, now, to, req);
    case SnapReply(from, req, sentAt, t) =>
      SnapSentFrame(h, h', w, now, from, req);
      AckTimeKeeps(h, h', now, req.term, from, sentAt);
    case _ =>
  }

  lemma AppendReplyFrame(h: C.History, h': C.History, now: nat, from: NodeId, req: AppendReq, sentAt: nat,
                         resp: AppendResp)
    requires Extends(h, h', now) && AppendReplyOk(h, from, req, sentAt, resp) && sentAt <= now
    ensures AppendReplyOk(h', from, req, sentAt, resp)
  {
    AckTimeKeeps(h, h', now, req.term, from, sentAt);
    if resp.term == req.term && !resp.success && resp.conflictTerm != 0 {
      var t := resp.conflictTerm;
      assert Agree(h.leaderLog[t], h'.leaderLog[t], |h.leaderLog[t]|);
    }
  }

  lemma PreparedFrame(h: C.History, h': C.History, w: Machine, now: nat, p: Prepared)
    requires Extends(h, h', now) && PreparedOk(h, w, p)
    ensures PreparedOk(h', w, p)
  {
    match p
    case PreparedAppend(to, req) => AppendReqFrame(h, h', now, to, req);
    case PreparedSnap(to, req) => SnapSentFrame(h, h', w, now, to, req);
  }

  lemma IntentFrame(h: C.History, h': C.History, now: nat, it: Intent)
    requires Extends(h, h', now) && IntentOk(h, it)
    ensures IntentOk(h', it)
  {
  }

  lemma AnswerFrame(h: C.History, h': C.History, w: Machine, now: nat, a: Answer)
    requires Extends(h, h', now) && AnswerOk(h, w, a)
    ensures AnswerOk(h', w, a)
  {
    if a.outcome.Applied? {
      var c :| c in h.commits && c.term in h.leaderLog && 0 < a.index <= c.len && c.len <= |h.leaderLog[c.term]|
               && h.leaderLog[c.term][a.index - 1].payload == Normal(a.cmd)
               && a.outcome.result == EntryResult(w, Replay(w, h.leaderLog[c.term][..a.index - 1]),
                 h.leaderLog[c.term][a.index - 1]);
      assert Agree(h.leaderLog[c.term], h'.leaderLog[c.term], |h.leaderLog[c.term]|);
      assert h.leaderLog[c.term][..a.index - 1] == h'.leaderLog[c.term][..a.index - 1];
    }
  }

  lemma ReadFrame(h: C.History, h': C.History, now: nat, rd: Read)
    requires Extends(h, h', now) && rd.start <= now
    ensures Covers(h.commits, rd) ==> Covers(h'.commits, rd)
    ensures ReadOk(h, rd) ==> ReadOk(h', rd)
  {
  }
}
