/** A replica as the object whose fields the source updates under its lock.
    Each method is one critical section and does exactly what the replica's
    transition function says; a precondition is what the source would panic
    on, and the group theorems show that it holds in every timely run. */
module Raft {
  import opened Types
  import opened LogSpec
  import DiskSpec
  import opened CommitRule
  import R = Replica
  import opened Recovery
  import opened Handlers
  import opened Proposals
  import opened Ballots
  import L = RaftLog
  import M = MemStorage

  lemma {:induction false} AyesBounds(results: seq<bool>, n: nat)
    requires n <= |results|
    ensures |Ayes(results[..n])| <= |Ayes(results)| <= |Ayes(results[..n])| + |results| - n
    decreases |results| - n
  {
    if n == |results| {
      assert results[..n] == results;
    } else {
      AyesSnoc(results, n);
      AyesBounds(results, n + 1);
    }
  }

  /** Counts answers as they arrive, our own vote first, stopping as soon as the
      outcome is settled: the verdict is that of the full count. */
  method CollectVotes(results: seq<bool>, quorum: nat) returns (won: bool)
    requires quorum > 0
    ensures won <==> 1 + |set i | 0 <= i < |results| && results[i]| >= quorum
  {
    hide Ayes;
    AyesMeans(results);
    if quorum == 1 {
      return true;
    }
    var granted, answered := 1, 0;
    NoAyes();
    assert results[..0] == [];
    while answered < |results|
      invariant 0 <= answered <= |results| && granted == 1 + |Ayes(results[..answered])| && granted < quorum
    {
      AyesSnoc(results, answered);
      var ok := results[answered];
      answered := answered + 1;
      if ok {
        granted := granted + 1;
      }
      AyesBounds(results, answered);
      if granted >= quorum {
        return true;
      }
      if granted + (|results| - answered) < quorum {
        return false;
      }
    }
    assert results[..answered] == results;
    return false;
  }

  lemma AyesMeans(results: seq<bool>)
    ensures Ayes(results) == set i | 0 <= i < |results| && results[i]
  {
  }

  lemma NoAyes()
    ensures Ayes([]) == {}
  {
  }

  class Raft {
    const cfg: R.Config
    const rlog: L.RaftLog
    const storage: M.MemStorage

    var term: nat
    var votedFor: NodeId
    var role: R.Role
    var leaderId: NodeId
    var commitIndex: nat
    var nextIndex: PeerMap
    var matchIndex: PeerMap
    var ackedAt: PeerMap
    var noopIndex: nat
    var transferTarget: NodeId
    var waiters: map<nat, R.Proposal>
    var lastApplied: nat
    var pending: Option<DiskSpec.Snapshot>
    var phase: R.Phase
    var sm: KvState

    ghost function Value(): R.Node
      reads this, rlog, storage
    {
      R.Node(term, votedFor, role, leaderId, rlog.Value(), commitIndex,
             R.LeaderState(nextIndex, matchIndex, ackedAt, noopIndex, transferTarget), waiters,
             R.ApplierState(lastApplied, pending, phase, sm), storage.Value())
    }

    /** Memory and disk end at the same index. */
    ghost predicate InSync()
      reads this, rlog, storage
    {
      LastIndex(rlog.Value()) == DiskSpec.SnapIndex(storage.Value()) + |storage.entries|
    }

    /** Start or restart: everything is rebuilt from stable storage. */
    constructor (cfg: R.Config, storage: M.MemStorage)
      ensures this.cfg == cfg && this.storage == storage && fresh(rlog)
      ensures Value() == R.Boot(cfg.machine, storage.Value())
      ensures InSync()
    {
      var d := storage.Load();
      var snapIndex, snapTerm, data := 0, 0, cfg.machine.init;
      if d.snap.Some? {
        snapIndex, snapTerm, data := d.snap.value.index, d.snap.value.term, d.snap.value.data;
      }
      var log := new L.RaftLog(snapIndex, snapTerm, d.entries);
      this.cfg, this.rlog, this.storage := cfg, log, storage;
      term, votedFor := 0, NO_NODE;
      if d.hs.Some? {
        term, votedFor := d.hs.value.term, d.hs.value.votedFor;
      }
      role, leaderId, commitIndex := R.Follower, NO_NODE, snapIndex;
      nextIndex, matchIndex, ackedAt, noopIndex, transferTarget := map[], map[], map[], 0, NO_NODE;
      waiters, lastApplied, pending, phase, sm := map[], snapIndex, None, R.Idle, data;
    }

    method Persist(hardState: bool, es: seq<Entry>)
      requires MaySave(storage.Value(), es)
      modifies storage
      ensures Value() == R.Persist(old(Value()), hardState, es)
    {
      var hs := None;
      if hardState {
        hs := Some(DiskSpec.HardState(term, votedFor));
      }
      storage.Save(hs, es);
    }

    /** Every waiting proposal is answered with a failure. */
    method FailWaiters() returns (answers: set<R.Answer>)
      modifies this`waiters
      ensures waiters == map[] && answers == R.FailAll(old(waiters))
    {
      answers := {};
      ghost var all := waiters;
      ghost var done: set<nat> := {};
      while waiters.Keys != {}
        invariant done !! waiters.Keys && done + waiters.Keys == all.Keys
        invariant forall i :: i in waiters ==> waiters[i] == all[i]
        invariant answers == FailSome(all, done)
        decreases |waiters.Keys|
      {
        var index :| index in waiters.Keys;
        var p := waiters[index];
        FailOneMore(all, done, index);
        answers := answers + {R.Answer(p.pid, index, p.cmd, R.Failed)};
        done := done + {index};
        ghost var before := waiters.Keys;
        waiters := waiters - {index};
        assert waiters.Keys == before - {index};
      }
      assert done == all.Keys;
      assert answers == R.FailAll(all);
    }

    /** A later term clears the vote; both are durable before anything else. */
    method AdoptTerm(newTerm: nat)
      modifies this`term, this`votedFor, storage
      ensures var s := old(Value());
              Value() == if newTerm > s.term then R.Persist(s.(term := newTerm, votedFor := NO_NODE), true, []) else s
    {
      hide DiskSpec.Save;
      if newTerm > term {
        term, votedFor := newTerm, NO_NODE;
        Persist(true, []);
      }
    }

    method BecomeFollower(newTerm: nat, leader: NodeId) returns (answers: set<R.Answer>)
      modifies this, storage
      ensures (Value(), answers) == R.BecomeFollower(old(Value()), newTerm, leader)
    {
      hide R.FailAll, R.Persist;
      answers := {};
      var wasLeader := role == R.Leader;
      ghost var s := Value();
      AdoptTerm(newTerm);
      ghost var s1 := Value();
      PersistFrame(s.(term := newTerm, votedFor := NO_NODE));
      role := R.Follower;
      leaderId := leader;
      if wasLeader {
        transferTarget := NO_NODE;
        answers := FailWaiters();
      }
      ghost var s2 := s1.(role := R.Follower, leaderId := leader);
      assert Value() == (if wasLeader then s2.(lead := s2.lead.(transferTarget := NO_NODE), waiters := map[]) else s2);
    }

    /** The median of what the replicas hold, if it is of the current term. */
    method AdvanceCommit()
      modifies this`commitIndex
      ensures Value() == R.AdvanceCommit(cfg, old(Value()))
    {
      var matches := [rlog.snapIndex + |rlog.entries|];
      for i := 0 to |cfg.others|
        invariant matches == [LastIndex(rlog.Value())] + Values(cfg.others, matchIndex)[..i]
      {
        var p := cfg.others[i];
        matches := matches + [if p in matchIndex then matchIndex[p] else 0];
      }
      assert matches == R.Matches(cfg, Value());
      var candidate := QuorumIndex(matches, R.QuorumSize(cfg));
      if candidate <= commitIndex {
        return;
      }
      var t, _ := rlog.Term(candidate);
      if t != term {
        return;
      }
      commitIndex := candidate;
    }

    /** What a new leader knows about each peer. */
    method InitPeers(last: nat, now: nat) returns (next: PeerMap, matched: PeerMap, acked: PeerMap)
      ensures next == Everywhere<nat>(cfg.others, last + 1) && matched == Everywhere<nat>(cfg.others, 0)
              && acked == Everywhere<nat>(cfg.others, now)
    {
      next, matched, acked := map[], map[], map[];
      var i := 0;
      while i < |cfg.others|
        invariant i <= |cfg.others|
        invariant next == Everywhere<nat>(cfg.others[..i], last + 1)
        invariant matched == Everywhere<nat>(cfg.others[..i], 0)
        invariant acked == Everywhere<nat>(cfg.others[..i], now)
      {
        var p := cfg.others[i];
        assert cfg.others[..i + 1][..i] == cfg.others[..i];
        next, matched, acked := next[p := last + 1], matched[p := 0], acked[p := now];
        i := i + 1;
      }
      assert cfg.others[..|cfg.others|] == cfg.others;
    }

    /** Appends to the log and makes the entries durable. */
    method GrowLog(es: seq<Entry>)
      requires Follows(LastIndex(rlog.Value()), es) && MaySave(storage.Value(), es)
      modifies rlog, storage
      ensures Value() == R.GrowLog(old(Value()), es)
    {
      rlog.Append(es);
      Persist(false, es);
    }

    /** A leader may only count replicas for entries of its own term, so it
        appends a no-op at once. */
    method AppendNoop()
      requires InSync()
      modifies this`noopIndex, rlog, storage
      ensures var last := LastIndex(old(rlog.Value())); var before := old(Value());
              Value() == R.GrowLog(before.(lead := before.lead.(noopIndex := last + 1)),
                    [Entry(last + 1, before.term, Noop)])
    {
      hide DiskSpec.Save, R.GrowLog;
      ghost var before := Value();
      var noop := Entry(rlog.snapIndex + |rlog.entries| + 1, term, Noop);
      GrowLog([noop]);
      GrowKeepsLead(before, [noop], before.lead.(noopIndex := noop.index));
      noopIndex := noop.index;
    }

    method TakeOffice(now: nat)
      modifies this`role, this`leaderId, this`transferTarget, this`nextIndex, this`matchIndex, this`ackedAt
      ensures role == R.Leader && leaderId == cfg.id && transferTarget == NO_NODE
      ensures nextIndex == Everywhere<nat>(cfg.others, LastIndex(rlog.Value()) + 1)
      ensures matchIndex == Everywhere<nat>(cfg.others, 0) && ackedAt == Everywhere<nat>(cfg.others, now)
    {
      hide Everywhere;
      role, leaderId, transferTarget := R.Leader, cfg.id, NO_NODE;
      nextIndex, matchIndex, ackedAt := InitPeers(rlog.snapIndex + |rlog.entries|, now);
    }

    method BecomeLeader(now: nat)
      requires InSync()
      modifies this, rlog, storage
      ensures Value() == R.BecomeLeader(cfg, old(Value()), now)
    {
      hide R.GrowLog, R.AdvanceCommit, Everywhere;
      ghost var before := Value();
      ghost var last := LastIndex(rlog.Value());
      TakeOffice(now);
      ghost var lead := R.LeaderState(Everywhere<nat>(cfg.others, last + 1), Everywhere<nat>(cfg.others, 0),
                                      Everywhere<nat>(cfg.others, now),
                                      noopIndex, NO_NODE);
      assert Value() == before.(role := R.Leader, leaderId := cfg.id, lead := lead);
      AppendNoop();
      AdvanceCommit();
    }

    /** A majority, counting this node, answered something sent at or after `t`. */
    method HasQuorumAckSince(t: nat) returns (ok: bool)
      ensures ok <==> R.HasQuorumAckSince(cfg, Value(), t)
    {
      var acks := 1;
      ghost var values := Values(cfg.others, ackedAt);
      for i := 0 to |cfg.others|
        invariant acks == 1 + CountAtLeast(values[..i], t)
      {
        var p := cfg.others[i];
        assert values[..i + 1][..i] == values[..i];
        if (if p in ackedAt then ackedAt[p] else 0) >= t {
          acks := acks + 1;
        }
      }
      assert values[..|cfg.others|] == values;
      return acks >= R.QuorumSize(cfg);
    }

    // ----------------------------------------------------------------
    // Elections
    // ----------------------------------------------------------------

    method LogUpToDate(lastIndex: nat, lastTerm: nat) returns (ok: bool)
      ensures ok == R.LogUpToDate(Value(), lastIndex, lastTerm)
    {
      var myTerm := if |rlog.entries| == 0 then rlog.snapTerm else rlog.entries[|rlog.entries| - 1].term;
      if lastTerm != myTerm {
        return lastTerm > myTerm;
      }
      return lastIndex >= rlog.snapIndex + |rlog.entries|;
    }

    /** Real election: new term and own vote, durable before anyone is asked. */
    method StartElection() returns (req: R.VoteReq)
      modifies this, storage
      ensures (Value(), req) == R.StartElection(cfg, old(Value()))
    {
      hide DiskSpec.Save;
      term := term + 1;
      votedFor, role, leaderId := cfg.id, R.Candidate, NO_NODE;
      Persist(true, []);
      var lastTerm := if |rlog.entries| == 0 then rlog.snapTerm else rlog.entries[|rlog.entries| - 1].term;
      req := R.VoteReq(term, cfg.id, rlog.snapIndex + |rlog.entries|, lastTerm);
    }

    method HandleRequestVote(req: R.VoteReq) returns (resp: R.VoteResp, answers: set<R.Answer>)
      modifies this, storage
      ensures (Value(), resp, answers) == R.HandleRequestVote(old(Value()), req)
    {
      hide R.BecomeFollower, R.LogUpToDate, DiskSpec.Save;
      answers := {};
      if req.term < term {
        return R.VoteResp(term, false), answers;
      }
      if req.term > term {
        answers := BecomeFollower(req.term, NO_NODE);
      }
      var canVote := votedFor == NO_NODE || votedFor == req.cand;
      var upToDate := LogUpToDate(req.lastIndex, req.lastTerm);
      if !canVote || !upToDate {
        return R.VoteResp(term, false), answers;
      }
      votedFor := req.cand;
      Persist(true, []);
      return R.VoteResp(term, true), answers;
    }

    // ----------------------------------------------------------------
    // Replication
    // ----------------------------------------------------------------

    /** Steps down to the sender unless already following it in this term. */
    method Follow(newTerm: nat, leader: NodeId) returns (answers: set<R.Answer>)
      modifies this, storage
      ensures (Value(), answers) == R.Follow(old(Value()), newTerm, leader)
    {
      hide R.BecomeFollower;
      answers := {};
      if newTerm > term || role != R.Follower || leaderId != leader {
        answers := BecomeFollower(newTerm, leader);
      }
    }

    /** The incoming entries from the first one not held. */
    method FirstFresh(es: seq<Entry>) returns (news: seq<Entry>)
      ensures news == R.Fresh(rlog.Value(), es)
    {
      var i := 0;
      while i < |es|
        invariant 0 <= i <= |es|
        invariant R.Fresh(rlog.Value(), es[i..]) == R.Fresh(rlog.Value(), es)
      {
        var t, ok := rlog.Term(es[i].index);
        if !(ok && t == es[i].term) {
          return es[i..];
        }
        assert es[i..][1..] == es[i + 1..];
        i := i + 1;
      }
      return [];
    }

    /** Truncates on a real conflict only, then appends what is new. */
    method Merge(es: seq<Entry>)
      requires SafeToWrite(Value(), R.Fresh(rlog.Value(), es))
      modifies rlog, storage
      ensures Value() == R.MergeEntries(old(Value()), es)
    {
      hide R.Fresh;
      var news := FirstFresh(es);
      if |news| > 0 {
        var _, ok := rlog.Term(news[0].index);
        if ok {
          rlog.TruncateFrom(news[0].index);
        }
        rlog.Append(news);
        Persist(false, news);
      }
    }

    /** The part of the receiver that runs in the sender's term. */
    method AppendSameTerm(req: R.AppendReq) returns (resp: R.AppendResp)
      requires SafeToWrite(Value(), R.ToWrite(Value(), req))
      modifies this`commitIndex, rlog, storage
      ensures (Value(), resp) == R.AppendSameTerm(old(Value()), req)
    {
      hide R.MergeEntries, R.Fresh, FirstIndexOfTerm;
      var prevIndex, entries := req.prevIndex, req.entries;
      if prevIndex < rlog.snapIndex {
        var skip := rlog.snapIndex - prevIndex;
        if skip >= |entries| {
          return R.AppendResp(term, true, 0, 0);
        }
        entries := entries[skip..];
        prevIndex := rlog.snapIndex;
      }
      if prevIndex > rlog.snapIndex + |rlog.entries| {
        return R.AppendResp(term, false, rlog.snapIndex + |rlog.entries| + 1, 0);
      }
      if prevIndex == req.prevIndex {
        var t, _ := rlog.Term(prevIndex);
        if t != req.prevTerm {
          var first := rlog.FirstIndexOfTerm(t, prevIndex);
          return R.AppendResp(term, false, first, t);
        }
      }
      WritesFresh(Value(), req, entries);
      Merge(entries);
      var newCommit := Min(req.commit, req.prevIndex + |req.entries|);
      if newCommit > commitIndex {
        commitIndex := newCommit;
      }
      return R.AppendResp(term, true, 0, 0);
    }

    /** What the source would panic on never arises: AppendEntriesIsSafe. */
    method HandleAppendEntries(req: R.AppendReq) returns (resp: R.AppendResp, answers: set<R.Answer>)
      requires req.term >= term ==>
                 var s := R.Follow(Value(), req.term, req.leader).0; SafeToWrite(s, R.ToWrite(s, req))
      modifies this, rlog, storage
      ensures (Value(), resp, answers) == R.HandleAppendEntries(old(Value()), req)
    {
      hide R.Follow, R.AppendSameTerm, SafeToWrite, R.ToWrite;
      answers := {};
      if req.term < term {
        return R.AppendResp(term, false, 0, 0), answers;
      }
      answers := Follow(req.term, req.leader);
      resp := AppendSameTerm(req);
    }

    method HandleInstallSnapshot(req: R.SnapReq) returns (respTerm: nat, answers: set<R.Answer>)
      modifies this, rlog, storage
      ensures (Value(), respTerm, answers) == R.HandleInstallSnapshot(old(Value()), req)
    {
      hide R.Follow, DiskSpec.SaveSnapshot;
      answers := {};
      if req.term < term {
        return term, answers;
      }
      answers := Follow(req.term, req.leader);
      if req.snap.index <= commitIndex {
        return term, answers;
      }
      var t, ok := rlog.Term(req.snap.index);
      var keepSuffix := ok && t == req.snap.term;
      storage.SaveSnapshot(req.snap, !keepSuffix);
      if keepSuffix {
        rlog.CompactTo(req.snap.index, req.snap.term);
      } else {
        rlog.Reset(req.snap.index, req.snap.term);
      }
      commitIndex := req.snap.index;
      pending := Some(req.snap);
      return term, answers;
    }

    method RecordAck(peer: NodeId, sentAt: nat)
      requires peer in ackedAt
      modifies this`ackedAt
      ensures Value() == R.RecordAck(old(Value()), peer, sentAt)
    {
      if sentAt > ackedAt[peer] {
        ackedAt := ackedAt[peer := sentAt];
      } else {
        assert ackedAt[peer := ackedAt[peer]] == ackedAt;
      }
    }

    /** The reply to an AppendEntries that this replica sent in `req.term`. */
    method OnAppendReply(peer: NodeId, req: R.AppendReq, sentAt: nat, resp: R.AppendResp)
        returns (answers: set<R.Answer>)
      requires role == R.Leader ==> peer in ackedAt && peer in matchIndex && peer in nextIndex
      modifies this, storage
      ensures (Value(), answers) == R.OnAppendReply(cfg, old(Value()), peer, req, sentAt, resp)
    {
      hide R.BecomeFollower, R.AdvanceCommit, LastIndexOfTerm;
      answers := {};
      if resp.term > term {
        answers := BecomeFollower(resp.term, NO_NODE);
        return;
      }
      if role != R.Leader || term != req.term {
        return;
      }
      RecordAck(peer, sentAt);
      if resp.success {
        var matched := req.prevIndex + |req.entries|;
        if matched > matchIndex[peer] {
          matchIndex := matchIndex[peer := matched];
          nextIndex := nextIndex[peer := matched + 1];
          AdvanceCommit();
        }
        return;
      }
      var next := resp.conflictIndex;
      if resp.conflictTerm != 0 {
        var idx := rlog.LastIndexOfTerm(resp.conflictTerm);
        if idx != 0 {
          next := idx + 1;
        }
      }
      nextIndex := nextIndex[peer := Max(1, Min(next, rlog.snapIndex + |rlog.entries| + 1))];
    }

    /** The reply to an InstallSnapshot that this replica sent in `req.term`. */
    method OnSnapshotReply(peer: NodeId, req: R.SnapReq, sentAt: nat, respTerm: nat) returns (answers: set<R.Answer>)
      requires role == R.Leader ==> peer in ackedAt && peer in matchIndex && peer in nextIndex
      modifies this, storage
      ensures (Value(), answers) == R.OnSnapshotReply(cfg, old(Value()), peer, req, sentAt, respTerm)
    {
      hide R.BecomeFollower, R.CommitCandidate;
      answers := {};
      if respTerm > term {
        answers := BecomeFollower(respTerm, NO_NODE);
        return;
      }
      if role != R.Leader || term != req.term {
        return;
      }
      RecordAck(peer, sentAt);
      if req.snap.index > matchIndex[peer] {
        matchIndex := matchIndex[peer := req.snap.index];
        AdvanceCommit();
      }
      nextIndex := nextIndex[peer := matchIndex[peer] + 1];
    }

    // ----------------------------------------------------------------
    // Proposals and the applier
    // ----------------------------------------------------------------

    /** Appends a batch of proposals and remembers who waits for which index. */
    method AppendProposals(batch: seq<(nat, Command)>) returns (answers: set<R.Answer>)
      requires InSync()
      modifies this, rlog, storage
      ensures (Value(), answers) == R.AppendProposals(cfg, old(Value()), batch)
    {
      hide R.AdvanceCommit, R.Refuse, DiskSpec.Save;
      if role != R.Leader || transferTarget != NO_NODE {
        answers := RefuseAll(batch);
        return;
      }
      answers := {};
      var last := rlog.snapIndex + |rlog.entries|;
      var es := ListEntries(last, term, batch);
      GrowLog(es);
      waiters := ListWaiters(waiters, last, term, batch);
      AdvanceCommit();
    }

    static method RefuseAll(batch: seq<(nat, Command)>) returns (answers: set<R.Answer>)
      ensures answers == R.Refuse(batch)
    {
      answers := {};
      for i := 0 to |batch|
        invariant answers == set j | 0 <= j < i :: R.Answer(batch[j].0, 0, batch[j].1, R.Failed)
      {
        answers := answers + {R.Answer(batch[i].0, 0, batch[i].1, R.Failed)};
      }
    }

    static method ListEntries(last: nat, term: nat, batch: seq<(nat, Command)>) returns (es: seq<Entry>)
      ensures es == R.ProposalEntries(last, term, batch)
    {
      es := [];
      for i := 0 to |batch|
        invariant |es| == i && forall j :: 0 <= j < i ==> es[j] == Entry(last + 1 + j, term, Normal(batch[j].1))
      {
        es := es + [Entry(last + 1 + i, term, Normal(batch[i].1))];
      }
    }

    static method ListWaiters(before: map<nat, R.Proposal>, last: nat, term: nat, batch: seq<(nat, Command)>)
        returns (after: map<nat, R.Proposal>)
      ensures after == R.AddWaiters(before, last, term, batch)
    {
      after := before;
      for i := 0 to |batch|
        invariant after == R.AddWaiters(before, last, term, batch[..i])
      {
        assert batch[..i + 1][..i] == batch[..i];
        after := after[last + 1 + i := R.Proposal(batch[i].0, term, batch[i].1)];
      }
      assert batch[..|batch|] == batch;
    }

    /** Applies the entries taken, outside the lock. */
    method ApplyTaken()
      requires phase.Applying? && |phase.results| <= |phase.entries|
      modifies this`sm, this`phase
      ensures Value() == ApplyRest(cfg, old(Value()))
      ensures phase.Applying? && |phase.results| == |phase.entries|
    {
      while |phase.results| < |phase.entries|
        invariant phase.Applying? && |phase.results| <= |phase.entries|
        invariant ApplyRest(cfg, Value()) == ApplyRest(cfg, old(Value()))
        decreases |phase.entries| - |phase.results|
      {
        var e := phase.entries[|phase.results|];
        var result: Option<Result> := None;
        ghost var before := Value();
        if e.payload.Normal? {
          var (next, r) := cfg.machine.apply(sm, e.index, e.payload.cmd);
          phase := R.Applying(phase.entries, phase.results + [Some(r)]);
          sm := next;
        } else {
          phase := R.Applying(phase.entries, phase.results + [None]);
        }
        assert Value() == R.ApplyOne(cfg, before);
      }
    }

    /** Answers those who wait for the entries just applied. */
    method FinishTaken() returns (answers: set<R.Answer>)
      requires R.AllApplied(Value())
      modifies this`waiters, this`lastApplied, this`phase
      ensures (Value(), answers) == R.ApplierFinish(cfg, old(Value()))
    {
      hide R.AnswersTo, R.FirstAt;
      var es, results := phase.entries, phase.results;
      answers := {};
      ghost var all := waiters;
      NoAnswers(all);
      assert es[..0] == [] && results[..0] == [];
      for i := 0 to |es|
        invariant lastApplied == old(lastApplied) && phase == old(phase)
        invariant waiters == all - set j | 0 <= j < i :: es[j].index
        invariant answers == R.AnswersTo(all, es[..i], results[..i])
      {
        var e := es[i];
        AnswersOneMore(all, es, results, i);
        if e.index in waiters {
          var p := waiters[e.index];
          var outcome := if p.term == e.term then R.Applied(results[i]) else R.Failed;
          answers := answers + {R.Answer(p.pid, e.index, p.cmd, outcome)};
          waiters := waiters - {e.index};
        }
      }
      assert es[..|es|] == es && results[..|es|] == results;
      var last := es[|es| - 1].index;
      lastApplied := Max(lastApplied, last);
      var due := cfg.snapshotThreshold > 0 && lastApplied > rlog.snapIndex
          && lastApplied - rlog.snapIndex >= cfg.snapshotThreshold;
      phase := if due then R.SnapshotDue(last) else R.Idle;
    }
  }

  /** The applier's calls to the state machine, one after the other. */
  ghost function ApplyRest(cfg: R.Config, s: R.Node): R.Node
    decreases if R.MoreToApply(s) then |s.appl.phase.entries| - |s.appl.phase.results| else 0
  {
    if R.MoreToApply(s) then ApplyRest(cfg, R.ApplyOne(cfg, s)) else s
  }

  lemma NoAnswers(w: map<nat, R.Proposal>)
    ensures R.AnswersTo(w, [], []) == {}
  {
  }

  /** The next entry answers the waiter at its index, if it is still there. */
  lemma AnswersOneMore(w: map<nat, R.Proposal>, es: seq<Entry>, rs: seq<Option<Result>>, i: nat)
    requires i < |es| == |rs|
    ensures var now := if es[i].index in w && R.FirstAt(es, i) then {R.AnswerFor(w[es[i].index], es[i], rs[i])} else {};
            R.AnswersTo(w, es[..i + 1], rs[..i + 1]) == R.AnswersTo(w, es[..i], rs[..i]) + now
    ensures R.FirstAt(es, i) <==> es[i].index !in set j | 0 <= j < i :: es[j].index
  {
    forall j | 0 <= j < i
      ensures R.FirstAt(es[..i], j) == R.FirstAt(es, j) == R.FirstAt(es[..i + 1], j)
    {
    }
  }

  lemma PersistFrame(s: R.Node)
    ensures R.Persist(s, true, []) == s.(disk := R.Persist(s, true, []).disk)
  {
  }

  lemma GrowKeepsLead(s: R.Node, es: seq<Entry>, lead: R.LeaderState)
    ensures R.GrowLog(s, es).(lead := lead) == R.GrowLog(s.(lead := lead), es)
    ensures R.GrowLog(s, es).lead == s.lead
  {
  }

  lemma WritesFresh(s: R.Node, req: R.AppendReq, entries: seq<Entry>)
    requires R.AppendSameTerm(s, req).1.success && SafeToWrite(s, R.ToWrite(s, req))
    requires R.Skip(s, req) <= |req.entries| && entries == req.entries[R.Skip(s, req)..]
    ensures SafeToWrite(s, R.Fresh(s.log, entries))
  {
    hide R.AppendSameTerm;
    if R.Skip(s, req) == |req.entries| {
      assert entries == [];
    }
  }

  ghost function FailSome(all: map<nat, R.Proposal>, some: set<nat>): set<R.Answer>
    requires some <= all.Keys
  {
    set i | i in some :: R.Answer(all[i].pid, i, all[i].cmd, R.Failed)
  }

  lemma FailOneMore(all: map<nat, R.Proposal>, some: set<nat>, index: nat)
    requires some <= all.Keys && index in all
    ensures var a := R.Answer(all[index].pid, index, all[index].cmd, R.Failed);
            FailSome(all, some + {index}) == FailSome(all, some) + {a}
  {
  }
}
