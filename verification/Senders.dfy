/** What makes runs timely. The source checks nothing when it reads a snapshot
    to send, but it cancels the sender's context when the sender steps down: a
    transport that refuses a cancelled context hands snapshots over only while
    their senders lead. That is enough, and so is a sender that still leads
    when it reads. */
module Senders {
  import opened Types
  import opened Quorum
  import opened LogSpec
  import opened DiskSpec
  import opened Replica
  import opened Cluster
  import opened Link
  import opened Steps
  import opened Safety
  import V = Votes
  import C = Consensus

  ghost predicate Leads(s: Group, n: NodeId, t: nat) {
    n in s.nodes && s.nodes[n].role == Leader && s.nodes[n].term == t
  }

  /** The sender leads the term it decided in when it reads its storage. */
  ghost predicate Sits(s: Group, step: Step) {
    step.ReadSnapshot? ==> Leads(s, step.it.node, step.it.term)
  }

  /** The sender leads the request's term when the transport takes it. */
  ghost predicate LiveSend(s: Group, step: Step) {
    step.Transmit? && step.p.PreparedSnap? ==> Leads(s, step.p.install.leader, step.p.install.term)
  }

  /** Every snapshot is read by a sitting leader, or every one is sent by one. */
  ghost predicate Guarded(run: seq<Group>, steps: seq<Step>) {
    && IsRun(run, steps)
    && ((forall i :: 0 <= i < |steps| ==> Sits(run[i], steps[i]))
        || (forall i :: 0 <= i < |steps| ==> LiveSend(run[i], steps[i])))
  }

  // ------------------------------------------------------------------
  // Where a snapshot under way comes from
  // ------------------------------------------------------------------

  lemma NoSnapSent(s: Group, step: Step)
    requires Enabled(s, step) && !step.Transmit?
    ensures forall m :: m in EffectOf(s, step).sent ==> !m.SnapMsg?
  {
    hide StartElection, HandlePreVote, HandleRequestVote, HandleAppendEntries, HandleInstallSnapshot, OnAppendReply,
         OnSnapshotReply, BecomeFollower, BecomeLeader, AppendProposals, ApplierDo, PrepareAppend, Boot, Save,
         CutDisk, ProposalEntries, IsQuorum;
  }

  /** A new message with a snapshot was prepared before. */
  lemma SnapsSentFrom(s: Group, step: Step)
    requires Enabled(s, step)
    ensures forall m :: m in Do(s, step).net && m.SnapMsg? && m !in s.net ==>
              step == Transmit(PreparedSnap(m.to, m.install)) && step.p in s.prepared
  {
    hide EffectOf, PrepareAppend, IsQuorum, SentSnapshot, Submitted, Without;
    if !step.Transmit? {
      DoShape(s, step);
      NoSnapSent(s, step);
    }
  }

  /** A new prepared one was read on an earlier decision. */
  lemma SnapsPreparedFrom(s: Group, step: Step)
    requires Enabled(s, step)
    ensures forall p :: p in Do(s, step).prepared && p.PreparedSnap? && p !in s.prepared ==>
              && step.ReadSnapshot? && step.it in s.intents && step.it.node in s.nodes
              && s.nodes[step.it.node].disk.snap.Some? && p == SentSnapshot(step.it, s.nodes[step.it.node])
  {
    hide EffectOf, PrepareAppend, IsQuorum, SentSnapshot, Submitted, Without;
  }

  /** A new decision was made by a leader. */
  lemma IntentsFrom(s: Group, step: Step)
    requires Enabled(s, step)
    ensures forall it :: it in Do(s, step).intents && it !in s.intents ==> Leads(s, it.node, it.term)
  {
    hide EffectOf, PrepareAppend, IsQuorum, SentSnapshot, Submitted;
  }

  lemma {:induction false} SentAt(run: seq<Group>, steps: seq<Step>, i: nat, m: Msg) returns (x: nat)
    requires IsRun(run, steps) && i < |run| && m in run[i].net && m.SnapMsg?
    ensures x < i && steps[x] == Transmit(PreparedSnap(m.to, m.install)) && steps[x].p in run[x].prepared
    decreases i
  {
    hide Enabled, Do;
    SnapsSentFrom(run[i - 1], steps[i - 1]);
    if m in run[i - 1].net {
      x := SentAt(run, steps, i - 1, m);
    } else {
      x := i - 1;
    }
  }

  lemma {:induction false} ReadAt(run: seq<Group>, steps: seq<Step>, i: nat, p: Prepared) returns (r: nat)
    requires IsRun(run, steps) && i < |run| && p in run[i].prepared && p.PreparedSnap?
    ensures r < i && steps[r].ReadSnapshot? && steps[r].it in run[r].intents && steps[r].it.node in run[r].nodes
    ensures run[r].nodes[steps[r].it.node].disk.snap.Some?
    ensures p == SentSnapshot(steps[r].it, run[r].nodes[steps[r].it.node])
    decreases i
  {
    hide Enabled, Do, SentSnapshot;
    SnapsPreparedFrom(run[i - 1], steps[i - 1]);
    if p in run[i - 1].prepared {
      r := ReadAt(run, steps, i - 1, p);
    } else {
      r := i - 1;
    }
  }

  lemma {:induction false} DecidedAt(run: seq<Group>, steps: seq<Step>, i: nat, it: Intent) returns (d: nat)
    requires IsRun(run, steps) && i < |run| && it in run[i].intents
    ensures d < i && Leads(run[d], it.node, it.term)
    decreases i
  {
    hide Enabled, Do;
    IntentsFrom(run[i - 1], steps[i - 1]);
    if it in run[i - 1].intents {
      d := DecidedAt(run, steps, i - 1, it);
    } else {
      d := i - 1;
    }
  }

  /** Either guard makes a snapshot under way one that its sender read while it
      led the request's term. */
  lemma ReadInOffice(run: seq<Group>, steps: seq<Step>, i: nat, m: Msg) returns (r: nat)
    requires Guarded(run, steps) && i < |run| && m in run[i].net && m.SnapMsg?
    ensures r < i && Leads(run[r], m.install.leader, m.install.term)
    ensures run[r].nodes[m.install.leader].disk.snap == Some(m.install.snap)
  {
    hide Enabled, Do, Init;
    var x := SentAt(run, steps, i, m);
    r := ReadAt(run, steps, x, steps[x].p);
    var it := steps[r].it;
    if forall k :: 0 <= k < |steps| ==> LiveSend(run[k], steps[k]) {
      var d := DecidedAt(run, steps, r, it);
      assert LiveSend(run[x], steps[x]);
      V.OfficeUnbroken(run, steps, d, r, x, it.node);
    } else {
      assert Sits(run[r], steps[r]);
    }
  }

  // ------------------------------------------------------------------
  // Guarded runs are timely
  // ------------------------------------------------------------------

  /** What is under way has been committed in the request's term or below. */
  lemma UnderWayCommitted(run: seq<Group>, steps: seq<Step>, hs: seq<C.History>, i: nat, m: Msg)
    requires Guarded(run, steps) && Explains(hs, run) && i < |run| && m in run[i].net && m.SnapMsg?
    ensures CommittedBy(run, i, m.install.term, m.install.snap.index)
  {
    hide Guarded, Inv, Later, CommittedBy;
    var r := ReadInOffice(run, steps, i, m);
    StoredWithinCommit(run[r], hs[r], m.install.leader);
    CommittedNow(run, r, m.install.leader, m.install.term, m.install.snap.index);
    CommittedOn(run, r, m.install.term, m.install.snap.index, i, m.install.term, m.install.snap.index);
  }

  lemma GuardedPrefix(run: seq<Group>, steps: seq<Step>, k: nat)
    requires Guarded(run, steps) && k <= |steps|
    ensures Guarded(run[..k + 1], steps[..k])
  {
    hide Init, Do, Enabled, Sits, LiveSend;
  }

  lemma InNet(s: Group, step: Step)
    requires Enabled(s, step)
    ensures step.AnswerSnapshot? || step.CutAnswer? ==> step.m in s.net
  {
  }

  lemma {:induction false} GuardedIsTimely(run: seq<Group>, steps: seq<Step>)
    requires Guarded(run, steps)
    ensures TimelyRun(run, steps)
    decreases |steps|
  {
    hide Guarded, Inv, Init, Do, Enabled, CommittedBy, Explains;
    assert IsRun(run, steps) by { GuardedRuns(run, steps); }
    if |steps| > 0 {
      var k := |steps| - 1;
      var run', steps' := run[..k + 1], steps[..k];
      GuardedPrefix(run, steps, k);
      GuardedIsTimely(run', steps');
      var hs := RunExplained(run', steps');
      forall i | 0 <= i < |steps|
        ensures Timely(run, i, steps[i])
      {
        if i < k {
          assert Timely(run', i, steps'[i]);
        } else if steps[k].AnswerSnapshot? && Installs(run[k], steps[k].n, steps[k].m) {
          InNet(run[k], steps[k]);
          UnderWayCommitted(run', steps', hs, k, steps[k].m);
        }
        TimelyWithin(run, k + 1, i, steps[i]);
      }
    }
  }

  lemma GuardedRuns(run: seq<Group>, steps: seq<Step>)
    requires Guarded(run, steps)
    ensures IsRun(run, steps)
  {
  }

  /** A run in which the transport takes snapshots only from senders that lead
      the request's term at that moment is timely. */
  lemma LiveSendsAreTimely(run: seq<Group>, steps: seq<Step>)
    requires IsRun(run, steps) && forall i :: 0 <= i < |steps| ==> LiveSend(run[i], steps[i])
    ensures TimelyRun(run, steps)
  {
    hide IsRun, LiveSend, Sits, TimelyRun;
    GuardedIsTimely(run, steps);
  }

  /** So is one whose senders still lead when they read their storage. */
  lemma SittingReadsAreTimely(run: seq<Group>, steps: seq<Step>)
    requires IsRun(run, steps) && forall i :: 0 <= i < |steps| ==> Sits(run[i], steps[i])
    ensures TimelyRun(run, steps)
  {
    hide IsRun, LiveSend, Sits, TimelyRun;
    GuardedIsTimely(run, steps);
  }
}
