/** Replaying an append-only log of entry records over a snapshot, compared
    with the log those records stand for. */
module Recovery {
  import opened Types
  import opened DiskSpec

  // ------------------------------------------------------------------
  // What the records mean
  // ------------------------------------------------------------------

  /** Writing an index replaces that entry and everything after it. */
  function Write(log: seq<Entry>, e: Entry): seq<Entry> {
    log[..if 1 <= e.index <= |log| then e.index - 1 else |log|] + [e]
  }

  /** The log that a sequence of records, written after `base`, stands for. */
  function LogAfter(base: seq<Entry>, recs: seq<Entry>): seq<Entry> {
    if |recs| == 0 then base else Write(LogAfter(base, recs[..|recs| - 1]), recs[|recs| - 1])
  }

  /** Every record overwrites or extends the log it finds. */
  ghost predicate Legal(base: seq<Entry>, recs: seq<Entry>) {
    forall i :: 0 <= i < |recs| ==> 1 <= recs[i].index <= |LogAfter(base, recs[..i])| + 1
  }

  function Tail(log: seq<Entry>, snap: nat): seq<Entry> {
    if snap <= |log| then log[snap..] else []
  }

  lemma LegalFront(base: seq<Entry>, recs: seq<Entry>)
    requires Legal(base, recs) && |recs| > 0
    ensures var front := recs[..|recs| - 1]; var e := recs[|recs| - 1];
            Legal(base, front) && 1 <= e.index <= |LogAfter(base, front)| + 1
  {
    var front := recs[..|recs| - 1];
    forall i | 0 <= i < |front|
      ensures 1 <= front[i].index <= |LogAfter(base, front[..i])| + 1
    {
      assert front[..i] == recs[..i];
      assert 1 <= recs[i].index <= |LogAfter(base, recs[..i])| + 1;
    }
  }

  // ------------------------------------------------------------------
  // The replay
  // ------------------------------------------------------------------

  /** The entries recovered above a snapshot; `None` reports a gap. */
  function Replayed(snap: nat, recs: seq<Entry>): Option<seq<Entry>> {
    if |recs| == 0 then Some([])
    else
      var front := Replayed(snap, recs[..|recs| - 1]);
      var e := recs[|recs| - 1];
      if front.None? || e.index <= snap then front
      else if e.index - snap - 1 > |front.value| then None
      else Some(front.value[..e.index - snap - 1] + [e])
  }

  /** The same replay if a record inside the snapshot dropped the tail. */
  function ReplayedClearing(snap: nat, recs: seq<Entry>): Option<seq<Entry>> {
    if |recs| == 0 then Some([])
    else
      var front := ReplayedClearing(snap, recs[..|recs| - 1]);
      var e := recs[|recs| - 1];
      if front.None? then None
      else if e.index <= snap then Some([])
      else if e.index - snap - 1 > |front.value| then None
      else Some(front.value[..e.index - snap - 1] + [e])
  }

  /** Nothing above the snapshot is known only from before these records. */
  ghost predicate Anchored(base: seq<Entry>, recs: seq<Entry>, snap: nat) {
    |base| <= snap || (|recs| > 0 && recs[0].index <= snap + 1)
  }

  /** Some record reaches past the snapshot. */
  ghost predicate ReachesPast(recs: seq<Entry>, snap: nat) {
    exists i :: 0 <= i < |recs| && recs[i].index > snap
  }

  /** The order condition under which skipping is harmless. */
  ghost predicate EndsAbove(recs: seq<Entry>, snap: nat) {
    |recs| > 0 && recs[|recs| - 1].index > snap
  }

  lemma WriteTail(log: seq<Entry>, e: Entry, snap: nat)
    requires 1 <= e.index <= |log| + 1
    ensures |Write(log, e)| == e.index
    ensures e.index <= snap ==> Tail(Write(log, e), snap) == []
    ensures snap < e.index ==> e.index - snap - 1 <= |Tail(log, snap)|
    ensures snap < e.index ==> Tail(Write(log, e), snap) == Tail(log, snap)[..e.index - snap - 1] + [e]
  {
  }

  /** Clearing replay needs no condition: it recovers exactly the log. */
  lemma {:induction false} ClearingIsExact(base: seq<Entry>, recs: seq<Entry>, snap: nat)
    requires Legal(base, recs) && Anchored(base, recs, snap)
    ensures ReplayedClearing(snap, recs) == Some(Tail(LogAfter(base, recs), snap))
  {
    if |recs| > 0 {
      var front, e := recs[..|recs| - 1], recs[|recs| - 1];
      LegalFront(base, recs);
      WriteTail(LogAfter(base, front), e, snap);
      if |front| == 0 {
        assert front == [];
      } else {
        ClearingIsExact(base, front, snap);
      }
    }
  }

  /** What the replay as written holds after each record. */
  lemma {:induction false} ReplayedShape(base: seq<Entry>, recs: seq<Entry>, snap: nat)
    requires Legal(base, recs) && Anchored(base, recs, snap) && |recs| > 0
    ensures Replayed(snap, recs).Some?
    ensures EndsAbove(recs, snap) ==> Replayed(snap, recs).value == Tail(LogAfter(base, recs), snap)
    ensures !EndsAbove(recs, snap) ==> Tail(LogAfter(base, recs), snap) == []
    ensures Replayed(snap, recs).value == [] <==> !ReachesPast(recs, snap)
  {
    hide Legal, LogAfter, Tail, ReachesPast, Write;
    var front, e := recs[..|recs| - 1], recs[|recs| - 1];
    LegalFront(base, recs);
    LastWritten(base, recs);
    WriteTail(LogAfter(base, front), e, snap);
    ReachesLast(recs, snap);
    if |front| == 0 {
      assert front == [];
      FirstWritten(base, e, snap);
    } else {
      ReplayedShape(base, front, snap);
    }
  }

  lemma FirstWritten(base: seq<Entry>, e: Entry, snap: nat)
    requires Anchored(base, [e], snap) && 1 <= e.index <= |LogAfter(base, [])| + 1
    ensures LogAfter(base, []) == base && e.index <= snap + 1 && !ReachesPast([], snap)
    ensures Tail(base, snap)[..0] == []
  {
  }

  lemma LastWritten(base: seq<Entry>, recs: seq<Entry>)
    requires |recs| > 0
    ensures LogAfter(base, recs) == Write(LogAfter(base, recs[..|recs| - 1]), recs[|recs| - 1])
  {
  }

  lemma ReachesLast(recs: seq<Entry>, snap: nat)
    requires |recs| > 0
    ensures ReachesPast(recs, snap) <==> ReachesPast(recs[..|recs| - 1], snap) || recs[|recs| - 1].index > snap
  {
    var front := recs[..|recs| - 1];
    if ReachesPast(front, snap) {
      var i :| 0 <= i < |front| && front[i].index > snap;
      assert recs[i].index > snap;
    }
    if ReachesPast(recs, snap) && recs[|recs| - 1].index <= snap {
      var i :| 0 <= i < |recs| && recs[i].index > snap;
      assert front[i].index > snap;
    }
  }

  /** Recovery never reports a gap, and recovers exactly the log if and only
      if the last record lies above the snapshot or none does. */
  lemma RecoveryIsExactIff(base: seq<Entry>, recs: seq<Entry>, snap: nat)
    requires Legal(base, recs) && Anchored(base, recs, snap)
    ensures Replayed(snap, recs).Some?
    ensures var exact := Replayed(snap, recs).value == Tail(LogAfter(base, recs), snap);
            exact <==> EndsAbove(recs, snap) || !ReachesPast(recs, snap)
  {
    if |recs| > 0 {
      ReplayedShape(base, recs, snap);
    }
  }

  lemma LegalSplit(base: seq<Entry>, a: seq<Entry>, b: seq<Entry>)
    requires Legal(base, a + b)
    ensures Legal(LogAfter(base, a), b) && LogAfter(LogAfter(base, a), b) == LogAfter(base, a + b)
  {
    hide LogAfter;
    LogAfterJoins(base, a, b);
    forall i | 0 <= i < |b|
      ensures 1 <= b[i].index <= |LogAfter(LogAfter(base, a), b[..i])| + 1
    {
      assert (a + b)[|a| + i] == b[i];
      assert (a + b)[..|a| + i] == a + b[..i];
      LogAfterJoins(base, a, b[..i]);
    }
  }

  lemma {:induction false} LogAfterJoins(base: seq<Entry>, a: seq<Entry>, b: seq<Entry>)
    ensures LogAfter(LogAfter(base, a), b) == LogAfter(base, a + b)
  {
    if |b| == 0 {
      assert a + b == a;
    } else {
      assert (a + b)[..|a + b| - 1] == a + b[..|b| - 1];
      LogAfterJoins(base, a, b[..|b| - 1]);
    }
  }

  // ------------------------------------------------------------------
  // Against the in-memory storage
  // ------------------------------------------------------------------

  /** The records account for what the in-memory storage holds. */
  ghost predicate Accounts(base: seq<Entry>, recs: seq<Entry>, d: Disk) {
    && Legal(base, recs)
    && SnapIndex(d) <= |LogAfter(base, recs)|
    && d.entries == LogAfter(base, recs)[SnapIndex(d)..]
  }

  /** What Raft may save: consecutive entries above the snapshot, no gap. */
  ghost predicate MaySave(d: Disk, es: seq<Entry>) {
    |es| > 0 ==>
      && SnapIndex(d) < es[0].index <= SnapIndex(d) + |d.entries| + 1
      && forall i :: 0 <= i < |es| ==> es[i].index == es[0].index + i
  }

  lemma AppendAccounts(base: seq<Entry>, recs: seq<Entry>, d: Disk, e: Entry)
    requires Accounts(base, recs, d) && SnapIndex(d) < e.index <= SnapIndex(d) + |d.entries| + 1
    ensures Accounts(base, recs + [e], AppendEntry(d, e))
    ensures SnapIndex(d) + |AppendEntry(d, e).entries| == e.index
    ensures AppendEntry(d, e) == d.(entries := AppendEntry(d, e).entries)
  {
    var log := LogAfter(base, recs);
    assert (recs + [e])[..|recs|] == recs;
    forall i | 0 <= i < |recs + [e]|
      ensures 1 <= (recs + [e])[i].index <= |LogAfter(base, (recs + [e])[..i])| + 1
    {
      if i < |recs| { assert (recs + [e])[..i] == recs[..i]; }
    }
    WriteTail(log, e, SnapIndex(d));
  }

  /** Appending the records of a batch is what saving it means. */
  lemma {:induction false} SaveAccounts(base: seq<Entry>, recs: seq<Entry>, d: Disk, es: seq<Entry>)
    requires Accounts(base, recs, d) && MaySave(d, es)
    ensures Accounts(base, recs + es, AppendEntries(d, es))
    ensures AppendEntries(d, es) == d.(entries := AppendEntries(d, es).entries)
    ensures |es| > 0 ==> SnapIndex(d) + |AppendEntries(d, es).entries| == es[|es| - 1].index
  {
    hide Accounts, AppendEntry;
    if |es| == 0 {
      assert recs + es == recs;
    } else {
      var front := es[..|es| - 1];
      SaveAccounts(base, recs, d, front);
      assert recs + es == (recs + front) + [es[|es| - 1]];
      AppendAccounts(base, recs + front, AppendEntries(d, front), es[|es| - 1]);
    }
  }

  /** A snapshot of an index the log has keeps the accounts. */
  lemma SnapshotAccounts(base: seq<Entry>, recs: seq<Entry>, d: Disk, snap: Snapshot)
    requires Accounts(base, recs, d) && snap.index <= |LogAfter(base, recs)|
    ensures Accounts(base, recs, SaveSnapshot(d, snap, false))
  {
  }

  /** A snapshot that discards the log starts new accounts. */
  lemma DiscardAccounts(base: seq<Entry>, d: Disk, snap: Snapshot)
    requires |base| == snap.index && SnapIndex(d) < snap.index
    ensures Accounts(base, [], SaveSnapshot(d, snap, true))
  {
  }

  /** Save 1 and 2 in term 1, overwrite 1 in term 2, snapshot at 1: the
      in-memory storage holds nothing after the snapshot, the replay brings
      back entry 2 of term 1. */
  lemma SkippedOverwriteResurrects(p: Payload, data: KvState)
    ensures var saved, overwrite := [Entry(1, 1, p), Entry(2, 1, p)], [Entry(1, 2, p)];
            var d := SaveSnapshot(Save(Save(EMPTY_DISK, None, saved), None, overwrite), Snapshot(1, 2, data), false);
            && d == Disk(None, Some(Snapshot(1, 2, data)), [])
            && Replayed(1, saved + overwrite) == Some([Entry(2, 1, p)])
            && ReplayedClearing(1, saved + overwrite) == Some([])
  {
    var a, b, o := Entry(1, 1, p), Entry(2, 1, p), Entry(1, 2, p);
    assert [a, b][..1] == [a] && [a][..0] == [] && [o][..0] == [];
    MemoryDrops(a, b, o);
    ReplayKeeps(a, b, o);
  }

  lemma MemoryDrops(a: Entry, b: Entry, o: Entry)
    requires a.index == 1 && b.index == 2 && o.index == 1
    ensures AppendEntries(AppendEntries(EMPTY_DISK, [a, b]), [o]) == Disk(None, None, [o])
  {
    assert [a, b][..1] == [a] && [a][..0] == [] && [o][..0] == [];
    assert AppendEntries(EMPTY_DISK, [a]).entries == [a];
    assert AppendEntries(EMPTY_DISK, [a, b]).entries == [a, b];
  }

  lemma ReplayKeeps(a: Entry, b: Entry, o: Entry)
    requires a.index == 1 && b.index == 2 && o.index == 1
    ensures Replayed(1, [a, b] + [o]) == Some([b]) && ReplayedClearing(1, [a, b] + [o]) == Some([])
  {
    var recs := [a, b] + [o];
    assert recs[..2] == [a, b];
    assert [a, b][..1] == [a] && [a][..0] == [];
    assert Replayed(1, [a]) == Some([]);
    assert Replayed(1, [a]).value[..0] + [b] == [b];
    assert Replayed(1, [a, b]) == Some([b]);
    assert ReplayedClearing(1, [a]) == Some([]);
    assert ReplayedClearing(1, [a, b]) == Some([b]);
  }
}
