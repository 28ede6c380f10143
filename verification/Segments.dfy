/** Raft's durable state as segments of records and a snapshot file: what it
    stands for, and what appending, rotating, snapshotting and deleting
    segments keep. */
module Segments {
  import opened Types
  import opened DiskSpec
  import opened Recovery

  datatype Rec = HardRec(hs: HardState) | EntryRec(e: Entry)

  /** `tag` is the first log index that may appear in the segment. */
  datatype Segment = Segment(seqNo: nat, tag: nat, recs: seq<Rec>)

  /** A snapshot and the first segment that recovery may read with it. */
  datatype SnapFile = SnapFile(snap: Snapshot, minSeq: nat)

  function FileIndex(f: Option<SnapFile>): nat {
    if f.Some? then f.value.snap.index else 0
  }

  function MinSeq(f: Option<SnapFile>): nat {
    if f.Some? then f.value.minSeq else 0
  }

  function SnapIn(f: Option<SnapFile>): Option<Snapshot> {
    if f.Some? then Some(f.value.snap) else None
  }

  // ------------------------------------------------------------------
  // Reading records
  // ------------------------------------------------------------------

  function EntriesOf(recs: seq<Rec>): seq<Entry> {
    if |recs| == 0 then []
    else EntriesOf(recs[..|recs| - 1]) + if recs[|recs| - 1].EntryRec? then [recs[|recs| - 1].e] else []
  }

  function LastHard(recs: seq<Rec>): Option<HardState> {
    if |recs| == 0 then None
    else if recs[|recs| - 1].HardRec? then Some(recs[|recs| - 1].hs)
    else LastHard(recs[..|recs| - 1])
  }

  /** All records of the segments from `min` on. */
  function RecsFrom(segs: seq<Segment>, min: nat): seq<Rec> {
    if |segs| == 0 then []
    else RecsFrom(segs[..|segs| - 1], min) + if segs[|segs| - 1].seqNo >= min then segs[|segs| - 1].recs else []
  }

  lemma {:induction false} EntriesJoin(a: seq<Rec>, b: seq<Rec>)
    ensures EntriesOf(a + b) == EntriesOf(a) + EntriesOf(b)
  {
    if |b| == 0 {
      assert a + b == a;
    } else {
      assert (a + b)[..|a + b| - 1] == a + b[..|b| - 1];
      EntriesJoin(a, b[..|b| - 1]);
    }
  }

  lemma {:induction false} HardJoin(a: seq<Rec>, b: seq<Rec>)
    ensures LastHard(a + b) == if LastHard(b).Some? then LastHard(b) else LastHard(a)
  {
    if |b| == 0 {
      assert a + b == a;
    } else {
      assert (a + b)[..|a + b| - 1] == a + b[..|b| - 1];
      HardJoin(a, b[..|b| - 1]);
    }
  }

  lemma {:induction false} RecsJoin(a: seq<Segment>, b: seq<Segment>, min: nat)
    ensures RecsFrom(a + b, min) == RecsFrom(a, min) + RecsFrom(b, min)
  {
    if |b| == 0 {
      assert a + b == a;
    } else {
      var front, last := b[..|b| - 1], b[|b| - 1];
      var more := if last.seqNo >= min then last.recs else [];
      assert (a + b)[..|a + b| - 1] == a + front;
      RecsJoin(a, front, min);
      assert (RecsFrom(a, min) + RecsFrom(front, min)) + more == RecsFrom(a, min) + (RecsFrom(front, min) + more);
    }
  }

  lemma {:induction false} RecsDead(segs: seq<Segment>, min: nat)
    requires forall i :: 0 <= i < |segs| ==> segs[i].seqNo < min
    ensures RecsFrom(segs, min) == []
  {
    if |segs| > 0 {
      RecsDead(segs[..|segs| - 1], min);
    }
  }

  // ------------------------------------------------------------------
  // What the files stand for
  // ------------------------------------------------------------------

  ghost predicate Ascend(segs: seq<Segment>) {
    forall i, j :: 0 <= i < j < |segs| ==> segs[i].seqNo < segs[j].seqNo
  }

  /** The files as they are listed when the storage is opened. */
  ghost predicate Listed(segs: seq<Segment>, file: Option<SnapFile>) {
    |segs| > 0 && Ascend(segs) && MinSeq(file) <= segs[|segs| - 1].seqNo
  }

  /** The storage value that `Load` finds in the files, unless there is a gap. */
  function Loaded(segs: seq<Segment>, file: Option<SnapFile>): Option<Disk> {
    var recs := RecsFrom(segs, MinSeq(file));
    var es := Replayed(FileIndex(file), EntriesOf(recs));
    if es.None? then None else Some(Disk(LastHard(recs), SnapIn(file), es.value))
  }

  /** The files hold the storage value `d`; `base` is the log that segments
      already deleted accounted for. */
  ghost predicate Durable(segs: seq<Segment>, file: Option<SnapFile>, base: seq<Entry>, d: Disk) {
    var recs := RecsFrom(segs, MinSeq(file));
    && Listed(segs, file)
    && d.snap == SnapIn(file)
    && d.hs == LastHard(recs)
    && Accounts(base, EntriesOf(recs), d)
    && Anchored(base, EntriesOf(recs), SnapIndex(d))
  }

  /** The log the files account for, snapshot or not. */
  function FullLog(segs: seq<Segment>, min: nat, base: seq<Entry>): seq<Entry> {
    LogAfter(base, EntriesOf(RecsFrom(segs, min)))
  }

  lemma LogLength(segs: seq<Segment>, file: Option<SnapFile>, base: seq<Entry>, d: Disk)
    requires Durable(segs, file, base, d)
    ensures |FullLog(segs, MinSeq(file), base)| == EndOf(d)
  {
    hide Anchored, RecsFrom, EntriesOf, LastHard, LogAfter, Legal;
  }

  /** The last index that storage holds. */
  function EndOf(d: Disk): nat {
    SnapIndex(d) + |d.entries|
  }

  /** The entries recorded from segment `i` on. */
  function Since(segs: seq<Segment>, min: nat, i: nat): seq<Entry>
    requires i <= |segs|
  {
    EntriesOf(RecsFrom(segs[i..], min))
  }

  /** With the log ending at `last`, nothing before segment `i` reaches its
      tag, or it was overwritten from below the tag since. */
  ghost predicate Tight(segs: seq<Segment>, min: nat, last: nat, i: nat)
    requires i < |segs|
  {
    var later := Since(segs, min, i);
    if |later| > 0 then later[0].index <= segs[i].tag else last < segs[i].tag
  }

  ghost predicate AllTight(segs: seq<Segment>, min: nat, last: nat) {
    forall i :: 0 < i < |segs| && segs[i].seqNo >= min ==> Tight(segs, min, last, i)
  }

  /** With a snapshot at `snap`, the segments before `i` hold nothing that is
      still needed: the later ones start at or below the first index above the
      snapshot, or the log ends within it. */
  predicate Kept(segs: seq<Segment>, min: nat, last: nat, snap: nat, i: nat)
    requires i <= |segs|
  {
    var later := Since(segs, min, i);
    if |later| > 0 then later[0].index <= snap + 1 else last <= snap
  }

  /** The segments before any one that a snapshot at `snap` covers by its tag
      are not needed. */
  ghost predicate KeepsAt(segs: seq<Segment>, min: nat, last: nat, snap: nat) {
    forall i :: 0 < i < |segs| && segs[i].seqNo >= min && segs[i].tag <= snap + 1 ==> Kept(segs, min, last, snap, i)
  }

  lemma TightKeeps(segs: seq<Segment>, min: nat, last: nat, snap: nat)
    requires AllTight(segs, min, last)
    ensures KeepsAt(segs, min, last, snap)
  {
    hide Since;
    forall i | 0 < i < |segs| && segs[i].seqNo >= min && segs[i].tag <= snap + 1
      ensures Kept(segs, min, last, snap, i)
    {
      assert Tight(segs, min, last, i);
    }
  }

  /** A hard state known before a segment is restated in it. */
  ghost predicate Headed(segs: seq<Segment>, min: nat) {
    forall i :: 0 < i < |segs| && LastHard(RecsFrom(segs[..i], min)).Some? ==> LastHard(segs[i].recs).Some?
  }

  /** The segments from `i` on still tell the hard state, if there is one. */
  predicate HardKept(segs: seq<Segment>, min: nat, i: nat)
    requires i <= |segs|
  {
    LastHard(RecsFrom(segs[i..], min)).Some? || LastHard(RecsFrom(segs, min)).None?
  }

  /** So do those from any segment on that a snapshot at `snap` covers by its tag. */
  ghost predicate HardAt(segs: seq<Segment>, min: nat, snap: nat) {
    forall i :: 0 < i < |segs| && segs[i].seqNo >= min && segs[i].tag <= snap + 1 ==> HardKept(segs, min, i)
  }

  lemma HeadedKeeps(segs: seq<Segment>, min: nat, snap: nat)
    requires Ascend(segs) && |segs| > 0 && min <= segs[|segs| - 1].seqNo && Headed(segs, min)
    ensures HardAt(segs, min, snap)
  {
    hide Headed, RecsFrom, LastHard;
    forall i | 0 < i < |segs| && segs[i].seqNo >= min && segs[i].tag <= snap + 1
      ensures HardKept(segs, min, i)
    {
      DropHard(segs, min, i);
    }
  }

  lemma EmptyIsDurable()
    ensures Durable([Segment(1, 0, [])], None, [], EMPTY_DISK)
    ensures KeepsAt([Segment(1, 0, [])], 0, 0, 0) && AllTight([Segment(1, 0, [])], 0, 0)
    ensures HardAt([Segment(1, 0, [])], 0, 0) && Headed([Segment(1, 0, [])], 0)
  {
    Singleton(Segment(1, 0, []), 0);
  }

  // ------------------------------------------------------------------
  // Appending a batch
  // ------------------------------------------------------------------

  function EntryRecs(es: seq<Entry>): seq<Rec> {
    seq(|es|, i requires 0 <= i < |es| => EntryRec(es[i]))
  }

  /** The records of one save: hard state first, then the entries. */
  function Batch(hs: Option<HardState>, es: seq<Entry>): seq<Rec> {
    (if hs.Some? then [HardRec(hs.value)] else []) + EntryRecs(es)
  }

  lemma {:induction false} EntryRecsMean(es: seq<Entry>)
    ensures EntriesOf(EntryRecs(es)) == es && LastHard(EntryRecs(es)) == None
  {
    if |es| > 0 {
      assert EntryRecs(es)[..|es| - 1] == EntryRecs(es[..|es| - 1]);
      EntryRecsMean(es[..|es| - 1]);
    }
  }

  lemma BatchMeans(hs: Option<HardState>, es: seq<Entry>)
    ensures EntriesOf(Batch(hs, es)) == es && LastHard(Batch(hs, es)) == hs
  {
    var head := if hs.Some? then [HardRec(hs.value)] else [];
    EntryRecsMean(es);
    EntriesJoin(head, EntryRecs(es));
    HardJoin(head, EntryRecs(es));
    assert EntriesOf(head) == [] && LastHard(head) == hs;
  }

  function AppendRecs(segs: seq<Segment>, recs: seq<Rec>): seq<Segment>
    requires |segs| > 0
  {
    segs[|segs| - 1 := segs[|segs| - 1].(recs := segs[|segs| - 1].recs + recs)]
  }

  lemma AppendReads(segs: seq<Segment>, recs: seq<Rec>, min: nat)
    requires |segs| > 0 && min <= segs[|segs| - 1].seqNo
    ensures RecsFrom(AppendRecs(segs, recs), min) == RecsFrom(segs, min) + recs
  {
    var front := segs[..|segs| - 1];
    assert AppendRecs(segs, recs)[..|segs| - 1] == front;
  }

  lemma AppendHeaded(segs: seq<Segment>, recs: seq<Rec>, min: nat)
    requires |segs| > 0 && Headed(segs, min)
    ensures Headed(AppendRecs(segs, recs), min)
  {
    var segs' := AppendRecs(segs, recs);
    forall i | 0 < i < |segs'| && LastHard(RecsFrom(segs'[..i], min)).Some?
      ensures LastHard(segs'[i].recs).Some?
    {
      assert segs'[..i] == segs[..i];
      HardJoin(segs[|segs| - 1].recs, recs);
    }
  }

  /** Appending a batch to the active segment is saving it. */
  lemma AppendIsSave(segs: seq<Segment>, file: Option<SnapFile>, base: seq<Entry>, d: Disk, hs: Option<HardState>,
                     es: seq<Entry>)
    requires Durable(segs, file, base, d) && MaySave(d, es)
    ensures Durable(AppendRecs(segs, Batch(hs, es)), file, base, Save(d, hs, es))
  {
    hide Accounts, EntriesOf, LastHard, RecsFrom, Batch, MaySave, AppendEntries;
    var min := MinSeq(file);
    var recs := RecsFrom(segs, min);
    var d1 := if hs.Some? then d.(hs := hs) else d;
    AppendReads(segs, Batch(hs, es), min);
    BatchMeans(hs, es);
    EntriesJoin(recs, Batch(hs, es));
    HardJoin(recs, Batch(hs, es));
    HardApart(base, EntriesOf(recs), d, d1, es);
    SaveAccounts(base, EntriesOf(recs), d1, es);
    AnchoredMore(base, EntriesOf(recs), es, SnapIndex(d));
  }

  lemma AnchoredMore(base: seq<Entry>, recs: seq<Entry>, es: seq<Entry>, snap: nat)
    requires Anchored(base, recs, snap)
    ensures Anchored(base, recs + es, snap)
  {
  }

  lemma HardApart(base: seq<Entry>, recs: seq<Entry>, d: Disk, d1: Disk, es: seq<Entry>)
    requires Accounts(base, recs, d) && d1 == d.(hs := d1.hs) && MaySave(d, es)
    ensures Accounts(base, recs, d1) && MaySave(d1, es)
  {
  }

  /** Appending goes to the end of what every segment has seen since. */
  lemma AppendSince(segs: seq<Segment>, min: nat, hs: Option<HardState>, es: seq<Entry>, i: nat)
    requires i < |segs| && min <= segs[|segs| - 1].seqNo
    ensures Since(AppendRecs(segs, Batch(hs, es)), min, i) == Since(segs, min, i) + es
  {
    hide EntriesOf, LastHard, RecsFrom, Batch;
    var segs' := AppendRecs(segs, Batch(hs, es));
    assert segs'[i..] == AppendRecs(segs[i..], Batch(hs, es));
    AppendReads(segs[i..], Batch(hs, es), min);
    BatchMeans(hs, es);
    EntriesJoin(RecsFrom(segs[i..], min), Batch(hs, es));
  }

  lemma AppendHardKept(segs: seq<Segment>, min: nat, hs: Option<HardState>, es: seq<Entry>, i: nat)
    requires i < |segs| && min <= segs[|segs| - 1].seqNo && HardKept(segs, min, i)
    ensures HardKept(AppendRecs(segs, Batch(hs, es)), min, i)
  {
    hide LastHard, RecsFrom, Batch;
    var segs' := AppendRecs(segs, Batch(hs, es));
    assert segs'[i..] == AppendRecs(segs[i..], Batch(hs, es));
    AppendReads(segs, Batch(hs, es), min);
    AppendReads(segs[i..], Batch(hs, es), min);
    HardJoin(RecsFrom(segs, min), Batch(hs, es));
    HardJoin(RecsFrom(segs[i..], min), Batch(hs, es));
  }

  /** Where a batch leaves the end of the log. */
  function EndAfter(last: nat, es: seq<Entry>): nat {
    if |es| > 0 then es[|es| - 1].index else last
  }

  lemma AppendTight(segs: seq<Segment>, min: nat, last: nat, snap: nat, hs: Option<HardState>, es: seq<Entry>, i: nat)
    requires i < |segs| && min <= segs[|segs| - 1].seqNo && (|es| > 0 ==> es[0].index <= last + 1)
    ensures Tight(segs, min, last, i) ==> Tight(AppendRecs(segs, Batch(hs, es)), min, EndAfter(last, es), i)
    ensures Kept(segs, min, last, snap, i) ==> Kept(AppendRecs(segs, Batch(hs, es)), min, EndAfter(last, es), snap, i)
  {
    hide Since, Batch;
    AppendSince(segs, min, hs, es, i);
  }

  // ------------------------------------------------------------------
  // Starting a segment
  // ------------------------------------------------------------------

  /** A new segment that opens with the current hard state. */
  function Rotated(segs: seq<Segment>, tag: nat, hs: Option<HardState>): seq<Segment>
    requires |segs| > 0
  {
    segs + [Segment(segs[|segs| - 1].seqNo + 1, tag, Batch(hs, []))]
  }

  lemma RotateReads(segs: seq<Segment>, tag: nat, hs: Option<HardState>, min: nat)
    requires |segs| > 0 && min <= segs[|segs| - 1].seqNo
    ensures RecsFrom(Rotated(segs, tag, hs), min) == RecsFrom(segs, min) + Batch(hs, [])
    ensures EntriesOf(RecsFrom(Rotated(segs, tag, hs), min)) == EntriesOf(RecsFrom(segs, min))
  {
    hide EntriesOf, LastHard, Batch;
    assert Rotated(segs, tag, hs)[..|segs|] == segs;
    BatchMeans(hs, []);
    EntriesJoin(RecsFrom(segs, min), Batch(hs, []));
    assert EntriesOf(RecsFrom(segs, min)) + [] == EntriesOf(RecsFrom(segs, min));
  }

  lemma RotateHeaded(segs: seq<Segment>, min: nat, tag: nat, hs: Option<HardState>)
    requires |segs| > 0 && Headed(segs, min) && (LastHard(RecsFrom(segs, min)).Some? ==> hs.Some?)
    ensures Headed(Rotated(segs, tag, hs), min)
  {
    var segs' := Rotated(segs, tag, hs);
    BatchMeans(hs, []);
    forall i | 0 < i < |segs'| && LastHard(RecsFrom(segs'[..i], min)).Some?
      ensures LastHard(segs'[i].recs).Some?
    {
      if i < |segs| {
        assert segs'[..i] == segs[..i];
      } else {
        assert segs'[..i] == segs;
      }
    }
  }

  /** Rotating changes nothing that the files stand for, not even if a crash
      leaves the new segment without its head. */
  lemma RotateKeeps(segs: seq<Segment>, file: Option<SnapFile>, base: seq<Entry>, d: Disk, tag: nat,
                    head: Option<HardState>)
    requires Durable(segs, file, base, d) && (head == d.hs || head == None)
    ensures Durable(Rotated(segs, tag, head), file, base, d)
  {
    hide Accounts, Anchored, EntriesOf, LastHard, RecsFrom;
    var min := MinSeq(file);
    RotateReads(segs, tag, head, min);
    BatchMeans(head, []);
    HardJoin(RecsFrom(segs, min), Batch(head, []));
  }

  /** With its head the new segment tells the hard state; without, older ones
      are still needed for it. */
  lemma RotateHardKept(segs: seq<Segment>, min: nat, tag: nat, head: Option<HardState>, i: nat)
    requires |segs| > 0 && min <= segs[|segs| - 1].seqNo && i <= |segs|
    requires var known := LastHard(RecsFrom(segs, min)); head == known || head == None
    ensures i < |segs| && HardKept(segs, min, i) ==> HardKept(Rotated(segs, tag, head), min, i)
    ensures i == |segs| ==>
              (HardKept(Rotated(segs, tag, head), min, i) <==> head.Some? || LastHard(RecsFrom(segs, min)).None?)
  {
    hide EntriesOf, LastHard, RecsFrom, Batch;
    var segs' := Rotated(segs, tag, head);
    BatchMeans(head, []);
    RotateReads(segs, tag, head, min);
    HardJoin(RecsFrom(segs, min), Batch(head, []));
    if i < |segs| {
      assert segs'[i..] == Rotated(segs[i..], tag, head);
      RotateReads(segs[i..], tag, head, min);
      HardJoin(RecsFrom(segs[i..], min), Batch(head, []));
    } else {
      assert segs'[i..] == [segs'[i]];
      Singleton(segs'[i], min);
    }
  }

  lemma RotateSince(segs: seq<Segment>, tag: nat, hs: Option<HardState>, min: nat, i: nat)
    requires |segs| > 0 && i <= |segs| && min <= segs[|segs| - 1].seqNo
    ensures Since(Rotated(segs, tag, hs), min, i) == if i < |segs| then Since(segs, min, i) else []
  {
    hide EntriesOf, LastHard, Batch;
    var segs' := Rotated(segs, tag, hs);
    if i < |segs| {
      assert segs'[i..] == Rotated(segs[i..], tag, hs);
      RotateReads(segs[i..], tag, hs, min);
    } else {
      var s := Segment(segs[|segs| - 1].seqNo + 1, tag, Batch(hs, []));
      assert segs'[i..] == [s];
      BatchMeans(hs, []);
      Singleton(s, min);
    }
  }

  // ------------------------------------------------------------------
  // Deleting segments
  // ------------------------------------------------------------------

  /** What the deleted segments accounted for. */
  function BaseAfter(segs: seq<Segment>, min: nat, base: seq<Entry>, k: nat): seq<Entry>
    requires k <= |segs|
  {
    LogAfter(base, EntriesOf(RecsFrom(segs[..k], min)))
  }

  lemma DropReads(segs: seq<Segment>, min: nat, k: nat)
    requires k <= |segs|
    ensures RecsFrom(segs, min) == RecsFrom(segs[..k], min) + RecsFrom(segs[k..], min)
    ensures EntriesOf(RecsFrom(segs, min)) == EntriesOf(RecsFrom(segs[..k], min)) + EntriesOf(RecsFrom(segs[k..], min))
  {
    assert segs[..k] + segs[k..] == segs;
    RecsJoin(segs[..k], segs[k..], min);
    EntriesJoin(RecsFrom(segs[..k], min), RecsFrom(segs[k..], min));
  }

  lemma DropHard(segs: seq<Segment>, min: nat, k: nat)
    requires k < |segs| && Ascend(segs) && min <= segs[|segs| - 1].seqNo && Headed(segs, min)
    ensures LastHard(RecsFrom(segs[k..], min)) == LastHard(RecsFrom(segs, min))
  {
    DropReads(segs, min, k);
    HardJoin(RecsFrom(segs[..k], min), RecsFrom(segs[k..], min));
    if LastHard(RecsFrom(segs[..k], min)).Some? {
      if segs[k].seqNo < min {
        RecsDead(segs[..k], min);
      } else {
        assert k > 0 ==> LastHard(segs[k].recs).Some?;
        FirstHard(segs[k..], min);
      }
    }
  }

  lemma FirstHard(segs: seq<Segment>, min: nat)
    requires |segs| > 0 && segs[0].seqNo >= min && LastHard(segs[0].recs).Some?
    ensures LastHard(RecsFrom(segs, min)).Some?
  {
    assert segs == [segs[0]] + segs[1..];
    RecsJoin([segs[0]], segs[1..], min);
    Singleton(segs[0], min);
    HardJoin(segs[0].recs, RecsFrom(segs[1..], min));
  }

  lemma DropAccounts(base: seq<Entry>, a: seq<Entry>, b: seq<Entry>, d: Disk)
    requires Accounts(base, a + b, d)
    ensures Accounts(LogAfter(base, a), b, d)
  {
    LegalSplit(base, a, b);
  }

  /** Deleting the segments before `k` leaves the hard state as it was if and
      only if the others tell it. */
  lemma DropHardIff(segs: seq<Segment>, min: nat, k: nat)
    requires k <= |segs|
    ensures LastHard(RecsFrom(segs[k..], min)) == LastHard(RecsFrom(segs, min)) <==> HardKept(segs, min, k)
  {
    hide LastHard, RecsFrom;
    DropReads(segs, min, k);
    HardJoin(RecsFrom(segs[..k], min), RecsFrom(segs[k..], min));
  }

  lemma DropAnchored(segs: seq<Segment>, file: Option<SnapFile>, base: seq<Entry>, d: Disk, k: nat)
    requires Durable(segs, file, base, d) && k < |segs| && Kept(segs, MinSeq(file), EndOf(d), SnapIndex(d), k)
    ensures Anchored(BaseAfter(segs, MinSeq(file), base, k), Since(segs, MinSeq(file), k), SnapIndex(d))
  {
    hide Accounts, LogAfter;
    DropReads(segs, MinSeq(file), k);
    LogLength(segs, file, base, d);
    if |Since(segs, MinSeq(file), k)| == 0 {
      assert EntriesOf(RecsFrom(segs, MinSeq(file))) == EntriesOf(RecsFrom(segs[..k], MinSeq(file)));
    }
  }

  lemma DropHeaded(segs: seq<Segment>, min: nat, k: nat)
    requires k <= |segs| && Headed(segs, min)
    ensures Headed(segs[k..], min)
  {
    var kept := segs[k..];
    forall i | 0 < i < |kept| && LastHard(RecsFrom(kept[..i], min)).Some?
      ensures LastHard(kept[i].recs).Some?
    {
      assert segs[..k + i] == segs[..k] + kept[..i];
      RecsJoin(segs[..k], kept[..i], min);
      HardJoin(RecsFrom(segs[..k], min), RecsFrom(kept[..i], min));
      assert segs[k + i] == kept[i];
    }
  }

  /** Garbage collection loses neither log nor snapshot, nor the hard state if
      the rest tells it. */
  lemma DropKeeps(segs: seq<Segment>, file: Option<SnapFile>, base: seq<Entry>, d: Disk, k: nat)
    requires Durable(segs, file, base, d) && k < |segs| && Kept(segs, MinSeq(file), EndOf(d), SnapIndex(d), k)
    ensures var d' := d.(hs := LastHard(RecsFrom(segs[k..], MinSeq(file))));
            && Durable(segs[k..], file, BaseAfter(segs, MinSeq(file), base, k), d')
            && (d' == d <==> HardKept(segs, MinSeq(file), k))
  {
    hide Accounts, Anchored, Kept, HardKept, EntriesOf, LastHard, RecsFrom, LogAfter;
    var min := MinSeq(file);
    var d' := d.(hs := LastHard(RecsFrom(segs[k..], min)));
    var a, b := EntriesOf(RecsFrom(segs[..k], min)), EntriesOf(RecsFrom(segs[k..], min));
    DropReads(segs, min, k);
    DropHardIff(segs, min, k);
    DropAnchored(segs, file, base, d, k);
    DropAccounts(base, a, b, d);
    HardApart(LogAfter(base, a), b, d, d', []);
  }

  /** A first record that leaves a gap after the snapshot spoils any replay. */
  lemma {:induction false} GapSpoils(snap: nat, es: seq<Entry>)
    requires |es| > 0 && es[0].index > snap + 1
    ensures Replayed(snap, es).None? && ReplayedClearing(snap, es).None?
  {
    var front := es[..|es| - 1];
    if |front| > 0 {
      GapSpoils(snap, front);
    } else {
      assert front == [];
    }
  }

  /** The exact condition on deleting the segments before `k`, in terms a
      caller can see before it: the rest still determines the stored log if
      and only if it starts at or below the first index above the snapshot, or
      holds no entry while the log ends within the snapshot. Otherwise a
      restart reports a gap, or finds no entry where there were some. The hard
      state survives if and only if the rest tells it, or there is none. */
  lemma DropKeepsIff(segs: seq<Segment>, file: Option<SnapFile>, base: seq<Entry>, d: Disk, k: nat)
    requires Durable(segs, file, base, d) && k < |segs|
    ensures Deleted(segs, segs[k..], file, d)
    ensures var rest, snap := Since(segs, MinSeq(file), k), FileIndex(file);
            && (ReplayedClearing(snap, rest) == Some(d.entries) <==> Kept(segs, MinSeq(file), EndOf(d), snap, k))
            && (!Kept(segs, MinSeq(file), EndOf(d), snap, k) ==>
                  Replayed(snap, rest).None? || (Replayed(snap, rest) == Some([]) && |d.entries| > 0))
            && (LastHard(RecsFrom(segs[k..], MinSeq(file))) == d.hs <==> HardKept(segs, MinSeq(file), k))
  {
    hide Accounts, Anchored, HardKept, LastHard, RecsFrom, LogAfter;
    var rest, snap := Since(segs, MinSeq(file), k), FileIndex(file);
    DropHardIff(segs, MinSeq(file), k);
    if Kept(segs, MinSeq(file), EndOf(d), snap, k) {
      DropKeeps(segs, file, base, d, k);
      RecoversIff(segs[k..], file, BaseAfter(segs, MinSeq(file), base, k),
        d.(hs := LastHard(RecsFrom(segs[k..], MinSeq(file)))));
    } else if |rest| > 0 {
      GapSpoils(snap, rest);
    }
  }

  ghost predicate Suffix(before: seq<Segment>, after: seq<Segment>) {
    0 < |after| <= |before| && after == before[|before| - |after|..]
  }

  /** A snapshot lets go of nothing more: the segments left are all from its
      first one on, and the tags stop it before the second of them. */
  ghost predicate Shortest(before: seq<Segment>, after: seq<Segment>, m: SnapFile) {
    && Suffix(before, after)
    && (forall i :: 0 <= i < |after| ==> after[i].seqNo >= m.minSeq)
    && (|after| > 1 ==> exists j :: 0 < j <= |before| - |after| + 1 && before[j].tag > m.snap.index + 1)
  }

  /** With tags in order that is the second segment's own tag. */
  lemma ShortestByTag(before: seq<Segment>, after: seq<Segment>, m: SnapFile)
    requires Shortest(before, after, m) && |after| > 1
    requires forall i, j :: 0 < i < j < |before| ==> before[i].tag <= before[j].tag
    ensures after[1].tag > m.snap.index + 1
  {
    var k := |before| - |after| + 1;
    var j :| 0 < j <= k && before[j].tag > m.snap.index + 1;
    assert after[1] == before[k];
  }

  /** What is left of `before` holds all that is needed of `d`. */
  ghost predicate Lossless(before: seq<Segment>, after: seq<Segment>, file: Option<SnapFile>, d: Disk) {
    && Suffix(before, after)
    && Kept(before, MinSeq(file), EndOf(d), FileIndex(file), |before| - |after|)
    && HardKept(before, MinSeq(file), |before| - |after|)
  }

  /** Deletion of `before` but for `after`: log and hard state of `d` each
      survive exactly under their condition; where the log does not, a restart
      reports a gap or finds it empty. */
  ghost predicate Deleted(before: seq<Segment>, after: seq<Segment>, file: Option<SnapFile>, d: Disk) {
    && Suffix(before, after)
    && var k, min, snap := |before| - |after|, MinSeq(file), FileIndex(file);
       var kept, rest := Kept(before, min, EndOf(d), snap, k), EntriesOf(RecsFrom(after, min));
       && (kept <==> ReplayedClearing(snap, rest) == Some(d.entries))
       && (!kept ==> Replayed(snap, rest).None? || (Replayed(snap, rest) == Some([]) && |d.entries| > 0))
       && (HardKept(before, min, k) <==> LastHard(RecsFrom(after, min)) == d.hs)
  }

  /** Deleting keeps every later segment as tight as it was. */
  lemma DropSince(segs: seq<Segment>, min: nat, k: nat, i: nat)
    requires k <= i <= |segs|
    ensures Since(segs[k..], min, i - k) == Since(segs, min, i)
  {
    assert segs[k..][i - k..] == segs[i..];
  }

  lemma DropHardKept(segs: seq<Segment>, min: nat, k: nat, i: nat)
    requires k <= i <= |segs| && HardKept(segs, min, i)
    ensures HardKept(segs[k..], min, i - k)
  {
    hide LastHard, RecsFrom;
    assert segs[k..][i - k..] == segs[i..];
    DropReads(segs, min, k);
    HardJoin(RecsFrom(segs[..k], min), RecsFrom(segs[k..], min));
  }

  // ------------------------------------------------------------------
  // A new snapshot file
  // ------------------------------------------------------------------

  lemma AnchoredUp(base: seq<Entry>, recs: seq<Entry>, s: nat, t: nat)
    requires Anchored(base, recs, s) && s <= t
    ensures Anchored(base, recs, t)
  {
  }

  /** Renaming a snapshot of the existing log into place is saving it. */
  lemma RenameIsSave(segs: seq<Segment>, file: Option<SnapFile>, base: seq<Entry>, d: Disk, snap: Snapshot)
    requires Durable(segs, file, base, d) && SnapIndex(d) < snap.index <= SnapIndex(d) + |d.entries|
    ensures Durable(segs, Some(SnapFile(snap, MinSeq(file))), base, SaveSnapshot(d, snap, false))
  {
    hide Anchored, EntriesOf, LastHard, RecsFrom, LogAfter, Legal;
    SnapshotAccounts(base, EntriesOf(RecsFrom(segs, MinSeq(file))), d, snap);
    AnchoredUp(base, EntriesOf(RecsFrom(segs, MinSeq(file))), SnapIndex(d), snap.index);
  }

  /** A stand-in for the log inside a snapshot taken from elsewhere. */
  function Unknown(n: nat): seq<Entry> {
    seq(n, i requires 0 <= i < n => Entry(i + 1, 0, Noop))
  }

  /** Renaming a snapshot that discards the log switches to the segment that
      was started for it: state and log change in one step. */
  lemma DiscardIsSave(segs: seq<Segment>, file: Option<SnapFile>, base: seq<Entry>, d: Disk, snap: Snapshot)
    requires Durable(segs, file, base, d) && SnapIndex(d) < snap.index && segs[|segs| - 1].recs == Batch(d.hs, [])
    ensures Durable(segs, Some(SnapFile(snap, segs[|segs| - 1].seqNo)), Unknown(snap.index),
              SaveSnapshot(d, snap, true))
  {
    hide Accounts, RecsFrom, LastHard, EntriesOf;
    var min := segs[|segs| - 1].seqNo;
    OnlyNewest(segs);
    BatchMeans(d.hs, []);
    DiscardAccounts(Unknown(snap.index), d, snap);
  }

  lemma DiscardHeaded(segs: seq<Segment>)
    requires |segs| > 0 && Ascend(segs)
    ensures Headed(segs, segs[|segs| - 1].seqNo)
  {
    NothingKnown();
    forall i | 0 < i < |segs|
      ensures LastHard(RecsFrom(segs[..i], segs[|segs| - 1].seqNo)).None?
    {
      RecsDead(segs[..i], segs[|segs| - 1].seqNo);
    }
  }

  lemma NothingKnown()
    ensures LastHard([]).None?
  {
  }

  lemma OnlyNewest(segs: seq<Segment>)
    requires |segs| > 0 && Ascend(segs)
    ensures RecsFrom(segs, segs[|segs| - 1].seqNo) == segs[|segs| - 1].recs
  {
    RecsDead(segs[..|segs| - 1], segs[|segs| - 1].seqNo);
  }

  lemma DiscardTight(segs: seq<Segment>, hs: Option<HardState>, index: nat)
    requires |segs| > 0 && Ascend(segs) && segs[|segs| - 1].recs == Batch(hs, []) && index < segs[|segs| - 1].tag
    ensures AllTight(segs, segs[|segs| - 1].seqNo, index)
  {
    hide RecsFrom, EntriesOf, LastHard;
    var min := segs[|segs| - 1].seqNo;
    BatchMeans(hs, []);
    forall i | 0 < i < |segs| && segs[i].seqNo >= min
      ensures Tight(segs, min, index, i)
    {
      assert i == |segs| - 1 && segs[i..] == [segs[i]];
      Singleton(segs[i], min);
    }
  }

  lemma Singleton(s: Segment, min: nat)
    requires s.seqNo >= min
    ensures RecsFrom([s], min) == s.recs
  {
    assert [s][..0] == [];
  }

  // ------------------------------------------------------------------
  // Recovery
  // ------------------------------------------------------------------

  /** The order condition on surviving records under which recovery is exact. */
  ghost predicate InOrder(segs: seq<Segment>, file: Option<SnapFile>) {
    var es := EntriesOf(RecsFrom(segs, MinSeq(file)));
    EndsAbove(es, FileIndex(file)) || !ReachesPast(es, FileIndex(file))
  }

  /** Recovery finds no gap and returns the storage value exactly when the
      surviving records are in order; clearing replay always does. */
  lemma RecoversIff(segs: seq<Segment>, file: Option<SnapFile>, base: seq<Entry>, d: Disk)
    requires Durable(segs, file, base, d)
    ensures var es := EntriesOf(RecsFrom(segs, MinSeq(file))); var snap := FileIndex(file);
            && Replayed(snap, es).Some?
            && (Replayed(snap, es).value == d.entries <==> InOrder(segs, file))
            && ReplayedClearing(snap, es) == Some(d.entries)
  {
    hide Legal, Anchored, EndsAbove, ReachesPast;
    var es := EntriesOf(RecsFrom(segs, MinSeq(file)));
    RecoveryIsExactIff(base, es, FileIndex(file));
    ClearingIsExact(base, es, FileIndex(file));
  }

  /** The order condition in terms a caller can see before a restart: the log
      goes on after the snapshot, or no surviving record does. */
  lemma InOrderIff(segs: seq<Segment>, file: Option<SnapFile>, base: seq<Entry>, d: Disk)
    requires Durable(segs, file, base, d)
    ensures InOrder(segs, file) <==> |d.entries| > 0 || !ReachesPast(EntriesOf(RecsFrom(segs, MinSeq(file))),
              FileIndex(file))
  {
    hide Legal, Anchored, ReachesPast, LogAfter;
    var es := EntriesOf(RecsFrom(segs, MinSeq(file)));
    if |es| > 0 {
      ReplayedShape(base, es, FileIndex(file));
      AboveReaches(es, FileIndex(file));
    } else {
      EmptyEnds(base, FileIndex(file));
    }
  }

  lemma AboveReaches(recs: seq<Entry>, snap: nat)
    ensures EndsAbove(recs, snap) ==> ReachesPast(recs, snap)
  {
  }

  lemma EmptyEnds(base: seq<Entry>, snap: nat)
    requires Anchored(base, [], snap)
    ensures Tail(LogAfter(base, []), snap) == []
  {
  }

  // ------------------------------------------------------------------
  // A discard that a crash cut short
  // ------------------------------------------------------------------

  /** Entries 1 to 3 are stored; a crash cuts short the discarding snapshot at
      2, leaving a second segment tagged 3; entry 4 goes there. A snapshot of
      the node's own log at 2 then covers the tag and the first segment is
      deleted, with entry 3: a restart reports a gap. */
  lemma CutShortDiscardLosesLog(p: Payload, data: KvState)
    ensures var e1, e2, e3, e4 := Entry(1, 1, p), Entry(2, 1, p), Entry(3, 1, p), Entry(4, 1, p);
            var one := [Segment(1, 0, EntryRecs([e1, e2, e3]))];
            var two := AppendRecs(Rotated(one, 3, None), Batch(None, [e4]));
            var file := Some(SnapFile(Snapshot(2, 1, data), 0));
            && Durable(two, file, [], Disk(None, Some(Snapshot(2, 1, data)), [e3, e4]))
            && two[1].tag <= 2 + 1 && !Kept(two, 0, 4, 2, 1)
            && Replayed(2, Since(two, 0, 1)).None?
  {
    hide Durable, EntriesOf, RecsFrom, LastHard, Replayed, Batch, EntryRecs, Since, AppendEntries;
    var e1, e2, e3, e4 := Entry(1, 1, p), Entry(2, 1, p), Entry(3, 1, p), Entry(4, 1, p);
    var d0, d1 := Disk(None, None, [e1, e2, e3]), Disk(None, None, [e1, e2, e3, e4]);
    var one := [Segment(1, 0, EntryRecs([e1, e2, e3]))];
    var two := Rotated(one, 3, None);
    OneSegment([e1, e2, e3], d0);
    RotateKeeps(one, None, [], d0, 3, None);
    FourSaved(d0, d1, e4);
    AppendIsSave(two, None, [], d0, None, [e4]);
    RenameIsSave(AppendRecs(two, Batch(None, [e4])), None, [], d1, Snapshot(2, 1, data));
    assert d1.entries[2..] == [e3, e4];
    RotateSince(one, 3, None, 0, 1);
    AppendSince(two, 0, None, [e4], 1);
    assert Since(two, 0, 1) + [e4] == [e4];
    GapSpoils(2, [e4]);
  }

  lemma FourSaved(d0: Disk, d1: Disk, e: Entry)
    requires d0.snap.None? && |d0.entries| == 3 && e.index == 4 && d1 == d0.(entries := d0.entries + [e])
    ensures Save(d0, None, [e]) == d1 && MaySave(d0, [e])
  {
    assert AppendEntries(d0, [e][..0]) == d0;
    assert d0.entries[..3] == d0.entries;
  }

  lemma OneSegment(es: seq<Entry>, d: Disk)
    requires |es| == 3 && es[0].index == 1 && es[1].index == 2 && es[2].index == 3 && d == Disk(None, None, es)
    ensures Durable([Segment(1, 0, EntryRecs(es))], None, [], d)
  {
    var s := Segment(1, 0, EntryRecs(es));
    Singleton(s, 0);
    EntryRecsMean(es);
    assert es[..1][..0] == [] && es[..2][..1] == es[..1] && es[..3][..2] == es[..2] && es[..3] == es;
    assert LogAfter([], es[..0]) == [];
    assert LogAfter([], es[..1]) == es[..1];
    assert LogAfter([], es[..2]) == es[..2];
    assert LogAfter([], es) == es;
    assert es[0..] == es;
  }
}
