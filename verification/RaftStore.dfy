/** Raft's storage on segments and snapshot files, as an object: it refines
    the in-memory storage through saves, rotations, snapshots, deletions and
    crashes. The files are `segs` and `file`; a crash loses everything else.
    `Load` is what follows a crash. */
module RaftStore {
  import opened Types
  import opened DiskSpec
  import opened Recovery
  import opened Segments

  class RaftStore {
    // Durable.
    var segs: seq<Segment>
    var file: Option<SnapFile>
    // In memory.
    var hs: Option<HardState>
    var meta: Option<SnapFile>
    var lastIndex: nat
    // What the in-memory storage would hold, and what deleted segments held.
    ghost var spec: Disk
    ghost var base: seq<Entry>
    // A log-discarding snapshot was started and its file is not in place: it
    // is under way, or a crash cut it short.
    ghost var unfinished: bool
    // A crash left a segment without its head.
    ghost var headless: bool

    /** The files hold `spec`. */
    ghost predicate Stored()
      reads this
    {
      Durable(segs, file, base, spec)
    }

    /** Without crashes inside a rotation or a switch, tags are honest and
        every segment opens with the hard state. */
    ghost predicate Regular()
      reads this
    {
      && (!unfinished ==> AllTight(segs, MinSeq(file), EndOf(spec)))
      && (!headless ==> Headed(segs, MinSeq(file)))
    }

    /** Deleting what the stored snapshot covers by tags loses nothing. */
    ghost predicate Sound()
      reads this
    {
      && KeepsAt(segs, MinSeq(file), EndOf(spec), SnapIndex(spec))
      && HardAt(segs, MinSeq(file), SnapIndex(spec))
      && Regular()
    }

    /** The published snapshot is the newest one, or an older one. */
    ghost predicate Published()
      reads this
    {
      meta == file || ((meta.None? || FileIndex(meta) < FileIndex(file)) && MinSeq(meta) <= MinSeq(file))
    }

    /** The fields agree with the files. */
    ghost predicate Ready()
      reads this
    {
      Stored() && Published() && hs == spec.hs && lastIndex == EndOf(spec)
    }

    /** A fresh directory: one empty segment. */
    constructor ()
      ensures Ready() && Sound() && spec == EMPTY_DISK && !unfinished && !headless
    {
      hide Durable, KeepsAt, HardAt, AllTight, Headed;
      segs, file := [Segment(1, 0, [])], None;
      hs, meta, lastIndex := None, None, 0;
      spec, base, unfinished, headless := EMPTY_DISK, [], false, false;
      EmptyIsDurable();
    }

    /** Deletes every segment below `seqNo` except the active one. */
    method RemoveBefore(seqNo: nat, ghost k: nat)
      requires k < |segs| && Ascend(segs)
      requires (forall i :: 0 <= i < k ==> segs[i].seqNo < seqNo) && segs[k].seqNo >= seqNo
      modifies this`segs
      ensures segs == old(segs)[k..]
    {
      var keep: seq<Segment> := [];
      for i := 0 to |segs|
        invariant keep == if i <= k then [] else segs[k..i]
      {
        if segs[i].seqNo < seqNo && i != |segs| - 1 {
          continue;
        }
        keep := keep + [segs[i]];
      }
      segs := keep;
    }

    /** Where deletion may reach: the snapshot's first segment, or the last one
        whose tag the snapshot covers. */
    method RemovalPoint(m: SnapFile) returns (removeBefore: nat, ghost k: nat)
      requires |segs| > 0 && Ascend(segs) && m.minSeq <= segs[|segs| - 1].seqNo
      ensures k < |segs| && (forall i :: 0 <= i < k ==> segs[i].seqNo < removeBefore) && segs[k].seqNo >= removeBefore
      ensures removeBefore == m.minSeq || (k > 0 && segs[k].tag <= m.snap.index + 1)
      ensures m.minSeq <= removeBefore <= segs[|segs| - 1].seqNo
      ensures removeBefore > m.minSeq ==>
                segs[k].seqNo == removeBefore && forall j :: 0 < j <= k ==> segs[j].tag <= m.snap.index + 1
      ensures Shortest(segs, segs[k..], m)
    {
      hide Shortest, Ascend;
      removeBefore := m.minSeq;
      var i := 0;
      while i + 1 < |segs|
        invariant i < |segs|
        invariant forall j :: 0 < j <= i ==> segs[j].tag <= m.snap.index + 1
        invariant removeBefore == Max(m.minSeq, if i > 0 then segs[i].seqNo else 0)
      {
        if segs[i + 1].tag > m.snap.index + 1 {
          break;
        }
        assert i > 0 ==> segs[i].seqNo < segs[i + 1].seqNo by { InSequence(segs, i, i + 1); }
        if segs[i + 1].seqNo > removeBefore {
          removeBefore := segs[i + 1].seqNo;
        }
        i := i + 1;
      }
      k := StopsAt(segs, m, i, removeBefore);
    }

    /** Deletes segments by their tags. What is left still determines the
        stored log exactly if the first entry left is one the snapshot borders
        on; otherwise a restart reports a gap or finds the log gone. The hard
        state survives exactly if what is left tells it. While the storage is
        sound nothing is ever lost. */
    method Gc()
      requires Listed(segs, file) && Published()
      modifies this`segs, this`base
      ensures Suffix(old(segs), segs) && if meta.Some? then Shortest(old(segs), segs, meta.value) else segs == old(segs)
      ensures old(Stored()) ==> Deleted(old(segs), segs, file, spec)
      ensures old(Stored()) && Lossless(old(segs), segs, file, spec) ==> Stored()
      ensures old(Stored() && Sound()) ==> Stored() && Sound()
    {
      hide Durable, KeepsAt, HardAt, AllTight, Headed, BaseAfter, Deleted, Lossless, Shortest;
      assert segs == segs[0..];
      ghost var k := 0;
      ghost var before := segs;
      if meta.Some? {
        var removeBefore;
        removeBefore, k := RemovalPoint(meta.value);
        RemoveBefore(removeBefore, k);
        SoundIsLossless(before, file, base, spec, k, removeBefore, meta.value.minSeq, FileIndex(meta));
      } else {
        SoundIsLossless(before, file, base, spec, k, 0, 0, 0);
      }
      hide Listed, Suffix;
      DropSound(before, MinSeq(file), EndOf(spec), k, SnapIndex(spec));
      CutLeaves(before, file, base, spec, k);
      if Durable(before, file, base, spec) && Lossless(before, segs, file, spec) {
        base := BaseAfter(before, MinSeq(file), base, k);
      }
    }

    /** How far a deletion below `seqNo` has come after `done` files. */
    method Reached(seqNo: nat, done: nat, ghost k: nat) returns (j: nat)
      requires k < |segs| && segs[k].seqNo >= seqNo
      ensures j <= k && j <= done && forall i :: 0 <= i < j ==> segs[i].seqNo < seqNo
    {
      j := 0;
      while j < done && j < |segs| - 1 && segs[j].seqNo < seqNo
        invariant j <= k && j <= done && forall i :: 0 <= i < j ==> segs[i].seqNo < seqNo
      {
        j := j + 1;
      }
    }

    /** A crash inside deletion: segments go oldest first, so a part of what
        was to go is gone. While the storage is sound nothing is lost. */
    method GcCutShort(done: nat)
      requires Stored() && Published()
      modifies this`segs, this`base
      ensures |segs| <= |old(segs)| <= |segs| + done && segs == old(segs)[|old(segs)| - |segs|..]
      ensures old(Sound()) ==> Stored() && Sound()
    {
      hide Durable, KeepsAt, HardAt, HardKept, AllTight, Headed, BaseAfter, Kept, Ascend, Shortest;
      SegmentsExist(segs, file, base, spec);
      var j := 0;
      if meta.Some? {
        var removeBefore;
        ghost var k;
        removeBefore, k := RemovalPoint(meta.value);
        j := Reached(removeBefore, done, k);
        DropSound(segs, MinSeq(file), EndOf(spec), j, SnapIndex(spec));
        if Sound() {
          SoundDrop(segs, file, base, spec, j, removeBefore, meta.value.minSeq, FileIndex(meta));
          base := BaseAfter(segs, MinSeq(file), base, j);
        }
        segs := segs[j..];
      } else {
        assert segs[0..] == segs;
      }
    }

    /** Starts a segment that restates the hard state. */
    method Rotate()
      requires Ready()
      modifies this`segs
      ensures Ready() && segs == Rotated(old(segs), lastIndex + 1, hs)
      ensures old(Sound()) ==> Sound()
    {
      hide Durable, KeepsAt, HardAt, AllTight, Headed;
      RotateValid(segs, file, base, spec);
      var head := if hs.Some? then [HardRec(hs.value)] else [];
      assert head + EntryRecs([]) == head;
      segs := segs + [Segment(segs[|segs| - 1].seqNo + 1, lastIndex + 1, head)];
    }

    /** A crash inside a rotation, after the segment was created and before its
        head was written. The files still hold the same value, and stay sound
        exactly if the tag is beyond the snapshot or no hard state was saved. */
    method RotateCutShort(tag: nat)
      requires Ready() && (tag == lastIndex + 1 || SnapIndex(spec) + 1 < tag)
      modifies this`segs, this`unfinished, this`headless
      ensures Stored() && segs == Rotated(old(segs), tag, None) && headless
      ensures unfinished == (old(unfinished) || tag != lastIndex + 1)
      ensures old(Sound()) ==> (Sound() <==> SnapIndex(spec) + 1 < tag || spec.hs.None?)
    {
      hide Durable, KeepsAt, HardAt, AllTight, Headed;
      HeadlessValid(segs, file, base, spec, tag);
      segs := Rotated(segs, tag, None);
      unfinished := unfinished || tag != lastIndex + 1;
      headless := true;
    }

    /** The records of a save, one by one. */
    static method Records(newHs: Option<HardState>, es: seq<Entry>) returns (recs: seq<Rec>)
      ensures recs == Batch(newHs, es)
    {
      recs := if newHs.Some? then [HardRec(newHs.value)] else [];
      for i := 0 to |es|
        invariant recs == Batch(newHs, es[..i])
      {
        recs := recs + [EntryRec(es[i])];
      }
      assert es[..|es|] == es;
    }

    /** Hard state and entries as one batch in the active segment. */
    method Write(newHs: Option<HardState>, es: seq<Entry>)
      requires Ready() && MaySave(spec, es)
      modifies this`segs, this`hs, this`lastIndex, this`spec
      ensures Ready() && spec == DiskSpec.Save(old(spec), newHs, es)
      ensures segs == AppendRecs(old(segs), Batch(newHs, es))
      ensures old(Sound()) ==> Sound()
    {
      hide Durable, KeepsAt, HardAt, AllTight, Headed, MaySave, DiskSpec.Save, Batch;
      SegmentsExist(segs, file, base, spec);
      SaveValid(segs, file, base, spec, newHs, es);
      SaveFrame(spec, newHs, es, lastIndex);
      var recs := Records(newHs, es);
      segs := segs[|segs| - 1 := segs[|segs| - 1].(recs := segs[|segs| - 1].recs + recs)];
      spec := DiskSpec.Save(spec, newHs, es);
      if newHs.Some? {
        hs := newHs;
      }
      if |es| > 0 {
        lastIndex := es[|es| - 1].index;
      }
    }

    /** The segment is full: start another and delete what is covered. */
    method Roll()
      requires Ready()
      modifies this`segs, this`base
      ensures var all := Rotated(old(segs), lastIndex + 1, hs);
              && Deleted(all, segs, file, spec) && (Lossless(all, segs, file, spec) ==> Ready())
              && if meta.Some? then Shortest(all, segs, meta.value) else segs == all
      ensures old(Sound()) ==> Ready() && Sound()
    {
      hide Durable, KeepsAt, HardAt, AllTight, Headed, Deleted, Lossless, Rotated, Suffix, Shortest;
      StoredListed();
      Rotate();
      StoredListed();
      Gc();
    }

    lemma StoredListed()
      requires Stored()
      ensures Listed(segs, file)
    {
    }

    /** A save: the batch, then rotation and deletion if the segment is full.
        What deletion leaves is exact for any store, and all of it for a sound
        one. */
    method Save(newHs: Option<HardState>, es: seq<Entry>, full: bool)
      requires Ready() && MaySave(spec, es)
      modifies this`segs, this`hs, this`lastIndex, this`spec, this`base
      ensures spec == DiskSpec.Save(old(spec), newHs, es) && hs == spec.hs && lastIndex == EndOf(spec)
      ensures !full ==> Ready() && segs == AppendRecs(old(segs), Batch(newHs, es))
      ensures full ==>
                var all := Rotated(AppendRecs(old(segs), Batch(newHs, es)), lastIndex + 1, hs);
                && Deleted(all, segs, file, spec) && (Lossless(all, segs, file, spec) ==> Ready())
                && if meta.Some? then Shortest(all, segs, meta.value) else segs == all
      ensures old(Sound()) ==> Ready() && Sound()
    {
      hide Durable, KeepsAt, HardAt, AllTight, Headed, MaySave, DiskSpec.Save, Deleted, Lossless, Rotated, Batch,
           Shortest;
      StoredListed();
      Write(newHs, es);
      if full {
        Roll();
      }
    }

    /** A crash inside a save leaves a prefix of the batch in the segment: the
        files then hold a save of that prefix. */
    method SaveCutShort(newHs: Option<HardState>, es: seq<Entry>, written: nat)
      requires Ready() && MaySave(spec, es) && written <= |Batch(newHs, es)|
      modifies this`segs, this`spec
      ensures Stored() && (old(Sound()) ==> Sound())
      ensures segs == AppendRecs(old(segs), Batch(newHs, es)[..written])
      ensures var k := if newHs.Some? then written - 1 else written;
              spec == if k < 0 then old(spec) else DiskSpec.Save(old(spec), newHs, es[..k])
    {
      hide Durable, KeepsAt, HardAt, AllTight, Headed, MaySave, DiskSpec.Save;
      SegmentsExist(segs, file, base, spec);
      var k := if newHs.Some? then written - 1 else written;
      if k >= 0 {
        MaySavePrefix(spec, es, k);
        SaveValid(segs, file, base, spec, newHs, es[..k]);
        assert Batch(newHs, es)[..written] == Batch(newHs, es[..k]);
        segs := AppendRecs(segs, Batch(newHs, es)[..written]);
        spec := DiskSpec.Save(spec, newHs, es[..k]);
      } else {
        var last := segs[|segs| - 1];
        assert last.recs + Batch(newHs, es)[..0] == last.recs;
      }
    }

    /** First part of saving a snapshot: refuse a stale one, and start the
        segment that will hold the log after one that discards it. */
    method StartSnapshot(snap: Snapshot, discard: bool) returns (f: Option<SnapFile>)
      requires Ready() && meta == file && snap.index > 0
      modifies this`segs, this`lastIndex, this`unfinished
      ensures Stored() && Published() && hs == spec.hs && (old(Sound()) ==> Sound())
      ensures f.None? <==> file.Some? && snap.index <= FileIndex(file)
      ensures f.None? || !discard ==> Ready() && unfinished == old(unfinished) && segs == old(segs)
      ensures f.Some? ==> f.value.snap == snap
      ensures f.Some? ==> f.value.minSeq == if discard then segs[|segs| - 1].seqNo else MinSeq(file)
      ensures f.Some? && discard ==>
                unfinished && lastIndex == snap.index && segs == Rotated(old(segs), snap.index + 1, hs)
    {
      hide Durable, KeepsAt, HardAt, AllTight, Headed, Tight;
      SegmentsExist(segs, file, base, spec);
      if meta.Some? && snap.index <= meta.value.snap.index {
        return None;
      }
      var minSeq := if meta.Some? then meta.value.minSeq else 0;
      if discard {
        SwitchValid(segs, file, base, spec, snap.index + 1);
        lastIndex := snap.index;
        segs := Rotated(segs, lastIndex + 1, hs);
        minSeq := segs[|segs| - 1].seqNo;
        unfinished := true;
      }
      return Some(SnapFile(snap, minSeq));
    }

    /** Second part: the rename that puts the file in place. It is the one
        step at which the stored snapshot and log change. The storage stays
        sound unless an earlier switch or rotation was cut short by a crash;
        then exactly if every segment whose tag the snapshot covers starts low
        enough and the segments from it on tell the hard state. */
    method RenameSnapshot(f: SnapFile, discard: bool)
      requires Stored() && Published() && hs == spec.hs && SnapIndex(spec) < f.snap.index
      requires if discard then
                 && unfinished && lastIndex == f.snap.index && |segs| > 0
                 && f.minSeq == segs[|segs| - 1].seqNo && segs[|segs| - 1].tag == f.snap.index + 1
                 && segs[|segs| - 1].recs == Batch(hs, [])
               else
                 Ready() && f.minSeq == MinSeq(file) && f.snap.index <= lastIndex
      modifies this`file, this`spec, this`base, this`unfinished, this`headless
      ensures Ready() && spec == SaveSnapshot(old(spec), f.snap, discard) && file == Some(f)
      ensures unfinished == (!discard && old(unfinished)) && headless == (!discard && old(headless))
      ensures discard ==> Sound()
      ensures !discard && !unfinished && !headless && old(Sound()) ==> Sound()
      ensures !discard && !headless && old(Sound()) ==>
                (Sound() <==> KeepsAt(segs, f.minSeq, lastIndex, f.snap.index))
      ensures !discard && old(Regular()) ==>
                (Sound() <==>
                 KeepsAt(segs, f.minSeq, lastIndex, f.snap.index) && HardAt(segs, f.minSeq, f.snap.index))
    {
      hide Durable, KeepsAt, HardAt, AllTight, Headed, Tight, SaveSnapshot, Batch, Unknown;
      SegmentsExist(segs, file, base, spec);
      if discard {
        DiscardIsSave(segs, file, base, spec, f.snap);
        DiscardSound(segs, hs, f.snap.index);
        base := Unknown(f.snap.index);
        unfinished, headless := false, false;
      } else {
        RenameIsSave(segs, file, base, spec, f.snap);
        RegularKeeps(segs, MinSeq(file), EndOf(spec), f.snap.index);
      }
      SnapshotEnd(spec, f.snap, discard);
      spec := SaveSnapshot(spec, f.snap, discard);
      file := Some(f);
    }

    /** Last part: publish the snapshot in memory and delete what it covers. */
    method PublishSnapshot(f: SnapFile)
      requires Ready() && file == Some(f)
      modifies this`meta, this`segs, this`base
      ensures meta == file && (old(Sound()) ==> Ready() && Sound())
      ensures Deleted(old(segs), segs, file, spec) && (Lossless(old(segs), segs, file, spec) ==> Ready())
      ensures Shortest(old(segs), segs, f)
    {
      hide Durable, KeepsAt, HardAt, AllTight, Headed, Deleted, Lossless, Suffix, Shortest;
      StoredListed();
      if meta.None? || f.snap.index > meta.value.snap.index {
        meta := Some(f);
      }
      Gc();
    }

    /** Reads every record from `min` on: the last hard state, and the entries
        above the snapshot unless they leave a gap. */
    method ReplayWal(snapIndex: nat, min: nat) returns (found: Option<HardState>, entries: Option<seq<Entry>>)
      ensures found == LastHard(RecsFrom(segs, min))
      ensures entries == Replayed(snapIndex, EntriesOf(RecsFrom(segs, min)))
    {
      found := None;
      entries := Some([]);
      for i := 0 to |segs|
        invariant found == LastHard(RecsFrom(segs[..i], min))
        invariant entries == Replayed(snapIndex, EntriesOf(RecsFrom(segs[..i], min)))
      {
        RecsSnoc(segs, i, min);
        if segs[i].seqNo < min {
          continue;
        }
        found, entries := ReplaySegment(snapIndex, segs[i].recs, found, entries, RecsFrom(segs[..i], min));
      }
      assert segs[..|segs|] == segs;
    }

    static method ReplaySegment(snapIndex: nat, recs: seq<Rec>, found0: Option<HardState>,
                                entries0: Option<seq<Entry>>, ghost before: seq<Rec>)
        returns (found: Option<HardState>, entries: Option<seq<Entry>>)
      requires found0 == LastHard(before) && entries0 == Replayed(snapIndex, EntriesOf(before))
      ensures found == LastHard(before + recs)
      ensures entries == Replayed(snapIndex, EntriesOf(before + recs))
    {
      hide LastHard, EntriesOf, Replayed;
      found, entries := found0, entries0;
      assert before + recs[..0] == before;
      for j := 0 to |recs|
        invariant found == LastHard(before + recs[..j])
        invariant entries == Replayed(snapIndex, EntriesOf(before + recs[..j]))
      {
        assert before + recs[..j + 1] == (before + recs[..j]) + [recs[j]];
        RecSnoc(before + recs[..j], recs[j]);
        match recs[j]
        case HardRec(h) => found := Some(h);
        case EntryRec(e) =>
          ReplayedSnoc(snapIndex, EntriesOf(before + recs[..j]), e);
          if entries.Some? && e.index > snapIndex {
            var pos := e.index - snapIndex - 1;
            entries := if pos > |entries.value| then None else Some(entries.value[..pos] + [e]);
          }
      }
      assert before + recs[..|recs|] == before + recs;
    }

    /** Restart from any files: the newest snapshot, the last hard state and
        the entries the replay finds, or an error exactly if they leave a gap.
        After a crash at any point it finds what the storage held if and only
        if the surviving records are in order. */
    method Load() returns (r: Option<Disk>)
      requires Listed(segs, file)
      modifies this`hs, this`meta, this`lastIndex, this`segs, this`base
      ensures r == old(Loaded(segs, file))
      ensures r.None? ==> segs == old(segs)
      ensures r.Some? ==> hs == r.value.hs && meta == file && lastIndex == EndOf(r.value) && Suffix(old(segs), segs)
      ensures r.Some? && file.Some? ==> Shortest(old(segs), segs, file.value)
      ensures old(Stored()) ==>
                && r.Some? && r.value.hs == spec.hs && r.value.snap == spec.snap
                && (r.value == spec <==> old(InOrder(segs, file)))
                && Deleted(old(segs), segs, file, spec)
      ensures old(Stored() && Sound()) ==> Stored() && Published() && Sound() && (r == Some(spec) ==> Ready())
    {
      hide Durable, KeepsAt, HardAt, AllTight, Headed, InOrder, Replayed, LastHard, EntriesOf, RecsFrom, Deleted,
           Suffix, Shortest;
      if Durable(segs, file, base, spec) {
        LoadFinds(segs, file, base, spec);
      }
      meta := file;
      var found, entries := ReplayWal(FileIndex(meta), MinSeq(meta));
      if entries.None? {
        return None;
      }
      hs := found;
      lastIndex := FileIndex(meta) + |entries.value|;
      r := Some(Disk(found, if meta.Some? then Some(meta.value.snap) else None, entries.value));
      Gc();
    }
  }

  /** What `Load` finds of a stored value. */
  lemma LoadFinds(segs: seq<Segment>, file: Option<SnapFile>, base: seq<Entry>, d: Disk)
    requires Durable(segs, file, base, d)
    ensures var r := Loaded(segs, file);
            && r.Some? && r.value.hs == d.hs && r.value.snap == d.snap
            && (r.value == d <==> InOrder(segs, file))
  {
    hide Durable, InOrder, Replayed, ReplayedClearing, LastHard, EntriesOf, RecsFrom;
    HardRecovered(segs, file, base, d);
    RecoversIff(segs, file, base, d);
    var r := Loaded(segs, file).value;
    assert r == d <==> r.entries == d.entries;
  }

  lemma RecsSnoc(segs: seq<Segment>, i: nat, min: nat)
    requires i < |segs|
    ensures segs[i].seqNo < min ==> RecsFrom(segs[..i + 1], min) == RecsFrom(segs[..i], min)
    ensures segs[i].seqNo >= min ==> RecsFrom(segs[..i + 1], min) == RecsFrom(segs[..i], min) + segs[i].recs
  {
    assert segs[..i + 1][..i] == segs[..i];
  }

  lemma RecSnoc(recs: seq<Rec>, r: Rec)
    ensures EntriesOf(recs + [r]) == if r.EntryRec? then EntriesOf(recs) + [r.e] else EntriesOf(recs)
    ensures LastHard(recs + [r]) == if r.HardRec? then Some(r.hs) else LastHard(recs)
  {
    assert (recs + [r])[..|recs|] == recs;
  }

  lemma ReplayedSnoc(snap: nat, es: seq<Entry>, e: Entry)
    ensures var r := Replayed(snap, es);
            Replayed(snap, es + [e]) ==
            if r.None? || e.index <= snap then r
            else if e.index - snap - 1 > |r.value| then None
            else Some(r.value[..e.index - snap - 1] + [e])
  {
    assert (es + [e])[..|es|] == es;
  }

  lemma SegmentsExist(segs: seq<Segment>, file: Option<SnapFile>, base: seq<Entry>, d: Disk)
    requires Durable(segs, file, base, d)
    ensures |segs| > 0 && Ascend(segs) && MinSeq(file) <= segs[|segs| - 1].seqNo && SnapIndex(d) == FileIndex(file)
  {
    hide Accounts, Anchored;
  }

  lemma InSequence(segs: seq<Segment>, i: nat, j: nat)
    requires Ascend(segs) && i <= j < |segs|
    ensures segs[i].seqNo <= segs[j].seqNo && (i < j ==> segs[i].seqNo < segs[j].seqNo)
  {
  }

  /** Where a deletion ends that the tags let go as far as segment `i`. */
  lemma StopsAt(segs: seq<Segment>, m: SnapFile, i: nat, removeBefore: nat) returns (k: nat)
    requires Ascend(segs) && i < |segs| && m.minSeq <= segs[|segs| - 1].seqNo
    requires removeBefore == Max(m.minSeq, if i > 0 then segs[i].seqNo else 0)
    requires forall j :: 0 < j <= i ==> segs[j].tag <= m.snap.index + 1
    requires i + 1 < |segs| ==> segs[i + 1].tag > m.snap.index + 1
    ensures k < |segs| && (forall j :: 0 <= j < k ==> segs[j].seqNo < removeBefore) && segs[k].seqNo >= removeBefore
    ensures removeBefore == m.minSeq || (k > 0 && segs[k].tag <= m.snap.index + 1)
    ensures m.minSeq <= removeBefore <= segs[|segs| - 1].seqNo
    ensures removeBefore > m.minSeq ==>
              segs[k].seqNo == removeBefore && forall j :: 0 < j <= k ==> segs[j].tag <= m.snap.index + 1
    ensures Shortest(segs, segs[k..], m)
  {
    InSequence(segs, i, |segs| - 1);
    k := i;
    if removeBefore == m.minSeq {
      k := FirstAtLeast(segs, removeBefore);
    }
    assert i <= k by {
      if k < i {
        InSequence(segs, k, i);
      }
    }
    if i + 1 < |segs| {
      assert 0 < i + 1 <= k + 1 && segs[i + 1].tag > m.snap.index + 1;
    }
    forall j | 0 <= j < |segs[k..]|
      ensures segs[k..][j].seqNo >= m.minSeq
    {
      InSequence(segs, k, k + j);
    }
  }

  lemma {:induction false} FirstAtLeast(segs: seq<Segment>, seqNo: nat) returns (k: nat)
    requires |segs| > 0 && seqNo <= segs[|segs| - 1].seqNo
    ensures k < |segs| && (forall i :: 0 <= i < k ==> segs[i].seqNo < seqNo) && segs[k].seqNo >= seqNo
  {
    if segs[0].seqNo >= seqNo {
      k := 0;
    } else {
      k := FirstAtLeast(segs[1..], seqNo);
      k := k + 1;
    }
  }

  /** Everything is kept if nothing is deleted. */
  lemma WholeKept(segs: seq<Segment>, file: Option<SnapFile>, base: seq<Entry>, d: Disk)
    requires Durable(segs, file, base, d)
    ensures Kept(segs, MinSeq(file), EndOf(d), FileIndex(file), 0)
  {
    hide Durable, EntriesOf, RecsFrom, ReplayedClearing, Replayed;
    SegmentsExist(segs, file, base, d);
    assert segs[0..] == segs;
    RecoversIff(segs, file, base, d);
    DropKeepsIff(segs, file, base, d, 0);
  }

  lemma DeadKept(segs: seq<Segment>, file: Option<SnapFile>, base: seq<Entry>, d: Disk, k: nat)
    requires Durable(segs, file, base, d) && k < |segs| && forall i :: 0 <= i < k ==> segs[i].seqNo < MinSeq(file)
    ensures Kept(segs, MinSeq(file), EndOf(d), FileIndex(file), k) && HardKept(segs, MinSeq(file), k)
  {
    hide Durable, LastHard;
    WholeKept(segs, file, base, d);
    DropReads(segs, MinSeq(file), k);
    RecsDead(segs[..k], MinSeq(file));
    assert segs[0..] == segs;
    assert RecsFrom(segs, MinSeq(file)) == RecsFrom(segs[k..], MinSeq(file));
  }

  /** Where sound storage is cut, nothing needed is cut off. */
  lemma SoundCut(segs: seq<Segment>, file: Option<SnapFile>, base: seq<Entry>, d: Disk, k: nat, removeBefore: nat,
                 minSeq: nat, index: nat)
    requires Durable(segs, file, base, d) && k < |segs| && minSeq <= MinSeq(file) && index <= FileIndex(file)
    requires forall i :: 0 <= i < k ==> segs[i].seqNo < removeBefore
    requires removeBefore == minSeq || k == 0 || segs[k].tag <= index + 1
    ensures KeepsAt(segs, MinSeq(file), EndOf(d), SnapIndex(d)) ==>
              Kept(segs, MinSeq(file), EndOf(d), FileIndex(file), k)
    ensures HardAt(segs, MinSeq(file), SnapIndex(d)) ==> HardKept(segs, MinSeq(file), k)
  {
    hide Durable, Kept, HardKept;
    SegmentsExist(segs, file, base, d);
    if removeBefore == minSeq || k == 0 || segs[k].seqNo < MinSeq(file) {
      DeadKept(segs, file, base, d, k);
    }
  }

  lemma SoundIsLossless(segs: seq<Segment>, file: Option<SnapFile>, base: seq<Entry>, d: Disk, k: nat,
                        removeBefore: nat, minSeq: nat, index: nat)
    requires k < |segs| && minSeq <= MinSeq(file) && index <= FileIndex(file)
    requires forall i :: 0 <= i < k ==> segs[i].seqNo < removeBefore
    requires removeBefore == minSeq || k == 0 || segs[k].tag <= index + 1
    ensures (&& Durable(segs, file, base, d)
             && KeepsAt(segs, MinSeq(file), EndOf(d), SnapIndex(d)) && HardAt(segs, MinSeq(file), SnapIndex(d)))
            ==> Lossless(segs, segs[k..], file, d)
  {
    hide Durable, Kept, HardKept, KeepsAt, HardAt;
    if Durable(segs, file, base, d) {
      SoundCut(segs, file, base, d, k, removeBefore, minSeq, index);
    }
  }

  /** What deleting the segments before `k` leaves of a stored value. */
  lemma CutLeaves(segs: seq<Segment>, file: Option<SnapFile>, base: seq<Entry>, d: Disk, k: nat)
    requires k < |segs|
    ensures Suffix(segs, segs[k..])
    ensures Durable(segs, file, base, d) ==>
              && SnapIndex(d) == FileIndex(file)
              && Deleted(segs, segs[k..], file, d)
              && (Lossless(segs, segs[k..], file, d) ==>
                    Durable(segs[k..], file, BaseAfter(segs, MinSeq(file), base, k), d))
  {
    hide Durable, Kept, HardKept, Deleted, BaseAfter, LastHard, RecsFrom;
    if Durable(segs, file, base, d) {
      SegmentsExist(segs, file, base, d);
      DropKeepsIff(segs, file, base, d, k);
      if Lossless(segs, segs[k..], file, d) {
        DropKeeps(segs, file, base, d, k);
      }
    }
  }

  lemma SoundDrop(segs: seq<Segment>, file: Option<SnapFile>, base: seq<Entry>, d: Disk, k: nat, removeBefore: nat,
                  minSeq: nat, index: nat)
    requires Durable(segs, file, base, d) && k < |segs| && minSeq <= MinSeq(file) && index <= FileIndex(file)
    requires forall i :: 0 <= i < k ==> segs[i].seqNo < removeBefore
    requires removeBefore == minSeq || k == 0 || segs[k].tag <= index + 1
    requires KeepsAt(segs, MinSeq(file), EndOf(d), SnapIndex(d)) && HardAt(segs, MinSeq(file), SnapIndex(d))
    ensures Durable(segs[k..], file, BaseAfter(segs, MinSeq(file), base, k), d)
  {
    hide Durable, Kept, HardKept, KeepsAt, HardAt, BaseAfter, LastHard, RecsFrom;
    SegmentsExist(segs, file, base, d);
    SoundCut(segs, file, base, d, k, removeBefore, minSeq, index);
    DropKeeps(segs, file, base, d, k);
  }

  lemma DropSound(segs: seq<Segment>, min: nat, last: nat, k: nat, snap: nat)
    requires k < |segs|
    ensures KeepsAt(segs, min, last, snap) ==> KeepsAt(segs[k..], min, last, snap)
    ensures AllTight(segs, min, last) ==> AllTight(segs[k..], min, last)
    ensures HardAt(segs, min, snap) ==> HardAt(segs[k..], min, snap)
    ensures Headed(segs, min) ==> Headed(segs[k..], min)
  {
    hide Since, HardKept, Headed;
    if Headed(segs, min) {
      DropHeaded(segs, min, k);
    }
    if HardAt(segs, min, snap) {
      forall i | 0 < i < |segs[k..]| && segs[k..][i].seqNo >= min && segs[k..][i].tag <= snap + 1
        ensures HardKept(segs[k..], min, i)
      {
        DropHardKept(segs, min, k, i + k);
      }
    }
    forall i | 0 < i < |segs| - k
      ensures Since(segs[k..], min, i) == Since(segs, min, i + k) && segs[k..][i] == segs[i + k]
    {
      DropSince(segs, min, k, i + k);
    }
    if KeepsAt(segs, min, last, snap) {
      forall i | 0 < i < |segs[k..]| && segs[k..][i].seqNo >= min && segs[k..][i].tag <= snap + 1
        ensures Kept(segs[k..], min, last, snap, i)
      {
        assert Kept(segs, min, last, snap, i + k);
      }
    }
    if AllTight(segs, min, last) {
      forall i | 0 < i < |segs[k..]| && segs[k..][i].seqNo >= min
        ensures Tight(segs[k..], min, last, i)
      {
        assert Tight(segs, min, last, i + k);
      }
    }
  }

  /** A new segment leaves what older ones have seen since as it was. */
  lemma RotateSound(segs: seq<Segment>, min: nat, last: nat, snap: nat, tag: nat, hs: Option<HardState>)
    requires |segs| > 0 && min <= segs[|segs| - 1].seqNo
    ensures var segs' := Rotated(segs, tag, hs);
            && (KeepsAt(segs, min, last, snap) && (tag <= snap + 1 ==> last <= snap) ==>
              KeepsAt(segs', min, last, snap))
            && (AllTight(segs, min, last) && last < tag ==> AllTight(segs', min, last))
  {
    hide Since, Batch;
    var segs' := Rotated(segs, tag, hs);
    forall i | 0 < i < |segs'|
      ensures Since(segs', min, i) == if i < |segs| then Since(segs, min, i) else []
      ensures i < |segs| ==> segs'[i] == segs[i]
    {
      RotateSince(segs, tag, hs, min, i);
    }
    if KeepsAt(segs, min, last, snap) && (tag <= snap + 1 ==> last <= snap) {
      forall i | 0 < i < |segs'| && segs'[i].seqNo >= min && segs'[i].tag <= snap + 1
        ensures Kept(segs', min, last, snap, i)
      {
        assert i < |segs| ==> Kept(segs, min, last, snap, i);
      }
    }
    if AllTight(segs, min, last) && last < tag {
      forall i | 0 < i < |segs'| && segs'[i].seqNo >= min
        ensures Tight(segs', min, last, i)
      {
        assert i < |segs| ==> Tight(segs, min, last, i);
      }
    }
  }

  /** It tells the hard state if it has its head; without, it must not be
      covered yet if there is a hard state to tell. */
  lemma RotateHardAt(segs: seq<Segment>, min: nat, snap: nat, tag: nat, head: Option<HardState>)
    requires |segs| > 0 && min <= segs[|segs| - 1].seqNo && HardAt(segs, min, snap)
    requires var known := LastHard(RecsFrom(segs, min)); head == known || head == None
    ensures HardAt(Rotated(segs, tag, head), min, snap) <==>
              snap + 1 < tag || head.Some? || LastHard(RecsFrom(segs, min)).None?
  {
    hide HardKept, RecsFrom, LastHard, Batch;
    var segs' := Rotated(segs, tag, head);
    forall i | 0 < i < |segs'|
      ensures i < |segs| && HardKept(segs, min, i) ==> HardKept(segs', min, i)
      ensures i == |segs| ==> (HardKept(segs', min, i) <==> head.Some? || LastHard(RecsFrom(segs, min)).None?)
      ensures i < |segs| ==> segs'[i] == segs[i]
    {
      RotateHardKept(segs, min, tag, head, i);
    }
    assert segs'[|segs|].tag == tag && segs'[|segs|].seqNo >= min;
    if HardAt(segs', min, snap) && tag <= snap + 1 {
      assert HardKept(segs', min, |segs|);
    }
  }

  lemma RotateValid(segs: seq<Segment>, file: Option<SnapFile>, base: seq<Entry>, d: Disk)
    requires Durable(segs, file, base, d)
    ensures |segs| > 0
    ensures var segs' := Rotated(segs, EndOf(d) + 1, d.hs); var min := MinSeq(file);
            && Durable(segs', file, base, d)
            && (KeepsAt(segs, min, EndOf(d), SnapIndex(d)) ==> KeepsAt(segs', min, EndOf(d), SnapIndex(d)))
            && (AllTight(segs, min, EndOf(d)) ==> AllTight(segs', min, EndOf(d)))
            && (HardAt(segs, min, SnapIndex(d)) ==> HardAt(segs', min, SnapIndex(d)))
            && (Headed(segs, min) ==> Headed(segs', min))
  {
    hide Durable, KeepsAt, AllTight, HardAt, Headed, LastHard, RecsFrom;
    SegmentsExist(segs, file, base, d);
    HardRecovered(segs, file, base, d);
    RotateKeeps(segs, file, base, d, EndOf(d) + 1, d.hs);
    RotateSound(segs, MinSeq(file), EndOf(d), SnapIndex(d), EndOf(d) + 1, d.hs);
    if HardAt(segs, MinSeq(file), SnapIndex(d)) {
      RotateHardAt(segs, MinSeq(file), SnapIndex(d), EndOf(d) + 1, d.hs);
    }
    if Headed(segs, MinSeq(file)) {
      RotateHeaded(segs, MinSeq(file), EndOf(d) + 1, d.hs);
    }
  }

  lemma HeadlessValid(segs: seq<Segment>, file: Option<SnapFile>, base: seq<Entry>, d: Disk, tag: nat)
    requires Durable(segs, file, base, d) && (tag == EndOf(d) + 1 || SnapIndex(d) + 1 < tag)
    ensures |segs| > 0
    ensures var segs' := Rotated(segs, tag, None); var min := MinSeq(file);
            && Durable(segs', file, base, d)
            && (KeepsAt(segs, min, EndOf(d), SnapIndex(d)) ==> KeepsAt(segs', min, EndOf(d), SnapIndex(d)))
            && (AllTight(segs, min, EndOf(d)) && tag == EndOf(d) + 1 ==> AllTight(segs', min, EndOf(d)))
            && (HardAt(segs, min, SnapIndex(d)) ==>
                  (HardAt(segs', min, SnapIndex(d)) <==> SnapIndex(d) + 1 < tag || d.hs.None?))
  {
    hide Durable, KeepsAt, AllTight, HardAt, LastHard, RecsFrom;
    SegmentsExist(segs, file, base, d);
    HardRecovered(segs, file, base, d);
    RotateKeeps(segs, file, base, d, tag, None);
    RotateSound(segs, MinSeq(file), EndOf(d), SnapIndex(d), tag, None);
    if HardAt(segs, MinSeq(file), SnapIndex(d)) {
      RotateHardAt(segs, MinSeq(file), SnapIndex(d), tag, None);
    }
  }

  lemma AppendSound(segs: seq<Segment>, min: nat, last: nat, snap: nat, hs: Option<HardState>, es: seq<Entry>)
    requires |segs| > 0 && min <= segs[|segs| - 1].seqNo && (|es| > 0 ==> es[0].index <= last + 1)
    ensures var segs', last' := AppendRecs(segs, Batch(hs, es)), EndAfter(last, es);
            && (KeepsAt(segs, min, last, snap) ==> KeepsAt(segs', min, last', snap))
            && (AllTight(segs, min, last) ==> AllTight(segs', min, last'))
            && (HardAt(segs, min, snap) ==> HardAt(segs', min, snap))
  {
    hide Kept, Tight, HardKept, Batch;
    var segs', last' := AppendRecs(segs, Batch(hs, es)), EndAfter(last, es);
    forall i | 0 < i < |segs|
      ensures Tight(segs, min, last, i) ==> Tight(segs', min, last', i)
      ensures Kept(segs, min, last, snap, i) ==> Kept(segs', min, last', snap, i)
      ensures segs'[i].seqNo == segs[i].seqNo && segs'[i].tag == segs[i].tag
    {
      AppendTight(segs, min, last, snap, hs, es, i);
    }
    forall i | 0 < i < |segs| && HardKept(segs, min, i)
      ensures HardKept(segs', min, i)
    {
      AppendHardKept(segs, min, hs, es, i);
    }
  }

  lemma SaveValid(segs: seq<Segment>, file: Option<SnapFile>, base: seq<Entry>, d: Disk, hs: Option<HardState>,
                  es: seq<Entry>)
    requires Durable(segs, file, base, d) && MaySave(d, es)
    ensures |segs| > 0
    ensures var segs' := AppendRecs(segs, Batch(hs, es)); var min := MinSeq(file); var d' := DiskSpec.Save(d, hs, es);
            && Durable(segs', file, base, d')
            && (KeepsAt(segs, min, EndOf(d), SnapIndex(d)) ==> KeepsAt(segs', min, EndOf(d'), SnapIndex(d')))
            && (AllTight(segs, min, EndOf(d)) ==> AllTight(segs', min, EndOf(d')))
            && (HardAt(segs, min, SnapIndex(d)) ==> HardAt(segs', min, SnapIndex(d')))
            && (Headed(segs, min) ==> Headed(segs', min))
  {
    hide Durable, KeepsAt, AllTight, HardAt, Headed, DiskSpec.Save, Batch;
    SegmentsExist(segs, file, base, d);
    AppendIsSave(segs, file, base, d, hs, es);
    SaveFrame(d, hs, es, EndOf(d));
    AppendSound(segs, MinSeq(file), EndOf(d), SnapIndex(d), hs, es);
    if Headed(segs, MinSeq(file)) {
      AppendHeaded(segs, Batch(hs, es), MinSeq(file));
    }
  }

  /** Where a save leaves the end of the log. */
  lemma SaveFrame(d: Disk, hs: Option<HardState>, es: seq<Entry>, last: nat)
    requires MaySave(d, es) && last == SnapIndex(d) + |d.entries|
    ensures var d' := DiskSpec.Save(d, hs, es);
            && d'.snap == d.snap && d'.hs == (if hs.Some? then hs else d.hs)
            && SnapIndex(d') + |d'.entries| == if |es| > 0 then es[|es| - 1].index else last
  {
    var d1 := if hs.Some? then d.(hs := hs) else d;
    SaveEnds(d1, es);
  }

  lemma {:induction false} SaveEnds(d: Disk, es: seq<Entry>)
    requires MaySave(d, es)
    ensures var d' := AppendEntries(d, es);
            && d' == d.(entries := d'.entries)
            && SnapIndex(d) + |d'.entries| == if |es| > 0 then es[|es| - 1].index else SnapIndex(d) + |d.entries|
  {
    if |es| > 0 {
      SaveEnds(d, es[..|es| - 1]);
    }
  }

  lemma MaySavePrefix(d: Disk, es: seq<Entry>, k: nat)
    requires MaySave(d, es) && k <= |es|
    ensures MaySave(d, es[..k])
  {
  }

  /** Where a snapshot leaves the end of the log. */
  lemma SnapshotEnd(d: Disk, snap: Snapshot, discard: bool)
    requires SnapIndex(d) < snap.index && (discard || snap.index <= EndOf(d))
    ensures var d' := SaveSnapshot(d, snap, discard);
            d'.hs == d.hs && SnapIndex(d') == snap.index && EndOf(d') == if discard then snap.index else EndOf(d)
  {
  }

  lemma RegularKeeps(segs: seq<Segment>, min: nat, last: nat, snap: nat)
    requires |segs| > 0 && Ascend(segs) && min <= segs[|segs| - 1].seqNo
    ensures AllTight(segs, min, last) ==> KeepsAt(segs, min, last, snap)
    ensures Headed(segs, min) ==> HardAt(segs, min, snap)
  {
    hide AllTight, KeepsAt, Headed, HardAt;
    if AllTight(segs, min, last) {
      TightKeeps(segs, min, last, snap);
    }
    if Headed(segs, min) {
      HeadedKeeps(segs, min, snap);
    }
  }

  /** Once the log has been switched to a new segment, only that one matters. */
  lemma DiscardSound(segs: seq<Segment>, hs: Option<HardState>, index: nat)
    requires |segs| > 0 && Ascend(segs) && segs[|segs| - 1].recs == Batch(hs, []) && index < segs[|segs| - 1].tag
    ensures var min := segs[|segs| - 1].seqNo;
            && KeepsAt(segs, min, index, index) && AllTight(segs, min, index)
            && HardAt(segs, min, index) && Headed(segs, min)
  {
    hide AllTight, KeepsAt, Headed, HardAt;
    DiscardTight(segs, hs, index);
    DiscardHeaded(segs);
    RegularKeeps(segs, segs[|segs| - 1].seqNo, index, index);
  }

  /** A segment started for a snapshot still to come is beyond the current one. */
  lemma SwitchValid(segs: seq<Segment>, file: Option<SnapFile>, base: seq<Entry>, d: Disk, tag: nat)
    requires Durable(segs, file, base, d) && tag > SnapIndex(d) + 1
    ensures |segs| > 0
    ensures Durable(Rotated(segs, tag, d.hs), file, base, d)
    ensures KeepsAt(segs, MinSeq(file), EndOf(d), SnapIndex(d)) ==>
              KeepsAt(Rotated(segs, tag, d.hs), MinSeq(file), EndOf(d), SnapIndex(d))
    ensures HardAt(segs, MinSeq(file), SnapIndex(d)) ==>
              HardAt(Rotated(segs, tag, d.hs), MinSeq(file), SnapIndex(d))
    ensures Headed(segs, MinSeq(file)) ==> Headed(Rotated(segs, tag, d.hs), MinSeq(file))
  {
    hide Durable, KeepsAt, AllTight, HardAt, Headed, LastHard, RecsFrom;
    SegmentsExist(segs, file, base, d);
    HardRecovered(segs, file, base, d);
    RotateKeeps(segs, file, base, d, tag, d.hs);
    RotateSound(segs, MinSeq(file), EndOf(d), SnapIndex(d), tag, d.hs);
    if HardAt(segs, MinSeq(file), SnapIndex(d)) {
      RotateHardAt(segs, MinSeq(file), SnapIndex(d), tag, d.hs);
    }
    if Headed(segs, MinSeq(file)) {
      RotateHeaded(segs, MinSeq(file), tag, d.hs);
    }
  }

  lemma HardRecovered(segs: seq<Segment>, file: Option<SnapFile>, base: seq<Entry>, d: Disk)
    requires Durable(segs, file, base, d)
    ensures LastHard(RecsFrom(segs, MinSeq(file))) == d.hs && d.snap == SnapIn(file)
  {
    hide Accounts, Anchored, RecsFrom, LastHard;
  }
}
