/** What a restart makes of recovered storage: the same replica if recovery was
    exact, and what can go wrong if it was not. */
module Restart {
  import opened Types
  import opened LogSpec
  import opened DiskSpec
  import opened Replica
  import opened Recovery
  import opened Segments

  /** A restart from the files is a restart from the storage they stand for
      exactly when the log goes on after the snapshot or no surviving record
      does; otherwise the replica comes back with a longer log. */
  lemma RestartIsExactIff(w: Machine, segs: seq<Segment>, file: Option<SnapFile>, base: seq<Entry>, d: Disk)
    requires Durable(segs, file, base, d)
    ensures var past := ReachesPast(EntriesOf(RecsFrom(segs, MinSeq(file))), FileIndex(file));
            && Loaded(segs, file).Some?
            && (Boot(w, Loaded(segs, file).value) == Boot(w, d) <==> |d.entries| > 0 || !past)
            && (|d.entries| == 0 && past ==>
              LastIndex(Boot(w, Loaded(segs, file).value).log) > LastIndex(Boot(w, d).log))
  {
    hide Accounts, Anchored, RecsFrom, EntriesOf, LastHard, Replayed, ReplayedClearing, ReachesPast;
    RecoversIff(segs, file, base, d);
    InOrderIff(segs, file, base, d);
    assert Loaded(segs, file).value == d.(entries := Loaded(segs, file).value.entries);
  }

  /** The consequence: a replica that had entry 1 of term 2 committed and
      snapshotted restarts with entry 2 of term 1 behind it, reports term 1 as
      its last, and would vote for a candidate that lacks the committed entry.
      With exact recovery it would refuse. */
  lemma ResurrectedTailMisleadsVote(w: Machine, p: Payload, data: KvState)
    ensures var saved, overwrite := [Entry(1, 1, p), Entry(2, 1, p)], [Entry(1, 2, p)];
            var written := Save(Save(EMPTY_DISK, None, saved), None, overwrite);
            var exact := SaveSnapshot(written, Snapshot(1, 2, data), false);
            var found := Replayed(1, saved + overwrite);
            && !LogUpToDate(Boot(w, exact), 2, 1)
            && found.Some?
            && LogUpToDate(Boot(w, exact.(entries := found.value)), 2, 1)
  {
    SkippedOverwriteResurrects(p, data);
  }

  /** A crash inside a rotation, with the whole log inside the snapshot: the
      new segment lacks its head and its tag is covered, so the next `Load`
      deletes the segment that holds term and vote. After one more restart the
      replica votes for another candidate in the term in which it has voted. */
  lemma CutShortRotationVotesTwice(w: Machine, data: KvState, t: nat, p: Payload, a: NodeId, b: NodeId)
    requires a != b && a != NO_NODE
    ensures var vote, e := HardState(t, a), Entry(1, t, p);
            var exact := Disk(Some(vote), Some(Snapshot(1, t, data)), []);
            var segs := Rotated([Segment(1, 0, [HardRec(vote), EntryRec(e)])], 2, None);
            var file := Some(SnapFile(Snapshot(1, t, data), 0));
            && Durable(segs, file, [], exact)
            && segs[1].tag <= 1 + 1 && !HardKept(segs, 0, 1)
            && Loaded(segs[1..], file) == Some(exact.(hs := None))
            && !HandleRequestVote(Boot(w, exact), VoteReq(t, b, 1, t)).1.granted
            && HandleRequestVote(Boot(w, exact.(hs := None)), VoteReq(t, b, 1, t)).1.granted
  {
    hide Durable, HandleRequestVote, RecsFrom, LastHard, EntriesOf, Replayed, Rotated, Batch;
    var vote, e := HardState(t, a), Entry(1, t, p);
    var one, file := [Segment(1, 0, [HardRec(vote), EntryRec(e)])], Some(SnapFile(Snapshot(1, t, data), 0));
    var exact := Disk(Some(vote), Some(Snapshot(1, t, data)), []);
    VotedDurable(data, vote, e, exact);
    RotateKeeps(one, file, [], exact, 2, None);
    RotateHardKept(one, 0, 2, None, 1);
    HeadlessLoads(one, file, exact);
    VoteForgotten(w, exact, t, a, b);
  }

  lemma VotedDurable(data: KvState, vote: HardState, e: Entry, d: Disk)
    requires e.index == 1 && d == Disk(Some(vote), Some(Snapshot(1, e.term, data)), [])
    ensures var one := [Segment(1, 0, [HardRec(vote), EntryRec(e)])];
            && Durable(one, Some(SnapFile(Snapshot(1, e.term, data), 0)), [], d)
            && LastHard(RecsFrom(one, 0)) == Some(vote)
  {
    hide Durable, RecsFrom, LastHard, EntriesOf, KeepsAt, AllTight, HardAt, Headed;
    var empty, recs, d1 := [Segment(1, 0, [])], [HardRec(vote), EntryRec(e)], Disk(Some(vote), None, [e]);
    EmptyIsDurable();
    BatchMeans(Some(vote), [e]);
    assert recs == Batch(Some(vote), [e]) && [] + recs == recs;
    assert AppendRecs(empty, recs) == [Segment(1, 0, recs)];
    FirstSaved(vote, e, d1);
    AppendIsSave(empty, None, [], EMPTY_DISK, Some(vote), [e]);
    RenameIsSave([Segment(1, 0, recs)], None, [], d1, Snapshot(1, e.term, data));
    Singleton(Segment(1, 0, recs), 0);
  }

  lemma FirstSaved(vote: HardState, e: Entry, d: Disk)
    requires e.index == 1 && d == Disk(Some(vote), None, [e])
    ensures Save(EMPTY_DISK, Some(vote), [e]) == d && MaySave(EMPTY_DISK, [e])
  {
    var d0 := EMPTY_DISK.(hs := Some(vote));
    assert AppendEntries(d0, [e][..0]) == d0;
  }

  lemma HeadlessLoads(one: seq<Segment>, file: Option<SnapFile>, d: Disk)
    requires |one| == 1 && MinSeq(file) == 0 && d.snap == SnapIn(file) && d.entries == []
    ensures var segs := Rotated(one, 2, None);
            |segs| == 2 && segs[1].tag == 2 && Loaded(segs[1..], file) == Some(d.(hs := None))
  {
    var segs := Rotated(one, 2, None);
    assert segs[1..] == [segs[1]];
    Singleton(segs[1], 0);
    BatchMeans(None, []);
  }

  lemma VoteForgotten(w: Machine, d: Disk, t: nat, a: NodeId, b: NodeId)
    requires d.hs == Some(HardState(t, a)) && a != b && a != NO_NODE && d.entries == []
    ensures var req := VoteReq(t, b, SnapIndex(d), SnapTerm(d));
            && !HandleRequestVote(Boot(w, d), req).1.granted
            && HandleRequestVote(Boot(w, d.(hs := None)), req).1.granted
  {
  }
}
