/** The in-memory storage: the meaning of the `Storage` contract, as an object. */
module MemStorage {
  import opened Types
  import DiskSpec
  import opened Recovery

  class MemStorage {
    var hs: Option<DiskSpec.HardState>
    var snapshot: Option<DiskSpec.Snapshot>
    var entries: seq<Entry>

    ghost function Value(): DiskSpec.Disk
      reads this
    {
      DiskSpec.Disk(hs, snapshot, entries)
    }

    constructor ()
      ensures Value() == DiskSpec.EMPTY_DISK
    {
      hs, snapshot, entries := None, None, [];
    }

    method Load() returns (d: DiskSpec.Disk)
      ensures d == Value()
    {
      d := DiskSpec.Disk(hs, snapshot, entries);
    }

    /** An existing index replaces the tail; one past the end would leave a hole. */
    method AppendEntry(e: Entry)
      requires e.index <= DiskSpec.SnapIndex(Value()) + |entries| + 1
      modifies this`entries
      ensures Value() == DiskSpec.AppendEntry(old(Value()), e)
    {
      var first := 1;
      if snapshot.Some? {
        first := snapshot.value.index + 1;
      }
      if e.index < first {
        return;
      }
      entries := entries[..e.index - first] + [e];
    }

    method Save(newHs: Option<DiskSpec.HardState>, es: seq<Entry>)
      requires MaySave(Value(), es)
      modifies this`hs, this`entries
      ensures Value() == DiskSpec.Save(old(Value()), newHs, es)
      ensures forall base, recs :: old(Accounts(base, recs, Value())) ==> Accounts(base, recs + es, Value())
    {
      ghost var before := Value();
      if newHs.Some? {
        hs := newHs;
      }
      ghost var start := Value();
      for i := 0 to |es|
        invariant snapshot == old(snapshot) && Value() == DiskSpec.AppendEntries(start, es[..i])
        invariant i > 0 ==> DiskSpec.SnapIndex(Value()) + |entries| == es[i - 1].index
        invariant i == 0 ==> Value() == start
      {
        assert es[..i + 1][..i] == es[..i];
        AppendEntry(es[i]);
      }
      assert es[..|es|] == es;
      forall base, recs | Accounts(base, recs, before)
        ensures Accounts(base, recs + es, Value())
      {
        AccountsStart(base, recs, before, start);
        SaveAccounts(base, recs, start, es);
      }
    }

    /** Keeps the newest snapshot and drops the log it covers, or all of it. */
    method SaveSnapshot(snap: DiskSpec.Snapshot, discardLog: bool)
      modifies this`snapshot, this`entries
      ensures Value() == DiskSpec.SaveSnapshot(old(Value()), snap, discardLog)
    {
      if snapshot.Some? && snap.index <= snapshot.value.index {
        return;
      }
      var first := 1;
      if snapshot.Some? {
        first := snapshot.value.index + 1;
      }
      var drop := snap.index + 1 - first;
      if discardLog || drop >= |entries| {
        entries := [];
      } else {
        entries := entries[drop..];
      }
      snapshot := Some(snap);
    }
  }

  lemma AccountsStart(base: seq<Entry>, recs: seq<Entry>, d: DiskSpec.Disk, d1: DiskSpec.Disk)
    requires Accounts(base, recs, d) && d1 == d.(hs := d1.hs)
    ensures Accounts(base, recs, d1)
  {
  }
}
