/** Stable storage as the `Storage` contract describes it: hard state, latest
    snapshot, and the entries after the snapshot. */
module DiskSpec {
  import opened Types

  datatype HardState = HardState(term: nat, votedFor: NodeId)

  datatype Snapshot = Snapshot(index: nat, term: nat, data: KvState)

  datatype Disk = Disk(hs: Option<HardState>, snap: Option<Snapshot>, entries: seq<Entry>)

  const EMPTY_DISK: Disk := Disk(None, None, [])

  /** The index covered by the stored snapshot, 0 without one. */
  function SnapIndex(d: Disk): nat {
    if d.snap.Some? then d.snap.value.index else 0
  }

  function SnapTerm(d: Disk): nat {
    if d.snap.Some? then d.snap.value.term else 0
  }

  /** An existing index replaces that entry and everything after it; an index
      inside the snapshot is ignored. */
  function AppendEntry(d: Disk, e: Entry): Disk {
    if e.index <= SnapIndex(d) then d
    else d.(entries := d.entries[..Min(e.index - SnapIndex(d) - 1, |d.entries|)] + [e])
  }

  function AppendEntries(d: Disk, es: seq<Entry>): Disk {
    if |es| == 0 then d else AppendEntry(AppendEntries(d, es[..|es| - 1]), es[|es| - 1])
  }

  function Save(d: Disk, hs: Option<HardState>, es: seq<Entry>): Disk {
    var d1 := if hs.Some? then d.(hs := hs) else d;
    AppendEntries(d1, es)
  }

  /** Keeps the newest snapshot; drops the log it covers, or all of it. */
  function SaveSnapshot(d: Disk, snap: Snapshot, discardLog: bool): Disk {
    if d.snap.Some? && snap.index <= d.snap.value.index then d
    else
      var drop := if snap.index >= SnapIndex(d) then snap.index - SnapIndex(d) else 0;
      d.(snap := Some(snap),
         entries := if discardLog || drop >= |d.entries| then [] else d.entries[drop..])
  }
}
