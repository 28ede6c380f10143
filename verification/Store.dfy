/** The store as the object that the applier drives, updated in place. */
module Store {
  import opened Types
  import KvSpec
  import opened StoreHistory
  import opened StoreTheorems

  const DEFAULT_DEDUP_WINDOW: nat := 100_000

  /** What a reader sees for a key. */
  datatype View = View(value: Bytes, version: nat, cacheable: bool, ttlSeconds: nat, updatedMs: int)

  ghost predicate Lists(records: seq<SnapRecord>, key: string) {
    exists i :: 0 <= i < |records| && records[i].key == key
  }

  lemma ListsMore(records: seq<SnapRecord>, r: SnapRecord)
    ensures forall key :: Lists(records + [r], key) <==> Lists(records, key) || key == r.key
  {
    forall key
      ensures Lists(records + [r], key) <==> Lists(records, key) || key == r.key
    {
      if Lists(records, key) {
        var i :| 0 <= i < |records| && records[i].key == key;
        assert (records + [r])[i].key == key;
      }
      assert (records + [r])[|records|] == r;
    }
  }

  class Store {
    var data: map<string, Record>
    var dedup: map<string, DedupEntry>
    var dedupOrder: seq<DedupKey>
    var dedupWindow: nat

    ghost function Value(): KvState
      reads this
    {
      KvState(data, dedup, dedupOrder)
    }

    constructor ()
      ensures Value() == KvSpec.EMPTY_STORE && dedupWindow == DEFAULT_DEDUP_WINDOW
    {
      data, dedup, dedupOrder, dedupWindow := map[], map[], [], DEFAULT_DEDUP_WINDOW;
    }

    /** A deleted key is as absent as one never written. */
    method Get(key: string) returns (r: Option<View>)
      ensures r.None? <==> key !in data || data[key].deleted
      ensures r.Some? ==> r.value.version == KvSpec.Visible(data, key) && r.value.value == data[key].value
      ensures r.Some? ==> r.value.cacheable == data[key].cacheable && r.value.ttlSeconds == data[key].ttlSeconds
      ensures r.Some? ==> r.value.updatedMs == data[key].updatedMs
    {
      if key !in data || data[key].deleted {
        return None;
      }
      var rec := data[key];
      return Some(View(rec.value, rec.version, rec.cacheable, rec.ttlSeconds, rec.updatedMs));
    }

    /** Forgets request IDs older than the window. */
    method EvictDedup(index: nat)
      modifies this`dedup, this`dedupOrder
      ensures Value() == KvSpec.Evict(dedupWindow, old(Value()), index)
    {
      while |dedupOrder| > 0
        invariant data == old(data)
        invariant KvSpec.Evict(dedupWindow, Value(), index) == KvSpec.Evict(dedupWindow, old(Value()), index)
        decreases |dedupOrder|
      {
        var oldest := dedupOrder[0];
        if KvSpec.Elapsed(index, oldest.index) <= dedupWindow {
          break;
        }
        dedup := dedup - {oldest.id};
        dedupOrder := dedupOrder[1..];
      }
    }

    /** The single place where data changes: compare and write together. */
    method ApplyLocked(cmd: Command) returns (res: Result)
      modifies this`data
      ensures (data, res) == KvSpec.Execute(old(data), cmd)
    {
      var known := cmd.key in data;
      var visible := 0;
      if known && !data[cmd.key].deleted {
        visible := data[cmd.key].version;
      }
      if cmd.hasExpectedVersion && cmd.expectedVersion != visible {
        return Result(VersionMismatch, visible);
      }
      match cmd.op
      case Put =>
        var rec := if known then data[cmd.key] else Record([], 0, false, false, 0, 0);
        rec := rec.(value := cmd.value, version := rec.version + 1, deleted := false,
                    cacheable := cmd.cacheable, ttlSeconds := cmd.ttlSeconds, updatedMs := cmd.timestampMs);
        data := data[cmd.key := rec];
        return Result(Ok, rec.version);
      case Delete =>
        if visible == 0 {
          return Result(NotFound, 0);
        }
        var rec := data[cmd.key];
        rec := rec.(value := [], version := rec.version + 1, deleted := true, updatedMs := cmd.timestampMs);
        data := data[cmd.key := rec];
        return Result(Ok, rec.version);
    }

    /** One committed entry. */
    method Apply(index: nat, cmd: Command) returns (res: Result)
      modifies this`data, this`dedup, this`dedupOrder
      ensures (Value(), res) == KvSpec.Apply(dedupWindow, old(Value()), index, cmd)
      ensures old(InStep(Value())) ==> InStep(Value())
    {
      ghost var before := Value();
      ApplyKeepsStep(dedupWindow, before, index, cmd);
      EvictDedup(index);
      if cmd.requestId != "" && cmd.requestId in dedup {
        return dedup[cmd.requestId].result;
      }
      res := ApplyLocked(cmd);
      if cmd.requestId != "" {
        dedup := dedup[cmd.requestId := DedupEntry(index, res)];
        dedupOrder := dedupOrder + [DedupKey(index, cmd.requestId)];
      }
    }

    /** Every record once, in whatever order the map yields them. */
    method ListRecords() returns (records: seq<SnapRecord>)
      ensures forall i :: 0 <= i < |records| ==> records[i].key in data && data[records[i].key] == records[i].rec
      ensures forall key :: key in data ==> Lists(records, key)
    {
      records := [];
      var rest := data.Keys;
      while rest != {}
        invariant rest <= data.Keys
        invariant forall i :: 0 <= i < |records| ==> records[i].key in data && data[records[i].key] == records[i].rec
        invariant forall key :: key in data && key !in rest ==> Lists(records, key)
        decreases |rest|
      {
        var key :| key in rest;
        ListsMore(records, SnapRecord(key, data[key]));
        records := records + [SnapRecord(key, data[key])];
        rest := rest - {key};
      }
    }

    /** The whole state. */
    method Snapshot() returns (snap: StoreSnapshot)
      requires InStep(Value())
      ensures SnapshotOf(snap, Value())
      ensures Restored(snap) == Value()
    {
      var records := ListRecords();
      var table: seq<SnapDedup> := [];
      for k := 0 to |dedupOrder|
        invariant |table| == k
        invariant forall j :: 0 <= j < k ==>
                    table[j] == SnapDedup(dedupOrder[j].id, dedupOrder[j].index, dedup[dedupOrder[j].id].result)
      {
        var key := dedupOrder[k];
        table := table + [SnapDedup(key.id, key.index, dedup[key.id].result)];
      }
      snap := StoreSnapshot(records, table);
      RestoreInvertsSnapshot(snap, Value());
    }

    /** Replaces everything with a snapshot. */
    method Restore(snap: StoreSnapshot)
      modifies this`data, this`dedup, this`dedupOrder
      ensures Value() == Restored(snap)
      ensures forall s :: InStep(s) && SnapshotOf(snap, s) ==> Value() == s
    {
      var newData: map<string, Record> := map[];
      for i := 0 to |snap.records|
        invariant newData == RestoreData(snap.records[..i])
      {
        assert snap.records[..i + 1][..i] == snap.records[..i];
        newData := newData[snap.records[i].key := snap.records[i].rec];
      }
      assert snap.records[..|snap.records|] == snap.records;
      var newDedup: map<string, DedupEntry> := map[];
      var newOrder: seq<DedupKey> := [];
      for i := 0 to |snap.dedup|
        invariant newDedup == RestoreTable(snap.dedup[..i]) && newOrder == RestoreOrder(snap.dedup[..i])
      {
        assert snap.dedup[..i + 1][..i] == snap.dedup[..i];
        var d := snap.dedup[i];
        newDedup := newDedup[d.id := DedupEntry(d.index, d.result)];
        newOrder := newOrder + [DedupKey(d.index, d.id)];
      }
      assert snap.dedup[..|snap.dedup|] == snap.dedup;
      data, dedup, dedupOrder := newData, newDedup, newOrder;
      forall s | InStep(s) && SnapshotOf(snap, s)
        ensures Restored(snap) == s
      {
        RestoreInvertsSnapshot(snap, s);
      }
    }
  }

  lemma {:induction false} EvictKeepsStep(window: nat, s: KvState, index: nat)
    requires InStep(s)
    ensures InStep(KvSpec.Evict(window, s, index))
    decreases |s.order|
  {
    if |s.order| > 0 && KvSpec.Elapsed(index, s.order[0].index) > window {
      PopKeepsStep(s);
      EvictKeepsStep(window, s.(dedup := s.dedup - {s.order[0].id}, order := s.order[1..]), index);
    }
  }

  lemma PopKeepsStep(s: KvState)
    requires InStep(s) && |s.order| > 0
    ensures InStep(s.(dedup := s.dedup - {s.order[0].id}, order := s.order[1..]))
  {
    var s' := s.(dedup := s.dedup - {s.order[0].id}, order := s.order[1..]);
    forall id | id in s'.dedup
      ensures exists k :: 0 <= k < |s'.order| && s'.order[k].id == id
    {
      var k :| 0 <= k < |s.order| && s.order[k].id == id;
      assert s'.order[k - 1].id == id;
    }
  }

  /** FIFO and table stay in step whatever indexes entries carry. */
  lemma ApplyKeepsStep(window: nat, s: KvState, index: nat, cmd: Command)
    ensures InStep(s) ==> InStep(KvSpec.Apply(window, s, index, cmd).0)
  {
    hide KvSpec.Execute, KvSpec.Evict;
    if InStep(s) {
      EvictKeepsStep(window, s, index);
      var s1 := KvSpec.Evict(window, s, index);
      var s2 := KvSpec.Apply(window, s, index, cmd).0;
      forall id | id in s2.dedup
        ensures exists k :: 0 <= k < |s2.order| && s2.order[k].id == id
      {
        if id in s1.dedup {
          var k :| 0 <= k < |s1.order| && s1.order[k].id == id;
          assert s2.order[k].id == id;
        } else {
          assert s2.order[|s1.order|].id == id;
        }
      }
    }
  }
}
