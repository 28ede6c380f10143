/** Snapshots commute with applying entries, and versions count changes, so a
    compare-and-set cannot be fooled by a value that came back. */
module StoreTheorems {
  import opened Types
  import opened KvSpec
  import opened StoreHistory

  // ------------------------------------------------------------------
  // Snapshots
  // ------------------------------------------------------------------

  datatype SnapRecord = SnapRecord(key: string, rec: Record)

  datatype SnapDedup = SnapDedup(id: string, index: nat, result: Result)

  datatype StoreSnapshot = StoreSnapshot(records: seq<SnapRecord>, dedup: seq<SnapDedup>)

  /** A snapshot lists every record and nothing else, in any order, and the
      deduplication entries in FIFO order. */
  ghost predicate SnapshotOf(snap: StoreSnapshot, s: KvState) {
    && (forall i :: 0 <= i < |snap.records| ==>
          snap.records[i].key in s.data && s.data[snap.records[i].key] == snap.records[i].rec)
    && (forall key :: key in s.data ==> exists i :: 0 <= i < |snap.records| && snap.records[i].key == key)
    && |snap.dedup| == |s.order|
    && (forall k :: 0 <= k < |s.order| ==>
          s.order[k].id in s.dedup
              && snap.dedup[k] == SnapDedup(s.order[k].id, s.order[k].index, s.dedup[s.order[k].id].result))
  }

  function RestoreData(rs: seq<SnapRecord>): map<string, Record> {
    if |rs| == 0 then map[] else RestoreData(rs[..|rs| - 1])[rs[|rs| - 1].key := rs[|rs| - 1].rec]
  }

  function RestoreTable(ds: seq<SnapDedup>): map<string, DedupEntry> {
    if |ds| == 0 then map[]
    else RestoreTable(ds[..|ds| - 1])[ds[|ds| - 1].id := DedupEntry(ds[|ds| - 1].index, ds[|ds| - 1].result)]
  }

  function RestoreOrder(ds: seq<SnapDedup>): seq<DedupKey> {
    seq(|ds|, i requires 0 <= i < |ds| => DedupKey(ds[i].index, ds[i].id))
  }

  /** The state a store has after restoring a snapshot. */
  function Restored(snap: StoreSnapshot): KvState {
    KvState(RestoreData(snap.records), RestoreTable(snap.dedup), RestoreOrder(snap.dedup))
  }

  lemma {:induction false} RestoreDataReads(rs: seq<SnapRecord>, data: map<string, Record>)
    requires forall i :: 0 <= i < |rs| ==> rs[i].key in data && data[rs[i].key] == rs[i].rec
    ensures forall key :: key in RestoreData(rs) <==> exists i :: 0 <= i < |rs| && rs[i].key == key
    ensures forall key :: key in RestoreData(rs) ==> key in data && RestoreData(rs)[key] == data[key]
  {
    if |rs| > 0 {
      var front := rs[..|rs| - 1];
      RestoreDataReads(front, data);
      forall key | exists i :: 0 <= i < |rs| && rs[i].key == key
        ensures key in RestoreData(rs)
      {
        var i :| 0 <= i < |rs| && rs[i].key == key;
        if i < |rs| - 1 { assert front[i].key == key; }
      }
    }
  }

  lemma {:induction false} RestoreTableReads(ds: seq<SnapDedup>, s: KvState)
    requires |ds| <= |s.order|
    requires forall k :: 0 <= k < |ds| ==> s.order[k].id in s.dedup && s.dedup[s.order[k].id].index == s.order[k].index
    requires forall k :: 0 <= k < |ds| ==>
               ds[k] == SnapDedup(s.order[k].id, s.order[k].index, s.dedup[s.order[k].id].result)
    ensures forall id :: id in RestoreTable(ds) <==> exists k :: 0 <= k < |ds| && s.order[k].id == id
    ensures forall id :: id in RestoreTable(ds) ==> id in s.dedup && RestoreTable(ds)[id] == s.dedup[id]
  {
    if |ds| > 0 {
      RestoreTableReads(ds[..|ds| - 1], s);
    }
  }

  /** Restoring a snapshot gives back the whole state: data, table and FIFO. */
  lemma RestoreInvertsSnapshot(snap: StoreSnapshot, s: KvState)
    requires InStep(s) && SnapshotOf(snap, s)
    ensures Restored(snap) == s
  {
    hide RestoreData, RestoreTable;
    DataComesBack(snap, s);
    TableComesBack(snap, s);
  }

  lemma DataComesBack(snap: StoreSnapshot, s: KvState)
    requires SnapshotOf(snap, s)
    ensures RestoreData(snap.records) == s.data
  {
    hide RestoreData;
    RestoreDataReads(snap.records, s.data);
  }

  lemma TableComesBack(snap: StoreSnapshot, s: KvState)
    requires InStep(s) && SnapshotOf(snap, s)
    ensures RestoreTable(snap.dedup) == s.dedup && RestoreOrder(snap.dedup) == s.order
  {
    hide RestoreTable;
    RestoreTableReads(snap.dedup, s);
  }

  /** Applying entries from a given state. */
  function ReplayFrom(m: Machine, s: KvState, es: seq<Entry>): KvState {
    if |es| == 0 then s else ApplyEntry(m, ReplayFrom(m, s, es[..|es| - 1]), es[|es| - 1])
  }

  lemma {:induction false} ReplaySplits(m: Machine, log: Log, i: nat, n: nat)
    requires i <= n <= |log|
    ensures ReplayFrom(m, Replay(m, log[..i]), log[i..n]) == Replay(m, log[..n])
  {
    if i < n {
      ReplaySplits(m, log, i, n - 1);
      assert log[i..n][..n - i - 1] == log[i..n - 1];
      assert log[..n][..n - 1] == log[..n - 1];
    }
  }

  lemma ReplayInStep(window: nat, log: Log, n: nat)
    requires Ascending(log) && n <= |log|
    ensures InStep(Replay(StoreMachine(window), log[..n]))
  {
    StoreFollowsHistory(window, log, n);
    ClockBounds(log, n);
    TableInStep(window, log, n, Clock(log, n), Replay(StoreMachine(window), log[..n]));
  }

  /** Snapshots commute with apply: restoring what was saved after `i` entries
      and applying the rest gives the state of the whole log, at every point. */
  lemma SnapshotCommutes(window: nat, log: Log, i: nat, n: nat, snap: StoreSnapshot)
    requires Ascending(log) && i <= n <= |log| && SnapshotOf(snap, Replay(StoreMachine(window), log[..i]))
    ensures ReplayFrom(StoreMachine(window), Restored(snap), log[i..n]) == Replay(StoreMachine(window), log[..n])
  {
    ReplayInStep(window, log, i);
    RestoreInvertsSnapshot(snap, Replay(StoreMachine(window), log[..i]));
    ReplaySplits(StoreMachine(window), log, i, n);
  }

  // ------------------------------------------------------------------
  // Versions
  // ------------------------------------------------------------------

  /** Entry `j` is a successful put or delete of `key`. */
  ghost predicate ChangesKey(window: nat, log: Log, j: nat, key: string)
    requires j < |log|
  {
    Executes(window, log, j) && log[j].payload.cmd.key == key && OutcomeAt(window, log, j).status == Ok
  }

  /** How many of the first `n` entries changed `key`. */
  ghost function Changes(window: nat, log: Log, n: nat, key: string): nat
    requires n <= |log|
  {
    if n == 0 then 0 else Changes(window, log, n - 1, key) + if ChangesKey(window, log, n - 1, key) then 1 else 0
  }

  lemma {:induction false} VersionCountsChanges(window: nat, log: Log, n: nat, key: string)
    requires n <= |log|
    ensures var data := DataAt(window, log, n);
            && (key in data <==> Changes(window, log, n, key) > 0)
            && (key in data ==> data[key].version == Changes(window, log, n, key))
  {
    if n > 0 {
      VersionCountsChanges(window, log, n - 1, key);
    }
  }

  lemma {:induction false} ChangesGrow(window: nat, log: Log, m: nat, n: nat, key: string)
    requires m <= n <= |log|
    ensures Changes(window, log, m, key) <= Changes(window, log, n, key)
  {
    if m < n {
      ChangesGrow(window, log, m, n - 1, key);
    }
  }

  /** As long as the count stands still, so does the record. */
  lemma {:induction false} RecordStands(window: nat, log: Log, m: nat, n: nat, key: string)
    requires m <= n <= |log| && Changes(window, log, m, key) == Changes(window, log, n, key)
    requires key in DataAt(window, log, m)
    ensures key in DataAt(window, log, n) && DataAt(window, log, n)[key] == DataAt(window, log, m)[key]
  {
    if m < n {
      ChangesGrow(window, log, m, n - 1, key);
      RecordStands(window, log, m, n - 1, key);
    }
  }

  /** No ABA: a compare-and-set on a visible version `v` that executes
      succeeds only if the key has not changed since any moment at which it
      showed `v`. Deleting and re-creating it does not bring `v` back. */
  lemma CasNoAba(window: nat, log: Log, m: nat, k: nat, i: nat)
    requires m <= k <= i < |log| && Executes(window, log, i)
    requires var cmd := log[i].payload.cmd;
             && cmd.hasExpectedVersion && cmd.expectedVersion != 0
             && OutcomeAt(window, log, i).status == Ok
             && Visible(DataAt(window, log, m), cmd.key) == cmd.expectedVersion
    ensures var key := log[i].payload.cmd.key;
            && key in DataAt(window, log, m) && key in DataAt(window, log, k)
            && DataAt(window, log, k)[key] == DataAt(window, log, m)[key]
            && Changes(window, log, k, key) == Changes(window, log, m, key)
  {
    var key := log[i].payload.cmd.key;
    VersionCountsChanges(window, log, m, key);
    VersionCountsChanges(window, log, i, key);
    ChangesGrow(window, log, m, k, key);
    ChangesGrow(window, log, k, i, key);
    RecordStands(window, log, m, k, key);
  }

  // ------------------------------------------------------------------
  // What the data is
  // ------------------------------------------------------------------

  /** The last of the first `n` entries that changed `key`. */
  ghost function LastChange(window: nat, log: Log, n: nat, key: string): Option<nat>
    requires n <= |log|
  {
    if n == 0 then None
    else if ChangesKey(window, log, n - 1, key) then Some(n - 1)
    else LastChange(window, log, n - 1, key)
  }

  /** The last of the first `n` entries that put `key`. */
  ghost function LastPut(window: nat, log: Log, n: nat, key: string): Option<nat>
    requires n <= |log|
  {
    if n == 0 then None
    else if ChangesKey(window, log, n - 1, key) && log[n - 1].payload.cmd.op.Put? then Some(n - 1)
    else LastPut(window, log, n - 1, key)
  }

  /** What a successful command leaves behind, `put` being the last put: a
      delete drops the value and keeps how it was to be cached. */
  ghost predicate WrittenBy(rec: Record, cmd: Command, put: Command, version: nat) {
    match cmd.op
    case Put => rec == Record(cmd.value, version, false, cmd.cacheable, cmd.ttlSeconds, cmd.timestampMs)
    case Delete => rec == Record([], version, true, put.cacheable, put.ttlSeconds, cmd.timestampMs)
  }

  /** Last write wins: a key's record is exactly what the last successful
      command on it wrote, whatever happened to other keys. */
  lemma {:induction false} LastChangeWins(window: nat, log: Log, n: nat, key: string)
    requires n <= |log|
    ensures var data, last := DataAt(window, log, n), LastChange(window, log, n, key);
            var put := LastPut(window, log, n, key);
            && (key in data <==> last.Some?)
            && (last.Some? <==> put.Some?)
            && (last.Some? ==>
                  && put.value <= last.value < n
                  && ChangesKey(window, log, last.value, key) && ChangesKey(window, log, put.value, key)
                  && (log[last.value].payload.cmd.op.Put? ==> put == last)
                  && WrittenBy(data[key], log[last.value].payload.cmd, log[put.value].payload.cmd,
                       Changes(window, log, n, key)))
  {
    if n > 0 {
      LastChangeWins(window, log, n - 1, key);
      VersionCountsChanges(window, log, n - 1, key);
    }
  }

  /** The version a client sees before entry `n`: the number of changes, unless
      the last one was a delete. */
  ghost function Shown(window: nat, log: Log, n: nat, key: string): nat
    requires n <= |log|
  {
    var last := LastChange(window, log, n, key);
    if last.Some? && last.value < n && log[last.value].payload.Normal? && log[last.value].payload.cmd.op.Put?
    then Changes(window, log, n, key) else 0
  }

  /** A command that executes succeeds exactly when the version it expects, if
      any, is the one shown, and a delete only on a key that shows one. */
  lemma SucceedsIff(window: nat, log: Log, i: nat)
    requires i < |log| && Executes(window, log, i)
    ensures var cmd := log[i].payload.cmd; var shown := Shown(window, log, i, cmd.key);
            OutcomeAt(window, log, i).status == Ok <==>
            (cmd.hasExpectedVersion ==> cmd.expectedVersion == shown) && (cmd.op.Delete? ==> shown != 0)
  {
    var key := log[i].payload.cmd.key;
    LastChangeWins(window, log, i, key);
    VersionCountsChanges(window, log, i, key);
  }

  /** What a command that executes answers: the version shown if that is not the
      one it expects; else that there is nothing to delete; else the number of
      changes of its key, its own included. */
  lemma AnswersVersion(window: nat, log: Log, i: nat)
    requires i < |log| && Executes(window, log, i)
    ensures var cmd := log[i].payload.cmd; var shown := Shown(window, log, i, cmd.key);
            OutcomeAt(window, log, i) ==
            if cmd.hasExpectedVersion && cmd.expectedVersion != shown then Result(VersionMismatch, shown)
            else if cmd.op.Delete? && shown == 0 then Result(NotFound, 0)
            else Result(Ok, Changes(window, log, i + 1, cmd.key))
  {
    var key := log[i].payload.cmd.key;
    SucceedsIff(window, log, i);
    LastChangeWins(window, log, i, key);
    VersionCountsChanges(window, log, i, key);
  }

  /** So the version a successful write answers is the one shown right after it,
      unless it was a delete, and a compare-and-set on it succeeds until the
      key changes again. */
  lemma AnsweredVersionIsShown(window: nat, log: Log, i: nat, n: nat)
    requires i < n <= |log| && Executes(window, log, i) && OutcomeAt(window, log, i).status == Ok
    requires log[i].payload.cmd.op.Put?
    ensures var key := log[i].payload.cmd.key; var v := OutcomeAt(window, log, i).version;
            && v > 0
            && (Shown(window, log, n, key) == v <==> forall j :: i < j < n ==> !ChangesKey(window, log, j, key))
  {
    var key := log[i].payload.cmd.key;
    AnswersVersion(window, log, i);
    assert ChangesKey(window, log, i, key);
    ChangesGrow(window, log, i + 1, n, key);
    StandsIff(window, log, i + 1, n, key);
    LastChangeWins(window, log, n, key);
  }

  /** The count stands still exactly while the key does not change; then the
      last change does, too. */
  lemma {:induction false} StandsIff(window: nat, log: Log, m: nat, n: nat, key: string)
    requires m <= n <= |log|
    ensures Changes(window, log, n, key) == Changes(window, log, m, key) <==>
              forall j :: m <= j < n ==> !ChangesKey(window, log, j, key)
    ensures Changes(window, log, n, key) == Changes(window, log, m, key) ==>
              LastChange(window, log, n, key) == LastChange(window, log, m, key)
  {
    if m < n {
      StandsIff(window, log, m, n - 1, key);
      ChangesGrow(window, log, m, n - 1, key);
    }
  }
}
