/** Values shared by every layer: the replicated log entry, the store's
    command and result, and the store's state as carried by snapshots. */
module Types {

  datatype Option<+T> = None | Some(value: T)

  /** A member of the Raft group; the empty ID of the source is `NO_NODE`. */
  type NodeId = nat

  const NO_NODE: NodeId := 0

  type Byte = b: int | 0 <= b < 256

  type Bytes = seq<Byte>

  datatype Op = Put | Delete

  datatype Command = Command(
    op: Op,
    key: string,
    value: Bytes,
    hasExpectedVersion: bool,
    expectedVersion: nat,
    requestId: string,
    cacheable: bool,
    ttlSeconds: nat,
    timestampMs: int)

  datatype Status = Ok | NotFound | VersionMismatch

  datatype Result = Result(status: Status, version: nat)

  /** A key's record; a deleted key keeps its record as a tombstone. */
  datatype Record = Record(
    value: Bytes,
    version: nat,
    deleted: bool,
    cacheable: bool,
    ttlSeconds: nat,
    updatedMs: int)

  datatype DedupEntry = DedupEntry(index: nat, result: Result)

  datatype DedupKey = DedupKey(index: nat, id: string)

  /** The key-value state machine: data, deduplication table and its FIFO. */
  datatype KvState = KvState(
    data: map<string, Record>,
    dedup: map<string, DedupEntry>,
    order: seq<DedupKey>)

  /** What committed entries are applied to: the `StateMachine` interface, with
      its serialised form and its state identified. */
  datatype Machine = Machine(init: KvState, apply: (KvState, nat, Command) -> (KvState, Result))

  /** What a log entry carries: a leader's no-op, or a client command. */
  datatype Payload = Noop | Normal(cmd: Command)

  datatype Entry = Entry(index: nat, term: nat, payload: Payload)

  /** The term of the entry at a 1-based index; index 0 precedes the log. */
  function TermAt(log: seq<Entry>, index: nat): nat
    requires index <= |log|
  {
    if index == 0 then 0 else log[index - 1].term
  }

  function LastTerm(log: seq<Entry>): nat {
    TermAt(log, |log|)
  }

  /** The first `k` entries of both logs exist and are equal. */
  ghost predicate Agree(a: seq<Entry>, b: seq<Entry>, k: nat) {
    && k <= |a|
    && k <= |b|
    && forall j {:trigger a[j]} {:trigger b[j]} :: 0 <= j < k ==> a[j] == b[j]
  }

  ghost predicate Indexed(log: seq<Entry>) {
    forall i :: 0 <= i < |log| ==> log[i].index == i + 1
  }

  function Min(a: nat, b: nat): nat { if a <= b then a else b }

  function Max(a: nat, b: nat): nat { if a <= b then b else a }

  // ------------------------------------------------------------------
  // Running a state machine along a log
  // ------------------------------------------------------------------

  /** One committed log entry; a no-op never reaches the state machine. */
  function ApplyEntry(m: Machine, s: KvState, e: Entry): KvState {
    if e.payload.Noop? then s else m.apply(s, e.index, e.payload.cmd).0
  }

  function EntryResult(m: Machine, s: KvState, e: Entry): Option<Result> {
    if e.payload.Noop? then None else Some(m.apply(s, e.index, e.payload.cmd).1)
  }

  /** The state after applying a log prefix. */
  function Replay(m: Machine, es: seq<Entry>): KvState {
    if |es| == 0 then m.init
    else ApplyEntry(m, Replay(m, es[..|es| - 1]), es[|es| - 1])
  }
}
