/** The deterministic key-value state machine as a function of its state. */
module KvSpec {
  import opened Types

  const TWO_TO_64: nat := 0x1_0000_0000_0000_0000

  const EMPTY_STORE: KvState := KvState(map[], map[], [])

  /** The version a client can observe: a missing or deleted key is version 0. */
  function Visible(data: map<string, Record>, key: string): nat {
    if key in data && !data[key].deleted then data[key].version else 0
  }

  /** One command on the data, without deduplication: new data and result. */
  function Execute(data: map<string, Record>, cmd: Command): (map<string, Record>, Result) {
    var visible := Visible(data, cmd.key);
    if cmd.hasExpectedVersion && cmd.expectedVersion != visible then
      (data, Result(VersionMismatch, visible))
    else match cmd.op
      case Put =>
        var version := if cmd.key in data then data[cmd.key].version + 1 else 1;
        var rec := Record(cmd.value, version, false, cmd.cacheable, cmd.ttlSeconds, cmd.timestampMs);
        (data[cmd.key := rec], Result(Ok, version))
      case Delete =>
        if visible == 0 then
          (data, Result(NotFound, 0))
        else
          var cur := data[cmd.key];
          var rec := cur.(value := [], version := cur.version + 1, deleted := true, updatedMs := cmd.timestampMs);
          (data[cmd.key := rec], Result(Ok, rec.version))
  }

  /** Unsigned 64-bit `index - oldest`. */
  function Elapsed(index: nat, oldest: nat): int {
    if oldest <= index then index - oldest else index - oldest + TWO_TO_64
  }

  /** Forgets request IDs older than the window, oldest first. */
  function Evict(window: nat, s: KvState, index: nat): KvState
    decreases |s.order|
  {
    if |s.order| == 0 || Elapsed(index, s.order[0].index) <= window then s
    else Evict(window, s.(dedup := s.dedup - {s.order[0].id}, order := s.order[1..]), index)
  }

  /** One committed command: evict, answer a remembered request ID from the
      table, otherwise execute and remember. */
  function Apply(window: nat, s: KvState, index: nat, cmd: Command): (KvState, Result) {
    var s1 := Evict(window, s, index);
    if cmd.requestId != "" && cmd.requestId in s1.dedup then
      (s1, s1.dedup[cmd.requestId].result)
    else
      var (data, res) := Execute(s1.data, cmd);
      var s2 := s1.(data := data);
      if cmd.requestId == "" then (s2, res)
      else (s2.(dedup := s2.dedup[cmd.requestId := DedupEntry(index, res)],
                order := s2.order + [DedupKey(index, cmd.requestId)]), res)
  }

  function StoreMachine(window: nat): Machine {
    Machine(EMPTY_STORE, (s: KvState, index: nat, cmd: Command) => Apply(window, s, index, cmd))
  }
}
