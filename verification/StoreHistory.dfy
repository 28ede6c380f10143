/** What the store's state and results mean, in terms of the log alone: which
    entries execute, what the data then is, and what a retried request gets. */
module StoreHistory {
  import opened Types
  import opened KvSpec

  type Log = seq<Entry>

  ghost predicate Ascending(log: Log) {
    forall i, j :: 0 <= i < j < |log| ==> log[i].index < log[j].index
  }

  function IdAt(log: Log, i: nat): string
    requires i < |log|
  {
    if log[i].payload.Normal? then log[i].payload.cmd.requestId else ""
  }

  /** `j` is an earlier occurrence of entry `i`'s request ID within the window. */
  predicate Repeats(window: nat, log: Log, j: nat, i: nat)
    requires i < |log|
  {
    j < i && IdAt(log, i) != "" && IdAt(log, j) == IdAt(log, i) && log[i].index - log[j].index <= window
  }

  /** An occurrence executes when no execution of its request ID lies within the window. */
  ghost predicate Executes(window: nat, log: Log, i: nat)
    requires i < |log|
  {
    && log[i].payload.Normal?
    && forall j :: 0 <= j < i && Repeats(window, log, j, i) ==> !Executes(window, log, j)
  }

  /** The data after the executing entries among the first `n`. */
  ghost function DataAt(window: nat, log: Log, n: nat): map<string, Record>
    requires n <= |log|
  {
    if n == 0 then map[]
    else if Executes(window, log, n - 1) then Execute(DataAt(window, log, n - 1), log[n - 1].payload.cmd).0
    else DataAt(window, log, n - 1)
  }

  /** What executing entry `i` answers. */
  ghost function OutcomeAt(window: nat, log: Log, i: nat): Result
    requires i < |log| && log[i].payload.Normal?
  {
    Execute(DataAt(window, log, i), log[i].payload.cmd).1
  }

  // ------------------------------------------------------------------
  // The deduplication table
  // ------------------------------------------------------------------

  ghost predicate Remembered(window: nat, log: Log, j: nat, now: nat)
    requires j < |log|
  {
    Executes(window, log, j) && IdAt(log, j) != "" && now - log[j].index <= window
  }

  /** The executions among the first `n` still within the window at `now`, in log order. */
  ghost function Live(window: nat, log: Log, n: nat, now: nat): seq<DedupKey>
    requires n <= |log|
  {
    if n == 0 then []
    else Live(window, log, n - 1, now) + if Remembered(window, log, n - 1,
          now) then [DedupKey(log[n - 1].index, IdAt(log, n - 1))] else []
  }

  /** FIFO and table hold the same distinct IDs. */
  ghost predicate InStep(s: KvState) {
    && (forall k :: 0 <= k < |s.order| ==> s.order[k].id in s.dedup && s.dedup[s.order[k].id].index == s.order[k].index)
    && (forall k, l :: 0 <= k < l < |s.order| ==> s.order[k].id != s.order[l].id)
    && (forall id :: id in s.dedup ==> exists k :: 0 <= k < |s.order| && s.order[k].id == id)
  }

  /** The table answers for exactly the remembered executions. */
  ghost predicate Table(window: nat, log: Log, n: nat, now: nat, s: KvState)
    requires n <= |log|
  {
    && s.order == Live(window, log, n, now)
    && (forall j :: 0 <= j < n && Remembered(window, log, j, now) ==>
          IdAt(log, j) in s.dedup && s.dedup[IdAt(log, j)] == DedupEntry(log[j].index, OutcomeAt(window, log, j)))
    && (forall id :: id in s.dedup ==> exists j :: 0 <= j < n && Remembered(window, log, j, now) && IdAt(log, j) == id)
  }

  lemma {:induction false} LiveMembers(window: nat, log: Log, n: nat, now: nat)
    requires n <= |log|
    ensures forall j :: 0 <= j < n && Remembered(window, log, j, now) ==>
              DedupKey(log[j].index, IdAt(log, j)) in Live(window, log, n, now)
    ensures forall k :: k in Live(window, log, n, now) ==>
              exists j :: 0 <= j < n && Remembered(window, log, j, now) && k == DedupKey(log[j].index, IdAt(log, j))
  {
    if n > 0 {
      LiveMembers(window, log, n - 1, now);
    }
  }

  /** Two executions of one ID are further apart than the window. */
  lemma ExecutionsApart(window: nat, log: Log, i: nat, j: nat)
    requires i < j < |log| && Executes(window, log, i) && Executes(window, log, j)
    requires IdAt(log, i) == IdAt(log, j) != ""
    ensures log[j].index - log[i].index > window
  {
    assert !Repeats(window, log, i, j);
  }

  /** At most one remembered execution per ID. */
  lemma RememberedOnce(window: nat, log: Log, i: nat, j: nat, now: nat)
    requires Ascending(log) && i < |log| && j < |log| && log[i].index <= now && log[j].index <= now
    requires Remembered(window, log, i, now) && Remembered(window, log, j, now) && IdAt(log, i) == IdAt(log, j)
    ensures i == j
  {
    if i < j { ExecutionsApart(window, log, i, j); }
    if j < i { ExecutionsApart(window, log, j, i); }
  }

  lemma RememberedApart(window: nat, log: Log, i: nat, j: nat, now: nat)
    requires i < j < |log| && log[j].index <= now && Remembered(window, log, i, now) && Remembered(window, log, j, now)
    ensures IdAt(log, i) != IdAt(log, j)
  {
    assert !Repeats(window, log, i, j);
  }

  /** Moving the clock forward drops a prefix of the FIFO. */
  lemma {:induction false} LiveShrinks(window: nat, log: Log, n: nat, was: nat, now: nat) returns (d: nat)
    requires Ascending(log) && n <= |log| && was <= now
    ensures d <= |Live(window, log, n, was)| && Live(window, log, n, now) == Live(window, log, n, was)[d..]
    ensures forall k :: 0 <= k < d ==> now - Live(window, log, n, was)[k].index > window
    ensures forall k :: d <= k < |Live(window, log, n, was)| ==> now - Live(window, log, n, was)[k].index <= window
  {
    hide Executes;
    if n == 0 {
      d := 0;
    } else if now - log[n - 1].index > window {
      LiveExpired(window, log, n, now);
      LiveUpTo(window, log, n, was);
      d := |Live(window, log, n, was)|;
    } else {
      d := LiveShrinks(window, log, n - 1, was, now);
    }
  }

  /** If the newest entry has left the window, so have all. */
  lemma {:induction false} LiveExpired(window: nat, log: Log, n: nat, now: nat)
    requires Ascending(log) && 0 < n <= |log| && now - log[n - 1].index > window
    ensures Live(window, log, n, now) == []
  {
    if n > 1 {
      LiveExpired(window, log, n - 1, now);
    } else {
      assert Live(window, log, 0, now) == [];
    }
  }

  lemma LiveUpTo(window: nat, log: Log, n: nat, now: nat)
    requires Ascending(log) && 0 < n <= |log|
    ensures forall k :: 0 <= k < |Live(window, log, n, now)| ==> Live(window, log, n, now)[k].index <= log[n - 1].index
  {
    LiveMembers(window, log, n, now);
    forall k | 0 <= k < |Live(window, log, n, now)|
      ensures Live(window, log, n, now)[k].index <= log[n - 1].index
    {
      assert Live(window, log, n, now)[k] in Live(window, log, n, now);
    }
  }

  // ------------------------------------------------------------------
  // Eviction
  // ------------------------------------------------------------------

  /** Evicting drops the first `d` keys and their IDs when exactly those are too old. */
  lemma {:induction false} EvictDrops(window: nat, s: KvState, index: nat, d: nat)
    requires d <= |s.order| && forall k :: 0 <= k < |s.order| ==> s.order[k].index <= index
    requires forall k :: 0 <= k < d ==> index - s.order[k].index > window
    requires forall k :: d <= k < |s.order| ==> index - s.order[k].index <= window
    ensures var r := Evict(window, s, index);
            && r.data == s.data
            && r.order == s.order[d..]
            && (forall id :: id in r.dedup <==> id in s.dedup && forall k :: 0 <= k < d ==> s.order[k].id != id)
            && (forall id :: id in r.dedup ==> r.dedup[id] == s.dedup[id])
    decreases d
  {
    if d > 0 {
      var s1 := s.(dedup := s.dedup - {s.order[0].id}, order := s.order[1..]);
      EvictDrops(window, s1, index, d - 1);
      assert forall k :: 1 <= k < d ==> s.order[k].id == s1.order[k - 1].id;
      assert forall k :: 0 <= k < d - 1 ==> s1.order[k].id == s.order[k + 1].id;
    }
  }

  ghost predicate Elapsing(log: Log, n: nat, now: nat)
    requires n <= |log|
  {
    forall j :: 0 <= j < n ==> log[j].index <= now
  }

  lemma EvictTable(window: nat, log: Log, n: nat, was: nat, now: nat, s: KvState)
    requires Ascending(log) && n <= |log| && was <= now && Elapsing(log, n, now)
    requires Table(window, log, n, was, s) && forall j :: 0 <= j < n && log[j].payload.Normal? ==> log[j].index <= was
    ensures Table(window, log, n, now, Evict(window, s, now)) && Evict(window, s, now).data == s.data
  {
    var d := LiveShrinks(window, log, n, was, now);
    LiveMembers(window, log, n, was);
    forall k | 0 <= k < |s.order|
      ensures s.order[k].index <= now
    {
      assert s.order[k] in s.order;
    }
    EvictDrops(window, s, now, d);
    forall j | 0 <= j < n && Remembered(window, log, j, now)
      ensures forall k :: 0 <= k < d ==> s.order[k].id != IdAt(log, j)
    {
      forall k | 0 <= k < d
        ensures s.order[k].id != IdAt(log, j)
      {
        DroppedIsOther(window, log, n, was, now, s.order[k], j);
      }
    }
    var r := Evict(window, s, now);
    forall id | id in r.dedup
      ensures exists j :: 0 <= j < n && Remembered(window, log, j, now) && IdAt(log, j) == id
    {
      var j :| 0 <= j < n && Remembered(window, log, j, was) && IdAt(log, j) == id;
      var k :| 0 <= k < |s.order| && s.order[k] == DedupKey(log[j].index, IdAt(log, j));
      assert k >= d;
    }
  }

  lemma DroppedIsOther(window: nat, log: Log, n: nat, was: nat, now: nat, key: DedupKey, j: nat)
    requires Ascending(log) && j < n <= |log| && was <= now
    requires forall i :: 0 <= i < n && log[i].payload.Normal? ==> log[i].index <= was
    requires key in Live(window, log, n, was) && now - key.index > window && Remembered(window, log, j, now)
    ensures key.id != IdAt(log, j)
  {
    LiveMembers(window, log, n, was);
    var i :| 0 <= i < n && Remembered(window, log, i, was) && key == DedupKey(log[i].index, IdAt(log, i));
    if IdAt(log, i) == IdAt(log, j) {
      RememberedOnce(window, log, i, j, was);
    }
  }

  /** The execution that answers a repeated request. */
  ghost predicate Answers(window: nat, log: Log, j: nat, i: nat)
    requires i < |log|
  {
    j < i && Repeats(window, log, j, i) && Executes(window, log, j)
  }

  lemma ExecutesIffUnknown(window: nat, log: Log, n: nat, s: KvState)
    requires Ascending(log) && n < |log| && log[n].payload.Normal? && Table(window, log, n, log[n].index, s)
    ensures Executes(window, log, n) <==> IdAt(log, n) == "" || IdAt(log, n) !in s.dedup
    ensures !Executes(window, log, n) ==>
              exists j :: 0 <= j < n && Answers(window, log, j, n)
                  && s.dedup[IdAt(log, n)].result == OutcomeAt(window, log, j)
  {
    var id := IdAt(log, n);
    if id != "" && id in s.dedup {
      var j :| 0 <= j < n && Remembered(window, log, j, log[n].index) && IdAt(log, j) == id;
      assert Repeats(window, log, j, n) && Answers(window, log, j, n);
    } else {
      forall j | 0 <= j < n && Repeats(window, log, j, n)
        ensures !Executes(window, log, j)
      {
        assert Executes(window, log, j) ==> Remembered(window, log, j, log[n].index);
      }
    }
  }

  /** One entry moves the data and the table as the history says. */
  lemma ApplyStep(window: nat, log: Log, n: nat, was: nat, s: KvState)
    requires Ascending(log) && n < |log| && log[n].payload.Normal? && was <= log[n].index
    requires Table(window, log, n, was, s) && forall j :: 0 <= j < n && log[j].payload.Normal? ==> log[j].index <= was
    requires s.data == DataAt(window, log, n)
    ensures var r := Apply(window, s, log[n].index, log[n].payload.cmd);
            && r.0.data == DataAt(window, log, n + 1)
            && Table(window, log, n + 1, log[n].index, r.0)
            && (Executes(window, log, n) ==> r.1 == OutcomeAt(window, log, n))
            && (!Executes(window, log, n) ==>
              exists j :: 0 <= j < n && Answers(window, log, j, n) && r.1 == OutcomeAt(window, log, j))
  {
    hide Execute, Evict, Table, Executes, Answers;
    var now, cmd := log[n].index, log[n].payload.cmd;
    EvictTable(window, log, n, was, now, s);
    var s1 := Evict(window, s, now);
    ExecutesIffUnknown(window, log, n, s1);
    if Executes(window, log, n) {
      TableGrows(window, log, n, s1, Apply(window, s, now, cmd).0);
    } else {
      SkippedKeepsTable(window, log, n, now, s1);
    }
  }

  lemma TableGrows(window: nat, log: Log, n: nat, s: KvState, s': KvState)
    requires Ascending(log) && n < |log| && log[n].payload.Normal? && Executes(window, log, n)
    requires Table(window, log, n, log[n].index, s) && (IdAt(log, n) == "" || IdAt(log, n) !in s.dedup)
    requires IdAt(log, n) == "" ==> s'.dedup == s.dedup && s'.order == s.order
    requires IdAt(log, n) != "" ==>
               && s'.dedup == s.dedup[IdAt(log, n) := DedupEntry(log[n].index, OutcomeAt(window, log, n))]
               && s'.order == s.order + [DedupKey(log[n].index, IdAt(log, n))]
    ensures Table(window, log, n + 1, log[n].index, s')
  {
    hide OutcomeAt, Executes;
    var now := log[n].index;
    assert Remembered(window, log, n, now) <==> IdAt(log, n) != "";
    forall id | id in s'.dedup
      ensures exists j :: 0 <= j < n + 1 && Remembered(window, log, j, now) && IdAt(log, j) == id
    {
      if id != IdAt(log, n) {
        assert id in s.dedup;
      } else {
        assert Remembered(window, log, n, now);
      }
    }
  }

  // ------------------------------------------------------------------
  // Whole logs
  // ------------------------------------------------------------------

  /** The index of the last command among the first `n` entries. */
  function Clock(log: Log, n: nat): nat
    requires n <= |log|
  {
    if n == 0 then 0 else if log[n - 1].payload.Normal? then log[n - 1].index else Clock(log, n - 1)
  }

  lemma {:induction false} ClockBounds(log: Log, n: nat)
    requires Ascending(log) && n <= |log|
    ensures forall j :: 0 <= j < n && log[j].payload.Normal? ==> log[j].index <= Clock(log, n)
    ensures n < |log| ==> Clock(log, n) <= log[n].index
  {
    if n > 0 {
      ClockBounds(log, n - 1);
    }
  }

  /** The store after any log holds the data, FIFO and table its history says. */
  lemma {:induction false} StoreFollowsHistory(window: nat, log: Log, n: nat)
    requires Ascending(log) && n <= |log|
    ensures var s := Replay(StoreMachine(window), log[..n]);
            s.data == DataAt(window, log, n) && Table(window, log, n, Clock(log, n), s)
  {
    if n > 0 {
      StoreFollowsHistory(window, log, n - 1);
      ClockBounds(log, n - 1);
      var s := Replay(StoreMachine(window), log[..n - 1]);
      assert log[..n][..n - 1] == log[..n - 1];
      if log[n - 1].payload.Normal? {
        ApplyStep(window, log, n - 1, Clock(log, n - 1), s);
      } else {
        SkippedKeepsTable(window, log, n - 1, Clock(log, n - 1), s);
      }
    }
  }

  lemma SkippedKeepsTable(window: nat, log: Log, n: nat, now: nat, s: KvState)
    requires n < |log| && !Executes(window, log, n) && Table(window, log, n, now, s)
    ensures Table(window, log, n + 1, now, s)
  {
    assert Live(window, log, n + 1, now) == Live(window, log, n, now);
    forall id | id in s.dedup
      ensures exists j :: 0 <= j < n + 1 && Remembered(window, log, j, now) && IdAt(log, j) == id
    {
      var j :| 0 <= j < n && Remembered(window, log, j, now) && IdAt(log, j) == id;
    }
  }

  /** Deduplication: an occurrence that executes answers its own outcome; any
      other changes no data and answers the outcome of the execution within
      the window. */
  lemma DedupRefinesHistory(window: nat, log: Log, i: nat)
    requires Ascending(log) && i < |log| && log[i].payload.Normal?
    ensures var m := StoreMachine(window);
            var before, after := Replay(m, log[..i]), Replay(m, log[..i + 1]);
            var answer := EntryResult(m, before, log[i]);
            && (Executes(window, log, i) ==> answer == Some(OutcomeAt(window, log, i)))
            && (!Executes(window, log, i) ==>
                  && after.data == before.data
                  && exists j :: 0 <= j < i && Answers(window, log, j, i) && answer == Some(OutcomeAt(window, log, j)))
            && InStep(after)
  {
    hide Execute, Apply, Table, Executes, Answers, InStep, OutcomeAt;
    StoreFollowsHistory(window, log, i);
    assert log[..i + 1][..i] == log[..i];
    StoreFollowsHistory(window, log, i + 1);
    ClockBounds(log, i);
    ApplyStep(window, log, i, Clock(log, i), Replay(StoreMachine(window), log[..i]));
    ClockBounds(log, i + 1);
    TableInStep(window, log, i + 1, Clock(log, i + 1), Replay(StoreMachine(window), log[..i + 1]));
  }

  lemma {:induction false} LiveDistinct(window: nat, log: Log, n: nat, now: nat)
    requires Ascending(log) && n <= |log| && forall j :: 0 <= j < n && log[j].payload.Normal? ==> log[j].index <= now
    ensures forall k, l :: 0 <= k < l < |Live(window, log, n, now)| ==>
              Live(window, log, n, now)[k].id != Live(window, log, n, now)[l].id
  {
    if n > 0 {
      LiveDistinct(window, log, n - 1, now);
      if Remembered(window, log, n - 1, now) {
        LiveMembers(window, log, n - 1, now);
        var live := Live(window, log, n - 1, now);
        forall k | 0 <= k < |live|
          ensures live[k].id != IdAt(log, n - 1)
        {
          assert live[k] in live;
          var j :| 0 <= j < n - 1 && Remembered(window, log, j, now) && live[k] == DedupKey(log[j].index, IdAt(log, j));
          RememberedApart(window, log, j, n - 1, now);
        }
      }
    }
  }

  lemma TableInStep(window: nat, log: Log, n: nat, now: nat, s: KvState)
    requires Ascending(log) && n <= |log| && Table(window, log, n, now, s)
    requires forall j :: 0 <= j < n && log[j].payload.Normal? ==> log[j].index <= now
    ensures InStep(s)
  {
    LiveDistinct(window, log, n, now);
    LiveMembers(window, log, n, now);
    forall k | 0 <= k < |s.order|
      ensures s.order[k].id in s.dedup && s.dedup[s.order[k].id].index == s.order[k].index
    {
      assert s.order[k] in s.order;
    }
    forall id | id in s.dedup
      ensures exists k :: 0 <= k < |s.order| && s.order[k].id == id
    {
      var j :| 0 <= j < n && Remembered(window, log, j, now) && IdAt(log, j) == id;
      assert DedupKey(log[j].index, IdAt(log, j)) in s.order;
    }
  }
}
