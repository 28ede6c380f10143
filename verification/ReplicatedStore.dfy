/** The whole system: a group replicating the key-value store. */
module ReplicatedStore {
  import opened Types
  import opened KvSpec
  import opened Replica
  import opened Cluster
  import opened Safety
  import opened StoreHistory
  import opened StoreTheorems

  lemma {:induction false} MachineFixed(run: seq<Group>, steps: seq<Step>, i: nat)
    requires TimelyRun(run, steps) && i < |run|
    ensures run[i].machine == run[0].machine
  {
    hide Enabled, Init, Do;
    if i > 0 {
      MachineFixed(run, steps, i - 1);
      StepKeepsMachine(run[i - 1], steps[i - 1]);
    }
  }

  lemma StepKeepsMachine(s: Group, step: Step)
    requires Enabled(s, step)
    ensures Do(s, step).machine == s.machine
  {
    hide EffectOf;
  }

  /** What a client is told: the outcome of its own command if it executed,
      else of the execution its request ID repeats. */
  ghost predicate Told(window: nat, chosen: seq<Entry>, a: Answer) {
    && 0 < a.index <= |chosen|
    && chosen[a.index - 1] == Entry(a.index, chosen[a.index - 1].term, Normal(a.cmd))
    && a.outcome.Applied?
    && if Executes(window, chosen, a.index - 1) then a.outcome.result == Some(OutcomeAt(window, chosen, a.index - 1))
       else
         exists j ::
           && 0 <= j < a.index - 1
           && Answers(window, chosen, j, a.index - 1)
           && a.outcome.result == Some(OutcomeAt(window, chosen, j))
  }

  lemma IndexedAscending(chosen: seq<Entry>)
    requires Indexed(chosen)
    ensures Ascending(chosen)
  {
  }

  /** What a replica serves: the data its part of the log says, with a table
      that a snapshot captures without loss. */
  ghost predicate Serves(window: nat, chosen: seq<Entry>, s: Node) {
    && AppliedTo(s.appl) <= |chosen|
    && s.appl.sm.data == DataAt(window, chosen, AppliedTo(s.appl))
    && InStep(s.appl.sm)
  }

  lemma StoreState(window: nat, chosen: seq<Entry>, s: Node)
    requires Ascending(chosen) && Reflects(StoreMachine(window), chosen, s)
    ensures Serves(window, chosen, s)
  {
    hide StoreMachine, InStep;
    var k := AppliedTo(s.appl);
    StoreFollowsHistory(window, chosen, k);
    ReplayInStep(window, chosen, k);
  }

  lemma StoreAnswer(window: nat, chosen: seq<Entry>, a: Answer)
    requires Indexed(chosen) && Ascending(chosen) && Truthful(StoreMachine(window), chosen, a) && a.outcome.Applied?
    ensures Told(window, chosen, a)
  {
    hide StoreMachine, EntryResult, Replay, Executes, Answers, OutcomeAt, InStep;
    DedupRefinesHistory(window, chosen, a.index - 1);
  }

  /** Over every timely run of a group replicating the store, one log explains the
      data of every replica at every moment and every result given out; every
      replica's table can be snapshotted and restored without loss. */
  lemma ReplicasServeOneHistory(run: seq<Group>, steps: seq<Step>, window: nat) returns (chosen: seq<Entry>)
    requires TimelyRun(run, steps) && run[0].machine == StoreMachine(window)
    ensures Indexed(chosen)
    ensures forall i, n :: 0 <= i < |run| && n in run[i].nodes ==> Serves(window, chosen, run[i].nodes[n])
    ensures forall i, a :: 0 <= i < |run| && a in run[i].answered && a.outcome.Applied? ==> Told(window, chosen, a)
  {
    hide TimelyRun, Reflects, Truthful, Told, Serves, StoreMachine;
    chosen := OneSequenceApplied(run, steps);
    IndexedAscending(chosen);
    forall i, n | 0 <= i < |run| && n in run[i].nodes
      ensures Serves(window, chosen, run[i].nodes[n])
    {
      MachineFixed(run, steps, i);
      StoreState(window, chosen, run[i].nodes[n]);
    }
    forall i, a | 0 <= i < |run| && a in run[i].answered && a.outcome.Applied?
      ensures Told(window, chosen, a)
    {
      MachineFixed(run, steps, i);
      StoreAnswer(window, chosen, a);
    }
  }
}
