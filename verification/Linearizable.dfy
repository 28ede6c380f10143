/** What clients see is one sequential history that respects real time: every
    write with a result and every served read has a point in the one sequence
    of entries, and an operation that ended before another began comes first. */
module Linearizable {
  import opened Types
  import opened LogSpec
  import opened Replica
  import opened Cluster
  import opened Link
  import opened Safety
  import opened Proposals
  import opened Placements

  /** A write proposed after state `from` and answered with a result by state
      `to`, or a read begun after `from` and served by replica `n` in `to`. */
  datatype Op =
    | Write(from: nat, to: nat, a: Answer)
    | ServedRead(from: nat, to: nat, rd: Read, n: NodeId)

  ghost predicate Happened(run: seq<Group>, op: Op) {
    && op.from <= op.to < |run|
    && match op
       case Write(from, to, a) => a.pid !in run[from].proposed && a in run[to].answered && a.outcome.Applied?
       case ServedRead(from, to, rd, n) =>
         && rd in run[to].confirmed && run[from].now <= rd.start
         && n in run[to].nodes && run[to].nodes[n].appl.lastApplied >= rd.index
  }

  /** How many entries the state that a read saw has applied. */
  ghost function Served(run: seq<Group>, op: Op): nat
    requires Happened(run, op) && op.ServedRead?
  {
    AppliedTo(run[op.to].nodes[op.n].appl)
  }

  /** A write takes effect at its index, a read right after the last entry it saw. */
  ghost function Point(run: seq<Group>, op: Op): nat
    requires Happened(run, op)
  {
    if op.Write? then 2 * op.a.index else 2 * Served(run, op) + 1
  }

  /** The operation's outcome is what `chosen` gives at its point. */
  ghost predicate Sequential(run: seq<Group>, chosen: seq<Entry>, op: Op) {
    && Happened(run, op)
    && if op.Write? then Earned(run[op.to], chosen, op.a)
       else
         && Served(run, op) <= |chosen|
         && run[op.to].nodes[op.n].appl.sm == Replay(run[op.to].machine, chosen[..Served(run, op)])
  }

  // ------------------------------------------------------------------
  // What only grows along a run
  // ------------------------------------------------------------------

  lemma StepGrows(s: Group, step: Step)
    requires Enabled(s, step)
    ensures s.proposed.Keys <= Do(s, step).proposed.Keys && s.now <= Do(s, step).now
  {
    hide EffectOf, Submitted, PrepareAppend, SentSnapshot, Without;
  }

  lemma {:induction false} RunGrows(run: seq<Group>, steps: seq<Step>, i: nat, j: nat)
    requires IsRun(run, steps) && i <= j < |run|
    ensures run[i].proposed.Keys <= run[j].proposed.Keys && run[i].now <= run[j].now
    decreases j
  {
    hide Enabled, Do, Init;
    if i < j {
      RunGrows(run, steps, i, j - 1);
      StepGrows(run[j - 1], steps[j - 1]);
    }
  }

  // ------------------------------------------------------------------
  // Real time
  // ------------------------------------------------------------------

  /** What a read saw was committed where it was served. */
  lemma ServedCommitted(run: seq<Group>, steps: seq<Step>, op: Op)
    requires TimelyRun(run, steps) && Happened(run, op) && op.ServedRead?
    ensures op.rd.index <= Served(run, op) <= run[op.to].nodes[op.n].commitIndex
  {
    hide TimelyRun, Reflects;
    var chosen := OneSequenceApplied(run, steps);
    assert Reflects(run[op.to].machine, chosen, run[op.to].nodes[op.n]);
    ReflectsApplied(run[op.to].machine, chosen, run[op.to].nodes[op.n]);
  }

  lemma RealTime(run: seq<Group>, steps: seq<Step>, p: Op, q: Op)
    requires TimelyRun(run, steps) && Happened(run, p) && Happened(run, q) && p.to <= q.from
    ensures if q.Write? then Point(run, p) < Point(run, q) else Point(run, p) <= Point(run, q)
  {
    hide IsRun, Timely;
    RunGrows(run, steps, p.to, q.from);
    match (p, q)
    case (Write(_, _, a), Write(_, _, b)) => ResultsInOrder(run, steps, p.to, a, q.to, b);
    case (Write(_, _, a), ServedRead(_, _, rd, n)) =>
      var chosen := ReadsSeeAnsweredWrites(run, steps, p.to, q.to, rd, n, a);
    case (ServedRead(_, _, _, n), Write(_, _, b)) =>
      ServedCommitted(run, steps, p);
      LaterResultsFurther(run, steps, p.to, n, q.to, b);
    case (ServedRead(_, _, _, n), ServedRead(_, _, rd, _)) =>
      ReadsNeverGoBack(run, steps, p.to, q.to, n, rd);
      ServedCommitted(run, steps, q);
  }

  /** Every timely run is linearizable: one sequence of entries gives every
      operation its outcome at its point, no two writes share a point, and the
      points follow real time. */
  lemma ClientsSeeOneHistory(run: seq<Group>, steps: seq<Step>) returns (chosen: seq<Entry>)
    requires TimelyRun(run, steps)
    ensures Indexed(chosen)
    ensures forall op :: Happened(run, op) ==> Sequential(run, chosen, op)
    ensures forall p, q :: Happened(run, p) && Happened(run, q) && p.to <= q.from ==>
              if q.Write? then Point(run, p) < Point(run, q) else Point(run, p) <= Point(run, q)
    ensures forall p, q :: Happened(run, p) && Happened(run, q) && p.Write? && q.Write? && p.a.pid != q.a.pid ==>
              Point(run, p) != Point(run, q)
  {
    hide TimelyRun, Reflects, Earned;
    chosen := ResultsBelongToProposals(run, steps);
    forall op | Happened(run, op)
      ensures Sequential(run, chosen, op)
    {
      if op.ServedRead? {
        assert Reflects(run[op.to].machine, chosen, run[op.to].nodes[op.n]);
        ReflectsApplied(run[op.to].machine, chosen, run[op.to].nodes[op.n]);
      }
    }
    forall p, q | Happened(run, p) && Happened(run, q) && p.to <= q.from
      ensures if q.Write? then Point(run, p) < Point(run, q) else Point(run, p) <= Point(run, q)
    {
      RealTime(run, steps, p, q);
    }
    forall p, q | Happened(run, p) && Happened(run, q) && p.Write? && q.Write? && p.a.pid != q.a.pid
      ensures Point(run, p) != Point(run, q)
    {
      ResultsAtOwnIndex(run, steps, p.to, p.a, q.to, q.a);
    }
  }
}
