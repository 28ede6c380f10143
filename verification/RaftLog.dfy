/** The compacted log as the object a replica updates in place. */
module RaftLog {
  import opened Types
  import LogSpec

  class RaftLog {
    var snapIndex: nat
    var snapTerm: nat
    var entries: seq<Entry>

    function Value(): LogSpec.LogState
      reads this
    {
      LogSpec.LogState(snapIndex, snapTerm, entries)
    }

    constructor (index: nat, term: nat, es: seq<Entry>)
      ensures Value() == LogSpec.LogState(index, term, es)
    {
      snapIndex, snapTerm, entries := index, term, es;
    }

    /** The term at an index, unless it is compacted away or past the end. */
    method Term(index: nat) returns (term: nat, ok: bool)
      ensures ok <==> LogSpec.Has(Value(), index)
      ensures term == LogSpec.TermIn(Value(), index)
    {
      if index == snapIndex {
        return snapTerm, true;
      }
      if index < snapIndex || index > snapIndex + |entries| {
        return 0, false;
      }
      return entries[index - snapIndex - 1].term, true;
    }

    /** Entries with `lo <= index <= hi`; a range outside the log panics. */
    method Slice(lo: nat, hi: nat) returns (es: seq<Entry>)
      requires LogSpec.InRange(Value(), lo, hi)
      ensures es == LogSpec.Slice(Value(), lo, hi)
      ensures |es| == if lo <= hi then hi - lo + 1 else 0
    {
      if lo > hi {
        return [];
      }
      return entries[lo - snapIndex - 1..hi - snapIndex];
    }

    /** Appends entry by entry; one that does not follow panics. */
    method Append(es: seq<Entry>)
      requires LogSpec.Follows(LogSpec.LastIndex(Value()), es)
      modifies this`entries
      ensures Value() == LogSpec.AppendTo(old(Value()), es)
    {
      for i := 0 to |es|
        invariant entries == old(entries) + es[..i]
      {
        assert es[i].index == snapIndex + |entries| + 1;
        entries := entries + [es[i]];
      }
    }

    /** Drops an index and everything after it; inside the snapshot panics. */
    method TruncateFrom(index: nat)
      requires index > snapIndex
      modifies this`entries
      ensures Value() == LogSpec.TruncateFrom(old(Value()), index)
    {
      if index > snapIndex + |entries| {
        return;
      }
      entries := entries[..index - snapIndex - 1];
    }

    /** Scans backwards for the start of a run of one term. */
    method FirstIndexOfTerm(term: nat, from: nat) returns (index: nat)
      ensures index == LogSpec.FirstIndexOfTerm(Value(), term, from)
    {
      index := from;
      while index > snapIndex + 1
        invariant LogSpec.FirstIndexOfTerm(Value(), term, index) == LogSpec.FirstIndexOfTerm(Value(), term, from)
        decreases index
      {
        var t, _ := Term(index - 1);
        if t != term {
          break;
        }
        index := index - 1;
      }
    }

    /** Scans backwards for a term, giving up at a smaller one. */
    method LastIndexOfTerm(term: nat) returns (index: nat)
      ensures index == LogSpec.LastIndexOfTerm(Value(), term)
    {
      var i: nat := |entries|;
      while i > 0
        invariant i <= |entries|
        invariant LogSpec.LastIndexOfTermIn(Value(), term, i) == LogSpec.LastIndexOfTerm(Value(), term)
      {
        if entries[i - 1].term == term {
          return entries[i - 1].index;
        }
        if entries[i - 1].term < term {
          return 0;
        }
        i := i - 1;
      }
      return 0;
    }

    /** Discards entries up to an index. */
    method CompactTo(index: nat, term: nat)
      modifies this
      ensures Value() == LogSpec.CompactTo(old(Value()), index, term)
      ensures forall full ::
                (old(LogSpec.Compacts(full, Value())) && old(snapIndex) < index <= |full|
                    && term == TermAt(full, index))
                ==> LogSpec.Compacts(full, Value())
    {
      if index <= snapIndex {
        return;
      }
      entries := if index >= snapIndex + |entries| then [] else entries[index - snapIndex..];
      snapIndex, snapTerm := index, term;
    }

    method Reset(index: nat, term: nat)
      modifies this
      ensures Value() == LogSpec.Reset(index, term)
    {
      entries, snapIndex, snapTerm := [], index, term;
    }
  }

  // ------------------------------------------------------------------
  // What the scans find
  // ------------------------------------------------------------------

  ghost predicate Ordered(l: LogSpec.LogState) {
    && (forall i, j :: 0 <= i < j < |l.entries| ==> l.entries[i].term <= l.entries[j].term)
    && (forall i :: 0 <= i < |l.entries| ==> l.entries[i].index == l.snapIndex + 1 + i)
  }

  ghost predicate HoldsTerm(l: LogSpec.LogState, term: nat, n: nat)
    requires n <= |l.entries|
  {
    exists i :: 0 <= i < n && l.entries[i].term == term
  }

  /** Along a log whose terms never decrease, giving up early loses nothing:
      the scan finds the last entry of the term, or there is none. */
  lemma {:induction false} LastIndexIsLast(l: LogSpec.LogState, term: nat, n: nat)
    requires Ordered(l) && n <= |l.entries|
    ensures var r := LogSpec.LastIndexOfTermIn(l, term, n);
            && (r != 0 <==> HoldsTerm(l, term, n))
            && (r != 0 ==> l.snapIndex < r && LogSpec.TermIn(l, r) == term)
            && (r != 0 ==> forall k :: r - l.snapIndex <= k < n ==> l.entries[k].term != term)
  {
    if n > 0 && l.entries[n - 1].term > term {
      LastIndexIsLast(l, term, n - 1);
    }
  }

  /** Where terms do decrease, the scan can miss the term. */
  lemma ScanMissesTerm(p: Payload)
    ensures var l := LogSpec.LogState(0, 0, [Entry(1, 5, p), Entry(2, 4, p)]);
            HoldsTerm(l, 5, 2) && LogSpec.LastIndexOfTerm(l, 5) == 0
  {
    var l := LogSpec.LogState(0, 0, [Entry(1, 5, p), Entry(2, 4, p)]);
    assert l.entries[0].term == 5;
  }
}
