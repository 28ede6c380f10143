/** The compacted in-memory log as a value. `entries[i]` holds log index
    `snapIndex + 1 + i`; everything before is inside the snapshot. */
module LogSpec {
  import opened Types

  datatype LogState = LogState(snapIndex: nat, snapTerm: nat, entries: seq<Entry>)

  function LastIndex(l: LogState): nat {
    l.snapIndex + |l.entries|
  }

  function LastTermIn(l: LogState): nat {
    if |l.entries| == 0 then l.snapTerm else l.entries[|l.entries| - 1].term
  }

  /** The index is neither compacted away nor beyond the end. */
  predicate Has(l: LogState, index: nat) {
    l.snapIndex <= index <= LastIndex(l)
  }

  /** The term at an index the log has, else 0. */
  function TermIn(l: LogState, index: nat): nat {
    if index == l.snapIndex then l.snapTerm
    else if index < l.snapIndex || index > LastIndex(l) then 0
    else l.entries[index - l.snapIndex - 1].term
  }

  /** The range is held in memory; asking for a non-empty range outside panics. */
  predicate InRange(l: LogState, lo: nat, hi: nat) {
    lo <= hi ==> l.snapIndex < lo && hi <= LastIndex(l)
  }

  /** Entries with `lo <= index <= hi`. */
  function Slice(l: LogState, lo: nat, hi: nat): seq<Entry> {
    if lo > hi || !InRange(l, lo, hi) then [] else l.entries[lo - l.snapIndex - 1..hi - l.snapIndex]
  }

  /** The entries carry the indexes that follow `last`; appending others panics. */
  predicate Follows(last: nat, es: seq<Entry>) {
    forall i :: 0 <= i < |es| ==> es[i].index == last + 1 + i
  }

  function AppendTo(l: LogState, es: seq<Entry>): LogState {
    l.(entries := l.entries + es)
  }

  /** Drops `index` and everything after it; inside the snapshot that panics. */
  function TruncateFrom(l: LogState, index: nat): LogState {
    if index <= l.snapIndex || index > LastIndex(l) then l
    else l.(entries := l.entries[..index - l.snapIndex - 1])
  }

  /** Lowest index of the run of entries of `term` that ends at `from`. */
  function FirstIndexOfTerm(l: LogState, term: nat, from: nat): nat {
    if from > l.snapIndex + 1 && TermIn(l, from - 1) == term then FirstIndexOfTerm(l, term, from - 1) else from
  }

  /** The run that ends at `from` starts at the index found. */
  lemma {:induction false} FirstIndexStartsRun(l: LogState, term: nat, from: nat)
    requires from >= 1
    ensures var r := FirstIndexOfTerm(l, term, from);
            && 1 <= r <= from
            && (forall k: nat :: r <= k < from ==> TermIn(l, k) == term)
            && (l.snapIndex < from ==> l.snapIndex < r && (r == l.snapIndex + 1 || TermIn(l, r - 1) != term))
    decreases from
  {
    if from > l.snapIndex + 1 && TermIn(l, from - 1) == term {
      FirstIndexStartsRun(l, term, from - 1);
    }
  }

  /** Highest index among the first `n` entries with `term`, or 0, scanning
      backwards and giving up at a smaller term. */
  function LastIndexOfTermIn(l: LogState, term: nat, n: nat): nat
    requires n <= |l.entries|
  {
    if n == 0 then 0
    else if l.entries[n - 1].term == term then l.entries[n - 1].index
    else if l.entries[n - 1].term < term then 0
    else LastIndexOfTermIn(l, term, n - 1)
  }

  function LastIndexOfTerm(l: LogState, term: nat): nat {
    LastIndexOfTermIn(l, term, |l.entries|)
  }

  function CompactTo(l: LogState, index: nat, term: nat): LogState {
    if index <= l.snapIndex then l
    else LogState(index, term, if index >= LastIndex(l) then [] else l.entries[index - l.snapIndex..])
  }

  function Reset(index: nat, term: nat): LogState {
    LogState(index, term, [])
  }

  // ------------------------------------------------------------------
  // The compacted log stands for a full log
  // ------------------------------------------------------------------

  /** `l` is `full` with everything up to its snapshot index folded away. */
  ghost predicate Compacts(full: seq<Entry>, l: LogState) {
    && l.snapIndex <= |full|
    && l.entries == full[l.snapIndex..]
    && l.snapTerm == TermAt(full, l.snapIndex)
  }

  lemma CompactsReads(full: seq<Entry>, l: LogState)
    requires Compacts(full, l)
    ensures LastIndex(l) == |full|
    ensures LastTermIn(l) == LastTerm(full)
    ensures forall i: nat :: Has(l, i) ==> i <= |full| && TermIn(l, i) == TermAt(full, i)
  {
  }

  lemma CompactsSlice(full: seq<Entry>, l: LogState, lo: nat, hi: nat)
    requires Compacts(full, l)
    requires l.snapIndex < lo <= hi + 1 && hi <= |full|
    ensures Slice(l, lo, hi) == full[lo - 1..hi]
  {
  }

  lemma CompactToCompacts(full: seq<Entry>, l: LogState, index: nat, term: nat)
    requires Compacts(full, l)
    requires index <= |full| && (index > l.snapIndex ==> term == TermAt(full, index))
    ensures Compacts(full, CompactTo(l, index, term))
  {
  }
}
