/** Records as bytes: what a crash inside an append leaves of a segment file is
    what the record-level storage calls a save cut short. Any encoding of
    records that tells them apart will do. */
module Layout {
  import opened Types
  import opened DiskSpec
  import opened Segments
  import opened WalFormat
  import opened Wal

  type Encoding = Rec -> Frame

  ghost predicate TellsApart(enc: Encoding) {
    forall a, b :: enc(a) == enc(b) ==> a == b
  }

  function Frames(enc: Encoding, recs: seq<Rec>): (fs: seq<Frame>)
    ensures |fs| == |recs| && forall i :: 0 <= i < |recs| ==> fs[i] == enc(recs[i])
  {
    seq(|recs|, i requires 0 <= i < |recs| => enc(recs[i]))
  }

  lemma FramesJoin(enc: Encoding, a: seq<Rec>, b: seq<Rec>)
    ensures Frames(enc, a + b) == Frames(enc, a) + Frames(enc, b)
  {
  }

  /** What is read determines the records. */
  lemma FramesDecode(enc: Encoding, a: seq<Rec>, b: seq<Rec>)
    requires TellsApart(enc)
    ensures Frames(enc, a) == Frames(enc, b) <==> a == b
  {
    if Frames(enc, a) == Frames(enc, b) {
      assert |a| == |b|;
      forall i | 0 <= i < |a|
        ensures a[i] == b[i]
      {
        assert Frames(enc, a)[i] == Frames(enc, b)[i];
      }
    }
  }

  /** The files hold the bytes of the segments' records. */
  ghost predicate Lays(sum: Checksum, enc: Encoding, files: seq<SegFile>, segs: seq<Segment>) {
    && |files| == |segs|
    && (forall i :: 0 <= i < |segs| ==> files[i].seqNo == segs[i].seqNo)
    && Holds(sum, files, Logs(enc, segs))
  }

  ghost function Logs(enc: Encoding, segs: seq<Segment>): seq<seq<Frame>> {
    seq(|segs|, i requires 0 <= i < |segs| => Frames(enc, segs[i].recs))
  }

  /** Reading the files from `min` on reads the records from `min` on. */
  lemma {:induction false} AckedRecs(enc: Encoding, files: seq<SegFile>, segs: seq<Segment>, min: nat)
    requires |files| == |segs| && forall i :: 0 <= i < |segs| ==> files[i].seqNo == segs[i].seqNo
    ensures Acked(files, Logs(enc, segs), min) == Frames(enc, RecsFrom(segs, min))
  {
    if |segs| > 0 {
      var n := |segs| - 1;
      assert Logs(enc, segs)[..n] == Logs(enc, segs[..n]);
      AckedRecs(enc, files[..n], segs[..n], min);
      FramesJoin(enc, RecsFrom(segs[..n], min), if segs[n].seqNo >= min then segs[n].recs else []);
    }
  }

  /** The files after a crash in the middle of appending `batch`, with `cut` of
      its bytes written. */
  function Crashed(sum: Checksum, enc: Encoding, files: seq<SegFile>, batch: seq<Rec>, cut: nat): seq<SegFile>
    requires |files| > 0 && cut <= |EncodeAll(sum, Frames(enc, batch))|
  {
    var n := |files| - 1;
    files[n := files[n].(bytes := files[n].bytes + EncodeAll(sum, Frames(enc, batch))[..cut])]
  }

  /** What reading cuts off: a torn end of the last file. */
  function Repaired(sum: Checksum, files: seq<SegFile>): seq<SegFile>
    requires |files| > 0
  {
    var n := |files| - 1;
    files[n := files[n].(bytes := files[n].bytes[..Read(sum, files[n].bytes).offset])]
  }

  /** However many bytes of a save's records a crash lets through, reading finds
      exactly the records of a save cut short after `k` of them, and leaves
      files that hold just those. */
  lemma CrashedSaveReads(sum: Checksum, enc: Encoding, files: seq<SegFile>, segs: seq<Segment>, batch: seq<Rec>,
                         cut: nat, min: nat)
      returns (k: nat)
    requires |segs| > 0 && Lays(sum, enc, files, segs) && TellsApart(enc) && segs[|segs| - 1].seqNo >= min
    requires Fits(Frames(enc, batch)) && cut <= |EncodeAll(sum, Frames(enc, batch))|
    ensures k <= |batch| && (cut == |EncodeAll(sum, Frames(enc, batch))| ==> k == |batch|)
    ensures var crashed, segs' := Crashed(sum, enc, files, batch, cut), AppendRecs(segs, batch[..k]);
            && (forall recs :: Collect(sum, crashed, min) == Some(Frames(enc, recs)) <==> recs == RecsFrom(segs', min))
            && Lays(sum, enc, Repaired(sum, crashed), segs')
  {
    hide Read, EncodeAll, Holds, Collect, RecsFrom, TellsApart, Fits;
    var n, frames := |segs| - 1, Frames(enc, batch);
    k := CrashKeepsAcked(sum, files, Logs(enc, segs), frames, cut, min);
    var segs' := AppendRecs(segs, batch[..k]);
    AckedRecs(enc, files, segs, min);
    AppendReads(segs, batch[..k], min);
    FramesJoin(enc, RecsFrom(segs, min), batch[..k]);
    FramesJoin(enc, segs[n].recs, batch[..k]);
    assert frames[..k] == Frames(enc, batch[..k]);
    assert Logs(enc, segs') == Logs(enc, segs)[n := Logs(enc, segs)[n] + frames[..k]];
    forall recs: seq<Rec>
      ensures Frames(enc, recs) == Frames(enc, RecsFrom(segs', min)) <==> recs == RecsFrom(segs', min)
    {
      FramesDecode(enc, recs, RecsFrom(segs', min));
    }
  }

  lemma HeadIsOne(hs: Option<HardState>)
    ensures Batch(None, []) == [] && |Batch(hs, [])| == if hs.Some? then 1 else 0
  {
  }

  /** The head of a new segment is there or not. */
  lemma CutHead(segs: seq<Segment>, tag: nat, hs: Option<HardState>, k: nat)
    requires |segs| > 0 && k <= |Batch(hs, [])|
    ensures AppendRecs(Rotated(segs, tag, None), Batch(hs, [])[..k]) == Rotated(segs, tag, if k == 0 then None else hs)
  {
    var head, s := Batch(hs, [])[..k], Segment(segs[|segs| - 1].seqNo + 1, tag, []);
    HeadIsOne(hs);
    assert head == Batch(if k == 0 then None else hs, []);
    hide Batch;
    assert Rotated(segs, tag, None) == segs + [s] && s.recs + head == head;
    assert (segs + [s])[|segs| := s.(recs := head)] == segs + [s.(recs := head)];
  }

  /** The same for the head of a new segment: a crash after its file was created
      leaves the segment with its head or, as in a rotation cut short, without. */
  lemma CrashedRotationReads(sum: Checksum, enc: Encoding, files: seq<SegFile>, segs: seq<Segment>, tag: nat,
                             hs: Option<HardState>, cut: nat, min: nat)
      returns (head: Option<HardState>)
    requires |segs| > 0 && Lays(sum, enc, files, segs) && TellsApart(enc) && segs[|segs| - 1].seqNo >= min
    requires Fits(Frames(enc, Batch(hs, []))) && cut <= |EncodeAll(sum, Frames(enc, Batch(hs, [])))|
    ensures head == hs || head == None
    ensures var made := files + [SegFile(segs[|segs| - 1].seqNo + 1, [])];
            var crashed, segs' := Crashed(sum, enc, made, Batch(hs, []), cut), Rotated(segs, tag, head);
            && (forall recs :: Collect(sum, crashed, min) == Some(Frames(enc, recs)) <==> recs == RecsFrom(segs', min))
            && Lays(sum, enc, Repaired(sum, crashed), segs')
  {
    hide Read, Collect, RecsFrom, TellsApart, Crashed, Repaired, Lays;
    var made := files + [SegFile(segs[|segs| - 1].seqNo + 1, [])];
    OpenedLays(sum, enc, files, segs, tag);
    var k := CrashedSaveReads(sum, enc, made, Rotated(segs, tag, None), Batch(hs, []), cut, min);
    CutHead(segs, tag, hs, k);
    head := if k == 0 then None else hs;
  }

  lemma OpenedLays(sum: Checksum, enc: Encoding, files: seq<SegFile>, segs: seq<Segment>, tag: nat)
    requires |segs| > 0 && Lays(sum, enc, files, segs)
    ensures Lays(sum, enc, files + [SegFile(segs[|segs| - 1].seqNo + 1, [])], Rotated(segs, tag, None))
  {
    var segs' := Rotated(segs, tag, None);
    assert Batch(None, []) == [] && Frames(enc, []) == [];
    assert Logs(enc, segs') == Logs(enc, segs) + [[]];
  }
}
