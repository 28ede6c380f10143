/** The write-ahead log as an object over segment files: appending batches,
    reading everything back, and cutting off a torn tail. */
module Wal {
  import opened Types
  import opened WalFormat

  datatype SegFile = SegFile(seqNo: nat, bytes: Bytes)

  /** All records of the segments from `min` on, none of which may be torn. */
  function CollectWhole(sum: Checksum, segs: seq<SegFile>, min: nat): Option<seq<Frame>> {
    if |segs| == 0 then Some([])
    else
      var front := CollectWhole(sum, segs[..|segs| - 1], min);
      var last := segs[|segs| - 1];
      if front.None? || last.seqNo < min then front
      else if Read(sum, last.bytes).torn then None
      else Some(front.value + Read(sum, last.bytes).records)
  }

  /** The same when the last segment may end in a torn record. */
  function Collect(sum: Checksum, segs: seq<SegFile>, min: nat): Option<seq<Frame>>
    requires |segs| > 0
  {
    var front := CollectWhole(sum, segs[..|segs| - 1], min);
    var last := segs[|segs| - 1];
    if front.None? || last.seqNo < min then front else Some(front.value + Read(sum, last.bytes).records)
  }

  /** What was read so far, and then the rest. */
  function Onto(records: seq<Frame>, offset: nat, rest: Scan): Scan {
    Scan(records + rest.records, offset + rest.offset, rest.torn)
  }

  /** One step of reading: the next record is taken, or reading ends torn. */
  lemma ReadNext(sum: Checksum, b: Bytes, offset: nat, records: seq<Frame>)
    requires offset < |b|
    ensures var r := First(sum, b[offset..]);
            if r.None? then Onto(records, offset, Read(sum, b[offset..])) == Scan(records, offset, true)
            else
              var next := offset + HEADER_SIZE + |r.value.data|;
              && next <= |b|
              && Onto(records, offset, Read(sum, b[offset..])) == Onto(records + [r.value], next, Read(sum, b[next..]))
  {
    var r := First(sum, b[offset..]);
    if r.None? {
      assert records + [] == records;
    } else {
      var size := HEADER_SIZE + |r.value.data|;
      assert b[offset..][size..] == b[offset + size..];
      var rest := Read(sum, b[offset + size..]);
      assert records + ([r.value] + rest.records) == (records + [r.value]) + rest.records;
    }
  }

  lemma ReadEnd(sum: Checksum, b: Bytes, offset: nat, records: seq<Frame>)
    requires offset == |b|
    ensures Onto(records, offset, Read(sum, b[offset..])) == Scan(records, offset, false)
  {
    assert records + [] == records;
  }

  lemma ReadStart(s: Scan)
    ensures Onto([], 0, s) == s
  {
    assert [] + s.records == s.records;
  }

  class Wal {
    const sum: Checksum
    var segments: seq<SegFile>

    /** A directory without segments gets a first one. */
    constructor (sum: Checksum)
      ensures this.sum == sum && segments == [SegFile(1, [])]
    {
      this.sum := sum;
      segments := [SegFile(1, [])];
    }

    /** Encodes the records one after the other into one buffer. */
    static method EncodeBuffer(sum: Checksum, recs: seq<Frame>) returns (buf: Bytes)
      ensures buf == EncodeAll(sum, recs)
    {
      hide Encode, EncodeAll;
      buf := [];
      NothingEncoded(sum);
      for i := 0 to |recs|
        invariant buf == EncodeAll(sum, recs[..i])
      {
        var rec := recs[i];
        var header := PutU32(|rec.data| % TWO_TO_32) + PutU32(sum(rec.kind, rec.data)) + [rec.kind];
        assert recs[..i + 1] == recs[..i] + [rec];
        EncodeJoins(sum, recs[..i], [rec]);
        OneEncoded(sum, rec);
        assert buf + header + rec.data == buf + (header + rec.data);
        buf := buf + header + rec.data;
      }
      assert recs[..|recs|] == recs;
    }

    /** Writes the records to the active segment with a single call. */
    method Append(recs: seq<Frame>)
      requires |segments| > 0
      modifies this`segments
      ensures |segments| == |old(segments)| && segments[..|segments| - 1] == old(segments[..|segments| - 1])
      ensures segments[|segments| - 1] ==
              old(segments[|segments| - 1]).(bytes := old(segments[|segments| - 1]).bytes + EncodeAll(sum, recs))
    {
      if |recs| == 0 {
        assert segments[|segments| - 1].bytes + EncodeAll(sum, recs) == segments[|segments| - 1].bytes;
        return;
      }
      var buf := EncodeBuffer(sum, recs);
      var last := segments[|segments| - 1];
      segments := segments[|segments| - 1 := last.(bytes := last.bytes + buf)];
    }

    /** The record at an offset, if it is whole and its checksum holds. */
    static method ReadRecord(sum: Checksum, b: Bytes, offset: nat) returns (r: Option<Frame>)
      requires offset <= |b|
      ensures r == First(sum, b[offset..])
    {
      ghost var rest := b[offset..];
      if |b| - offset < HEADER_SIZE {
        return None;
      }
      var header := b[offset..offset + HEADER_SIZE];
      assert header == rest[..HEADER_SIZE];
      assert header[0..4] == rest[0..4];
      assert header[4..8] == rest[4..8];
      var length, check, kind := GetU32(header[0..4]), GetU32(header[4..8]), header[8];
      if length > MAX_RECORD_SIZE || |b| - offset < HEADER_SIZE + length {
        return None;
      }
      var data := b[offset + HEADER_SIZE..offset + HEADER_SIZE + length];
      assert data == rest[HEADER_SIZE..HEADER_SIZE + length];
      if sum(kind, data) != check {
        return None;
      }
      return Some(Frame(kind, data));
    }

    /** Reads one segment record by record. */
    static method ReadSegment(sum: Checksum, b: Bytes) returns (scan: Scan)
      ensures scan == Read(sum, b)
    {
      hide First, Read, Onto;
      var records: seq<Frame> := [];
      var offset := 0;
      assert b[0..] == b;
      ghost var whole := Read(sum, b);
      ReadStart(whole);
      while offset < |b|
        invariant offset <= |b|
        invariant whole == Onto(records, offset, Read(sum, b[offset..]))
        decreases |b| - offset
      {
        var r := ReadRecord(sum, b, offset);
        ReadNext(sum, b, offset, records);
        if r.None? {
          return Scan(records, offset, true);
        }
        records := records + [r.value];
        offset := offset + HEADER_SIZE + |r.value.data|;
      }
      ReadEnd(sum, b, offset, records);
      return Scan(records, offset, false);
    }

    /** Every record of every segment from `min` on. A torn tail of the last
        segment is cut off; the same damage elsewhere is an error. */
    method ReadAll(min: nat) returns (r: Option<seq<Frame>>)
      requires |segments| > 0
      modifies this`segments
      ensures r == Collect(sum, old(segments), min)
      ensures |segments| == |old(segments)| && segments[..|segments| - 1] == old(segments[..|segments| - 1])
      ensures var last := old(segments[|segments| - 1]);
              segments[|segments| - 1] ==
              if r.Some? && last.seqNo >= min then last.(bytes := last.bytes[..Read(sum, last.bytes).offset]) else last
    {
      hide Read;
      var records: seq<Frame> := [];
      var i := 0;
      var n := |segments| - 1;
      ghost var was := segments;
      while i < n
        invariant 0 <= i <= n && segments == was
        invariant CollectWhole(sum, segments[..i], min) == Some(records)
      {
        assert segments[..i + 1][..i] == segments[..i];
        if segments[i].seqNo >= min {
          var scan := ReadSegment(sum, segments[i].bytes);
          if scan.torn {
            StaysCorrupt(sum, segments, min, i + 1, n);
            return None;
          }
          records := records + scan.records;
        }
        i := i + 1;
      }
      assert segments[..n] == segments[..i];
      var last := segments[n];
      if last.seqNo >= min {
        var scan := ReadSegment(sum, last.bytes);
        records := records + scan.records;
        if !scan.torn {
          CleanEnd(sum, last.bytes);
          assert last.bytes[..|last.bytes|] == last.bytes;
        }
        segments := segments[n := last.(bytes := last.bytes[..scan.offset])];
      }
      return Some(records);
    }
  }

  lemma NothingEncoded(sum: Checksum)
    ensures EncodeAll(sum, []) == []
  {
  }

  lemma OneEncoded(sum: Checksum, r: Frame)
    ensures EncodeAll(sum, [r]) == PutU32(|r.data| % TWO_TO_32) + PutU32(sum(r.kind, r.data)) + [r.kind] + r.data
  {
    assert [r][1..] == [];
  }

  /** A segment that is not torn is read to its end. */
  lemma {:induction false} CleanEnd(sum: Checksum, b: Bytes)
    requires !Read(sum, b).torn
    ensures Read(sum, b).offset == |b|
    decreases |b|
  {
    hide First;
    if |b| > 0 {
      CleanEnd(sum, b[HEADER_SIZE + |First(sum, b).value.data|..]);
    }
  }

  lemma {:induction false} StaysCorrupt(sum: Checksum, segs: seq<SegFile>, min: nat, i: nat, n: nat)
    requires i <= n <= |segs| && CollectWhole(sum, segs[..i], min).None?
    ensures CollectWhole(sum, segs[..n], min).None?
  {
    if i < n {
      StaysCorrupt(sum, segs, min, i, n - 1);
      assert segs[..n][..n - 1] == segs[..n - 1];
    }
  }

  /** What was acknowledged, segment by segment. */
  ghost predicate Holds(sum: Checksum, segs: seq<SegFile>, logs: seq<seq<Frame>>) {
    |segs| == |logs| && forall i :: 0 <= i < |segs| ==> Fits(logs[i]) && segs[i].bytes == EncodeAll(sum, logs[i])
  }

  function Acked(segs: seq<SegFile>, logs: seq<seq<Frame>>, min: nat): seq<Frame>
    requires |segs| == |logs|
  {
    if |segs| == 0 then []
    else Acked(segs[..|segs| - 1], logs[..|logs| - 1],
          min) + if segs[|segs| - 1].seqNo >= min then logs[|logs| - 1] else []
  }

  /** What each segment reads as. */
  ghost function Scans(sum: Checksum, segs: seq<SegFile>): seq<seq<Frame>> {
    seq(|segs|, i requires 0 <= i < |segs| => Read(sum, segs[i].bytes).records)
  }

  /** Reading all segments fails exactly if one before the last is damaged;
      otherwise it yields what each of them reads as, in order. */
  lemma {:induction false} CollectsWhole(sum: Checksum, segs: seq<SegFile>, min: nat)
    ensures CollectWhole(sum, segs, min).None? <==>
              exists i :: 0 <= i < |segs| && segs[i].seqNo >= min && Read(sum, segs[i].bytes).torn
    ensures CollectWhole(sum, segs, min).Some? ==>
              CollectWhole(sum, segs, min).value == Acked(segs, Scans(sum, segs), min)
  {
    hide Read;
    if |segs| > 0 {
      var n := |segs| - 1;
      CollectsWhole(sum, segs[..n], min);
      assert Scans(sum, segs)[..n] == Scans(sum, segs[..n]);
      if CollectWhole(sum, segs[..n], min).None? {
        var i :| 0 <= i < n && segs[..n][i].seqNo >= min && Read(sum, segs[..n][i].bytes).torn;
        assert segs[i].seqNo >= min && Read(sum, segs[i].bytes).torn;
      } else {
        forall i | 0 <= i < n && segs[i].seqNo >= min
          ensures !Read(sum, segs[i].bytes).torn
        {
          assert segs[..n][i] == segs[i];
        }
      }
    }
  }

  lemma CollectFailsIff(sum: Checksum, segs: seq<SegFile>, min: nat)
    requires |segs| > 0
    ensures Collect(sum, segs, min).None? <==>
              exists i :: 0 <= i < |segs| - 1 && segs[i].seqNo >= min && Read(sum, segs[i].bytes).torn
    ensures Collect(sum, segs, min).Some? ==> Collect(sum, segs, min).value == Acked(segs, Scans(sum, segs), min)
  {
    hide Read;
    var n := |segs| - 1;
    CollectsWhole(sum, segs[..n], min);
    assert Scans(sum, segs)[..n] == Scans(sum, segs[..n]);
    if CollectWhole(sum, segs[..n], min).None? {
      var i :| 0 <= i < n && segs[..n][i].seqNo >= min && Read(sum, segs[..n][i].bytes).torn;
      assert segs[i].seqNo >= min && Read(sum, segs[i].bytes).torn;
    } else {
      forall i | 0 <= i < n && segs[i].seqNo >= min
        ensures !Read(sum, segs[i].bytes).torn
      {
        assert segs[..n][i] == segs[i];
      }
    }
  }

  lemma ReadsBack(sum: Checksum, b: Bytes, rs: seq<Frame>)
    requires Fits(rs) && b == EncodeAll(sum, rs)
    ensures Read(sum, b) == Scan(rs, |b|, false)
  {
    hide Read;
    ReadBackIff(sum, rs);
  }

  lemma {:induction false} CollectsAcked(sum: Checksum, segs: seq<SegFile>, logs: seq<seq<Frame>>, min: nat)
    requires Holds(sum, segs, logs)
    ensures CollectWhole(sum, segs, min) == Some(Acked(segs, logs, min))
  {
    hide Read;
    if |segs| > 0 {
      var k := |segs| - 1;
      assert Holds(sum, segs[..k], logs[..k]);
      CollectsAcked(sum, segs[..k], logs[..k], min);
      ReadsBack(sum, segs[k].bytes, logs[k]);
      assert Acked(segs[..k], logs[..k], min) + [] == Acked(segs[..k], logs[..k], min);
    }
  }

  /** After a crash in the middle of appending `batch` to the last segment,
      reading returns everything acknowledged and a whole-record prefix of the
      batch, and leaves the file ending right after it. */
  lemma CrashKeepsAcked(sum: Checksum, segs: seq<SegFile>, logs: seq<seq<Frame>>, batch: seq<Frame>, cut: nat, min: nat)
      returns (k: nat)
    requires |segs| > 0 && Holds(sum, segs, logs) && Fits(batch) && cut <= |EncodeAll(sum, batch)|
             && segs[|segs| - 1].seqNo >= min
    ensures k <= |batch|
    ensures var n := |segs| - 1;
            var crashed := segs[n := segs[n].(bytes := segs[n].bytes + EncodeAll(sum, batch)[..cut])];
            var end := Read(sum, crashed[n].bytes).offset;
            && Collect(sum, crashed, min) == Some(Acked(segs, logs, min) + batch[..k])
            && Holds(sum, crashed[n := crashed[n].(bytes := crashed[n].bytes[..end])], logs[n := logs[n] + batch[..k]])
            && (cut == |EncodeAll(sum, batch)| ==> k == |batch|)
  {
    hide Read, Encode;
    var n := |segs| - 1;
    k := TornTail(sum, logs[n], batch, cut);
    var crashed := segs[n := segs[n].(bytes := segs[n].bytes + EncodeAll(sum, batch)[..cut])];
    assert crashed[..n] == segs[..n];
    CollectsAcked(sum, segs[..n], logs[..n], min);
    var before := Acked(segs[..n], logs[..n], min);
    assert before + (logs[n] + batch[..k]) == (before + logs[n]) + batch[..k];
    assert Fits(logs[n] + batch[..k]);
    if k < |batch| {
      assert batch[..k + 1] + batch[k + 1..] == batch;
      EncodeJoins(sum, batch[..k + 1], batch[k + 1..]);
    }
  }
}
