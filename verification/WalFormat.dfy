/** Record framing of the write-ahead log: little-endian length and checksum,
    a type byte, then the data. The checksum function is a parameter. */
module WalFormat {
  import opened Types

  const HEADER_SIZE: nat := 9
  const MAX_RECORD_SIZE: nat := 0x1000_0000
  const TWO_TO_32: nat := 0x1_0000_0000

  type U32 = n: int | 0 <= n < 0x1_0000_0000

  type Checksum = (Byte, Bytes) -> U32

  datatype Frame = Frame(kind: Byte, data: Bytes)

  /** Four bytes, least significant first. */
  function PutU32(n: U32): (b: Bytes)
    ensures |b| == 4 && GetU32(b) == n
  {
    var n1 := n / 0x100;
    var n2 := n1 / 0x100;
    var n3 := n2 / 0x100;
    [n % 0x100, n1 % 0x100, n2 % 0x100, n3]
  }

  function GetU32(b: Bytes): (n: nat)
    requires |b| == 4
    ensures n < TWO_TO_32
  {
    var b0: int, b1: int, b2: int, b3: int := b[0], b[1], b[2], b[3];
    b0 + 0x100 * (b1 + 0x100 * (b2 + 0x100 * b3))
  }

  /** One record's bytes; the length is cut to 32 bits. */
  function Encode(sum: Checksum, r: Frame): (b: Bytes)
    ensures |b| == HEADER_SIZE + |r.data|
  {
    PutU32(|r.data| % TWO_TO_32) + PutU32(sum(r.kind, r.data)) + [r.kind] + r.data
  }

  function EncodeAll(sum: Checksum, rs: seq<Frame>): Bytes {
    if |rs| == 0 then [] else Encode(sum, rs[0]) + EncodeAll(sum, rs[1..])
  }

  /** What reading a segment yields: the records, the offset just past the last
      good one, and whether it ended in an incomplete or failing record. */
  datatype Scan = Scan(records: seq<Frame>, offset: nat, torn: bool)

  /** The first record of `b`, if it is whole and its checksum holds. */
  function First(sum: Checksum, b: Bytes): (r: Option<Frame>)
    ensures r.Some? ==> |b| >= HEADER_SIZE + |r.value.data|
  {
    if |b| < HEADER_SIZE then None
    else
      var length := GetU32(b[0..4]);
      if length > MAX_RECORD_SIZE || |b| < HEADER_SIZE + length then None
      else
        var r := Frame(b[8], b[HEADER_SIZE..HEADER_SIZE + length]);
        if sum(r.kind, r.data) == GetU32(b[4..8]) then Some(r) else None
  }

  function Read(sum: Checksum, b: Bytes): (s: Scan)
    ensures s.offset <= |b|
    decreases |b|
  {
    if |b| == 0 then Scan([], 0, false)
    else
      var r := First(sum, b);
      if r.None? then Scan([], 0, true)
      else
        var size := HEADER_SIZE + |r.value.data|;
        var rest := Read(sum, b[size..]);
        Scan([r.value] + rest.records, size + rest.offset, rest.torn)
  }

  ghost predicate Fits(rs: seq<Frame>) {
    forall i :: 0 <= i < |rs| ==> |rs[i].data| <= MAX_RECORD_SIZE
  }

  lemma EncodeParts(sum: Checksum, r: Frame, more: Bytes)
    ensures var b := Encode(sum, r) + more;
            && b[0..4] == PutU32(|r.data| % TWO_TO_32)
            && b[4..8] == PutU32(sum(r.kind, r.data))
            && b[8] == r.kind
            && b[HEADER_SIZE..HEADER_SIZE + |r.data|] == r.data
            && b[HEADER_SIZE + |r.data|..] == more
  {
  }

  /** A written record is read back, whatever follows it. */
  lemma FirstWritten(sum: Checksum, r: Frame, more: Bytes)
    requires |r.data| < TWO_TO_32
    ensures First(sum, Encode(sum, r) + more) == if |r.data| <= MAX_RECORD_SIZE then Some(r) else None
  {
    EncodeParts(sum, r, more);
  }

  lemma ReadOne(sum: Checksum, r: Frame, more: Bytes)
    requires |r.data| <= MAX_RECORD_SIZE
    ensures var rest := Read(sum, more);
            Read(sum, Encode(sum, r) + more) == Scan([r] + rest.records, |Encode(sum, r)| + rest.offset, rest.torn)
  {
    hide First;
    FirstWritten(sum, r, more);
    EncodeParts(sum, r, more);
  }

  /** Reading continues past written records with whatever follows. */
  lemma {:induction false} ReadPast(sum: Checksum, rs: seq<Frame>, more: Bytes)
    requires Fits(rs)
    ensures var rest := Read(sum, more);
            Read(sum, EncodeAll(sum, rs) + more) == Scan(rs + rest.records, |EncodeAll(sum, rs)| + rest.offset,
                  rest.torn)
  {
    hide Read, Encode;
    var rest := Read(sum, more);
    if |rs| == 0 {
      assert EncodeAll(sum, rs) + more == more;
      assert rs + rest.records == rest.records;
    } else {
      var tail := EncodeAll(sum, rs[1..]) + more;
      assert EncodeAll(sum, rs) + more == Encode(sum, rs[0]) + tail;
      ReadOne(sum, rs[0], tail);
      ReadPast(sum, rs[1..], more);
      assert [rs[0]] + (rs[1..] + rest.records) == rs + rest.records;
    }
  }

  /** Whatever is in a file, only records of accepted size are read from it. */
  lemma {:induction false} ReadFits(sum: Checksum, b: Bytes)
    ensures Fits(Read(sum, b).records)
    decreases |b|
  {
    if |b| > 0 && First(sum, b).Some? {
      ReadFits(sum, b[HEADER_SIZE + |First(sum, b).value.data|..]);
    }
  }

  /** A record that is read is there byte for byte, checksum included. */
  lemma FirstIsThere(sum: Checksum, b: Bytes)
    ensures var r := First(sum, b);
            r.Some? ==> b[..HEADER_SIZE + |r.value.data|] == Encode(sum, r.value) && |r.value.data| <= MAX_RECORD_SIZE
  {
    hide PutU32, GetU32;
    var r := First(sum, b);
    if r.Some? {
      var n := |r.value.data|;
      assert n % TWO_TO_32 == n;
      U32Back(b[0..4]);
      U32Back(b[4..8]);
      assert b[..HEADER_SIZE + n] == b[0..4] + b[4..8] + [b[8]] + b[HEADER_SIZE..HEADER_SIZE + n];
    }
  }

  lemma U32Back(b: Bytes)
    requires |b| == 4
    ensures PutU32(GetU32(b)) == b
  {
    var b0: int, b1: int, b2: int, b3: int := b[0], b[1], b[2], b[3];
    var n2 := b2 + 0x100 * b3;
    var n1 := b1 + 0x100 * n2;
    Digit(b2, b3);
    Digit(b1, n2);
    Digit(b0, n1);
  }

  lemma Digit(low: int, high: int)
    requires 0 <= low < 0x100
    ensures (low + 0x100 * high) % 0x100 == low && (low + 0x100 * high) / 0x100 == high
  {
  }

  /** Reading whatever bytes a file holds: it returns exactly the records whose
      encodings the bytes begin with, it stops right after them, it reports a
      torn end exactly if bytes are left, and only where no whole, intact
      record of accepted size follows. */
  lemma {:induction false} ReadIsExact(sum: Checksum, b: Bytes)
    ensures var s := Read(sum, b);
            && b[..s.offset] == EncodeAll(sum, s.records)
            && (s.torn <==> s.offset < |b|)
            && NoRecord(sum, b[s.offset..])
    decreases |b|
  {
    hide Encode, First, NoRecord, EncodeAll;
    var first := First(sum, b);
    if |b| > 0 && first.Some? {
      var size := HEADER_SIZE + |first.value.data|;
      var rest := Read(sum, b[size..]);
      ReadIsExact(sum, b[size..]);
      FirstIsThere(sum, b);
      EncodeOneMore(sum, first.value, rest.records);
      assert b[..size + rest.offset] == b[..size] + b[size..][..rest.offset];
      assert b[size + rest.offset..] == b[size..][rest.offset..];
    } else {
      NoneThere(sum, b);
      NoneFollows(sum, b);
      assert b[0..] == b && b[..0] == [];
    }
  }

  /** No whole, intact record of accepted size is at the start of `b`. */
  ghost predicate NoRecord(sum: Checksum, b: Bytes) {
    forall r: Frame :: |r.data| <= MAX_RECORD_SIZE ==> !(Encode(sum, r) <= b)
  }

  lemma EncodeOneMore(sum: Checksum, r: Frame, rs: seq<Frame>)
    ensures EncodeAll(sum, [r] + rs) == Encode(sum, r) + EncodeAll(sum, rs)
  {
    hide Encode;
    assert ([r] + rs)[1..] == rs;
  }

  lemma NoneThere(sum: Checksum, b: Bytes)
    ensures EncodeAll(sum, []) == [] && (|b| == 0 ==> First(sum, b).None?)
  {
  }

  lemma NoneFollows(sum: Checksum, b: Bytes)
    requires First(sum, b).None?
    ensures NoRecord(sum, b)
  {
    hide Encode, First;
    forall r: Frame | |r.data| <= MAX_RECORD_SIZE
      ensures !(Encode(sum, r) <= b)
    {
      if Encode(sum, r) <= b {
        var more := b[|Encode(sum, r)|..];
        assert b == Encode(sum, r) + more;
        FirstWritten(sum, r, more);
      }
    }
  }

  /** Reading back what was written returns the same records if and only if
      none of them is over the size that reading accepts, however long they
      are. Appending does not check that size: an oversized record is
      acknowledged and never read back. */
  lemma ReadBackIff(sum: Checksum, rs: seq<Frame>)
    ensures Read(sum, EncodeAll(sum, rs)) == Scan(rs, |EncodeAll(sum, rs)|, false) <==> Fits(rs)
  {
    if Fits(rs) {
      ReadPast(sum, rs, []);
      assert EncodeAll(sum, rs) + [] == EncodeAll(sum, rs) && rs + [] == rs;
    }
    ReadFits(sum, EncodeAll(sum, rs));
  }

  /** An oversized record is not read, unless its length happens to be cut to
      an accepted one and the checksum of that much of it is the same. */
  lemma FirstOversized(sum: Checksum, r: Frame, more: Bytes)
    requires |r.data| > MAX_RECORD_SIZE
    ensures var cut := |r.data| % TWO_TO_32;
            First(sum, Encode(sum, r) + more).None? <==>
              cut > MAX_RECORD_SIZE || sum(r.kind, r.data[..cut]) != sum(r.kind, r.data)
  {
    var b, cut := Encode(sum, r) + more, |r.data| % TWO_TO_32;
    EncodeParts(sum, r, more);
    assert b[HEADER_SIZE..HEADER_SIZE + cut] == r.data[..cut];
  }

  /** Everything before the first oversized record is read back. Reading stops
      torn right there, and drops all that follows, unless the record's length
      is cut to an accepted one and the checksum cannot tell. */
  lemma StopsAtOversized(sum: Checksum, rs: seq<Frame>, i: nat)
    requires i < |rs| && Fits(rs[..i]) && |rs[i].data| > MAX_RECORD_SIZE
    ensures rs[..i] <= Read(sum, EncodeAll(sum, rs)).records
    ensures var r, cut := rs[i], |rs[i].data| % TWO_TO_32;
            Read(sum, EncodeAll(sum, rs)) == Scan(rs[..i], |EncodeAll(sum, rs[..i])|, true) <==>
              cut > MAX_RECORD_SIZE || sum(r.kind, r.data[..cut]) != sum(r.kind, r.data)
  {
    hide First, Encode;
    var tail := EncodeAll(sum, rs[i + 1..]);
    var more := Encode(sum, rs[i]) + tail;
    assert rs[..i] + rs[i..] == rs && rs[i..][1..] == rs[i + 1..];
    EncodeJoins(sum, rs[..i], rs[i..]);
    ReadPast(sum, rs[..i], more);
    FirstOversized(sum, rs[i], tail);
    assert rs[..i] + [] == rs[..i];
  }

  /** A proper, non-empty prefix of one record's bytes reads as torn. */
  lemma CutRecordIsTorn(sum: Checksum, r: Frame, cut: nat)
    requires |r.data| <= MAX_RECORD_SIZE && 0 < cut < |Encode(sum, r)|
    ensures Read(sum, Encode(sum, r)[..cut]) == Scan([], 0, true)
  {
    var b := Encode(sum, r)[..cut];
    EncodeParts(sum, r, []);
    assert Encode(sum, r) + [] == Encode(sum, r);
    if cut >= HEADER_SIZE {
      assert b[0..4] == Encode(sum, r)[0..4];
    }
  }

  /** Torn tails: whatever prefix of the last batch reached the file, reading
      returns every earlier record and the whole records of that prefix, and
      stops exactly at their end. */
  lemma {:induction false} TornTail(sum: Checksum, acked: seq<Frame>, batch: seq<Frame>, cut: nat) returns (k: nat)
    requires Fits(acked) && Fits(batch) && cut <= |EncodeAll(sum, batch)|
    ensures k <= |batch| && |EncodeAll(sum, batch[..k])| <= cut
    ensures k < |batch| ==> cut < |EncodeAll(sum, batch[..k + 1])|
    ensures var b := EncodeAll(sum, acked) + EncodeAll(sum, batch)[..cut]; var scan := Read(sum, b);
            && scan == Scan(acked + batch[..k], |EncodeAll(sum, acked + batch[..k])|,
              cut != |EncodeAll(sum, batch[..k])|)
            && b[..scan.offset] == EncodeAll(sum, acked + batch[..k])
  {
    hide Read, Encode;
    k := Whole(sum, batch, cut);
    var whole := batch[..k];
    var some := EncodeAll(sum, batch)[..cut];
    var rest := some[|EncodeAll(sum, whole)|..];
    assert some == EncodeAll(sum, whole) + rest;
    EncodeJoins(sum, acked, whole);
    assert EncodeAll(sum, acked) + some == EncodeAll(sum, acked + whole) + rest;
    assert Fits(acked + whole);
    ReadPast(sum, acked + whole, rest);
    assert acked + whole + Read(sum, rest).records == acked + whole;
  }

  lemma {:induction false} EncodeJoins(sum: Checksum, a: seq<Frame>, b: seq<Frame>)
    ensures EncodeAll(sum, a + b) == EncodeAll(sum, a) + EncodeAll(sum, b)
  {
    if |a| == 0 {
      assert a + b == b;
    } else {
      assert (a + b)[1..] == a[1..] + b;
      EncodeJoins(sum, a[1..], b);
      assert Encode(sum, a[0]) + (EncodeAll(sum, a[1..]) + EncodeAll(sum, b)) == EncodeAll(sum, a) + EncodeAll(sum, b);
    }
  }

  /** How many whole records a prefix of the batch holds; the rest of the
      prefix reads as nothing, torn unless it is empty. */
  lemma {:induction false} Whole(sum: Checksum, batch: seq<Frame>, cut: nat) returns (k: nat)
    requires Fits(batch) && cut <= |EncodeAll(sum, batch)|
    ensures k <= |batch| && |EncodeAll(sum, batch[..k])| <= cut
    ensures k < |batch| ==> cut < |EncodeAll(sum, batch[..k + 1])|
    ensures EncodeAll(sum, batch)[..cut][..|EncodeAll(sum, batch[..k])|] == EncodeAll(sum, batch[..k])
    ensures var rest := EncodeAll(sum, batch)[..cut][|EncodeAll(sum, batch[..k])|..];
            Read(sum, rest) == Scan([], 0, cut != |EncodeAll(sum, batch[..k])|)
  {
    hide Read, Encode, First;
    NothingToRead(sum);
    if |batch| == 0 {
      k := 0;
    } else {
      var e := Encode(sum, batch[0]);
      var tail := EncodeAll(sum, batch[1..]);
      if cut < |e| {
        k := 0;
        assert EncodeAll(sum, batch)[..cut] == e[..cut];
        assert batch[..1] == [batch[0]] && EncodeAll(sum, batch[..1]) == e;
        if cut > 0 { CutRecordIsTorn(sum, batch[0], cut); }
      } else {
        k := Whole(sum, batch[1..], cut - |e|);
        var whole := batch[1..][..k];
        assert EncodeAll(sum, batch)[..cut] == e + tail[..cut - |e|];
        assert batch[..k + 1][1..] == whole;
        assert EncodeAll(sum, batch[..k + 1]) == e + EncodeAll(sum, whole);
        assert EncodeAll(sum, batch)[..cut][|e + EncodeAll(sum, whole)|..] == tail[..cut - |e|][|EncodeAll(sum,
              whole)|..];
        if k + 1 < |batch| {
          assert batch[..k + 2][1..] == batch[1..][..k + 1];
          assert EncodeAll(sum, batch[..k + 2]) == e + EncodeAll(sum, batch[1..][..k + 1]);
        }
        k := k + 1;
      }
    }
  }

  lemma NothingToRead(sum: Checksum)
    ensures Read(sum, []) == Scan([], 0, false)
  {
  }
}
