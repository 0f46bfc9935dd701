/** The framed wire protocol of src/protocol.cpp. */
module Framing {
  import opened Base
  import opened Crc32
  import opened LittleEndian

  const FRAME_MAGIC: u32 := 0x52524631
  const FRAME_VERSION: u8 := 1
  const MAX_PAYLOAD := 64 * 1024

  /** `kind` is the byte of a `MessageKind`; sixteen values, 1 to 16, are named. */
  datatype Frame = Frame(kind: u8, payload: Bytes)

  predicate NamedKind(kind: u8) {
    1 <= kind <= 16
  }

  /** The frames the protocol is meant to carry. */
  predicate Sendable(f: Frame) {
    NamedKind(f.kind) && |f.payload| <= MAX_PAYLOAD
  }

  /** Version, kind, length and payload: the part the checksum covers. */
  function Covered(f: Frame): (r: Bytes) {
    [FRAME_VERSION, f.kind] + Bytes32(|f.payload| % 0x1_0000_0000) + f.payload
  }

  /** The bytes `encode_frame` yields.  The length is cut to 32 bits before it is checked. */
  function Encoded(f: Frame): (r: Bytes) {
    if |f.payload| % 0x1_0000_0000 > MAX_PAYLOAD then []
    else Bytes32(FRAME_MAGIC) + Covered(f) + Bytes32(Crc(Covered(f), 0))
  }

  method EncodeFrame(f: Frame, crcs: Calculator) returns (out: Bytes)
    requires crcs.Valid()
    modifies crcs, crcs.table
    ensures crcs.Valid()
    ensures out == Encoded(f)
  {
    var len := |f.payload| % 0x1_0000_0000;
    if len > MAX_PAYLOAD {
      return [];
    }
    out := Bytes32(FRAME_MAGIC);
    out := out + [FRAME_VERSION];
    out := out + [f.kind];
    out := out + Bytes32(len);
    out := out + f.payload;
    assert out == Bytes32(FRAME_MAGIC) + Covered(f);
    assert out[4..] == Covered(f);
    var crc := crcs.Crc32(out[4..], 0);
    out := out + Bytes32(crc);
  }

  /** `message_kind_from_u8` */
  function KindFromByte(v: u8): u8 {
    if NamedKind(v) then v else 16
  }

  function Decode(data: Bytes): (r: Option<Frame>) {
    if |data| < 10 then None
    else if Read32(data) != FRAME_MAGIC then None
    else if data[4] != FRAME_VERSION then None
    else if data[5] < 1 || data[5] > 16 then None
    else
      var len := Read32(data[6..]);
      if len > MAX_PAYLOAD then None
      else
        var contentEnd := 10 + len;
        if |data| != contentEnd + 4 then None
        else if Read32(data[contentEnd..]) != Crc(data[4..contentEnd], 0) then None
        else Some(Frame(KindFromByte(data[5]), data[10..10 + len]))
  }

  /** Decoding an encoded frame gives it back exactly when the frame is sendable; every other
      frame is refused, among them those whose length was cut to 32 bits. */
  lemma DecodeOfEncoded(f: Frame)
    ensures Decode(Encoded(f)) == if Sendable(f) then Some(f) else None
  {
    hide Crc, Read32, Bytes32;
    var len := |f.payload| % 0x1_0000_0000;
    if len <= MAX_PAYLOAD {
      var c := Covered(f);
      var e := Encoded(f);
      ReadOfBytes(FRAME_MAGIC);
      ReadOfBytes(len);
      ReadOfBytes(Crc(c, 0));
      ReadPrefix(e);
      assert e[..4] == Bytes32(FRAME_MAGIC);
      assert e[4] == FRAME_VERSION && e[5] == f.kind;
      ReadPrefix(e[6..]);
      assert e[6..][..4] == Bytes32(len);
      if |f.payload| == len {
        assert e[4..10 + len] == c;
        assert e[10 + len..] == Bytes32(Crc(c, 0));
        assert e[10..10 + len] == f.payload;
      }
    }
  }

  lemma ReadPrefix(b: Bytes)
    requires |b| >= 4
    ensures Read32(b) == Read32(b[..4])
  {
  }

  /** Whatever is accepted is the encoding of what it decodes to. */
  lemma EncodedOfDecode(data: Bytes)
    requires Decode(data).Some?
    ensures Encoded(Decode(data).value) == data
    ensures Sendable(Decode(data).value)
  {
    hide Crc, Read32, Bytes32;
    var f := Decode(data).value;
    var end := |data| - 4;
    ReadPrefix(data);
    BytesOfRead(data[..4]);
    ReadPrefix(data[6..]);
    assert data[6..][..4] == data[6..10];
    BytesOfRead(data[6..10]);
    BytesOfRead(data[end..]);
    assert data[4..end] == Covered(f);
    assert data == data[..4] + data[4..end] + data[end..];
  }

  /** An accepted frame leaves the fixed residue in the register. */
  lemma AcceptedResidue(data: Bytes)
    requires Decode(data).Some?
    ensures |data| >= 14
    ensures data[..4] == Bytes32(FRAME_MAGIC)
    ensures Feed(ONES, Stream(data[4..])) == RESIDUE
  {
    hide Feed, Stream, RESIDUE, ONES, Read32, Bytes32, Crc, Decode;
    var c := Covered(Decode(data).value);
    EncodedOfDecode(data);
    assert data[..4] == Bytes32(FRAME_MAGIC);
    assert data[4..] == c + Bytes32(Crc(c, 0));
    StreamConcat(c, Bytes32(Crc(c, 0)));
    StreamOfWord(Crc(c, 0));
    FeedConcat(ONES, Stream(c), Bits(Crc(c, 0), 32));
    Residue(c);
  }

  /** Corruption confined to any window of four consecutive bytes of an accepted frame is rejected:
      magic, version, kind, length, payload and checksum alike. */
  lemma BurstIsRejected(a: Bytes, b: Bytes, i: nat)
    requires Decode(a).Some?
    requires |a| == |b| && a != b
    requires i + 4 <= |a| && a[..i] == b[..i] && a[i + 4..] == b[i + 4..]
    ensures Decode(b) == None
  {
    if Decode(b).Some? {
      hide Feed, Stream, RESIDUE, ONES, Decode, Bytes32;
      AcceptedResidue(a);
      AcceptedResidue(b);
      var before, u, v, after := Window(a, b, i);
      BurstChangesRegister(ONES, before, u, v, after);
    }
  }

  /** Where two byte strings with equal first four bytes differ inside a window. */
  lemma Window(a: Bytes, b: Bytes, i: nat) returns (before: Bytes, u: Bytes, v: Bytes, after: Bytes)
    requires |a| == |b| && a != b && 4 <= |a| && a[..4] == b[..4]
    requires i + 4 <= |a| && a[..i] == b[..i] && a[i + 4..] == b[i + 4..]
    ensures |u| == |v| <= 4 && u != v
    ensures a[4..] == before + u + after && b[4..] == before + v + after
  {
    var lo := if i < 4 then 4 else i;
    assert a[..lo] == b[..lo];
    before, u, v, after := a[4..lo], a[lo..i + 4], b[lo..i + 4], a[i + 4..];
    assert a[4..lo] == a[..lo][4..] == b[..lo][4..] == b[4..lo];
    assert a == a[..lo] + u + after;
    assert b == b[..lo] + v + after;
    assert a[4..] == before + u + after;
    assert b[4..] == b[4..lo] + v + b[i + 4..];
  }

  /** In particular, so is any change of one byte. */
  lemma ByteChangeIsRejected(a: Bytes, i: nat, v: u8)
    requires Decode(a).Some?
    requires i < |a| && v != a[i]
    ensures Decode(a[i := v]) == None
  {
    hide Decode;
    assert |a| >= 14 by {
      AcceptedResidue(a);
    }
    var w := if i + 4 <= |a| then i else |a| - 4;
    assert a[i := v][i] != a[i];
    BurstIsRejected(a, a[i := v], w);
  }
}
