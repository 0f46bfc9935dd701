/** Little-endian words, as every byte format of the source writes them. */
module LittleEndian {
  import opened Base
  import opened Crc32

  function Bytes32(v: u32): (r: Bytes)
    ensures |r| == 4
  {
    [v % 0x100, v / 0x100 % 0x100, v / 0x1_0000 % 0x100, v / 0x100_0000]
  }

  function Read32(b: Bytes): (r: u32)
    requires |b| >= 4
  {
    b[0] as int + 0x100 * b[1] as int + 0x1_0000 * b[2] as int + 0x100_0000 * b[3] as int
  }

  lemma ReadOfBytes(v: u32)
    ensures Read32(Bytes32(v)) == v
  {
    var w := v / 0x100;
    var x := w / 0x100;
    assert v / 0x1_0000 == x && v / 0x100_0000 == x / 0x100;
  }

  lemma BytesOfRead(b: Bytes)
    requires |b| == 4
    ensures Bytes32(Read32(b)) == b
  {
    var v := Read32(b);
    var x := b[2] as int + 0x100 * b[3] as int;
    var w := b[1] as int + 0x100 * x;
    assert v == b[0] as int + 0x100 * w;
    assert v / 0x100 == w && v / 0x1_0000 == x && v / 0x100_0000 == b[3];
  }

  /** The four bytes of a word are its bits in transmission order. */
  lemma StreamOfWord(v: u32)
    ensures Stream(Bytes32(v)) == Bits(v, 32)
  {
    var b := Bytes32(v);
    StreamValue(b);
    assert b[1..] == [b[1], b[2], b[3]] && b[2..] == [b[2], b[3]];
    assert Number([b[3]]) == b[3];
    assert Number(b[2..]) == b[2] as int + 0x100 * b[3] as int;
    assert Number(b[1..]) == b[1] as int + 0x100 * Number(b[2..]);
    ReadOfBytes(v);
    assert Value(Stream(b)) == Read32(b);
    BitsOfValue(Stream(b));
  }

  function Number(b: Bytes): nat {
    if b == [] then 0 else b[0] as int + 0x100 * Number(b[1..])
  }

  lemma {:induction false} StreamValue(b: Bytes)
    ensures Value(Stream(b)) == Number(b)
  {
    if b != [] {
      StreamValue(b[1..]);
      ValueConcat(Bits(b[0], 8), Stream(b[1..]));
      ScaleByte(Value(Stream(b[1..])));
      assert Pow2(8) == 0x100;
      ValueOfBits(b[0], 8);
    }
  }
}
