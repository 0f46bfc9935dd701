/** CRC-32 as include/runtimeregistry/crc32.hpp computes it, against the bit-serial definition.

    A 32-bit register is a sequence of 32 booleans, least significant bit first, so that the
    shifts and exclusive ors of the source are slices and pointwise comparisons. */
module Crc32 {
  import opened Base

  type Word = w: seq<bool> | |w| == 32 witness Fill(false, 32)

  function Fill(v: bool, k: nat): (r: seq<bool>)
    ensures |r| == k
    ensures forall i :: 0 <= i < k ==> r[i] == v
  {
    if k == 0 then [] else [v] + Fill(v, k - 1)
  }

  // ---- numbers and bits ----

  function Pow2(k: nat): nat {
    if k == 0 then 1 else 2 * Pow2(k - 1)
  }

  lemma Pow2Of32()
    ensures Pow2(32) == 0x1_0000_0000
  {
    assert Pow2(8) == 0x100;
    assert Pow2(16) == 0x1_0000;
    assert Pow2(24) == 0x100_0000;
  }

  function Value(b: seq<bool>): (n: nat)
    ensures n < Pow2(|b|)
  {
    if b == [] then 0 else (if b[0] then 1 else 0) + 2 * Value(b[1..])
  }

  function Bits(n: nat, k: nat): (b: seq<bool>)
    ensures |b| == k
  {
    if k == 0 then [] else [n % 2 == 1] + Bits(n / 2, k - 1)
  }

  lemma {:induction false} ValueOfBits(n: nat, k: nat)
    requires n < Pow2(k)
    ensures Value(Bits(n, k)) == n
  {
    if k > 0 {
      ValueOfBits(n / 2, k - 1);
      assert Bits(n, k)[1..] == Bits(n / 2, k - 1);
    }
  }

  lemma {:induction false} BitsOfValue(b: seq<bool>)
    ensures Bits(Value(b), |b|) == b
  {
    if b != [] {
      BitsOfValue(b[1..]);
      assert Value(b) / 2 == Value(b[1..]);
    }
  }

  lemma {:induction false} BitsOfZero(k: nat)
    ensures Bits(0, k) == Fill(false, k)
  {
    if k > 0 {
      BitsOfZero(k - 1);
    }
  }

  /** `x << k` without a bound on the width. */
  function Scale(x: nat, k: nat): nat {
    if k == 0 then x else 2 * Scale(x, k - 1)
  }

  lemma {:induction false} ValueConcat(u: seq<bool>, v: seq<bool>)
    ensures Value(u + v) == Value(u) + Scale(Value(v), |u|)
  {
    if u == [] {
      assert u + v == v;
    } else {
      assert (u + v)[1..] == u[1..] + v;
      ValueConcat(u[1..], v);
    }
  }

  lemma ScaleByte(x: nat)
    ensures Scale(x, 8) == 0x100 * x
  {
    assert Scale(x, 1) == 2 * x;
    assert Scale(x, 2) == 4 * x;
    assert Scale(x, 3) == 8 * x;
    assert Scale(x, 4) == 0x10 * x;
    assert Scale(x, 5) == 0x20 * x;
    assert Scale(x, 6) == 0x40 * x;
    assert Scale(x, 7) == 0x80 * x;
  }

  lemma ByteBits(a: u8, b: u8)
    requires Bits(a, 8) == Bits(b, 8)
    ensures a == b
  {
    assert Pow2(8) == 0x100;
    ValueOfBits(a, 8);
    ValueOfBits(b, 8);
  }

  // ---- the register ----

  const ONES: Word := Fill(true, 32)
  /** 0xEDB88320 */
  const POLY: Word := [
    false, false, false, false, false, true, false, false,
    true, true, false, false, false, false, false, true,
    false, false, false, true, true, true, false, true,
    true, false, true, true, false, true, true, true]

  function Xor(a: Word, b: Word): (r: Word)
    ensures forall i :: 0 <= i < 32 ==> r[i] == (a[i] != b[i])
  {
    seq(32, i requires 0 <= i < 32 => a[i] != b[i])
  }

  function Not(a: Word): Word {
    Xor(a, ONES)
  }

  /** `c >> k` */
  function Shr(c: Word, k: nat): (r: Word)
    requires k <= 32
    ensures forall i :: 0 <= i < 32 ==> r[i] == (i + k < 32 && c[i + k])
  {
    c[k..] + Fill(false, k)
  }

  /** One division step of the reflected polynomial. */
  function BitStep(c: Word): (r: Word)
    ensures forall i :: 0 <= i < 32 ==> r[i] == ((c[0] && POLY[i]) != (i + 1 < 32 && c[i + 1]))
  {
    if c[0] then Xor(POLY, Shr(c, 1)) else Shr(c, 1)
  }

  function Steps(c: Word, k: nat): Word
    decreases k
  {
    if k == 0 then c else Steps(BitStep(c), k - 1)
  }

  /** Bits shifted into the low end of an otherwise clear word. */
  function Pad(b: seq<bool>): (r: Word)
    requires |b| <= 32
    ensures forall i :: 0 <= i < 32 ==> r[i] == (i < |b| && b[i])
  {
    b + Fill(false, 32 - |b|)
  }

  // ---- the bit-serial definition ----

  /** The shift register of clause 3.2.9 of IEEE 802.3, in its reflected form: the message bit
      joins the bit leaving the register, and the sum decides whether the polynomial is added. */
  function Feed(c: Word, bits: seq<bool>): Word
    decreases |bits|
  {
    if bits == [] then c else Feed(BitStep(Xor(c, Pad([bits[0]]))), bits[1..])
  }

  /** The transmission order of bytes: least significant bit first. */
  function Stream(data: Bytes): (s: seq<bool>)
    ensures |s| == 8 * |data|
  {
    if data == [] then [] else Bits(data[0], 8) + Stream(data[1..])
  }

  /** The checksum of `data` continued from `seed`: complemented register before and after. */
  function Crc(data: Bytes, seed: u32): (r: u32) {
    Pow2Of32();
    Value(Not(Feed(Not(Bits(seed, 32)), Stream(data))))
  }

  // ---- the unreflected division ----

  /** 0x04C11DB7, the generating polynomial as the standard prints it. */
  const GENERATOR: Word := [
    true, true, true, false, true, true, false, true,
    true, false, true, true, true, false, false, false,
    true, false, false, false, false, false, true, true,
    false, false, true, false, false, false, false, false]

  /** Long division by the generating polynomial, most significant bit first. */
  function Divide(r: Word, bits: seq<bool>): Word
    decreases |bits|
  {
    if bits == [] then r else Divide(DivideStep(r, bits[0]), bits[1..])
  }

  function Mirror(c: Word): (r: Word)
    ensures forall i :: 0 <= i < 32 ==> r[i] == c[31 - i]
  {
    seq(32, i requires 0 <= i < 32 => c[31 - i])
  }

  function DivideStep(r: Word, bit: bool): (s: Word)
    ensures forall i :: 0 <= i < 32 ==> s[i] == ((0 < i && r[i - 1]) != (r[31] != bit && GENERATOR[i]))
  {
    var shifted: Word := [false] + r[..31];
    if r[31] != bit then Xor(shifted, GENERATOR) else shifted
  }

  lemma FeedStepIsDivideStep(c: Word, bit: bool)
    ensures Mirror(BitStep(Xor(c, Pad([bit])))) == DivideStep(Mirror(c), bit)
  {
    assert forall i :: 0 <= i < 32 ==> POLY[31 - i] == GENERATOR[i] by {
      hide BitStep, Xor, Pad, DivideStep;
    }
    hide BitStep, Xor, Pad, POLY, GENERATOR, DivideStep, Mirror;
  }

  /** The reflected register is the mirror image of the dividing one, bit for bit. */
  lemma {:induction false} FeedIsDivide(c: Word, bits: seq<bool>)
    ensures Mirror(Feed(c, bits)) == Divide(Mirror(c), bits)
    decreases |bits|
  {
    if bits != [] {
      hide Xor, Pad, BitStep, DivideStep, Mirror;
      FeedStepIsDivideStep(c, bits[0]);
      FeedIsDivide(BitStep(Xor(c, Pad([bits[0]]))), bits[1..]);
    }
  }

  // ---- linearity ----

  lemma BitStepLinear(a: Word, b: Word)
    ensures BitStep(Xor(a, b)) == Xor(BitStep(a), BitStep(b))
  {
    hide BitStep, Xor, POLY;
  }

  lemma {:induction false} StepsLinear(a: Word, b: Word, k: nat)
    ensures Steps(Xor(a, b), k) == Xor(Steps(a, k), Steps(b, k))
    decreases k
  {
    hide BitStep, Xor;
    if k > 0 {
      BitStepLinear(a, b);
      StepsLinear(BitStep(a), BitStep(b), k - 1);
    }
  }

  /** Stepping over clear low bits only shifts. */
  lemma {:induction false} StepsShift(c: Word, k: nat)
    requires k <= 32
    requires forall i :: 0 <= i < k ==> !c[i]
    ensures Steps(c, k) == Shr(c, k)
    decreases k
  {
    if k == 0 {
      assert Shr(c, 0) == c;
    } else {
      StepsShift(Shr(c, 1), k - 1);
      assert Shr(Shr(c, 1), k - 1) == Shr(c, k);
    }
  }

  /** Feeding at most 32 bits one by one is adding them all and then stepping. */
  lemma {:induction false} FeedIsSteps(c: Word, bits: seq<bool>)
    requires |bits| <= 32
    ensures Feed(c, bits) == Steps(Xor(c, Pad(bits)), |bits|)
    decreases |bits|
  {
    if bits == [] {
      assert Xor(c, Pad([])) == c;
    } else {
      var first := Xor(c, Pad([bits[0]]));
      var later: Word := Pad([false] + bits[1..]);
      assert Xor(first, later) == Xor(c, Pad(bits));
      assert BitStep(later) == Shr(later, 1) == Pad(bits[1..]);
      BitStepLinear(first, later);
      FeedIsSteps(BitStep(first), bits[1..]);
    }
  }

  // ---- injectivity ----

  lemma BitStepInjective(a: Word, b: Word)
    requires BitStep(a) == BitStep(b)
    ensures a == b
  {
    assert POLY[31];
    assert BitStep(a)[31] == a[0] && BitStep(b)[31] == b[0];
    forall i | 0 < i < 32
      ensures a[i] == b[i]
    {
      assert BitStep(a)[i - 1] == BitStep(b)[i - 1];
    }
  }

  lemma {:induction false} StepsInjective(a: Word, b: Word, k: nat)
    requires Steps(a, k) == Steps(b, k)
    ensures a == b
    decreases k
  {
    hide BitStep;
    if k > 0 {
      StepsInjective(BitStep(a), BitStep(b), k - 1);
      BitStepInjective(a, b);
    }
  }

  lemma XorInjective(a: Word, b: Word, x: Word)
    requires Xor(a, x) == Xor(b, x)
    ensures a == b
  {
    forall i | 0 <= i < 32
      ensures a[i] == b[i]
    {
      assert Xor(a, x)[i] == Xor(b, x)[i];
    }
  }

  /** The register after a message determines the register before it. */
  lemma {:induction false} FeedInjectiveInRegister(a: Word, b: Word, bits: seq<bool>)
    requires Feed(a, bits) == Feed(b, bits)
    ensures a == b
    decreases |bits|
  {
    if bits != [] {
      var x: Word := Pad([bits[0]]);
      FeedInjectiveInRegister(BitStep(Xor(a, x)), BitStep(Xor(b, x)), bits[1..]);
      BitStepInjective(Xor(a, x), Xor(b, x));
      XorInjective(a, b, x);
    }
  }

  /** From one register, two different messages of the same length up to 32 bits part ways. */
  lemma FeedInjectiveInMessage(c: Word, u: seq<bool>, v: seq<bool>)
    requires |u| == |v| <= 32
    requires Feed(c, u) == Feed(c, v)
    ensures u == v
  {
    FeedIsSteps(c, u);
    FeedIsSteps(c, v);
    StepsInjective(Xor(c, Pad(u)), Xor(c, Pad(v)), |u|);
    forall i | 0 <= i < |u|
      ensures u[i] == v[i]
    {
      assert Xor(c, Pad(u))[i] == Xor(c, Pad(v))[i];
    }
  }

  lemma {:induction false} FeedConcat(c: Word, u: seq<bool>, v: seq<bool>)
    ensures Feed(c, u + v) == Feed(Feed(c, u), v)
    decreases |u|
  {
    if u == [] {
      assert u + v == v;
    } else {
      assert (u + v)[1..] == u[1..] + v;
      FeedConcat(BitStep(Xor(c, Pad([u[0]]))), u[1..], v);
    }
  }

  lemma {:induction false} StreamConcat(a: Bytes, b: Bytes)
    ensures Stream(a + b) == Stream(a) + Stream(b)
  {
    if a == [] {
      assert a + b == b;
    } else {
      assert (a + b)[1..] == a[1..] + b;
      StreamConcat(a[1..], b);
    }
  }

  lemma {:induction false} StreamInjective(a: Bytes, b: Bytes)
    requires |a| == |b|
    requires Stream(a) == Stream(b)
    ensures a == b
  {
    if a != [] {
      assert Bits(a[0], 8) == Stream(a)[..8] == Stream(b)[..8] == Bits(b[0], 8);
      assert Stream(a[1..]) == Stream(a)[8..] == Stream(b)[8..] == Stream(b[1..]);
      ByteBits(a[0], b[0]);
      StreamInjective(a[1..], b[1..]);
    }
  }

  /** Every error burst of up to four bytes changes the register: two messages that agree before
      and after a window of at most four bytes, and differ inside it, never meet again. */
  lemma BurstChangesRegister(c: Word, before: Bytes, u: Bytes, v: Bytes, after: Bytes)
    requires |u| == |v| <= 4
    requires u != v
    ensures Feed(c, Stream(before + u + after)) != Feed(c, Stream(before + v + after))
  {
    var d := Feed(c, Stream(before));
    forall w | w == u || w == v
      ensures Feed(c, Stream(before + w + after)) == Feed(Feed(d, Stream(w)), Stream(after))
    {
      StreamConcat(before + w, after);
      StreamConcat(before, w);
      FeedConcat(c, Stream(before) + Stream(w), Stream(after));
      FeedConcat(c, Stream(before), Stream(w));
    }
    if Feed(c, Stream(before + u + after)) == Feed(c, Stream(before + v + after)) {
      FeedInjectiveInRegister(Feed(d, Stream(u)), Feed(d, Stream(v)), Stream(after));
      FeedInjectiveInMessage(d, Stream(u), Stream(v));
      StreamInjective(u, v);
    }
  }

  // ---- the table ----

  function TableEntry(i: u8): Word {
    Steps(Pad(Bits(i, 8)), 8)
  }

  /** `(crc ^ ch) & 0xFF` */
  function TableIndex(c: Word, b: u8): (i: u8) {
    assert Pow2(8) == 0x100;
    Value(Xor(c, Pad(Bits(b, 8)))[..8])
  }

  /** One table lookup does the work of eight division steps. */
  lemma TableStep(c: Word, b: u8)
    ensures Xor(TableEntry(TableIndex(c, b)), Shr(c, 8)) == Feed(c, Bits(b, 8))
  {
    hide Steps, Feed, Bits, Value;
    var x := Xor(c, Pad(Bits(b, 8)));
    var high: Word := Fill(false, 8) + x[8..];
    assert Xor(Pad(x[..8]), high) == x;
    BitsOfValue(x[..8]);
    StepsLinear(Pad(x[..8]), high, 8);
    StepsShift(high, 8);
    assert Shr(high, 8) == Shr(c, 8);
    FeedIsSteps(c, Bits(b, 8));
  }

  /** The lookup table of `crc32`, filled on first use. */
  class Calculator {
    const table: array<Word>
    var built: bool

    ghost predicate Valid()
      reads this, table
    {
      table.Length == 256 && (built ==> forall i :: 0 <= i < 256 ==> table[i] == TableEntry(i))
    }

    constructor ()
      ensures Valid() && fresh(table)
    {
      table := new Word[256];
      built := false;
    }

    /** The inner loop: one entry by repeated division steps. */
    static method Entry(i: u8) returns (c: Word)
      ensures c == TableEntry(i)
    {
      hide POLY, Xor, Shr, Bits, Pad;
      c := Pad(Bits(i, 8));
      for k := 0 to 8
        invariant Steps(c, 8 - k) == TableEntry(i)
      {
        c := if c[0] then Xor(POLY, Shr(c, 1)) else Shr(c, 1);
      }
    }

    method Build()
      requires Valid()
      modifies this, table
      ensures Valid() && built
    {
      hide TableEntry;
      for i := 0 to 256
        invariant Valid() && built == old(built)
        invariant forall j :: 0 <= j < i ==> table[j] == TableEntry(j)
      {
        var c := Entry(i);
        table[i] := c;
      }
      built := true;
    }

    method Crc32(data: Bytes, seed: u32) returns (r: u32)
      requires Valid()
      modifies this, table
      ensures Valid() && built
      ensures r == Crc(data, seed)
    {
      if !built {
        Build();
      }
      var crc: Word := Not(Bits(seed, 32));
      assert data[0..] == data;
      for i := 0 to |data|
        invariant Valid() && built
        invariant Feed(crc, Stream(data[i..])) == Feed(Not(Bits(seed, 32)), Stream(data))
      {
        TableStep(crc, data[i]);
        FeedConcat(crc, Bits(data[i], 8), Stream(data[i + 1..]));
        assert data[i..][1..] == data[i + 1..];
        crc := Xor(table[TableIndex(crc, data[i])], Shr(crc, 8));
      }
      Pow2Of32();
      r := Value(Not(crc));
    }

    /** `crc32_combine`: the checksum of the parts in turn is the checksum of their concatenation. */
    method Combine(parts: seq<Bytes>) returns (r: u32)
      requires Valid()
      modifies this, table
      ensures Valid()
      ensures r == Crc(Flatten(parts), 0)
    {
      r := 0;
      CrcOfNothing();
      for i := 0 to |parts|
        invariant Valid()
        invariant r == Crc(Flatten(parts[..i]), 0)
      {
        CrcConcat(Flatten(parts[..i]), parts[i], 0);
        FlattenSnoc(parts, i);
        r := Crc32(parts[i], r);
      }
      assert parts[..|parts|] == parts;
    }
  }

  function Flatten(parts: seq<Bytes>): Bytes {
    if parts == [] then [] else Flatten(parts[..|parts| - 1]) + parts[|parts| - 1]
  }

  lemma FlattenSnoc(parts: seq<Bytes>, i: nat)
    requires i < |parts|
    ensures Flatten(parts[..i + 1]) == Flatten(parts[..i]) + parts[i]
  {
    assert parts[..i + 1][..i] == parts[..i];
  }

  lemma NotNot(w: Word)
    ensures Not(Not(w)) == w
  {
  }

  lemma CrcOfNothing()
    ensures Crc([], 0) == 0
  {
    NotNot(Bits(0, 32));
    Pow2Of32();
    ValueOfBits(0, 32);
  }

  /** A checksum can be continued: the checksum so far is the seed for the rest. */
  lemma CrcConcat(a: Bytes, b: Bytes, seed: u32)
    ensures Crc(a + b, seed) == Crc(b, Crc(a, seed))
  {
    var c := Feed(Not(Bits(seed, 32)), Stream(a));
    StreamConcat(a, b);
    FeedConcat(Not(Bits(seed, 32)), Stream(a), Stream(b));
    BitsOfValue(Not(c));
    NotNot(c);
  }

  // ---- the residue ----

  /** The register left by any message followed by its own checksum. */
  const RESIDUE: Word := Steps(ONES, 32)

  lemma Residue(data: Bytes)
    ensures Feed(Feed(ONES, Stream(data)), Bits(Crc(data, 0), 32)) == RESIDUE
  {
    hide Feed, Steps, Bits, Value;
    var c := Feed(ONES, Stream(data));
    BitsOfZero(32);
    assert Not(Bits(0, 32)) == ONES;
    BitsOfValue(Not(c));
    FeedIsSteps(c, Not(c));
    assert Xor(c, Pad(Not(c))) == ONES;
  }
}
