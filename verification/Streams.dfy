/** The reader `R` and the `put_*` printers of src/persistence.cpp in their own form: a position and
    a sticky flag that move, a byte vector that grows. */
module Streams {
  import opened Base
  import opened Enums
  import opened Records
  import Codec
  import LittleEndian

  // ---- the reader ----

  class Reader {
    const data: Bytes
    var pos: nat
    var ok: bool

    predicate Valid()
      reads this
    {
      pos <= |data|
    }

    /** What is left to read. */
    function Left(): Codec.In
      requires Valid()
      reads this
    {
      Codec.In(data[pos..], ok)
    }

    constructor (data: Bytes)
      ensures Valid() && Left() == Codec.In(data, true)
    {
      this.data, pos, ok := data, 0, true;
    }

    method U8() returns (v: u8)
      requires Valid()
      modifies this
      ensures Valid() && Codec.U8(old(Left())) == Codec.Got(v, Left())
    {
      if pos + 1 > |data| {
        ok := false;
        return 0;
      }
      v := data[pos];
      pos := pos + 1;
    }

    method U32() returns (v: u32)
      requires Valid()
      modifies this
      ensures Valid() && Codec.U32(old(Left())) == Codec.Got(v, Left())
    {
      if pos + 4 > |data| {
        ok := false;
        return 0;
      }
      v := LittleEndian.Read32(data[pos..]);
      assert data[pos..][4..] == data[pos + 4..];
      pos := pos + 4;
    }

    method U64() returns (v: u64)
      requires Valid()
      modifies this
      ensures Valid() && Codec.U64(old(Left())) == Codec.Got(v, Left())
    {
      hide Codec.U32;
      var lo := U32();
      var hi := U32();
      v := lo as int + 0x1_0000_0000 * hi as int;
    }

    method I64() returns (v: i64)
      requires Valid()
      modifies this
      ensures Valid() && Codec.I64(old(Left())) == Codec.Got(v, Left())
    {
      hide Codec.U64;
      var w := U64();
      v := ToSigned(w);
    }

    method Flag() returns (v: bool)
      requires Valid()
      modifies this
      ensures Valid() && Codec.Flag(old(Left())) == Codec.Got(v, Left())
    {
      hide Codec.U8;
      var w := U8();
      v := w != 0;
    }

    method Text() returns (v: Bytes)
      requires Valid()
      modifies this
      ensures Valid() && Codec.Text(old(Left())) == Codec.Got(v, Left())
    {
      hide Codec.U32;
      var len := U32();
      if !ok || pos + len > |data| || len > Codec.MAX_STRING {
        ok := false;
        return [];
      }
      assert data[pos..][..len] == data[pos..pos + len] && data[pos..][len..] == data[pos + len..];
      v := data[pos..pos + len];
      pos := pos + len;
    }

    /** `get_capval`: the number of bytes left falls with every nested value. */
    method Value() returns (v: CapabilityValue)
      requires Valid()
      modifies this
      ensures Valid() && Codec.Value(old(Left())) == Codec.Got(v, Left())
      decreases |data| - pos, 0
    {
      hide Codec.U8, Codec.U32, Codec.U64, Codec.I64, Codec.Flag, Codec.Text, Codec.Fields;
      var kind := U8();
      var boolean := Flag();
      var integer := I64();
      var number := U64();
      var hasMin := Flag();
      var hasMax := Flag();
      var rangeMin := U64();
      var rangeMax := U64();
      var text := Text();
      ghost var before := Left();
      var len := U32();
      v := CapabilityValue(kind as CapabilityValueKind, boolean, integer, number, hasMin, hasMax, rangeMin,
        rangeMax, text, []);
      if len > Codec.MAX_FIELDS {
        ok := false;
        return;
      }
      if len > 0 {
        assert |Left().rest| < |before.rest|;
        var fields := Fields(len);
        v := v.(structured := fields);
      }
    }

    method Fields(n: nat) returns (fs: seq<CapabilityField>)
      requires Valid()
      modifies this
      ensures Valid() && Codec.Fields(n, old(Left())) == Codec.Got(fs, Left())
      decreases |data| - pos, n + 1
    {
      hide Codec.Text, Codec.Value;
      fs := [];
      ghost var start := Left();
      assert [] + Codec.Fields(n, start).v == Codec.Fields(n, start).v;
      for i := 0 to n
        invariant Valid() && |Left().rest| <= |start.rest|
        invariant
          var more := Codec.Fields(n - i, Left());
          Codec.Fields(n, start) == Codec.Got(fs + more.v, more.s)
      {
        var key := Text();
        var value := Value();
        ghost var more := Codec.Fields(n - i - 1, Left());
        assert fs + ([CapabilityField(key, value)] + more.v) == fs + [CapabilityField(key, value)] + more.v;
        fs := fs + [CapabilityField(key, value)];
      }
      assert fs + [] == fs;
    }
  }

  // ---- the printers ----

  /** Each printer appends bytes; said with what may follow: whatever comes after it in the vector
      comes after it in the functional printer. */
  class Writer {
    var out: Bytes

    constructor ()
      ensures out == []
    {
      out := [];
    }

    method PutU8(v: u8)
      modifies this
      ensures forall t {:trigger Codec.PutU8(v, t)} :: out + t == old(out) + Codec.PutU8(v, t)
    {
      out := out + [v];
    }

    method PutU32(v: u32)
      modifies this
      ensures forall t {:trigger Codec.PutU32(v, t)} :: out + t == old(out) + Codec.PutU32(v, t)
    {
      hide LittleEndian.Bytes32;
      out := out + LittleEndian.Bytes32(v);
    }

    method PutU64(v: u64)
      modifies this
      ensures forall t {:trigger Codec.PutU64(v, t)} :: out + t == old(out) + Codec.PutU64(v, t)
    {
      hide Codec.PutU32;
      PutU32(v % 0x1_0000_0000);
      PutU32(v / 0x1_0000_0000);
    }

    method PutI64(v: i64)
      modifies this
      ensures forall t {:trigger Codec.PutI64(v, t)} :: out + t == old(out) + Codec.PutI64(v, t)
    {
      hide Codec.PutU64;
      PutU64(ToUnsigned(v));
    }

    method PutFlag(v: bool)
      modifies this
      ensures forall t {:trigger Codec.PutFlag(v, t)} :: out + t == old(out) + Codec.PutFlag(v, t)
    {
      hide Codec.PutU8;
      PutU8(if v then 1 else 0);
    }

    method PutText(v: Bytes)
      modifies this
      ensures forall t {:trigger Codec.PutText(v, t)} :: out + t == old(out) + Codec.PutText(v, t)
    {
      hide Codec.PutU32;
      PutU32(|v| % 0x1_0000_0000);
      ghost var o1 := out;
      out := out + v;
      assert forall t: Bytes {:trigger v + t} :: out + t == o1 + (v + t);
    }

    /** `put_capval` */
    method PutValue(v: CapabilityValue)
      modifies this
      ensures forall t {:trigger Codec.PutValue(v, t)} :: out + t == old(out) + Codec.PutValue(v, t)
      decreases v, 0
    {
      hide Codec.PutU8, Codec.PutU32, Codec.PutU64, Codec.PutI64, Codec.PutFlag, Codec.PutText, Codec.PutFields;
      PutU8(v.kind as int);
      PutFlag(v.boolean);
      PutI64(v.integer);
      PutU64(v.number);
      PutFlag(v.hasMin);
      PutFlag(v.hasMax);
      PutU64(v.rangeMin);
      PutU64(v.rangeMax);
      PutText(v.text);
      PutU32(|v.structured| % 0x1_0000_0000);
      PutFields(v.structured);
    }

    method PutFields(fs: seq<CapabilityField>)
      modifies this
      ensures forall t {:trigger Codec.PutFields(fs, t)} :: out + t == old(out) + Codec.PutFields(fs, t)
      decreases fs, 0
    {
      hide Codec.PutText, Codec.PutValue;
      for i := 0 to |fs|
        invariant forall t {:trigger Codec.PutFields(fs, t)} ::
          out + Codec.PutFields(fs[i..], t) == old(out) + Codec.PutFields(fs, t)
      {
        assert fs[i..][0] == fs[i] && fs[i..][1..] == fs[i + 1..];
        PutText(fs[i].key);
        PutValue(fs[i].value);
      }
      assert forall t :: Codec.PutFields(fs[|fs|..], t) == t;
    }
  }
}
