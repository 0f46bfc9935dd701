/** Machine integers, byte strings and the failure types shared by every component. */
module Base {
  type u8 = x: int | 0 <= x < 0x100
  type u16 = x: int | 0 <= x < 0x1_0000
  type u32 = x: int | 0 <= x < 0x1_0000_0000
  type u64 = x: int | 0 <= x < 0x1_0000_0000_0000_0000
  type i64 = x: int | -0x8000_0000_0000_0000 <= x < 0x8000_0000_0000_0000

  const TWO_63 := 0x8000_0000_0000_0000
  const TWO_64 := 0x1_0000_0000_0000_0000

  /** A `std::string` or byte vector of the source: text is compared byte by byte. */
  type Bytes = seq<u8>

  datatype Option<+T> = None | Some(value: T)

  /** `++x` on a 64-bit unsigned counter: it wraps to zero. */
  function Inc(x: u64): (r: u64) {
    if x == TWO_64 - 1 then 0 else x + 1
  }

  /** The two's complement reading of an unsigned 64-bit word, as `static_cast<int64_t>`. */
  function ToSigned(x: u64): (r: i64) {
    if x < TWO_63 then x else x - TWO_64
  }

  /** `static_cast<uint64_t>` of a signed 64-bit value. */
  function ToUnsigned(x: i64): (r: u64)
    ensures ToSigned(r) == x
  {
    if x < 0 then x + TWO_64 else x
  }

  /** What a 64-bit signed register holds after a computation whose exact value is `x`. */
  function Wrap(x: int): (r: i64)
    ensures -TWO_63 <= x < TWO_63 ==> r == x
  {
    ToSigned(x % TWO_64)
  }

  /** The bytes of an ASCII literal. */
  function Ascii(s: string): (r: Bytes)
    requires forall i :: 0 <= i < |s| ==> s[i] as int < 0x80
    ensures |r| == |s|
    ensures forall i :: 0 <= i < |s| ==> r[i] == s[i] as int
  {
    seq(|s|, i requires 0 <= i < |s| => s[i] as int)
  }
}
