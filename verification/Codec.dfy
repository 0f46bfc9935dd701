/** The primitives of src/persistence.cpp: the `put_*` printers and the sticky-failure reader `R`.

    A printer is given what will follow its bytes, so that printers nest instead of concatenating.
    A reader state is what is left of the input and whether every read so far succeeded. */
module Codec {
  import opened Base
  import opened Enums
  import opened SemVer
  import opened Records
  import LittleEndian

  datatype In = In(rest: Bytes, ok: bool)
  datatype Got<+T> = Got(v: T, s: In)

  /** `len > (1u << 24)` is refused. */
  const MAX_STRING := 0x100_0000
  const MAX_FIELDS := 4096

  function Fail(s: In): In {
    s.(ok := false)
  }

  // ---- readers ----

  function U8(s: In): (r: Got<u8>)
    ensures !s.ok ==> !r.s.ok
    ensures |r.s.rest| <= |s.rest|
  {
    if |s.rest| < 1 then Got(0, Fail(s)) else Got(s.rest[0], s.(rest := s.rest[1..]))
  }

  function U32(s: In): (r: Got<u32>)
    ensures !s.ok ==> !r.s.ok
    ensures |r.s.rest| <= |s.rest|
    ensures r.v > 0 ==> |r.s.rest| < |s.rest|
  {
    if |s.rest| < 4 then Got(0, Fail(s)) else Got(LittleEndian.Read32(s.rest), s.(rest := s.rest[4..]))
  }

  function U64(s: In): (r: Got<u64>)
    ensures !s.ok ==> !r.s.ok
    ensures |r.s.rest| <= |s.rest|
  {
    var lo := U32(s);
    var hi := U32(lo.s);
    Got(lo.v + 0x1_0000_0000 * hi.v, hi.s)
  }

  function I64(s: In): (r: Got<i64>)
    ensures !s.ok ==> !r.s.ok
    ensures |r.s.rest| <= |s.rest|
  {
    var g := U64(s);
    Got(ToSigned(g.v), g.s)
  }

  function Flag(s: In): (r: Got<bool>)
    ensures !s.ok ==> !r.s.ok
    ensures |r.s.rest| <= |s.rest|
  {
    var g := U8(s);
    Got(g.v != 0, g.s)
  }

  function Text(s: In): (r: Got<Bytes>)
    ensures !s.ok ==> !r.s.ok
    ensures |r.s.rest| <= |s.rest|
  {
    var len := U32(s);
    if !len.s.ok || len.v > |len.s.rest| || len.v > MAX_STRING then Got([], Fail(len.s))
    else Got(len.s.rest[..len.v], len.s.(rest := len.s.rest[len.v..]))
  }

  function Version(s: In): (r: Got<SemanticVersion>)
    ensures !s.ok ==> !r.s.ok
    ensures |r.s.rest| <= |s.rest|
  {
    var major := I64(s); var minor := I64(major.s); var patch := I64(minor.s);
    var prerelease := Text(patch.s); var build := Text(prerelease.s);
    Got(SemanticVersion(major.v, minor.v, patch.v, prerelease.v, build.v), build.s)
  }

  function Structured(s: In): (r: Got<StructuredVersion>)
    ensures !s.ok ==> !r.s.ok
    ensures |r.s.rest| <= |s.rest|
  {
    var major := I64(s); var minor := I64(major.s); var patch := I64(minor.s);
    Got(StructuredVersion(major.v, minor.v, patch.v), patch.s)
  }

  function Prov(s: In): (r: Got<Provenance>)
    ensures !s.ok ==> !r.s.ok
    ensures |r.s.rest| <= |s.rest|
  {
    var kind := U8(s); var source := Text(kind.s); var timestamp := I64(source.s); var digest := Text(timestamp.s);
    Got(Provenance(kind.v as EvidenceKind, source.v, timestamp.v, digest.v), digest.s)
  }

  /** `for (i < n && r.ok) out.push_back(get(r))` */
  function Each<T>(n: nat, get: In -> Got<T>, s: In): (r: Got<seq<T>>)
    ensures n > 0 && !s.ok ==> !r.s.ok
    ensures r.s.ok ==> |r.v| == n
  {
    if n == 0 || !s.ok then Got([], s)
    else
      var first := get(s);
      var more := Each(n - 1, get, first.s);
      Got([first.v] + more.v, more.s)
  }

  /** A count that must not exceed `max`, then so many elements. */
  function Listed<T>(max: nat, get: In -> Got<T>, s: In): (r: Got<seq<T>>)
    ensures !s.ok ==> !r.s.ok
  {
    var n := U32(s);
    Each(n.v, get, if n.v > max then Fail(n.s) else n.s)
  }

  function Kind(s: In): (r: Got<CapabilityKind>)
    ensures !s.ok ==> !r.s.ok
  {
    var g := U8(s);
    Got(g.v as CapabilityKind, g.s)
  }

  function Ids(s: In): (r: Got<seq<Id>>)
    ensures !s.ok ==> !r.s.ok
  {
    Listed(4096, U64, s)
  }

  function FewIds(s: In): (r: Got<seq<Id>>)
    ensures !s.ok ==> !r.s.ok
  {
    Listed(256, U64, s)
  }

  function Kinds(s: In): (r: Got<seq<CapabilityKind>>)
    ensures !s.ok ==> !r.s.ok
  {
    Listed(256, Kind, s)
  }

  function Texts(s: In): (r: Got<seq<Bytes>>)
    ensures !s.ok ==> !r.s.ok
  {
    Listed(256, Text, s)
  }

  /** `get_capval`.  Unlike the other list readers its loop does not stop at a failure; it ends
      because every nested value with fields has consumed bytes. */
  function Value(s: In): (r: Got<CapabilityValue>)
    ensures !s.ok ==> !r.s.ok
    ensures |r.s.rest| <= |s.rest|
    decreases |s.rest|, 0
  {
    var kind := U8(s); var boolean := Flag(kind.s); var integer := I64(boolean.s); var number := U64(integer.s);
    var hasMin := Flag(number.s); var hasMax := Flag(hasMin.s);
    var rangeMin := U64(hasMax.s); var rangeMax := U64(rangeMin.s); var text := Text(rangeMax.s);
    var len := U32(text.s);
    var plain := CapabilityValue(
      kind.v as CapabilityValueKind, boolean.v, integer.v, number.v,
      hasMin.v, hasMax.v, rangeMin.v, rangeMax.v, text.v, []);
    if len.v > MAX_FIELDS then Got(plain, Fail(len.s))
    else if len.v == 0 then Got(plain, len.s)
    else
      var fields := Fields(len.v, len.s);
      Got(plain.(structured := fields.v), fields.s)
  }

  function Fields(n: nat, s: In): (r: Got<seq<CapabilityField>>)
    ensures !s.ok ==> !r.s.ok
    ensures |r.s.rest| <= |s.rest|
    decreases |s.rest|, n + 1
  {
    if n == 0 then Got([], s)
    else
      var key := Text(s); var value := Value(key.s); var more := Fields(n - 1, value.s);
      Got([CapabilityField(key.v, value.v)] + more.v, more.s)
  }

  // ---- printers ----

  function PutU8(v: u8, t: Bytes): (r: Bytes) {
    [v] + t
  }

  function PutU32(v: u32, t: Bytes): (r: Bytes) {
    LittleEndian.Bytes32(v) + t
  }

  function PutU64(v: u64, t: Bytes): (r: Bytes) {
    PutU32(v % 0x1_0000_0000, PutU32(v / 0x1_0000_0000, t))
  }

  function PutI64(v: i64, t: Bytes): (r: Bytes) {
    PutU64(ToUnsigned(v), t)
  }

  function PutFlag(v: bool, t: Bytes): (r: Bytes) {
    PutU8(if v then 1 else 0, t)
  }

  function PutText(v: Bytes, t: Bytes): (r: Bytes) {
    PutU32(|v| % 0x1_0000_0000, v + t)
  }

  function PutVersion(v: SemanticVersion, t: Bytes): (r: Bytes) {
    PutI64(v.major, PutI64(v.minor, PutI64(v.patch, PutText(v.prerelease, PutText(v.build, t)))))
  }

  function PutStructured(v: StructuredVersion, t: Bytes): (r: Bytes) {
    PutI64(v.major, PutI64(v.minor, PutI64(v.patch, t)))
  }

  function PutProv(v: Provenance, t: Bytes): (r: Bytes) {
    PutU8(v.kind as int, PutText(v.source, PutI64(v.timestampMs, PutText(v.digest, t))))
  }

  function PutEach<T>(xs: seq<T>, put: (T, Bytes) -> Bytes, t: Bytes): Bytes {
    if xs == [] then t else put(xs[0], PutEach(xs[1..], put, t))
  }

  function PutListed<T>(xs: seq<T>, put: (T, Bytes) -> Bytes, t: Bytes): Bytes {
    PutU32(|xs| % 0x1_0000_0000, PutEach(xs, put, t))
  }

  function PutKind(v: CapabilityKind, t: Bytes): (r: Bytes) {
    PutU8(v as int, t)
  }

  function PutIds(v: seq<Id>, t: Bytes): (r: Bytes) {
    PutListed(v, PutU64, t)
  }

  function PutKinds(v: seq<CapabilityKind>, t: Bytes): (r: Bytes) {
    PutListed(v, PutKind, t)
  }

  function PutTexts(v: seq<Bytes>, t: Bytes): (r: Bytes) {
    PutListed(v, PutText, t)
  }

  /** `put_capval`, on values of any nesting depth. */
  function PutValue(v: CapabilityValue, t: Bytes): (r: Bytes)
    decreases v, 0
  {
    PutU8(v.kind as int, PutFlag(v.boolean, PutI64(v.integer, PutU64(v.number,
    PutFlag(v.hasMin, PutFlag(v.hasMax, PutU64(v.rangeMin, PutU64(v.rangeMax, PutText(v.text,
    PutU32(|v.structured| % 0x1_0000_0000, PutFields(v.structured, t)))))))))))
  }

  function PutFields(fs: seq<CapabilityField>, t: Bytes): (r: Bytes)
    decreases fs, 0
  {
    if fs == [] then t else PutText(fs[0].key, PutValue(fs[0].value, PutFields(fs[1..], t)))
  }

  // ---- what the reader can take back ----

  predicate ShortText(v: Bytes) {
    |v| <= MAX_STRING
  }

  predicate ShortVersion(v: SemanticVersion) {
    ShortText(v.prerelease) && ShortText(v.build)
  }

  predicate ShortProv(v: Provenance) {
    ShortText(v.source) && ShortText(v.digest)
  }

  predicate ShortTexts(v: seq<Bytes>) {
    |v| <= 256 && forall x :: x in v ==> ShortText(x)
  }

  predicate ShortValue(v: CapabilityValue)
    decreases v, 0
  {
    ShortText(v.text) && |v.structured| <= MAX_FIELDS && ShortFields(v.structured)
  }

  predicate ShortFields(fs: seq<CapabilityField>)
    decreases fs, 0
  {
    fs == [] || (ShortText(fs[0].key) && ShortValue(fs[0].value) && ShortFields(fs[1..]))
  }

  // ---- reading undoes printing ----

  lemma U32Undoes(v: u32, t: Bytes, ok: bool)
    ensures U32(In(PutU32(v, t), ok)) == Got(v, In(t, ok))
  {
    LittleEndian.ReadOfBytes(v);
    var b := LittleEndian.Bytes32(v);
    assert (b + t)[4..] == t && (b + t)[..4] == b;
  }

  lemma U64Undoes(v: u64, t: Bytes, ok: bool)
    ensures U64(In(PutU64(v, t), ok)) == Got(v, In(t, ok))
  {
    hide U32, PutU32;
    U32Undoes(v % 0x1_0000_0000, PutU32(v / 0x1_0000_0000, t), ok);
    U32Undoes(v / 0x1_0000_0000, t, ok);
  }

  lemma TextUndoes(v: Bytes, t: Bytes)
    requires ShortText(v)
    ensures Text(In(PutText(v, t), true)) == Got(v, In(t, true))
  {
    hide U32, PutU32;
    U32Undoes(|v|, v + t, true);
    assert (v + t)[..|v|] == v && (v + t)[|v|..] == t;
  }

  /** The scalar laws, in a form the verifier applies along a whole record. */
  lemma ScalarsUndo()
    ensures forall v: u8, t, ok {:trigger U8(In(PutU8(v, t), ok))} :: U8(In(PutU8(v, t), ok)) == Got(v, In(t, ok))
    ensures forall v: u32, t, ok {:trigger U32(In(PutU32(v, t), ok))} :: U32(In(PutU32(v, t), ok)) == Got(v, In(t, ok))
    ensures forall v: u64, t, ok {:trigger U64(In(PutU64(v, t), ok))} :: U64(In(PutU64(v, t), ok)) == Got(v, In(t, ok))
    ensures forall v: i64, t, ok {:trigger I64(In(PutI64(v, t), ok))} :: I64(In(PutI64(v, t), ok)) == Got(v, In(t, ok))
    ensures forall v: bool, t, ok {:trigger Flag(In(PutFlag(v, t), ok))} ::
      Flag(In(PutFlag(v, t), ok)) == Got(v, In(t, ok))
    ensures forall v: CapabilityKind, t, ok {:trigger Kind(In(PutKind(v, t), ok))} ::
      Kind(In(PutKind(v, t), ok)) == Got(v, In(t, ok))
    ensures forall v, t {:trigger Text(In(PutText(v, t), true))} ::
      ShortText(v) ==> Text(In(PutText(v, t), true)) == Got(v, In(t, true))
  {
    hide U32, PutU32, U64, PutU64, Text, PutText, ShortText;
    forall v: u32, t, ok ensures U32(In(PutU32(v, t), ok)) == Got(v, In(t, ok)) { U32Undoes(v, t, ok); }
    forall v: u64, t, ok ensures U64(In(PutU64(v, t), ok)) == Got(v, In(t, ok)) { U64Undoes(v, t, ok); }
    forall v, t | ShortText(v) ensures Text(In(PutText(v, t), true)) == Got(v, In(t, true)) { TextUndoes(v, t); }
    assert forall v: u8, t :: ([v] + t)[1..] == t;
  }

  /** `get` undoes `put` on every element of `xs`. */
  ghost predicate Undoes<T>(xs: seq<T>, put: (T, Bytes) -> Bytes, get: In -> Got<T>) {
    forall x, t {:trigger put(x, t)} :: x in xs ==> get(In(put(x, t), true)) == Got(x, In(t, true))
  }

  lemma {:induction false} EachUndoes<T>(xs: seq<T>, put: (T, Bytes) -> Bytes, get: In -> Got<T>, t: Bytes)
    requires Undoes(xs, put, get)
    ensures Each(|xs|, get, In(PutEach(xs, put, t), true)) == Got(xs, In(t, true))
  {
    if xs != [] {
      EachUndoes(xs[1..], put, get, t);
      assert [xs[0]] + xs[1..] == xs;
    }
  }

  lemma ListedUndoes<T>(max: nat, xs: seq<T>, put: (T, Bytes) -> Bytes, get: In -> Got<T>, t: Bytes)
    requires Undoes(xs, put, get)
    requires |xs| <= max < 0x1_0000_0000
    ensures Listed(max, get, In(PutListed(xs, put, t), true)) == Got(xs, In(t, true))
  {
    hide U32, PutU32, PutEach, Each, Undoes;
    U32Undoes(|xs|, PutEach(xs, put, t), true);
    EachUndoes(xs, put, get, t);
  }

  /** The laws of the composite parts of a record. */
  lemma PartsUndo()
    ensures forall v, t {:trigger Version(In(PutVersion(v, t), true))} ::
      ShortVersion(v) ==> Version(In(PutVersion(v, t), true)) == Got(v, In(t, true))
    ensures forall v, t, ok {:trigger Structured(In(PutStructured(v, t), ok))} ::
      Structured(In(PutStructured(v, t), ok)) == Got(v, In(t, ok))
    ensures forall v, t {:trigger Prov(In(PutProv(v, t), true))} ::
      ShortProv(v) ==> Prov(In(PutProv(v, t), true)) == Got(v, In(t, true))
    ensures forall v: seq<Id>, t {:trigger Ids(In(PutIds(v, t), true))} ::
      |v| <= 4096 ==> Ids(In(PutIds(v, t), true)) == Got(v, In(t, true))
    ensures forall v: seq<Id>, t {:trigger FewIds(In(PutIds(v, t), true))} ::
      |v| <= 256 ==> FewIds(In(PutIds(v, t), true)) == Got(v, In(t, true))
    ensures forall v, t {:trigger Kinds(In(PutKinds(v, t), true))} ::
      |v| <= 256 ==> Kinds(In(PutKinds(v, t), true)) == Got(v, In(t, true))
    ensures forall v, t {:trigger Texts(In(PutTexts(v, t), true))} ::
      ShortTexts(v) ==> Texts(In(PutTexts(v, t), true)) == Got(v, In(t, true))
  {
    hide U8, U32, U64, I64, Text, Kind, PutU8, PutU32, PutU64, PutI64, PutText, PutKind, ShortText, Listed, PutListed;
    ScalarsUndo();
    forall v: seq<Id>, t | |v| <= 4096 ensures Ids(In(PutIds(v, t), true)) == Got(v, In(t, true)) {
      ListedUndoes(4096, v, PutU64, U64, t);
    }
    forall v: seq<Id>, t | |v| <= 256 ensures FewIds(In(PutIds(v, t), true)) == Got(v, In(t, true)) {
      ListedUndoes(256, v, PutU64, U64, t);
    }
    forall v, t | |v| <= 256 ensures Kinds(In(PutKinds(v, t), true)) == Got(v, In(t, true)) {
      ListedUndoes(256, v, PutKind, Kind, t);
    }
    forall v, t | ShortTexts(v) ensures Texts(In(PutTexts(v, t), true)) == Got(v, In(t, true)) {
      ListedUndoes(256, v, PutText, Text, t);
    }
  }

  /** Reading undoes printing on capability values of any depth. */
  lemma {:induction false} ValueUndoes(v: CapabilityValue, t: Bytes)
    requires ShortValue(v)
    ensures Value(In(PutValue(v, t), true)) == Got(v, In(t, true))
    decreases v, 0
  {
    hide U8, U32, U64, I64, Flag, Text, PutU8, PutU32, PutU64, PutI64, PutFlag, PutText, Fields, PutFields, ShortText;
    ScalarsUndo();
    FieldsUndo(v.structured, t);
    if v.structured == [] {
      NoFields(t);
    }
  }

  lemma NoFields(t: Bytes)
    ensures PutFields([], t) == t
  {
  }

  lemma {:induction false} FieldsUndo(fs: seq<CapabilityField>, t: Bytes)
    requires ShortFields(fs)
    ensures Fields(|fs|, In(PutFields(fs, t), true)) == Got(fs, In(t, true))
    decreases fs, 0
  {
    hide Text, PutText, Value, PutValue, ShortText, ShortValue;
    ScalarsUndo();
    if fs != [] {
      ValueUndoes(fs[0].value, PutFields(fs[1..], t));
      FieldsUndo(fs[1..], t);
      assert [fs[0]] + fs[1..] == fs;
    }
  }

  // ---- more input changes nothing ----

  /** The same reader state with more input behind it. */
  function More(s: In, t: Bytes): In {
    s.(rest := s.rest + t)
  }

  /** A successful `get` reads the same when its input is followed by more. */
  ghost predicate Local<T(!new)>(get: In -> Got<T>, t: Bytes) {
    forall s {:trigger get(More(s, t))} :: get(s).s.ok ==> get(More(s, t)) == Got(get(s).v, More(get(s).s, t))
  }

  lemma ScalarsAreLocal(t: Bytes)
    ensures forall s {:trigger U8(More(s, t))} :: U8(s).s.ok ==> U8(More(s, t)) == Got(U8(s).v, More(U8(s).s, t))
    ensures forall s {:trigger U32(More(s, t))} :: U32(s).s.ok ==> U32(More(s, t)) == Got(U32(s).v, More(U32(s).s, t))
    ensures forall s {:trigger U64(More(s, t))} :: U64(s).s.ok ==> U64(More(s, t)) == Got(U64(s).v, More(U64(s).s, t))
    ensures forall s {:trigger I64(More(s, t))} :: I64(s).s.ok ==> I64(More(s, t)) == Got(I64(s).v, More(I64(s).s, t))
    ensures forall s {:trigger Flag(More(s, t))} ::
      Flag(s).s.ok ==> Flag(More(s, t)) == Got(Flag(s).v, More(Flag(s).s, t))
    ensures forall s {:trigger Kind(More(s, t))} ::
      Kind(s).s.ok ==> Kind(More(s, t)) == Got(Kind(s).v, More(Kind(s).s, t))
    ensures forall s {:trigger Text(More(s, t))} ::
      Text(s).s.ok ==> Text(More(s, t)) == Got(Text(s).v, More(Text(s).s, t))
  {
    hide U32, Text;
    forall s | U8(s).s.ok ensures U8(More(s, t)) == Got(U8(s).v, More(U8(s).s, t)) {
      assert (s.rest + t)[1..] == s.rest[1..] + t;
    }
    forall s | U32(s).s.ok ensures U32(More(s, t)) == Got(U32(s).v, More(U32(s).s, t)) { U32IsLocal(s, t); }
    forall s | Text(s).s.ok ensures Text(More(s, t)) == Got(Text(s).v, More(Text(s).s, t)) { TextIsLocal(s, t); }
  }

  lemma U32IsLocal(s: In, t: Bytes)
    requires U32(s).s.ok
    ensures U32(More(s, t)) == Got(U32(s).v, More(U32(s).s, t))
  {
    if |s.rest| >= 4 {
      assert (s.rest + t)[4..] == s.rest[4..] + t;
    }
  }

  lemma TextIsLocal(s: In, t: Bytes)
    requires Text(s).s.ok
    ensures Text(More(s, t)) == Got(Text(s).v, More(Text(s).s, t))
  {
    hide U32;
    U32IsLocal(s, t);
    var len := U32(s);
    var a := len.s.rest;
    assert (a + t)[..len.v] == a[..len.v] && (a + t)[len.v..] == a[len.v..] + t;
  }

  lemma {:induction false} EachIsLocal<T(!new)>(n: nat, get: In -> Got<T>, s: In, t: Bytes)
    requires Local(get, t)
    requires Each(n, get, s).s.ok
    ensures Each(n, get, More(s, t)) == Got(Each(n, get, s).v, More(Each(n, get, s).s, t))
  {
    if n > 0 && s.ok {
      var first := get(s);
      var again := get(More(s, t));
      if first.s.ok || n > 1 {
        EachIsLocal(n - 1, get, first.s, t);
      }
    }
  }

  lemma ListedIsLocal<T(!new)>(max: nat, get: In -> Got<T>, s: In, t: Bytes)
    requires Local(get, t)
    requires Listed(max, get, s).s.ok
    ensures Listed(max, get, More(s, t)) == Got(Listed(max, get, s).v, More(Listed(max, get, s).s, t))
  {
    hide U32, Local;
    var n := U32(s);
    var next := if n.v > max then Fail(n.s) else n.s;
    EachIsLocal(n.v, get, next, t);
    U32IsLocal(s, t);
  }

  lemma PartsAreLocal(t: Bytes)
    ensures forall s {:trigger Version(More(s, t))} ::
      Version(s).s.ok ==> Version(More(s, t)) == Got(Version(s).v, More(Version(s).s, t))
    ensures forall s {:trigger Structured(More(s, t))} ::
      Structured(s).s.ok ==> Structured(More(s, t)) == Got(Structured(s).v, More(Structured(s).s, t))
    ensures forall s {:trigger Prov(More(s, t))} ::
      Prov(s).s.ok ==> Prov(More(s, t)) == Got(Prov(s).v, More(Prov(s).s, t))
    ensures forall s {:trigger Ids(More(s, t))} :: Ids(s).s.ok ==> Ids(More(s, t)) == Got(Ids(s).v, More(Ids(s).s, t))
    ensures forall s {:trigger FewIds(More(s, t))} ::
      FewIds(s).s.ok ==> FewIds(More(s, t)) == Got(FewIds(s).v, More(FewIds(s).s, t))
    ensures forall s {:trigger Kinds(More(s, t))} ::
      Kinds(s).s.ok ==> Kinds(More(s, t)) == Got(Kinds(s).v, More(Kinds(s).s, t))
    ensures forall s {:trigger Texts(More(s, t))} ::
      Texts(s).s.ok ==> Texts(More(s, t)) == Got(Texts(s).v, More(Texts(s).s, t))
  {
    hide U8, U32, U64, I64, Text, Kind, Listed, More;
    ScalarsAreLocal(t);
    forall s | Ids(s).s.ok
      ensures Ids(More(s, t)) == Got(Ids(s).v, More(Ids(s).s, t)) { ListedIsLocal(4096, U64, s, t); }
    forall s | FewIds(s).s.ok
      ensures FewIds(More(s, t)) == Got(FewIds(s).v, More(FewIds(s).s, t)) { ListedIsLocal(256, U64, s, t); }
    forall s | Kinds(s).s.ok
      ensures Kinds(More(s, t)) == Got(Kinds(s).v, More(Kinds(s).s, t)) { ListedIsLocal(256, Kind, s, t); }
    forall s | Texts(s).s.ok
      ensures Texts(More(s, t)) == Got(Texts(s).v, More(Texts(s).s, t)) { ListedIsLocal(256, Text, s, t); }
  }

  lemma {:induction false} ValueIsLocal(s: In, t: Bytes)
    requires Value(s).s.ok
    ensures Value(More(s, t)) == Got(Value(s).v, More(Value(s).s, t))
    decreases |s.rest|, 0
  {
    hide U8, U32, U64, I64, Flag, Text, Fields, More;
    ScalarsAreLocal(t);
    var kind := U8(s); var boolean := Flag(kind.s); var integer := I64(boolean.s); var number := U64(integer.s);
    var hasMin := Flag(number.s); var hasMax := Flag(hasMin.s);
    var rangeMin := U64(hasMax.s); var rangeMax := U64(rangeMin.s); var text := Text(rangeMax.s);
    var len := U32(text.s);
    if 0 < len.v <= MAX_FIELDS {
      FieldsAreLocal(len.v, len.s, t);
    }
  }

  lemma {:induction false} FieldsAreLocal(n: nat, s: In, t: Bytes)
    requires Fields(n, s).s.ok
    ensures Fields(n, More(s, t)) == Got(Fields(n, s).v, More(Fields(n, s).s, t))
    decreases |s.rest|, n + 1
  {
    hide Text, Value, More;
    if n > 0 {
      ScalarsAreLocal(t);
      var key := Text(s);
      ValueIsLocal(key.s, t);
      FieldsAreLocal(n - 1, Value(key.s).s, t);
    }
  }
}
