/** The save format as tables: in which order the fields of each record stand in a file, and in how
    many bytes.  The printers of the save format write exactly these bytes. */
module Layout {
  import opened Base
  import opened Enums
  import SemVer
  import opened Records
  import opened Codec
  import opened RecordCodec
  import opened Sections
  import opened RegistryModel
  import opened Persistence
  import LittleEndian
  import Crc32

  // ---- pieces ----

  /** One field of a record. */
  datatype Piece =
    | Byte(b: u8) | Word(w: u32) | Long(l: u64) | Signed(i: i64) | Text(x: Bytes)
    | Version(v: SemVer.SemanticVersion) | Triple(s: SemVer.StructuredVersion) | Evidence(p: Provenance)
    | Longs(ids: seq<Id>) | Kinds(kinds: seq<CapabilityKind>) | Texts(xs: seq<Bytes>) | Value(value: CapabilityValue)

  /** A record, field by field. */
  datatype Layout = End | Then(piece: Piece, rest: Layout)

  /** The `n` lowest base 256 digits of a number, lowest first. */
  function Low(v: nat, n: nat): (r: Bytes)
    ensures |r| == n
  {
    if n == 0 then [] else [v % 0x100] + Low(v / 0x100, n - 1)
  }

  /** A length or count: four bytes, so it is cut to 32 bits. */
  function Size(n: nat): Bytes {
    Low(n % 0x1_0000_0000, 4)
  }

  /** Two's complement. */
  function Complement(i: i64): Bytes {
    Low(if i < 0 then 0x1_0000_0000_0000_0000 + i else i, 8)
  }

  function Sized(x: Bytes): Bytes {
    Size(|x|) + x
  }

  function VersionBytes(v: SemVer.SemanticVersion): Bytes {
    Complement(v.major) + (Complement(v.minor) + (Complement(v.patch) + (Sized(v.prerelease) + Sized(v.build))))
  }

  function TripleBytes(v: SemVer.StructuredVersion): Bytes {
    Complement(v.major) + (Complement(v.minor) + Complement(v.patch))
  }

  function EvidenceBytes(p: Provenance): Bytes {
    [p.kind as int] + (Sized(p.source) + (Complement(p.timestampMs) + Sized(p.digest)))
  }

  /** The elements of a list, one after the other. */
  function LongsBytes(ids: seq<Id>): Bytes {
    if ids == [] then [] else Low(ids[0], 8) + LongsBytes(ids[1..])
  }

  function KindsBytes(kinds: seq<CapabilityKind>): Bytes {
    if kinds == [] then [] else [kinds[0] as int] + KindsBytes(kinds[1..])
  }

  function TextsBytes(xs: seq<Bytes>): Bytes {
    if xs == [] then [] else Sized(xs[0]) + TextsBytes(xs[1..])
  }

  function Flagged(b: bool): Bytes {
    if b then [1] else [0]
  }

  /** The kind of a capability value, and its boolean, integer and real shapes. */
  function NumberBytes(v: CapabilityValue): Bytes {
    [v.kind as int] + (Flagged(v.boolean) + (Complement(v.integer) + Low(v.number, 8)))
  }

  /** Its range and text. */
  function RangeBytes(v: CapabilityValue): Bytes {
    Flagged(v.hasMin) + (Flagged(v.hasMax) + (Low(v.rangeMin, 8) + (Low(v.rangeMax, 8) + Sized(v.text))))
  }

  /** A capability value: all of its shapes, then its fields, each a key and a value. */
  function ValueBytes(v: CapabilityValue): Bytes
    decreases v, 0
  {
    NumberBytes(v) + (RangeBytes(v) + (Size(|v.structured|) + FieldsBytes(v.structured)))
  }

  function FieldsBytes(fs: seq<CapabilityField>): Bytes
    decreases fs, 0
  {
    if fs == [] then [] else Sized(fs[0].key) + (ValueBytes(fs[0].value) + FieldsBytes(fs[1..]))
  }

  function PieceBytes(p: Piece): Bytes {
    match p
    case Byte(b) => [b]
    case Word(w) => Low(w, 4)
    case Long(l) => Low(l, 8)
    case Signed(i) => Complement(i)
    case Text(x) => Sized(x)
    case Version(v) => VersionBytes(v)
    case Triple(s) => TripleBytes(s)
    case Evidence(p) => EvidenceBytes(p)
    case Longs(ids) => Size(|ids|) + LongsBytes(ids)
    case Kinds(kinds) => Size(|kinds|) + KindsBytes(kinds)
    case Texts(xs) => Size(|xs|) + TextsBytes(xs)
    case Value(v) => ValueBytes(v)
  }

  /** The bytes of a record, and what follows it. */
  function Printed(l: Layout, t: Bytes): Bytes {
    match l
    case End => t
    case Then(p, rest) => PieceBytes(p) + Printed(rest, t)
  }

  // ---- the tables ----

  function ServiceLayout(x: Service): Layout {
    Then(Long(x.serviceId), Then(Byte(x.kind as int), Then(Text(x.name), Then(Long(x.generation),
    Then(Long(x.owner), Then(Byte(x.lifecycle as int), Then(Version(x.version), Then(Triple(x.apiVersion),
    Then(Triple(x.abiVersion), Then(Kinds(x.requiredCapabilities), Then(Kinds(x.optionalCapabilities),
    Then(Longs(x.protocolRequirements), Then(Long(x.compatibilityRef), Then(Long(x.policyGeneration),
    Then(Evidence(x.provenance), Then(Text(x.semanticDigest), End))))))))))))))))
  }

  function InstanceLayout(x: Instance): Layout {
    Then(Long(x.instanceId), Then(Long(x.serviceId), Then(Long(x.serviceGeneration),
    Then(Long(x.instanceGeneration), Then(Long(x.node), Then(Long(x.worker), Then(Long(x.boot),
    Then(Long(x.process), Then(Long(x.runtimeId), Then(Long(x.runtimeInstance), Then(Longs(x.endpoints),
    Then(Longs(x.protocols), Then(Longs(x.capabilities), Then(Byte(x.health as int),
    Then(Byte(x.readiness as int), Then(Byte(x.freshness as int), Then(Byte(x.reachability as int),
    Then(Long(x.lease), Then(Byte(x.lifecycle as int), Then(Version(x.version), Then(Long(x.compatibilityRef),
    Then(Long(x.authorityGeneration), Then(Signed(x.registeredMs), Then(Signed(x.updatedMs),
    Then(Signed(x.expiresMs), Then(Evidence(x.provenance), Then(Text(x.semanticDigest), End)))))))))))))))))))))))))))
  }

  function RuntimeLayout(x: Runtime): Layout {
    Then(Long(x.runtimeId), Then(Long(x.runtimeInstance), Then(Long(x.generation), Then(Byte(x.kind as int),
    Then(Text(x.name), Then(Text(x.family), Then(Version(x.version), Then(Triple(x.apiVersion),
    Then(Triple(x.abiVersion), Then(Text(x.buildIdentity), Then(Text(x.compilerIdentity),
    Then(Longs(x.supportedProtocols), Then(Longs(x.capabilities), Then(Longs(x.backends),
    Then(Text(x.architecture), Then(Text(x.deviceConstraint), Then(Evidence(x.provenance), Then(Long(x.node),
    Then(Long(x.ownerWorker), Then(Long(x.ownerBoot), End))))))))))))))))))))
  }

  function EndpointLayout(x: Endpoint): Layout {
    Then(Long(x.endpointId), Then(Long(x.serviceInstance), Then(Long(x.generation), Then(Long(x.protocol),
    Then(Text(x.locator), Then(Byte(x.transport as int), Then(Word(x.port), Then(Byte(x.security),
    Then(Byte(x.health as int), Then(Byte(x.reachability as int), Then(Byte(x.freshness as int),
    Then(Evidence(x.provenance), Then(Long(x.authorityGeneration), End)))))))))))))
  }

  function ProtocolLayout(x: Protocol): Layout {
    Then(Long(x.protocolId), Then(Text(x.name), Then(Long(x.generation), Then(Triple(x.version),
    Then(Triple(x.compatibilityMin), Then(Text(x.framing), Then(Kinds(x.requiredCapabilities),
    Then(Signed(x.maxPayload), Then(Evidence(x.provenance), End)))))))))
  }

  function BackendLayout(x: Backend): Layout {
    Then(Long(x.backendId), Then(Byte(x.kind), Then(Long(x.generation), Then(Long(x.runtimeBinding),
    Then(Longs(x.capabilities), Then(Version(x.version), Then(Byte(x.health as int),
    Then(Byte(x.readiness as int), Then(Byte(x.freshness as int), Then(Evidence(x.provenance), End))))))))))
  }

  function DeviceLayout(x: Device): Layout {
    Then(Long(x.deviceId), Then(Long(x.generation), Then(Text(x.name), Then(Text(x.vendor),
    Then(Text(x.architecture), Then(Text(x.computeCapability), Then(Signed(x.totalMemory),
    Then(Signed(x.freeMemory), Then(Text(x.backendBinding), Then(Evidence(x.provenance),
    Then(Byte(x.freshness as int), Then(Byte(x.health as int), End))))))))))))
  }

  function CapabilityLayout(x: Capability): Layout {
    Then(Long(x.capabilityId), Then(Byte(x.kind as int), Then(Long(x.generation), Then(Version(x.version),
    Then(Value(x.value), Then(Texts(x.attributes), Then(Texts(x.constraints), Then(Evidence(x.provenance),
    Then(Byte(x.freshness as int), Then(Long(x.authorityGeneration), End))))))))))
  }

  function NodeLayout(x: Node): Layout {
    Then(Long(x.nodeId), Then(Long(x.generation), Then(Text(x.hostname), Then(Longs(x.runtimes),
    Then(Longs(x.serviceInstances), Then(Longs(x.devices), Then(Longs(x.backends), Then(Byte(x.health as int),
    Then(Byte(x.readiness as int), Then(Byte(x.freshness as int), Then(Byte(x.reachability as int),
    Then(Evidence(x.provenance), End))))))))))))
  }

  function LeaseLayout(x: Lease): Layout {
    Then(Long(x.leaseId), Then(Long(x.generation), Then(Long(x.serviceInstance), Then(Long(x.boot),
    Then(Signed(x.issuedMs), Then(Signed(x.renewIntervalMs), Then(Byte(x.renewalPolicy),
    Then(Byte(x.state as int), Then(Signed(x.expiresMs), Then(Evidence(x.provenance),
    Then(Long(x.authorityGeneration), End)))))))))))
  }

  function TombstoneLayout(x: Tombstone): Layout {
    Then(Long(x.tombstoneId), Then(Text(x.targetKind), Then(Text(x.targetText), Then(Long(x.generationFloor),
    Then(Long(x.epoch), Then(Long(x.boot), Then(Long(x.authorityGeneration), Then(Text(x.reason),
    Then(Signed(x.timestampMs), Then(Evidence(x.provenance), End))))))))))
  }

  function InvalidationLayout(x: Invalidation): Layout {
    Then(Text(x.targetKind), Then(Text(x.targetText), Then(Long(x.generation), Then(Long(x.epoch),
    Then(Long(x.boot), Then(Long(x.authorityGeneration), Then(Text(x.reason), Then(Signed(x.timestampMs),
    Then(Evidence(x.provenance), End)))))))))
  }

  function CompatibilityLayout(x: Compatibility): Layout {
    Then(Long(x.compatibilityId), Then(Long(x.generation), Then(Byte(x.outcome), Then(Byte(x.freshness as int),
    Then(Evidence(x.provenance), End)))))
  }

  /** The generations and counters of a header, and what follows them. */
  function NumbersLayout(x: Numbers, rest: Layout): Layout {
    Then(Long(x.epoch), Then(Long(x.registryGeneration), Then(Long(x.recordGeneration),
    Then(Long(x.gens.service), Then(Long(x.gens.instance), Then(Long(x.gens.runtime),
    Then(Long(x.gens.runtimeInstance), Then(Long(x.gens.endpoint), Then(Long(x.gens.protocol),
    Then(Long(x.gens.backend), Then(Long(x.gens.device), Then(Long(x.gens.capability), Then(Long(x.gens.lease),
    Then(Long(x.gens.node), Then(Long(x.gens.compat), Then(Long(x.gens.trust), Then(Long(x.gens.authority),
    Then(Long(x.nextBoot), Then(Long(x.nextId), rest)))))))))))))))))))
  }

  /** The number of records of each sort. */
  function CountsLayout(x: Counts): Layout {
    Then(Word(x.services), Then(Word(x.instances), Then(Word(x.runtimes), Then(Word(x.runtimeInstances),
    Then(Word(x.endpoints), Then(Word(x.protocols), Then(Word(x.backends), Then(Word(x.devices),
    Then(Word(x.capabilities), Then(Word(x.nodes), Then(Word(x.leases), Then(Word(x.tombstones),
    Then(Word(x.compatRecords), Then(Word(x.invalidations), Then(Word(x.instanceHistory),
    Then(Word(x.runtimeHistory), Then(Word(x.endpointHistory), Then(Word(x.capabilityHistory), End))))))))))))))))))
  }

  /** Magic number and version come first. */
  function HeaderLayout(h: Header): Layout {
    Then(Word(0x52525031), Then(Byte(1), NumbersLayout(h.numbers, CountsLayout(h.counts))))
  }

  // ---- the printers of single fields ----

  lemma LowFourSteps(v: u32)
    ensures Low(v, 4) == [v % 0x100, v / 0x100 % 0x100, v / 0x100 / 0x100 % 0x100, v / 0x100 / 0x100 / 0x100]
  {
    var a := v / 0x100;
    var b := a / 0x100;
    var c := b / 0x100;
    assert Low(v, 4) == [v % 0x100] + Low(a, 3);
    assert Low(a, 3) == [a % 0x100] + Low(b, 2);
    assert Low(b, 2) == [b % 0x100] + Low(c, 1);
    assert Low(c, 1) == [c % 0x100] + Low(c / 0x100, 0);
    assert c < 0x100;
  }

  lemma LowFour(v: u32)
    ensures Low(v, 4) == LittleEndian.Bytes32(v)
  {
    LowFourSteps(v);
    var a := v / 0x100;
    assert v / 0x1_0000 == a / 0x100 && v / 0x100_0000 == a / 0x100 / 0x100;
  }

  /** The digits of a number beyond the fourth are those of its upper half. */
  lemma LowEight(r: u32, w: u32)
    ensures Low(r + 0x1_0000_0000 * w, 8) == Low(r, 4) + Low(w, 4)
  {
    var r1 := r / 0x100;
    var r2 := r1 / 0x100;
    var r3 := r2 / 0x100;
    var v := r + 0x1_0000_0000 * w;
    assert v % 0x100 == r % 0x100 && v / 0x100 == r1 + 0x100_0000 * w;
    assert (v / 0x100) % 0x100 == r1 % 0x100 && v / 0x100 / 0x100 == r2 + 0x1_0000 * w;
    assert (v / 0x100 / 0x100) % 0x100 == r2 % 0x100 && v / 0x100 / 0x100 / 0x100 == r3 + 0x100 * w;
    assert (r3 + 0x100 * w) % 0x100 == r3 && (r3 + 0x100 * w) / 0x100 == w;
    LowSteps(v);
    LowFourSteps(r);
  }

  lemma LowSteps(v: nat)
    ensures Low(v, 8) ==
      [v % 0x100, v / 0x100 % 0x100, v / 0x100 / 0x100 % 0x100, v / 0x100 / 0x100 / 0x100 % 0x100] +
      Low(v / 0x100 / 0x100 / 0x100 / 0x100, 4)
  {
    var a := v / 0x100;
    var b := a / 0x100;
    var c := b / 0x100;
    assert Low(v, 8) == [v % 0x100] + Low(a, 7);
    assert Low(a, 7) == [a % 0x100] + Low(b, 6);
    assert Low(b, 6) == [b % 0x100] + Low(c, 5);
    assert Low(c, 5) == [c % 0x100] + Low(c / 0x100, 4);
  }

  lemma HalvesArePrinted(r: u32, w: u32, t: Bytes)
    ensures PutU32(r, PutU32(w, t)) == Low(r + 0x1_0000_0000 * w, 8) + t
  {
    LowEight(r, w);
    WordIsPrinted(w, t);
    WordIsPrinted(r, Low(w, 4) + t);
    hide Low, PutU32;
    Regroup(Low(r, 4), Low(w, 4), t);
  }

  lemma LongIsPrinted(v: u64, t: Bytes)
    ensures PutU64(v, t) == Low(v, 8) + t
  {
    hide Low, PutU32;
    HalvesArePrinted(v % 0x1_0000_0000, v / 0x1_0000_0000, t);
    assert v == v % 0x1_0000_0000 + 0x1_0000_0000 * (v / 0x1_0000_0000);
  }

  lemma WordIsPrinted(v: u32, t: Bytes)
    ensures PutU32(v, t) == Low(v, 4) + t
  {
    LowFour(v);
    hide Low, LittleEndian.Bytes32;
  }

  lemma TextIsPrinted(v: Bytes, t: Bytes)
    ensures PutText(v, t) == Sized(v) + t
  {
    WordIsPrinted(|v| % 0x1_0000_0000, v + t);
    hide Low, PutU32;
    assert Size(|v|) + v + t == Size(|v|) + (v + t);
  }

  /** The printers of scalars, in a form the verifier applies along a whole record. */
  lemma ScalarsArePrinted()
    ensures forall v: u8, t {:trigger PutU8(v, t)} :: PutU8(v, t) == [v] + t
    ensures forall v: u32, t {:trigger PutU32(v, t)} :: PutU32(v, t) == Low(v, 4) + t
    ensures forall v: u64, t {:trigger PutU64(v, t)} :: PutU64(v, t) == Low(v, 8) + t
    ensures forall v: i64, t {:trigger PutI64(v, t)} :: PutI64(v, t) == Complement(v) + t
    ensures forall v: bool, t {:trigger PutFlag(v, t)} :: PutFlag(v, t) == Flagged(v) + t
    ensures forall v, t {:trigger PutText(v, t)} :: PutText(v, t) == Sized(v) + t
  {
    hide Low, PutU64, PutU32, PutText, Sized;
    forall v: u32, t ensures PutU32(v, t) == Low(v, 4) + t { WordIsPrinted(v, t); }
    forall v: u64, t ensures PutU64(v, t) == Low(v, 8) + t { LongIsPrinted(v, t); }
    forall v, t ensures PutText(v, t) == Sized(v) + t { TextIsPrinted(v, t); }
  }

  lemma Regroup(a: Bytes, b: Bytes, t: Bytes)
    ensures a + b + t == a + (b + t)
  {
  }

  /** The same for the composite fields. */
  lemma VersionIsPrinted(v: SemVer.SemanticVersion, t: Bytes)
    ensures PutVersion(v, t) == VersionBytes(v) + t
  {
    hide PutI64, PutText, Complement, Sized;
    ScalarsArePrinted();
    var pre, build := Sized(v.prerelease), Sized(v.build);
    var patch := Complement(v.patch);
    var minor := Complement(v.minor);
    Regroup(pre, build, t);
    Regroup(patch, pre + build, t);
    Regroup(minor, patch + (pre + build), t);
    Regroup(Complement(v.major), minor + (patch + (pre + build)), t);
  }

  lemma TripleIsPrinted(v: SemVer.StructuredVersion, t: Bytes)
    ensures PutStructured(v, t) == TripleBytes(v) + t
  {
    hide PutI64, Complement;
    ScalarsArePrinted();
    var minor, patch := Complement(v.minor), Complement(v.patch);
    Regroup(minor, patch, t);
    Regroup(Complement(v.major), minor + patch, t);
  }

  lemma EvidenceIsPrinted(p: Provenance, t: Bytes)
    ensures PutProv(p, t) == EvidenceBytes(p) + t
  {
    hide PutU8, PutI64, PutText, Complement, Sized;
    ScalarsArePrinted();
    var time, digest := Complement(p.timestampMs), Sized(p.digest);
    var source := Sized(p.source);
    Regroup(time, digest, t);
    Regroup(source, time + digest, t);
    Regroup([p.kind as int], source + (time + digest), t);
  }

  lemma {:induction false} LongsArePrinted(ids: seq<Id>, t: Bytes)
    ensures PutEach(ids, PutU64, t) == LongsBytes(ids) + t
  {
    if ids != [] {
      LongIsPrinted(ids[0], PutEach(ids[1..], PutU64, t));
      hide PutU64, Low;
      LongsArePrinted(ids[1..], t);
      Regroup(Low(ids[0], 8), LongsBytes(ids[1..]), t);
    }
  }

  lemma {:induction false} KindsArePrinted(kinds: seq<CapabilityKind>, t: Bytes)
    ensures PutEach(kinds, PutKind, t) == KindsBytes(kinds) + t
  {
    if kinds != [] {
      KindsArePrinted(kinds[1..], t);
      Regroup([kinds[0] as int], KindsBytes(kinds[1..]), t);
    }
  }

  lemma {:induction false} TextsArePrinted(xs: seq<Bytes>, t: Bytes)
    ensures PutEach(xs, PutText, t) == TextsBytes(xs) + t
  {
    if xs != [] {
      TextIsPrinted(xs[0], PutEach(xs[1..], PutText, t));
      hide PutText, Sized;
      TextsArePrinted(xs[1..], t);
      Regroup(Sized(xs[0]), TextsBytes(xs[1..]), t);
    }
  }

  lemma ListIsPrinted<T>(xs: seq<T>, put: (T, Bytes) -> Bytes, bytes: Bytes, t: Bytes)
    requires PutEach(xs, put, t) == bytes + t
    ensures PutListed(xs, put, t) == Size(|xs|) + bytes + t
  {
    WordIsPrinted(|xs| % 0x1_0000_0000, bytes + t);
    hide PutU32, Low, PutEach;
    Regroup(Size(|xs|), bytes, t);
  }

  lemma NumberIsPrinted(v: CapabilityValue, t: Bytes)
    ensures PutU8(v.kind as int, PutFlag(v.boolean, PutI64(v.integer, PutU64(v.number, t)))) == NumberBytes(v) + t
  {
    ScalarsArePrinted();
    hide PutU8, PutFlag, PutI64, PutU64, Flagged, Complement, Low;
    var number := Low(v.number, 8);
    var integer := Complement(v.integer);
    var boolean := Flagged(v.boolean);
    Regroup(integer, number, t);
    Regroup(boolean, integer + number, t);
    Regroup([v.kind as int], boolean + (integer + number), t);
  }

  lemma RangeIsPrinted(v: CapabilityValue, t: Bytes)
    ensures PutFlag(v.hasMin, PutFlag(v.hasMax, PutU64(v.rangeMin, PutU64(v.rangeMax, PutText(v.text, t))))) ==
      RangeBytes(v) + t
  {
    ScalarsArePrinted();
    hide PutFlag, PutU64, PutText, Flagged, Sized, Low;
    var text := Sized(v.text);
    var max := Low(v.rangeMax, 8);
    var min := Low(v.rangeMin, 8);
    var hasMax := Flagged(v.hasMax);
    Regroup(max, text, t);
    Regroup(min, max + text, t);
    Regroup(hasMax, min + (max + text), t);
    Regroup(Flagged(v.hasMin), hasMax + (min + (max + text)), t);
  }

  /** A capability value of any depth. */
  lemma {:induction false} ValueIsPrinted(v: CapabilityValue, t: Bytes)
    ensures PutValue(v, t) == ValueBytes(v) + t
    decreases v, 0
  {
    FieldsArePrinted(v.structured, t);
    WordIsPrinted(|v.structured| % 0x1_0000_0000, FieldsBytes(v.structured) + t);
    hide PutU8, PutFlag, PutI64, PutU64, PutText, PutU32, PutFields, FieldsBytes, NumberBytes, RangeBytes, Low;
    var size, fields := Size(|v.structured|), FieldsBytes(v.structured);
    Regroup(size, fields, t);
    Regroup(RangeBytes(v), size + fields, t);
    Regroup(NumberBytes(v), RangeBytes(v) + (size + fields), t);
    RangeIsPrinted(v, size + fields + t);
    NumberIsPrinted(v, RangeBytes(v) + (size + fields + t));
  }

  lemma {:induction false} FieldsArePrinted(fs: seq<CapabilityField>, t: Bytes)
    ensures PutFields(fs, t) == FieldsBytes(fs) + t
    decreases fs, 0
  {
    if fs != [] {
      hide PutText, PutValue, ValueBytes, Sized;
      FieldsArePrinted(fs[1..], t);
      var more := FieldsBytes(fs[1..]);
      ValueIsPrinted(fs[0].value, more + t);
      TextIsPrinted(fs[0].key, ValueBytes(fs[0].value) + (more + t));
      Regroup(ValueBytes(fs[0].value), more, t);
      Regroup(Sized(fs[0].key), ValueBytes(fs[0].value) + more, t);
    }
  }

  // ---- whole records ----

  /** Each printer adds its field in front of a table. */
  lemma FieldsGoInFront()
    ensures forall v: u8, l, t {:trigger PutU8(v, Printed(l, t))} ::
      PutU8(v, Printed(l, t)) == Printed(Then(Byte(v), l), t)
    ensures forall v: u32, l, t {:trigger PutU32(v, Printed(l, t))} ::
      PutU32(v, Printed(l, t)) == Printed(Then(Word(v), l), t)
    ensures forall v: u64, l, t {:trigger PutU64(v, Printed(l, t))} ::
      PutU64(v, Printed(l, t)) == Printed(Then(Long(v), l), t)
    ensures forall v: i64, l, t {:trigger PutI64(v, Printed(l, t))} ::
      PutI64(v, Printed(l, t)) == Printed(Then(Signed(v), l), t)
    ensures forall v, l, t {:trigger PutText(v, Printed(l, t))} ::
      PutText(v, Printed(l, t)) == Printed(Then(Text(v), l), t)
    ensures forall v, l, t {:trigger PutVersion(v, Printed(l, t))} ::
      PutVersion(v, Printed(l, t)) == Printed(Then(Version(v), l), t)
    ensures forall v, l, t {:trigger PutStructured(v, Printed(l, t))} ::
      PutStructured(v, Printed(l, t)) == Printed(Then(Triple(v), l), t)
    ensures forall v, l, t {:trigger PutProv(v, Printed(l, t))} ::
      PutProv(v, Printed(l, t)) == Printed(Then(Evidence(v), l), t)
    ensures forall v, l, t {:trigger PutIds(v, Printed(l, t))} ::
      PutIds(v, Printed(l, t)) == Printed(Then(Longs(v), l), t)
    ensures forall v, l, t {:trigger PutKinds(v, Printed(l, t))} ::
      PutKinds(v, Printed(l, t)) == Printed(Then(Kinds(v), l), t)
    ensures forall v, l, t {:trigger PutTexts(v, Printed(l, t))} ::
      PutTexts(v, Printed(l, t)) == Printed(Then(Texts(v), l), t)
    ensures forall v, l, t {:trigger PutValue(v, Printed(l, t))} ::
      PutValue(v, Printed(l, t)) == Printed(Then(Value(v), l), t)
  {
    ScalarsArePrinted();
    hide Low, Complement, Sized, PutU8, PutU32, PutU64, PutI64, PutText, PutVersion, PutStructured, PutProv,
      PutIds, PutKinds,
         PutTexts, PutValue, VersionBytes, TripleBytes, EvidenceBytes, LongsBytes, KindsBytes, TextsBytes,
         ValueBytes, Size;
    forall v, t ensures PutVersion(v, t) == VersionBytes(v) + t { VersionIsPrinted(v, t); }
    forall v, t ensures PutStructured(v, t) == TripleBytes(v) + t { TripleIsPrinted(v, t); }
    forall v, t ensures PutProv(v, t) == EvidenceBytes(v) + t { EvidenceIsPrinted(v, t); }
    forall v, t ensures PutValue(v, t) == ValueBytes(v) + t { ValueIsPrinted(v, t); }
    forall v, t ensures PutIds(v, t) == Size(|v|) + LongsBytes(v) + t { IdsArePrinted(v, t); }
    forall v, t ensures PutKinds(v, t) == Size(|v|) + KindsBytes(v) + t { KindListIsPrinted(v, t); }
    forall v, t ensures PutTexts(v, t) == Size(|v|) + TextsBytes(v) + t { TextListIsPrinted(v, t); }
  }

  lemma IdsArePrinted(v: seq<Id>, t: Bytes)
    ensures PutIds(v, t) == Size(|v|) + LongsBytes(v) + t
  {
    LongsArePrinted(v, t);
    ListIsPrinted(v, PutU64, LongsBytes(v), t);
  }

  lemma KindListIsPrinted(v: seq<CapabilityKind>, t: Bytes)
    ensures PutKinds(v, t) == Size(|v|) + KindsBytes(v) + t
  {
    KindsArePrinted(v, t);
    ListIsPrinted(v, PutKind, KindsBytes(v), t);
  }

  lemma TextListIsPrinted(v: seq<Bytes>, t: Bytes)
    ensures PutTexts(v, t) == Size(|v|) + TextsBytes(v) + t
  {
    TextsArePrinted(v, t);
    ListIsPrinted(v, PutText, TextsBytes(v), t);
  }

  lemma ServiceIsPrinted(x: Service, t: Bytes)
    ensures PutService(x, t) == Printed(ServiceLayout(x), t)
  {
    hide PutIds, PutKinds, PutProv, PutStructured, PutText, PutU64, PutU8, PutVersion, PieceBytes;
    FieldsGoInFront();
    assert t == Printed(End, t);
    hide Printed;
  }

  lemma InstanceIsPrinted(x: Instance, t: Bytes)
    ensures PutInstance(x, t) == Printed(InstanceLayout(x), t)
  {
    hide PutI64, PutIds, PutProv, PutText, PutU64, PutU8, PutVersion, PieceBytes;
    FieldsGoInFront();
    assert t == Printed(End, t);
    hide Printed;
  }

  lemma RuntimeIsPrinted(x: Runtime, t: Bytes)
    ensures PutRuntime(x, t) == Printed(RuntimeLayout(x), t)
  {
    hide PutIds, PutProv, PutStructured, PutText, PutU64, PutU8, PutVersion, PieceBytes;
    FieldsGoInFront();
    assert t == Printed(End, t);
    hide Printed;
  }

  lemma EndpointIsPrinted(x: Endpoint, t: Bytes)
    ensures PutEndpoint(x, t) == Printed(EndpointLayout(x), t)
  {
    hide PutProv, PutText, PutU32, PutU64, PutU8, PieceBytes;
    FieldsGoInFront();
    assert t == Printed(End, t);
    hide Printed;
  }

  lemma ProtocolIsPrinted(x: Protocol, t: Bytes)
    ensures PutProtocol(x, t) == Printed(ProtocolLayout(x), t)
  {
    hide PutI64, PutKinds, PutProv, PutStructured, PutText, PutU64, PieceBytes;
    FieldsGoInFront();
    assert t == Printed(End, t);
    hide Printed;
  }

  lemma BackendIsPrinted(x: Backend, t: Bytes)
    ensures PutBackend(x, t) == Printed(BackendLayout(x), t)
  {
    hide PutIds, PutProv, PutU64, PutU8, PutVersion, PieceBytes;
    FieldsGoInFront();
    assert t == Printed(End, t);
    hide Printed;
  }

  lemma DeviceIsPrinted(x: Device, t: Bytes)
    ensures PutDevice(x, t) == Printed(DeviceLayout(x), t)
  {
    hide PutI64, PutProv, PutText, PutU64, PutU8, PieceBytes;
    FieldsGoInFront();
    assert t == Printed(End, t);
    hide Printed;
  }

  lemma CapabilityIsPrinted(x: Capability, t: Bytes)
    ensures PutCapability(x, t) == Printed(CapabilityLayout(x), t)
  {
    hide PutProv, PutTexts, PutU64, PutU8, PutValue, PutVersion, PieceBytes;
    FieldsGoInFront();
    assert t == Printed(End, t);
    hide Printed;
  }

  lemma NodeIsPrinted(x: Node, t: Bytes)
    ensures PutNode(x, t) == Printed(NodeLayout(x), t)
  {
    hide PutIds, PutProv, PutText, PutU64, PutU8, PieceBytes;
    FieldsGoInFront();
    assert t == Printed(End, t);
    hide Printed;
  }

  lemma LeaseIsPrinted(x: Lease, t: Bytes)
    ensures PutLease(x, t) == Printed(LeaseLayout(x), t)
  {
    hide PutI64, PutProv, PutU64, PutU8, PieceBytes;
    FieldsGoInFront();
    assert t == Printed(End, t);
    hide Printed;
  }

  lemma TombstoneIsPrinted(x: Tombstone, t: Bytes)
    ensures PutTombstone(x, t) == Printed(TombstoneLayout(x), t)
  {
    hide PutI64, PutProv, PutText, PutU64, PieceBytes;
    FieldsGoInFront();
    assert t == Printed(End, t);
    hide Printed;
  }

  lemma InvalidationIsPrinted(x: Invalidation, t: Bytes)
    ensures PutInvalidation(x, t) == Printed(InvalidationLayout(x), t)
  {
    hide PutI64, PutProv, PutText, PutU64, PieceBytes;
    FieldsGoInFront();
    assert t == Printed(End, t);
    hide Printed;
  }

  lemma CompatibilityIsPrinted(x: Compatibility, t: Bytes)
    ensures PutCompatibility(x, t) == Printed(CompatibilityLayout(x), t)
  {
    hide PutProv, PutU64, PutU8, PieceBytes;
    FieldsGoInFront();
    assert t == Printed(End, t);
    hide Printed;
  }

  lemma NumbersArePrinted(x: Numbers, l: Layout, t: Bytes)
    ensures PutNumbers(x, Printed(l, t)) == Printed(NumbersLayout(x, l), t)
  {
    hide PutU64, PieceBytes;
    FieldsGoInFront();
    hide Printed;
  }

  lemma CountsArePrinted(x: Counts, t: Bytes)
    ensures PutCounts(x, t) == Printed(CountsLayout(x), t)
  {
    hide PutU32, PieceBytes;
    FieldsGoInFront();
    assert t == Printed(End, t);
    hide Printed;
  }

  /** The header of a file. */
  lemma HeaderIsPrinted(h: Header, t: Bytes)
    ensures PutHeader(h, t) == Printed(HeaderLayout(h), t)
  {
    hide PutU8, PutU32, PieceBytes, PutNumbers, PutCounts, NumbersLayout, CountsLayout, Printed;
    CountsArePrinted(h.counts, t);
    NumbersArePrinted(h.numbers, CountsLayout(h.counts), t);
    FieldsGoInFront();
  }

  // ---- whole files ----

  /** Records one after the other. */
  function PrintedAll<V>(xs: seq<V>, layout: V -> Layout, t: Bytes): Bytes {
    if xs == [] then t else Printed(layout(xs[0]), PrintedAll(xs[1..], layout, t))
  }

  lemma {:induction false} AllArePrinted<V(!new)>(xs: seq<V>, put: (V, Bytes) -> Bytes, layout: V -> Layout, t: Bytes)
    requires forall x, u :: put(x, u) == Printed(layout(x), u)
    ensures PutEach(xs, put, t) == PrintedAll(xs, layout, t)
  {
    hide Printed;
    if xs != [] {
      AllArePrinted(xs[1..], put, layout, t);
    }
  }

  /** The sections of a file, each map in key order. */
  function CatalogBytes(st: State, t: Bytes): Bytes {
    PrintedAll(SortedValues(st.services), ServiceLayout,
    PrintedAll(SortedValues(st.instances), InstanceLayout,
    PrintedAll(SortedValues(st.runtimes), RuntimeLayout,
    PrintedAll(SortedValues(st.runtimeInstances), RuntimeLayout,
    PrintedAll(SortedValues(st.endpoints), EndpointLayout,
    PrintedAll(SortedValues(st.protocols), ProtocolLayout,
    t))))))
  }

  function InventoryBytes(st: State, t: Bytes): Bytes {
    PrintedAll(SortedValues(st.backends), BackendLayout,
    PrintedAll(SortedValues(st.devices), DeviceLayout,
    PrintedAll(SortedValues(st.capabilities), CapabilityLayout,
    PrintedAll(SortedValues(st.nodes), NodeLayout,
    PrintedAll(SortedValues(st.leases), LeaseLayout,
    PrintedAll(SortedValues(st.tombstones), TombstoneLayout,
    PrintedAll(SortedValues(st.compatRecords), CompatibilityLayout,
    t)))))))
  }

  /** The histories, each in its own order. */
  function HistoriesBytes(st: State, t: Bytes): Bytes {
    PrintedAll(st.invalidations, InvalidationLayout,
    PrintedAll(st.instanceHistory, InstanceLayout,
    PrintedAll(st.runtimeHistory, RuntimeLayout,
    PrintedAll(st.endpointHistory, EndpointLayout,
    PrintedAll(st.capabilityHistory, CapabilityLayout,
    t)))))
  }

  lemma CatalogIsPrinted(st: State, t: Bytes)
    ensures PutCatalog(st, t) == CatalogBytes(st, t)
  {
    forall x, u ensures PutService(x, u) == Printed(ServiceLayout(x), u) { ServiceIsPrinted(x, u); }
    forall x, u ensures PutInstance(x, u) == Printed(InstanceLayout(x), u) { InstanceIsPrinted(x, u); }
    forall x, u ensures PutRuntime(x, u) == Printed(RuntimeLayout(x), u) { RuntimeIsPrinted(x, u); }
    forall x, u ensures PutEndpoint(x, u) == Printed(EndpointLayout(x), u) { EndpointIsPrinted(x, u); }
    forall x, u ensures PutProtocol(x, u) == Printed(ProtocolLayout(x), u) { ProtocolIsPrinted(x, u); }
    hide PutEach, PrintedAll, Printed, SortedValues, PutService, ServiceLayout, PutInstance, InstanceLayout, PutRuntime,
      RuntimeLayout, PutEndpoint, EndpointLayout, PutProtocol, ProtocolLayout;
    AllArePrinted(SortedValues(st.protocols), PutProtocol, ProtocolLayout, t);
    var u5 := PutEach(SortedValues(st.protocols), PutProtocol, t);
    AllArePrinted(SortedValues(st.endpoints), PutEndpoint, EndpointLayout, u5);
    var u4 := PutEach(SortedValues(st.endpoints), PutEndpoint, u5);
    AllArePrinted(SortedValues(st.runtimeInstances), PutRuntime, RuntimeLayout, u4);
    var u3 := PutEach(SortedValues(st.runtimeInstances), PutRuntime, u4);
    AllArePrinted(SortedValues(st.runtimes), PutRuntime, RuntimeLayout, u3);
    var u2 := PutEach(SortedValues(st.runtimes), PutRuntime, u3);
    AllArePrinted(SortedValues(st.instances), PutInstance, InstanceLayout, u2);
    var u1 := PutEach(SortedValues(st.instances), PutInstance, u2);
    AllArePrinted(SortedValues(st.services), PutService, ServiceLayout, u1);
  }

  lemma InventoryIsPrinted(st: State, t: Bytes)
    ensures PutInventory(st, t) == InventoryBytes(st, t)
  {
    forall x, u ensures PutBackend(x, u) == Printed(BackendLayout(x), u) { BackendIsPrinted(x, u); }
    forall x, u ensures PutDevice(x, u) == Printed(DeviceLayout(x), u) { DeviceIsPrinted(x, u); }
    forall x, u ensures PutCapability(x, u) == Printed(CapabilityLayout(x), u) { CapabilityIsPrinted(x, u); }
    forall x, u ensures PutNode(x, u) == Printed(NodeLayout(x), u) { NodeIsPrinted(x, u); }
    forall x, u ensures PutLease(x, u) == Printed(LeaseLayout(x), u) { LeaseIsPrinted(x, u); }
    forall x, u ensures PutTombstone(x, u) == Printed(TombstoneLayout(x), u) { TombstoneIsPrinted(x, u); }
    forall x, u ensures PutCompatibility(x, u) == Printed(CompatibilityLayout(x), u) { CompatibilityIsPrinted(x, u); }
    hide PutEach, PrintedAll, Printed, SortedValues, PutBackend, BackendLayout, PutDevice, DeviceLayout, PutCapability,
      CapabilityLayout, PutNode, NodeLayout, PutLease, LeaseLayout, PutTombstone, TombstoneLayout, PutCompatibility,
      CompatibilityLayout;
    AllArePrinted(SortedValues(st.compatRecords), PutCompatibility, CompatibilityLayout, t);
    var u6 := PutEach(SortedValues(st.compatRecords), PutCompatibility, t);
    AllArePrinted(SortedValues(st.tombstones), PutTombstone, TombstoneLayout, u6);
    var u5 := PutEach(SortedValues(st.tombstones), PutTombstone, u6);
    AllArePrinted(SortedValues(st.leases), PutLease, LeaseLayout, u5);
    var u4 := PutEach(SortedValues(st.leases), PutLease, u5);
    AllArePrinted(SortedValues(st.nodes), PutNode, NodeLayout, u4);
    var u3 := PutEach(SortedValues(st.nodes), PutNode, u4);
    AllArePrinted(SortedValues(st.capabilities), PutCapability, CapabilityLayout, u3);
    var u2 := PutEach(SortedValues(st.capabilities), PutCapability, u3);
    AllArePrinted(SortedValues(st.devices), PutDevice, DeviceLayout, u2);
    var u1 := PutEach(SortedValues(st.devices), PutDevice, u2);
    AllArePrinted(SortedValues(st.backends), PutBackend, BackendLayout, u1);
  }

  lemma HistoriesArePrinted(st: State, t: Bytes)
    ensures PutHistories(st, t) == HistoriesBytes(st, t)
  {
    forall x, u ensures PutInvalidation(x, u) == Printed(InvalidationLayout(x), u) { InvalidationIsPrinted(x, u); }
    forall x, u ensures PutInstance(x, u) == Printed(InstanceLayout(x), u) { InstanceIsPrinted(x, u); }
    forall x, u ensures PutRuntime(x, u) == Printed(RuntimeLayout(x), u) { RuntimeIsPrinted(x, u); }
    forall x, u ensures PutEndpoint(x, u) == Printed(EndpointLayout(x), u) { EndpointIsPrinted(x, u); }
    forall x, u ensures PutCapability(x, u) == Printed(CapabilityLayout(x), u) { CapabilityIsPrinted(x, u); }
    hide PutEach, PrintedAll, Printed, SortedValues, PutInvalidation, InvalidationLayout, PutInstance, InstanceLayout,
      PutRuntime, RuntimeLayout, PutEndpoint, EndpointLayout, PutCapability, CapabilityLayout;
    AllArePrinted(st.capabilityHistory, PutCapability, CapabilityLayout, t);
    var u4 := PutEach(st.capabilityHistory, PutCapability, t);
    AllArePrinted(st.endpointHistory, PutEndpoint, EndpointLayout, u4);
    var u3 := PutEach(st.endpointHistory, PutEndpoint, u4);
    AllArePrinted(st.runtimeHistory, PutRuntime, RuntimeLayout, u3);
    var u2 := PutEach(st.runtimeHistory, PutRuntime, u3);
    AllArePrinted(st.instanceHistory, PutInstance, InstanceLayout, u2);
    var u1 := PutEach(st.instanceHistory, PutInstance, u2);
    AllArePrinted(st.invalidations, PutInvalidation, InvalidationLayout, u1);
  }

  /** A file is its header, its sections, four bytes of checksum and the digest. */
  lemma FileIsPrinted(st: State, sha: Bytes -> Digest)
    ensures
      var content := Printed(HeaderLayout(Header(NumbersOf(st), CountsOf(st))),
                             CatalogBytes(st, InventoryBytes(st, HistoriesBytes(st, []))));
      Saved(st, sha) == content + Low(Crc32.Crc(content, 0), 4) + sha(content)
  {
    HistoriesArePrinted(st, []);
    InventoryIsPrinted(st, HistoriesBytes(st, []));
    CatalogIsPrinted(st, InventoryBytes(st, HistoriesBytes(st, [])));
    hide CatalogBytes, InventoryBytes, HistoriesBytes, PutCatalog, PutInventory, PutHistories, PutHeader,
      HeaderLayout, Printed,
         NumbersOf, CountsOf, Low, LittleEndian.Bytes32, Crc32.Crc;
    var body := CatalogBytes(st, InventoryBytes(st, HistoriesBytes(st, [])));
    HeaderIsPrinted(Header(NumbersOf(st), CountsOf(st)), body);
    LowFour(Crc32.Crc(Contents(st), 0));
  }
}
