/** The descriptor records of include/runtimeregistry/model.hpp, capability.hpp and provenance.hpp.
    Identities and generations are 64-bit numbers; identity zero means "none". */
module Records {
  import opened Base
  import opened Enums
  import opened SemVer

  type Id = u64
  type Generation = u64

  datatype Provenance = Provenance(kind: EvidenceKind, source: Bytes, timestampMs: i64, digest: Bytes) {
    predicate IsPhysical() {
      kind == EvidenceKind.MEASURED || kind == EvidenceKind.REPORTED || kind == EvidenceKind.DERIVED
    }
  }

  /** A typed value; `number` and the range bounds are IEEE 754 bit patterns. */
  datatype CapabilityValue = CapabilityValue(
    kind: CapabilityValueKind, boolean: bool, integer: i64, number: u64,
    hasMin: bool, hasMax: bool, rangeMin: u64, rangeMax: u64,
    text: Bytes, structured: seq<CapabilityField>)

  datatype CapabilityField = CapabilityField(key: Bytes, value: CapabilityValue)

  datatype Capability = Capability(
    capabilityId: Id, kind: CapabilityKind, generation: Generation, version: SemanticVersion,
    value: CapabilityValue, attributes: seq<Bytes>, constraints: seq<Bytes>,
    provenance: Provenance, freshness: Freshness, authorityGeneration: Generation)

  datatype Endpoint = Endpoint(
    endpointId: Id, serviceInstance: Id, generation: Generation, protocol: Id, locator: Bytes,
    transport: TransportKind, port: u16, security: u8,
    health: Health, reachability: Reachability, freshness: Freshness,
    provenance: Provenance, authorityGeneration: Generation)

  datatype Protocol = Protocol(
    protocolId: Id, name: Bytes, generation: Generation,
    version: StructuredVersion, compatibilityMin: StructuredVersion, framing: Bytes,
    requiredCapabilities: seq<CapabilityKind>, maxPayload: i64, provenance: Provenance)

  datatype Runtime = Runtime(
    runtimeId: Id, runtimeInstance: Id, generation: Generation, kind: RuntimeKind,
    name: Bytes, family: Bytes, version: SemanticVersion,
    apiVersion: StructuredVersion, abiVersion: StructuredVersion,
    buildIdentity: Bytes, compilerIdentity: Bytes,
    supportedProtocols: seq<Id>, capabilities: seq<Id>, backends: seq<Id>,
    architecture: Bytes, deviceConstraint: Bytes, provenance: Provenance,
    node: Id, ownerWorker: Id, ownerBoot: Id)

  datatype Service = Service(
    serviceId: Id, kind: ServiceKind, name: Bytes, generation: Generation, owner: Id, lifecycle: Lifecycle,
    version: SemanticVersion, apiVersion: StructuredVersion, abiVersion: StructuredVersion,
    requiredCapabilities: seq<CapabilityKind>, optionalCapabilities: seq<CapabilityKind>,
    protocolRequirements: seq<Id>, compatibilityRef: Id, policyGeneration: Generation,
    provenance: Provenance, semanticDigest: Bytes)

  datatype Instance = Instance(
    instanceId: Id, serviceId: Id, serviceGeneration: Generation, instanceGeneration: Generation,
    node: Id, worker: Id, boot: Id, process: Id, runtimeId: Id, runtimeInstance: Id,
    endpoints: seq<Id>, protocols: seq<Id>, capabilities: seq<Id>,
    health: Health, readiness: Readiness, freshness: Freshness, reachability: Reachability,
    lease: Id, lifecycle: Lifecycle, version: SemanticVersion,
    compatibilityRef: Id, authorityGeneration: Generation,
    registeredMs: i64, updatedMs: i64, expiresMs: i64,
    provenance: Provenance, semanticDigest: Bytes)

  datatype Lease = Lease(
    leaseId: Id, generation: Generation, serviceInstance: Id, boot: Id,
    issuedMs: i64, renewIntervalMs: i64, renewalPolicy: u8, state: LeaseState,
    expiresMs: i64, provenance: Provenance, authorityGeneration: Generation)

  datatype Tombstone = Tombstone(
    tombstoneId: Id, targetKind: Bytes, targetText: Bytes, generationFloor: Generation,
    epoch: Generation, boot: Id, authorityGeneration: Generation,
    reason: Bytes, timestampMs: i64, provenance: Provenance)

  datatype Invalidation = Invalidation(
    targetKind: Bytes, targetText: Bytes, generation: Generation,
    epoch: Generation, boot: Id, authorityGeneration: Generation,
    reason: Bytes, timestampMs: i64, provenance: Provenance)

  datatype Backend = Backend(
    backendId: Id, kind: u8, generation: Generation, runtimeBinding: Id, capabilities: seq<Id>,
    version: SemanticVersion, health: Health, readiness: Readiness, freshness: Freshness,
    provenance: Provenance)

  datatype Device = Device(
    deviceId: Id, generation: Generation, name: Bytes, vendor: Bytes, architecture: Bytes,
    computeCapability: Bytes, totalMemory: i64, freeMemory: i64, backendBinding: Bytes,
    provenance: Provenance, freshness: Freshness, health: Health)

  datatype Node = Node(
    nodeId: Id, generation: Generation, hostname: Bytes,
    runtimes: seq<Id>, serviceInstances: seq<Id>, devices: seq<Id>, backends: seq<Id>,
    health: Health, readiness: Readiness, freshness: Freshness, reachability: Reachability,
    provenance: Provenance)

  datatype Compatibility = Compatibility(
    compatibilityId: Id, generation: Generation, outcome: u8, freshness: Freshness,
    provenance: Provenance)

  // ---- equality as the source defines it ----

  /** `operator==` of semantic versions: equal precedence. */
  predicate SameVersion(a: SemanticVersion, b: SemanticVersion) {
    CompareOf(a, b) == 0
  }

  /** IEEE 754 equality of two bit patterns: a NaN equals nothing and the zeros are equal. */
  predicate SameDouble(a: u64, b: u64) {
    && a % TWO_63 <= 0x7FF0_0000_0000_0000
    && b % TWO_63 <= 0x7FF0_0000_0000_0000
    && (a == b || (a % TWO_63 == 0 && b % TWO_63 == 0))
  }

  /** `operator==` of capability values: only the shape that is active counts. */
  predicate SameValue(a: CapabilityValue, b: CapabilityValue)
    decreases a, 0
  {
    a.kind == b.kind &&
    if a.kind == CapabilityValueKind.BOOLEAN then a.boolean == b.boolean
    else if a.kind == CapabilityValueKind.INTEGER then a.integer == b.integer
    else if a.kind == CapabilityValueKind.REAL then SameDouble(a.number, b.number)
    else if a.kind == CapabilityValueKind.RANGE then
      a.hasMin == b.hasMin && a.hasMax == b.hasMax && SameDouble(a.rangeMin, b.rangeMin)
      && SameDouble(a.rangeMax, b.rangeMax)
    else if a.kind == CapabilityValueKind.STRING then a.text == b.text
    else if a.kind == CapabilityValueKind.STRUCTURED then SameFields(a.structured, b.structured)
    else a.kind == CapabilityValueKind.UNKNOWN
  }

  predicate SameFields(a: seq<CapabilityField>, b: seq<CapabilityField>)
    decreases a, 0
  {
    |a| == |b| &&
    (a == [] || (a[0].key == b[0].key && SameValue(a[0].value, b[0].value) && SameFields(a[1..], b[1..])))
  }

  predicate SameService(a: Service, b: Service) {
    SameVersion(a.version, b.version) && a.(version := b.version) == b
  }

  predicate SameRuntime(a: Runtime, b: Runtime) {
    SameVersion(a.version, b.version) && a.(version := b.version) == b
  }

  predicate SameInstance(a: Instance, b: Instance) {
    SameVersion(a.version, b.version) && a.(version := b.version) == b
  }

  predicate SameCapability(a: Capability, b: Capability) {
    && SameVersion(a.version, b.version) && SameValue(a.value, b.value)
    && a.(version := b.version, value := b.value) == b
  }

  // ---- the identity a record is filed under ----

  function ServiceKey(x: Service): Id { x.serviceId }
  function InstanceKey(x: Instance): Id { x.instanceId }
  function RuntimeKey(x: Runtime): Id { x.runtimeId }
  function RuntimeInstanceKey(x: Runtime): Id { x.runtimeInstance }
  function EndpointKey(x: Endpoint): Id { x.endpointId }
  function ProtocolKey(x: Protocol): Id { x.protocolId }
  function BackendKey(x: Backend): Id { x.backendId }
  function DeviceKey(x: Device): Id { x.deviceId }
  function CapabilityKey(x: Capability): Id { x.capabilityId }
  function NodeKey(x: Node): Id { x.nodeId }
  function LeaseKey(x: Lease): Id { x.leaseId }
  function TombstoneKey(x: Tombstone): Id { x.tombstoneId }
  function CompatibilityKey(x: Compatibility): Id { x.compatibilityId }

  /** Every record is filed under its own identity. */
  predicate Filed<V>(m: map<Id, V>, key: V -> Id) {
    forall k :: k in m ==> key(m[k]) == k
  }
}
