/** The record printers and readers of src/persistence.cpp, field by field. */
module RecordCodec {
  import opened Base
  import opened Enums
  import opened Records
  import opened Codec

  // ---- services ----

  function PutService(x: Service, t: Bytes): Bytes {
    PutU64(x.serviceId, PutU8(x.kind as int,
      PutText(x.name, PutU64(x.generation, PutU64(x.owner, PutU8(x.lifecycle as int,
    PutVersion(x.version, PutStructured(x.apiVersion, PutStructured(x.abiVersion,
    PutKinds(x.requiredCapabilities, PutKinds(x.optionalCapabilities, PutIds(x.protocolRequirements,
    PutU64(x.compatibilityRef, PutU64(x.policyGeneration,
      PutProv(x.provenance, PutText(x.semanticDigest, t))))))))))))))))
  }

  function GetService(s: In): Got<Service> {
    var id := U64(s); var kind := U8(id.s); var name := Text(kind.s); var generation := U64(name.s);
    var owner := U64(generation.s); var lifecycle := U8(owner.s);
    var version := Version(lifecycle.s); var api := Structured(version.s); var abi := Structured(api.s);
    var required := Kinds(abi.s); var optional := Kinds(required.s); var protocols := FewIds(optional.s);
    var compat := U64(protocols.s); var policy := U64(compat.s); var prov := Prov(policy.s); var digest := Text(prov.s);
    Got(Service(id.v, kind.v as ServiceKind, name.v, generation.v, owner.v, lifecycle.v as Lifecycle,
                version.v, api.v, abi.v, required.v, optional.v, protocols.v, compat.v, policy.v, prov.v,
                digest.v), digest.s)
  }

  predicate ShortService(x: Service) {
    && ShortText(x.name) && ShortVersion(x.version) && ShortProv(x.provenance) && ShortText(x.semanticDigest)
    && |x.requiredCapabilities| <= 256 && |x.optionalCapabilities| <= 256 && |x.protocolRequirements| <= 256
  }

  lemma ServiceUndoes(x: Service, t: Bytes)
    requires ShortService(x)
    ensures GetService(In(PutService(x, t), true)) == Got(x, In(t, true))
  {
    hide U8, U32, U64, I64, Text, Version, Structured, Prov, Kinds, FewIds, PutU8, PutU32, PutU64, PutI64, PutText,
         PutVersion, PutStructured, PutProv, PutKinds, PutIds, ShortText, ShortVersion, ShortProv;
    ScalarsUndo();
    PartsUndo();
  }

  lemma ServiceIsLocal(t: Bytes)
    ensures Local(GetService, t)
  {
    hide U8, U32, U64, I64, Text, Version, Structured, Prov, Kinds, FewIds, More;
    ScalarsAreLocal(t);
    PartsAreLocal(t);
  }

  // ---- instances ----

  function PutInstance(x: Instance, t: Bytes): Bytes {
    PutU64(x.instanceId, PutU64(x.serviceId, PutU64(x.serviceGeneration, PutU64(x.instanceGeneration,
    PutU64(x.node, PutU64(x.worker, PutU64(x.boot, PutU64(x.process, PutU64(x.runtimeId, PutU64(x.runtimeInstance,
    PutIds(x.endpoints, PutIds(x.protocols, PutIds(x.capabilities,
    PutU8(x.health as int, PutU8(x.readiness as int, PutU8(x.freshness as int, PutU8(x.reachability as int,
    PutU64(x.lease, PutU8(x.lifecycle as int,
      PutVersion(x.version, PutU64(x.compatibilityRef, PutU64(x.authorityGeneration,
    PutI64(x.registeredMs, PutI64(x.updatedMs, PutI64(x.expiresMs,
    PutProv(x.provenance, PutText(x.semanticDigest, t)))))))))))))))))))))))))))
  }

  function GetInstance(s: In): Got<Instance> {
    var id := U64(s); var service := U64(id.s); var serviceGen := U64(service.s); var gen := U64(serviceGen.s);
    var node := U64(gen.s); var worker := U64(node.s); var boot := U64(worker.s); var process := U64(boot.s);
    var runtime := U64(process.s); var runtimeInstance := U64(runtime.s);
    var endpoints := Ids(runtimeInstance.s); var protocols := Ids(endpoints.s); var capabilities := Ids(protocols.s);
    var health := U8(capabilities.s); var readiness := U8(health.s); var freshness := U8(readiness.s);
    var reachability := U8(freshness.s); var lease := U64(reachability.s); var lifecycle := U8(lease.s);
    var version := Version(lifecycle.s); var compat := U64(version.s); var authority := U64(compat.s);
    var registered := I64(authority.s); var updated := I64(registered.s); var expires := I64(updated.s);
    var prov := Prov(expires.s); var digest := Text(prov.s);
    Got(Instance(id.v, service.v, serviceGen.v, gen.v, node.v, worker.v, boot.v, process.v, runtime.v,
      runtimeInstance.v,
                 endpoints.v, protocols.v, capabilities.v, health.v as Health, readiness.v as Readiness,
                 freshness.v as Freshness, reachability.v as Reachability, lease.v, lifecycle.v as Lifecycle,
                 version.v, compat.v, authority.v, registered.v, updated.v, expires.v, prov.v, digest.v), digest.s)
  }

  predicate ShortInstance(x: Instance) {
    && ShortVersion(x.version) && ShortProv(x.provenance) && ShortText(x.semanticDigest)
    && |x.endpoints| <= 4096 && |x.protocols| <= 4096 && |x.capabilities| <= 4096
  }

  lemma InstanceUndoes(x: Instance, t: Bytes)
    requires ShortInstance(x)
    ensures GetInstance(In(PutInstance(x, t), true)) == Got(x, In(t, true))
  {
    hide U8, U32, U64, I64, Text, Version, Prov, Ids, PutU8, PutU32, PutU64, PutI64, PutText, PutVersion, PutProv,
         PutIds, ShortText, ShortVersion, ShortProv;
    ScalarsUndo();
    PartsUndo();
  }

  lemma InstanceIsLocal(t: Bytes)
    ensures Local(GetInstance, t)
  {
    hide U8, U32, U64, I64, Text, Version, Prov, Ids, More;
    ScalarsAreLocal(t);
    PartsAreLocal(t);
  }

  // ---- runtimes ----

  function PutRuntime(x: Runtime, t: Bytes): Bytes {
    PutU64(x.runtimeId, PutU64(x.runtimeInstance, PutU64(x.generation, PutU8(x.kind as int, PutText(x.name,
    PutText(x.family, PutVersion(x.version, PutStructured(x.apiVersion, PutStructured(x.abiVersion,
    PutText(x.buildIdentity, PutText(x.compilerIdentity, PutIds(x.supportedProtocols, PutIds(x.capabilities,
    PutIds(x.backends, PutText(x.architecture, PutText(x.deviceConstraint, PutProv(x.provenance, PutU64(x.node,
    PutU64(x.ownerWorker, PutU64(x.ownerBoot, t))))))))))))))))))))
  }

  function GetRuntime(s: In): Got<Runtime> {
    var runtimeId := U64(s); var runtimeInstance := U64(runtimeId.s); var generation := U64(runtimeInstance.s);
    var kind := U8(generation.s); var name := Text(kind.s); var family := Text(name.s);
    var version := Version(family.s); var apiVersion := Structured(version.s);
    var abiVersion := Structured(apiVersion.s); var buildIdentity := Text(abiVersion.s);
    var compilerIdentity := Text(buildIdentity.s); var supportedProtocols := Ids(compilerIdentity.s);
    var capabilities := Ids(supportedProtocols.s); var backends := Ids(capabilities.s);
    var architecture := Text(backends.s); var deviceConstraint := Text(architecture.s);
    var provenance := Prov(deviceConstraint.s); var node := U64(provenance.s); var ownerWorker := U64(node.s);
    var ownerBoot := U64(ownerWorker.s);
    Got(Runtime(runtimeId.v, runtimeInstance.v, generation.v, kind.v as RuntimeKind, name.v, family.v,
      version.v, apiVersion.v, abiVersion.v, buildIdentity.v, compilerIdentity.v, supportedProtocols.v,
      capabilities.v, backends.v, architecture.v, deviceConstraint.v, provenance.v, node.v, ownerWorker.v,
      ownerBoot.v), ownerBoot.s)
  }

  predicate ShortRuntime(x: Runtime) {
    && ShortText(x.name) && ShortText(x.family) && ShortVersion(x.version) && ShortText(x.buildIdentity)
    && ShortText(x.compilerIdentity) && ShortText(x.architecture) && ShortText(x.deviceConstraint)
    && ShortProv(x.provenance)
    && |x.supportedProtocols| <= 4096 && |x.capabilities| <= 4096 && |x.backends| <= 4096
  }

  lemma RuntimeUndoes(x: Runtime, t: Bytes)
    requires ShortRuntime(x)
    ensures GetRuntime(In(PutRuntime(x, t), true)) == Got(x, In(t, true))
  {
    hide U8, U64, Text, Version, Structured, Prov, Ids, PutU8, PutU64, PutText, PutVersion, PutStructured, PutProv,
         PutIds, ShortText, ShortVersion, ShortProv;
    ScalarsUndo();
    PartsUndo();
  }

  lemma RuntimeIsLocal(t: Bytes)
    ensures Local(GetRuntime, t)
  {
    hide U8, U64, Text, Version, Structured, Prov, Ids, More;
    ScalarsAreLocal(t);
    PartsAreLocal(t);
  }

  // ---- endpoints: the port travels as 32 bits and is cut back to 16 ----

  function PutEndpoint(x: Endpoint, t: Bytes): Bytes {
    PutU64(x.endpointId, PutU64(x.serviceInstance, PutU64(x.generation, PutU64(x.protocol, PutText(x.locator,
    PutU8(x.transport as int, PutU32(x.port, PutU8(x.security, PutU8(x.health as int,
    PutU8(x.reachability as int, PutU8(x.freshness as int,
      PutProv(x.provenance, PutU64(x.authorityGeneration, t)))))))))))))
  }

  function GetEndpoint(s: In): Got<Endpoint> {
    var endpointId := U64(s); var serviceInstance := U64(endpointId.s);
    var generation := U64(serviceInstance.s); var protocol := U64(generation.s);
    var locator := Text(protocol.s); var transport := U8(locator.s); var port := U32(transport.s);
    var security := U8(port.s); var health := U8(security.s); var reachability := U8(health.s);
    var freshness := U8(reachability.s); var provenance := Prov(freshness.s);
    var authorityGeneration := U64(provenance.s);
    Got(Endpoint(endpointId.v, serviceInstance.v, generation.v, protocol.v, locator.v,
      transport.v as TransportKind, port.v % 0x1_0000, security.v, health.v as Health,
      reachability.v as Reachability, freshness.v as Freshness, provenance.v,
      authorityGeneration.v), authorityGeneration.s)
  }

  predicate ShortEndpoint(x: Endpoint) {
    && ShortText(x.locator) && ShortProv(x.provenance)
  }

  lemma EndpointUndoes(x: Endpoint, t: Bytes)
    requires ShortEndpoint(x)
    ensures GetEndpoint(In(PutEndpoint(x, t), true)) == Got(x, In(t, true))
  {
    hide U8, U32, U64, Text, Prov, PutU8, PutU32, PutU64, PutText, PutProv, ShortText, ShortProv;
    ScalarsUndo();
    PartsUndo();
  }

  lemma EndpointIsLocal(t: Bytes)
    ensures Local(GetEndpoint, t)
  {
    hide U8, U32, U64, Text, Prov, More;
    ScalarsAreLocal(t);
    PartsAreLocal(t);
  }

  // ---- protocols ----

  function PutProtocol(x: Protocol, t: Bytes): Bytes {
    PutU64(x.protocolId, PutText(x.name, PutU64(x.generation, PutStructured(x.version,
    PutStructured(x.compatibilityMin, PutText(x.framing, PutKinds(x.requiredCapabilities, PutI64(x.maxPayload,
    PutProv(x.provenance, t)))))))))
  }

  function GetProtocol(s: In): Got<Protocol> {
    var protocolId := U64(s); var name := Text(protocolId.s); var generation := U64(name.s);
    var version := Structured(generation.s); var compatibilityMin := Structured(version.s);
    var framing := Text(compatibilityMin.s); var requiredCapabilities := Kinds(framing.s);
    var maxPayload := I64(requiredCapabilities.s); var provenance := Prov(maxPayload.s);
    Got(Protocol(protocolId.v, name.v, generation.v, version.v, compatibilityMin.v, framing.v,
      requiredCapabilities.v, maxPayload.v, provenance.v), provenance.s)
  }

  predicate ShortProtocol(x: Protocol) {
    && ShortText(x.name) && ShortText(x.framing) && ShortProv(x.provenance)
    && |x.requiredCapabilities| <= 256
  }

  lemma ProtocolUndoes(x: Protocol, t: Bytes)
    requires ShortProtocol(x)
    ensures GetProtocol(In(PutProtocol(x, t), true)) == Got(x, In(t, true))
  {
    hide U64, I64, Text, Structured, Prov, Kinds, PutU64, PutI64, PutText, PutStructured, PutProv, PutKinds,
         ShortText, ShortProv;
    ScalarsUndo();
    PartsUndo();
  }

  lemma ProtocolIsLocal(t: Bytes)
    ensures Local(GetProtocol, t)
  {
    hide U64, I64, Text, Structured, Prov, Kinds, More;
    ScalarsAreLocal(t);
    PartsAreLocal(t);
  }

  // ---- backends ----

  function PutBackend(x: Backend, t: Bytes): Bytes {
    PutU64(x.backendId, PutU8(x.kind, PutU64(x.generation, PutU64(x.runtimeBinding, PutIds(x.capabilities,
    PutVersion(x.version, PutU8(x.health as int, PutU8(x.readiness as int, PutU8(x.freshness as int,
    PutProv(x.provenance, t))))))))))
  }

  function GetBackend(s: In): Got<Backend> {
    var backendId := U64(s); var kind := U8(backendId.s); var generation := U64(kind.s);
    var runtimeBinding := U64(generation.s); var capabilities := Ids(runtimeBinding.s);
    var version := Version(capabilities.s); var health := U8(version.s); var readiness := U8(health.s);
    var freshness := U8(readiness.s); var provenance := Prov(freshness.s);
    Got(Backend(backendId.v, kind.v, generation.v, runtimeBinding.v, capabilities.v, version.v,
      health.v as Health, readiness.v as Readiness, freshness.v as Freshness, provenance.v), provenance.s)
  }

  predicate ShortBackend(x: Backend) {
    && ShortVersion(x.version) && ShortProv(x.provenance)
    && |x.capabilities| <= 4096
  }

  lemma BackendUndoes(x: Backend, t: Bytes)
    requires ShortBackend(x)
    ensures GetBackend(In(PutBackend(x, t), true)) == Got(x, In(t, true))
  {
    hide U8, U64, Version, Prov, Ids, PutU8, PutU64, PutVersion, PutProv, PutIds, ShortVersion, ShortProv;
    ScalarsUndo();
    PartsUndo();
  }

  lemma BackendIsLocal(t: Bytes)
    ensures Local(GetBackend, t)
  {
    hide U8, U64, Version, Prov, Ids, More;
    ScalarsAreLocal(t);
    PartsAreLocal(t);
  }

  // ---- devices ----

  function PutDevice(x: Device, t: Bytes): Bytes {
    PutU64(x.deviceId, PutU64(x.generation, PutText(x.name, PutText(x.vendor, PutText(x.architecture,
    PutText(x.computeCapability, PutI64(x.totalMemory, PutI64(x.freeMemory, PutText(x.backendBinding,
    PutProv(x.provenance, PutU8(x.freshness as int, PutU8(x.health as int, t))))))))))))
  }

  function GetDevice(s: In): Got<Device> {
    var deviceId := U64(s); var generation := U64(deviceId.s); var name := Text(generation.s);
    var vendor := Text(name.s); var architecture := Text(vendor.s);
    var computeCapability := Text(architecture.s); var totalMemory := I64(computeCapability.s);
    var freeMemory := I64(totalMemory.s); var backendBinding := Text(freeMemory.s);
    var provenance := Prov(backendBinding.s); var freshness := U8(provenance.s); var health := U8(freshness.s);
    Got(Device(deviceId.v, generation.v, name.v, vendor.v, architecture.v, computeCapability.v, totalMemory.v,
      freeMemory.v, backendBinding.v, provenance.v, freshness.v as Freshness, health.v as Health), health.s)
  }

  predicate ShortDevice(x: Device) {
    && ShortText(x.name) && ShortText(x.vendor) && ShortText(x.architecture) && ShortText(x.computeCapability)
    && ShortText(x.backendBinding) && ShortProv(x.provenance)
  }

  lemma DeviceUndoes(x: Device, t: Bytes)
    requires ShortDevice(x)
    ensures GetDevice(In(PutDevice(x, t), true)) == Got(x, In(t, true))
  {
    hide U8, U64, I64, Text, Prov, PutU8, PutU64, PutI64, PutText, PutProv, ShortText, ShortProv;
    ScalarsUndo();
    PartsUndo();
  }

  lemma DeviceIsLocal(t: Bytes)
    ensures Local(GetDevice, t)
  {
    hide U8, U64, I64, Text, Prov, More;
    ScalarsAreLocal(t);
    PartsAreLocal(t);
  }

  // ---- capabilities ----

  function PutCapability(x: Capability, t: Bytes): Bytes {
    PutU64(x.capabilityId, PutU8(x.kind as int, PutU64(x.generation, PutVersion(x.version, PutValue(x.value,
    PutTexts(x.attributes, PutTexts(x.constraints, PutProv(x.provenance, PutU8(x.freshness as int,
    PutU64(x.authorityGeneration, t))))))))))
  }

  function GetCapability(s: In): Got<Capability> {
    var capabilityId := U64(s); var kind := U8(capabilityId.s); var generation := U64(kind.s);
    var version := Version(generation.s); var value := Value(version.s); var attributes := Texts(value.s);
    var constraints := Texts(attributes.s); var provenance := Prov(constraints.s);
    var freshness := U8(provenance.s); var authorityGeneration := U64(freshness.s);
    Got(Capability(capabilityId.v, kind.v as CapabilityKind, generation.v, version.v, value.v, attributes.v,
      constraints.v, provenance.v, freshness.v as Freshness, authorityGeneration.v), authorityGeneration.s)
  }

  predicate ShortCapability(x: Capability) {
    && ShortVersion(x.version) && ShortValue(x.value) && ShortTexts(x.attributes) && ShortTexts(x.constraints)
    && ShortProv(x.provenance)
  }

  lemma CapabilityUndoes(x: Capability, t: Bytes)
    requires ShortCapability(x)
    ensures GetCapability(In(PutCapability(x, t), true)) == Got(x, In(t, true))
  {
    hide U8, U64, Version, Prov, Texts, Value, PutU8, PutU64, PutVersion, PutProv, PutTexts, PutValue, ShortVersion,
         ShortValue, ShortTexts, ShortProv;
    ScalarsUndo();
    PartsUndo();
    ValueUndoes(x.value, PutTexts(x.attributes,
      PutTexts(x.constraints, PutProv(x.provenance, PutU8(x.freshness as int, PutU64(x.authorityGeneration, t))))));
  }

  lemma CapabilityIsLocal(t: Bytes)
    ensures Local(GetCapability, t)
  {
    hide U8, U64, Version, Prov, Texts, Value, More;
    ScalarsAreLocal(t);
    PartsAreLocal(t);
    forall s {:trigger Value(More(s, t))} | Value(s).s.ok
      ensures Value(More(s, t)) == Got(Value(s).v, More(Value(s).s, t))
    {
      ValueIsLocal(s, t);
    }
  }

  // ---- nodes ----

  function PutNode(x: Node, t: Bytes): Bytes {
    PutU64(x.nodeId, PutU64(x.generation, PutText(x.hostname, PutIds(x.runtimes, PutIds(x.serviceInstances,
    PutIds(x.devices, PutIds(x.backends, PutU8(x.health as int, PutU8(x.readiness as int,
    PutU8(x.freshness as int, PutU8(x.reachability as int, PutProv(x.provenance, t))))))))))))
  }

  function GetNode(s: In): Got<Node> {
    var nodeId := U64(s); var generation := U64(nodeId.s); var hostname := Text(generation.s);
    var runtimes := Ids(hostname.s); var serviceInstances := Ids(runtimes.s);
    var devices := Ids(serviceInstances.s); var backends := Ids(devices.s); var health := U8(backends.s);
    var readiness := U8(health.s); var freshness := U8(readiness.s); var reachability := U8(freshness.s);
    var provenance := Prov(reachability.s);
    Got(Node(nodeId.v, generation.v, hostname.v, runtimes.v, serviceInstances.v, devices.v, backends.v,
      health.v as Health, readiness.v as Readiness, freshness.v as Freshness, reachability.v as Reachability,
      provenance.v), provenance.s)
  }

  predicate ShortNode(x: Node) {
    && ShortText(x.hostname) && ShortProv(x.provenance)
    && |x.runtimes| <= 4096 && |x.serviceInstances| <= 4096 && |x.devices| <= 4096 && |x.backends| <= 4096
  }

  lemma NodeUndoes(x: Node, t: Bytes)
    requires ShortNode(x)
    ensures GetNode(In(PutNode(x, t), true)) == Got(x, In(t, true))
  {
    hide U8, U64, Text, Prov, Ids, PutU8, PutU64, PutText, PutProv, PutIds, ShortText, ShortProv;
    ScalarsUndo();
    PartsUndo();
  }

  lemma NodeIsLocal(t: Bytes)
    ensures Local(GetNode, t)
  {
    hide U8, U64, Text, Prov, Ids, More;
    ScalarsAreLocal(t);
    PartsAreLocal(t);
  }

  // ---- leases ----

  function PutLease(x: Lease, t: Bytes): Bytes {
    PutU64(x.leaseId, PutU64(x.generation, PutU64(x.serviceInstance, PutU64(x.boot, PutI64(x.issuedMs,
    PutI64(x.renewIntervalMs, PutU8(x.renewalPolicy, PutU8(x.state as int, PutI64(x.expiresMs,
    PutProv(x.provenance, PutU64(x.authorityGeneration, t)))))))))))
  }

  function GetLease(s: In): Got<Lease> {
    var leaseId := U64(s); var generation := U64(leaseId.s); var serviceInstance := U64(generation.s);
    var boot := U64(serviceInstance.s); var issuedMs := I64(boot.s); var renewIntervalMs := I64(issuedMs.s);
    var renewalPolicy := U8(renewIntervalMs.s); var state := U8(renewalPolicy.s); var expiresMs := I64(state.s);
    var provenance := Prov(expiresMs.s); var authorityGeneration := U64(provenance.s);
    Got(Lease(leaseId.v, generation.v, serviceInstance.v, boot.v, issuedMs.v, renewIntervalMs.v,
      renewalPolicy.v, state.v as LeaseState, expiresMs.v, provenance.v,
      authorityGeneration.v), authorityGeneration.s)
  }

  predicate ShortLease(x: Lease) {
    && ShortProv(x.provenance)
  }

  lemma LeaseUndoes(x: Lease, t: Bytes)
    requires ShortLease(x)
    ensures GetLease(In(PutLease(x, t), true)) == Got(x, In(t, true))
  {
    hide U8, U64, I64, Prov, PutU8, PutU64, PutI64, PutProv, ShortProv;
    ScalarsUndo();
    PartsUndo();
  }

  lemma LeaseIsLocal(t: Bytes)
    ensures Local(GetLease, t)
  {
    hide U8, U64, I64, Prov, More;
    ScalarsAreLocal(t);
    PartsAreLocal(t);
  }

  // ---- tombstones ----

  function PutTombstone(x: Tombstone, t: Bytes): Bytes {
    PutU64(x.tombstoneId, PutText(x.targetKind, PutText(x.targetText, PutU64(x.generationFloor, PutU64(x.epoch,
    PutU64(x.boot, PutU64(x.authorityGeneration,
      PutText(x.reason, PutI64(x.timestampMs, PutProv(x.provenance, t))))))))))
  }

  function GetTombstone(s: In): Got<Tombstone> {
    var tombstoneId := U64(s); var targetKind := Text(tombstoneId.s); var targetText := Text(targetKind.s);
    var generationFloor := U64(targetText.s); var epoch := U64(generationFloor.s); var boot := U64(epoch.s);
    var authorityGeneration := U64(boot.s); var reason := Text(authorityGeneration.s);
    var timestampMs := I64(reason.s); var provenance := Prov(timestampMs.s);
    Got(Tombstone(tombstoneId.v, targetKind.v, targetText.v, generationFloor.v, epoch.v, boot.v,
      authorityGeneration.v, reason.v, timestampMs.v, provenance.v), provenance.s)
  }

  predicate ShortTombstone(x: Tombstone) {
    && ShortText(x.targetKind) && ShortText(x.targetText) && ShortText(x.reason) && ShortProv(x.provenance)
  }

  lemma TombstoneUndoes(x: Tombstone, t: Bytes)
    requires ShortTombstone(x)
    ensures GetTombstone(In(PutTombstone(x, t), true)) == Got(x, In(t, true))
  {
    hide U64, I64, Text, Prov, PutU64, PutI64, PutText, PutProv, ShortText, ShortProv;
    ScalarsUndo();
    PartsUndo();
  }

  lemma TombstoneIsLocal(t: Bytes)
    ensures Local(GetTombstone, t)
  {
    hide U64, I64, Text, Prov, More;
    ScalarsAreLocal(t);
    PartsAreLocal(t);
  }

  // ---- invalidations ----

  function PutInvalidation(x: Invalidation, t: Bytes): Bytes {
    PutText(x.targetKind, PutText(x.targetText, PutU64(x.generation, PutU64(x.epoch, PutU64(x.boot,
    PutU64(x.authorityGeneration, PutText(x.reason, PutI64(x.timestampMs, PutProv(x.provenance, t)))))))))
  }

  function GetInvalidation(s: In): Got<Invalidation> {
    var targetKind := Text(s); var targetText := Text(targetKind.s); var generation := U64(targetText.s);
    var epoch := U64(generation.s); var boot := U64(epoch.s); var authorityGeneration := U64(boot.s);
    var reason := Text(authorityGeneration.s); var timestampMs := I64(reason.s);
    var provenance := Prov(timestampMs.s);
    Got(Invalidation(targetKind.v, targetText.v, generation.v, epoch.v, boot.v, authorityGeneration.v,
      reason.v, timestampMs.v, provenance.v), provenance.s)
  }

  predicate ShortInvalidation(x: Invalidation) {
    && ShortText(x.targetKind) && ShortText(x.targetText) && ShortText(x.reason) && ShortProv(x.provenance)
  }

  lemma InvalidationUndoes(x: Invalidation, t: Bytes)
    requires ShortInvalidation(x)
    ensures GetInvalidation(In(PutInvalidation(x, t), true)) == Got(x, In(t, true))
  {
    hide U64, I64, Text, Prov, PutU64, PutI64, PutText, PutProv, ShortText, ShortProv;
    ScalarsUndo();
    PartsUndo();
  }

  lemma InvalidationIsLocal(t: Bytes)
    ensures Local(GetInvalidation, t)
  {
    hide U64, I64, Text, Prov, More;
    ScalarsAreLocal(t);
    PartsAreLocal(t);
  }

  // ---- compatibility records ----

  function PutCompatibility(x: Compatibility, t: Bytes): Bytes {
    PutU64(x.compatibilityId, PutU64(x.generation, PutU8(x.outcome, PutU8(x.freshness as int,
    PutProv(x.provenance, t)))))
  }

  function GetCompatibility(s: In): Got<Compatibility> {
    var compatibilityId := U64(s); var generation := U64(compatibilityId.s); var outcome := U8(generation.s);
    var freshness := U8(outcome.s); var provenance := Prov(freshness.s);
    Got(Compatibility(compatibilityId.v, generation.v, outcome.v, freshness.v as Freshness,
      provenance.v), provenance.s)
  }

  predicate ShortCompatibility(x: Compatibility) {
    && ShortProv(x.provenance)
  }

  lemma CompatibilityUndoes(x: Compatibility, t: Bytes)
    requires ShortCompatibility(x)
    ensures GetCompatibility(In(PutCompatibility(x, t), true)) == Got(x, In(t, true))
  {
    hide U8, U64, Prov, PutU8, PutU64, PutProv, ShortProv;
    ScalarsUndo();
    PartsUndo();
  }

  lemma CompatibilityIsLocal(t: Bytes)
    ensures Local(GetCompatibility, t)
  {
    hide U8, U64, Prov, More;
    ScalarsAreLocal(t);
    PartsAreLocal(t);
  }
}
