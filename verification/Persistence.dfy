/** The save format of src/persistence.cpp and the recovery that ends a load.

    The digest of the trailer is a parameter: any deterministic function of the content to 32 bytes. */
module Persistence {
  import opened Base
  import opened Enums
  import opened Records
  import opened Codec
  import opened RecordCodec
  import opened Sections
  import opened RegistryModel
  import opened RegistryInvariants
  import Crc32
  import LittleEndian

  const PERSIST_MAGIC: u32 := 0x52525031
  const PERSIST_VERSION: u8 := 1

  // ---- the header ----

  datatype Counts = Counts(
    services: u32, instances: u32, runtimes: u32, runtimeInstances: u32, endpoints: u32, protocols: u32,
    backends: u32, devices: u32, capabilities: u32, nodes: u32, leases: u32, tombstones: u32, compatRecords: u32,
    invalidations: u32, instanceHistory: u32, runtimeHistory: u32, endpointHistory: u32, capabilityHistory: u32)

  /** The generations and counters of a save; process authority is not saved. */
  datatype Numbers = Numbers(
    epoch: Generation, registryGeneration: Generation, recordGeneration: Generation,
    gens: Generations, nextBoot: u64, nextId: u64)

  function NumbersOf(st: State): Numbers {
    Numbers(st.authority.epoch, st.authority.registryGeneration, st.authority.recordGeneration, st.authority.gens,
      st.nextBoot, st.nextId)
  }

  function PutNumbers(x: Numbers, t: Bytes): Bytes {
    PutU64(x.epoch, PutU64(x.registryGeneration, PutU64(x.recordGeneration,
    PutU64(x.gens.service, PutU64(x.gens.instance, PutU64(x.gens.runtime, PutU64(x.gens.runtimeInstance,
    PutU64(x.gens.endpoint, PutU64(x.gens.protocol, PutU64(x.gens.backend, PutU64(x.gens.device,
    PutU64(x.gens.capability, PutU64(x.gens.lease, PutU64(x.gens.node, PutU64(x.gens.compat,
    PutU64(x.gens.trust, PutU64(x.gens.authority,
    PutU64(x.nextBoot, PutU64(x.nextId, t)))))))))))))))))))
  }

  function GetNumbers(s: In): (r: Got<Numbers>)
    ensures !s.ok ==> !r.s.ok
  {
    var epoch := U64(s); var registry := U64(epoch.s); var record := U64(registry.s);
    var service := U64(record.s); var instance := U64(service.s); var runtime := U64(instance.s);
    var runtimeInstance := U64(runtime.s);
    var endpoint := U64(runtimeInstance.s); var protocol := U64(endpoint.s); var backend := U64(protocol.s);
    var device := U64(backend.s);
    var capability := U64(device.s); var lease := U64(capability.s); var node := U64(lease.s);
    var compat := U64(node.s);
    var trust := U64(compat.s); var authority := U64(trust.s);
    var boot := U64(authority.s); var id := U64(boot.s);
    Got(Numbers(epoch.v, registry.v, record.v,
                Generations(service.v, instance.v, runtime.v, runtimeInstance.v, endpoint.v, protocol.v,
                  backend.v, device.v,
                            capability.v, lease.v, node.v, compat.v, trust.v, authority.v), boot.v, id.v), id.s)
  }

  /** `rd_count` */
  function Count(s: In): (r: Got<u32>)
    ensures !s.ok ==> !r.s.ok
  {
    var g := U32(s);
    Got(g.v, if g.v > MAX_RECORDS then Fail(g.s) else g.s)
  }

  function PutCounts(x: Counts, t: Bytes): Bytes {
    PutU32(x.services, PutU32(x.instances, PutU32(x.runtimes,
      PutU32(x.runtimeInstances, PutU32(x.endpoints, PutU32(x.protocols,
    PutU32(x.backends, PutU32(x.devices, PutU32(x.capabilities, PutU32(x.nodes, PutU32(x.leases, PutU32(x.tombstones,
    PutU32(x.compatRecords, PutU32(x.invalidations, PutU32(x.instanceHistory, PutU32(x.runtimeHistory,
    PutU32(x.endpointHistory, PutU32(x.capabilityHistory, t))))))))))))))))))
  }

  function GetCounts(s: In): (r: Got<Counts>)
    ensures !s.ok ==> !r.s.ok
  {
    var services := Count(s); var instances := Count(services.s); var runtimes := Count(instances.s);
    var runtimeInstances := Count(runtimes.s); var endpoints := Count(runtimeInstances.s);
    var protocols := Count(endpoints.s);
    var backends := Count(protocols.s); var devices := Count(backends.s); var capabilities := Count(devices.s);
    var nodes := Count(capabilities.s); var leases := Count(nodes.s); var tombstones := Count(leases.s);
    var compat := Count(tombstones.s); var invalidations := Count(compat.s);
    var ih := Count(invalidations.s); var rh := Count(ih.s); var eh := Count(rh.s); var ch := Count(eh.s);
    Got(Counts(services.v, instances.v, runtimes.v, runtimeInstances.v, endpoints.v, protocols.v, backends.v, devices.v,
               capabilities.v, nodes.v, leases.v, tombstones.v, compat.v, invalidations.v, ih.v, rh.v,
               eh.v, ch.v), ch.s)
  }

  datatype Header = Header(numbers: Numbers, counts: Counts)

  function PutHeader(h: Header, t: Bytes): Bytes {
    PutU32(PERSIST_MAGIC, PutU8(PERSIST_VERSION, PutNumbers(h.numbers, PutCounts(h.counts, t))))
  }

  function GetHeader(s: In): (r: Got<Header>)
    ensures !s.ok ==> !r.s.ok
  {
    var magic := U32(s); var version := U8(magic.s); var numbers := GetNumbers(version.s);
    var counts := GetCounts(numbers.s);
    Got(Header(numbers.v, counts.v),
        if magic.v == PERSIST_MAGIC && version.v == PERSIST_VERSION then counts.s else Fail(counts.s))
  }

  predicate Countable(x: Counts) {
    && x.services <= MAX_RECORDS && x.instances <= MAX_RECORDS && x.runtimes <= MAX_RECORDS
    && x.runtimeInstances <= MAX_RECORDS
    && x.endpoints <= MAX_RECORDS && x.protocols <= MAX_RECORDS && x.backends <= MAX_RECORDS && x.devices <= MAX_RECORDS
    && x.capabilities <= MAX_RECORDS && x.nodes <= MAX_RECORDS && x.leases <= MAX_RECORDS && x.tombstones <= MAX_RECORDS
    && x.compatRecords <= MAX_RECORDS && x.invalidations <= MAX_RECORDS && x.instanceHistory <= MAX_RECORDS
    && x.runtimeHistory <= MAX_RECORDS && x.endpointHistory <= MAX_RECORDS && x.capabilityHistory <= MAX_RECORDS
  }

  lemma NumbersUndo(x: Numbers, t: Bytes)
    ensures GetNumbers(In(PutNumbers(x, t), true)) == Got(x, In(t, true))
  {
    hide U64, PutU64;
    ScalarsUndo();
  }

  lemma CountsUndo(x: Counts, t: Bytes)
    requires Countable(x)
    ensures GetCounts(In(PutCounts(x, t), true)) == Got(x, In(t, true))
  {
    hide U32, PutU32, Count;
    forall v: u32, u | v <= MAX_RECORDS ensures Count(In(PutU32(v, u), true)) == Got(v, In(u, true)) {
      CountUndoes(v, u);
    }
  }

  lemma CountUndoes(v: u32, t: Bytes)
    requires v <= MAX_RECORDS
    ensures Count(In(PutU32(v, t), true)) == Got(v, In(t, true))
  {
    hide U32, PutU32;
    ScalarsUndo();
  }

  lemma HeaderUndoes(h: Header, t: Bytes)
    requires Countable(h.counts)
    ensures GetHeader(In(PutHeader(h, t), true)) == Got(h, In(t, true))
  {
    hide U8, U32, PutU8, PutU32, GetNumbers, PutNumbers, GetCounts, PutCounts;
    ScalarsUndo();
    NumbersUndo(h.numbers, PutCounts(h.counts, t));
    CountsUndo(h.counts, t);
  }

  lemma HeaderIsLocal(s: In, t: Bytes)
    requires GetHeader(s).s.ok
    ensures GetHeader(More(s, t)) == Got(GetHeader(s).v, More(GetHeader(s).s, t))
  {
    hide U8, U32, More, GetNumbers, GetCounts;
    ScalarsAreLocal(t);
    NumbersAreLocal(U8(U32(s).s).s, t);
    CountsAreLocal(GetNumbers(U8(U32(s).s).s).s, t);
  }

  lemma NumbersAreLocal(s: In, t: Bytes)
    requires GetNumbers(s).s.ok
    ensures GetNumbers(More(s, t)) == Got(GetNumbers(s).v, More(GetNumbers(s).s, t))
  {
    hide U64, More;
    ScalarsAreLocal(t);
  }

  lemma CountIsLocal(s: In, t: Bytes)
    requires Count(s).s.ok
    ensures Count(More(s, t)) == Got(Count(s).v, More(Count(s).s, t))
  {
    hide U32;
    ScalarsAreLocal(t);
  }

  lemma CountsAreLocal(s: In, t: Bytes)
    requires GetCounts(s).s.ok
    ensures GetCounts(More(s, t)) == Got(GetCounts(s).v, More(GetCounts(s).s, t))
  {
    hide Count, More;
    forall u | Count(u).s.ok ensures Count(More(u, t)) == Got(Count(u).v, More(Count(u).s, t)) {
      CountIsLocal(u, t);
    }
  }

  // ---- the records ----

  /** A load under way: what the registry holds so far, the rest of the input, and whether a record
      was refused. */
  datatype Loading = Loading(st: State, s: In, failed: bool)

  predicate Any<V>(x: V) {
    true
  }

  function StoreMap<V>(l: Loading, n: nat, get: In -> Got<V>, key: V -> Id, valid: V -> bool,
      store: (State, map<Id, V>) -> State): Loading {
    if l.failed then l
    else
      var f := Fill(n, get, key, valid, map[], l.s);
      Loading(store(l.st, f.m), f.s, f.failed)
  }

  function StoreList<V>(l: Loading, n: nat, get: In -> Got<V>, store: (State, seq<V>) -> State): Loading {
    if l.failed then l
    else
      var f := Append(n, get, [], l.s);
      Loading(store(l.st, f.list), f.s, f.failed)
  }

  function WithServices(st: State, m: map<Id, Service>): State { st.(services := m) }
  function WithInstances(st: State, m: map<Id, Instance>): State { st.(instances := m) }
  function WithRuntimes(st: State, m: map<Id, Runtime>): State { st.(runtimes := m) }
  function WithRuntimeInstances(st: State, m: map<Id, Runtime>): State { st.(runtimeInstances := m) }
  function WithEndpoints(st: State, m: map<Id, Endpoint>): State { st.(endpoints := m) }
  function WithProtocols(st: State, m: map<Id, Protocol>): State { st.(protocols := m) }
  function WithBackends(st: State, m: map<Id, Backend>): State { st.(backends := m) }
  function WithDevices(st: State, m: map<Id, Device>): State { st.(devices := m) }
  function WithCapabilities(st: State, m: map<Id, Capability>): State { st.(capabilities := m) }
  function WithNodes(st: State, m: map<Id, Node>): State { st.(nodes := m) }
  function WithLeases(st: State, m: map<Id, Lease>): State { st.(leases := m) }
  function WithTombstones(st: State, m: map<Id, Tombstone>): State { st.(tombstones := m) }
  function WithCompatRecords(st: State, m: map<Id, Compatibility>): State { st.(compatRecords := m) }
  function WithInvalidations(st: State, xs: seq<Invalidation>): State { st.(invalidations := xs) }
  function WithInstanceHistory(st: State, xs: seq<Instance>): State { st.(instanceHistory := xs) }
  function WithRuntimeHistory(st: State, xs: seq<Runtime>): State { st.(runtimeHistory := xs) }
  function WithEndpointHistory(st: State, xs: seq<Endpoint>): State { st.(endpointHistory := xs) }
  function WithCapabilityHistory(st: State, xs: seq<Capability>): State { st.(capabilityHistory := xs) }

  function PutCatalog(st: State, t: Bytes): Bytes {
    PutMap(st.services, PutService,
    PutMap(st.instances, PutInstance,
    PutMap(st.runtimes, PutRuntime,
    PutMap(st.runtimeInstances, PutRuntime,
    PutMap(st.endpoints, PutEndpoint,
    PutMap(st.protocols, PutProtocol,
    t))))))
  }

  function LoadCatalog(l: Loading, c: Counts): Loading {
    var l1 := StoreMap(l, c.services, GetService, ServiceKey, KnownKind, WithServices);
    var l2 := StoreMap(l1, c.instances, GetInstance, InstanceKey, Any<Instance>, WithInstances);
    var l3 := StoreMap(l2, c.runtimes, GetRuntime, RuntimeKey, Any<Runtime>, WithRuntimes);
    var l4 := StoreMap(l3, c.runtimeInstances, GetRuntime, RuntimeInstanceKey, Any<Runtime>, WithRuntimeInstances);
    var l5 := StoreMap(l4, c.endpoints, GetEndpoint, EndpointKey, Any<Endpoint>, WithEndpoints);
    StoreMap(l5, c.protocols, GetProtocol, ProtocolKey, Any<Protocol>, WithProtocols)
  }

  function PutInventory(st: State, t: Bytes): Bytes {
    PutMap(st.backends, PutBackend,
    PutMap(st.devices, PutDevice,
    PutMap(st.capabilities, PutCapability,
    PutMap(st.nodes, PutNode,
    PutMap(st.leases, PutLease,
    PutMap(st.tombstones, PutTombstone,
    PutMap(st.compatRecords, PutCompatibility,
    t)))))))
  }

  function LoadInventory(l: Loading, c: Counts): Loading {
    var l1 := StoreMap(l, c.backends, GetBackend, BackendKey, Any<Backend>, WithBackends);
    var l2 := StoreMap(l1, c.devices, GetDevice, DeviceKey, Any<Device>, WithDevices);
    var l3 := StoreMap(l2, c.capabilities, GetCapability, CapabilityKey, Any<Capability>, WithCapabilities);
    var l4 := StoreMap(l3, c.nodes, GetNode, NodeKey, Any<Node>, WithNodes);
    var l5 := StoreMap(l4, c.leases, GetLease, LeaseKey, Any<Lease>, WithLeases);
    var l6 := StoreMap(l5, c.tombstones, GetTombstone, TombstoneKey, Any<Tombstone>, WithTombstones);
    StoreMap(l6, c.compatRecords, GetCompatibility, CompatibilityKey, Any<Compatibility>, WithCompatRecords)
  }

  function PutHistories(st: State, t: Bytes): Bytes {
    PutEach(st.invalidations, PutInvalidation,
    PutEach(st.instanceHistory, PutInstance,
    PutEach(st.runtimeHistory, PutRuntime,
    PutEach(st.endpointHistory, PutEndpoint,
    PutEach(st.capabilityHistory, PutCapability,
    t)))))
  }

  function LoadHistories(l: Loading, c: Counts): Loading {
    var l1 := StoreList(l, c.invalidations, GetInvalidation, WithInvalidations);
    var l2 := StoreList(l1, c.instanceHistory, GetInstance, WithInstanceHistory);
    var l3 := StoreList(l2, c.runtimeHistory, GetRuntime, WithRuntimeHistory);
    var l4 := StoreList(l3, c.endpointHistory, GetEndpoint, WithEndpointHistory);
    StoreList(l4, c.capabilityHistory, GetCapability, WithCapabilityHistory)
  }

  function PutMap<V>(m: map<Id, V>, put: (V, Bytes) -> Bytes, t: Bytes): Bytes {
    PutEach(SortedValues(m), put, t)
  }

  // ---- reading undoes writing, section by section ----

  lemma ValuesShort<V>(m: map<Id, V>, short: V -> bool)
    requires AllShort(m, short)
    ensures EachShort(SortedValues(m), short)
  {
    SortedKeysAre(m.Keys);
    hide SortedKeys;
    assert forall i :: 0 <= i < |SortedValues(m)| ==> SortedKeys(m.Keys)[i] in m;
  }

  lemma ServicesUndo(xs: seq<Service>)
    requires EachShort(xs, ShortService)
    ensures Undoes(xs, PutService, GetService)
  {
    hide PutService, GetService, ShortService;
    forall x, t | x in xs ensures GetService(In(PutService(x, t), true)) == Got(x, In(t, true)) {
      ServiceUndoes(x, t);
    }
  }

  lemma InstancesUndo(xs: seq<Instance>)
    requires EachShort(xs, ShortInstance)
    ensures Undoes(xs, PutInstance, GetInstance)
  {
    hide PutInstance, GetInstance, ShortInstance;
    forall x, t | x in xs ensures GetInstance(In(PutInstance(x, t), true)) == Got(x, In(t, true)) {
      InstanceUndoes(x, t);
    }
  }

  lemma RuntimesUndo(xs: seq<Runtime>)
    requires EachShort(xs, ShortRuntime)
    ensures Undoes(xs, PutRuntime, GetRuntime)
  {
    hide PutRuntime, GetRuntime, ShortRuntime;
    forall x, t | x in xs ensures GetRuntime(In(PutRuntime(x, t), true)) == Got(x, In(t, true)) {
      RuntimeUndoes(x, t);
    }
  }

  lemma EndpointsUndo(xs: seq<Endpoint>)
    requires EachShort(xs, ShortEndpoint)
    ensures Undoes(xs, PutEndpoint, GetEndpoint)
  {
    hide PutEndpoint, GetEndpoint, ShortEndpoint;
    forall x, t | x in xs ensures GetEndpoint(In(PutEndpoint(x, t), true)) == Got(x, In(t, true)) {
      EndpointUndoes(x, t);
    }
  }

  lemma ProtocolsUndo(xs: seq<Protocol>)
    requires EachShort(xs, ShortProtocol)
    ensures Undoes(xs, PutProtocol, GetProtocol)
  {
    hide PutProtocol, GetProtocol, ShortProtocol;
    forall x, t | x in xs ensures GetProtocol(In(PutProtocol(x, t), true)) == Got(x, In(t, true)) {
      ProtocolUndoes(x, t);
    }
  }

  lemma BackendsUndo(xs: seq<Backend>)
    requires EachShort(xs, ShortBackend)
    ensures Undoes(xs, PutBackend, GetBackend)
  {
    hide PutBackend, GetBackend, ShortBackend;
    forall x, t | x in xs ensures GetBackend(In(PutBackend(x, t), true)) == Got(x, In(t, true)) {
      BackendUndoes(x, t);
    }
  }

  lemma DevicesUndo(xs: seq<Device>)
    requires EachShort(xs, ShortDevice)
    ensures Undoes(xs, PutDevice, GetDevice)
  {
    hide PutDevice, GetDevice, ShortDevice;
    forall x, t | x in xs ensures GetDevice(In(PutDevice(x, t), true)) == Got(x, In(t, true)) {
      DeviceUndoes(x, t);
    }
  }

  lemma CapabilitiesUndo(xs: seq<Capability>)
    requires EachShort(xs, ShortCapability)
    ensures Undoes(xs, PutCapability, GetCapability)
  {
    hide PutCapability, GetCapability, ShortCapability;
    forall x, t | x in xs ensures GetCapability(In(PutCapability(x, t), true)) == Got(x, In(t, true)) {
      CapabilityUndoes(x, t);
    }
  }

  lemma NodesUndo(xs: seq<Node>)
    requires EachShort(xs, ShortNode)
    ensures Undoes(xs, PutNode, GetNode)
  {
    hide PutNode, GetNode, ShortNode;
    forall x, t | x in xs ensures GetNode(In(PutNode(x, t), true)) == Got(x, In(t, true)) {
      NodeUndoes(x, t);
    }
  }

  lemma LeasesUndo(xs: seq<Lease>)
    requires EachShort(xs, ShortLease)
    ensures Undoes(xs, PutLease, GetLease)
  {
    hide PutLease, GetLease, ShortLease;
    forall x, t | x in xs ensures GetLease(In(PutLease(x, t), true)) == Got(x, In(t, true)) {
      LeaseUndoes(x, t);
    }
  }

  lemma TombstonesUndo(xs: seq<Tombstone>)
    requires EachShort(xs, ShortTombstone)
    ensures Undoes(xs, PutTombstone, GetTombstone)
  {
    hide PutTombstone, GetTombstone, ShortTombstone;
    forall x, t | x in xs ensures GetTombstone(In(PutTombstone(x, t), true)) == Got(x, In(t, true)) {
      TombstoneUndoes(x, t);
    }
  }

  lemma CompatibilitiesUndo(xs: seq<Compatibility>)
    requires EachShort(xs, ShortCompatibility)
    ensures Undoes(xs, PutCompatibility, GetCompatibility)
  {
    hide PutCompatibility, GetCompatibility, ShortCompatibility;
    forall x, t | x in xs ensures GetCompatibility(In(PutCompatibility(x, t), true)) == Got(x, In(t, true)) {
      CompatibilityUndoes(x, t);
    }
  }

  lemma InvalidationsUndo(xs: seq<Invalidation>)
    requires EachShort(xs, ShortInvalidation)
    ensures Undoes(xs, PutInvalidation, GetInvalidation)
  {
    hide PutInvalidation, GetInvalidation, ShortInvalidation;
    forall x, t | x in xs ensures GetInvalidation(In(PutInvalidation(x, t), true)) == Got(x, In(t, true)) {
      InvalidationUndoes(x, t);
    }
  }

  lemma NothingToCheck<V>(m: map<Id, V>)
    ensures AllShort(m, Any<V>)
  {
  }

  lemma StoreMapUndoes<V>(st: State, m: map<Id, V>, put: (V, Bytes) -> Bytes, get: In -> Got<V>, key: V -> Id,
      valid: V -> bool, store: (State, map<Id, V>) -> State, t: Bytes)
    requires Filed(m, key) && AllShort(m, valid) && Undoes(SortedValues(m), put, get)
    ensures StoreMap(Loading(st, In(PutMap(m, put, t), true), false), |m|, get, key, valid, store) ==
      Loading(store(st, m), In(t, true), false)
  {
    hide Filed, Undoes, SortedValues, Fill, PutEach;
    MapUndoes(m, put, get, key, valid, t);
  }

  lemma StoreListUndoes<V>(st: State, xs: seq<V>, put: (V, Bytes) -> Bytes, get: In -> Got<V>,
      store: (State, seq<V>) -> State, t: Bytes)
    requires Undoes(xs, put, get)
    ensures StoreList(Loading(st, In(PutEach(xs, put, t), true), false), |xs|, get, store) ==
      Loading(store(st, xs), In(t, true), false)
  {
    hide Undoes, Append, PutEach;
    ListUndoes(xs, put, get, [], t);
    assert [] + xs == xs;
  }

  lemma StoreMapIsLocal<V(!new)>(l: Loading, n: nat, get: In -> Got<V>, key: V -> Id, valid: V -> bool,
      store: (State, map<Id, V>) -> State, t: Bytes)
    requires Local(get, t) && !StoreMap(l, n, get, key, valid, store).failed
    ensures
      var r := StoreMap(l, n, get, key, valid, store);
      StoreMap(l.(s := More(l.s, t)), n, get, key, valid, store) == r.(s := More(r.s, t))
  {
    hide Local, Fill, More;
    FillIsLocal(n, get, key, valid, map[], l.s, t);
  }

  lemma StoreListIsLocal<V(!new)>(l: Loading, n: nat, get: In -> Got<V>, store: (State, seq<V>) -> State, t: Bytes)
    requires Local(get, t) && !StoreList(l, n, get, store).failed
    ensures
      var r := StoreList(l, n, get, store);
      StoreList(l.(s := More(l.s, t)), n, get, store) == r.(s := More(r.s, t))
  {
    hide Local, Append, More;
    AppendIsLocal(n, get, [], l.s, t);
  }

  predicate CountsCatalog(st: State, c: Counts) {
    && c.services == |st.services|
    && c.instances == |st.instances|
    && c.runtimes == |st.runtimes|
    && c.runtimeInstances == |st.runtimeInstances|
    && c.endpoints == |st.endpoints|
    && c.protocols == |st.protocols|
  }

  lemma CatalogUndoes(x: State, st: State, c: Counts, t: Bytes)
    requires KeysMatch(x) && ShortCatalog(x) && CountsCatalog(x, c)
    ensures LoadCatalog(Loading(st, In(PutCatalog(x, t), true), false), c) ==
      Loading(st.(
        services := x.services, instances := x.instances, runtimes := x.runtimes,
        runtimeInstances := x.runtimeInstances, endpoints := x.endpoints, protocols := x.protocols), In(t, true), false)
  {
    hide StoreMap, PutMap, Filed, Undoes, SortedValues, AllShort, EachShort, PutService, GetService, ShortService,
         PutInstance, GetInstance, ShortInstance, PutRuntime, GetRuntime, ShortRuntime, PutEndpoint, GetEndpoint,
         ShortEndpoint, PutProtocol, GetProtocol, ShortProtocol;
    var u5 := PutMap(x.protocols, PutProtocol, t);
    var u4 := PutMap(x.endpoints, PutEndpoint, u5);
    var u3 := PutMap(x.runtimeInstances, PutRuntime, u4);
    var u2 := PutMap(x.runtimes, PutRuntime, u3);
    var u1 := PutMap(x.instances, PutInstance, u2);
    ValuesShort(x.services, ShortService); ServicesUndo(SortedValues(x.services));
    StoreMapUndoes(st, x.services, PutService, GetService, ServiceKey, KnownKind, WithServices, u1);
    var s1 := WithServices(st, x.services);
    ValuesShort(x.instances, ShortInstance); InstancesUndo(SortedValues(x.instances)); NothingToCheck(x.instances);
    StoreMapUndoes(s1, x.instances, PutInstance, GetInstance, InstanceKey, Any<Instance>, WithInstances, u2);
    var s2 := WithInstances(s1, x.instances);
    ValuesShort(x.runtimes, ShortRuntime); RuntimesUndo(SortedValues(x.runtimes)); NothingToCheck(x.runtimes);
    StoreMapUndoes(s2, x.runtimes, PutRuntime, GetRuntime, RuntimeKey, Any<Runtime>, WithRuntimes, u3);
    var s3 := WithRuntimes(s2, x.runtimes);
    ValuesShort(x.runtimeInstances, ShortRuntime); RuntimesUndo(SortedValues(x.runtimeInstances));
    NothingToCheck(x.runtimeInstances);
    StoreMapUndoes(s3, x.runtimeInstances, PutRuntime, GetRuntime, RuntimeInstanceKey, Any<Runtime>,
      WithRuntimeInstances, u4);
    var s4 := WithRuntimeInstances(s3, x.runtimeInstances);
    ValuesShort(x.endpoints, ShortEndpoint); EndpointsUndo(SortedValues(x.endpoints)); NothingToCheck(x.endpoints);
    StoreMapUndoes(s4, x.endpoints, PutEndpoint, GetEndpoint, EndpointKey, Any<Endpoint>, WithEndpoints, u5);
    var s5 := WithEndpoints(s4, x.endpoints);
    ValuesShort(x.protocols, ShortProtocol); ProtocolsUndo(SortedValues(x.protocols)); NothingToCheck(x.protocols);
    StoreMapUndoes(s5, x.protocols, PutProtocol, GetProtocol, ProtocolKey, Any<Protocol>, WithProtocols, t);
  }

  lemma CatalogIsLocal(l: Loading, c: Counts, t: Bytes)
    requires !LoadCatalog(l, c).failed
    ensures LoadCatalog(l.(s := More(l.s, t)), c) == LoadCatalog(l, c).(s := More(LoadCatalog(l, c).s, t))
  {
    hide Local, More, Fill, WithServices, WithInstances, WithRuntimes, WithRuntimeInstances, WithEndpoints,
         WithProtocols;
    var l1 := StoreMap(l, c.services, GetService, ServiceKey, KnownKind, WithServices);
    ServiceIsLocal(t);
    StoreMapIsLocal(l, c.services, GetService, ServiceKey, KnownKind, WithServices, t);
    var l2 := StoreMap(l1, c.instances, GetInstance, InstanceKey, Any<Instance>, WithInstances);
    InstanceIsLocal(t);
    StoreMapIsLocal(l1, c.instances, GetInstance, InstanceKey, Any<Instance>, WithInstances, t);
    var l3 := StoreMap(l2, c.runtimes, GetRuntime, RuntimeKey, Any<Runtime>, WithRuntimes);
    RuntimeIsLocal(t);
    StoreMapIsLocal(l2, c.runtimes, GetRuntime, RuntimeKey, Any<Runtime>, WithRuntimes, t);
    var l4 := StoreMap(l3, c.runtimeInstances, GetRuntime, RuntimeInstanceKey, Any<Runtime>, WithRuntimeInstances);
    RuntimeIsLocal(t);
    StoreMapIsLocal(l3, c.runtimeInstances, GetRuntime, RuntimeInstanceKey, Any<Runtime>, WithRuntimeInstances, t);
    var l5 := StoreMap(l4, c.endpoints, GetEndpoint, EndpointKey, Any<Endpoint>, WithEndpoints);
    EndpointIsLocal(t);
    StoreMapIsLocal(l4, c.endpoints, GetEndpoint, EndpointKey, Any<Endpoint>, WithEndpoints, t);
    ProtocolIsLocal(t);
    StoreMapIsLocal(l5, c.protocols, GetProtocol, ProtocolKey, Any<Protocol>, WithProtocols, t);
  }

  predicate CountsInventory(st: State, c: Counts) {
    && c.backends == |st.backends|
    && c.devices == |st.devices|
    && c.capabilities == |st.capabilities|
    && c.nodes == |st.nodes|
    && c.leases == |st.leases|
    && c.tombstones == |st.tombstones|
    && c.compatRecords == |st.compatRecords|
  }

  lemma InventoryUndoes(x: State, st: State, c: Counts, t: Bytes)
    requires KeysMatch(x) && ShortInventory(x) && CountsInventory(x, c)
    ensures LoadInventory(Loading(st, In(PutInventory(x, t), true), false), c) ==
      Loading(st.(
        backends := x.backends, devices := x.devices, capabilities := x.capabilities, nodes := x.nodes,
        leases := x.leases, tombstones := x.tombstones, compatRecords := x.compatRecords), In(t, true), false)
  {
    hide StoreMap, PutMap, Filed, Undoes, SortedValues, AllShort, EachShort, PutBackend, GetBackend, ShortBackend,
         PutDevice, GetDevice, ShortDevice, PutCapability, GetCapability, ShortCapability, PutNode, GetNode,
         ShortNode, PutLease, GetLease, ShortLease, PutTombstone, GetTombstone, ShortTombstone, PutCompatibility,
         GetCompatibility, ShortCompatibility;
    var u6 := PutMap(x.compatRecords, PutCompatibility, t);
    var u5 := PutMap(x.tombstones, PutTombstone, u6);
    var u4 := PutMap(x.leases, PutLease, u5);
    var u3 := PutMap(x.nodes, PutNode, u4);
    var u2 := PutMap(x.capabilities, PutCapability, u3);
    var u1 := PutMap(x.devices, PutDevice, u2);
    ValuesShort(x.backends, ShortBackend); BackendsUndo(SortedValues(x.backends)); NothingToCheck(x.backends);
    StoreMapUndoes(st, x.backends, PutBackend, GetBackend, BackendKey, Any<Backend>, WithBackends, u1);
    var s1 := WithBackends(st, x.backends);
    ValuesShort(x.devices, ShortDevice); DevicesUndo(SortedValues(x.devices)); NothingToCheck(x.devices);
    StoreMapUndoes(s1, x.devices, PutDevice, GetDevice, DeviceKey, Any<Device>, WithDevices, u2);
    var s2 := WithDevices(s1, x.devices);
    ValuesShort(x.capabilities, ShortCapability); CapabilitiesUndo(SortedValues(x.capabilities));
    NothingToCheck(x.capabilities);
    StoreMapUndoes(s2, x.capabilities, PutCapability, GetCapability, CapabilityKey, Any<Capability>,
      WithCapabilities, u3);
    var s3 := WithCapabilities(s2, x.capabilities);
    ValuesShort(x.nodes, ShortNode); NodesUndo(SortedValues(x.nodes)); NothingToCheck(x.nodes);
    StoreMapUndoes(s3, x.nodes, PutNode, GetNode, NodeKey, Any<Node>, WithNodes, u4);
    var s4 := WithNodes(s3, x.nodes);
    ValuesShort(x.leases, ShortLease); LeasesUndo(SortedValues(x.leases)); NothingToCheck(x.leases);
    StoreMapUndoes(s4, x.leases, PutLease, GetLease, LeaseKey, Any<Lease>, WithLeases, u5);
    var s5 := WithLeases(s4, x.leases);
    ValuesShort(x.tombstones, ShortTombstone); TombstonesUndo(SortedValues(x.tombstones)); NothingToCheck(x.tombstones);
    StoreMapUndoes(s5, x.tombstones, PutTombstone, GetTombstone, TombstoneKey, Any<Tombstone>, WithTombstones, u6);
    var s6 := WithTombstones(s5, x.tombstones);
    ValuesShort(x.compatRecords, ShortCompatibility); CompatibilitiesUndo(SortedValues(x.compatRecords));
    NothingToCheck(x.compatRecords);
    StoreMapUndoes(s6, x.compatRecords, PutCompatibility, GetCompatibility, CompatibilityKey, Any<Compatibility>,
      WithCompatRecords, t);
  }

  lemma InventoryIsLocal(l: Loading, c: Counts, t: Bytes)
    requires !LoadInventory(l, c).failed
    ensures LoadInventory(l.(s := More(l.s, t)), c) == LoadInventory(l, c).(s := More(LoadInventory(l, c).s, t))
  {
    hide Local, More, Fill, WithBackends, WithDevices, WithCapabilities, WithNodes, WithLeases, WithTombstones,
         WithCompatRecords;
    var l1 := StoreMap(l, c.backends, GetBackend, BackendKey, Any<Backend>, WithBackends);
    BackendIsLocal(t);
    StoreMapIsLocal(l, c.backends, GetBackend, BackendKey, Any<Backend>, WithBackends, t);
    var l2 := StoreMap(l1, c.devices, GetDevice, DeviceKey, Any<Device>, WithDevices);
    DeviceIsLocal(t);
    StoreMapIsLocal(l1, c.devices, GetDevice, DeviceKey, Any<Device>, WithDevices, t);
    var l3 := StoreMap(l2, c.capabilities, GetCapability, CapabilityKey, Any<Capability>, WithCapabilities);
    CapabilityIsLocal(t);
    StoreMapIsLocal(l2, c.capabilities, GetCapability, CapabilityKey, Any<Capability>, WithCapabilities, t);
    var l4 := StoreMap(l3, c.nodes, GetNode, NodeKey, Any<Node>, WithNodes);
    NodeIsLocal(t);
    StoreMapIsLocal(l3, c.nodes, GetNode, NodeKey, Any<Node>, WithNodes, t);
    var l5 := StoreMap(l4, c.leases, GetLease, LeaseKey, Any<Lease>, WithLeases);
    LeaseIsLocal(t);
    StoreMapIsLocal(l4, c.leases, GetLease, LeaseKey, Any<Lease>, WithLeases, t);
    var l6 := StoreMap(l5, c.tombstones, GetTombstone, TombstoneKey, Any<Tombstone>, WithTombstones);
    TombstoneIsLocal(t);
    StoreMapIsLocal(l5, c.tombstones, GetTombstone, TombstoneKey, Any<Tombstone>, WithTombstones, t);
    CompatibilityIsLocal(t);
    StoreMapIsLocal(l6, c.compatRecords, GetCompatibility, CompatibilityKey, Any<Compatibility>, WithCompatRecords, t);
  }

  predicate CountsHistories(st: State, c: Counts) {
    && c.invalidations == |st.invalidations|
    && c.instanceHistory == |st.instanceHistory|
    && c.runtimeHistory == |st.runtimeHistory|
    && c.endpointHistory == |st.endpointHistory|
    && c.capabilityHistory == |st.capabilityHistory|
  }

  lemma HistoriesUndo(x: State, st: State, c: Counts, t: Bytes)
    requires ShortHistories(x) && CountsHistories(x, c)
    ensures LoadHistories(Loading(st, In(PutHistories(x, t), true), false), c) ==
      Loading(st.(
        invalidations := x.invalidations, instanceHistory := x.instanceHistory,
        runtimeHistory := x.runtimeHistory, endpointHistory := x.endpointHistory,
        capabilityHistory := x.capabilityHistory), In(t, true), false)
  {
    hide StoreList, PutEach, Undoes, PutInvalidation, GetInvalidation, ShortInvalidation, PutInstance, GetInstance,
         ShortInstance, PutRuntime, GetRuntime, ShortRuntime, PutEndpoint, GetEndpoint, ShortEndpoint, PutCapability,
         GetCapability, ShortCapability;
    var u4 := PutEach(x.capabilityHistory, PutCapability, t);
    var u3 := PutEach(x.endpointHistory, PutEndpoint, u4);
    var u2 := PutEach(x.runtimeHistory, PutRuntime, u3);
    var u1 := PutEach(x.instanceHistory, PutInstance, u2);
    InvalidationsUndo(x.invalidations);
    StoreListUndoes(st, x.invalidations, PutInvalidation, GetInvalidation, WithInvalidations, u1);
    var s1 := WithInvalidations(st, x.invalidations);
    InstancesUndo(x.instanceHistory);
    StoreListUndoes(s1, x.instanceHistory, PutInstance, GetInstance, WithInstanceHistory, u2);
    var s2 := WithInstanceHistory(s1, x.instanceHistory);
    RuntimesUndo(x.runtimeHistory);
    StoreListUndoes(s2, x.runtimeHistory, PutRuntime, GetRuntime, WithRuntimeHistory, u3);
    var s3 := WithRuntimeHistory(s2, x.runtimeHistory);
    EndpointsUndo(x.endpointHistory);
    StoreListUndoes(s3, x.endpointHistory, PutEndpoint, GetEndpoint, WithEndpointHistory, u4);
    var s4 := WithEndpointHistory(s3, x.endpointHistory);
    CapabilitiesUndo(x.capabilityHistory);
    StoreListUndoes(s4, x.capabilityHistory, PutCapability, GetCapability, WithCapabilityHistory, t);
  }

  lemma HistoriesAreLocal(l: Loading, c: Counts, t: Bytes)
    requires !LoadHistories(l, c).failed
    ensures LoadHistories(l.(s := More(l.s, t)), c) == LoadHistories(l, c).(s := More(LoadHistories(l, c).s, t))
  {
    hide Local, More, Append, WithInvalidations, WithInstanceHistory, WithRuntimeHistory, WithEndpointHistory,
         WithCapabilityHistory;
    var l1 := StoreList(l, c.invalidations, GetInvalidation, WithInvalidations);
    InvalidationIsLocal(t);
    StoreListIsLocal(l, c.invalidations, GetInvalidation, WithInvalidations, t);
    var l2 := StoreList(l1, c.instanceHistory, GetInstance, WithInstanceHistory);
    InstanceIsLocal(t);
    StoreListIsLocal(l1, c.instanceHistory, GetInstance, WithInstanceHistory, t);
    var l3 := StoreList(l2, c.runtimeHistory, GetRuntime, WithRuntimeHistory);
    RuntimeIsLocal(t);
    StoreListIsLocal(l2, c.runtimeHistory, GetRuntime, WithRuntimeHistory, t);
    var l4 := StoreList(l3, c.endpointHistory, GetEndpoint, WithEndpointHistory);
    EndpointIsLocal(t);
    StoreListIsLocal(l3, c.endpointHistory, GetEndpoint, WithEndpointHistory, t);
    CapabilityIsLocal(t);
    StoreListIsLocal(l4, c.capabilityHistory, GetCapability, WithCapabilityHistory, t);
  }

  // ---- the whole file ----

  type Digest = d: Bytes | |d| == 32
    witness [0, 0, 0, 0, 0, 0, 0, 0, 0, 0, 0, 0, 0, 0, 0, 0, 0, 0, 0, 0, 0, 0, 0, 0, 0, 0, 0, 0, 0, 0, 0, 0]

  function CountsOf(st: State): Counts {
    var M := 0x1_0000_0000;
    Counts(|st.services| % M, |st.instances| % M, |st.runtimes| % M, |st.runtimeInstances| % M, |st.endpoints| % M,
      |st.protocols| % M,
           |st.backends| % M, |st.devices| % M, |st.capabilities| % M, |st.nodes| % M, |st.leases| % M,
           |st.tombstones| % M, |st.compatRecords| % M,
           |st.invalidations| % M, |st.instanceHistory| % M, |st.runtimeHistory| % M, |st.endpointHistory| % M,
           |st.capabilityHistory| % M)
  }

  /** The content of a save, before its trailer. */
  function Contents(st: State): Bytes {
    PutHeader(Header(NumbersOf(st), CountsOf(st)), PutCatalog(st, PutInventory(st, PutHistories(st, []))))
  }

  function Sealed(content: Bytes, sha: Bytes -> Digest): Bytes {
    content + LittleEndian.Bytes32(Crc32.Crc(content, 0)) + sha(content)
  }

  /** `serialize` */
  function Saved(st: State, sha: Bytes -> Digest): Bytes {
    Sealed(Contents(st), sha)
  }

  /** All records dropped, as `load_from` does before it reads any. */
  function Cleared(st: State): State {
    st.(services := map[], instances := map[], runtimes := map[], runtimeInstances := map[], endpoints := map[],
      protocols := map[],
        backends := map[], devices := map[], capabilities := map[], nodes := map[], leases := map[],
        tombstones := map[], compatRecords := map[],
        invalidations := [], instanceHistory := [], runtimeHistory := [], endpointHistory := [],
        capabilityHistory := [])
  }

  function LoadRecords(st: State, s: In, c: Counts): Loading {
    LoadHistories(LoadInventory(LoadCatalog(Loading(Cleared(st), s, false), c), c), c)
  }

  function Renumbered(st: State, x: Numbers): State {
    st.(authority := st.authority.(epoch := x.epoch, registryGeneration := x.registryGeneration,
      recordGeneration := x.recordGeneration, gens := x.gens),
        nextBoot := x.nextBoot, nextId := x.nextId)
  }

  function LoadContent(st: State, content: Bytes): (State, Outcome) {
    var h := GetHeader(In(content, true));
    if !h.s.ok then (st, Refused(MALFORMED))
    else
      var l := LoadRecords(st, h.s, h.v.counts);
      if l.failed || !l.s.ok || l.s.rest != [] then (l.st, Refused(MALFORMED))
      else (Recovered(Renumbered(l.st, h.v.numbers)), Done(0))
  }

  /** Length, checksum and digest agree. */
  predicate Intact(data: Bytes, sha: Bytes -> Digest) {
    |data| >= 46 &&
    var n := |data| - 36;
    LittleEndian.Read32(data[n..]) == Crc32.Crc(data[..n], 0) && data[n + 4..] == sha(data[..n])
  }

  /** `load_from` */
  function Load(st: State, data: Bytes, sha: Bytes -> Digest): (State, Outcome) {
    if !Intact(data, sha) then (st, Refused(MALFORMED)) else LoadContent(st, data[..|data| - 36])
  }

  // ---- loading undoes saving ----

  lemma CountsFit(st: State)
    requires WithinLimits(st)
    ensures Countable(CountsOf(st))
    ensures CountsCatalog(st, CountsOf(st))
    ensures CountsInventory(st, CountsOf(st))
    ensures CountsHistories(st, CountsOf(st))
  {
    hide ShortCatalog, ShortInventory, ShortHistories;
    assert forall n: nat {:trigger n % 0x1_0000_0000} :: n <= MAX_RECORDS ==> n % 0x1_0000_0000 == n;
  }

  /** The records of `x` in place of those of `st`. */
  function Replaced(st: State, x: State): State {
    x.(authority := st.authority, indexes := st.indexes, nextBoot := st.nextBoot, nextId := st.nextId)
  }

  lemma RecordsUndo(x: State, st: State)
    requires KeysMatch(x) && WithinLimits(x)
    ensures LoadRecords(st, In(PutCatalog(x, PutInventory(x, PutHistories(x, []))), true), CountsOf(x)) ==
      Loading(Replaced(st, x), In([], true), false)
  {
    CountsFit(x);
    hide KeysMatch, ShortCatalog, ShortInventory, ShortHistories, CountsCatalog, CountsInventory, CountsHistories,
         CountsOf, PutCatalog, PutInventory, PutHistories, LoadCatalog, LoadInventory, LoadHistories;
    var histories := PutHistories(x, []);
    var inventory := PutInventory(x, histories);
    CatalogUndoes(x, Cleared(st), CountsOf(x), inventory);
    var l1 := LoadCatalog(Loading(Cleared(st), In(PutCatalog(x, inventory), true), false), CountsOf(x));
    InventoryUndoes(x, l1.st, CountsOf(x), histories);
    var l2 := LoadInventory(l1, CountsOf(x));
    HistoriesUndo(x, l2.st, CountsOf(x), []);
  }
}
