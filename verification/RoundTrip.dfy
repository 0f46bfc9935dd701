/** What a load accepts, and what it then holds: records within the limits of the reader, each under
    its own identity.  So saving and loading is a round trip exactly for registries of that kind. */
module RoundTrip {
  import opened Base
  import opened Enums
  import opened SemVer
  import opened Records
  import opened Codec
  import opened RecordCodec
  import opened Sections
  import opened RegistryModel
  import opened RegistryInvariants
  import opened Persistence
  import Recovery
  import SelfCheck
  import Fencing

  // ---- the parts of a record ----

  /** What `get` reads with success fits. */
  ghost predicate Yields<T(!new)>(get: In -> Got<T>, fits: T -> bool) {
    forall s {:trigger get(s)} :: get(s).s.ok ==> fits(get(s).v)
  }

  lemma {:induction false} EachFits<T(!new)>(n: nat, get: In -> Got<T>, fits: T -> bool, s: In)
    requires Yields(get, fits) && Each(n, get, s).s.ok
    ensures forall x :: x in Each(n, get, s).v ==> fits(x)
    decreases n
  {
    if n > 0 && s.ok {
      var first := get(s);
      if n > 1 || first.s.ok {
        EachFits(n - 1, get, fits, first.s);
      }
    }
  }

  lemma ListedFits<T(!new)>(max: nat, get: In -> Got<T>, fits: T -> bool, s: In)
    requires Yields(get, fits) && Listed(max, get, s).s.ok
    ensures |Listed(max, get, s).v| <= max
    ensures forall x :: x in Listed(max, get, s).v ==> fits(x)
  {
    hide U32;
    var n := U32(s);
    EachFits(n.v, get, fits, if n.v > max then Fail(n.s) else n.s);
  }

  lemma PartsFit()
    ensures forall s {:trigger Text(s)} :: Text(s).s.ok ==> ShortText(Text(s).v)
    ensures forall s {:trigger Version(s)} :: Version(s).s.ok ==> ShortVersion(Version(s).v)
    ensures forall s {:trigger Prov(s)} :: Prov(s).s.ok ==> ShortProv(Prov(s).v)
    ensures forall s {:trigger Ids(s)} :: Ids(s).s.ok ==> |Ids(s).v| <= 4096
    ensures forall s {:trigger FewIds(s)} :: FewIds(s).s.ok ==> |FewIds(s).v| <= 256
    ensures forall s {:trigger Kinds(s)} :: Kinds(s).s.ok ==> |Kinds(s).v| <= 256
    ensures forall s {:trigger Texts(s)} :: Texts(s).s.ok ==> ShortTexts(Texts(s).v)
    ensures forall s {:trigger Value(s)} :: Value(s).s.ok ==> ShortValue(Value(s).v)
  {
    forall s | Text(s).s.ok ensures ShortText(Text(s).v) { TextFits(s); }
    hide U8, U32, U64, I64, Text, Kind, Listed, ShortText;
    forall s | Ids(s).s.ok ensures |Ids(s).v| <= 4096 { ListedFits(4096, U64, Any<u64>, s); }
    forall s | FewIds(s).s.ok ensures |FewIds(s).v| <= 256 { ListedFits(256, U64, Any<u64>, s); }
    forall s | Kinds(s).s.ok ensures |Kinds(s).v| <= 256 { ListedFits(256, Kind, Any<CapabilityKind>, s); }
    forall s | Texts(s).s.ok ensures ShortTexts(Texts(s).v) { ListedFits(256, Text, ShortText, s); }
    forall s | Value(s).s.ok ensures ShortValue(Value(s).v) { ValueFits(s); }
  }

  lemma TextFits(s: In)
    requires Text(s).s.ok
    ensures ShortText(Text(s).v)
  {
    hide U32;
  }

  /** A value is within the limits at every depth. */
  lemma {:induction false} ValueFits(s: In)
    requires Value(s).s.ok
    ensures ShortValue(Value(s).v)
    decreases |s.rest|, 0
  {
    forall s | Text(s).s.ok ensures ShortText(Text(s).v) { TextFits(s); }
    hide U8, U32, U64, I64, Flag, Text, Fields, ShortText;
    var kind := U8(s); var boolean := Flag(kind.s); var integer := I64(boolean.s); var number := U64(integer.s);
    var hasMin := Flag(number.s); var hasMax := Flag(hasMin.s);
    var rangeMin := U64(hasMax.s); var rangeMax := U64(rangeMin.s); var text := Text(rangeMax.s);
    var len := U32(text.s);
    if 0 < len.v <= MAX_FIELDS {
      FieldsFit(len.v, len.s);
    }
  }

  lemma {:induction false} FieldsFit(n: nat, s: In)
    requires Fields(n, s).s.ok
    ensures |Fields(n, s).v| == n && ShortFields(Fields(n, s).v)
    decreases |s.rest|, n + 1
  {
    hide Text, Value, ShortText, ShortValue;
    if n > 0 {
      var key := Text(s);
      if key.s.ok {
        TextFits(s);
      }
      if Value(key.s).s.ok {
        ValueFits(key.s);
      }
      FieldsFit(n - 1, Value(key.s).s);
    }
  }

  // ---- the records ----

  lemma ServiceFits()
    ensures Yields(GetService, ShortService)
  {
    hide U8, U32, U64, I64, Text, Version, Structured, Prov, Kinds, FewIds, ShortProv, ShortText, ShortVersion;
    PartsFit();
  }

  lemma InstanceFits()
    ensures Yields(GetInstance, ShortInstance)
  {
    hide U8, U32, U64, I64, Text, Version, Prov, Ids, ShortProv, ShortText, ShortVersion;
    PartsFit();
  }

  lemma RuntimeFits()
    ensures Yields(GetRuntime, ShortRuntime)
  {
    hide U8, U64, Text, Version, Structured, Prov, Ids, ShortProv, ShortText, ShortVersion;
    PartsFit();
  }

  lemma EndpointFits()
    ensures Yields(GetEndpoint, ShortEndpoint)
  {
    hide U8, U32, U64, Text, Prov, ShortProv, ShortText;
    PartsFit();
  }

  lemma ProtocolFits()
    ensures Yields(GetProtocol, ShortProtocol)
  {
    hide U64, I64, Text, Structured, Prov, Kinds, ShortProv, ShortText;
    PartsFit();
  }

  lemma BackendFits()
    ensures Yields(GetBackend, ShortBackend)
  {
    hide U8, U64, Version, Prov, Ids, ShortProv, ShortVersion;
    PartsFit();
  }

  lemma DeviceFits()
    ensures Yields(GetDevice, ShortDevice)
  {
    hide U8, U64, I64, Text, Prov, ShortProv, ShortText;
    PartsFit();
  }

  lemma CapabilityFits()
    ensures Yields(GetCapability, ShortCapability)
  {
    hide U8, U64, Version, Prov, Texts, Value, ShortProv, ShortTexts, ShortValue, ShortVersion;
    PartsFit();
  }

  lemma NodeFits()
    ensures Yields(GetNode, ShortNode)
  {
    hide U8, U64, Text, Prov, Ids, ShortProv, ShortText;
    PartsFit();
  }

  lemma LeaseFits()
    ensures Yields(GetLease, ShortLease)
  {
    hide U8, U64, I64, Prov, ShortProv;
    PartsFit();
  }

  lemma TombstoneFits()
    ensures Yields(GetTombstone, ShortTombstone)
  {
    hide U64, I64, Text, Prov, ShortProv, ShortText;
    PartsFit();
  }

  lemma InvalidationFits()
    ensures Yields(GetInvalidation, ShortInvalidation)
  {
    hide U64, I64, Text, Prov, ShortProv, ShortText;
    PartsFit();
  }

  lemma CompatibilityFits()
    ensures Yields(GetCompatibility, ShortCompatibility)
  {
    hide U8, U64, Prov, ShortProv;
    PartsFit();
  }

  // ---- the sections ----

  /** A map as a section of `n` records leaves it. */
  ghost predicate Section<V>(m: map<Id, V>, n: nat, key: V -> Id, valid: V -> bool, fits: V -> bool) {
    Filed(m, key) && AllShort(m, valid) && AllShort(m, fits) && |m| == n
  }

  lemma OneMoreFits<V>(m: map<Id, V>, n: nat, key: V -> Id, valid: V -> bool, fits: V -> bool, x: V)
    requires Section(m, n, key, valid, fits) && key(x) !in m && valid(x) && fits(x)
    ensures Section(m[key(x) := x], n + 1, key, valid, fits)
  {
    var more := m[key(x) := x];
    assert more.Keys == m.Keys + {key(x)};
    assert |more| == |more.Keys| && |m| == |m.Keys|;
  }

  lemma {:induction false} FillFits<V(!new)>(n: nat, get: In -> Got<V>, key: V -> Id, valid: V -> bool, fits: V -> bool,
      m: map<Id, V>, s: In)
    requires Yields(get, fits) && Section(m, |m|, key, valid, fits)
    requires !Fill(n, get, key, valid, m, s).failed
    ensures Section(Fill(n, get, key, valid, m, s).m, |m| + n, key, valid, fits)
    decreases n
  {
    if n > 0 {
      var g := get(s);
      assert fits(g.v);
      OneMoreFits(m, |m|, key, valid, fits, g.v);
      var more := m[key(g.v) := g.v];
      assert |more| == |m| + 1 by {
        hide Filed, AllShort;
      }
      hide Section, Yields;
      FillFits(n - 1, get, key, valid, fits, more, g.s);
    }
  }

  lemma {:induction false} AppendFits<V(!new)>(n: nat, get: In -> Got<V>, fits: V -> bool, list: seq<V>, s: In)
    requires Yields(get, fits) && EachShort(list, fits)
    requires !Append(n, get, list, s).failed
    ensures EachShort(Append(n, get, list, s).list, fits) && |Append(n, get, list, s).list| == |list| + n
    decreases n
  {
    if n > 0 {
      var g := get(s);
      AppendFits(n - 1, get, fits, list + [g.v], g.s);
    }
  }

  lemma StoreMapFits<V(!new)>(l: Loading, n: nat, get: In -> Got<V>, key: V -> Id, valid: V -> bool, fits: V -> bool,
      store: (State, map<Id, V>) -> State)
    returns (m: map<Id, V>)
    requires Yields(get, fits) && !StoreMap(l, n, get, key, valid, store).failed
    ensures !l.failed && StoreMap(l, n, get, key, valid, store).st == store(l.st, m)
    ensures Section(m, n, key, valid, fits)
  {
    hide Fill, Yields;
    m := Fill(n, get, key, valid, map[], l.s).m;
    FillFits(n, get, key, valid, fits, map[], l.s);
  }

  lemma StoreListFits<V(!new)>(l: Loading, n: nat, get: In -> Got<V>, fits: V -> bool, store: (State, seq<V>) -> State)
      returns (list: seq<V>)
    requires Yields(get, fits) && !StoreList(l, n, get, store).failed
    ensures !l.failed && StoreList(l, n, get, store).st == store(l.st, list)
    ensures EachShort(list, fits) && |list| == n
  {
    hide Append, Yields;
    list := Append(n, get, [], l.s).list;
    AppendFits(n, get, fits, [], l.s);
  }

  /** The three groups of sections. */
  datatype Catalog = Catalog(
    services: map<Id, Service>, instances: map<Id, Instance>, runtimes: map<Id, Runtime>,
    runtimeInstances: map<Id, Runtime>,
    endpoints: map<Id, Endpoint>, protocols: map<Id, Protocol>)

  function CatalogOf(st: State): Catalog {
    Catalog(st.services, st.instances, st.runtimes, st.runtimeInstances, st.endpoints, st.protocols)
  }

  datatype Inventory = Inventory(
    backends: map<Id, Backend>, devices: map<Id, Device>, capabilities: map<Id, Capability>, nodes: map<Id, Node>,
    leases: map<Id, Lease>, tombstones: map<Id, Tombstone>, compatRecords: map<Id, Compatibility>)

  function InventoryOf(st: State): Inventory {
    Inventory(st.backends, st.devices, st.capabilities, st.nodes, st.leases, st.tombstones, st.compatRecords)
  }

  datatype Histories = Histories(
    invalidations: seq<Invalidation>, instanceHistory: seq<Instance>, runtimeHistory: seq<Runtime>,
    endpointHistory: seq<Endpoint>, capabilityHistory: seq<Capability>)

  function HistoriesOf(st: State): Histories {
    Histories(st.invalidations, st.instanceHistory, st.runtimeHistory, st.endpointHistory, st.capabilityHistory)
  }

  /** A group as its sections leave it. */
  ghost predicate CatalogFits(x: Catalog, c: Counts) {
    && Section(x.services, c.services, ServiceKey, KnownKind, ShortService)
    && Section(x.instances, c.instances, InstanceKey, Any<Instance>, ShortInstance)
    && Section(x.runtimes, c.runtimes, RuntimeKey, Any<Runtime>, ShortRuntime)
    && Section(x.runtimeInstances, c.runtimeInstances, RuntimeInstanceKey, Any<Runtime>, ShortRuntime)
    && Section(x.endpoints, c.endpoints, EndpointKey, Any<Endpoint>, ShortEndpoint)
    && Section(x.protocols, c.protocols, ProtocolKey, Any<Protocol>, ShortProtocol)
  }

  ghost predicate InventoryFits(x: Inventory, c: Counts) {
    && Section(x.backends, c.backends, BackendKey, Any<Backend>, ShortBackend)
    && Section(x.devices, c.devices, DeviceKey, Any<Device>, ShortDevice)
    && Section(x.capabilities, c.capabilities, CapabilityKey, Any<Capability>, ShortCapability)
    && Section(x.nodes, c.nodes, NodeKey, Any<Node>, ShortNode)
    && Section(x.leases, c.leases, LeaseKey, Any<Lease>, ShortLease)
    && Section(x.tombstones, c.tombstones, TombstoneKey, Any<Tombstone>, ShortTombstone)
    && Section(x.compatRecords, c.compatRecords, CompatibilityKey, Any<Compatibility>, ShortCompatibility)
  }

  ghost predicate HistoriesFits(x: Histories, c: Counts) {
    && EachShort(x.invalidations, ShortInvalidation) && |x.invalidations| == c.invalidations
    && EachShort(x.instanceHistory, ShortInstance) && |x.instanceHistory| == c.instanceHistory
    && EachShort(x.runtimeHistory, ShortRuntime) && |x.runtimeHistory| == c.runtimeHistory
    && EachShort(x.endpointHistory, ShortEndpoint) && |x.endpointHistory| == c.endpointHistory
    && EachShort(x.capabilityHistory, ShortCapability) && |x.capabilityHistory| == c.capabilityHistory
  }

  lemma CatalogRead(l: Loading, c: Counts)
    requires !LoadCatalog(l, c).failed
    ensures !l.failed && CatalogFits(CatalogOf(LoadCatalog(l, c).st), c)
  {
    hide StoreMap, StoreList, Section, Yields, EachShort, GetService, ShortService, GetInstance, ShortInstance,
         GetRuntime, ShortRuntime, GetEndpoint, ShortEndpoint, GetProtocol, ShortProtocol;
    ServiceFits(); InstanceFits(); RuntimeFits(); EndpointFits(); ProtocolFits();
    var l1 := StoreMap(l, c.services, GetService, ServiceKey, KnownKind, WithServices);
    var l2 := StoreMap(l1, c.instances, GetInstance, InstanceKey, Any<Instance>, WithInstances);
    var l3 := StoreMap(l2, c.runtimes, GetRuntime, RuntimeKey, Any<Runtime>, WithRuntimes);
    var l4 := StoreMap(l3, c.runtimeInstances, GetRuntime, RuntimeInstanceKey, Any<Runtime>, WithRuntimeInstances);
    var l5 := StoreMap(l4, c.endpoints, GetEndpoint, EndpointKey, Any<Endpoint>, WithEndpoints);
    var m6 := StoreMapFits(l5, c.protocols, GetProtocol, ProtocolKey, Any<Protocol>, ShortProtocol, WithProtocols);
    var m5 := StoreMapFits(l4, c.endpoints, GetEndpoint, EndpointKey, Any<Endpoint>, ShortEndpoint, WithEndpoints);
    var m4 := StoreMapFits(l3, c.runtimeInstances, GetRuntime, RuntimeInstanceKey, Any<Runtime>, ShortRuntime,
      WithRuntimeInstances);
    var m3 := StoreMapFits(l2, c.runtimes, GetRuntime, RuntimeKey, Any<Runtime>, ShortRuntime, WithRuntimes);
    var m2 := StoreMapFits(l1, c.instances, GetInstance, InstanceKey, Any<Instance>, ShortInstance, WithInstances);
    var m1 := StoreMapFits(l, c.services, GetService, ServiceKey, KnownKind, ShortService, WithServices);
  }

  lemma InventoryRead(l: Loading, c: Counts)
    requires !LoadInventory(l, c).failed
    ensures !l.failed && InventoryFits(InventoryOf(LoadInventory(l, c).st), c)
    ensures CatalogOf(LoadInventory(l, c).st) == CatalogOf(l.st)
  {
    hide StoreMap, StoreList, Section, Yields, EachShort, GetBackend, ShortBackend, GetDevice, ShortDevice,
         GetCapability, ShortCapability, GetNode, ShortNode, GetLease, ShortLease, GetTombstone, ShortTombstone,
         GetCompatibility, ShortCompatibility;
    BackendFits(); DeviceFits(); CapabilityFits(); NodeFits(); LeaseFits(); TombstoneFits(); CompatibilityFits();
    var l1 := StoreMap(l, c.backends, GetBackend, BackendKey, Any<Backend>, WithBackends);
    var l2 := StoreMap(l1, c.devices, GetDevice, DeviceKey, Any<Device>, WithDevices);
    var l3 := StoreMap(l2, c.capabilities, GetCapability, CapabilityKey, Any<Capability>, WithCapabilities);
    var l4 := StoreMap(l3, c.nodes, GetNode, NodeKey, Any<Node>, WithNodes);
    var l5 := StoreMap(l4, c.leases, GetLease, LeaseKey, Any<Lease>, WithLeases);
    var l6 := StoreMap(l5, c.tombstones, GetTombstone, TombstoneKey, Any<Tombstone>, WithTombstones);
    var m7 := StoreMapFits(l6, c.compatRecords, GetCompatibility, CompatibilityKey, Any<Compatibility>,
      ShortCompatibility, WithCompatRecords);
    var m6 := StoreMapFits(l5, c.tombstones, GetTombstone, TombstoneKey, Any<Tombstone>, ShortTombstone,
      WithTombstones);
    var m5 := StoreMapFits(l4, c.leases, GetLease, LeaseKey, Any<Lease>, ShortLease, WithLeases);
    var m4 := StoreMapFits(l3, c.nodes, GetNode, NodeKey, Any<Node>, ShortNode, WithNodes);
    var m3 := StoreMapFits(l2, c.capabilities, GetCapability, CapabilityKey, Any<Capability>, ShortCapability,
      WithCapabilities);
    var m2 := StoreMapFits(l1, c.devices, GetDevice, DeviceKey, Any<Device>, ShortDevice, WithDevices);
    var m1 := StoreMapFits(l, c.backends, GetBackend, BackendKey, Any<Backend>, ShortBackend, WithBackends);
  }

  lemma HistoriesRead(l: Loading, c: Counts)
    requires !LoadHistories(l, c).failed
    ensures !l.failed && HistoriesFits(HistoriesOf(LoadHistories(l, c).st), c)
    ensures CatalogOf(LoadHistories(l, c).st) == CatalogOf(l.st)
      && InventoryOf(LoadHistories(l, c).st) == InventoryOf(l.st)
  {
    hide StoreMap, StoreList, Section, Yields, EachShort, GetInvalidation, ShortInvalidation, GetInstance,
         ShortInstance, GetRuntime, ShortRuntime, GetEndpoint, ShortEndpoint, GetCapability, ShortCapability;
    InvalidationFits(); InstanceFits(); RuntimeFits(); EndpointFits(); CapabilityFits();
    var l1 := StoreList(l, c.invalidations, GetInvalidation, WithInvalidations);
    var l2 := StoreList(l1, c.instanceHistory, GetInstance, WithInstanceHistory);
    var l3 := StoreList(l2, c.runtimeHistory, GetRuntime, WithRuntimeHistory);
    var l4 := StoreList(l3, c.endpointHistory, GetEndpoint, WithEndpointHistory);
    var m5 := StoreListFits(l4, c.capabilityHistory, GetCapability, ShortCapability, WithCapabilityHistory);
    var m4 := StoreListFits(l3, c.endpointHistory, GetEndpoint, ShortEndpoint, WithEndpointHistory);
    var m3 := StoreListFits(l2, c.runtimeHistory, GetRuntime, ShortRuntime, WithRuntimeHistory);
    var m2 := StoreListFits(l1, c.instanceHistory, GetInstance, ShortInstance, WithInstanceHistory);
    var m1 := StoreListFits(l, c.invalidations, GetInvalidation, ShortInvalidation, WithInvalidations);
  }

  // ---- an accepted file ----

  lemma CountsAreCountable(s: In)
    requires GetHeader(s).s.ok
    ensures Countable(GetHeader(s).v.counts)
  {
    hide U8, U32, GetNumbers, Count;
    forall u | Count(u).s.ok ensures Count(u).v <= MAX_RECORDS { CountFits(u); }
  }

  lemma CountFits(s: In)
    requires Count(s).s.ok
    ensures Count(s).v <= MAX_RECORDS
  {
    hide U32;
  }

  /** The records of a registry, as the sections of an accepted file leave them. */
  ghost predicate Filled(st: State, c: Counts) {
    CatalogFits(CatalogOf(st), c) && InventoryFits(InventoryOf(st), c) && HistoriesFits(HistoriesOf(st), c)
  }

  lemma RecordsRead(st: State, s: In, c: Counts)
    requires !LoadRecords(st, s, c).failed
    ensures Filled(LoadRecords(st, s, c).st, c)
  {
    hide LoadCatalog, LoadInventory, LoadHistories, Cleared, CatalogFits, InventoryFits, HistoriesFits;
    var l1 := LoadCatalog(Loading(Cleared(st), s, false), c);
    var l2 := LoadInventory(l1, c);
    HistoriesRead(l2, c);
    InventoryRead(l1, c);
    CatalogRead(Loading(Cleared(st), s, false), c);
    hide CatalogOf, InventoryOf, HistoriesOf;
  }

  lemma FilledFits(st: State, c: Counts)
    requires Filled(st, c) && Countable(c)
    ensures KeysMatch(st) && WithinLimits(st)
  {
    hide Filed, AllShort, EachShort;
  }

  lemma RenumberedFits(st: State, x: Numbers, c: Counts)
    requires Filled(st, c)
    ensures Filled(Renumbered(st, x), c)
  {
    hide CatalogFits, InventoryFits, HistoriesFits;
    var next := Renumbered(st, x);
    assert CatalogOf(next) == CatalogOf(st) && InventoryOf(next) == InventoryOf(st)
      && HistoriesOf(next) == HistoriesOf(st);
    hide CatalogOf, InventoryOf, HistoriesOf, Renumbered;
  }

  lemma AcceptedContentFits(into: State, content: Bytes)
    requires LoadContent(into, content).1.Done?
    ensures
      var next := LoadContent(into, content).0;
      KeysMatch(next) && WithinLimits(next) && Recovered(next) == next
  {
    hide GetHeader, LoadRecords, Recovered, Renumbered, Filled, KeysMatch, WithinLimits, Countable;
    var h := GetHeader(In(content, true));
    var l := LoadRecords(into, h.s, h.v.counts);
    CountsAreCountable(In(content, true));
    RecordsRead(into, h.s, h.v.counts);
    RenumberedFits(l.st, h.v.numbers, h.v.counts);
    var read := Renumbered(l.st, h.v.numbers);
    FilledFits(read, h.v.counts);
    Recovery.RecoveredFits(read);
    Recovery.RecoveredTwice(read);
  }

  lemma LoadedFits(into: State, data: Bytes, sha: Bytes -> Digest)
    requires Load(into, data, sha).1.Done?
    ensures
      var st := Load(into, data, sha).0;
      KeysMatch(st) && WithinLimits(st) && Recovered(st) == st
  {
    hide Intact, LoadContent, KeysMatch, WithinLimits, Recovered;
    assert Intact(data, sha);
    Recovery.IntactIsLong(data, sha);
    AcceptedContentFits(into, data[..|data| - 36]);
  }

  /** Whatever file is loaded: a load that succeeds leaves a registry within the limits of the
      reader, and saving that registry and loading the result, into whatever registry, gives it
      back as it is. */
  lemma AcceptedFileSavesBack(into: State, data: Bytes, other: State, sha: Bytes -> Digest)
    requires Load(into, data, sha).1.Done?
    ensures
      var st := Load(into, data, sha).0;
      WithinLimits(st) && Load(other, Saved(st, sha), sha) == (st, Done(0))
  {
    hide Load, KeysMatch, WithinLimits, Recovered, Saved;
    LoadedFits(into, data, sha);
    Recovery.LoadOfSaved(Load(into, data, sha).0, other, sha);
  }

  // ---- what a foreign file may bring in ----

  predicate NamesStatuses(instances: map<Id, Instance>) {
    forall i :: i in instances ==> NamedStatus(instances[i])
  }

  /** A recovered registry trusts no process, has current indexes and no AVAILABLE instance. */
  lemma RecoveredRests(st: State)
    requires Recovered(st) == st
    ensures st.authority.liveBoots == {} && st.authority.bootWorker == map[]
      && st.indexes == Rebuilt(st.services, st.instances)
    ensures forall i :: i in st.instances ==> st.instances[i].lifecycle != Lifecycle.AVAILABLE
  {
    Recovery.RecoveryForgetsAuthority(st, st);
    assert st.instances == RecoveredInstances(st.instances) by {
      hide RecoveredInstances, RecoveredEndpoints, RecoveredCapabilities, RecoveredLeases, Rebuilt;
    }
    assert forall i :: i in st.instances ==> RecoveredInstances(st.instances)[i] == RecoveredInstance(st.instances[i]);
    hide RecoveredInstances, RecoveredEndpoints, RecoveredCapabilities, RecoveredLeases, Rebuilt;
  }

  /** Whatever file is loaded, the registry it leaves satisfies the invariant exactly when its
      instances name services and endpoints of the file and have named statuses: the reader checks
      neither. */
  lemma AcceptedFileKeepsInvExactly(into: State, data: Bytes, sha: Bytes -> Digest)
    requires Load(into, data, sha).1.Done?
    ensures
      var st := Load(into, data, sha).0;
      Inv(st) <==> Referenced(st.services.Keys, st.instances, st.endpoints.Keys) && NamesStatuses(st.instances)
  {
    hide Load, KeysMatch, WithinLimits, Recovered, Rebuilt, Referenced, NamesStatuses, Inv;
    LoadedFits(into, data, sha);
    RestingInv(Load(into, data, sha).0);
  }

  lemma RestingInv(st: State)
    requires KeysMatch(st) && Recovered(st) == st
    ensures Inv(st) <==> Referenced(st.services.Keys, st.instances, st.endpoints.Keys) && NamesStatuses(st.instances)
  {
    RecoveredRests(st);
    hide KeysMatch, Recovered, Rebuilt, Referenced;
  }

  /** And the self-check is silent about it exactly when those references hold. */
  lemma AcceptedFileIsCleanExactly(into: State, data: Bytes, sha: Bytes -> Digest)
    requires Load(into, data, sha).1.Done?
    ensures
      var st := Load(into, data, sha).0;
      (forall v :: !SelfCheck.IsViolation(st, v)) <==> Referenced(st.services.Keys, st.instances, st.endpoints.Keys)
  {
    var st := Load(into, data, sha).0;
    LoadedFits(into, data, sha);
    RecoveredRests(st);
    hide Load, WithinLimits, Recovered, Rebuilt, KeysMatch;
    SelfCheck.CleanExactly(st);
  }

  /** Whatever file is loaded, the boots that may be issued from then on are exactly those above the
      counter in the file, issued before or not. */
  lemma AcceptedFileReissuesExactly(into: State, data: Bytes, boot: Id, sha: Bytes -> Digest)
    requires Load(into, data, sha).1.Done?
    ensures
      var st := Load(into, data, sha).0;
      st.nextBoot < boot <==>
        exists steps ::
          && Runs(st, steps) && Fencing.NoWrap(st.nextBoot, steps)
          && boot in After(st, steps).authority.liveBoots
  {
    hide Load, KeysMatch, WithinLimits, Recovered, Runs, After;
    LoadedFits(into, data, sha);
    Fencing.ReissuedExactly(Load(into, data, sha).0, boot);
  }

  /** Saving and loading gives back the recovered registry exactly when its records are within the
      limits of the reader and filed under their own identities. */
  lemma RoundTripExactly(st: State, into: State, sha: Bytes -> Digest)
    ensures Load(into, Saved(st, sha), sha) == (Recovered(st), Done(0)) <==> Loadable(st)
  {
    hide Load, KeysMatch, WithinLimits, Recovered, Saved;
    if KeysMatch(st) && WithinLimits(st) {
      Recovery.LoadOfSaved(st, into, sha);
    } else if Load(into, Saved(st, sha), sha) == (Recovered(st), Done(0)) {
      LoadedFits(into, Saved(st, sha), sha);
      Recovery.RecoveredFits(st);
    }
  }

  /** A run may reload exactly where loading its own save gives the recovered original back. */
  lemma ReloadableExactly(st: State, sha: Bytes -> Digest)
    ensures Enabled(st, Reload) <==> Load(st, Saved(st, sha), sha) == (Recovered(st), Done(0))
  {
    hide Load, Loadable, Recovered, Saved, KeysMatch, WithinLimits;
    RoundTripExactly(st, st, sha);
  }

  /** The reload of a run is that load. */
  lemma ReloadIsLoad(st: State, sha: Bytes -> Digest)
    requires Enabled(st, Reload)
    ensures Load(st, Saved(st, sha), sha) == Next(st, Reload)
  {
    hide Load, Loadable, Recovered, Saved;
    ReloadableExactly(st, sha);
  }

  /** In every state a run can reach, exactly when it is within the limits. */
  lemma ReachableRoundTrip(steps: seq<Step>, into: State, sha: Bytes -> Digest)
    requires Runs(INITIAL, steps) && forall step :: step in steps ==> Proper(step)
    ensures
      var st := After(INITIAL, steps);
      && (Load(into, Saved(st, sha), sha) == (Recovered(st), Done(0)) <==> WithinLimits(st))
      && Inv(Recovered(st))
  {
    hide Runs, After, Proper, WithinLimits, Recovered, KeysMatch, Referenced, Fenced, AllSound, Rebuilt, Load, Saved,
         INITIAL;
    InitialInv();
    RunsKeep(INITIAL, steps);
    RoundTripExactly(After(INITIAL, steps), into, sha);
    RecoveredKeeps(After(INITIAL, steps));
  }
}
