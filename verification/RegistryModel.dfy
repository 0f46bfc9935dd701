/** The registry as a state and the mutations as functions on it.  Each mutator of src/registry.cpp
    and src/authority.cpp holds one lock for its whole body, so it is one atomic step.  A thrown
    error is a refused outcome; the state beside it is what the call left behind. */
module RegistryModel {
  import opened Base
  import opened Enums
  import opened Records
  import Decimal
  import RecordCodec

  datatype Generations = Generations(
    service: Generation, instance: Generation, runtime: Generation, runtimeInstance: Generation,
    endpoint: Generation, protocol: Generation, backend: Generation, device: Generation,
    capability: Generation, lease: Generation, node: Generation, compat: Generation,
    trust: Generation, authority: Generation)

  datatype Authority = Authority(
    epoch: Generation, registryGeneration: Generation, recordGeneration: Generation,
    currentBoot: map<Id, Id>, liveBoots: set<Id>, bootWorker: map<Id, Id>, gens: Generations)

  datatype Indexes = Indexes(
    byKind: map<ServiceKind, set<Id>>, byService: map<Id, set<Id>>,
    byBoot: map<Id, set<Id>>, byNode: map<Id, set<Id>>)

  datatype State = State(
    authority: Authority,
    services: map<Id, Service>, instances: map<Id, Instance>,
    runtimes: map<Id, Runtime>, runtimeInstances: map<Id, Runtime>,
    endpoints: map<Id, Endpoint>, protocols: map<Id, Protocol>,
    backends: map<Id, Backend>, devices: map<Id, Device>,
    capabilities: map<Id, Capability>, nodes: map<Id, Node>,
    leases: map<Id, Lease>, tombstones: map<Id, Tombstone>, compatRecords: map<Id, Compatibility>,
    invalidations: seq<Invalidation>, instanceHistory: seq<Instance>, runtimeHistory: seq<Runtime>,
    endpointHistory: seq<Endpoint>, capabilityHistory: seq<Capability>,
    indexes: Indexes, nextBoot: u64, nextId: u64)

  /** The components of an authority envelope that some mutator looks at. */
  datatype Envelope = Envelope(
    epoch: Generation, boot: Id, serviceInstanceGeneration: Generation,
    endpointGeneration: Generation, leaseGeneration: Generation)

  datatype ErrorKind =
    | STALE_EPOCH | STALE_BOOT | UNKNOWN_IDENTITY | TOMBSTONE_RESURRECTION | DUPLICATE_CONFLICT
    | STALE_SERVICE_GENERATION | STALE_RUNTIME_GENERATION | STALE_ENDPOINT_GENERATION
    | STALE_CAPABILITY_GENERATION | STALE_INSTANCE_GENERATION | STALE_LEASE_GENERATION
    | STALE_HEALTH | STALE_READINESS | STALE_RENEWAL | MALFORMED

  datatype Outcome = Done(id: Id) | Refused(kind: ErrorKind)

  const NO_GENERATIONS := Generations(0, 0, 0, 0, 0, 0, 0, 0, 0, 0, 0, 0, 0, 0)

  /** A freshly constructed registry. */
  const INITIAL := State(
    Authority(1, 1, 1, map[], {}, map[], NO_GENERATIONS),
    map[], map[], map[], map[], map[], map[], map[], map[], map[], map[], map[], map[], map[],
    [], [], [], [], [], Indexes(map[], map[], map[], map[]), 100, 1)

  // ---- small helpers ----

  function Max(a: u64, b: u64): u64 {
    if a < b then b else a
  }

  /** `commit_registry_generation` */
  function Committed(a: Authority): Authority {
    a.(registryGeneration := Inc(a.registryGeneration), recordGeneration := Inc(a.recordGeneration),
       gens := a.gens.(authority := Inc(a.gens.authority)))
  }

  function Commit(st: State): State {
    st.(authority := Committed(st.authority))
  }

  /** `validate_envelope`: the reason to refuse, if any. */
  function Verdict(a: Authority, env: Envelope): Option<ErrorKind> {
    if env.epoch != a.epoch then Some(STALE_EPOCH)
    else if env.boot !in a.liveBoots then Some(STALE_BOOT)
    else None
  }

  const SERVICE_ID := Ascii("ServiceId")
  const RUNTIME_INSTANCE_ID := Ascii("RuntimeInstanceId")
  const ENDPOINT_ID := Ascii("EndpointId")
  const CAPABILITY_ID := Ascii("CapabilityId")

  predicate Covers(t: Tombstone, kind: Bytes, id: Id, generation: Generation) {
    t.targetKind == kind && t.targetText == Decimal.Digits(id) && generation <= t.generationFloor
  }

  /** `covered_by_tombstone` */
  predicate Covered(tombstones: map<Id, Tombstone>, kind: Bytes, id: Id, generation: Generation) {
    exists k :: k in tombstones && Covers(tombstones[k], kind, id, generation)
  }

  // ---- derived indexes ----

  function Keys<K>(pairs: set<(K, Id)>): set<K> {
    set p | p in pairs :: p.0
  }

  /** The index that lists, under each key, the identities paired with it. */
  function Grouped<K>(pairs: set<(K, Id)>): map<K, set<Id>> {
    map k | k in Keys(pairs) :: (set p | p in pairs && p.0 == k :: p.1)
  }

  function KindPairs(services: map<Id, Service>, instances: map<Id, Instance>): set<(ServiceKind, Id)> {
    set i | i in instances
    && instances[i].serviceId in services :: (services[instances[i].serviceId].kind, instances[i].serviceId)
  }

  function ServicePairs(instances: map<Id, Instance>): set<(Id, Id)> {
    set i | i in instances :: (instances[i].serviceId, instances[i].instanceId)
  }

  function BootPairs(instances: map<Id, Instance>): set<(Id, Id)> {
    set i | i in instances :: (instances[i].boot, instances[i].instanceId)
  }

  function NodePairs(instances: map<Id, Instance>): set<(Id, Id)> {
    set i | i in instances :: (instances[i].node, instances[i].instanceId)
  }

  /** What `rebuild_indexes` computes from the canonical records. */
  function Rebuilt(services: map<Id, Service>, instances: map<Id, Instance>): Indexes {
    Indexes(Grouped(KindPairs(services, instances)), Grouped(ServicePairs(instances)),
            Grouped(BootPairs(instances)), Grouped(NodePairs(instances)))
  }

  function Reindexed(st: State): State {
    st.(indexes := Rebuilt(st.services, st.instances))
  }

  // ---- lifecycle classification ----

  /** `aggregate_health`: a bad endpoint makes the instance unhealthy; short of that a degraded one
      degrades it, unless it already was unhealthy. */
  function AggregateHealth(inst: Instance, endpoints: map<Id, Endpoint>): Health {
    if exists e :: e in inst.endpoints && e in endpoints &&
         (endpoints[e].health == Health.UNHEALTHY || endpoints[e].health == Health.UNAVAILABLE) then Health.UNHEALTHY
    else if inst.health != Health.UNHEALTHY &&
         exists e ::
           e in inst.endpoints && e in endpoints && endpoints[e].health == Health.DEGRADED then Health.DEGRADED
    else inst.health
  }

  /** The endpoint scan of `aggregate_reachability`, which stops at the first obstacle. */
  function ScanReachability(ids: seq<Id>, degraded: bool, endpoints: map<Id, Endpoint>): Reachability {
    if ids == [] then if degraded then Reachability.DEGRADED else Reachability.REACHABLE
    else if ids[0] !in endpoints then Reachability.UNKNOWN
    else
      var r := endpoints[ids[0]].reachability;
      if r == Reachability.UNREACHABLE then Reachability.UNREACHABLE
      else if r == Reachability.REVALIDATION_REQUIRED || r == Reachability.UNKNOWN then
        Reachability.REVALIDATION_REQUIRED
      else ScanReachability(ids[1..], degraded || r == Reachability.DEGRADED, endpoints)
  }

  function AggregateReachability(inst: Instance, endpoints: map<Id, Endpoint>): Reachability {
    if inst.endpoints == [] then inst.reachability else ScanReachability(inst.endpoints, false, endpoints)
  }

  /** The lease named by the instance, if any, is active. */
  predicate LeaseHolds(inst: Instance, leases: map<Id, Lease>) {
    inst.lease != 0 ==> inst.lease in leases && leases[inst.lease].state == LeaseState.ACTIVE
  }

  predicate Provides(inst: Instance, kind: CapabilityKind, capabilities: map<Id, Capability>) {
    exists c :: c in inst.capabilities && c in capabilities
      && capabilities[c].kind == kind && capabilities[c].freshness == Freshness.CURRENT
  }

  predicate ProvidesRequired(inst: Instance, services: map<Id, Service>, capabilities: map<Id, Capability>) {
    inst.serviceId in services ==>
      forall kind :: kind in services[inst.serviceId].requiredCapabilities ==> Provides(inst, kind, capabilities)
  }

  /** The cascade of `reclassify_lifecycle`, on an instance whose health and reachability have
      been aggregated. */
  function Classify(st: State, inst: Instance): Lifecycle {
    if inst.boot !in st.authority.liveBoots then Lifecycle.STALE
    else if inst.freshness != Freshness.CURRENT then Lifecycle.STALE
    else if inst.reachability == Reachability.UNREACHABLE then Lifecycle.UNREACHABLE
    else if inst.reachability == Reachability.REVALIDATION_REQUIRED || inst.reachability == Reachability.UNKNOWN then
      Lifecycle.UNREADY
    else if !LeaseHolds(inst, st.leases) then Lifecycle.STALE
    else if !ProvidesRequired(inst, st.services, st.capabilities) then Lifecycle.UNREADY
    else if inst.readiness == Readiness.DRAINING then Lifecycle.DRAINING
    else if inst.readiness == Readiness.NOT_READY || inst.readiness == Readiness.REVALIDATION_REQUIRED
      || inst.readiness == Readiness.UNKNOWN then Lifecycle.UNREADY
    else if inst.health == Health.UNHEALTHY || inst.health == Health.UNAVAILABLE then Lifecycle.UNREADY
    else if inst.health == Health.DEGRADED || inst.readiness == Readiness.PARTIALLY_READY
      || inst.reachability == Reachability.DEGRADED then Lifecycle.DEGRADED
    else Lifecycle.AVAILABLE
  }

  function Reclassified(st: State, inst: Instance): Instance {
    var seen := inst.(health := AggregateHealth(inst, st.endpoints),
      reachability := AggregateReachability(inst, st.endpoints));
    seen.(lifecycle := Classify(st, seen))
  }

  // ---- authority ----

  /** An instance whose process is gone. */
  function Dead(inst: Instance): Instance {
    inst.(lifecycle := Lifecycle.STALE, freshness := Freshness.STALE,
          reachability := Reachability.UNREACHABLE, readiness := Readiness.NOT_READY)
  }

  /** Some instance of the boot holds the lease. */
  predicate LeasedTo(boot: Id, lease: Id, instances: map<Id, Instance>) {
    lease != 0 && exists i :: i in instances && instances[i].boot == boot && instances[i].lease == lease
  }

  /** Some instance of the boot lists the endpoint and owns it. */
  predicate ClaimedBy(boot: Id, id: Id, ep: Endpoint, instances: map<Id, Instance>) {
    exists i :: i in instances && instances[i].boot == boot && id in instances[i].endpoints
      && ep.serviceInstance == instances[i].instanceId
  }

  function RevokedAuthority(a: Authority, boot: Id): Authority {
    if boot !in a.liveBoots then a
    else
      var owner := if boot in a.bootWorker then a.bootWorker[boot] else 0;
      a.(liveBoots := a.liveBoots - {boot},
         currentBoot := if owner in a.currentBoot && a.currentBoot[owner] == boot then a.currentBoot[owner := 0]
           else a.currentBoot,
         bootWorker := a.bootWorker - {boot})
  }

  function RevokedInstances(instances: map<Id, Instance>, boot: Id): map<Id, Instance> {
    map i | i in instances :: if instances[i].boot == boot then Dead(instances[i]) else instances[i]
  }

  function RevokedLeases(leases: map<Id, Lease>, boot: Id, instances: map<Id, Instance>): map<Id, Lease> {
    map l | l in leases ::
      if leases[l].state == LeaseState.ACTIVE && LeasedTo(boot, l, instances)
      then leases[l].(state := LeaseState.EXPIRED) else leases[l]
  }

  function RevokedEndpoints(endpoints: map<Id, Endpoint>, boot: Id, instances: map<Id, Instance>): map<Id, Endpoint> {
    map e | e in endpoints ::
      if ClaimedBy(boot, e, endpoints[e], instances)
      then endpoints[e].(serviceInstance := 0, reachability := Reachability.UNREACHABLE) else endpoints[e]
  }

  /** `revoke_boot_internal` */
  function Revoked(st: State, boot: Id): State {
    if boot !in st.authority.liveBoots then st
    else
      st.(authority := RevokedAuthority(st.authority, boot),
          instances := RevokedInstances(st.instances, boot),
          leases := RevokedLeases(st.leases, boot, st.instances),
          endpoints := RevokedEndpoints(st.endpoints, boot, st.instances))
  }

  function Granted(a: Authority, worker: Id, boot: Id): Authority {
    a.(currentBoot := a.currentBoot[worker := boot],
       liveBoots := a.liveBoots + {boot},
       bootWorker := a.bootWorker[boot := worker])
  }

  /** `adopt_worker` */
  function Adopted(st: State, worker: Id): (State, Outcome) {
    var boot := Inc(st.nextBoot);
    var counted := st.(nextBoot := boot);
    var prev := st.authority.currentBoot;
    var fenced := if worker in prev && prev[worker] != boot then Revoked(counted, prev[worker]) else counted;
    (fenced.(authority := Granted(fenced.authority, worker, boot)), Done(boot))
  }

  /** What recovery does to an instance. */
  function RecoveredInstance(inst: Instance): Instance {
    var l := inst.lifecycle;
    if l == Lifecycle.AVAILABLE || l == Lifecycle.DEGRADED || l == Lifecycle.UNREADY then
      inst.(freshness := Freshness.REVALIDATION_REQUIRED, reachability := Reachability.REVALIDATION_REQUIRED,
            lifecycle := Lifecycle.UNREADY, updatedMs := 0)
    else inst.(updatedMs := 0)
  }

  function RecoveredEndpoint(ep: Endpoint): Endpoint {
    if ep.transport == TransportKind.IN_PROCESS || ep.transport == TransportKind.LOCAL_IPC then
      ep.(freshness := Freshness.REVALIDATION_REQUIRED, reachability := Reachability.REVALIDATION_REQUIRED)
    else if ep.transport == TransportKind.TCP then ep.(reachability := Reachability.REVALIDATION_REQUIRED)
    else ep
  }

  function RecoveredCapability(cap: Capability): Capability {
    if cap.freshness == Freshness.CURRENT && cap.provenance.IsPhysical() then
      cap.(freshness := Freshness.REVALIDATION_REQUIRED) else cap
  }

  function RecoveredLease(lease: Lease): Lease {
    if lease.state == LeaseState.ACTIVE then lease.(state := LeaseState.REVALIDATION_REQUIRED) else lease
  }

  function RecoveredInstances(instances: map<Id, Instance>): map<Id, Instance> {
    map i | i in instances :: RecoveredInstance(instances[i])
  }

  function RecoveredEndpoints(endpoints: map<Id, Endpoint>): map<Id, Endpoint> {
    map e | e in endpoints :: RecoveredEndpoint(endpoints[e])
  }

  function RecoveredCapabilities(capabilities: map<Id, Capability>): map<Id, Capability> {
    map c | c in capabilities :: RecoveredCapability(capabilities[c])
  }

  function RecoveredLeases(leases: map<Id, Lease>): map<Id, Lease> {
    map l | l in leases :: RecoveredLease(leases[l])
  }

  /** No process is trusted any more; what depended on a live process awaits revalidation. */
  function Distrusted(st: State): State {
    st.(authority := st.authority.(liveBoots := {}, currentBoot := map[], bootWorker := map[]),
        instances := RecoveredInstances(st.instances),
        endpoints := RecoveredEndpoints(st.endpoints),
        capabilities := RecoveredCapabilities(st.capabilities),
        leases := RecoveredLeases(st.leases))
  }

  /** `begin_coordinator_epoch` */
  function NewEpoch(st: State): State {
    Distrusted(st.(authority := st.authority.(epoch := Inc(st.authority.epoch))))
  }

  /** The recovery that ends `load_from`: the epoch stays, the indexes are rebuilt. */
  function Recovered(st: State): State {
    Reindexed(Distrusted(st))
  }

  // ---- registration ----

  function RegisterService(st: State, svc: Service): (State, Outcome) {
    var id := svc.serviceId;
    var accepted := Reindexed(Commit(st.(
      services := st.services[id := svc],
      authority := st.authority.(gens := st.authority.gens.(service := Max(st.authority.gens.service,
        svc.generation))))));
    if id in st.services then
      var cur := st.services[id];
      if svc.generation == cur.generation && SameService(svc, cur) then (st, Done(0))
      else if svc.generation <= cur.generation then (st, Refused(STALE_SERVICE_GENERATION))
      else (accepted, Done(0))
    else if Covered(st.tombstones, SERVICE_ID, id, svc.generation) then (st, Refused(TOMBSTONE_RESURRECTION))
    else (accepted, Done(0))
  }

  function RegisterRuntime(st: State, rt: Runtime): (State, Outcome) {
    var id := rt.runtimeInstance;
    var a := st.authority.(gens := st.authority.gens.(runtime := Max(st.authority.gens.runtime, rt.generation)));
    if id in st.runtimeInstances then
      var cur := st.runtimeInstances[id];
      if rt.generation == cur.generation && SameRuntime(rt, cur) then (st, Done(id))
      else if rt.generation <= cur.generation then (st, Refused(STALE_RUNTIME_GENERATION))
      else (Commit(st.(authority := a, runtimeInstances := st.runtimeInstances[id := rt])), Done(id))
    else if Covered(st.tombstones, RUNTIME_INSTANCE_ID, id, rt.generation) then (st, Refused(TOMBSTONE_RESURRECTION))
    else
      var copy := if id == 0 then rt.(runtimeInstance := st.nextId) else rt;
      (Commit(st.(authority := a, nextId := if id == 0 then Inc(st.nextId) else st.nextId,
                  runtimes := st.runtimes[rt.runtimeId := copy],
                  runtimeInstances := st.runtimeInstances[copy.runtimeInstance := copy],
                  runtimeHistory := st.runtimeHistory + [copy])),
       Done(copy.runtimeInstance))
  }

  function RegisterProtocol(st: State, pd: Protocol): (State, Outcome) {
    var id := pd.protocolId;
    var accepted := Commit(st.(
      protocols := st.protocols[id := pd],
      authority := st.authority.(gens := st.authority.gens.(protocol := Max(st.authority.gens.protocol,
        pd.generation)))));
    if id in st.protocols && pd.generation == st.protocols[id].generation && pd == st.protocols[id] then (st, Done(0))
    else if id in st.protocols && pd.generation <= st.protocols[id].generation then (st, Refused(DUPLICATE_CONFLICT))
    else (accepted, Done(0))
  }

  function RegisterEndpoint(st: State, ep: Endpoint): (State, Outcome) {
    var id := ep.endpointId;
    var a := st.authority.(gens := st.authority.gens.(endpoint := Max(st.authority.gens.endpoint, ep.generation)));
    if id in st.endpoints then
      var cur := st.endpoints[id];
      if ep == cur then (st, Done(id))
      else if ep.generation <= cur.generation then (st, Refused(STALE_ENDPOINT_GENERATION))
      else (Commit(st.(authority := a, endpoints := st.endpoints[id := ep],
        endpointHistory := st.endpointHistory + [cur])), Done(id))
    else if Covered(st.tombstones, ENDPOINT_ID, id, ep.generation) then (st, Refused(TOMBSTONE_RESURRECTION))
    else
      var copy := if id == 0 then ep.(endpointId := st.nextId) else ep;
      (Commit(st.(authority := a, nextId := if id == 0 then Inc(st.nextId) else st.nextId,
                  endpoints := st.endpoints[copy.endpointId := copy],
                  endpointHistory := st.endpointHistory + [copy])),
       Done(copy.endpointId))
  }

  function RegisterCapability(st: State, cap: Capability): (State, Outcome) {
    var id := cap.capabilityId;
    var a := st.authority.(gens := st.authority.gens.(capability := Max(st.authority.gens.capability, cap.generation)));
    if id in st.capabilities then
      var cur := st.capabilities[id];
      if cap.generation == cur.generation && SameCapability(cap, cur) then (st, Done(id))
      else if cap.generation <= cur.generation then (st, Refused(STALE_CAPABILITY_GENERATION))
      else (Commit(st.(authority := a, capabilities := st.capabilities[id := cap],
        capabilityHistory := st.capabilityHistory + [cur])), Done(id))
    else if Covered(st.tombstones, CAPABILITY_ID, id, cap.generation) then (st, Refused(TOMBSTONE_RESURRECTION))
    else
      var copy := if id == 0 then cap.(capabilityId := st.nextId) else cap;
      (Commit(st.(authority := a, nextId := if id == 0 then Inc(st.nextId) else st.nextId,
                  capabilities := st.capabilities[copy.capabilityId := copy],
                  capabilityHistory := st.capabilityHistory + [copy])),
       Done(copy.capabilityId))
  }

  // ---- instances ----

  /** An instance of the service that is not history. */
  predicate Standing(instances: map<Id, Instance>, i: Id, service: Id) {
    i in instances && instances[i].serviceId == service && !instances[i].lifecycle.Terminal()
  }

  /** The instance `register_instance` settles on: a standing one of the largest generation.  On a
      tie the iteration order of the hash map decides, so the choice is the step's. */
  predicate IsCurrent(instances: map<Id, Instance>, service: Id, current: Option<Id>) {
    match current
    case None => forall i :: i in instances ==> !Standing(instances, i, service)
    case Some(c) =>
      Standing(instances, c, service) &&
      forall i ::
        i in instances && Standing(instances, i, service) ==>
          instances[i].instanceGeneration <= instances[c].instanceGeneration
  }

  /** The owner of an endpoint no longer defends it. */
  predicate Inactive(instances: map<Id, Instance>, owner: Id) {
    owner !in instances || instances[owner].lifecycle.Terminal() || instances[owner].lifecycle == Lifecycle.STALE
  }

  /** The endpoint loop of `register_instance`: what it binds before it ends or throws. */
  function Bind(instances: map<Id, Instance>, endpoints: map<Id, Endpoint>, ids: seq<Id>,
      owner: Id): (map<Id, Endpoint>, Option<ErrorKind>)
    decreases |ids|
  {
    if ids == [] then (endpoints, None)
    else
      var e := ids[0];
      if e !in endpoints then (endpoints, Some(UNKNOWN_IDENTITY))
      else
        var ep := endpoints[e];
        if ep.serviceInstance == 0 then
          Bind(instances, endpoints[e := ep.(serviceInstance := owner)], ids[1..], owner)
        else if ep.serviceInstance != owner then
          if !Inactive(instances, ep.serviceInstance) then (endpoints, Some(DUPLICATE_CONFLICT))
          else
            var taken := ep.(serviceInstance := owner, reachability := Reachability.REACHABLE,
              freshness := Freshness.CURRENT);
            Bind(instances, endpoints[e := taken], ids[1..], owner)
        else Bind(instances, endpoints, ids[1..], owner)
  }

  /** An instance with its identity, allocated if it had none. */
  function Identified(st: State, inst: Instance): Instance {
    if inst.instanceId == 0 then inst.(instanceId := st.nextId) else inst
  }

  function Allocated(st: State, inst: Instance): State {
    st.(nextId := if inst.instanceId == 0 then Inc(st.nextId) else st.nextId)
  }

  /** The state in which the old current instance has given way. */
  function GivenWay(st: State, current: Option<Id>): State
    requires current.Some? ==> current.value in st.instances
  {
    match current
    case None => st
    case Some(c) =>
      st.(instanceHistory := st.instanceHistory + [st.instances[c]],
          instances := st.instances[c := st.instances[c].(lifecycle := Lifecycle.SUPERSEDED)])
  }

  /** The generation and tombstone tests: `Some` when registration ends here. */
  function Settled(st: State, copy: Instance, current: Option<Id>): Option<Outcome>
    requires current.Some? ==> current.value in st.instances
  {
    match current
    case Some(c) =>
      var cur := st.instances[c];
      if copy.instanceGeneration == cur.instanceGeneration && SameInstance(copy, cur) then Some(Done(copy.instanceId))
      else if copy.instanceGeneration <= cur.instanceGeneration then Some(Refused(STALE_INSTANCE_GENERATION))
      else None
    case None =>
      if Covered(st.tombstones, SERVICE_ID, copy.serviceId, copy.instanceGeneration) then
        Some(Refused(TOMBSTONE_RESURRECTION))
      else None
  }

  /** The instance stored, classified, committed and indexed. */
  function Installed(st: State, copy: Instance): State {
    var stored := st.(instances := st.instances[copy.instanceId := copy],
      instanceHistory := st.instanceHistory + [copy]);
    Reindexed(Commit(stored.(instances := stored.instances[copy.instanceId := Reclassified(stored, copy)])))
  }

  /** Not a transaction: the old instance gives way, and endpoints are bound one by one, before
      the endpoint loop may throw. */
  function RegisterInstance(st: State, inst: Instance, current: Option<Id>): (State, Outcome)
    requires current.Some? ==> current.value in st.instances
  {
    if inst.serviceId !in st.services then (st, Refused(UNKNOWN_IDENTITY))
    else
      var copy := Identified(st, inst);
      var counted := Allocated(st, inst);
      match Settled(counted, copy, current)
      case Some(outcome) => (counted, outcome)
      case None =>
        var vacated := GivenWay(counted, current);
        var (bound, failure) := Bind(vacated.instances, vacated.endpoints, copy.endpoints, copy.instanceId);
        var claimed := vacated.(endpoints := bound);
        if failure.Some? then (claimed, Refused(failure.value))
        else (Installed(claimed, copy), Done(copy.instanceId))
  }

  /** `generation_is_current_generation` */
  predicate GenerationMatches(env: Envelope, inst: Instance) {
    env.serviceInstanceGeneration != 0 ==> env.serviceInstanceGeneration == inst.instanceGeneration
  }

  /** What the four instance updates change. */
  datatype Observation =
    | SetHealth(health: Health) | SetReadiness(readiness: Readiness)
    | SetFreshness(freshness: Freshness) | SetReachability(reachability: Reachability)
  {
    function On(inst: Instance): Instance {
      match this
      case SetHealth(h) => inst.(health := h)
      case SetReadiness(r) => inst.(readiness := r)
      case SetFreshness(f) => inst.(freshness := f)
      case SetReachability(r) => inst.(reachability := r)
    }

    function Staleness(): ErrorKind {
      match this
      case SetHealth(_) => STALE_HEALTH
      case SetReadiness(_) => STALE_READINESS
      case _ => STALE_EPOCH
    }
  }

  function Observe(st: State, env: Envelope, id: Id, o: Observation): (State, Outcome) {
    if id !in st.instances then (st, Refused(UNKNOWN_IDENTITY))
    else if !GenerationMatches(env, st.instances[id]) then (st, Refused(o.Staleness()))
    else (Commit(st.(instances := st.instances[id := Reclassified(st, o.On(st.instances[id]))])), Done(0))
  }

  /** `update_reachability`: an endpoint changes and its owner is reclassified. */
  function UpdateReachability(st: State, env: Envelope, id: Id, r: Reachability): (State, Outcome) {
    if id !in st.endpoints then (st, Refused(UNKNOWN_IDENTITY))
    else
      var ep := st.endpoints[id];
      if env.endpointGeneration != 0 && env.endpointGeneration != ep.generation then (st, Refused(STALE_EPOCH))
      else
        var seen := st.(endpoints := st.endpoints[id := ep.(reachability := r)]);
        var owner := ep.serviceInstance;
        (Commit(seen.(instances := if owner != 0 && owner in st.instances
                                   then st.instances[owner := Reclassified(seen, st.instances[owner])]
                                     else st.instances)),
         Done(0))
  }

  function Supersede(st: State, oldId: Id, inst: Instance, current: Option<Id>): (State, Outcome)
    requires current.Some? ==> current.value in st.instances
  {
    if oldId !in st.instances then (st, Refused(UNKNOWN_IDENTITY))
    else RegisterInstance(GivenWay(st, Some(oldId)), inst, current)
  }

  function Deregister(st: State, env: Envelope, id: Id): (State, Outcome) {
    if id !in st.instances then (st, Done(0))
    else
      var inst := st.instances[id];
      if !GenerationMatches(env, inst) then (st, Refused(STALE_INSTANCE_GENERATION))
      else
        (Commit(st.(instanceHistory := st.instanceHistory + [inst],
                    instances := st.instances[id := inst.(lifecycle := Lifecycle.RETIRED)])),
         Done(0))
  }

  // ---- leases, invalidations, tombstones ----

  function AcquireLease(st: State, lease: Lease): (State, Outcome) {
    var gen := Inc(st.authority.gens.lease);
    var id := if lease.leaseId == 0 then st.nextId else lease.leaseId;
    (Commit(st.(authority := st.authority.(gens := st.authority.gens.(lease := gen)),
                nextId := if lease.leaseId == 0 then Inc(st.nextId) else st.nextId,
                leases := st.leases[id := lease.(leaseId := id, generation := gen)])),
     Done(id))
  }

  function RenewLease(st: State, env: Envelope, id: Id): (State, Outcome) {
    if id !in st.leases then (st, Refused(UNKNOWN_IDENTITY))
    else
      var lease := st.leases[id];
      if lease.state == LeaseState.REVOKED then (st, Refused(STALE_RENEWAL))
      else if lease.serviceInstance in st.instances && st.instances[lease.serviceInstance].boot != env.boot then
        (st, Refused(STALE_BOOT))
      else if env.leaseGeneration != 0 && env.leaseGeneration != lease.generation then
        (st, Refused(STALE_LEASE_GENERATION))
      else (Commit(st.(leases := st.leases[id := lease.(state := LeaseState.ACTIVE)])), Done(0))
  }

  /** `expire_lease` and `revoke_lease` */
  function EndLease(st: State, id: Id, state: LeaseState): (State, Outcome) {
    if id !in st.leases then (st, Done(0))
    else
      var lease := st.leases[id];
      (Commit(st.(leases := if lease.state == LeaseState.ACTIVE then st.leases[id := lease.(state := state)]
        else st.leases)), Done(0))
  }

  function Invalidate(st: State, rec: Invalidation): (State, Outcome) {
    (Commit(st.(invalidations := st.invalidations + [rec])), Done(0))
  }

  function CreateTombstone(st: State, tomb: Tombstone): (State, Outcome) {
    var id := if tomb.tombstoneId == 0 then st.nextId else tomb.tombstoneId;
    (Commit(st.(nextId := if tomb.tombstoneId == 0 then Inc(st.nextId) else st.nextId,
                tombstones := st.tombstones[id := tomb.(tombstoneId := id)])),
     Done(id))
  }

  // ---- what a save can hold ----

  const MAX_RECORDS := 10_000_000

  /** Every record is filed under its own identity. */
  predicate KeysMatch(st: State) {
    && Filed(st.services, ServiceKey) && Filed(st.instances, InstanceKey)
    && Filed(st.runtimes, RuntimeKey) && Filed(st.runtimeInstances, RuntimeInstanceKey)
    && Filed(st.endpoints, EndpointKey) && Filed(st.protocols, ProtocolKey)
    && Filed(st.backends, BackendKey) && Filed(st.devices, DeviceKey)
    && Filed(st.capabilities, CapabilityKey) && Filed(st.nodes, NodeKey)
    && Filed(st.leases, LeaseKey) && Filed(st.tombstones, TombstoneKey)
    && Filed(st.compatRecords, CompatibilityKey)
  }

  /** The only kind of record whose contents are checked: a service must have a named kind. */
  predicate KnownKind(x: Service) {
    x.kind as int <= 16
  }

  predicate AllShort<V>(m: map<Id, V>, short: V -> bool) {
    forall k :: k in m ==> short(m[k])
  }

  ghost predicate EachShort<V>(xs: seq<V>, short: V -> bool) {
    forall x :: x in xs ==> short(x)
  }

  ghost predicate ShortCatalog(st: State) {
    && AllShort(st.services, RecordCodec.ShortService)
    && AllShort(st.instances, RecordCodec.ShortInstance)
    && AllShort(st.runtimes, RecordCodec.ShortRuntime)
    && AllShort(st.runtimeInstances, RecordCodec.ShortRuntime)
    && AllShort(st.endpoints, RecordCodec.ShortEndpoint)
    && AllShort(st.protocols, RecordCodec.ShortProtocol)
    && AllShort(st.services, KnownKind)
  }

  ghost predicate ShortInventory(st: State) {
    && AllShort(st.backends, RecordCodec.ShortBackend)
    && AllShort(st.devices, RecordCodec.ShortDevice)
    && AllShort(st.capabilities, RecordCodec.ShortCapability)
    && AllShort(st.nodes, RecordCodec.ShortNode)
    && AllShort(st.leases, RecordCodec.ShortLease)
    && AllShort(st.tombstones, RecordCodec.ShortTombstone)
    && AllShort(st.compatRecords, RecordCodec.ShortCompatibility)
  }

  ghost predicate ShortHistories(st: State) {
    && EachShort(st.invalidations, RecordCodec.ShortInvalidation)
    && EachShort(st.instanceHistory, RecordCodec.ShortInstance)
    && EachShort(st.runtimeHistory, RecordCodec.ShortRuntime)
    && EachShort(st.endpointHistory, RecordCodec.ShortEndpoint)
    && EachShort(st.capabilityHistory, RecordCodec.ShortCapability)
  }

  /** The state fits the limits of the reader. */
  ghost predicate WithinLimits(st: State) {
    && ShortCatalog(st) && ShortInventory(st) && ShortHistories(st)
    && |st.services| <= MAX_RECORDS && |st.instances| <= MAX_RECORDS && |st.runtimes| <= MAX_RECORDS
    && |st.runtimeInstances| <= MAX_RECORDS
    && |st.endpoints| <= MAX_RECORDS && |st.protocols| <= MAX_RECORDS && |st.backends| <= MAX_RECORDS
    && |st.devices| <= MAX_RECORDS
    && |st.capabilities| <= MAX_RECORDS && |st.nodes| <= MAX_RECORDS && |st.leases| <= MAX_RECORDS
    && |st.tombstones| <= MAX_RECORDS
    && |st.compatRecords| <= MAX_RECORDS && |st.invalidations| <= MAX_RECORDS && |st.instanceHistory| <= MAX_RECORDS
    && |st.runtimeHistory| <= MAX_RECORDS && |st.endpointHistory| <= MAX_RECORDS
    && |st.capabilityHistory| <= MAX_RECORDS
  }

  /** A save of the registry loads back: its records are filed under their own identities and within
      the limits of the reader. */
  ghost predicate Loadable(st: State) {
    KeysMatch(st) && WithinLimits(st)
  }

  // ---- steps and runs ----

  datatype Op =
    | OpService(svc: Service) | OpRuntime(rt: Runtime) | OpProtocol(pd: Protocol)
    | OpEndpoint(ep: Endpoint) | OpCapability(cap: Capability)
    | OpInstance(inst: Instance, current: Option<Id>)
    | OpObserve(id: Id, o: Observation)
    | OpReachability(endpoint: Id, r: Reachability)
    | OpAcquire(lease: Lease) | OpRenew(id: Id) | OpEnd(id: Id, state: LeaseState)
    | OpInvalidate(rec: Invalidation) | OpTombstone(tomb: Tombstone)
    | OpSupersede(id: Id, inst: Instance, current: Option<Id>)
    | OpDeregister(id: Id)

  /** The choice recorded in a registration is one the scan could have made. */
  predicate Possible(st: State, op: Op) {
    match op
    case OpInstance(inst, current) => IsCurrent(st.instances, inst.serviceId, current)
    case OpSupersede(id, inst, current) => id in st.instances ==>
      IsCurrent(GivenWay(st, Some(id)).instances, inst.serviceId, current)
    case _ => true
  }

  /** A mutator after its envelope was accepted. */
  function Perform(st: State, env: Envelope, op: Op): (State, Outcome)
    requires Possible(st, op)
  {
    match op
    case OpService(svc) => RegisterService(st, svc)
    case OpRuntime(rt) => RegisterRuntime(st, rt)
    case OpProtocol(pd) => RegisterProtocol(st, pd)
    case OpEndpoint(ep) => RegisterEndpoint(st, ep)
    case OpCapability(cap) => RegisterCapability(st, cap)
    case OpInstance(inst, current) => RegisterInstance(st, inst, current)
    case OpObserve(id, o) => Observe(st, env, id, o)
    case OpReachability(id, r) => UpdateReachability(st, env, id, r)
    case OpAcquire(lease) => AcquireLease(st, lease)
    case OpRenew(id) => RenewLease(st, env, id)
    case OpEnd(id, state) => EndLease(st, id, state)
    case OpInvalidate(rec) => Invalidate(st, rec)
    case OpTombstone(tomb) => CreateTombstone(st, tomb)
    case OpSupersede(id, inst, current) => if id in st.instances then Supersede(st, id, inst, current)
      else (st, Refused(UNKNOWN_IDENTITY))
    case OpDeregister(id) => Deregister(st, env, id)
  }

  /** Every mutator first validates its envelope. */
  function Mutate(st: State, env: Envelope, op: Op): (State, Outcome)
    requires Possible(st, op)
  {
    match Verdict(st.authority, env)
    case Some(kind) => (st, Refused(kind))
    case None => Perform(st, env, op)
  }

  /** One locked call.  `Reload` saves the registry and loads the bytes back; a run goes through it
      only where the load succeeds. */
  datatype Step =
    | Adopt(worker: Id) | Died(boot: Id) | BeginEpoch | Reload
    | Call(env: Envelope, op: Op)

  ghost predicate Enabled(st: State, step: Step) {
    match step
    case Call(_, op) => Possible(st, op)
    case Reload => Loadable(st)
    case _ => true
  }

  function Next(st: State, step: Step): (State, Outcome)
    requires Enabled(st, step)
  {
    match step
    case Adopt(worker) => Adopted(st, worker)
    case Died(boot) => (Revoked(st, boot), Done(0))
    case BeginEpoch => (NewEpoch(st), Done(0))
    case Reload => (Recovered(st), Done(0))
    case Call(env, op) => Mutate(st, env, op)
  }

  ghost predicate Runs(st: State, steps: seq<Step>)
    decreases |steps|
  {
    steps == [] || (Enabled(st, steps[0]) && Runs(Next(st, steps[0]).0, steps[1..]))
  }

  /** The state after a run of any length. */
  function After(st: State, steps: seq<Step>): State
    requires Runs(st, steps)
    decreases |steps|
  {
    if steps == [] then st else After(Next(st, steps[0]).0, steps[1..])
  }
}
