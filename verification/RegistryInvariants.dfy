/** What every step of the registry keeps, also when it throws. */
module RegistryInvariants {
  import opened Base
  import opened Enums
  import opened Records
  import opened RegistryModel

  // ---- the invariant ----

  /** Every instance names a registered service and registered endpoints. */
  predicate Referenced(services: set<Id>, instances: map<Id, Instance>, endpoints: set<Id>) {
    forall i :: i in instances ==>
      && instances[i].serviceId in services
      && forall e :: e in instances[i].endpoints ==> e in endpoints
  }

  /** Exactly the live boots have an owner, and each is the current boot of its owner. */
  predicate Fenced(liveBoots: set<Id>, bootWorker: map<Id, Id>, currentBoot: map<Id, Id>) {
    && bootWorker.Keys == liveBoots
    && forall b :: b in liveBoots ==> bootWorker[b] in currentBoot && currentBoot[bootWorker[b]] == b
  }

  predicate NamedStatus(inst: Instance) {
    inst.health.Named() && inst.readiness.Named() && inst.reachability.Named()
  }

  /** What an AVAILABLE instance may rely on. */
  predicate Sound(inst: Instance, liveBoots: set<Id>) {
    inst.lifecycle == Lifecycle.AVAILABLE ==>
      && inst.boot in liveBoots
      && inst.freshness == Freshness.CURRENT
      && inst.reachability == Reachability.REACHABLE
      && inst.readiness == Readiness.READY
      && (inst.health == Health.HEALTHY || inst.health == Health.UNKNOWN)
  }

  predicate AllSound(instances: map<Id, Instance>, liveBoots: set<Id>) {
    forall i :: i in instances ==> NamedStatus(instances[i]) && Sound(instances[i], liveBoots)
  }

  predicate Inv(st: State) {
    && KeysMatch(st)
    && Referenced(st.services.Keys, st.instances, st.endpoints.Keys)
    && Fenced(st.authority.liveBoots, st.authority.bootWorker, st.authority.currentBoot)
    && AllSound(st.instances, st.authority.liveBoots)
    && st.indexes == Rebuilt(st.services, st.instances)
  }

  /** Callers pass statuses by name. */
  predicate Proper(step: Step) {
    match step
    case Call(_, OpInstance(inst, _)) => NamedStatus(inst)
    case Call(_, OpSupersede(_, inst, _)) => NamedStatus(inst)
    case Call(_, OpObserve(_, SetHealth(h))) => h.Named()
    case Call(_, OpObserve(_, SetReadiness(r))) => r.Named()
    case Call(_, OpObserve(_, SetReachability(r))) => r.Named()
    case _ => true
  }

  // ---- indexes ----

  /** Two instance maps that differ only in fields no index looks at. */
  predicate Agree(a: map<Id, Instance>, b: map<Id, Instance>) {
    a.Keys == b.Keys && forall i :: i in a ==>
      && a[i].instanceId == b[i].instanceId && a[i].serviceId == b[i].serviceId
      && a[i].boot == b[i].boot && a[i].node == b[i].node && a[i].endpoints == b[i].endpoints
  }

  lemma AgreeingIndexes(services: map<Id, Service>, a: map<Id, Instance>, b: map<Id, Instance>)
    requires Agree(a, b)
    ensures Rebuilt(services, a) == Rebuilt(services, b)
  {
    assert KindPairs(services, a) == KindPairs(services, b);
    assert ServicePairs(a) == ServicePairs(b);
    assert BootPairs(a) == BootPairs(b);
    assert NodePairs(a) == NodePairs(b);
  }

  // ---- classification ----

  lemma ScanIsNamed(ids: seq<Id>, degraded: bool, endpoints: map<Id, Endpoint>)
    ensures ScanReachability(ids, degraded, endpoints).Named()
  {
  }

  /** Reclassifying keeps what indexes look at and leaves a sound instance. */
  lemma ReclassifiedIsSound(st: State, inst: Instance)
    requires NamedStatus(inst)
    ensures NamedStatus(Reclassified(st, inst)) && Sound(Reclassified(st, inst), st.authority.liveBoots)
    ensures !Reclassified(st, inst).lifecycle.Terminal()
  {
    hide ProvidesRequired, LeaseHolds, ScanReachability;
    ScanIsNamed(inst.endpoints, false, st.endpoints);
  }

  /** When an instance is AVAILABLE, said at once instead of step by step: current authority and
      freshness, an active lease if it names one, all required capabilities present and current,
      readiness, health, and every endpoint registered and reachable. */
  lemma AvailableExactly(st: State, inst: Instance)
    requires NamedStatus(inst)
    requires forall e ::
      e in inst.endpoints && e in st.endpoints ==>
        st.endpoints[e].health.Named() && st.endpoints[e].reachability.Named()
    ensures Reclassified(st, inst).lifecycle == Lifecycle.AVAILABLE <==>
      && inst.boot in st.authority.liveBoots
      && inst.freshness == Freshness.CURRENT
      && LeaseHolds(inst, st.leases)
      && ProvidesRequired(inst, st.services, st.capabilities)
      && inst.readiness == Readiness.READY
      && (inst.health == Health.HEALTHY || inst.health == Health.UNKNOWN)
      && (inst.endpoints == [] ==> inst.reachability == Reachability.REACHABLE)
      && (forall e :: e in inst.endpoints ==>
           && e in st.endpoints
           && st.endpoints[e].reachability == Reachability.REACHABLE
           && (st.endpoints[e].health == Health.HEALTHY || st.endpoints[e].health == Health.UNKNOWN))
  {
    hide ProvidesRequired, LeaseHolds, ScanReachability;
    ScanExactly(inst.endpoints, false, st.endpoints);
    var seen := inst.(health := AggregateHealth(inst, st.endpoints),
      reachability := AggregateReachability(inst, st.endpoints));
    assert LeaseHolds(seen, st.leases) == LeaseHolds(inst, st.leases) by {
      CascadeIgnoresStatus(st, inst, seen);
    }
    CascadeIgnoresStatus(st, inst, seen);
  }

  lemma CascadeIgnoresStatus(st: State, a: Instance, b: Instance)
    requires a.lease == b.lease && a.serviceId == b.serviceId && a.capabilities == b.capabilities
    ensures LeaseHolds(a, st.leases) == LeaseHolds(b, st.leases)
    ensures ProvidesRequired(a, st.services, st.capabilities) == ProvidesRequired(b, st.services, st.capabilities)
  {
    assert forall kind :: Provides(a, kind, st.capabilities) == Provides(b, kind, st.capabilities);
  }

  lemma {:induction false} ScanExactly(ids: seq<Id>, degraded: bool, endpoints: map<Id, Endpoint>)
    requires forall e :: e in ids && e in endpoints ==> endpoints[e].reachability.Named()
    ensures ScanReachability(ids, degraded, endpoints).Named()
    ensures ScanReachability(ids, degraded, endpoints) == Reachability.REACHABLE <==>
      !degraded && forall e :: e in ids ==> e in endpoints && endpoints[e].reachability == Reachability.REACHABLE
  {
    if ids != [] {
      assert ids == [ids[0]] + ids[1..];
      if ids[0] in endpoints {
        ScanExactly(ids[1..], degraded || endpoints[ids[0]].reachability == Reachability.DEGRADED, endpoints);
      }
    }
  }

  /** What stops the scan of `aggregate_reachability` at an endpoint, if anything does. */
  function Obstacle(e: Id, endpoints: map<Id, Endpoint>): Option<Reachability> {
    if e !in endpoints then Some(Reachability.UNKNOWN)
    else
      var r := endpoints[e].reachability;
      if r == Reachability.UNREACHABLE then Some(Reachability.UNREACHABLE)
      else if r == Reachability.REVALIDATION_REQUIRED || r == Reachability.UNKNOWN then
        Some(Reachability.REVALIDATION_REQUIRED)
      else None
  }

  /** With obstacles of one sort only, the result says whether there are any, whatever the order of
      the endpoints. */
  lemma {:induction false} ScanIgnoresOrder(ids: seq<Id>, degraded: bool, endpoints: map<Id, Endpoint>,
      sort: Reachability)
    requires forall e :: e in ids ==> Obstacle(e, endpoints) == None || Obstacle(e, endpoints) == Some(sort)
    ensures ScanReachability(ids, degraded, endpoints) ==
      if exists e :: e in ids && Obstacle(e, endpoints) != None then sort
      else if degraded || exists e ::
        e in ids && endpoints[e].reachability == Reachability.DEGRADED then Reachability.DEGRADED
      else Reachability.REACHABLE
  {
    if ids != [] {
      assert ids == [ids[0]] + ids[1..];
      if Obstacle(ids[0], endpoints) == None {
        ScanIgnoresOrder(ids[1..], degraded || endpoints[ids[0]].reachability ==
          Reachability.DEGRADED, endpoints, sort);
      }
    }
  }

  /** All endpoints that stop the scan stop it for the same reason. */
  predicate OneSort(ids: seq<Id>, endpoints: map<Id, Endpoint>) {
    forall a, b ::
      a in ids && b in ids && Obstacle(a, endpoints).Some? && Obstacle(b, endpoints).Some? ==>
        Obstacle(a, endpoints) == Obstacle(b, endpoints)
  }

  /** The element at `k` moved to the front. */
  function ToFront(ids: seq<Id>, k: nat): seq<Id>
    requires k < |ids|
  {
    [ids[k]] + ids[..k] + ids[k + 1..]
  }

  lemma ToFrontPermutes(ids: seq<Id>, k: nat)
    requires k < |ids|
    ensures multiset(ToFront(ids, k)) == multiset(ids)
  {
    assert ids == ids[..k] + [ids[k]] + ids[k + 1..];
  }

  lemma FirstObstacleDecides(ids: seq<Id>, endpoints: map<Id, Endpoint>)
    requires ids != [] && Obstacle(ids[0], endpoints).Some?
    ensures ScanReachability(ids, false, endpoints) == Obstacle(ids[0], endpoints).value
  {
  }

  /** The order of the endpoints is irrelevant exactly when all obstacles among them are of one
      sort; otherwise some permutation gives another reachability. */
  lemma ScanIgnoresOrderExactly(ids: seq<Id>, endpoints: map<Id, Endpoint>)
    ensures (forall p: seq<Id> {:trigger ScanReachability(p, false, endpoints)} ::
               multiset(p) == multiset(ids) ==>
                 ScanReachability(p, false, endpoints) == ScanReachability(ids, false, endpoints))
      <==> OneSort(ids, endpoints)
  {
    hide ScanReachability, Obstacle;
    if OneSort(ids, endpoints) {
      forall p: seq<Id> | multiset(p) == multiset(ids)
        ensures ScanReachability(p, false, endpoints) == ScanReachability(ids, false, endpoints) {
        PermutedScan(ids, p, endpoints);
      }
    } else {
      var a, b :| a in ids && b in ids && Obstacle(a, endpoints).Some? && Obstacle(b, endpoints).Some?
        && Obstacle(a, endpoints) != Obstacle(b, endpoints);
      var j :| 0 <= j < |ids| && ids[j] == a;
      var k :| 0 <= k < |ids| && ids[k] == b;
      ToFrontPermutes(ids, j);
      ToFrontPermutes(ids, k);
      FirstObstacleDecides(ToFront(ids, j), endpoints);
      FirstObstacleDecides(ToFront(ids, k), endpoints);
    }
  }

  lemma PermutedScan(ids: seq<Id>, p: seq<Id>, endpoints: map<Id, Endpoint>)
    requires OneSort(ids, endpoints) && multiset(p) == multiset(ids)
    ensures ScanReachability(p, false, endpoints) == ScanReachability(ids, false, endpoints)
  {
    hide ScanReachability;
    forall e: Id ensures e in p <==> e in ids {
      assert (e in p <==> e in multiset(p)) && (e in ids <==> e in multiset(ids));
    }
    var sort := Reachability.UNKNOWN;
    if e :| e in ids && Obstacle(e, endpoints).Some? {
      sort := Obstacle(e, endpoints).value;
    }
    ScanIgnoresOrder(ids, false, endpoints, sort);
    ScanIgnoresOrder(p, false, endpoints, sort);
  }

  // ---- one lemma per kind of step ----

  /** The part of the invariant about instances, carried over to a map that agrees. */
  lemma InstancesKeep(st: State, b: map<Id, Instance>)
    requires Inv(st)
    requires Agree(st.instances, b)
    ensures Filed(b, InstanceKey)
    ensures Referenced(st.services.Keys, b, st.endpoints.Keys)
    ensures Rebuilt(st.services, b) == st.indexes
  {
    AgreeingIndexes(st.services, st.instances, b);
    hide Rebuilt, AllSound, Fenced;
  }

  predicate AuthorityFenced(a: Authority) {
    Fenced(a.liveBoots, a.bootWorker, a.currentBoot)
  }

  lemma RevokedPieces(boot: Id, liveBoots: set<Id>, instances: map<Id, Instance>, leases: map<Id, Lease>,
      endpoints: map<Id, Endpoint>)
    requires AllSound(instances, liveBoots) && Filed(leases, LeaseKey) && Filed(endpoints, EndpointKey)
    ensures AllSound(RevokedInstances(instances, boot), liveBoots - {boot})
    ensures Agree(instances, RevokedInstances(instances, boot))
    ensures Filed(RevokedLeases(leases, boot, instances), LeaseKey)
    ensures Filed(RevokedEndpoints(endpoints, boot, instances), EndpointKey)
    ensures RevokedEndpoints(endpoints, boot, instances).Keys == endpoints.Keys
  {
    hide LeasedTo, ClaimedBy;
  }

  lemma RevokedFenced(a: Authority, boot: Id)
    requires AuthorityFenced(a)
    ensures AuthorityFenced(RevokedAuthority(a, boot))
    ensures RevokedAuthority(a, boot).liveBoots == a.liveBoots - {boot}
  {
  }

  lemma RevokedKeeps(st: State, boot: Id)
    requires Inv(st)
    ensures Inv(Revoked(st, boot))
    ensures Revoked(st, boot).authority == RevokedAuthority(st.authority, boot)
    ensures Revoked(st, boot).authority.liveBoots == st.authority.liveBoots - {boot}
  {
    RevokedFenced(st.authority, boot);
    if boot in st.authority.liveBoots {
      assert Inv(Revoked(st, boot)) by {
        RevokedPieces(boot, st.authority.liveBoots, st.instances, st.leases, st.endpoints);
        InstancesKeep(st, RevokedInstances(st.instances, boot));
        hide Referenced, Filed, Fenced, AllSound, NamedStatus, Sound, Agree, Rebuilt, RevokedInstances, RevokedLeases,
             RevokedEndpoints, RevokedAuthority;
      }
    }
    hide Inv, RevokedAuthority, RevokedInstances, RevokedLeases, RevokedEndpoints;
  }

  /** Adoption fences whatever boot the worker had. */
  lemma AdoptionFences(a: Authority, worker: Id, boot: Id)
    requires AuthorityFenced(a)
    ensures
      var prev := a.currentBoot;
      AuthorityFenced(Granted(if worker in prev && prev[worker] != boot then RevokedAuthority(a, prev[worker])
        else a, worker, boot))
  {
  }

  lemma GrantedKeeps(st: State, worker: Id, boot: Id)
    requires Inv(st) && AuthorityFenced(Granted(st.authority, worker, boot))
    ensures Inv(st.(authority := Granted(st.authority, worker, boot)))
  {
    MoreLiveBoots(st.instances, st.authority.liveBoots, boot);
    hide Referenced, Filed, Rebuilt, Fenced, AllSound, NamedStatus, Sound;
  }

  lemma AdoptedKeeps(st: State, worker: Id)
    requires Inv(st)
    ensures Inv(Adopted(st, worker).0)
  {
    var boot := Inc(st.nextBoot);
    var counted := st.(nextBoot := boot);
    var prev := st.authority.currentBoot;
    var fenced := if worker in prev && prev[worker] != boot then Revoked(counted, prev[worker]) else counted;
    AdoptionFences(st.authority, worker, boot);
    assert Inv(counted) by {
      hide Referenced, Filed, Rebuilt, Fenced, AllSound, NamedStatus, Sound;
    }
    hide Inv, AuthorityFenced, Revoked, RevokedAuthority, Granted;
    if worker in prev && prev[worker] != boot {
      RevokedKeeps(counted, prev[worker]);
    }
    GrantedKeeps(fenced, worker, boot);
  }

  lemma MoreLiveBoots(instances: map<Id, Instance>, liveBoots: set<Id>, boot: Id)
    requires AllSound(instances, liveBoots)
    ensures AllSound(instances, liveBoots + {boot})
  {
  }

  lemma RecoveredPieces(instances: map<Id, Instance>, endpoints: map<Id, Endpoint>, capabilities: map<Id, Capability>,
      leases: map<Id, Lease>, liveBoots: set<Id>)
    requires AllSound(instances, liveBoots) && Filed(endpoints, EndpointKey) && Filed(capabilities, CapabilityKey)
      && Filed(leases, LeaseKey)
    ensures AllSound(RecoveredInstances(instances), {})
    ensures Agree(instances, RecoveredInstances(instances))
    ensures Filed(RecoveredEndpoints(endpoints), EndpointKey) && RecoveredEndpoints(endpoints).Keys == endpoints.Keys
    ensures Filed(RecoveredCapabilities(capabilities), CapabilityKey)
    ensures Filed(RecoveredLeases(leases), LeaseKey)
  {
  }

  lemma DistrustedKeeps(st: State)
    requires Inv(st)
    ensures Inv(Distrusted(st))
  {
    RecoveredPieces(st.instances, st.endpoints, st.capabilities, st.leases, st.authority.liveBoots);
    InstancesKeep(st, RecoveredInstances(st.instances));
    assert Fenced({}, map[], map[]);
    hide Referenced, Filed, Fenced, AllSound, NamedStatus, Sound, Agree, Rebuilt, RecoveredInstances,
         RecoveredEndpoints, RecoveredCapabilities, RecoveredLeases;
  }

  lemma NewEpochKeeps(st: State)
    requires Inv(st)
    ensures Inv(NewEpoch(st))
  {
    DistrustedKeeps(st.(authority := st.authority.(epoch := Inc(st.authority.epoch)))) by {
      hide Referenced, Filed, Fenced, AllSound, Rebuilt;
    }
    hide Inv, Distrusted;
  }

  /** Rebuilding the indexes changes nothing: they are what a fresh rebuild gives. */
  lemma RebuildIsIdle(st: State)
    requires Inv(st)
    ensures Reindexed(st) == st
  {
    hide Referenced, Filed, Fenced, AllSound, Rebuilt;
  }

  lemma RecoveredKeeps(st: State)
    requires Inv(st)
    ensures Inv(Recovered(st))
  {
    DistrustedKeeps(st);
    RebuildIsIdle(Distrusted(st));
    hide Inv, Distrusted;
  }

  // ---- registrations of plain records ----

  lemma FiledUpdate<V>(m: map<Id, V>, key: V -> Id, k: Id, v: V)
    requires Filed(m, key) && key(v) == k
    ensures Filed(m[k := v], key)
  {
  }

  lemma MoreReferences(services: set<Id>, instances: map<Id, Instance>, endpoints: set<Id>, service: Id, endpoint: Id)
    requires Referenced(services, instances, endpoints)
    ensures Referenced(services + {service}, instances, endpoints)
    ensures Referenced(services, instances, endpoints + {endpoint})
  {
  }

  lemma RegisterServiceKeeps(st: State, svc: Service)
    requires Inv(st)
    ensures Inv(RegisterService(st, svc).0)
  {
    var accepted := Reindexed(Commit(st.(
      services := st.services[svc.serviceId := svc],
      authority := st.authority.(gens := st.authority.gens.(service := Max(st.authority.gens.service,
        svc.generation))))));
    assert Inv(accepted) by {
      FiledUpdate(st.services, ServiceKey, svc.serviceId, svc);
      MoreReferences(st.services.Keys, st.instances, st.endpoints.Keys, svc.serviceId, 0);
      assert st.services[svc.serviceId := svc].Keys == st.services.Keys + {svc.serviceId};
      hide Referenced, Filed, Fenced, AllSound, Rebuilt;
    }
    hide Inv, SameService, Covered, Rebuilt;
  }

  predicate SameFence(a: Authority, b: Authority) {
    a.liveBoots == b.liveBoots && a.bootWorker == b.bootWorker && a.currentBoot == b.currentBoot
  }

  lemma RuntimeStoredKeeps(st: State, runtimes: map<Id, Runtime>, runtimeInstances: map<Id, Runtime>, a: Authority,
      nextId: u64, history: seq<Runtime>)
    requires Inv(st) && SameFence(a, st.authority)
    requires Filed(runtimes, RuntimeKey) && Filed(runtimeInstances, RuntimeInstanceKey)
    ensures Inv(st.(authority := a, nextId := nextId, runtimes := runtimes, runtimeInstances := runtimeInstances,
      runtimeHistory := history))
  {
    hide Referenced, Filed, Fenced, AllSound, Rebuilt;
  }

  lemma RuntimesFiled(st: State)
    requires Inv(st)
    ensures Filed(st.runtimes, RuntimeKey) && Filed(st.runtimeInstances, RuntimeInstanceKey)
  {
    hide Referenced, Filed, Fenced, AllSound, Rebuilt;
  }

  lemma RegisterRuntimeKeeps(st: State, rt: Runtime)
    requires Inv(st)
    ensures Inv(RegisterRuntime(st, rt).0)
  {
    var copy := if rt.runtimeInstance == 0 then rt.(runtimeInstance := st.nextId) else rt;
    var nextId := if rt.runtimeInstance == 0 then Inc(st.nextId) else st.nextId;
    var a := Committed(st.authority.(gens := st.authority.gens.(runtime := Max(st.authority.gens.runtime,
      rt.generation))));
    hide Inv, SameRuntime, Covered;
    RuntimesFiled(st);
    FiledUpdate(st.runtimes, RuntimeKey, rt.runtimeId, copy);
    FiledUpdate(st.runtimeInstances, RuntimeInstanceKey, copy.runtimeInstance, copy);
    FiledUpdate(st.runtimeInstances, RuntimeInstanceKey, rt.runtimeInstance, rt);
    hide Filed;
    RuntimeStoredKeeps(st, st.runtimes[rt.runtimeId := copy], st.runtimeInstances[copy.runtimeInstance := copy], a,
      nextId, st.runtimeHistory + [copy]);
    RuntimeStoredKeeps(st, st.runtimes, st.runtimeInstances[rt.runtimeInstance := rt], a, st.nextId, st.runtimeHistory);
  }

  lemma RegisterProtocolKeeps(st: State, pd: Protocol)
    requires Inv(st)
    ensures Inv(RegisterProtocol(st, pd).0)
  {
    FiledUpdate(st.protocols, ProtocolKey, pd.protocolId, pd);
    hide Referenced, Filed, Fenced, AllSound, Rebuilt;
  }

  lemma EndpointStoredKeeps(st: State, ep: Endpoint, a: Authority, nextId: u64, history: seq<Endpoint>)
    requires Inv(st)
    requires SameFence(a, st.authority)
    ensures Inv(st.(authority := a, nextId := nextId, endpoints := st.endpoints[ep.endpointId := ep],
      endpointHistory := history))
  {
    FiledUpdate(st.endpoints, EndpointKey, ep.endpointId, ep);
    MoreReferences(st.services.Keys, st.instances, st.endpoints.Keys, 0, ep.endpointId);
    assert st.endpoints[ep.endpointId := ep].Keys == st.endpoints.Keys + {ep.endpointId};
    hide Referenced, Filed, Fenced, AllSound, Rebuilt;
  }

  lemma RegisterEndpointKeeps(st: State, ep: Endpoint)
    requires Inv(st)
    ensures Inv(RegisterEndpoint(st, ep).0)
  {
    var copy := if ep.endpointId == 0 then ep.(endpointId := st.nextId) else ep;
    var nextId := if ep.endpointId == 0 then Inc(st.nextId) else st.nextId;
    var a := Committed(st.authority.(gens := st.authority.gens.(endpoint := Max(st.authority.gens.endpoint,
      ep.generation))));
    hide Inv, Covered;
    EndpointStoredKeeps(st, copy, a, nextId, st.endpointHistory + [copy]);
    if ep.endpointId in st.endpoints {
      EndpointStoredKeeps(st, ep, a, st.nextId, st.endpointHistory + [st.endpoints[ep.endpointId]]);
    }
  }

  lemma CapabilityStoredKeeps(st: State, cap: Capability, a: Authority, nextId: u64, history: seq<Capability>)
    requires Inv(st) && SameFence(a, st.authority)
    ensures Inv(st.(authority := a, nextId := nextId, capabilities := st.capabilities[cap.capabilityId := cap],
      capabilityHistory := history))
  {
    FiledUpdate(st.capabilities, CapabilityKey, cap.capabilityId, cap);
    hide Referenced, Filed, Fenced, AllSound, Rebuilt;
  }

  lemma RegisterCapabilityKeeps(st: State, cap: Capability)
    requires Inv(st)
    ensures Inv(RegisterCapability(st, cap).0)
  {
    var copy := if cap.capabilityId == 0 then cap.(capabilityId := st.nextId) else cap;
    var nextId := if cap.capabilityId == 0 then Inc(st.nextId) else st.nextId;
    var a := Committed(st.authority.(gens := st.authority.gens.(capability := Max(st.authority.gens.capability,
      cap.generation))));
    hide Inv, Covered, SameCapability;
    CapabilityStoredKeeps(st, copy, a, nextId, st.capabilityHistory + [copy]);
    if cap.capabilityId in st.capabilities {
      CapabilityStoredKeeps(st, cap, a, st.nextId, st.capabilityHistory + [st.capabilities[cap.capabilityId]]);
    }
  }

  lemma AcquireLeaseKeeps(st: State, lease: Lease)
    requires Inv(st)
    ensures Inv(AcquireLease(st, lease).0)
  {
    var id := if lease.leaseId == 0 then st.nextId else lease.leaseId;
    FiledUpdate(st.leases, LeaseKey, id, lease.(leaseId := id, generation := Inc(st.authority.gens.lease)));
    hide Referenced, Filed, Fenced, AllSound, Rebuilt;
  }

  lemma LeaseChangeKeeps(st: State, id: Id, state: LeaseState)
    requires Inv(st) && id in st.leases
    ensures Filed(st.leases[id := st.leases[id].(state := state)], LeaseKey)
  {
    assert st.leases[id].leaseId == id by {
      assert LeaseKey(st.leases[id]) == id;
    }
    FiledUpdate(st.leases, LeaseKey, id, st.leases[id].(state := state));
  }

  lemma LeasesStoredKeep(st: State, leases: map<Id, Lease>)
    requires Inv(st) && Filed(leases, LeaseKey)
    ensures Inv(Commit(st.(leases := leases)))
  {
    hide Referenced, Filed, Fenced, AllSound, Rebuilt;
  }

  lemma LeaseOpsKeep(st: State, env: Envelope, id: Id, state: LeaseState)
    requires Inv(st)
    ensures Inv(RenewLease(st, env, id).0) && Inv(EndLease(st, id, state).0)
  {
    CommitKeeps(st);
    if id in st.leases {
      LeaseChangeKeeps(st, id, LeaseState.ACTIVE);
      LeaseChangeKeeps(st, id, state);
      hide Inv, Filed, Commit;
      LeasesStoredKeep(st, st.leases[id := st.leases[id].(state := LeaseState.ACTIVE)]);
      LeasesStoredKeep(st, st.leases[id := st.leases[id].(state := state)]);
    }
    hide Inv, Filed, Commit;
  }

  lemma InvalidateKeeps(st: State, rec: Invalidation)
    requires Inv(st)
    ensures Inv(Invalidate(st, rec).0)
  {
    hide Referenced, Filed, Fenced, AllSound, Rebuilt;
  }

  lemma CreateTombstoneKeeps(st: State, tomb: Tombstone)
    requires Inv(st)
    ensures Inv(CreateTombstone(st, tomb).0)
  {
    var id := if tomb.tombstoneId == 0 then st.nextId else tomb.tombstoneId;
    FiledUpdate(st.tombstones, TombstoneKey, id, tomb.(tombstoneId := id));
    hide Referenced, Filed, Fenced, AllSound, Rebuilt;
  }

  // ---- instances ----

  /** Replacing an instance by one that indexes cannot tell apart. */
  lemma InstanceUpdateKeeps(st: State, id: Id, inst: Instance)
    requires Inv(st) && id in st.instances
    requires
      var was := st.instances[id];
      inst.instanceId == was.instanceId && inst.serviceId == was.serviceId && inst.boot == was.boot
      && inst.node == was.node && inst.endpoints == was.endpoints
    requires NamedStatus(inst) && Sound(inst, st.authority.liveBoots)
    ensures Inv(st.(instances := st.instances[id := inst]))
  {
    var b := st.instances[id := inst];
    assert Agree(st.instances, b) by {
      hide Inv, NamedStatus, Sound;
    }
    assert AllSound(b, st.authority.liveBoots) by {
      hide NamedStatus, Sound, Agree, Filed, Referenced, Fenced, Rebuilt;
    }
    InstancesKeep(st, b);
    hide Referenced, Filed, Fenced, AllSound, NamedStatus, Sound, Agree, Rebuilt;
  }

  lemma CommitKeeps(st: State)
    requires Inv(st)
    ensures Inv(Commit(st))
  {
    hide Referenced, Filed, Fenced, AllSound, Rebuilt;
  }

  lemma InstanceFacts(st: State, id: Id)
    requires Inv(st) && id in st.instances
    ensures NamedStatus(st.instances[id]) && st.instances[id].instanceId == id
    ensures st.instances[id].serviceId in st.services
  {
    assert InstanceKey(st.instances[id]) == id;
  }

  lemma ObserveKeeps(st: State, env: Envelope, id: Id, o: Observation)
    requires Inv(st) && Proper(Call(env, OpObserve(id, o)))
    ensures Inv(Observe(st, env, id, o).0)
  {
    if id in st.instances {
      InstanceFacts(st, id);
      var seen := o.On(st.instances[id]);
      ReclassifiedIsSound(st, seen);
      hide Inv, Sound, NamedStatus, Classify, AggregateHealth, AggregateReachability;
      InstanceUpdateKeeps(st, id, Reclassified(st, seen));
      CommitKeeps(st.(instances := st.instances[id := Reclassified(st, seen)]));
    }
  }

  lemma EndpointChangeKeeps(st: State, id: Id, ep: Endpoint)
    requires Inv(st) && id in st.endpoints && ep.endpointId == st.endpoints[id].endpointId
    ensures Inv(st.(endpoints := st.endpoints[id := ep]))
  {
    assert EndpointKey(st.endpoints[id]) == id;
    FiledUpdate(st.endpoints, EndpointKey, id, ep);
    assert st.endpoints[id := ep].Keys == st.endpoints.Keys;
    hide Referenced, Filed, Fenced, AllSound, Rebuilt;
  }

  lemma UpdateReachabilityKeeps(st: State, env: Envelope, id: Id, r: Reachability)
    requires Inv(st)
    ensures Inv(UpdateReachability(st, env, id, r).0)
  {
    if id in st.endpoints {
      var ep := st.endpoints[id];
      var seen := st.(endpoints := st.endpoints[id := ep.(reachability := r)]);
      var owner := ep.serviceInstance;
      EndpointChangeKeeps(st, id, ep.(reachability := r));
      if owner in st.instances {
        InstanceFacts(st, owner);
        ReclassifiedIsSound(seen, st.instances[owner]);
        hide Inv, Sound, NamedStatus, Classify, AggregateHealth, AggregateReachability;
        InstanceUpdateKeeps(seen, owner, Reclassified(seen, st.instances[owner]));
        CommitKeeps(seen.(instances := seen.instances[owner := Reclassified(seen, st.instances[owner])]));
      }
      CommitKeeps(seen);
      hide Inv, Commit, Reclassified;
    }
  }

  lemma LifecycleChangeKeeps(st: State, id: Id, l: Lifecycle, history: seq<Instance>)
    requires Inv(st) && id in st.instances && l != Lifecycle.AVAILABLE
    ensures Inv(st.(instanceHistory := history, instances := st.instances[id := st.instances[id].(lifecycle := l)]))
  {
    InstanceFacts(st, id);
    InstanceUpdateKeeps(st, id, st.instances[id].(lifecycle := l));
    hide Referenced, Filed, Fenced, AllSound, Rebuilt;
  }

  lemma GivenWayKeeps(st: State, current: Option<Id>)
    requires Inv(st) && (current.Some? ==> current.value in st.instances)
    ensures Inv(GivenWay(st, current))
  {
    if current.Some? {
      LifecycleChangeKeeps(st, current.value, Lifecycle.SUPERSEDED, st.instanceHistory + [st.instances[current.value]]);
    }
    hide Inv;
  }

  lemma {:induction false} BindKeeps(instances: map<Id, Instance>, endpoints: map<Id, Endpoint>,
      ids: seq<Id>, owner: Id)
    requires Filed(endpoints, EndpointKey)
    ensures Filed(Bind(instances, endpoints, ids, owner).0, EndpointKey)
    ensures Bind(instances, endpoints, ids, owner).0.Keys == endpoints.Keys
    ensures Bind(instances, endpoints, ids, owner).1 == None ==> forall e :: e in ids ==> e in endpoints
    decreases |ids|
  {
    if ids != [] && ids[0] in endpoints {
      hide Inactive;
      var e := ids[0];
      var ep := endpoints[e];
      var bound := ep.(serviceInstance := owner);
      var taken := bound.(reachability := Reachability.REACHABLE, freshness := Freshness.CURRENT);
      assert EndpointKey(ep) == e;
      assert ids == [e] + ids[1..];
      FiledUpdate(endpoints, EndpointKey, e, bound);
      FiledUpdate(endpoints, EndpointKey, e, taken);
      hide Filed;
      BindKeeps(instances, endpoints, ids[1..], owner);
      BindKeeps(instances, endpoints[e := bound], ids[1..], owner);
      BindKeeps(instances, endpoints[e := taken], ids[1..], owner);
    }
  }

  lemma InstalledKeeps(st: State, copy: Instance)
    requires Inv(st) && NamedStatus(copy)
    requires copy.serviceId in st.services && forall e :: e in copy.endpoints ==> e in st.endpoints
    ensures Inv(Installed(st, copy))
  {
    var stored := st.(instances := st.instances[copy.instanceId := copy],
      instanceHistory := st.instanceHistory + [copy]);
    var final := Reclassified(stored, copy);
    ReclassifiedIsSound(stored, copy);
    InstalledPieces(st.services.Keys, st.instances, st.endpoints.Keys, st.authority.liveBoots, final);
    assert stored.instances[copy.instanceId := final] == st.instances[copy.instanceId := final];
    hide Referenced, Filed, Fenced, AllSound, NamedStatus, Sound, Rebuilt, Classify, AggregateHealth,
         AggregateReachability;
  }

  lemma InstalledPieces(services: set<Id>, instances: map<Id, Instance>, endpoints: set<Id>, liveBoots: set<Id>,
      inst: Instance)
    requires Filed(instances, InstanceKey) && Referenced(services, instances, endpoints)
      && AllSound(instances, liveBoots)
    requires NamedStatus(inst) && Sound(inst, liveBoots)
    requires inst.serviceId in services && forall e :: e in inst.endpoints ==> e in endpoints
    ensures
      var b := instances[inst.instanceId := inst];
      Filed(b, InstanceKey) && Referenced(services, b, endpoints) && AllSound(b, liveBoots)
  {
    hide NamedStatus, Sound;
  }

  lemma BoundKeeps(st: State, ids: seq<Id>, owner: Id)
    requires Inv(st)
    ensures
      var (bound, failure) := Bind(st.instances, st.endpoints, ids, owner);
      Inv(st.(endpoints := bound)) && (failure == None ==> forall e :: e in ids ==> e in bound)
  {
    BindKeeps(st.instances, st.endpoints, ids, owner);
    hide Referenced, Filed, Fenced, AllSound, Rebuilt, Bind;
  }

  lemma GivenWayKeepsServices(st: State, current: Option<Id>)
    requires current.Some? ==> current.value in st.instances
    ensures GivenWay(st, current).services == st.services
  {
  }

  lemma ClaimKeeps(st: State, copy: Instance)
    requires Inv(st) && NamedStatus(copy) && copy.serviceId in st.services
    ensures
      var (bound, failure) := Bind(st.instances, st.endpoints, copy.endpoints, copy.instanceId);
      Inv(st.(endpoints := bound)) && (failure == None ==> Inv(Installed(st.(endpoints := bound), copy)))
  {
    hide Inv, Bind, Installed;
    BoundKeeps(st, copy.endpoints, copy.instanceId);
    var (bound, failure) := Bind(st.instances, st.endpoints, copy.endpoints, copy.instanceId);
    if failure == None {
      InstalledKeeps(st.(endpoints := bound), copy);
    }
  }

  lemma AllocatedKeeps(st: State, inst: Instance)
    requires Inv(st)
    ensures Inv(Allocated(st, inst))
    ensures Allocated(st, inst).instances == st.instances && Allocated(st, inst).services == st.services
  {
    hide Referenced, Filed, Fenced, AllSound, Rebuilt;
  }

  lemma RegisterInstanceKeeps(st: State, inst: Instance, current: Option<Id>)
    requires Inv(st) && NamedStatus(inst) && (current.Some? ==> current.value in st.instances)
    ensures Inv(RegisterInstance(st, inst, current).0)
  {
    var copy := Identified(st, inst);
    var counted := Allocated(st, inst);
    assert NamedStatus(copy) && copy.serviceId == inst.serviceId;
    hide Inv, Bind, Settled, Installed, Identified, Allocated, GivenWay, NamedStatus;
    AllocatedKeeps(st, inst);
    var vacated := GivenWay(counted, current);
    GivenWayKeeps(counted, current);
    GivenWayKeepsServices(counted, current);
    if inst.serviceId in st.services {
      ClaimKeeps(vacated, copy);
    }
  }

  lemma SupersedeKeeps(st: State, id: Id, inst: Instance, current: Option<Id>)
    requires Inv(st) && NamedStatus(inst) && (current.Some? ==> current.value in st.instances)
    ensures Inv(Supersede(st, id, inst, current).0)
  {
    if id in st.instances {
      GivenWayKeeps(st, Some(id));
      RegisterInstanceKeeps(GivenWay(st, Some(id)), inst, current);
    }
    hide Inv, RegisterInstance;
  }

  lemma DeregisterKeeps(st: State, env: Envelope, id: Id)
    requires Inv(st)
    ensures Inv(Deregister(st, env, id).0)
  {
    if id in st.instances {
      var inst := st.instances[id];
      LifecycleChangeKeeps(st, id, Lifecycle.RETIRED, st.instanceHistory + [inst]);
      CommitKeeps(st.(instanceHistory := st.instanceHistory + [inst],
        instances := st.instances[id := inst.(lifecycle := Lifecycle.RETIRED)]));
    }
    hide Inv, Commit;
  }

  // ---- every step, every run ----

  lemma CurrentIsThere(instances: map<Id, Instance>, service: Id, current: Option<Id>)
    requires IsCurrent(instances, service, current)
    ensures current.Some? ==> current.value in instances
  {
  }

  lemma SameKeys(st: State, id: Id)
    requires id in st.instances
    ensures GivenWay(st, Some(id)).instances.Keys == st.instances.Keys
  {
  }

  lemma PerformKeeps(st: State, env: Envelope, op: Op)
    requires Inv(st) && Possible(st, op) && Proper(Call(env, op))
    ensures Inv(Perform(st, env, op).0)
  {
    hide Inv, RegisterService, RegisterRuntime, RegisterProtocol, RegisterEndpoint, RegisterCapability,
         RegisterInstance, Observe, UpdateReachability, AcquireLease, RenewLease, EndLease, Invalidate,
         CreateTombstone, Supersede, Deregister, IsCurrent, GivenWay, NamedStatus;
    match op
    case OpService(svc) => RegisterServiceKeeps(st, svc);
    case OpRuntime(rt) => RegisterRuntimeKeeps(st, rt);
    case OpProtocol(pd) => RegisterProtocolKeeps(st, pd);
    case OpEndpoint(ep) => RegisterEndpointKeeps(st, ep);
    case OpCapability(cap) => RegisterCapabilityKeeps(st, cap);
    case OpInstance(inst, current) =>
      CurrentIsThere(st.instances, inst.serviceId, current);
      RegisterInstanceKeeps(st, inst, current);
    case OpObserve(id, o) => ObserveKeeps(st, env, id, o);
    case OpReachability(id, r) => UpdateReachabilityKeeps(st, env, id, r);
    case OpAcquire(lease) => AcquireLeaseKeeps(st, lease);
    case OpRenew(id) => LeaseOpsKeep(st, env, id, LeaseState.EXPIRED);
    case OpEnd(id, state) => LeaseOpsKeep(st, env, id, state);
    case OpInvalidate(rec) => InvalidateKeeps(st, rec);
    case OpTombstone(tomb) => CreateTombstoneKeeps(st, tomb);
    case OpSupersede(id, inst, current) =>
      if id in st.instances {
        CurrentIsThere(GivenWay(st, Some(id)).instances, inst.serviceId, current);
        SameKeys(st, id);
        SupersedeKeeps(st, id, inst, current);
      }
    case OpDeregister(id) => DeregisterKeeps(st, env, id);
  }

  lemma NextKeeps(st: State, step: Step)
    requires Inv(st) && Enabled(st, step) && Proper(step)
    ensures Inv(Next(st, step).0)
  {
    hide Inv, Perform, Adopted, Revoked, NewEpoch, Recovered, Proper, Possible, Verdict;
    match step
    case Adopt(worker) => AdoptedKeeps(st, worker);
    case Died(boot) => RevokedKeeps(st, boot);
    case BeginEpoch => NewEpochKeeps(st);
    case Reload => RecoveredKeeps(st);
    case Call(env, op) => PerformKeeps(st, env, op);
  }

  /** A new registry satisfies the invariant. */
  lemma InitialInv()
    ensures Inv(INITIAL)
  {
    assert Rebuilt(map[], map[]) == Indexes(map[], map[], map[], map[]);
  }

  /** Every run from a new registry, thrown errors included, stays within the invariant. */
  lemma {:induction false} RunsKeep(st: State, steps: seq<Step>)
    requires Inv(st) && Runs(st, steps)
    requires forall step :: step in steps ==> Proper(step)
    ensures Inv(After(st, steps))
    decreases |steps|
  {
    hide Inv, Next, Proper;
    if steps != [] {
      NextKeeps(st, steps[0]);
      RunsKeep(Next(st, steps[0]).0, steps[1..]);
    }
  }
}
