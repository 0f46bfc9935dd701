/** What accepted calls store: the record the caller gave, where it went, and what stayed. */
module Contents {
  import opened Base
  import opened Enums
  import opened Records
  import opened RegistryModel
  import opened Lifecycles
  import opened Outages
  import Registration

  // ---- classification looks at little ----

  datatype Evidence = Evidence(
    liveBoots: set<Id>, services: map<Id, Service>, endpoints: map<Id, Endpoint>,
    capabilities: map<Id, Capability>, leases: map<Id, Lease>)

  function EvidenceOf(st: State): Evidence {
    Evidence(st.authority.liveBoots, st.services, st.endpoints, st.capabilities, st.leases)
  }

  lemma SameEvidence(a: State, b: State, inst: Instance)
    requires EvidenceOf(a) == EvidenceOf(b)
    ensures Reclassified(a, inst) == Reclassified(b, inst)
  {
    hide AggregateHealth, AggregateReachability, LeaseHolds, ProvidesRequired;
  }

  // ---- an accepted registration of an instance ----

  /** The identity an instance is registered under: its own, or the next one. */
  function IdentityFor(st: State, inst: Instance): Id {
    if inst.instanceId != 0 then inst.instanceId else st.nextId
  }

  /** The instances once the standing one, if any, has given way. */
  function Vacated(instances: map<Id, Instance>, current: Option<Id>): map<Id, Instance>
    requires current.Some? ==> current.value in instances
  {
    if current == None then instances
    else instances[current.value := instances[current.value].(lifecycle := Lifecycle.SUPERSEDED)]
  }

  /** An endpoint as the instance takes it: one that another instance gave up counts as seen. */
  function Taken(ep: Endpoint, id: Id): Endpoint {
    if ep.serviceInstance in {0, id} then ep.(serviceInstance := id)
    else ep.(serviceInstance := id, freshness := Freshness.CURRENT, reachability := Reachability.REACHABLE)
  }

  /** What an accepted registration that repeats nothing does to the registry. */
  predicate Registers(st: State, next: State, inst: Instance, id: Id, current: Option<Id>)
    requires current.Some? ==> current.value in st.instances
  {
    && id in next.instances
    && next.instances == Vacated(st.instances, current)[id := next.instances[id]]
    && next.instanceHistory ==
         st.instanceHistory + (if current.Some? then [st.instances[current.value]] else []) + [inst.(instanceId := id)]
    && next.nextId == (if inst.instanceId == 0 then Inc(st.nextId) else st.nextId)
    && next.endpoints.Keys == st.endpoints.Keys
    && (forall e :: e in st.endpoints ==>
          next.endpoints[e] == if e in inst.endpoints then Taken(st.endpoints[e], id) else st.endpoints[e])
  }

  /** What registration is about, and what it is not about. */
  datatype Slice = Slice(
    instances: map<Id, Instance>, history: seq<Instance>, endpoints: map<Id, Endpoint>, nextId: u64,
    authority: Authority)

  function SliceOf(st: State): Slice {
    Slice(st.instances, st.instanceHistory, st.endpoints, st.nextId, st.authority)
  }

  function Remainder(st: State): State {
    st.(authority := INITIAL.authority, instances := map[], instanceHistory := [], endpoints := map[],
        indexes := INITIAL.indexes, nextId := 0)
  }

  lemma AllocationSlice(st: State, inst: Instance)
    ensures SliceOf(Allocated(st, inst)) == SliceOf(st).(nextId := if inst.instanceId == 0 then Inc(st.nextId)
      else st.nextId)
    ensures Remainder(Allocated(st, inst)) == Remainder(st)
    ensures Identified(st, inst) == inst.(instanceId := IdentityFor(st, inst))
  {
    hide INITIAL;
  }

  lemma GivingWaySlice(st: State, current: Option<Id>)
    requires current.Some? ==> current.value in st.instances
    ensures SliceOf(GivenWay(st, current)) ==
      SliceOf(st).(
        instances := Vacated(st.instances, current),
        history := st.instanceHistory + if current.Some? then [st.instances[current.value]] else [])
    ensures Remainder(GivenWay(st, current)) == Remainder(st)
  {
    hide INITIAL;
  }

  lemma ClaimingSlice(st: State, endpoints: map<Id, Endpoint>)
    ensures SliceOf(st.(endpoints := endpoints)) == SliceOf(st).(endpoints := endpoints)
    ensures Remainder(st.(endpoints := endpoints)) == Remainder(st)
  {
    hide INITIAL;
  }

  lemma InstallingSlice(st: State, copy: Instance)
    ensures
      var next := Installed(st, copy);
      && SliceOf(next) == SliceOf(st).(
           instances := st.instances[copy.instanceId := Reclassified(next, copy)],
           history := st.instanceHistory + [copy],
           authority := Committed(st.authority))
      && Remainder(next) == Remainder(st)
  {
    hide INITIAL, Rebuilt, Reclassified;
    var stored := st.(instances := st.instances[copy.instanceId := copy],
      instanceHistory := st.instanceHistory + [copy]);
    assert EvidenceOf(stored) == EvidenceOf(Installed(st, copy));
    SameEvidence(stored, Installed(st, copy), copy);
    assert st.instances[copy.instanceId := copy][copy.instanceId := Reclassified(stored, copy)] ==
      st.instances[copy.instanceId := Reclassified(stored, copy)];
  }

  /** An accepted registration that repeats nothing went all the way. */
  lemma WentThrough(st: State, inst: Instance, current: Option<Id>)
    requires IsCurrent(st.instances, inst.serviceId, current)
    requires RegisterInstance(st, inst, current).1.Done? && !Registration.Confirms(st, inst, current)
    ensures current.Some? ==> current.value in st.instances
    ensures
      var copy := Identified(st, inst);
      var vacated := GivenWay(Allocated(st, inst), current);
      var (bound, failure) := Bind(vacated.instances, vacated.endpoints, copy.endpoints, copy.instanceId);
      failure == None && RegisterInstance(st, inst, current) ==
        (Installed(vacated.(endpoints := bound), copy), Done(copy.instanceId))
  {
    Registration.AllocatedInstances(st, inst);
    hide Covered, SameInstance, Bind, Installed, GivenWay;
  }

  lemma BoundEndpoints(instances: map<Id, Instance>, endpoints: map<Id, Endpoint>, ids: seq<Id>, id: Id)
    requires Bind(instances, endpoints, ids, id).1 == None
    ensures
      var bound := Bind(instances, endpoints, ids, id).0;
      && bound.Keys == endpoints.Keys && (forall e :: e in ids ==> e in endpoints)
      && forall e :: e in endpoints ==> bound[e] == if e in ids then Taken(endpoints[e], id) else endpoints[e]
  {
    Registration.BindExactly(instances, endpoints, ids, id);
    assert forall e :: e in ids ==> Registration.Claimable(instances, endpoints, e, id);
    Registration.BindClaims(instances, endpoints, ids, id);
    hide Bind, Registration.Claimable;
  }

  /** What an accepted registration that repeats nothing stores: the instance as the caller gave it,
      under its identity, with health, reachability and lifecycle computed from the registry as it
      then is.  The old instance goes to the history as it was, the new one as it came. */
  lemma RegistrationStores(st: State, inst: Instance, current: Option<Id>)
    requires IsCurrent(st.instances, inst.serviceId, current)
    requires RegisterInstance(st, inst, current).1.Done? && !Registration.Confirms(st, inst, current)
    ensures current.Some? ==> current.value in st.instances
    ensures
      var (next, outcome) := RegisterInstance(st, inst, current);
      var id := IdentityFor(st, inst);
      && outcome == Done(id) && Registers(st, next, inst, id, current)
      && next.instances[id] == Reclassified(next, inst.(instanceId := id))
      && next.authority == Committed(st.authority) && Remainder(next) == Remainder(st)
  {
    hide RegisterInstance, Installed, Bind, IsCurrent, Allocated, Identified, IdentityFor, Remainder,
      Reclassified, GivenWay,
         Taken, Vacated, Committed, Registers, SliceOf;
    WentThrough(st, inst, current);
    var id := IdentityFor(st, inst);
    var counted := Allocated(st, inst);
    AllocationSlice(st, inst);
    SliceParts(st, counted);
    GivingWaySlice(counted, current);
    var vacated := GivenWay(counted, current);
    SliceParts(counted, vacated);
    BoundEndpoints(vacated.instances, vacated.endpoints, inst.endpoints, id);
    var bound := Bind(vacated.instances, vacated.endpoints, inst.endpoints, id).0;
    ClaimingSlice(vacated, bound);
    var claimed := vacated.(endpoints := bound);
    SliceParts(vacated, claimed);
    InstallingSlice(claimed, inst.(instanceId := id));
    SliceParts(claimed, Installed(claimed, inst.(instanceId := id)));
    SliceRegisters(st, Installed(claimed, inst.(instanceId := id)), inst, id, current);
  }

  lemma SliceParts(a: State, b: State)
    ensures SliceOf(a) == Slice(a.instances, a.instanceHistory, a.endpoints, a.nextId, a.authority)
    ensures SliceOf(b) == Slice(b.instances, b.instanceHistory, b.endpoints, b.nextId, b.authority)
  {
  }

  lemma SliceRegisters(st: State, next: State, inst: Instance, id: Id, current: Option<Id>)
    requires current.Some? ==> current.value in st.instances
    requires SliceOf(next) == Slice(
      Vacated(st.instances, current)[id := Reclassified(next, inst.(instanceId := id))],
      st.instanceHistory + (if current.Some? then [st.instances[current.value]] else []) + [inst.(instanceId := id)],
      next.endpoints, if inst.instanceId == 0 then Inc(st.nextId) else st.nextId, Committed(st.authority))
    requires next.endpoints.Keys == st.endpoints.Keys
    requires forall e :: e in st.endpoints ==>
      next.endpoints[e] == if e in inst.endpoints then Taken(st.endpoints[e], id) else st.endpoints[e]
    ensures Registers(st, next, inst, id, current)
    ensures next.instances[id] == Reclassified(next, inst.(instanceId := id))
      && next.authority == Committed(st.authority)
  {
    hide Reclassified, Vacated, Taken, Committed;
  }

  /** The identity of an instance is not evidence. */
  lemma IdentityIsNoEvidence(st: State, inst: Instance, id: Id)
    ensures
      var copy := inst.(instanceId := id);
      && (Grounded(st, copy) <==> Grounded(st, inst)) && (Waiting(st, copy) <==> Waiting(st, inst))
      && (Limited(st, copy) <==> Limited(st, inst))
  {
    hide FirstShut, Open;
  }

  /** The stored instance is the caller's in every field but the computed ones, and is AVAILABLE
      exactly when the caller's instance deserves it in the resulting registry. */
  lemma RegisteredAsGiven(st: State, inst: Instance, current: Option<Id>)
    requires IsCurrent(st.instances, inst.serviceId, current)
    requires RegisterInstance(st, inst, current).1.Done? && !Registration.Confirms(st, inst, current)
    ensures
      var (next, outcome) := RegisterInstance(st, inst, current);
      outcome.id in next.instances &&
      var now := next.instances[outcome.id];
      && now.(health := inst.health, reachability := inst.reachability, lifecycle := inst.lifecycle) ==
           inst.(instanceId := outcome.id)
      && (now.lifecycle == Lifecycle.AVAILABLE <==>
            && Grounded(next, inst) && inst.readiness != Readiness.DRAINING
            && !Waiting(next, inst) && !Limited(next, inst))
      && (InService(now.lifecycle) ==> Grounded(next, inst))
  {
    hide RegisterInstance, IsCurrent, Reclassified, Grounded, Waiting, Limited, FirstShut, AllOpen, Vacated, Taken,
      Remainder, Committed;
    RegistrationStores(st, inst, current);
    var next := RegisterInstance(st, inst, current).0;
    var id := IdentityFor(st, inst);
    StatusExactly(next, inst.(instanceId := id));
    ClassifiedExactly(next, inst.(instanceId := id));
    NotInService(next, inst.(instanceId := id));
    IdentityIsNoEvidence(next, inst, id);
  }

  /** A process that restarts and registers again over an endpoint its predecessor held gives no
      service before the endpoint is seen again. */
  lemma SuccessorWaits(st: State, boot: Id, r: State, e: Id, inst: Instance, current: Option<Id>)
    requires Bereaved(st, boot, r) && HeldBy(st, boot, e) && e in inst.endpoints
    requires IsCurrent(r.instances, inst.serviceId, current)
    requires RegisterInstance(r, inst, current).1.Done? && !Registration.Confirms(r, inst, current)
    ensures
      var (next, outcome) := RegisterInstance(r, inst, current);
      outcome.id in next.instances && !InService(next.instances[outcome.id].lifecycle)
  {
    hide RegisterInstance, IsCurrent, Reclassified, Bereaved, HeldBy, Vacated, Remainder, Committed, Waiting, Limited,
         LeaseInForce, Equipped;
    DeathReleases(st, boot, r, e, inst);
    RegistrationStores(r, inst, current);
    RegisteredAsGiven(r, inst, current);
    var next := RegisterInstance(r, inst, current).0;
    assert next.endpoints[e] == Taken(r.endpoints[e], IdentityFor(r, inst));
    assert !Open(next, e);
  }

  /** The old instance of a supersession goes to the history as it was and is superseded; the rest is
      the registration of the new one. */
  lemma SupersessionStores(st: State, oldId: Id, inst: Instance, current: Option<Id>)
    requires oldId in st.instances && (current.Some? ==> current.value in st.instances)
    ensures
      var given := st.(
        instances := st.instances[oldId := st.instances[oldId].(lifecycle := Lifecycle.SUPERSEDED)],
        instanceHistory := st.instanceHistory + [st.instances[oldId]]);
      Supersede(st, oldId, inst, current) == RegisterInstance(given, inst, current)
  {
    hide RegisterInstance;
  }

  // ---- updates ----

  /** The instance with the reported status in place of the one it had. */
  predicate Reports(o: Observation, was: Instance, told: Instance) {
    match o
    case SetHealth(h) => told.health == h && told.(health := was.health) == was
    case SetReadiness(r) => told.readiness == r && told.(readiness := was.readiness) == was
    case SetFreshness(f) => told.freshness == f && told.(freshness := was.freshness) == was
    case SetReachability(r) => told.reachability == r && told.(reachability := was.reachability) == was
  }

  /** An update is accepted exactly from an envelope that names no other generation of a known
      instance.  It stores the reported status, and the computed ones by it; nothing else changes. */
  lemma ObservationStores(st: State, env: Envelope, id: Id, o: Observation, told: Instance)
    requires id in st.instances ==> Reports(o, st.instances[id], told)
    ensures
      var (next, outcome) := Observe(st, env, id, o);
      && (outcome.Done? <==>
            && id in st.instances
            && env.serviceInstanceGeneration in {0, st.instances[id].instanceGeneration})
      && (outcome.Done? ==>
            next == st.(instances := st.instances[id := Reclassified(next, told)],
              authority := Committed(st.authority)))
  {
    if id in st.instances {
      assert o.On(st.instances[id]) == told;
    }
    var next := Observe(st, env, id, o).0;
    assert EvidenceOf(next) == EvidenceOf(st) by {
      hide Reclassified;
    }
    SameEvidence(st, next, told);
    hide Reclassified;
  }

  /** An accepted endpoint update stores the reachability and classifies the owner by it. */
  lemma EndpointUpdateStores(st: State, env: Envelope, id: Id, r: Reachability)
    ensures
      var (next, outcome) := UpdateReachability(st, env, id, r);
      && (outcome.Done? <==> id in st.endpoints && env.endpointGeneration in {0, st.endpoints[id].generation})
      && (outcome.Done? ==>
            var owner := st.endpoints[id].serviceInstance;
            next == st.(
              endpoints := st.endpoints[id := st.endpoints[id].(reachability := r)],
              instances :=
                if owner != 0 && owner in st.instances
                then st.instances[owner := Reclassified(next, st.instances[owner])] else st.instances,
              authority := Committed(st.authority)))
  {
    var next := UpdateReachability(st, env, id, r).0;
    if id in st.endpoints {
      var owner := st.endpoints[id].serviceInstance;
      var seen := st.(endpoints := st.endpoints[id := st.endpoints[id].(reachability := r)]);
      if UpdateReachability(st, env, id, r).1.Done? && owner in st.instances {
        assert EvidenceOf(next) == EvidenceOf(seen) by {
          hide Reclassified;
        }
        SameEvidence(seen, next, st.instances[owner]);
      }
    }
    hide Reclassified;
  }

  /** An instance that lists a lost endpoint gives no service after the report of it. */
  lemma LostEndpointStops(st: State, env: Envelope, id: Id)
    requires UpdateReachability(st, env, id, Reachability.UNREACHABLE).1.Done? && id in st.endpoints
    requires
      var owner := st.endpoints[id].serviceInstance;
      owner != 0 && owner in st.instances && id in st.instances[owner].endpoints
    ensures
      var owner := st.endpoints[id].serviceInstance;
      var next := UpdateReachability(st, env, id, Reachability.UNREACHABLE).0;
      owner in next.instances && !InService(next.instances[owner].lifecycle)
  {
    EndpointUpdateStores(st, env, id, Reachability.UNREACHABLE);
    var owner := st.endpoints[id].serviceInstance;
    var next := UpdateReachability(st, env, id, Reachability.UNREACHABLE).0;
    assert !Open(next, id);
    NotInService(next, st.instances[owner]);
    hide UpdateReachability, Reclassified, LeaseInForce, Equipped;
  }

  /** Deregistration retires a known instance, which goes to the history as it was. */
  lemma DeregistrationStores(st: State, env: Envelope, id: Id)
    ensures
      var (next, outcome) := Deregister(st, env, id);
      && (outcome.Done? <==> (id in st.instances ==>
            env.serviceInstanceGeneration in {0, st.instances[id].instanceGeneration}))
      && (id !in st.instances ==> next == st)
      && (outcome.Done? && id in st.instances ==>
            next == st.(
              instances := st.instances[id := st.instances[id].(lifecycle := Lifecycle.RETIRED)],
              instanceHistory := st.instanceHistory + [st.instances[id]],
              authority := Committed(st.authority)))
  {
  }

  // ---- leases ----

  /** A lease is stored as given, under its identity or the next one, with the next generation. */
  lemma AcquisitionStores(st: State, lease: Lease)
    ensures
      var (next, outcome) := AcquireLease(st, lease);
      var id := if lease.leaseId != 0 then lease.leaseId else st.nextId;
      && outcome == Done(id)
      && id in next.leases && next.leases == st.leases[id := next.leases[id]]
      && next.leases[id].generation == Inc(st.authority.gens.lease) == next.authority.gens.lease
      && next.leases[id].(leaseId := lease.leaseId, generation := lease.generation) == lease
      && next.leases[id].leaseId == id
      && next.nextId == (if lease.leaseId == 0 then Inc(st.nextId) else st.nextId)
      && next.(leases := st.leases, authority := st.authority, nextId := st.nextId) == st
  {
  }

  /** A renewal is accepted exactly from the process that holds the lease, for its generation, and
      not after revocation; then the lease is active. */
  lemma RenewalStores(st: State, env: Envelope, id: Id)
    ensures
      var (next, outcome) := RenewLease(st, env, id);
      && (outcome.Done? <==>
            && id in st.leases && st.leases[id].state != LeaseState.REVOKED
            && env.leaseGeneration in {0, st.leases[id].generation}
            && forall i :: i in st.instances && i == st.leases[id].serviceInstance ==> st.instances[i].boot == env.boot)
      && (outcome.Done? ==>
            next == st.(
              leases := st.leases[id := st.leases[id].(state := LeaseState.ACTIVE)],
              authority := Committed(st.authority)))
  {
  }

  /** Only an active lease is ended, with the state asked for. */
  lemma EndingStores(st: State, id: Id, state: LeaseState)
    ensures
      var (next, outcome) := EndLease(st, id, state);
      && outcome == Done(0)
      && next.leases ==
           (if id in st.leases && st.leases[id].state == LeaseState.ACTIVE
            then st.leases[id := st.leases[id].(state := state)] else st.leases)
      && next.(leases := st.leases) == if id in st.leases then Commit(st) else st
  {
  }

  // ---- registrations of other records ----

  function Higher(a: Generation, b: Generation): Generation {
    if a >= b then a else b
  }

  /** A numbered change that also moves the generation of its sort of record. */
  function Raised(a: Authority, gens: Generations): Authority {
    Committed(a.(gens := gens))
  }

  /** A service is stored as given if it is new and no tombstone covers it, or newer than the one
      known; a repetition changes nothing. */
  lemma ServiceStores(st: State, svc: Service)
    ensures
      var (next, outcome) := RegisterService(st, svc);
      var id := svc.serviceId;
      var repeats := id in st.services && svc.generation == st.services[id].generation
        && SameService(svc, st.services[id]);
      && (outcome.Done? <==>
            || repeats
            || (id in st.services && st.services[id].generation < svc.generation)
            || (id !in st.services && !Covered(st.tombstones, SERVICE_ID, id, svc.generation)))
      && (repeats || outcome.Refused? ==> next == st)
      && (outcome.Done? && !repeats ==>
            && next.services == st.services[id := svc]
            && next.authority ==
                 Raised(st.authority, st.authority.gens.(service := Higher(st.authority.gens.service, svc.generation)))
            && next.(services := st.services, authority := st.authority, indexes := st.indexes) == st)
  {
    hide Covered, SameService, Rebuilt;
  }

  lemma ProtocolStores(st: State, pd: Protocol)
    ensures
      var (next, outcome) := RegisterProtocol(st, pd);
      var id := pd.protocolId;
      var repeats := id in st.protocols && pd == st.protocols[id];
      && (outcome.Done? <==> repeats || (id in st.protocols ==> st.protocols[id].generation < pd.generation))
      && (repeats || outcome.Refused? ==> next == st)
      && (outcome.Done? && !repeats ==>
            && next.protocols == st.protocols[id := pd]
            && next.authority ==
                 Raised(st.authority, st.authority.gens.(protocol := Higher(st.authority.gens.protocol, pd.generation)))
            && next.(protocols := st.protocols, authority := st.authority) == st)
  {
  }

  /** Records without an identity are given the next one.  The history keeps the endpoint that was
      replaced, or the one that is new. */
  lemma EndpointStores(st: State, ep: Endpoint)
    ensures
      var (next, outcome) := RegisterEndpoint(st, ep);
      var known := ep.endpointId in st.endpoints;
      var repeats := known && ep == st.endpoints[ep.endpointId];
      var numbered := !known && ep.endpointId == 0;
      var stored := if numbered then ep.(endpointId := st.nextId) else ep;
      && (outcome.Done? <==>
            || repeats
            || (known && st.endpoints[ep.endpointId].generation < ep.generation)
            || (!known && !Covered(st.tombstones, ENDPOINT_ID, ep.endpointId, ep.generation)))
      && (repeats || outcome.Refused? ==> next == st)
      && (outcome.Done? && !repeats ==>
            && outcome.id == stored.endpointId
            && next.endpoints == st.endpoints[stored.endpointId := stored]
            && next.authority ==
                 Raised(st.authority, st.authority.gens.(endpoint := Higher(st.authority.gens.endpoint, ep.generation)))
            && next.endpointHistory == st.endpointHistory + [if known then st.endpoints[ep.endpointId] else stored]
            && next.nextId == (if numbered then Inc(st.nextId) else st.nextId)
            && next.(endpoints := st.endpoints, endpointHistory := st.endpointHistory, authority := st.authority,
                     nextId := st.nextId) == st)
  {
    hide Covered;
  }

  /** Capabilities likewise. */
  lemma CapabilityStores(st: State, cap: Capability)
    ensures
      var (next, outcome) := RegisterCapability(st, cap);
      var known := cap.capabilityId in st.capabilities;
      var repeats := known && cap.generation == st.capabilities[cap.capabilityId].generation
        && SameCapability(cap, st.capabilities[cap.capabilityId]);
      var numbered := !known && cap.capabilityId == 0;
      var stored := if numbered then cap.(capabilityId := st.nextId) else cap;
      && (outcome.Done? <==>
            || repeats
            || (known && st.capabilities[cap.capabilityId].generation < cap.generation)
            || (!known && !Covered(st.tombstones, CAPABILITY_ID, cap.capabilityId, cap.generation)))
      && (repeats || outcome.Refused? ==> next == st)
      && (outcome.Done? && !repeats ==>
            && outcome.id == stored.capabilityId
            && next.capabilities == st.capabilities[stored.capabilityId := stored]
            && next.authority ==
                 Raised(st.authority,
                   st.authority.gens.(capability := Higher(st.authority.gens.capability, cap.generation)))
            && next.capabilityHistory == st.capabilityHistory
                 + [if known then st.capabilities[cap.capabilityId] else stored]
            && next.nextId == (if numbered then Inc(st.nextId) else st.nextId)
            && next.(capabilities := st.capabilities, capabilityHistory := st.capabilityHistory,
                     authority := st.authority, nextId := st.nextId) == st)
  {
    hide Covered, SameCapability;
  }

  /** A newer runtime replaces its instance only; a new one enters the runtimes and the history too. */
  lemma RuntimeStores(st: State, rt: Runtime)
    ensures
      var (next, outcome) := RegisterRuntime(st, rt);
      var known := rt.runtimeInstance in st.runtimeInstances;
      var repeats := known && rt.generation == st.runtimeInstances[rt.runtimeInstance].generation
        && SameRuntime(rt, st.runtimeInstances[rt.runtimeInstance]);
      var numbered := !known && rt.runtimeInstance == 0;
      var stored := if numbered then rt.(runtimeInstance := st.nextId) else rt;
      && (outcome.Done? <==>
            || repeats
            || (known && st.runtimeInstances[rt.runtimeInstance].generation < rt.generation)
            || (!known && !Covered(st.tombstones, RUNTIME_INSTANCE_ID, rt.runtimeInstance, rt.generation)))
      && (repeats || outcome.Refused? ==> next == st)
      && (outcome.Done? && !repeats ==>
            && outcome.id == stored.runtimeInstance
            && next.runtimeInstances == st.runtimeInstances[stored.runtimeInstance := stored]
            && next.authority ==
                 Raised(st.authority, st.authority.gens.(runtime := Higher(st.authority.gens.runtime, rt.generation)))
            && next.runtimes == (if known then st.runtimes else st.runtimes[rt.runtimeId := stored])
            && next.runtimeHistory == (if known then st.runtimeHistory else st.runtimeHistory + [stored])
            && next.nextId == (if numbered then Inc(st.nextId) else st.nextId)
            && next.(runtimeInstances := st.runtimeInstances, runtimes := st.runtimes,
                 runtimeHistory := st.runtimeHistory,
                     authority := st.authority, nextId := st.nextId) == st)
  {
    hide Covered, SameRuntime;
  }
}
