/** The registry as an object whose methods update its maps in place, each proved to take the step
    that the model describes.  A thrown error is the returned outcome. */
module RegistryObject {
  import opened Base
  import opened Enums
  import opened Records
  import opened RegistryModel
  import opened Loops
  import opened Codec
  import opened RecordCodec
  import opened Sections
  import opened Persistence
  import Crc32
  import LittleEndian
  import SelfCheck
  import QueryModel
  import Discovery = Query

  function RaisedService(st: State, g: Generation): State {
    st.(authority := st.authority.(gens := st.authority.gens.(service := Max(st.authority.gens.service, g))))
  }

  function RaisedRuntime(st: State, g: Generation): State {
    st.(authority := st.authority.(gens := st.authority.gens.(runtime := Max(st.authority.gens.runtime, g))))
  }

  function RaisedEndpoint(st: State, g: Generation): State {
    st.(authority := st.authority.(gens := st.authority.gens.(endpoint := Max(st.authority.gens.endpoint, g))))
  }

  function RaisedCapability(st: State, g: Generation): State {
    st.(authority := st.authority.(gens := st.authority.gens.(capability := Max(st.authority.gens.capability, g))))
  }

  /** An endpoint after a dead instance let go of it. */
  function Released(ep: Endpoint, listed: bool, owner: Id): Endpoint {
    if listed && ep.serviceInstance == owner then
      ep.(serviceInstance := 0, reachability := Reachability.UNREACHABLE) else ep
  }

  lemma LeasesOneMore(leases: map<Id, Lease>, boot: Id, seen: map<Id, Instance>, i: Id, inst: Instance)
    requires i !in seen
    ensures
      var before := RevokedLeases(leases, boot, seen);
      RevokedLeases(leases, boot, seen[i := inst]) ==
        if inst.boot == boot && inst.lease != 0 && inst.lease in before && before[inst.lease].state == LeaseState.ACTIVE
        then before[inst.lease := before[inst.lease].(state := LeaseState.EXPIRED)] else before
  {
    forall l
      ensures LeasedTo(boot, l, seen[i := inst]) <==>
        LeasedTo(boot, l, seen) || (l != 0 && inst.boot == boot && inst.lease == l) {
      var more := seen[i := inst];
      assert more[i] == inst;
      assert forall j :: j in seen ==> more[j] == seen[j];
    }
    hide LeasedTo;
  }

  lemma EndpointsOneMore(endpoints: map<Id, Endpoint>, boot: Id, seen: map<Id, Instance>, i: Id, inst: Instance)
    requires i !in seen
    ensures
      var before, after := RevokedEndpoints(endpoints, boot, seen), RevokedEndpoints(endpoints, boot, seen[i := inst]);
      && before.Keys == after.Keys
      && if inst.boot == boot then forall e ::
           e in after ==> after[e] == Released(before[e], e in inst.endpoints, inst.instanceId) else after == before
  {
    forall e, ep ensures ClaimedBy(boot, e, ep, seen[i := inst]) <==>
      ClaimedBy(boot, e, ep, seen) || (inst.boot == boot && e in inst.endpoints
      && ep.serviceInstance == inst.instanceId)
    {
      var more := seen[i := inst];
      assert more[i] == inst;
      assert forall j :: j in seen ==> more[j] == seen[j];
    }
    hide ClaimedBy;
  }

  lemma NothingRevoked(leases: map<Id, Lease>, endpoints: map<Id, Endpoint>, boot: Id)
    ensures RevokedLeases(leases, boot, map[]) == leases
    ensures RevokedEndpoints(endpoints, boot, map[]) == endpoints
  {
  }

  /** What revocation changes beside authority. */
  datatype Held = Held(instances: map<Id, Instance>, leases: map<Id, Lease>, endpoints: map<Id, Endpoint>)

  /** `after` is `before` with one instance dead and what it held released. */
  predicate ReleasedOne(before: Held, i: Id, after: Held)
    requires i in before.instances
  {
    var inst := before.instances[i];
    && after.instances == before.instances[i := Dead(inst)]
    && after.leases == (if inst.lease != 0 && inst.lease in before.leases
         && before.leases[inst.lease].state == LeaseState.ACTIVE
                        then before.leases[inst.lease := before.leases[inst.lease].(state := LeaseState.EXPIRED)]
                          else before.leases)
    && after.endpoints.Keys == before.endpoints.Keys
    && forall e ::
         e in after.endpoints ==>
           after.endpoints[e] == Released(before.endpoints[e], e in inst.endpoints, inst.instanceId)
  }

  ghost function Seen(instances: map<Id, Instance>, left: set<Id>): map<Id, Instance> {
    map i | i in instances && i !in left :: instances[i]
  }

  /** How far the loop of revocation got: all but the instances in `left` have been visited. */
  ghost predicate Releasing(was: Held, boot: Id, left: set<Id>, now: Held) {
    && now.instances.Keys == was.instances.Keys
    && (forall i :: i in now.instances ==>
         now.instances[i] == if i in left || was.instances[i].boot != boot then was.instances[i]
           else Dead(was.instances[i]))
    && now.leases == RevokedLeases(was.leases, boot, Seen(was.instances, left))
    && now.endpoints == RevokedEndpoints(was.endpoints, boot, Seen(was.instances, left))
  }

  lemma ReleaseBegins(was: Held, boot: Id)
    ensures Releasing(was, boot, was.instances.Keys, was)
  {
    NothingRevoked(was.leases, was.endpoints, boot);
    assert Seen(was.instances, was.instances.Keys) == map[];
  }

  lemma ReleaseStep(was: Held, boot: Id, left: set<Id>, i: Id, before: Held, after: Held)
    requires i in left && left <= was.instances.Keys && i in before.instances
    requires Releasing(was, boot, left, before)
    requires if before.instances[i].boot == boot then ReleasedOne(before, i, after) else after == before
    ensures Releasing(was, boot, left - {i}, after)
  {
    hide Dead, Released, RevokedLeases, RevokedEndpoints, Seen;
    SeenOneMore(was.instances, left, i);
    var inst := was.instances[i];
    assert after.leases == RevokedLeases(was.leases, boot, Seen(was.instances, left - {i})) by {
      LeasesOneMore(was.leases, boot, Seen(was.instances, left), i, inst);
    }
    assert after.endpoints == RevokedEndpoints(was.endpoints, boot, Seen(was.instances, left - {i})) by {
      EndpointsOneMore(was.endpoints, boot, Seen(was.instances, left), i, inst);
      if inst.boot == boot {
        SameEndpoints(after.endpoints, RevokedEndpoints(was.endpoints, boot, Seen(was.instances, left - {i})));
      }
    }
  }

  lemma SeenOneMore(instances: map<Id, Instance>, left: set<Id>, i: Id)
    requires i in left && i in instances
    ensures i !in Seen(instances, left) && Seen(instances, left - {i}) == Seen(instances, left)[i := instances[i]]
  {
  }

  lemma SameEndpoints(a: map<Id, Endpoint>, b: map<Id, Endpoint>)
    requires a.Keys == b.Keys && forall e :: e in a ==> a[e] == b[e]
    ensures a == b
  {
  }

  lemma ReleaseEnds(was: Held, boot: Id, now: Held)
    requires Releasing(was, boot, {}, now)
    ensures now.instances == RevokedInstances(was.instances, boot)
    ensures now.leases == RevokedLeases(was.leases, boot, was.instances)
    ensures now.endpoints == RevokedEndpoints(was.endpoints, boot, was.instances)
  {
    hide Dead, RevokedLeases, RevokedEndpoints;
    assert Seen(was.instances, {}) == was.instances;
  }

  /** Once a record was refused, no more sections are read. */
  lemma FailureStays(l: Loading, c: Counts)
    ensures l.failed ==> Persistence.LoadInventory(l, c) == l && Persistence.LoadHistories(l, c) == l
  {
    hide Fill, Append;
  }

  class Registry {
    var authority: Authority
    var services: map<Id, Service>
    var instances: map<Id, Instance>
    var runtimes: map<Id, Runtime>
    var runtimeInstances: map<Id, Runtime>
    var endpoints: map<Id, Endpoint>
    var protocols: map<Id, Protocol>
    var backends: map<Id, Backend>
    var devices: map<Id, Device>
    var capabilities: map<Id, Capability>
    var nodes: map<Id, Node>
    var leases: map<Id, Lease>
    var tombstones: map<Id, Tombstone>
    var compatRecords: map<Id, Compatibility>
    var invalidations: seq<Invalidation>
    var instanceHistory: seq<Instance>
    var runtimeHistory: seq<Runtime>
    var endpointHistory: seq<Endpoint>
    var capabilityHistory: seq<Capability>
    var indexes: Indexes
    var nextBoot: u64
    var nextId: u64

    function View(): State
      reads this
    {
      State(authority, services, instances, runtimes, runtimeInstances, endpoints, protocols, backends,
        devices, capabilities,
            nodes, leases, tombstones, compatRecords, invalidations, instanceHistory, runtimeHistory, endpointHistory,
            capabilityHistory, indexes, nextBoot, nextId)
    }

    constructor ()
      ensures View() == INITIAL
    {
      authority := Authority(1, 1, 1, map[], {}, map[], NO_GENERATIONS);
      services, instances, runtimes, runtimeInstances, endpoints := map[], map[], map[], map[], map[];
      protocols, backends, devices, capabilities, nodes := map[], map[], map[], map[], map[];
      leases, tombstones, compatRecords := map[], map[], map[];
      invalidations, instanceHistory, runtimeHistory, endpointHistory, capabilityHistory := [], [], [], [], [];
      indexes := Indexes(map[], map[], map[], map[]);
      nextBoot, nextId := 100, 1;
    }

    // ---- authority ----

    method CommitGeneration()
      modifies `authority
      ensures View() == Commit(old(View()))
    {
      authority := authority.(registryGeneration := Inc(authority.registryGeneration));
      authority := authority.(recordGeneration := Inc(authority.recordGeneration));
      authority := authority.(gens := authority.gens.(authority := Inc(authority.gens.authority)));
    }

    /** The loop of recovery over the instances. */
    method RecoverInstances()
      modifies `instances
      ensures View() == old(View()).(instances := RecoveredInstances(old(instances)))
    {
      hide RecoveredInstance;
      var left := instances.Keys;
      while left != {}
        invariant instances.Keys == old(instances).Keys && left <= instances.Keys
        invariant forall i ::
          i in instances ==> instances[i] == if i in left then old(instances)[i]
            else RecoveredInstance(old(instances)[i])
        decreases |left|
      {
        var i :| i in left;
        left := left - {i};
        RecoverInstance(i);
      }
    }

    /** Its body: the branches of the source on one instance. */
    method RecoverInstance(i: Id)
      requires i in instances
      modifies `instances
      ensures instances == old(instances)[i := RecoveredInstance(old(instances)[i])]
    {
      var inst := instances[i];
      if inst.lifecycle == Lifecycle.AVAILABLE || inst.lifecycle == Lifecycle.DEGRADED
        || inst.lifecycle == Lifecycle.UNREADY {
        inst := inst.(freshness := Freshness.REVALIDATION_REQUIRED, reachability := Reachability.REVALIDATION_REQUIRED);
        if inst.lifecycle == Lifecycle.AVAILABLE || inst.lifecycle == Lifecycle.DEGRADED {
          inst := inst.(lifecycle := Lifecycle.UNREADY);
        }
      }
      inst := inst.(updatedMs := 0);
      instances := instances[i := inst];
    }

    method RecoverEndpoints()
      modifies `endpoints
      ensures View() == old(View()).(endpoints := RecoveredEndpoints(old(endpoints)))
    {
      var left := endpoints.Keys;
      while left != {}
        invariant endpoints.Keys == old(endpoints).Keys && left <= endpoints.Keys
        invariant forall i ::
          i in endpoints ==> endpoints[i] == if i in left then old(endpoints)[i]
            else RecoveredEndpoint(old(endpoints)[i])
        decreases |left|
      {
        var i :| i in left;
        left := left - {i};
        var ep := endpoints[i];
        if ep.transport == TransportKind.IN_PROCESS || ep.transport == TransportKind.LOCAL_IPC {
          endpoints := endpoints[i := ep.(freshness := Freshness.REVALIDATION_REQUIRED,
            reachability := Reachability.REVALIDATION_REQUIRED)];
        } else if ep.transport == TransportKind.TCP {
          endpoints := endpoints[i := ep.(reachability := Reachability.REVALIDATION_REQUIRED)];
        }
      }
    }

    method RecoverCapabilities()
      modifies `capabilities
      ensures View() == old(View()).(capabilities := RecoveredCapabilities(old(capabilities)))
    {
      var left := capabilities.Keys;
      while left != {}
        invariant capabilities.Keys == old(capabilities).Keys && left <= capabilities.Keys
        invariant forall i ::
          i in capabilities ==> capabilities[i] == if i in left then old(capabilities)[i]
            else RecoveredCapability(old(capabilities)[i])
        decreases |left|
      {
        var i :| i in left;
        left := left - {i};
        var cap := capabilities[i];
        if cap.freshness == Freshness.CURRENT && cap.provenance.IsPhysical() {
          capabilities := capabilities[i := cap.(freshness := Freshness.REVALIDATION_REQUIRED)];
        }
      }
    }

    method RecoverLeases()
      modifies `leases
      ensures View() == old(View()).(leases := RecoveredLeases(old(leases)))
    {
      var left := leases.Keys;
      while left != {}
        invariant leases.Keys == old(leases).Keys && left <= leases.Keys
        invariant forall i ::
          i in leases ==> leases[i] == if i in left then old(leases)[i] else RecoveredLease(old(leases)[i])
        decreases |left|
      {
        var i :| i in left;
        left := left - {i};
        if leases[i].state == LeaseState.ACTIVE {
          leases := leases[i := leases[i].(state := LeaseState.REVALIDATION_REQUIRED)];
        }
      }
    }

    method BeginCoordinatorEpoch()
      modifies `authority, `instances, `endpoints, `capabilities, `leases
      ensures View() == NewEpoch(old(View()))
    {
      hide RecoveredInstances, RecoveredEndpoints, RecoveredCapabilities, RecoveredLeases;
      authority := authority.(epoch := Inc(authority.epoch));
      authority := authority.(liveBoots := {}, currentBoot := map[], bootWorker := map[]);
      hide View;
      RecoverInstances();
      RecoverEndpoints();
      RecoverCapabilities();
      RecoverLeases();
    }

    // ---- revocation ----

    /** The endpoints of a dead instance are released. */
    method ReleaseEndpoints(inst: Instance)
      modifies `endpoints
      ensures endpoints.Keys == old(endpoints).Keys
      ensures forall e ::
        e in endpoints ==> endpoints[e] == Released(old(endpoints)[e], e in inst.endpoints, inst.instanceId)
    {
      for k := 0 to |inst.endpoints|
        invariant endpoints.Keys == old(endpoints).Keys
        invariant forall e ::
          e in endpoints ==> endpoints[e] == Released(old(endpoints)[e], e in inst.endpoints[..k], inst.instanceId)
      {
        var e := inst.endpoints[k];
        assert inst.endpoints[..k + 1] == inst.endpoints[..k] + [e];
        if e in endpoints && endpoints[e].serviceInstance == inst.instanceId {
          endpoints := endpoints[e := endpoints[e].(serviceInstance := 0, reachability := Reachability.UNREACHABLE)];
        }
      }
      assert inst.endpoints[..|inst.endpoints|] == inst.endpoints;
    }

    /** What revocation does on the way over one instance of the boot. */
    method ReleaseInstance(i: Id)
      requires i in instances
      modifies `instances, `leases, `endpoints
      ensures ReleasedOne(Held(old(instances), old(leases), old(endpoints)), i, Held(instances, leases, endpoints))
    {
      var inst := instances[i];
      if inst.lease != 0 && inst.lease in leases && leases[inst.lease].state == LeaseState.ACTIVE {
        leases := leases[inst.lease := leases[inst.lease].(state := LeaseState.EXPIRED)];
      }
      instances := instances[i := inst.(lifecycle := Lifecycle.STALE, freshness := Freshness.STALE,
                                        reachability := Reachability.UNREACHABLE, readiness := Readiness.NOT_READY)];
      ReleaseEndpoints(inst);
    }

    /** The loop of revocation, in whatever order the instances are walked. */
    method ReleaseAll(boot: Id)
      modifies `instances, `leases, `endpoints
      ensures View() == old(View()).(
        instances := RevokedInstances(old(instances), boot),
        leases := RevokedLeases(old(leases), boot, old(instances)),
        endpoints := RevokedEndpoints(old(endpoints), boot, old(instances)))
    {
      var left := instances.Keys;
      ghost var was := Held(instances, leases, endpoints);
      ReleaseBegins(was, boot);
      hide Releasing, Dead, Released, RevokedInstances, RevokedLeases, RevokedEndpoints;
      while left != {}
        invariant left <= was.instances.Keys == instances.Keys
        invariant Releasing(was, boot, left, Held(instances, leases, endpoints))
        decreases |left|
      {
        var i :| i in left;
        ghost var before := Held(instances, leases, endpoints);
        if instances[i].boot == boot {
          ReleaseInstance(i);
        }
        ReleaseStep(was, boot, left, i, before, Held(instances, leases, endpoints));
        left := left - {i};
      }
      ReleaseEnds(was, boot, Held(instances, leases, endpoints));
    }

    method RevokeAuthority(boot: Id)
      requires boot in authority.liveBoots
      modifies `authority
      ensures View() == old(View()).(authority := RevokedAuthority(old(authority), boot))
    {
      authority := authority.(liveBoots := authority.liveBoots - {boot});
      var owner := if boot in authority.bootWorker then authority.bootWorker[boot] else 0;
      if owner in authority.currentBoot && authority.currentBoot[owner] == boot {
        authority := authority.(currentBoot := authority.currentBoot[owner := 0]);
      }
      authority := authority.(bootWorker := authority.bootWorker - {boot});
    }

    method RevokeBootInternal(boot: Id)
      modifies `authority, `instances, `leases, `endpoints
      ensures View() == Revoked(old(View()), boot)
    {
      hide RevokedAuthority, RevokedInstances, RevokedLeases, RevokedEndpoints;
      if boot !in authority.liveBoots {
        return;
      }
      RevokeAuthority(boot);
      ReleaseAll(boot);
    }

    method MarkWorkerDied(boot: Id)
      modifies `authority, `instances, `leases, `endpoints
      ensures View() == Revoked(old(View()), boot)
    {
      RevokeBootInternal(boot);
    }

    method AdoptWorker(worker: Id) returns (boot: Id)
      modifies `authority, `instances, `leases, `endpoints, `nextBoot
      ensures (View(), Done(boot)) == Adopted(old(View()), worker)
    {
      nextBoot := Inc(nextBoot);
      boot := nextBoot;
      hide Revoked;
      if worker in authority.currentBoot && authority.currentBoot[worker] != boot {
        RevokeBootInternal(authority.currentBoot[worker]);
      }
      authority := authority.(currentBoot := authority.currentBoot[worker := boot]);
      authority := authority.(liveBoots := authority.liveBoots + {boot});
      authority := authority.(bootWorker := authority.bootWorker[boot := worker]);
    }

    // ---- registrations ----

    /** An identity given by the caller, or the next one. */
    method Allocate(given: Id) returns (id: Id)
      modifies `nextId
      ensures id == if given == 0 then old(nextId) else given
      ensures nextId == if given == 0 then Inc(old(nextId)) else old(nextId)
    {
      id := given;
      if given == 0 {
        id := nextId;
        nextId := Inc(nextId);
      }
    }

    method RaiseService(g: Generation)
      modifies `authority
      ensures View() == Commit(RaisedService(old(View()), g))
    {
      if authority.gens.service < g {
        authority := authority.(gens := authority.gens.(service := g));
      }
      CommitGeneration();
    }

    method FileService(svc: Service) returns (outcome: Outcome)
      modifies `authority, `services, `indexes
      ensures (View(), outcome) == RegistryModel.RegisterService(old(View()), svc)
    {
      hide Commit, Covered, SameService, Rebuilt, Reindexed;
      if svc.serviceId in services {
        var cur := services[svc.serviceId];
        if svc.generation == cur.generation && SameService(svc, cur) {
          return Done(0);
        }
        if svc.generation <= cur.generation {
          return Refused(STALE_SERVICE_GENERATION);
        }
        services := services[svc.serviceId := svc];
      } else {
        var covered := FindTombstone(tombstones, SERVICE_ID, svc.serviceId, svc.generation);
        if covered {
          return Refused(TOMBSTONE_RESURRECTION);
        }
        services := services[svc.serviceId := svc];
      }
      RaiseService(svc.generation);
      Reindex();
      return Done(0);
    }

    method RegisterService(svc: Service, env: Envelope) returns (outcome: Outcome)
      modifies `authority, `services, `indexes
      ensures (View(), outcome) == Mutate(old(View()), env, OpService(svc))
    {
      hide RegistryModel.RegisterService, Covered, SameService, Rebuilt;
      var verdict := Verdict(authority, env);
      if verdict.Some? {
        return Refused(verdict.value);
      }
      outcome := FileService(svc);
    }

    method RaiseRuntime(g: Generation)
      modifies `authority
      ensures View() == Commit(RaisedRuntime(old(View()), g))
    {
      if authority.gens.runtime < g {
        authority := authority.(gens := authority.gens.(runtime := g));
      }
      CommitGeneration();
    }

    method AddRuntime(rt: Runtime) returns (copy: Runtime)
      modifies `runtimes, `runtimeInstances, `runtimeHistory, `nextId
      ensures copy == if rt.runtimeInstance == 0 then rt.(runtimeInstance := old(nextId)) else rt
      ensures nextId == if rt.runtimeInstance == 0 then Inc(old(nextId)) else old(nextId)
      ensures runtimes == old(runtimes)[rt.runtimeId := copy]
      ensures runtimeInstances == old(runtimeInstances)[copy.runtimeInstance := copy]
      ensures runtimeHistory == old(runtimeHistory) + [copy]
    {
      var id := Allocate(rt.runtimeInstance);
      copy := if rt.runtimeInstance == 0 then rt.(runtimeInstance := id) else rt;
      runtimes := runtimes[rt.runtimeId := copy];
      runtimeInstances := runtimeInstances[copy.runtimeInstance := copy];
      runtimeHistory := runtimeHistory + [copy];
    }

    method RegisterRuntime(rt: Runtime, env: Envelope) returns (outcome: Outcome)
      modifies `authority, `runtimes, `runtimeInstances, `runtimeHistory, `nextId
      ensures (View(), outcome) == Mutate(old(View()), env, OpRuntime(rt))
    {
      hide Commit, Covered, SameRuntime;
      var verdict := Verdict(authority, env);
      if verdict.Some? {
        return Refused(verdict.value);
      }
      if rt.runtimeInstance in runtimeInstances {
        var cur := runtimeInstances[rt.runtimeInstance];
        if rt.generation == cur.generation && SameRuntime(rt, cur) {
          return Done(rt.runtimeInstance);
        }
        if rt.generation <= cur.generation {
          return Refused(STALE_RUNTIME_GENERATION);
        }
        runtimeInstances := runtimeInstances[rt.runtimeInstance := rt];
        RaiseRuntime(rt.generation);
        return Done(rt.runtimeInstance);
      } else {
        var covered := FindTombstone(tombstones, RUNTIME_INSTANCE_ID, rt.runtimeInstance, rt.generation);
        if covered {
          return Refused(TOMBSTONE_RESURRECTION);
        }
        var copy := AddRuntime(rt);
        RaiseRuntime(copy.generation);
        return Done(copy.runtimeInstance);
      }
    }

    /** `register_protocol` after its envelope was accepted. */
    method FileProtocol(pd: Protocol) returns (outcome: Outcome)
      modifies `authority, `protocols
      ensures (View(), outcome) == RegistryModel.RegisterProtocol(old(View()), pd)
    {
      hide Commit;
      if pd.protocolId in protocols {
        var cur := protocols[pd.protocolId];
        if pd.generation == cur.generation && pd == cur {
          return Done(0);
        }
        if pd.generation <= cur.generation {
          return Refused(DUPLICATE_CONFLICT);
        }
      }
      protocols := protocols[pd.protocolId := pd];
      if authority.gens.protocol < pd.generation {
        authority := authority.(gens := authority.gens.(protocol := pd.generation));
      }
      CommitGeneration();
      return Done(0);
    }

    method RegisterProtocol(pd: Protocol, env: Envelope) returns (outcome: Outcome)
      modifies `authority, `protocols
      ensures (View(), outcome) == Mutate(old(View()), env, OpProtocol(pd))
    {
      hide RegistryModel.RegisterProtocol;
      var verdict := Verdict(authority, env);
      if verdict.Some? {
        return Refused(verdict.value);
      }
      outcome := FileProtocol(pd);
    }

    method RaiseEndpoint(g: Generation)
      modifies `authority
      ensures View() == Commit(RaisedEndpoint(old(View()), g))
    {
      if authority.gens.endpoint < g {
        authority := authority.(gens := authority.gens.(endpoint := g));
      }
      CommitGeneration();
    }

    method ReplaceEndpoint(ep: Endpoint)
      requires ep.endpointId in endpoints
      modifies `endpoints, `endpointHistory
      ensures endpoints == old(endpoints)[ep.endpointId := ep]
      ensures endpointHistory == old(endpointHistory) + [old(endpoints)[ep.endpointId]]
    {
      endpointHistory := endpointHistory + [endpoints[ep.endpointId]];
      endpoints := endpoints[ep.endpointId := ep];
    }

    method AddEndpoint(ep: Endpoint) returns (copy: Endpoint)
      modifies `endpoints, `endpointHistory, `nextId
      ensures copy == if ep.endpointId == 0 then ep.(endpointId := old(nextId)) else ep
      ensures nextId == if ep.endpointId == 0 then Inc(old(nextId)) else old(nextId)
      ensures endpoints == old(endpoints)[copy.endpointId := copy]
      ensures endpointHistory == old(endpointHistory) + [copy]
    {
      var id := Allocate(ep.endpointId);
      copy := if ep.endpointId == 0 then ep.(endpointId := id) else ep;
      endpoints := endpoints[copy.endpointId := copy];
      endpointHistory := endpointHistory + [copy];
    }

    method FileEndpoint(ep: Endpoint) returns (outcome: Outcome)
      modifies `authority, `endpoints, `endpointHistory, `nextId
      ensures (View(), outcome) == RegistryModel.RegisterEndpoint(old(View()), ep)
    {
      hide Commit, Covered;
      if ep.endpointId in endpoints {
        var cur := endpoints[ep.endpointId];
        if ep.generation == cur.generation && ep == cur {
          return Done(ep.endpointId);
        }
        if ep.generation <= cur.generation {
          return Refused(STALE_ENDPOINT_GENERATION);
        }
        ReplaceEndpoint(ep);
        RaiseEndpoint(ep.generation);
        return Done(ep.endpointId);
      } else {
        var covered := FindTombstone(tombstones, ENDPOINT_ID, ep.endpointId, ep.generation);
        if covered {
          return Refused(TOMBSTONE_RESURRECTION);
        }
        var copy := AddEndpoint(ep);
        RaiseEndpoint(copy.generation);
        return Done(copy.endpointId);
      }
    }

    method RegisterEndpoint(ep: Endpoint, env: Envelope) returns (outcome: Outcome)
      modifies `authority, `endpoints, `endpointHistory, `nextId
      ensures (View(), outcome) == Mutate(old(View()), env, OpEndpoint(ep))
    {
      hide RegistryModel.RegisterEndpoint;
      var verdict := Verdict(authority, env);
      if verdict.Some? {
        return Refused(verdict.value);
      }
      outcome := FileEndpoint(ep);
    }

    method RaiseCapability(g: Generation)
      modifies `authority
      ensures View() == Commit(RaisedCapability(old(View()), g))
    {
      if authority.gens.capability < g {
        authority := authority.(gens := authority.gens.(capability := g));
      }
      CommitGeneration();
    }

    method ReplaceCapability(cap: Capability)
      requires cap.capabilityId in capabilities
      modifies `capabilities, `capabilityHistory
      ensures capabilities == old(capabilities)[cap.capabilityId := cap]
      ensures capabilityHistory == old(capabilityHistory) + [old(capabilities)[cap.capabilityId]]
    {
      capabilityHistory := capabilityHistory + [capabilities[cap.capabilityId]];
      capabilities := capabilities[cap.capabilityId := cap];
    }

    method AddCapability(cap: Capability) returns (copy: Capability)
      modifies `capabilities, `capabilityHistory, `nextId
      ensures copy == if cap.capabilityId == 0 then cap.(capabilityId := old(nextId)) else cap
      ensures nextId == if cap.capabilityId == 0 then Inc(old(nextId)) else old(nextId)
      ensures capabilities == old(capabilities)[copy.capabilityId := copy]
      ensures capabilityHistory == old(capabilityHistory) + [copy]
    {
      var id := Allocate(cap.capabilityId);
      copy := if cap.capabilityId == 0 then cap.(capabilityId := id) else cap;
      capabilities := capabilities[copy.capabilityId := copy];
      capabilityHistory := capabilityHistory + [copy];
    }

    /** `register_capability` after its envelope was accepted. */
    method FileCapability(cap: Capability) returns (outcome: Outcome)
      modifies `authority, `capabilities, `capabilityHistory, `nextId
      ensures (View(), outcome) == RegistryModel.RegisterCapability(old(View()), cap)
    {
      hide Commit, Covered, SameCapability;
      if cap.capabilityId in capabilities {
        var cur := capabilities[cap.capabilityId];
        if cap.generation == cur.generation && SameCapability(cap, cur) {
          return Done(cap.capabilityId);
        }
        if cap.generation <= cur.generation {
          return Refused(STALE_CAPABILITY_GENERATION);
        }
        ReplaceCapability(cap);
        RaiseCapability(cap.generation);
        return Done(cap.capabilityId);
      } else {
        var covered := FindTombstone(tombstones, CAPABILITY_ID, cap.capabilityId, cap.generation);
        if covered {
          return Refused(TOMBSTONE_RESURRECTION);
        }
        var copy := AddCapability(cap);
        RaiseCapability(copy.generation);
        return Done(copy.capabilityId);
      }
    }

    method RegisterCapability(cap: Capability, env: Envelope) returns (outcome: Outcome)
      modifies `authority, `capabilities, `capabilityHistory, `nextId
      ensures (View(), outcome) == Mutate(old(View()), env, OpCapability(cap))
    {
      hide RegistryModel.RegisterCapability;
      var verdict := Verdict(authority, env);
      if verdict.Some? {
        return Refused(verdict.value);
      }
      outcome := FileCapability(cap);
    }

    // ---- leases, invalidations, tombstones ----

    method StoreLease(lease: Lease) returns (outcome: Outcome)
      modifies `authority, `leases, `nextId
      ensures (View(), outcome) == RegistryModel.AcquireLease(old(View()), lease)
    {
      ghost var was := View();
      var id := Allocate(lease.leaseId);
      var generation := Inc(authority.gens.lease);
      authority := authority.(gens := authority.gens.(lease := generation));
      leases := leases[id := lease.(leaseId := id, generation := generation)];
      assert View() == was.(authority := was.authority.(gens := was.authority.gens.(lease := generation)),
                            nextId := if lease.leaseId == 0 then Inc(was.nextId) else was.nextId,
                            leases := was.leases[id := lease.(leaseId := id, generation := generation)]);
      assert id == if lease.leaseId == 0 then was.nextId else lease.leaseId;
      assert generation == Inc(was.authority.gens.lease);
      hide View;
      CommitGeneration();
      return Done(id);
    }

    method AcquireLease(lease: Lease, env: Envelope) returns (outcome: Outcome)
      modifies `authority, `leases, `nextId
      ensures (View(), outcome) == Mutate(old(View()), env, OpAcquire(lease))
    {
      hide RegistryModel.AcquireLease;
      var verdict := Verdict(authority, env);
      if verdict.Some? {
        return Refused(verdict.value);
      }
      outcome := StoreLease(lease);
    }

    method RenewLease(id: Id, env: Envelope) returns (outcome: Outcome)
      modifies `authority, `leases
      ensures (View(), outcome) == Mutate(old(View()), env, OpRenew(id))
    {
      var verdict := Verdict(authority, env);
      if verdict.Some? {
        return Refused(verdict.value);
      }
      if id !in leases {
        return Refused(UNKNOWN_IDENTITY);
      }
      var lease := leases[id];
      if lease.state == LeaseState.REVOKED {
        return Refused(STALE_RENEWAL);
      }
      if lease.serviceInstance in instances && instances[lease.serviceInstance].boot != env.boot {
        return Refused(STALE_BOOT);
      }
      if env.leaseGeneration != 0 && env.leaseGeneration != lease.generation {
        return Refused(STALE_LEASE_GENERATION);
      }
      leases := leases[id := lease.(state := LeaseState.ACTIVE)];
      CommitGeneration();
      return Done(0);
    }

    /** `expire_lease` and `revoke_lease` */
    method EndLease(id: Id, state: LeaseState, env: Envelope) returns (outcome: Outcome)
      modifies `authority, `leases
      ensures (View(), outcome) == Mutate(old(View()), env, OpEnd(id, state))
    {
      var verdict := Verdict(authority, env);
      if verdict.Some? {
        return Refused(verdict.value);
      }
      if id !in leases {
        return Done(0);
      }
      if leases[id].state == LeaseState.ACTIVE {
        leases := leases[id := leases[id].(state := state)];
      }
      CommitGeneration();
      return Done(0);
    }

    method Invalidate(rec: Invalidation, env: Envelope) returns (outcome: Outcome)
      modifies `authority, `invalidations
      ensures (View(), outcome) == Mutate(old(View()), env, OpInvalidate(rec))
    {
      var verdict := Verdict(authority, env);
      if verdict.Some? {
        return Refused(verdict.value);
      }
      invalidations := invalidations + [rec];
      CommitGeneration();
      return Done(0);
    }

    /** `create_tombstone` after its envelope was accepted. */
    method StoreTombstone(tomb: Tombstone) returns (outcome: Outcome)
      modifies `authority, `tombstones, `nextId
      ensures (View(), outcome) == RegistryModel.CreateTombstone(old(View()), tomb)
    {
      hide Commit;
      var id := Allocate(tomb.tombstoneId);
      tombstones := tombstones[id := tomb.(tombstoneId := id)];
      CommitGeneration();
      return Done(id);
    }

    method CreateTombstone(tomb: Tombstone, env: Envelope) returns (outcome: Outcome)
      modifies `authority, `tombstones, `nextId
      ensures (View(), outcome) == Mutate(old(View()), env, OpTombstone(tomb))
    {
      hide RegistryModel.CreateTombstone;
      var verdict := Verdict(authority, env);
      if verdict.Some? {
        return Refused(verdict.value);
      }
      outcome := StoreTombstone(tomb);
    }

    // ---- instances ----

    /** The endpoint loop of registration; what it bound stays bound when it throws. */
    method BindEndpoints(ids: seq<Id>, owner: Id) returns (failure: Option<ErrorKind>)
      modifies `endpoints
      ensures (endpoints, failure) == Bind(instances, old(endpoints), ids, owner)
    {
      hide Inactive;
      for k := 0 to |ids|
        invariant Bind(instances, old(endpoints), ids, owner) == Bind(instances, endpoints, ids[k..], owner)
      {
        var e := ids[k];
        assert ids[k..][0] == e && ids[k..][1..] == ids[k + 1..];
        if e !in endpoints {
          return Some(UNKNOWN_IDENTITY);
        }
        var ep := endpoints[e];
        if ep.serviceInstance == 0 {
          endpoints := endpoints[e := ep.(serviceInstance := owner)];
        } else if ep.serviceInstance != owner {
          if !Inactive(instances, ep.serviceInstance) {
            return Some(DUPLICATE_CONFLICT);
          }
          endpoints := endpoints[e := ep.(serviceInstance := owner, reachability := Reachability.REACHABLE,
            freshness := Freshness.CURRENT)];
        }
      }
      return None;
    }

    /** An instance gives way to a newer one. */
    method Retire(i: Id)
      requires i in instances
      modifies `instances, `instanceHistory
      ensures View() == GivenWay(old(View()), Some(i))
    {
      instanceHistory := instanceHistory + [instances[i]];
      instances := instances[i := instances[i].(lifecycle := Lifecycle.SUPERSEDED)];
    }

    method StoreInstance(copy: Instance)
      modifies `instances, `instanceHistory
      ensures View() == old(View()).(instances := old(instances)[copy.instanceId := copy],
        instanceHistory := old(instanceHistory) + [copy])
    {
      instances := instances[copy.instanceId := copy];
      instanceHistory := instanceHistory + [copy];
    }

    method ClassifyInstance(i: Id)
      requires i in instances
      modifies `instances
      ensures View() == old(View()).(instances := old(instances)[i := Reclassified(old(View()), old(instances)[i])])
    {
      hide Reclassified;
      var classified := Reclassify(View(), instances[i]);
      instances := instances[i := classified];
    }

    method Reindex()
      modifies `indexes
      ensures View() == Reindexed(old(View()))
    {
      hide Rebuilt;
      indexes := RebuildIndexes(services, instances);
    }

    /** The end of registration: store, classify, commit, index. */
    method Install(copy: Instance)
      modifies `authority, `instances, `instanceHistory, `indexes
      ensures View() == Installed(old(View()), copy)
    {
      hide Reclassified, Reindexed, Commit;
      ghost var was := View();
      assert was.instances == instances && was.instanceHistory == instanceHistory;
      StoreInstance(copy);
      ghost var stored := was.(instances := was.instances[copy.instanceId := copy],
        instanceHistory := was.instanceHistory + [copy]);
      assert View() == stored && instances == stored.instances;
      hide View;
      ClassifyInstance(copy.instanceId);
      CommitGeneration();
      Reindex();
    }

    method IdentifyInstance(inst: Instance) returns (copy: Instance)
      modifies `nextId
      ensures copy == Identified(old(View()), inst) && View() == Allocated(old(View()), inst)
    {
      var id := Allocate(inst.instanceId);
      copy := if inst.instanceId == 0 then inst.(instanceId := id) else inst;
    }

    /** `register_instance` after its envelope was accepted.  `current` is the instance the scan
        settled on. */
    method FileInstance(inst: Instance) returns (outcome: Outcome, ghost current: Option<Id>)
      modifies `authority, `instances, `endpoints, `instanceHistory, `indexes, `nextId
      ensures IsCurrent(old(instances), inst.serviceId, current)
      ensures (View(), outcome) == RegistryModel.RegisterInstance(old(View()), inst, current)
    {
      var cur := FindCurrent(instances, inst.serviceId);
      current := cur;
      assert cur.Some? ==> cur.value in instances;
      hide IsCurrent, Covered, SameInstance, Installed, Bind, GivenWay, Identified, Allocated;
      if inst.serviceId !in services {
        return Refused(UNKNOWN_IDENTITY), current;
      }
      ghost var was := View();
      var copy := IdentifyInstance(inst);
      if cur.Some? {
        var existing := instances[cur.value];
        if copy.instanceGeneration == existing.instanceGeneration && SameInstance(copy, existing) {
          return Done(copy.instanceId), current;
        }
        if copy.instanceGeneration <= existing.instanceGeneration {
          return Refused(STALE_INSTANCE_GENERATION), current;
        }
        Retire(cur.value);
      } else {
        var covered := FindTombstone(tombstones, SERVICE_ID, copy.serviceId, copy.instanceGeneration);
        if covered {
          return Refused(TOMBSTONE_RESURRECTION), current;
        }
      }
      var failure := BindEndpoints(copy.endpoints, copy.instanceId);
      if failure.Some? {
        return Refused(failure.value), current;
      }
      Install(copy);
      return Done(copy.instanceId), current;
    }

    method RegisterInstance(inst: Instance, env: Envelope) returns (outcome: Outcome, ghost current: Option<Id>)
      modifies `authority, `instances, `endpoints, `instanceHistory, `indexes, `nextId
      ensures Verdict(old(authority), env).Some? ==>
        View() == old(View()) && outcome == Refused(Verdict(old(authority), env).value)
      ensures Verdict(old(authority), env) == None ==>
        IsCurrent(old(instances), inst.serviceId, current)
        && (View(), outcome) == RegistryModel.RegisterInstance(old(View()), inst, current)
    {
      hide RegistryModel.RegisterInstance, IsCurrent;
      var verdict := Verdict(authority, env);
      if verdict.Some? {
        return Refused(verdict.value), None;
      }
      outcome, current := FileInstance(inst);
    }

    /** `update_health`, `update_readiness`, `update_freshness` and `update_instance_reachability`. */
    method Update(id: Id, o: Observation, env: Envelope) returns (outcome: Outcome)
      modifies `authority, `instances
      ensures (View(), outcome) == Mutate(old(View()), env, OpObserve(id, o))
    {
      hide Reclassified;
      var verdict := Verdict(authority, env);
      if verdict.Some? {
        return Refused(verdict.value);
      }
      if id !in instances {
        return Refused(UNKNOWN_IDENTITY);
      }
      if !GenerationMatches(env, instances[id]) {
        return Refused(o.Staleness());
      }
      var classified := Reclassify(View(), o.On(instances[id]));
      instances := instances[id := classified];
      CommitGeneration();
      return Done(0);
    }

    method UpdateReachability(id: Id, r: Reachability, env: Envelope) returns (outcome: Outcome)
      modifies `authority, `instances, `endpoints
      ensures (View(), outcome) == Mutate(old(View()), env, OpReachability(id, r))
    {
      hide Reclassified;
      var verdict := Verdict(authority, env);
      if verdict.Some? {
        return Refused(verdict.value);
      }
      if id !in endpoints {
        return Refused(UNKNOWN_IDENTITY);
      }
      var ep := endpoints[id];
      if env.endpointGeneration != 0 && env.endpointGeneration != ep.generation {
        return Refused(STALE_EPOCH);
      }
      endpoints := endpoints[id := ep.(reachability := r)];
      if ep.serviceInstance != 0 && ep.serviceInstance in instances {
        ClassifyInstance(ep.serviceInstance);
      }
      CommitGeneration();
      return Done(0);
    }

    /** The old instance gives way before the new one is registered. */
    method Supersede(id: Id, inst: Instance, env: Envelope) returns (outcome: Outcome, ghost current: Option<Id>)
      modifies `authority, `instances, `endpoints, `instanceHistory, `indexes, `nextId
      ensures Verdict(old(authority), env).Some? ==>
        View() == old(View()) && outcome == Refused(Verdict(old(authority), env).value)
      ensures Verdict(old(authority), env) == None && id !in old(instances) ==>
        View() == old(View()) && outcome == Refused(UNKNOWN_IDENTITY)
      ensures Verdict(old(authority), env) == None && id in old(instances) ==>
        var given := GivenWay(old(View()), Some(id));
        IsCurrent(given.instances, inst.serviceId, current)
        && (View(), outcome) == RegistryModel.RegisterInstance(given, inst, current)
    {
      hide RegistryModel.RegisterInstance, IsCurrent, GivenWay;
      var verdict := Verdict(authority, env);
      if verdict.Some? {
        return Refused(verdict.value), None;
      }
      if id !in instances {
        return Refused(UNKNOWN_IDENTITY), None;
      }
      Retire(id);
      outcome, current := FileInstance(inst);
    }

    /** `deregister` after its envelope was accepted. */
    method Withdraw(id: Id, env: Envelope) returns (outcome: Outcome)
      modifies `authority, `instances, `instanceHistory
      ensures (View(), outcome) == RegistryModel.Deregister(old(View()), env, id)
    {
      if id !in instances {
        return Done(0);
      }
      if !GenerationMatches(env, instances[id]) {
        return Refused(STALE_INSTANCE_GENERATION);
      }
      instanceHistory := instanceHistory + [instances[id]];
      instances := instances[id := instances[id].(lifecycle := Lifecycle.RETIRED)];
      CommitGeneration();
      return Done(0);
    }

    method Deregister(id: Id, env: Envelope) returns (outcome: Outcome)
      modifies `authority, `instances, `instanceHistory
      ensures (View(), outcome) == Mutate(old(View()), env, OpDeregister(id))
    {
      hide RegistryModel.Deregister;
      var verdict := Verdict(authority, env);
      if verdict.Some? {
        return Refused(verdict.value);
      }
      outcome := Withdraw(id, env);
    }

    // ---- reading ----

    method CheckInvariants() returns (violations: seq<SelfCheck.Violation>)
      ensures forall v :: v in violations <==> SelfCheck.IsViolation(View(), v)
    {
      violations := SelfCheck.CheckInvariants(View());
    }

    method Query(q: QueryModel.RegistryQuery) returns (r: QueryModel.Answer)
      requires Filed(instances, InstanceKey)
      ensures QueryModel.IsAnswer(View(), q, r)
    {
      r := Discovery.Answers(View(), q);
    }

    // ---- saving and loading ----

    /** `serialize_to`.  Sections are printed from the last to the first, each before what follows it. */
    method Serialize(sha: Bytes -> Digest, crcs: Crc32.Calculator) returns (out: Bytes)
      requires crcs.Valid()
      modifies crcs, crcs.table
      ensures crcs.Valid()
      ensures out == Saved(View(), sha)
    {
      hide View, Contents;
      out := PrintContents();
      var crc := crcs.Crc32(out, 0);
      out := out + LittleEndian.Bytes32(crc) + sha(out);
    }

    method PrintContents() returns (out: Bytes)
      ensures out == Contents(View())
    {
      hide View, PutHeader, PutCatalog, PutInventory, PutHistories, CountsOf;
      out := PrintHistories();
      out := PrintInventory(out);
      out := PrintCatalog(out);
      out := PutHeader(Header(NumbersOf(View()), CountsOf(View())), out);
    }

    method PrintCatalog(t: Bytes) returns (out: Bytes)
      ensures out == PutCatalog(View(), t)
    {
      out := t;
      out := SerializeSorted(protocols, PutProtocol, out);
      out := SerializeSorted(endpoints, PutEndpoint, out);
      out := SerializeSorted(runtimeInstances, PutRuntime, out);
      out := SerializeSorted(runtimes, PutRuntime, out);
      out := SerializeSorted(instances, PutInstance, out);
      out := SerializeSorted(services, PutService, out);
    }

    method PrintInventory(t: Bytes) returns (out: Bytes)
      ensures out == PutInventory(View(), t)
    {
      out := t;
      out := SerializeSorted(compatRecords, PutCompatibility, out);
      out := SerializeSorted(tombstones, PutTombstone, out);
      out := SerializeSorted(leases, PutLease, out);
      out := SerializeSorted(nodes, PutNode, out);
      out := SerializeSorted(capabilities, PutCapability, out);
      out := SerializeSorted(devices, PutDevice, out);
      out := SerializeSorted(backends, PutBackend, out);
    }

    method PrintHistories() returns (out: Bytes)
      ensures out == PutHistories(View(), [])
    {
      out := [];
      out := SerializeList(capabilityHistory, PutCapability, out);
      out := SerializeList(endpointHistory, PutEndpoint, out);
      out := SerializeList(runtimeHistory, PutRuntime, out);
      out := SerializeList(instanceHistory, PutInstance, out);
      out := SerializeList(invalidations, PutInvalidation, out);
    }

    method SetServices(m: map<Id, Service>)
      modifies `services
      ensures View() == WithServices(old(View()), m)
    {
      services := m;
    }

    method SetInstances(m: map<Id, Instance>)
      modifies `instances
      ensures View() == WithInstances(old(View()), m)
    {
      instances := m;
    }

    method SetRuntimes(m: map<Id, Runtime>)
      modifies `runtimes
      ensures View() == WithRuntimes(old(View()), m)
    {
      runtimes := m;
    }

    method SetRuntimeInstances(m: map<Id, Runtime>)
      modifies `runtimeInstances
      ensures View() == WithRuntimeInstances(old(View()), m)
    {
      runtimeInstances := m;
    }

    method SetEndpoints(m: map<Id, Endpoint>)
      modifies `endpoints
      ensures View() == WithEndpoints(old(View()), m)
    {
      endpoints := m;
    }

    method SetProtocols(m: map<Id, Protocol>)
      modifies `protocols
      ensures View() == WithProtocols(old(View()), m)
    {
      protocols := m;
    }

    method SetBackends(m: map<Id, Backend>)
      modifies `backends
      ensures View() == WithBackends(old(View()), m)
    {
      backends := m;
    }

    method SetDevices(m: map<Id, Device>)
      modifies `devices
      ensures View() == WithDevices(old(View()), m)
    {
      devices := m;
    }

    method SetCapabilities(m: map<Id, Capability>)
      modifies `capabilities
      ensures View() == WithCapabilities(old(View()), m)
    {
      capabilities := m;
    }

    method SetNodes(m: map<Id, Node>)
      modifies `nodes
      ensures View() == WithNodes(old(View()), m)
    {
      nodes := m;
    }

    method SetLeases(m: map<Id, Lease>)
      modifies `leases
      ensures View() == WithLeases(old(View()), m)
    {
      leases := m;
    }

    method SetTombstones(m: map<Id, Tombstone>)
      modifies `tombstones
      ensures View() == WithTombstones(old(View()), m)
    {
      tombstones := m;
    }

    method SetCompatRecords(m: map<Id, Compatibility>)
      modifies `compatRecords
      ensures View() == WithCompatRecords(old(View()), m)
    {
      compatRecords := m;
    }

    method SetInvalidations(xs: seq<Invalidation>)
      modifies `invalidations
      ensures View() == WithInvalidations(old(View()), xs)
    {
      invalidations := xs;
    }

    method SetInstanceHistory(xs: seq<Instance>)
      modifies `instanceHistory
      ensures View() == WithInstanceHistory(old(View()), xs)
    {
      instanceHistory := xs;
    }

    method SetRuntimeHistory(xs: seq<Runtime>)
      modifies `runtimeHistory
      ensures View() == WithRuntimeHistory(old(View()), xs)
    {
      runtimeHistory := xs;
    }

    method SetEndpointHistory(xs: seq<Endpoint>)
      modifies `endpointHistory
      ensures View() == WithEndpointHistory(old(View()), xs)
    {
      endpointHistory := xs;
    }

    method SetCapabilityHistory(xs: seq<Capability>)
      modifies `capabilityHistory
      ensures View() == WithCapabilityHistory(old(View()), xs)
    {
      capabilityHistory := xs;
    }

    method LoadCatalog(s: In, c: Counts) returns (rest: In, failed: bool)
      modifies `services, `instances, `runtimes, `runtimeInstances, `endpoints, `protocols
      ensures Loading(View(), rest, failed) == Persistence.LoadCatalog(Loading(old(View()), s, false), c)
    {
      hide View, Fill, Append, WithServices, WithInstances, WithRuntimes, WithRuntimeInstances, WithEndpoints,
           WithProtocols;
      var l1 := LoadMap(c.services, GetService, ServiceKey, KnownKind, s);
      SetServices(l1.m);
      if l1.failed {
        return l1.s, true;
      }
      var l2 := LoadMap(c.instances, GetInstance, InstanceKey, Any<Instance>, l1.s);
      SetInstances(l2.m);
      if l2.failed {
        return l2.s, true;
      }
      var l3 := LoadMap(c.runtimes, GetRuntime, RuntimeKey, Any<Runtime>, l2.s);
      SetRuntimes(l3.m);
      if l3.failed {
        return l3.s, true;
      }
      var l4 := LoadMap(c.runtimeInstances, GetRuntime, RuntimeInstanceKey, Any<Runtime>, l3.s);
      SetRuntimeInstances(l4.m);
      if l4.failed {
        return l4.s, true;
      }
      var l5 := LoadMap(c.endpoints, GetEndpoint, EndpointKey, Any<Endpoint>, l4.s);
      SetEndpoints(l5.m);
      if l5.failed {
        return l5.s, true;
      }
      var l6 := LoadMap(c.protocols, GetProtocol, ProtocolKey, Any<Protocol>, l5.s);
      SetProtocols(l6.m);
      return l6.s, l6.failed;
    }

    method LoadInventory(s: In, c: Counts) returns (rest: In, failed: bool)
      modifies `backends, `devices, `capabilities, `nodes, `leases, `tombstones, `compatRecords
      ensures Loading(View(), rest, failed) == Persistence.LoadInventory(Loading(old(View()), s, false), c)
    {
      hide View, Fill, Append, WithBackends, WithDevices, WithCapabilities, WithNodes, WithLeases, WithTombstones,
           WithCompatRecords;
      var l1 := LoadMap(c.backends, GetBackend, BackendKey, Any<Backend>, s);
      SetBackends(l1.m);
      if l1.failed {
        return l1.s, true;
      }
      var l2 := LoadMap(c.devices, GetDevice, DeviceKey, Any<Device>, l1.s);
      SetDevices(l2.m);
      if l2.failed {
        return l2.s, true;
      }
      var l3 := LoadMap(c.capabilities, GetCapability, CapabilityKey, Any<Capability>, l2.s);
      SetCapabilities(l3.m);
      if l3.failed {
        return l3.s, true;
      }
      var l4 := LoadMap(c.nodes, GetNode, NodeKey, Any<Node>, l3.s);
      SetNodes(l4.m);
      if l4.failed {
        return l4.s, true;
      }
      var l5 := LoadMap(c.leases, GetLease, LeaseKey, Any<Lease>, l4.s);
      SetLeases(l5.m);
      if l5.failed {
        return l5.s, true;
      }
      var l6 := LoadMap(c.tombstones, GetTombstone, TombstoneKey, Any<Tombstone>, l5.s);
      SetTombstones(l6.m);
      if l6.failed {
        return l6.s, true;
      }
      var l7 := LoadMap(c.compatRecords, GetCompatibility, CompatibilityKey, Any<Compatibility>, l6.s);
      SetCompatRecords(l7.m);
      return l7.s, l7.failed;
    }

    method LoadHistories(s: In, c: Counts) returns (rest: In, failed: bool)
      modifies `invalidations, `instanceHistory, `runtimeHistory, `endpointHistory, `capabilityHistory
      ensures Loading(View(), rest, failed) == Persistence.LoadHistories(Loading(old(View()), s, false), c)
    {
      hide View, Fill, Append, WithInvalidations, WithInstanceHistory, WithRuntimeHistory, WithEndpointHistory,
           WithCapabilityHistory;
      var l1 := LoadList(c.invalidations, GetInvalidation, s);
      SetInvalidations(l1.list);
      if l1.failed {
        return l1.s, true;
      }
      var l2 := LoadList(c.instanceHistory, GetInstance, l1.s);
      SetInstanceHistory(l2.list);
      if l2.failed {
        return l2.s, true;
      }
      var l3 := LoadList(c.runtimeHistory, GetRuntime, l2.s);
      SetRuntimeHistory(l3.list);
      if l3.failed {
        return l3.s, true;
      }
      var l4 := LoadList(c.endpointHistory, GetEndpoint, l3.s);
      SetEndpointHistory(l4.list);
      if l4.failed {
        return l4.s, true;
      }
      var l5 := LoadList(c.capabilityHistory, GetCapability, l4.s);
      SetCapabilityHistory(l5.list);
      return l5.s, l5.failed;
    }

    method Clear()
      modifies `services, `instances, `runtimes, `runtimeInstances, `endpoints, `protocols, `backends, `devices,
        `capabilities, `nodes,
               `leases, `tombstones, `compatRecords, `invalidations, `instanceHistory, `runtimeHistory,
                 `endpointHistory, `capabilityHistory
      ensures View() == Cleared(old(View()))
    {
      hide View;
      SetServices(map[]);
      SetInstances(map[]);
      SetRuntimes(map[]);
      SetRuntimeInstances(map[]);
      SetEndpoints(map[]);
      SetProtocols(map[]);
      SetBackends(map[]);
      SetDevices(map[]);
      SetCapabilities(map[]);
      SetNodes(map[]);
      SetLeases(map[]);
      SetTombstones(map[]);
      SetCompatRecords(map[]);
      SetInvalidations([]);
      SetInstanceHistory([]);
      SetRuntimeHistory([]);
      SetEndpointHistory([]);
      SetCapabilityHistory([]);
    }

    /** The records of a file; on a refused record the registry keeps what was read before it. */
    method LoadAllRecords(s: In, c: Counts) returns (rest: In, failed: bool)
      modifies `services, `instances, `runtimes, `runtimeInstances, `endpoints, `protocols, `backends, `devices,
        `capabilities, `nodes,
               `leases, `tombstones, `compatRecords, `invalidations, `instanceHistory, `runtimeHistory,
                 `endpointHistory, `capabilityHistory
      ensures Loading(View(), rest, failed) == LoadRecords(old(View()), s, c)
    {
      hide View, Cleared, Persistence.LoadCatalog, Persistence.LoadInventory, Persistence.LoadHistories;
      Clear();
      rest, failed := LoadCatalog(s, c);
      FailureStays(Loading(View(), rest, failed), c);
      if failed {
        return;
      }
      rest, failed := LoadInventory(rest, c);
      FailureStays(Loading(View(), rest, failed), c);
      if failed {
        return;
      }
      rest, failed := LoadHistories(rest, c);
    }

    /** The recovery that ends a load. */
    method Recover(x: Numbers)
      modifies `authority, `instances, `endpoints, `capabilities, `leases, `indexes, `nextBoot, `nextId
      ensures View() == Recovered(Renumbered(old(View()), x))
    {
      hide RecoveredInstances, RecoveredEndpoints, RecoveredCapabilities, RecoveredLeases, Rebuilt;
      ghost var was := View();
      authority := authority.(epoch := x.epoch, registryGeneration := x.registryGeneration,
        recordGeneration := x.recordGeneration, gens := x.gens);
      nextBoot, nextId := x.nextBoot, x.nextId;
      authority := authority.(liveBoots := {}, currentBoot := map[], bootWorker := map[]);
      ghost var renumbered := Renumbered(was, x);
      assert View() == renumbered.(authority := renumbered.authority.(liveBoots := {}, currentBoot := map[],
        bootWorker := map[]));
      hide View, Renumbered;
      RecoverInstances();
      RecoverEndpoints();
      RecoverCapabilities();
      RecoverLeases();
      Reindex();
    }

    /** `load_from` */
    method LoadFrom(data: Bytes, sha: Bytes -> Digest, crcs: Crc32.Calculator) returns (outcome: Outcome)
      requires crcs.Valid()
      modifies this, crcs, crcs.table
      ensures crcs.Valid()
      ensures (View(), outcome) == Load(old(View()), data, sha)
    {
      hide View, GetHeader, LoadRecords, Recovered, Renumbered;
      if |data| < 46 {
        return Refused(MALFORMED);
      }
      var n := |data| - 36;
      var crc := crcs.Crc32(data[..n], 0);
      if LittleEndian.Read32(data[n..]) != crc || data[n + 4..] != sha(data[..n]) {
        return Refused(MALFORMED);
      }
      var h := GetHeader(In(data[..n], true));
      if !h.s.ok {
        return Refused(MALFORMED);
      }
      var rest, failed := LoadAllRecords(h.s, h.v.counts);
      if failed || !rest.ok || rest.rest != [] {
        return Refused(MALFORMED);
      }
      Recover(h.v.numbers);
      return Done(0);
    }
  }
}
