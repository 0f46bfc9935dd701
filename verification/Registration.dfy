/** What `register_instance` decides, what it leaves behind when it throws, and how generations and
    lifecycles evolve around it. */
module Registration {
  import opened Base
  import opened Enums
  import opened Records
  import opened RegistryModel
  import Fencing

  // ---- claiming endpoints ----

  /** The instance may take the endpoint. */
  predicate Claimable(instances: map<Id, Instance>, endpoints: map<Id, Endpoint>, e: Id, owner: Id) {
    e in endpoints &&
    (endpoints[e].serviceInstance == 0 || endpoints[e].serviceInstance == owner
    || Inactive(instances, endpoints[e].serviceInstance))
  }

  /** A claimed endpoint: only one taken over from another instance counts as seen again. */
  function Claimed(ep: Endpoint, owner: Id): Endpoint {
    if ep.serviceInstance == 0 || ep.serviceInstance == owner then ep.(serviceInstance := owner)
    else ep.(serviceInstance := owner, reachability := Reachability.REACHABLE, freshness := Freshness.CURRENT)
  }

  /** The loop claims all endpoints or stops at one that cannot be claimed. */
  lemma {:induction false} BindExactly(instances: map<Id, Instance>, endpoints: map<Id, Endpoint>,
      ids: seq<Id>, owner: Id)
    ensures
      var (bound, failure) := Bind(instances, endpoints, ids, owner);
      && (failure == None <==> forall e :: e in ids ==> Claimable(instances, endpoints, e, owner))
      && bound.Keys == endpoints.Keys
      && forall e ::
           e in endpoints ==> bound[e] == endpoints[e] || (e in ids && bound[e] == Claimed(endpoints[e], owner))
    decreases |ids|
  {
    if ids != [] {
      var e := ids[0];
      assert ids == [e] + ids[1..];
      if Claimable(instances, endpoints, e, owner) {
        BindStep(instances, endpoints, ids, owner);
        var next := endpoints[e := Claimed(endpoints[e], owner)];
        assert forall d :: Claimable(instances, next, d, owner) == Claimable(instances, endpoints, d, owner);
        hide Inactive, Claimable, Bind;
        BindExactly(instances, next, ids[1..], owner);
      }
    }
  }

  lemma BindStep(instances: map<Id, Instance>, endpoints: map<Id, Endpoint>, ids: seq<Id>, owner: Id)
    requires ids != [] && Claimable(instances, endpoints, ids[0], owner)
    ensures Bind(instances, endpoints, ids, owner) ==
      Bind(instances, endpoints[ids[0] := Claimed(endpoints[ids[0]], owner)], ids[1..], owner)
  {
    hide Inactive;
    var ep := endpoints[ids[0]];
    if ep.serviceInstance == owner && owner != 0 {
      assert endpoints[ids[0] := ep] == endpoints;
    }
  }

  lemma {:induction false} BindClaims(instances: map<Id, Instance>, endpoints: map<Id, Endpoint>,
      ids: seq<Id>, owner: Id)
    requires forall e :: e in ids ==> Claimable(instances, endpoints, e, owner)
    ensures
      var bound := Bind(instances, endpoints, ids, owner).0;
      forall e :: e in ids ==> e in endpoints && e in bound && bound[e] == Claimed(endpoints[e], owner)
    decreases |ids|
  {
    if ids != [] {
      var e := ids[0];
      assert Claimable(instances, endpoints, e, owner);
      var next := endpoints[e := Claimed(endpoints[e], owner)];
      BindStep(instances, endpoints, ids, owner);
      BindExactly(instances, next, ids[1..], owner);
      assert forall d :: Claimable(instances, next, d, owner) == Claimable(instances, endpoints, d, owner);
      assert ids == [e] + ids[1..];
      hide Inactive, Claimable, Bind;
      BindClaims(instances, next, ids[1..], owner);
    }
  }

  // ---- acceptance ----

  /** Some standing instance of the service has a generation of at least `generation`. */
  predicate Outranked(instances: map<Id, Instance>, service: Id, generation: Generation) {
    exists i :: i in instances && Standing(instances, i, service) && generation <= instances[i].instanceGeneration
  }

  predicate HasStanding(instances: map<Id, Instance>, service: Id) {
    exists i :: i in instances && Standing(instances, i, service)
  }

  /** The registration goes past the generation and tombstone tests exactly when no standing
      instance of its service is as new, and no tombstone covers the first one. */
  lemma PassesExactly(st: State, copy: Instance, current: Option<Id>)
    requires IsCurrent(st.instances, copy.serviceId, current)
    ensures Settled(st, copy, current) == None <==>
      && !Outranked(st.instances, copy.serviceId, copy.instanceGeneration)
      && (HasStanding(st.instances, copy.serviceId)
           || !Covered(st.tombstones, SERVICE_ID, copy.serviceId, copy.instanceGeneration))
  {
    hide Covered, SameInstance;
    match current
    case Some(c) => assert Standing(st.instances, c, copy.serviceId);
    case None =>
  }

  /** When a registration that is not a repetition is accepted: the service is registered, no
      standing instance of it has the same or a newer generation, no tombstone covers its first
      instance, and every endpoint may be claimed. */
  lemma AcceptedExactly(st: State, inst: Instance, current: Option<Id>)
    requires IsCurrent(st.instances, inst.serviceId, current)
    requires current.Some? ==> !SameInstance(Identified(st, inst), st.instances[current.value])
    ensures
      var copy := Identified(st, inst);
      var counted := Allocated(st, inst);
      RegisterInstance(st, inst, current).1.Done? <==>
        && inst.serviceId in st.services
        && !Outranked(st.instances, inst.serviceId, inst.instanceGeneration)
        && (HasStanding(st.instances, inst.serviceId)
             || !Covered(st.tombstones, SERVICE_ID, inst.serviceId, inst.instanceGeneration))
        && forall e ::
             e in inst.endpoints ==> Claimable(GivenWay(counted, current).instances, st.endpoints, e, copy.instanceId)
  {
    var copy := Identified(st, inst);
    var counted := Allocated(st, inst);
    PassesExactly(counted, copy, current);
    assert SettledIsRefusal(Settled(counted, copy, current)) by {
      hide Covered, SameInstance;
    }
    var vacated := GivenWay(counted, current);
    assert vacated.endpoints == st.endpoints;
    BindExactly(vacated.instances, vacated.endpoints, copy.endpoints, copy.instanceId);
    hide Outranked, HasStanding, Covered, Bind, Installed, Settled, GivenWay, Claimable, IsCurrent, SameInstance;
  }

  predicate SettledIsRefusal(o: Option<Outcome>) {
    o.Some? ==> o.value.Refused?
  }

  /** The instance map after an accepted registration: the current instance has given way, the new
      one is stored and is not history; nothing else moved. */
  lemma RegisteredInstances(st: State, inst: Instance, current: Option<Id>)
    requires current.Some? ==> current.value in st.instances
    requires RegisterInstance(st, inst, current).1.Done?
    requires Settled(Allocated(st, inst), Identified(st, inst), current) == None
    ensures
      var copy := Identified(st, inst);
      var next := RegisterInstance(st, inst, current).0.instances;
      && RegisterInstance(st, inst, current).1 == Done(copy.instanceId)
      && copy.instanceId in next
      && next[copy.instanceId].serviceId == inst.serviceId
      && next[copy.instanceId].instanceGeneration == inst.instanceGeneration
      && !next[copy.instanceId].lifecycle.Terminal()
      && next == GivenWay(Allocated(st, inst), current).instances[copy.instanceId := next[copy.instanceId]]
  {
    var copy := Identified(st, inst);
    var counted := Allocated(st, inst);
    var vacated := GivenWay(counted, current);
    var claimed := vacated.(endpoints := Bind(vacated.instances, vacated.endpoints, copy.endpoints, copy.instanceId).0);
    InstalledInstances(claimed, copy);
    hide Settled, Bind, Installed, GivenWay;
  }

  lemma InstalledInstances(st: State, copy: Instance)
    ensures
      var next := Installed(st, copy).instances;
      && copy.instanceId in next
      && next[copy.instanceId].serviceId == copy.serviceId
      && next[copy.instanceId].instanceGeneration == copy.instanceGeneration
      && !next[copy.instanceId].lifecycle.Terminal()
      && next == st.instances[copy.instanceId := next[copy.instanceId]]
  {
    hide Rebuilt, LeaseHolds, ProvidesRequired, AggregateHealth, AggregateReachability;
  }

  /** An accepted registration makes the new instance the newest: every other standing instance of
      its service has a smaller generation. */
  lemma NewestStands(st: State, inst: Instance, current: Option<Id>)
    requires IsCurrent(st.instances, inst.serviceId, current)
    requires RegisterInstance(st, inst, current).1.Done?
    requires Settled(Allocated(st, inst), Identified(st, inst), current) == None
    ensures
      var (next, outcome) := RegisterInstance(st, inst, current);
      && Standing(next.instances, outcome.id, inst.serviceId)
      && next.instances[outcome.id].instanceGeneration == inst.instanceGeneration
      && forall i ::
           i != outcome.id && Standing(next.instances, i, inst.serviceId) ==>
             next.instances[i].instanceGeneration < inst.instanceGeneration
  {
    assert current.Some? ==> current.value in st.instances;
    hide RegisterInstance, Settled, Covered, IsCurrent, GivenWay, Allocated, Identified, Outranked, HasStanding;
    RegisteredInstances(st, inst, current);
    var counted := Allocated(st, inst);
    AllocatedInstances(st, inst);
    PassesExactly(counted, Identified(st, inst), current);
    NoneAsNew(counted, inst.serviceId, inst.instanceGeneration, current);
  }

  lemma AllocatedInstances(st: State, inst: Instance)
    ensures Allocated(st, inst).instances == st.instances
    ensures Identified(st, inst).serviceId == inst.serviceId
      && Identified(st, inst).instanceGeneration == inst.instanceGeneration
  {
  }

  lemma NoneAsNew(st: State, service: Id, generation: Generation, current: Option<Id>)
    requires current.Some? ==> current.value in st.instances
    requires !Outranked(st.instances, service, generation)
    ensures
      var vacated := GivenWay(st, current).instances;
      forall i :: i in vacated && Standing(vacated, i, service) ==> vacated[i].instanceGeneration < generation
  {
    var vacated := GivenWay(st, current).instances;
    assert forall i ::
      Standing(vacated, i, service) ==>
        Standing(st.instances, i, service) && vacated[i].instanceGeneration == st.instances[i].instanceGeneration;
    hide GivenWay;
  }

  // ---- at most one standing instance ----

  predicate AtMostOne(instances: map<Id, Instance>) {
    forall i, j :: i in instances && j in instances && instances[i].serviceId == instances[j].serviceId ==>
      i == j || instances[i].lifecycle.Terminal() || instances[j].lifecycle.Terminal()
  }

  /** Registration keeps "at most one standing instance per service", also when it throws. */
  lemma RegistrationKeepsOne(st: State, inst: Instance, current: Option<Id>)
    requires IsCurrent(st.instances, inst.serviceId, current) && AtMostOne(st.instances)
    ensures AtMostOne(RegisterInstance(st, inst, current).0.instances)
  {
    var copy := Identified(st, inst);
    var counted := Allocated(st, inst);
    var vacated := GivenWay(counted, current);
    assert current.Some? ==> current.value in st.instances;
    assert AtMostOne(vacated.instances) && NoneStands(vacated.instances, inst.serviceId) by {
      hide RegisterInstance, Settled, Installed, Bind;
    }
    hide IsCurrent, GivenWay, Settled, AtMostOne, NoneStands;
    if RegisterInstance(st, inst, current).1.Done? && Settled(counted, copy, current) == None {
      hide RegisterInstance;
      RegisteredInstances(st, inst, current);
      OneMoreStands(vacated.instances, copy.instanceId,
        RegisterInstance(st, inst, current).0.instances[copy.instanceId]);
    } else {
      hide Bind, Installed;
    }
  }

  predicate NoneStands(instances: map<Id, Instance>, service: Id) {
    forall i :: i in instances && instances[i].serviceId == service ==> instances[i].lifecycle.Terminal()
  }

  lemma OneMoreStands(instances: map<Id, Instance>, id: Id, inst: Instance)
    requires AtMostOne(instances) && NoneStands(instances, inst.serviceId)
    ensures AtMostOne(instances[id := inst])
  {
  }

  /** Reclassification never yields history: whatever an instance was, an accepted update makes it
      stand again.  So the update keeps "at most one" exactly when the instance was not history, or
      no other instance of its service stands. */
  lemma ObservationKeepsOneExactly(st: State, env: Envelope, id: Id, o: Observation)
    requires AtMostOne(st.instances)
    requires id in st.instances && Observe(st, env, id, o).1.Done?
    ensures
      var next := Observe(st, env, id, o).0;
      && !next.instances[id].lifecycle.Terminal()
      && (AtMostOne(next.instances) <==>
           !st.instances[id].lifecycle.Terminal() || !HasStanding(st.instances, st.instances[id].serviceId))
  {
    var next := st.instances[id := Reclassified(st, o.On(st.instances[id]))];
    assert Observe(st, env, id, o).0.instances == next by {
      hide Reclassified;
    }
    StandsAgain(st, o.On(st.instances[id]));
    StandingAgain(st.instances, id, next[id]);
    hide Observe, Reclassified, AtMostOne, HasStanding;
  }

  lemma StandsAgain(st: State, inst: Instance)
    ensures !Reclassified(st, inst).lifecycle.Terminal()
    ensures Reclassified(st, inst).serviceId == inst.serviceId
  {
    hide LeaseHolds, ProvidesRequired, AggregateHealth, AggregateReachability;
  }

  lemma StandingAgain(instances: map<Id, Instance>, id: Id, inst: Instance)
    requires AtMostOne(instances) && id in instances
    requires inst.serviceId == instances[id].serviceId && !inst.lifecycle.Terminal()
    ensures AtMostOne(instances[id := inst]) <==>
      !instances[id].lifecycle.Terminal() || !HasStanding(instances, inst.serviceId)
  {
    var next := instances[id := inst];
    if instances[id].lifecycle.Terminal() && HasStanding(instances, inst.serviceId) {
      var i :| i in instances && Standing(instances, i, inst.serviceId);
      assert i in next && next[i].serviceId == next[id].serviceId && i != id;
    }
  }

  /** Making the instance stand again leaves at most one of its service. */
  predicate MayStand(instances: map<Id, Instance>, id: Id) {
    id in instances ==> !instances[id].lifecycle.Terminal() || !HasStanding(instances, instances[id].serviceId)
  }

  /** Revoking the boot leaves at most one standing instance per service: revocation makes the
      boot's history stand again, so beside an instance of that history there must be nothing of
      the service but history of other boots. */
  predicate MayRevoke(instances: map<Id, Instance>, boot: Id) {
    forall i, j :: i in instances && j in instances && instances[i].serviceId == instances[j].serviceId && i != j ==>
      (instances[i].boot == boot && instances[i].lifecycle.Terminal() ==>
        instances[j].boot != boot && instances[j].lifecycle.Terminal())
  }

  /** What a step may do to an at most single standing instance per service, by the guards of the
      source: only revocations, updates and endpoint updates make history stand again. */
  predicate LeavesOne(st: State, step: Step) {
    match step
    case Adopt(worker) =>
      worker in st.authority.currentBoot && st.authority.currentBoot[worker] != Inc(st.nextBoot) ==>
        (st.authority.currentBoot[worker] in st.authority.liveBoots ==>
          MayRevoke(st.instances, st.authority.currentBoot[worker]))
    case Died(boot) => boot in st.authority.liveBoots ==> MayRevoke(st.instances, boot)
    case Call(env, OpObserve(id, _)) =>
      Verdict(st.authority, env) == None && id in st.instances && GenerationMatches(env, st.instances[id]) ==>
        MayStand(st.instances, id)
    case Call(env, OpReachability(e, _)) =>
      Verdict(st.authority, env) == None && e in st.endpoints && EndpointMatches(env, st.endpoints[e])
      && st.endpoints[e].serviceInstance != 0 ==>
        MayStand(st.instances, st.endpoints[e].serviceInstance)
    case _ => true
  }

  predicate EndpointMatches(env: Envelope, ep: Endpoint) {
    env.endpointGeneration != 0 ==> env.endpointGeneration == ep.generation
  }

  /** `b` has the instances of `a`, and whatever was history there is history here. */
  predicate NoRevival(a: map<Id, Instance>, b: map<Id, Instance>) {
    a.Keys == b.Keys && forall i :: i in a ==>
      a[i].serviceId == b[i].serviceId && (a[i].lifecycle.Terminal() ==> b[i].lifecycle.Terminal())
  }

  lemma NoRevivalKeepsOne(a: map<Id, Instance>, b: map<Id, Instance>)
    requires NoRevival(a, b) && AtMostOne(a)
    ensures AtMostOne(b)
  {
  }

  lemma RestartsReviveNone(instances: map<Id, Instance>)
    ensures NoRevival(instances, RecoveredInstances(instances))
  {
  }

  lemma RevocationRevives(instances: map<Id, Instance>, boot: Id)
    requires AtMostOne(instances)
    ensures AtMostOne(RevokedInstances(instances, boot)) <==> MayRevoke(instances, boot)
  {
    var dead := RevokedInstances(instances, boot);
    assert forall i :: i in instances ==>
      dead[i].serviceId == instances[i].serviceId
      && (dead[i].lifecycle.Terminal() <==> instances[i].lifecycle.Terminal() && instances[i].boot != boot);
    hide RevokedInstances;
  }

  /** Revoking a live boot keeps at most one standing instance per service exactly when beside the
      history of the boot there is nothing but history of other boots. */
  lemma RevocationKeepsOneExactly(st: State, boot: Id)
    requires AtMostOne(st.instances) && boot in st.authority.liveBoots
    ensures AtMostOne(Revoked(st, boot).instances) <==> MayRevoke(st.instances, boot)
  {
    RevocationRevives(st.instances, boot);
    hide AtMostOne, MayRevoke, RevokedInstances, RevokedAuthority, RevokedEndpoints, RevokedLeases;
  }

  lemma DeathKeepsOneExactly(st: State, boot: Id)
    requires AtMostOne(st.instances)
    ensures AtMostOne(Revoked(st, boot).instances) <==>
      (boot in st.authority.liveBoots ==> MayRevoke(st.instances, boot))
  {
    if boot in st.authority.liveBoots {
      RevocationKeepsOneExactly(st, boot);
    }
    hide AtMostOne, MayRevoke, RevokedInstances, RevokedAuthority, RevokedEndpoints, RevokedLeases;
  }

  lemma AdoptionKeepsOneExactly(st: State, worker: Id)
    requires AtMostOne(st.instances)
    ensures AtMostOne(Adopted(st, worker).0.instances) <==> LeavesOne(st, Adopt(worker))
  {
    var counted := st.(nextBoot := Inc(st.nextBoot));
    hide AtMostOne, MayRevoke, Revoked, Granted;
    if worker in st.authority.currentBoot {
      DeathKeepsOneExactly(counted, st.authority.currentBoot[worker]);
    }
  }

  predicate TouchesInstances(op: Op) {
    op.OpInstance? || op.OpSupersede? || op.OpObserve? || op.OpReachability? || op.OpDeregister?
  }

  /** Registrations of other records, leases, invalidations and tombstones leave instances alone. */
  lemma OthersLeaveInstances(st: State, env: Envelope, op: Op)
    requires Possible(st, op) && !TouchesInstances(op)
    ensures Perform(st, env, op).0.instances == st.instances
  {
    hide RegisterService, RegisterRuntime, RegisterProtocol, RegisterEndpoint, RegisterCapability, AcquireLease,
         RenewLease, EndLease, Invalidate, CreateTombstone;
    match op
    case OpService(svc) => Fencing.ServiceKeepsFence(st, svc);
    case OpRuntime(rt) => Fencing.RuntimeKeepsFence(st, rt);
    case OpProtocol(pd) => Fencing.ProtocolKeepsFence(st, pd);
    case OpEndpoint(ep) => Fencing.EndpointKeepsFence(st, ep);
    case OpCapability(cap) => Fencing.CapabilityKeepsFence(st, cap);
    case OpAcquire(lease) => Fencing.LeasesKeepFence(st, lease);
    case OpRenew(id) => Fencing.RenewalKeepsFence(st, env, id);
    case OpEnd(id, state) => Fencing.EndingKeepsFence(st, id, state);
    case OpInvalidate(rec) => Fencing.InvalidationsKeepFence(st, rec);
    case OpTombstone(tomb) => Fencing.TombstonesKeepFence(st, tomb);
    case _ =>
  }

  /** An accepted endpoint update reclassifies the owner, so it keeps at most one standing instance
      per service exactly when the owner was not history, or no other instance of its service
      stands. */
  lemma ReachabilityKeepsOneExactly(st: State, env: Envelope, e: Id, r: Reachability)
    requires AtMostOne(st.instances)
    requires e in st.endpoints && UpdateReachability(st, env, e, r).1.Done? && st.endpoints[e].serviceInstance != 0
    ensures AtMostOne(UpdateReachability(st, env, e, r).0.instances) <==>
      MayStand(st.instances, st.endpoints[e].serviceInstance)
  {
    var owner := st.endpoints[e].serviceInstance;
    var seen := st.(endpoints := st.endpoints[e := st.endpoints[e].(reachability := r)]);
    assert UpdateReachability(st, env, e, r).0.instances ==
      if owner in st.instances then st.instances[owner := Reclassified(seen, st.instances[owner])]
        else st.instances by {
      hide Reclassified;
    }
    hide UpdateReachability, Reclassified, AtMostOne, HasStanding;
    if owner in st.instances {
      StandsAgain(seen, st.instances[owner]);
      StandingAgain(st.instances, owner, Reclassified(seen, st.instances[owner]));
    }
  }

  lemma UpdateReachabilityKeepsOne(st: State, env: Envelope, e: Id, r: Reachability)
    requires AtMostOne(st.instances) && Verdict(st.authority, env) == None
    ensures AtMostOne(UpdateReachability(st, env, e, r).0.instances) <==> LeavesOne(st, Call(env, OpReachability(e, r)))
  {
    hide AtMostOne, MayStand, Reclassified;
    if e in st.endpoints && EndpointMatches(env, st.endpoints[e]) && st.endpoints[e].serviceInstance != 0 {
      ReachabilityKeepsOneExactly(st, env, e, r);
      hide UpdateReachability;
    }
  }

  lemma OneChange(a: map<Id, Instance>, id: Id, inst: Instance)
    requires id in a && inst.serviceId == a[id].serviceId && (a[id].lifecycle.Terminal() ==> inst.lifecycle.Terminal())
    ensures NoRevival(a, a[id := inst])
  {
  }

  lemma NoChange(a: map<Id, Instance>)
    ensures NoRevival(a, a)
  {
  }

  lemma GivingWayRevivesNone(st: State, id: Id)
    requires id in st.instances
    ensures NoRevival(st.instances, GivenWay(st, Some(id)).instances)
  {
  }

  lemma DeregisterRevivesNone(st: State, env: Envelope, id: Id)
    ensures NoRevival(st.instances, Deregister(st, env, id).0.instances)
  {
    hide NoRevival;
    NoChange(st.instances);
    if id in st.instances {
      OneChange(st.instances, id, st.instances[id].(lifecycle := Lifecycle.RETIRED));
    }
  }

  lemma ObserveKeepsOne(st: State, env: Envelope, id: Id, o: Observation)
    requires AtMostOne(st.instances) && Verdict(st.authority, env) == None
    ensures AtMostOne(Observe(st, env, id, o).0.instances) <==> LeavesOne(st, Call(env, OpObserve(id, o)))
  {
    if id in st.instances && GenerationMatches(env, st.instances[id]) {
      ObservationKeepsOneExactly(st, env, id, o);
    }
    hide Reclassified, AtMostOne, HasStanding;
  }

  /** Exactly the steps that keep at most one standing instance per service. */
  lemma StepKeepsOneExactly(st: State, step: Step)
    requires Enabled(st, step) && AtMostOne(st.instances)
    ensures AtMostOne(Next(st, step).0.instances) <==> LeavesOne(st, step)
  {
    match step
    case Adopt(worker) =>
      AdoptionKeepsOneExactly(st, worker);
      hide AtMostOne, LeavesOne, Adopted;
    case Died(boot) =>
      DeathKeepsOneExactly(st, boot);
      hide AtMostOne, MayRevoke, Revoked;
    case Call(env, op) =>
      hide AtMostOne, Perform, MayStand;
      if Verdict(st.authority, env) == None {
        CallKeepsOneExactly(st, env, op);
      }
    case _ =>
      hide AtMostOne, NoRevival;
      RestartsReviveNone(st.instances);
      NoRevivalKeepsOne(st.instances, RecoveredInstances(st.instances));
      hide RecoveredInstances, RecoveredEndpoints, RecoveredCapabilities, RecoveredLeases, Rebuilt;
  }

  lemma CallKeepsOneExactly(st: State, env: Envelope, op: Op)
    requires Possible(st, op) && AtMostOne(st.instances) && Verdict(st.authority, env) == None
    ensures AtMostOne(Perform(st, env, op).0.instances) <==> LeavesOne(st, Call(env, op))
  {
    if !TouchesInstances(op) {
      OthersLeaveInstances(st, env, op);
      hide Perform, AtMostOne;
    } else {
      hide AtMostOne, NoRevival, RegisterInstance, Observe, UpdateReachability, Deregister, IsCurrent, GivenWay,
           MayStand, Verdict;
      match op
      case OpInstance(inst, current) => RegistrationKeepsOne(st, inst, current);
      case OpObserve(id, o) => ObserveKeepsOne(st, env, id, o);
      case OpReachability(e, r) => UpdateReachabilityKeepsOne(st, env, e, r);
      case OpDeregister(id) =>
        DeregisterRevivesNone(st, env, id);
        NoRevivalKeepsOne(st.instances, Deregister(st, env, id).0.instances);
      case OpSupersede(id, inst, current) =>
        if id in st.instances {
          GivingWayRevivesNone(st, id);
          NoRevivalKeepsOne(st.instances, GivenWay(st, Some(id)).instances);
          RegistrationKeepsOne(GivenWay(st, Some(id)), inst, current);
        }
    }
  }

  predicate AllLeaveOne(st: State, steps: seq<Step>)
    requires Runs(st, steps)
    decreases |steps|
  {
    steps == [] || (LeavesOne(st, steps[0]) && AllLeaveOne(Next(st, steps[0]).0, steps[1..]))
  }

  /** In every state of the run, the last included. */
  predicate OneThroughout(st: State, steps: seq<Step>)
    requires Runs(st, steps)
    decreases |steps|
  {
    AtMostOne(st.instances) && (steps != [] ==> OneThroughout(Next(st, steps[0]).0, steps[1..]))
  }

  /** A run keeps at most one standing instance per service throughout exactly when each of its
      steps leaves one. */
  lemma {:induction false} RunKeepsOneExactly(st: State, steps: seq<Step>)
    requires Runs(st, steps) && AtMostOne(st.instances)
    ensures OneThroughout(st, steps) <==> AllLeaveOne(st, steps)
    decreases |steps|
  {
    hide Next, Enabled, LeavesOne, AtMostOne;
    if steps != [] {
      StepKeepsOneExactly(st, steps[0]);
      if LeavesOne(st, steps[0]) {
        RunKeepsOneExactly(Next(st, steps[0]).0, steps[1..]);
      } else {
        NotThroughout(Next(st, steps[0]).0, steps[1..]);
      }
    }
  }

  lemma NotThroughout(st: State, steps: seq<Step>)
    requires Runs(st, steps) && !AtMostOne(st.instances)
    ensures !OneThroughout(st, steps)
  {
  }

  // ---- the generations of dead boots ----

  /** The registration repeats the current instance word for word. */
  predicate Confirms(st: State, inst: Instance, current: Option<Id>) {
    current.Some? && current.value in st.instances && SameInstance(Identified(st, inst), st.instances[current.value])
  }

  /** After a boot died its instances still count as standing, so their generations do block the
      service: a registration that repeats nothing is refused as stale exactly when some instance
      of the service that is not history, or that the dead boot owned, is as new. */
  lemma DeadGenerationsBlock(st: State, boot: Id, inst: Instance, current: Option<Id>)
    requires boot in st.authority.liveBoots && inst.serviceId in st.services
    requires IsCurrent(Revoked(st, boot).instances, inst.serviceId, current)
    ensures RegisterInstance(Revoked(st, boot), inst, current).1 == Refused(STALE_INSTANCE_GENERATION) <==>
      && !Confirms(Revoked(st, boot), inst, current)
      && exists i ::
           i in st.instances && st.instances[i].serviceId == inst.serviceId
           && inst.instanceGeneration <= st.instances[i].instanceGeneration
           && (st.instances[i].boot == boot || !st.instances[i].lifecycle.Terminal())
  {
    var after := Revoked(st, boot);
    var dead := RevokedInstances(st.instances, boot);
    assert after.instances == dead && after.services == st.services by {
      hide RevokedInstances, RevokedAuthority, RevokedEndpoints, RevokedLeases;
    }
    assert forall i :: i in st.instances ==>
      (Standing(dead, i, inst.serviceId) <==>
        st.instances[i].serviceId == inst.serviceId
        && (st.instances[i].boot == boot || !st.instances[i].lifecycle.Terminal()))
      && dead[i].instanceGeneration == st.instances[i].instanceGeneration;
    hide Revoked, RevokedInstances;
    StaleExactly(after, inst, current);
    hide RegisterInstance, Standing, IsCurrent, Confirms;
  }

  lemma StaleExactly(st: State, inst: Instance, current: Option<Id>)
    requires inst.serviceId in st.services
    requires IsCurrent(st.instances, inst.serviceId, current)
    ensures RegisterInstance(st, inst, current).1 == Refused(STALE_INSTANCE_GENERATION) <==>
      !Confirms(st, inst, current) && Outranked(st.instances, inst.serviceId, inst.instanceGeneration)
  {
    hide Bind, Covered, Installed;
    BindRefusals(st, inst, current);
    if current.Some? {
      assert Standing(st.instances, current.value, inst.serviceId);
    }
  }

  lemma BindRefusals(st: State, inst: Instance, current: Option<Id>)
    requires current.Some? ==> current.value in st.instances
    ensures
      var vacated := GivenWay(Allocated(st, inst), current);
      Bind(vacated.instances, vacated.endpoints, Identified(st, inst).endpoints,
        Identified(st, inst).instanceId).1 != Some(STALE_INSTANCE_GENERATION)
  {
    var vacated := GivenWay(Allocated(st, inst), current);
    hide GivenWay;
    BindRefusal(vacated.instances, vacated.endpoints, Identified(st, inst).endpoints, Identified(st, inst).instanceId);
  }

  lemma {:induction false} BindRefusal(instances: map<Id, Instance>, endpoints: map<Id, Endpoint>,
      ids: seq<Id>, owner: Id)
    ensures Bind(instances, endpoints, ids, owner).1 in {None, Some(UNKNOWN_IDENTITY), Some(DUPLICATE_CONFLICT)}
    decreases |ids|
  {
    if ids != [] && Claimable(instances, endpoints, ids[0], owner) {
      BindStep(instances, endpoints, ids, owner);
      BindRefusal(instances, endpoints[ids[0] := Claimed(endpoints[ids[0]], owner)], ids[1..], owner);
    }
  }

  // ---- identities that are already taken ----

  /** Instances of other services are as they were. */
  predicate OthersUndisturbed(before: map<Id, Instance>, after: map<Id, Instance>, service: Id) {
    forall i :: i in before && before[i].serviceId != service ==> i in after && after[i] == before[i]
  }

  /** An accepted registration that repeats nothing stores the instance under its identity, whoever
      has it: instances of other services stay exactly when that identity is free or belongs to an
      instance of the same service. */
  lemma OthersUndisturbedExactly(st: State, inst: Instance, current: Option<Id>)
    requires IsCurrent(st.instances, inst.serviceId, current)
    requires RegisterInstance(st, inst, current).1.Done? && !Confirms(st, inst, current)
    ensures
      var id := Identified(st, inst).instanceId;
      OthersUndisturbed(st.instances, RegisterInstance(st, inst, current).0.instances, inst.serviceId) <==>
        id !in st.instances || st.instances[id].serviceId == inst.serviceId
  {
    var counted := Allocated(st, inst);
    AllocatedInstances(st, inst);
    assert Settled(counted, Identified(st, inst), current) == None by {
      hide Covered, Bind, Installed, SameInstance;
    }
    assert current.Some? ==> current.value in st.instances && st.instances[current.value].serviceId == inst.serviceId;
    assert OthersUndisturbed(st.instances, GivenWay(counted, current).instances, inst.serviceId)
      && GivenWay(counted, current).instances.Keys == st.instances.Keys;
    hide RegisterInstance, Settled, IsCurrent, GivenWay, Allocated, Identified;
    RegisteredInstances(st, inst, current);
  }

  // ---- what a rejection leaves behind ----

  /** A mutation that throws changes nothing, except instance registration and supersession. */
  lemma RejectionChangesNothing(st: State, env: Envelope, op: Op)
    requires Possible(st, op) && !op.OpInstance? && !op.OpSupersede?
    requires Mutate(st, env, op).1.Refused?
    ensures Mutate(st, env, op).0 == st
  {
    hide Covered, Reclassified, Rebuilt, SameService, SameRuntime, SameCapability, RegisterInstance, Supersede, Commit;
    match op
    case OpService(_) =>
    case OpRuntime(_) =>
    case OpProtocol(_) =>
    case OpEndpoint(_) =>
    case OpCapability(_) =>
    case _ =>
  }

  /** Registration fails at once on its endpoints: before one that cannot be claimed it meets only
      endpoints the instance already has. */
  predicate BlockedAtOnce(instances: map<Id, Instance>, endpoints: map<Id, Endpoint>, ids: seq<Id>, owner: Id) {
    exists k :: 0 <= k < |ids| && BlockedAt(instances, endpoints, ids, owner, k)
  }

  lemma {:induction false} BindIdle(instances: map<Id, Instance>, endpoints: map<Id, Endpoint>, ids: seq<Id>, owner: Id)
    requires owner != 0 && Bind(instances, endpoints, ids, owner).1.Some?
    ensures Bind(instances, endpoints, ids, owner).0 == endpoints <==> BlockedAtOnce(instances, endpoints, ids, owner)
    decreases |ids|
  {
    var e := ids[0];
    if Claimable(instances, endpoints, e, owner) {
      var next := endpoints[e := Claimed(endpoints[e], owner)];
      BindStep(instances, endpoints, ids, owner);
      if endpoints[e].serviceInstance == owner {
        assert next == endpoints;
        hide Bind, Claimable;
        BindIdle(instances, endpoints, ids[1..], owner);
        BlockedLater(instances, endpoints, ids, owner);
      } else {
        hide Bind, Claimable;
        BindOnlyClaims(instances, next, ids[1..], owner, e);
      }
    } else {
      assert BlockedAt(instances, endpoints, ids, owner, 0);
    }
  }

  /** The endpoint at `k` is where the loop fails, and nothing happened before. */
  predicate BlockedAt(instances: map<Id, Instance>, endpoints: map<Id, Endpoint>, ids: seq<Id>, owner: Id, k: int) {
    0 <= k < |ids| && !Claimable(instances, endpoints, ids[k], owner)
      && forall j :: 0 <= j < k ==> ids[j] in endpoints && endpoints[ids[j]].serviceInstance == owner
  }

  lemma BlockedLater(instances: map<Id, Instance>, endpoints: map<Id, Endpoint>, ids: seq<Id>, owner: Id)
    requires ids != [] && ids[0] in endpoints && endpoints[ids[0]].serviceInstance == owner
    ensures BlockedAtOnce(instances, endpoints, ids, owner) <==> BlockedAtOnce(instances, endpoints, ids[1..], owner)
  {
    forall k
      ensures BlockedAt(instances, endpoints, ids, owner, k + 1) <==>
        BlockedAt(instances, endpoints, ids[1..], owner, k) {
      BlockedShifts(instances, endpoints, ids, owner, k);
    }
    assert Claimable(instances, endpoints, ids[0], owner);
    assert forall k :: BlockedAt(instances, endpoints, ids, owner, k) ==> k != 0;
    hide BlockedAt, Claimable;
    assert forall k ::
      BlockedAt(instances, endpoints, ids, owner, k) ==> BlockedAt(instances, endpoints, ids[1..], owner, k - 1);
  }

  lemma BlockedShifts(instances: map<Id, Instance>, endpoints: map<Id, Endpoint>, ids: seq<Id>, owner: Id, k: int)
    requires ids != [] && ids[0] in endpoints && endpoints[ids[0]].serviceInstance == owner
    ensures BlockedAt(instances, endpoints, ids, owner, k + 1) <==> BlockedAt(instances, endpoints, ids[1..], owner, k)
  {
    assert Claimable(instances, endpoints, ids[0], owner);
    hide Claimable;
    if 0 <= k < |ids| - 1 {
      assert forall j :: 0 < j <= k ==> ids[j] == ids[1..][j - 1];
    }
  }

  /** What the instance holds it keeps to the end of the loop. */
  lemma {:induction false} BindOnlyClaims(instances: map<Id, Instance>, endpoints: map<Id, Endpoint>, ids: seq<Id>,
      owner: Id, e: Id)
    requires e in endpoints && endpoints[e].serviceInstance == owner
    ensures e in Bind(instances, endpoints, ids, owner).0
      && Bind(instances, endpoints, ids, owner).0[e].serviceInstance == owner
  {
    BindExactly(instances, endpoints, ids, owner);
  }

  /** When a rejected registration did leave the state as it was: the service is unknown; or the
      identity was given and either the generation or tombstone test refused it, or there was no
      current instance and the endpoints failed at once.  In every other case a rejection has
      already consumed an identity, superseded the current instance or claimed endpoints. */
  lemma RejectedRegistrationIsIdleExactly(st: State, inst: Instance, current: Option<Id>)
    requires current.Some? ==> current.value in st.instances
    requires RegisterInstance(st, inst, current).1.Refused?
    ensures RegisterInstance(st, inst, current).0 == st <==>
      || inst.serviceId !in st.services
      || (inst.instanceId != 0 &&
          (Settled(st, inst, current).Some? || (current == None
          && BlockedAtOnce(st.instances, st.endpoints, inst.endpoints, inst.instanceId))))
  {
    var counted := Allocated(st, inst);
    if inst.serviceId in st.services {
      if inst.instanceId == 0 {
        RegistrationTrace(st, inst, current);
        hide RegisterInstance;
      } else {
        assert counted == st && Identified(st, inst) == inst;
        if Settled(st, inst, current) == None {
          PastTheTests(st, inst, current);
        }
        hide Settled, Bind, Installed, GivenWay, BlockedAtOnce;
      }
    }
  }

  datatype Trace = Trace(nextId: u64, history: nat)

  function TraceOf(st: State): Trace {
    Trace(st.nextId, |st.instanceHistory|)
  }

  /** Registration consumes no identity but its own, and never shortens the history. */
  lemma RegistrationTrace(st: State, inst: Instance, current: Option<Id>)
    requires current.Some? ==> current.value in st.instances
    requires inst.serviceId in st.services
    ensures RegisterInstance(st, inst, current).0.nextId == Allocated(st, inst).nextId
    ensures |st.instanceHistory| <= |RegisterInstance(st, inst, current).0.instanceHistory|
  {
    var copy := Identified(st, inst);
    var counted := Allocated(st, inst);
    assert counted.instanceHistory == st.instanceHistory && counted.instances == st.instances;
    hide Settled, Bind, Installed, Allocated, Identified;
    GivingWayTrace(counted, current);
    var vacated := GivenWay(counted, current);
    hide GivenWay;
    var claimed := vacated.(endpoints := Bind(vacated.instances, vacated.endpoints, copy.endpoints, copy.instanceId).0);
    InstallingTrace(claimed, copy);
    var next := RegisterInstance(st, inst, current).0;
    assert next == counted || next == claimed || next == Installed(claimed, copy);
    hide RegisterInstance;
  }

  lemma GivingWayTrace(st: State, current: Option<Id>)
    requires current.Some? ==> current.value in st.instances
    ensures TraceOf(GivenWay(st, current)) == Trace(st.nextId, |st.instanceHistory| + if current.Some? then 1 else 0)
  {
  }

  lemma InstallingTrace(st: State, copy: Instance)
    ensures TraceOf(Installed(st, copy)) == Trace(st.nextId, |st.instanceHistory| + 1)
  {
    hide Rebuilt, Reclassified;
  }

  lemma PastTheTests(st: State, inst: Instance, current: Option<Id>)
    requires current.Some? ==> current.value in st.instances
    requires inst.serviceId in st.services && inst.instanceId != 0 && Settled(st, inst, current) == None
    requires RegisterInstance(st, inst, current).1.Refused?
    ensures RegisterInstance(st, inst, current).0 == st <==>
      current == None && BlockedAtOnce(st.instances, st.endpoints, inst.endpoints, inst.instanceId)
  {
    assert Allocated(st, inst) == st && Identified(st, inst) == inst;
    var vacated := GivenWay(st, current);
    var (bound, failure) := Bind(vacated.instances, vacated.endpoints, inst.endpoints, inst.instanceId);
    assert failure.Some? && RegisterInstance(st, inst, current).0 == vacated.(endpoints := bound) by {
      hide Settled, Bind, Installed, GivenWay;
    }
    hide RegisterInstance, Settled, Bind, BlockedAtOnce;
    BindIdle(vacated.instances, vacated.endpoints, inst.endpoints, inst.instanceId);
  }

  /** A rejected supersession leaves the state as it was only when the old instance is unknown. */
  lemma RejectedSupersessionIsIdleExactly(st: State, id: Id, inst: Instance, current: Option<Id>)
    requires current.Some? ==> current.value in st.instances
    requires Supersede(st, id, inst, current).1.Refused?
    ensures Supersede(st, id, inst, current).0 == st <==> id !in st.instances
  {
    if id in st.instances {
      var given := GivenWay(st, Some(id));
      assert |given.instanceHistory| == |st.instanceHistory| + 1;
      hide GivenWay;
      if inst.serviceId in given.services {
        RegistrationTrace(given, inst, current);
      }
    }
    hide RegisterInstance;
  }
}
