/** The numbering of changes: `commit_registry_generation` runs once for every accepted change. */
module Numbering {
  import opened Base
  import opened Enums
  import opened Records
  import opened RegistryModel

  // ---- the number of the registry ----

  /** The three counters that `commit_registry_generation` moves. */
  datatype Stamp = Stamp(registry: Generation, record: Generation, authority: Generation)

  function StampOf(st: State): Stamp {
    Stamp(st.authority.registryGeneration, st.authority.recordGeneration, st.authority.gens.authority)
  }

  function Stepped(s: Stamp): Stamp {
    Stamp(Inc(s.registry), Inc(s.record), Inc(s.authority))
  }

  lemma ServiceNumbered(st: State, svc: Service)
    requires RegisterService(st, svc).0 != st
    ensures StampOf(RegisterService(st, svc).0) == Stepped(StampOf(st))
  {
    hide Covered, SameService, Rebuilt;
  }

  lemma RuntimeNumbered(st: State, rt: Runtime)
    requires RegisterRuntime(st, rt).0 != st
    ensures StampOf(RegisterRuntime(st, rt).0) == Stepped(StampOf(st))
  {
    hide Covered, SameRuntime;
  }

  lemma EndpointNumbered(st: State, ep: Endpoint)
    requires RegisterEndpoint(st, ep).0 != st
    ensures StampOf(RegisterEndpoint(st, ep).0) == Stepped(StampOf(st))
  {
    hide Covered;
  }

  lemma CapabilityNumbered(st: State, cap: Capability)
    requires RegisterCapability(st, cap).0 != st
    ensures StampOf(RegisterCapability(st, cap).0) == Stepped(StampOf(st))
  {
    hide Covered, SameCapability;
  }

  lemma ProtocolNumbered(st: State, pd: Protocol)
    requires RegisterProtocol(st, pd).0 != st
    ensures StampOf(RegisterProtocol(st, pd).0) == Stepped(StampOf(st))
  {
  }

  lemma UpdateNumbered(st: State, env: Envelope, op: Op)
    requires op.OpObserve? || op.OpReachability? || op.OpDeregister?
    requires Perform(st, env, op).0 != st
    ensures StampOf(Perform(st, env, op).0) == Stepped(StampOf(st))
  {
    hide Reclassified;
    match op
    case OpObserve(_, _) =>
    case OpReachability(_, _) =>
    case OpDeregister(_) =>
    case _ =>
  }

  lemma LeaseNumbered(st: State, env: Envelope, op: Op)
    requires op.OpAcquire? || op.OpRenew? || op.OpEnd? || op.OpInvalidate? || op.OpTombstone?
    requires Perform(st, env, op).0 != st
    ensures StampOf(Perform(st, env, op).0) == Stepped(StampOf(st))
  {
    match op
    case OpAcquire(_) =>
    case OpRenew(_) =>
    case OpEnd(_, _) =>
    case _ =>
  }

  lemma InstallNumbered(st: State, copy: Instance)
    ensures StampOf(Installed(st, copy)) == Stepped(StampOf(st))
  {
    hide Reclassified, Rebuilt;
  }

  lemma GivingWayUnnumbered(st: State, current: Option<Id>)
    requires current.Some? ==> current.value in st.instances
    ensures StampOf(GivenWay(st, current)) == StampOf(st)
  {
  }

  lemma InstanceNumbered(st: State, inst: Instance, current: Option<Id>)
    requires current.Some? ==> current.value in st.instances
    requires RegisterInstance(st, inst, current).1.Done?
      && Settled(Allocated(st, inst), Identified(st, inst), current) == None
    ensures StampOf(RegisterInstance(st, inst, current).0) == Stepped(StampOf(st))
  {
    var copy, counted := Identified(st, inst), Allocated(st, inst);
    assert StampOf(counted) == StampOf(st);
    GivingWayUnnumbered(counted, current);
    var vacated := GivenWay(counted, current);
    hide Settled, Bind, Installed, GivenWay, Allocated, Identified, StampOf;
    var claimed := vacated.(endpoints := Bind(vacated.instances, vacated.endpoints, copy.endpoints, copy.instanceId).0);
    assert StampOf(claimed) == StampOf(vacated) by { SameStamp(vacated, claimed.endpoints); }
    InstallNumbered(claimed, copy);
  }

  lemma SameStamp(st: State, endpoints: map<Id, Endpoint>)
    ensures StampOf(st.(endpoints := endpoints)) == StampOf(st)
  {
  }

  /** The call is an instance registration that only confirms the current instance. */
  predicate Repeats(st: State, op: Op)
    requires Possible(st, op)
  {
    match op
    case OpInstance(inst, current) => inst.serviceId in st.services
      && Settled(Allocated(st, inst), Identified(st, inst), current).Some?
    case OpSupersede(id, inst, current) =>
      id in st.instances && inst.serviceId in st.services &&
      var given := GivenWay(st, Some(id));
      Settled(Allocated(given, inst), Identified(given, inst), current).Some?
    case _ => false
  }

  lemma RepetitionUnnumbered(st: State, inst: Instance, current: Option<Id>)
    requires current.Some? ==> current.value in st.instances
    requires inst.serviceId in st.services && Settled(Allocated(st, inst), Identified(st, inst), current).Some?
    ensures StampOf(RegisterInstance(st, inst, current).0) == StampOf(st)
  {
    hide Settled, Bind, Installed, GivenWay;
  }

  /** An accepted call that changed the registry moved each of the three counters by one, unless it
      was an instance registration that only confirmed the current instance. */
  lemma ChangeIsNumberedExactly(st: State, env: Envelope, op: Op)
    requires Possible(st, op)
    requires Perform(st, env, op).1.Done? && Perform(st, env, op).0 != st
    ensures StampOf(Perform(st, env, op).0) == Stepped(StampOf(st)) <==> !Repeats(st, op)
  {
    assert Stepped(StampOf(st)) != StampOf(st);
    if op.OpInstance? {
      hide Settled, RegisterInstance, Stepped, StampOf, Allocated, Identified;
      NumberedInstance(st, op.inst, op.current);
    } else if op.OpSupersede? {
      GivingWayUnnumbered(st, Some(op.id));
      hide Settled, RegisterInstance, Stepped, StampOf, Allocated, Identified, GivenWay;
      NumberedInstance(GivenWay(st, Some(op.id)), op.inst, op.current);
    } else {
      PlainNumbered(st, env, op);
      hide Perform, Stepped, StampOf;
    }
  }

  lemma NumberedInstance(st: State, inst: Instance, current: Option<Id>)
    requires IsCurrent(st.instances, inst.serviceId, current)
    requires RegisterInstance(st, inst, current).1.Done?
    ensures
      inst.serviceId in st.services &&
      StampOf(RegisterInstance(st, inst, current).0) ==
        if Settled(Allocated(st, inst), Identified(st, inst), current).Some? then StampOf(st) else Stepped(StampOf(st))
  {
    assert current.Some? ==> current.value in st.instances;
    assert inst.serviceId in st.services by { hide Settled, Bind, Installed, GivenWay; }
    hide RegisterInstance, Settled, Stepped, StampOf;
    if Settled(Allocated(st, inst), Identified(st, inst), current).Some? {
      RepetitionUnnumbered(st, inst, current);
    } else {
      InstanceNumbered(st, inst, current);
    }
  }

  lemma PlainNumbered(st: State, env: Envelope, op: Op)
    requires !op.OpInstance? && !op.OpSupersede?
    requires Perform(st, env, op).0 != st
    ensures StampOf(Perform(st, env, op).0) == Stepped(StampOf(st))
  {
    hide RegisterService, RegisterRuntime, RegisterProtocol, RegisterEndpoint, RegisterCapability, Observe,
         UpdateReachability, AcquireLease, RenewLease, EndLease, Invalidate, CreateTombstone, Deregister,
         RegisterInstance, Supersede, StampOf, Stepped;
    match op
    case OpService(svc) => ServiceNumbered(st, svc);
    case OpRuntime(rt) => RuntimeNumbered(st, rt);
    case OpProtocol(pd) => ProtocolNumbered(st, pd);
    case OpEndpoint(ep) => EndpointNumbered(st, ep);
    case OpCapability(cap) => CapabilityNumbered(st, cap);
    case OpObserve(_, _) => UpdateNumbered(st, env, op);
    case OpReachability(_, _) => UpdateNumbered(st, env, op);
    case OpDeregister(_) => UpdateNumbered(st, env, op);
    case _ => LeaseNumbered(st, env, op);
  }
}
