/** What stays over whole runs beside authority and coverage: registered services and protocols, and
    revoked leases. */
module Lasting {
  import opened Base
  import opened Enums
  import opened Records
  import opened RegistryModel
  import opened Lifecycles
  import opened Outages
  import opened Contents

  datatype Shelf = Shelf(services: map<Id, Service>, protocols: map<Id, Protocol>, leases: map<Id, Lease>)

  function ShelfOf(st: State): Shelf {
    Shelf(st.services, st.protocols, st.leases)
  }

  // ---- what each step does to the shelf ----

  lemma EndpointKeepsShelf(st: State, ep: Endpoint)
    ensures ShelfOf(RegisterEndpoint(st, ep).0) == ShelfOf(st)
  {
    hide Covered;
  }

  lemma CapabilityKeepsShelf(st: State, cap: Capability)
    ensures ShelfOf(RegisterCapability(st, cap).0) == ShelfOf(st)
  {
    hide Covered, SameCapability;
  }

  lemma RuntimeKeepsShelf(st: State, rt: Runtime)
    ensures ShelfOf(RegisterRuntime(st, rt).0) == ShelfOf(st)
  {
    hide Covered, SameRuntime;
  }

  lemma UpdatesKeepShelf(st: State, env: Envelope, op: Op)
    requires op.OpObserve? || op.OpReachability? || op.OpDeregister? || op.OpInvalidate? || op.OpTombstone?
    ensures ShelfOf(Perform(st, env, op).0) == ShelfOf(st)
  {
    hide Reclassified;
  }

  lemma GivingWayKeepsShelf(st: State, current: Option<Id>)
    requires current.Some? ==> current.value in st.instances
    ensures ShelfOf(GivenWay(st, current)) == ShelfOf(st)
  {
  }

  lemma InstallingKeepsShelf(st: State, copy: Instance)
    ensures ShelfOf(Installed(st, copy)) == ShelfOf(st)
  {
    hide Reclassified, Rebuilt;
  }

  lemma AllocationKeepsShelf(st: State, inst: Instance)
    ensures ShelfOf(Allocated(st, inst)) == ShelfOf(st) && Allocated(st, inst).instances == st.instances
  {
  }

  lemma ClaimingKeepsShelf(st: State, endpoints: map<Id, Endpoint>)
    ensures ShelfOf(st.(endpoints := endpoints)) == ShelfOf(st)
  {
  }

  lemma InstanceKeepsShelf(st: State, inst: Instance, current: Option<Id>)
    requires current.Some? ==> current.value in st.instances
    ensures ShelfOf(RegisterInstance(st, inst, current).0) == ShelfOf(st)
  {
    var copy := Identified(st, inst);
    var counted := Allocated(st, inst);
    AllocationKeepsShelf(st, inst);
    hide Bind, Settled, Installed, GivenWay, Allocated, Identified, ShelfOf;
    var vacated := GivenWay(counted, current);
    GivingWayKeepsShelf(counted, current);
    var bound := Bind(vacated.instances, vacated.endpoints, copy.endpoints, copy.instanceId).0;
    ClaimingKeepsShelf(vacated, bound);
    InstallingKeepsShelf(vacated.(endpoints := bound), copy);
  }

  /** Operations on the shelf itself. */
  predicate OnShelf(op: Op) {
    op.OpService? || op.OpProtocol? || op.OpAcquire? || op.OpRenew? || op.OpEnd?
  }

  lemma OthersKeepShelf(st: State, env: Envelope, op: Op)
    requires Possible(st, op) && !OnShelf(op)
    ensures ShelfOf(Perform(st, env, op).0) == ShelfOf(st)
  {
    match op
    case OpEndpoint(ep) =>
      EndpointKeepsShelf(st, ep);
      hide RegisterEndpoint, ShelfOf;
    case OpCapability(cap) =>
      CapabilityKeepsShelf(st, cap);
      hide RegisterCapability, ShelfOf;
    case OpRuntime(rt) =>
      RuntimeKeepsShelf(st, rt);
      hide RegisterRuntime, ShelfOf;
    case OpInstance(inst, current) =>
      hide RegisterInstance, ShelfOf;
      InstanceKeepsShelf(st, inst, current);
    case OpSupersede(id, inst, current) =>
      hide RegisterInstance, ShelfOf;
      if id in st.instances {
        GivingWayKeepsShelf(st, Some(id));
        InstanceKeepsShelf(GivenWay(st, Some(id)), inst, current);
      }
    case _ =>
      UpdatesKeepShelf(st, env, op);
      hide Perform, ShelfOf;
  }

  lemma RevocationShelf(st: State, boot: Id)
    ensures
      var next := ShelfOf(Revoked(st, boot));
      && next.services == st.services && next.protocols == st.protocols
      && next.leases == if boot in st.authority.liveBoots then RevokedLeases(st.leases, boot, st.instances)
           else st.leases
  {
    hide RevokedInstances, RevokedLeases, RevokedEndpoints, RevokedAuthority;
  }

  lemma AdoptionShelf(st: State, worker: Id)
    ensures
      var next := ShelfOf(Adopted(st, worker).0);
      && next.services == st.services && next.protocols == st.protocols
      && (next.leases == st.leases || exists boot :: next.leases == RevokedLeases(st.leases, boot, st.instances))
  {
    hide RevokedLeases, Revoked, Granted;
    if worker in st.authority.currentBoot {
      RevocationShelf(st.(nextBoot := Inc(st.nextBoot)), st.authority.currentBoot[worker]);
    }
  }

  lemma RestartShelf(st: State)
    ensures ShelfOf(Recovered(st)) == ShelfOf(NewEpoch(st)) ==
      Shelf(st.services, st.protocols, RecoveredLeases(st.leases))
  {
    hide RecoveredInstances, RecoveredEndpoints, RecoveredCapabilities, RecoveredLeases, Rebuilt;
  }

  // ---- services and protocols ----

  /** Nothing is dropped, and a record changes only for one of a larger generation. */
  predicate ServicesGrow(a: map<Id, Service>, b: map<Id, Service>) {
    forall k :: k in a ==> k in b && (b[k] == a[k] || a[k].generation < b[k].generation)
  }

  predicate ProtocolsGrow(a: map<Id, Protocol>, b: map<Id, Protocol>) {
    forall k :: k in a ==> k in b && (b[k] == a[k] || a[k].generation < b[k].generation)
  }

  lemma ServiceGrows(st: State, svc: Service)
    ensures ServicesGrow(st.services, RegisterService(st, svc).0.services)
    ensures RegisterService(st, svc).0.protocols == st.protocols
  {
    ServiceStores(st, svc);
    hide RegisterService, SameService, Covered;
  }

  lemma ProtocolGrows(st: State, pd: Protocol)
    ensures ProtocolsGrow(st.protocols, RegisterProtocol(st, pd).0.protocols)
    ensures RegisterProtocol(st, pd).0.services == st.services
  {
    ProtocolStores(st, pd);
    hide RegisterProtocol;
  }

  lemma LeasesGrowNothing(st: State, env: Envelope, op: Op)
    requires op.OpAcquire? || op.OpRenew? || op.OpEnd?
    ensures Perform(st, env, op).0.services == st.services && Perform(st, env, op).0.protocols == st.protocols
  {
  }

  lemma ShelfOperationGrows(st: State, env: Envelope, op: Op)
    requires OnShelf(op)
    ensures ServicesGrow(st.services, Perform(st, env, op).0.services)
    ensures ProtocolsGrow(st.protocols, Perform(st, env, op).0.protocols)
  {
    NothingGrows(st.services, st.protocols);
    hide RegisterService, RegisterProtocol, AcquireLease, RenewLease, EndLease, ServicesGrow, ProtocolsGrow;
    match op
    case OpService(svc) => ServiceGrows(st, svc);
    case OpProtocol(pd) => ProtocolGrows(st, pd);
    case _ => LeasesGrowNothing(st, env, op);
  }

  lemma StepGrows(st: State, step: Step)
    requires Enabled(st, step)
    ensures ServicesGrow(st.services, Next(st, step).0.services)
    ensures ProtocolsGrow(st.protocols, Next(st, step).0.protocols)
  {
    match step
    case Call(env, op) =>
      hide Possible, ServicesGrow, ProtocolsGrow, Perform, Verdict;
      NothingGrows(st.services, st.protocols);
      if Verdict(st.authority, env) == None {
        if OnShelf(op) {
          ShelfOperationGrows(st, env, op);
        } else {
          OthersKeepShelf(st, env, op);
        }
      }
    case Adopt(worker) =>
      AdoptionShelf(st, worker);
      hide Adopted;
    case Died(boot) =>
      RevocationShelf(st, boot);
      hide Revoked;
    case _ =>
      RestartShelf(st);
      hide Recovered, NewEpoch, Loadable;
  }

  lemma NothingGrows(services: map<Id, Service>, protocols: map<Id, Protocol>)
    ensures ServicesGrow(services, services) && ProtocolsGrow(protocols, protocols)
  {
  }

  /** Over any run, registered services and protocols stay registered, their generations never fall,
      and while the generation is the same so is the record. */
  lemma {:induction false} RegisteredForGood(st: State, steps: seq<Step>)
    requires Runs(st, steps)
    ensures ServicesGrow(st.services, After(st, steps).services)
    ensures ProtocolsGrow(st.protocols, After(st, steps).protocols)
    decreases |steps|
  {
    hide Next, Enabled;
    if steps != [] {
      StepGrows(st, steps[0]);
      RegisteredForGood(Next(st, steps[0]).0, steps[1..]);
    }
  }

  // ---- revoked leases ----

  predicate IsRevoked(leases: map<Id, Lease>, l: Id) {
    l in leases && leases[l].state == LeaseState.REVOKED
  }

  /** An accepted acquisition that stores another lease under the identity of the revoked one. */
  predicate Revives(st: State, step: Step, l: Id) {
    && step.Call? && step.op.OpAcquire? && Verdict(st.authority, step.env) == None
    && l == (if step.op.lease.leaseId != 0 then step.op.lease.leaseId else st.nextId)
    && step.op.lease.state != LeaseState.REVOKED
  }

  lemma DeathAndRestartKeepRevoked(leases: map<Id, Lease>, boot: Id, instances: map<Id, Instance>, l: Id)
    requires IsRevoked(leases, l)
    ensures IsRevoked(RevokedLeases(leases, boot, instances), l) && IsRevoked(RecoveredLeases(leases), l)
  {
    hide LeasedTo;
  }

  lemma LeaseCall(st: State, env: Envelope, op: Op, l: Id)
    requires OnShelf(op) && IsRevoked(st.leases, l) && Verdict(st.authority, env) == None
    ensures !IsRevoked(Perform(st, env, op).0.leases, l) <==> Revives(st, Call(env, op), l)
  {
    hide Verdict;
    match op
    case OpAcquire(lease) =>
      AcquisitionStores(st, lease);
      hide AcquireLease;
    case OpRenew(id) =>
      RenewalStores(st, env, id);
      hide RenewLease;
    case OpEnd(id, state) =>
      EndingStores(st, id, state);
      hide EndLease;
    case OpService(svc) =>
      ServiceStores(st, svc);
      hide RegisterService, SameService, Covered;
    case OpProtocol(pd) =>
      ProtocolStores(st, pd);
      hide RegisterProtocol;
  }

  /** Exactly these steps bring a revoked lease back: no renewal, recovery or new process does. */
  lemma StepRevivesExactly(st: State, step: Step, l: Id)
    requires Enabled(st, step) && IsRevoked(st.leases, l)
    ensures !IsRevoked(Next(st, step).0.leases, l) <==> Revives(st, step, l)
  {
    hide IsRevoked;
    match step
    case Call(env, op) =>
      hide Possible, Perform, Verdict;
      if Verdict(st.authority, env) == None {
        if OnShelf(op) {
          LeaseCall(st, env, op, l);
        } else {
          OthersKeepShelf(st, env, op);
        }
      }
    case Adopt(worker) =>
      AdoptionShelf(st, worker);
      hide Adopted, RevokedLeases;
      if boot :| Next(st, step).0.leases == RevokedLeases(st.leases, boot, st.instances) {
        DeathAndRestartKeepRevoked(st.leases, boot, st.instances, l);
      }
    case Died(boot) =>
      RevocationShelf(st, boot);
      DeathAndRestartKeepRevoked(st.leases, boot, st.instances, l);
      hide Revoked, RevokedLeases;
    case _ =>
      RestartShelf(st);
      DeathAndRestartKeepRevoked(st.leases, 0, st.instances, l);
      hide Recovered, NewEpoch, Loadable, RecoveredLeases;
  }

  ghost predicate NoneRevives(st: State, steps: seq<Step>, l: Id)
    requires Runs(st, steps)
    decreases |steps|
  {
    steps == [] || (!Revives(st, steps[0], l) && NoneRevives(Next(st, steps[0]).0, steps[1..], l))
  }

  /** A revoked lease stays revoked over any run without such a step; an instance that names it gives
      no service, whoever holds authority. */
  lemma {:induction false} RevokedForGood(st: State, steps: seq<Step>, l: Id, inst: Instance)
    requires Runs(st, steps) && IsRevoked(st.leases, l) && NoneRevives(st, steps, l)
    ensures IsRevoked(After(st, steps).leases, l)
    ensures inst.lease == l && l != 0 ==> !InService(Reclassified(After(st, steps), inst).lifecycle)
    decreases |steps|
  {
    hide Next, Enabled, Revives, Reclassified, InService;
    if steps == [] {
      NotInService(st, inst);
      hide AllOpen, Equipped;
    } else {
      StepRevivesExactly(st, steps[0], l);
      RevokedForGood(Next(st, steps[0]).0, steps[1..], l, inst);
    }
  }
}
