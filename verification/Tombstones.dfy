/** Tombstones: what they cover, and that what they cover stays covered over whole runs, completed
    reloads included, when their identities come from the registry. */
module Tombstones {
  import opened Base
  import Decimal
  import opened Records
  import opened RegistryModel
  import Fencing
  import Registration

  // ---- what one tombstone covers ----

  /** A tombstone covers one identity of one kind, and every generation up to its floor. */
  lemma CoversOneIdentity(t: Tombstone, kind: Bytes, id: Id, generation: Generation, kind': Bytes, id': Id,
      generation': Generation)
    requires Covers(t, kind, id, generation)
    ensures Covers(t, kind', id', generation') <==> kind' == kind && id' == id && generation' <= t.generationFloor
  {
    if Decimal.Digits(id) == Decimal.Digits(id') {
      Decimal.DigitsInjective(id, id');
    }
  }

  /** Storing a tombstone under an identity in use can lose coverage: it is lost exactly when only
      the replaced tombstone gave it. */
  lemma ReplacementLosesExactly(tombstones: map<Id, Tombstone>, k: Id, t: Tombstone, kind: Bytes, id: Id,
      generation: Generation)
    requires Covered(tombstones, kind, id, generation)
    ensures !Covered(tombstones[k := t], kind, id, generation) <==>
      !Covers(t, kind, id, generation) && forall j ::
        j in tombstones && Covers(tombstones[j], kind, id, generation) ==> j == k
  {
    hide Covers;
    if forall j :: j in tombstones && Covers(tombstones[j], kind, id, generation) ==> j == k {
    } else {
      var j :| j in tombstones && Covers(tombstones[j], kind, id, generation) && j != k;
      assert tombstones[k := t][j] == tombstones[j];
    }
    if Covers(t, kind, id, generation) {
      assert tombstones[k := t][k] == t;
    }
  }

  /** The identity under which a created tombstone is stored. */
  function StoredUnder(st: State, tomb: Tombstone): Id {
    if tomb.tombstoneId == 0 then st.nextId else tomb.tombstoneId
  }

  // ---- identities the registry hands out ----

  /** An operation consumes at most one identity. */
  lemma OperationAdvances(st: State, env: Envelope, op: Op)
    requires Possible(st, op)
    ensures Advances(st.nextId, Perform(st, env, op).0.nextId)
  {
    match op
    case OpInstance(inst, current) => RegistrationAdvances(st, inst, current);
    case OpSupersede(id, inst, current) =>
      if id in st.instances {
        RegistrationAdvances(GivenWay(st, Some(id)), inst, current);
      }
    case _ => PlainAdvances(st, env, op);
  }

  lemma RegistrationAdvances(st: State, inst: Instance, current: Option<Id>)
    requires current.Some? ==> current.value in st.instances
    ensures Advances(st.nextId, RegisterInstance(st, inst, current).0.nextId)
  {
    if inst.serviceId in st.services {
      Registration.RegistrationTrace(st, inst, current);
      hide RegisterInstance;
    }
  }

  /** The identity counter after an operation that may allocate. */
  predicate Advances(a: u64, b: u64) {
    b == a || b == Inc(a)
  }

  lemma RuntimeAdvances(st: State, rt: Runtime)
    ensures Advances(st.nextId, RegisterRuntime(st, rt).0.nextId)
  {
    hide Covered, SameRuntime;
  }

  lemma EndpointAdvances(st: State, ep: Endpoint)
    ensures Advances(st.nextId, RegisterEndpoint(st, ep).0.nextId)
  {
    hide Covered;
  }

  lemma CapabilityAdvances(st: State, cap: Capability)
    ensures Advances(st.nextId, RegisterCapability(st, cap).0.nextId)
  {
    hide Covered, SameCapability;
  }

  lemma PlainAdvances(st: State, env: Envelope, op: Op)
    requires !op.OpInstance? && !op.OpSupersede?
    ensures Advances(st.nextId, Perform(st, env, op).0.nextId)
  {
    hide Covered, Reclassified, Rebuilt, SameService, RegisterRuntime, RegisterEndpoint, RegisterCapability,
         RegisterInstance, Supersede;
    match op
    case OpRuntime(rt) => RuntimeAdvances(st, rt);
    case OpEndpoint(ep) => EndpointAdvances(st, ep);
    case OpCapability(cap) => CapabilityAdvances(st, cap);
    case OpService(_) =>
    case OpProtocol(_) =>
    case OpRenew(_) =>
    case OpAcquire(_) =>
    case OpTombstone(_) =>
    case _ =>
  }

  datatype Ledger = Ledger(tombstones: map<Id, Tombstone>, nextId: u64)

  function LedgerOf(st: State): Ledger {
    Ledger(st.tombstones, st.nextId)
  }

  lemma RevokedLedger(st: State, boot: Id)
    ensures LedgerOf(Revoked(st, boot)) == LedgerOf(st)
  {
    hide RevokedAuthority, RevokedInstances, RevokedLeases, RevokedEndpoints;
  }

  lemma AdoptedLedger(st: State, worker: Id)
    ensures LedgerOf(Adopted(st, worker).0) == LedgerOf(st)
  {
    hide Revoked, Granted;
    if worker in st.authority.currentBoot {
      RevokedLedger(st.(nextBoot := Inc(st.nextBoot)), st.authority.currentBoot[worker]);
    }
  }

  lemma RestartedLedger(st: State)
    ensures LedgerOf(NewEpoch(st)) == LedgerOf(Recovered(st)) == LedgerOf(st)
  {
    hide RecoveredInstances, RecoveredEndpoints, RecoveredCapabilities, RecoveredLeases, Rebuilt;
  }

  lemma StepLedger(st: State, step: Step)
    requires Enabled(st, step) && !step.Call?
    ensures LedgerOf(Next(st, step).0) == LedgerOf(st)
  {
    hide Adopted, Revoked, NewEpoch, Recovered, LedgerOf;
    match step
    case Adopt(worker) => AdoptedLedger(st, worker);
    case Died(boot) => RevokedLedger(st, boot);
    case _ => RestartedLedger(st);
  }

  /** The identity counter moves by at most one in a step. */
  lemma StepAdvances(st: State, step: Step)
    requires Enabled(st, step)
    ensures Advances(st.nextId, Next(st, step).0.nextId)
  {
    if step.Call? {
      OperationAdvances(st, step.env, step.op);
      hide Perform;
    } else {
      StepLedger(st, step);
      hide Next;
    }
  }

  /** Other steps than `create_tombstone` leave the tombstones alone, a reload included. */
  lemma StepTombstones(st: State, step: Step)
    requires Enabled(st, step)
    requires step.Call? ==> !step.op.OpTombstone?
    ensures Next(st, step).0.tombstones == st.tombstones
  {
    if step.Call? {
      Fencing.MutationsKeepFence(st, step.env, step.op);
      hide Mutate;
    } else {
      StepLedger(st, step);
      hide Next;
    }
  }

  lemma CreatedTombstone(st: State, tomb: Tombstone)
    requires tomb.tombstoneId == 0
    ensures LedgerOf(CreateTombstone(st, tomb).0) ==
      Ledger(st.tombstones[st.nextId := tomb.(tombstoneId := st.nextId)], Inc(st.nextId))
  {
  }

  // ---- coverage over runs ----

  /** The step leaves the identity of a tombstone to the registry. */
  predicate Unnumbered(step: Step) {
    step.Call? && step.op.OpTombstone? ==> step.op.tomb.tombstoneId == 0
  }

  /** Every tombstone has an identity the registry handed out before. */
  predicate Handed(tombstones: map<Id, Tombstone>, nextId: u64) {
    forall k :: k in tombstones ==> k < nextId
  }

  /** Old tombstones stay as they were. */
  predicate Extends(a: map<Id, Tombstone>, b: map<Id, Tombstone>) {
    forall k :: k in a ==> k in b && b[k] == a[k]
  }

  lemma OneMoreExtends(tombstones: map<Id, Tombstone>, nextId: u64, t: Tombstone)
    requires Handed(tombstones, nextId) && nextId < TWO_64 - 1
    ensures Extends(tombstones, tombstones[nextId := t]) && Handed(tombstones[nextId := t], nextId + 1)
  {
  }

  lemma NoneMoreExtends(tombstones: map<Id, Tombstone>, a: u64, b: u64)
    requires Handed(tombstones, a) && a < TWO_64 - 1 && Advances(a, b)
    ensures Extends(tombstones, tombstones) && Handed(tombstones, b)
  {
  }

  lemma StepExtends(st: State, step: Step)
    requires Enabled(st, step) && Unnumbered(step) && Handed(st.tombstones, st.nextId) && st.nextId < TWO_64 - 1
    ensures Extends(st.tombstones, Next(st, step).0.tombstones)
    ensures Handed(Next(st, step).0.tombstones, Next(st, step).0.nextId)
  {
    hide Handed, Extends, Advances, Loadable, Perform, Adopted, Revoked, NewEpoch, Recovered, Verdict, CreateTombstone;
    StepAdvances(st, step);
    if step.Call? && step.op.OpTombstone? && Verdict(st.authority, step.env) == None {
      CreatedTombstone(st, step.op.tomb);
      OneMoreExtends(st.tombstones, st.nextId, step.op.tomb.(tombstoneId := st.nextId));
      assert LedgerOf(Next(st, step).0) == LedgerOf(CreateTombstone(st, step.op.tomb).0) by {
        CallIsCreation(st, step.env, step.op.tomb);
      }
    } else {
      NoneMoreExtends(st.tombstones, st.nextId, Next(st, step).0.nextId);
      if !(step.Call? && step.op.OpTombstone?) {
        StepTombstones(st, step);
      }
    }
    hide Next;
  }

  lemma CallIsCreation(st: State, env: Envelope, tomb: Tombstone)
    requires Verdict(st.authority, env) == None
    ensures Next(st, Call(env, OpTombstone(tomb))).0 == CreateTombstone(st, tomb).0
  {
    hide CreateTombstone, Verdict;
  }

  /** Coverage is never lost: in a run whose tombstones are numbered by the registry, what is
      covered at some time is covered at every later time. */
  lemma {:induction false} CoverageStays(st: State, steps: seq<Step>, kind: Bytes, id: Id, generation: Generation)
    requires Runs(st, steps) && Fencing.NoWrap(st.nextId, steps) && Handed(st.tombstones, st.nextId)
    requires forall step :: step in steps ==> Unnumbered(step)
    requires Covered(st.tombstones, kind, id, generation)
    ensures Covered(After(st, steps).tombstones, kind, id, generation)
    ensures Handed(After(st, steps).tombstones, After(st, steps).nextId)
    decreases |steps|
  {
    hide Next, Enabled, Unnumbered, Advances, Handed, Covers;
    if steps != [] {
      assert Unnumbered(steps[0]);
      StepExtends(st, steps[0]);
      StepAdvances(st, steps[0]);
      AdvancesByOne(st.nextId, Next(st, steps[0]).0.nextId);
      assert Covered(Next(st, steps[0]).0.tombstones, kind, id, generation);
      CoverageStays(Next(st, steps[0]).0, steps[1..], kind, id, generation);
    }
  }

  lemma AdvancesByOne(a: u64, b: u64)
    requires Advances(a, b) && a < TWO_64 - 1
    ensures a <= b <= a + 1
  {
  }

  lemma StoredTombstone(st: State, tomb: Tombstone)
    ensures CreateTombstone(st, tomb).0.tombstones ==
      st.tombstones[StoredUnder(st, tomb) := tomb.(tombstoneId := StoredUnder(st, tomb))]
  {
  }

  lemma CreationLosesExactly(st: State, env: Envelope, tomb: Tombstone, kind: Bytes, id: Id, generation: Generation)
    requires Covered(st.tombstones, kind, id, generation) && Verdict(st.authority, env) == None
    ensures !Covered(Mutate(st, env, OpTombstone(tomb)).0.tombstones, kind, id, generation) <==>
      && !Covers(tomb, kind, id, generation)
      && forall j :: j in st.tombstones && Covers(st.tombstones[j], kind, id, generation) ==> j == StoredUnder(st, tomb)
  {
    var k := StoredUnder(st, tomb);
    assert Covers(tomb.(tombstoneId := k), kind, id, generation) == Covers(tomb, kind, id, generation);
    StoredTombstone(st, tomb);
    hide Covered, Covers, StoredUnder, CreateTombstone;
    ReplacementLosesExactly(st.tombstones, k, tomb.(tombstoneId := k), kind, id, generation);
  }

  /** An accepted tombstone that covers something else and is stored where the only tombstone was
      that gave the coverage. */
  predicate Loses(st: State, step: Step, kind: Bytes, id: Id, generation: Generation) {
    && step.Call? && step.op.OpTombstone? && Verdict(st.authority, step.env) == None
    && !Covers(step.op.tomb, kind, id, generation)
    && forall j ::
         j in st.tombstones && Covers(st.tombstones[j], kind, id, generation) ==> j == StoredUnder(st, step.op.tomb)
  }

  /** Exactly these steps lose coverage. */
  lemma StepLosesExactly(st: State, step: Step, kind: Bytes, id: Id, generation: Generation)
    requires Enabled(st, step) && Covered(st.tombstones, kind, id, generation)
    ensures !Covered(Next(st, step).0.tombstones, kind, id, generation) <==> Loses(st, step, kind, id, generation)
  {
    hide Covered, Covers, StoredUnder;
    if step.Call? && step.op.OpTombstone? {
      hide Perform;
      if Verdict(st.authority, step.env) == None {
        CreationLosesExactly(st, step.env, step.op.tomb, kind, id, generation);
      }
    } else {
      StepTombstones(st, step);
      hide Next;
    }
  }

  predicate NoneLoses(st: State, steps: seq<Step>, kind: Bytes, id: Id, generation: Generation)
    requires Runs(st, steps)
    decreases |steps|
  {
    steps == [] || (!Loses(st, steps[0], kind, id, generation)
    && NoneLoses(Next(st, steps[0]).0, steps[1..], kind, id, generation))
  }

  /** In every state of the run, the last included. */
  predicate CoveredThroughout(st: State, steps: seq<Step>, kind: Bytes, id: Id, generation: Generation)
    requires Runs(st, steps)
    decreases |steps|
  {
    Covered(st.tombstones, kind, id, generation)
    && (steps != [] ==> CoveredThroughout(Next(st, steps[0]).0, steps[1..], kind, id, generation))
  }

  /** Whatever identities the tombstones of a run have, it keeps coverage throughout exactly when
      none of its steps loses it. */
  lemma {:induction false} CoveredThroughoutExactly(st: State, steps: seq<Step>, kind: Bytes, id: Id,
      generation: Generation)
    requires Runs(st, steps) && Covered(st.tombstones, kind, id, generation)
    ensures CoveredThroughout(st, steps, kind, id, generation) <==> NoneLoses(st, steps, kind, id, generation)
    decreases |steps|
  {
    hide Next, Enabled, Loses, Covered;
    if steps != [] {
      StepLosesExactly(st, steps[0], kind, id, generation);
      if Loses(st, steps[0], kind, id, generation) {
        NotThroughout(Next(st, steps[0]).0, steps[1..], kind, id, generation);
      } else {
        CoveredThroughoutExactly(Next(st, steps[0]).0, steps[1..], kind, id, generation);
      }
    }
  }

  lemma NotThroughout(st: State, steps: seq<Step>, kind: Bytes, id: Id, generation: Generation)
    requires Runs(st, steps) && !Covered(st.tombstones, kind, id, generation)
    ensures !CoveredThroughout(st, steps, kind, id, generation)
  {
  }

  // ---- refused resurrections ----

  /** A first registration is refused as a resurrection exactly when a tombstone covers it. */
  lemma ServiceResurrectionExactly(st: State, svc: Service)
    requires svc.serviceId !in st.services
    ensures RegisterService(st, svc) == (st, Refused(TOMBSTONE_RESURRECTION)) <==>
      Covered(st.tombstones, SERVICE_ID, svc.serviceId, svc.generation)
  {
    hide Covered, Rebuilt, Commit;
  }

  lemma RuntimeResurrectionExactly(st: State, rt: Runtime)
    requires rt.runtimeInstance !in st.runtimeInstances
    ensures RegisterRuntime(st, rt) == (st, Refused(TOMBSTONE_RESURRECTION)) <==>
      Covered(st.tombstones, RUNTIME_INSTANCE_ID, rt.runtimeInstance, rt.generation)
  {
    hide Covered, Commit;
  }

  lemma EndpointResurrectionExactly(st: State, ep: Endpoint)
    requires ep.endpointId !in st.endpoints
    ensures RegisterEndpoint(st, ep) == (st, Refused(TOMBSTONE_RESURRECTION)) <==>
      Covered(st.tombstones, ENDPOINT_ID, ep.endpointId, ep.generation)
  {
    hide Covered, Commit;
  }

  lemma CapabilityResurrectionExactly(st: State, cap: Capability)
    requires cap.capabilityId !in st.capabilities
    ensures RegisterCapability(st, cap) == (st, Refused(TOMBSTONE_RESURRECTION)) <==>
      Covered(st.tombstones, CAPABILITY_ID, cap.capabilityId, cap.generation)
  {
    hide Covered, Commit;
  }

  /** An instance of a service with no standing instance, likewise. */
  lemma InstanceResurrectionExactly(st: State, inst: Instance, current: Option<Id>)
    requires inst.serviceId in st.services
    requires IsCurrent(st.instances, inst.serviceId, current) && !Registration.HasStanding(st.instances, inst.serviceId)
    ensures RegisterInstance(st, inst, current).1 == Refused(TOMBSTONE_RESURRECTION) <==>
      Covered(st.tombstones, SERVICE_ID, inst.serviceId, inst.instanceGeneration)
  {
    assert current == None;
    var copy := Identified(st, inst);
    Registration.BindRefusal(st.instances, st.endpoints, copy.endpoints, copy.instanceId);
    hide Covered, Bind, Installed, Registration.HasStanding, IsCurrent;
  }

  lemma Buries(st: State, env: Envelope, tomb: Tombstone, kind: Bytes, id: Id, generation: Generation)
    requires Handed(st.tombstones, st.nextId) && st.nextId < TWO_64 - 1
    requires Verdict(st.authority, env) == None && tomb.tombstoneId == 0 && Covers(tomb, kind, id, generation)
    ensures
      var buried := Mutate(st, env, OpTombstone(tomb)).0;
      Covered(buried.tombstones, kind, id, generation) && Handed(buried.tombstones, buried.nextId)
      && buried.nextId == st.nextId + 1
  {
    CreatedTombstone(st, tomb);
    hide Verdict, CreateTombstone;
    var buried := Mutate(st, env, OpTombstone(tomb)).0;
    assert LedgerOf(buried) == LedgerOf(CreateTombstone(st, tomb).0);
    hide Mutate;
    assert buried.tombstones[st.nextId] == tomb.(tombstoneId := st.nextId);
  }

  lemma BuriedStaysCovered(st: State, env: Envelope, tomb: Tombstone, steps: seq<Step>, kind: Bytes, id: Id,
      generation: Generation)
    requires Handed(st.tombstones, st.nextId) && st.nextId + 1 + |steps| < TWO_64
    requires Verdict(st.authority, env) == None && tomb.tombstoneId == 0 && Covers(tomb, kind, id, generation)
    requires Runs(Mutate(st, env, OpTombstone(tomb)).0, steps) && forall step :: step in steps ==> Unnumbered(step)
    ensures Covered(After(Mutate(st, env, OpTombstone(tomb)).0, steps).tombstones, kind, id, generation)
  {
    hide Mutate, Handed, Unnumbered, Runs, After, Covered, Covers, Verdict;
    Buries(st, env, tomb, kind, id, generation);
    CoverageStays(Mutate(st, env, OpTombstone(tomb)).0, steps, kind, id, generation);
  }

  /** A tombstone created for a service identity bars, up to its floor, the first registration of
      the service and of instances where none stands, in every later state, however the run went
      on. */
  lemma BuriedForGood(st: State, env: Envelope, tomb: Tombstone, steps: seq<Step>, svc: Service, inst: Instance,
      current: Option<Id>)
    requires Handed(st.tombstones, st.nextId) && st.nextId + 1 + |steps| < TWO_64
    requires Verdict(st.authority, env) == None && tomb.tombstoneId == 0
    requires Runs(Mutate(st, env, OpTombstone(tomb)).0, steps) && forall step :: step in steps ==> Unnumbered(step)
    requires Covers(tomb, SERVICE_ID, svc.serviceId, svc.generation)
      && Covers(tomb, SERVICE_ID, inst.serviceId, inst.instanceGeneration)
    requires IsCurrent(After(Mutate(st, env, OpTombstone(tomb)).0, steps).instances, inst.serviceId, current)
    ensures
      var later := After(Mutate(st, env, OpTombstone(tomb)).0, steps);
      && (svc.serviceId !in later.services ==> RegisterService(later, svc).1 == Refused(TOMBSTONE_RESURRECTION))
      && (inst.serviceId in later.services && !Registration.HasStanding(later.instances, inst.serviceId) ==>
            RegisterInstance(later, inst, current).1 == Refused(TOMBSTONE_RESURRECTION))
  {
    var later := After(Mutate(st, env, OpTombstone(tomb)).0, steps);
    hide Mutate, After, Runs, Covered, Covers, Handed, Unnumbered, IsCurrent, Verdict, Registration.HasStanding;
    BuriedStaysCovered(st, env, tomb, steps, SERVICE_ID, svc.serviceId, svc.generation);
    BuriedStaysCovered(st, env, tomb, steps, SERVICE_ID, inst.serviceId, inst.instanceGeneration);
    if svc.serviceId !in later.services {
      ServiceResurrectionExactly(later, svc);
    }
    hide RegisterService;
    if inst.serviceId in later.services && !Registration.HasStanding(later.instances, inst.serviceId) {
      InstanceResurrectionExactly(later, inst, current);
    }
    hide RegisterInstance;
  }

  /** The same for runtime instances. */
  lemma BuriedRuntimeForGood(st: State, env: Envelope, tomb: Tombstone, steps: seq<Step>, rt: Runtime)
    requires Handed(st.tombstones, st.nextId) && st.nextId + 1 + |steps| < TWO_64
    requires Verdict(st.authority, env) == None && tomb.tombstoneId == 0
      && Covers(tomb, RUNTIME_INSTANCE_ID, rt.runtimeInstance, rt.generation)
    requires Runs(Mutate(st, env, OpTombstone(tomb)).0, steps) && forall step :: step in steps ==> Unnumbered(step)
    ensures
      var later := After(Mutate(st, env, OpTombstone(tomb)).0, steps);
      rt.runtimeInstance !in later.runtimeInstances ==>
        RegisterRuntime(later, rt) == (later, Refused(TOMBSTONE_RESURRECTION))
  {
    var later := After(Mutate(st, env, OpTombstone(tomb)).0, steps);
    hide Mutate, After, Runs, Covered, Covers, Handed, Unnumbered, Verdict, RegisterRuntime;
    BuriedStaysCovered(st, env, tomb, steps, RUNTIME_INSTANCE_ID, rt.runtimeInstance, rt.generation);
    if rt.runtimeInstance !in later.runtimeInstances {
      RuntimeResurrectionExactly(later, rt);
    }
  }

  /** The same for endpoints. */
  lemma BuriedEndpointForGood(st: State, env: Envelope, tomb: Tombstone, steps: seq<Step>, ep: Endpoint)
    requires Handed(st.tombstones, st.nextId) && st.nextId + 1 + |steps| < TWO_64
    requires Verdict(st.authority, env) == None && tomb.tombstoneId == 0
      && Covers(tomb, ENDPOINT_ID, ep.endpointId, ep.generation)
    requires Runs(Mutate(st, env, OpTombstone(tomb)).0, steps) && forall step :: step in steps ==> Unnumbered(step)
    ensures
      var later := After(Mutate(st, env, OpTombstone(tomb)).0, steps);
      ep.endpointId !in later.endpoints ==> RegisterEndpoint(later, ep) == (later, Refused(TOMBSTONE_RESURRECTION))
  {
    var later := After(Mutate(st, env, OpTombstone(tomb)).0, steps);
    hide Mutate, After, Runs, Covered, Covers, Handed, Unnumbered, Verdict, RegisterEndpoint;
    BuriedStaysCovered(st, env, tomb, steps, ENDPOINT_ID, ep.endpointId, ep.generation);
    if ep.endpointId !in later.endpoints {
      EndpointResurrectionExactly(later, ep);
    }
  }

  /** The same for capabilities. */
  lemma BuriedCapabilityForGood(st: State, env: Envelope, tomb: Tombstone, steps: seq<Step>, cap: Capability)
    requires Handed(st.tombstones, st.nextId) && st.nextId + 1 + |steps| < TWO_64
    requires Verdict(st.authority, env) == None && tomb.tombstoneId == 0
      && Covers(tomb, CAPABILITY_ID, cap.capabilityId, cap.generation)
    requires Runs(Mutate(st, env, OpTombstone(tomb)).0, steps) && forall step :: step in steps ==> Unnumbered(step)
    ensures
      var later := After(Mutate(st, env, OpTombstone(tomb)).0, steps);
      cap.capabilityId !in later.capabilities ==>
        RegisterCapability(later, cap) == (later, Refused(TOMBSTONE_RESURRECTION))
  {
    var later := After(Mutate(st, env, OpTombstone(tomb)).0, steps);
    hide Mutate, After, Runs, Covered, Covers, Handed, Unnumbered, Verdict, RegisterCapability;
    BuriedStaysCovered(st, env, tomb, steps, CAPABILITY_ID, cap.capabilityId, cap.generation);
    if cap.capabilityId !in later.capabilities {
      CapabilityResurrectionExactly(later, cap);
    }
  }
}
