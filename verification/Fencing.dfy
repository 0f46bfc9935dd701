/** Process authority over whole runs: which boots may write, and that a boot once fenced off stays
    so.  Boots and epochs are 64-bit counters; a run is assumed too short to wrap them. */
module Fencing {
  import opened Base
  import opened Enums
  import opened Records
  import opened RegistryModel
  import opened RegistryInvariants

  // ---- the authority part of the state ----

  datatype Fence = Fence(epoch: Generation, nextBoot: u64, currentBoot: map<Id, Id>, liveBoots: set<Id>,
      bootWorker: map<Id, Id>)

  function FenceOf(st: State): Fence {
    Fence(st.authority.epoch, st.nextBoot, st.authority.currentBoot, st.authority.liveBoots, st.authority.bootWorker)
  }

  datatype Guarded = Guarded(fence: Fence, tombstones: map<Id, Tombstone>)

  function GuardedOf(st: State): Guarded {
    Guarded(FenceOf(st), st.tombstones)
  }

  datatype Kept = Kept(guarded: Guarded, instances: map<Id, Instance>)

  function KeptOf(st: State): Kept {
    Kept(GuardedOf(st), st.instances)
  }

  /** A boot that was issued and is not live. */
  predicate Spent(st: State, boot: Id) {
    boot <= st.nextBoot && boot !in st.authority.liveBoots
  }

  /** The run is too short for a counter at `x` to wrap. */
  predicate NoWrap(x: u64, steps: seq<Step>) {
    x + |steps| < TWO_64
  }

  // ---- mutations ----

  lemma ServiceKeepsFence(st: State, svc: Service)
    ensures KeptOf(RegisterService(st, svc).0) == KeptOf(st)
  {
    hide Covered, Rebuilt, SameService;
  }

  lemma RuntimeKeepsFence(st: State, rt: Runtime)
    ensures KeptOf(RegisterRuntime(st, rt).0) == KeptOf(st)
  {
    hide Covered, SameRuntime;
  }

  lemma ProtocolKeepsFence(st: State, pd: Protocol)
    ensures KeptOf(RegisterProtocol(st, pd).0) == KeptOf(st)
  {
  }

  lemma EndpointKeepsFence(st: State, ep: Endpoint)
    ensures KeptOf(RegisterEndpoint(st, ep).0) == KeptOf(st)
  {
    hide Covered;
  }

  lemma CapabilityKeepsFence(st: State, cap: Capability)
    ensures KeptOf(RegisterCapability(st, cap).0) == KeptOf(st)
  {
    hide Covered, SameCapability;
  }

  lemma GivingWayKeepsFence(st: State, current: Option<Id>)
    requires current.Some? ==> current.value in st.instances
    ensures GuardedOf(GivenWay(st, current)) == GuardedOf(st)
  {
  }

  lemma InstallingKeepsFence(st: State, inst: Instance)
    ensures GuardedOf(Installed(st, inst)) == GuardedOf(st)
  {
    hide Reclassified, Rebuilt;
  }

  lemma AllocationKeepsFence(st: State, inst: Instance)
    ensures GuardedOf(Allocated(st, inst)) == GuardedOf(st) && Allocated(st, inst).instances == st.instances
  {
  }

  lemma InstanceKeepsFence(st: State, inst: Instance, current: Option<Id>)
    requires current.Some? ==> current.value in st.instances
    ensures GuardedOf(RegisterInstance(st, inst, current).0) == GuardedOf(st)
  {
    var copy := Identified(st, inst);
    var counted := Allocated(st, inst);
    hide Bind, Settled, Installed, GivenWay, Allocated, Identified;
    AllocationKeepsFence(st, inst);
    var vacated := GivenWay(counted, current);
    GivingWayKeepsFence(counted, current);
    var bound := Bind(vacated.instances, vacated.endpoints, copy.endpoints, copy.instanceId).0;
    InstallingKeepsFence(vacated.(endpoints := bound), copy);
  }

  lemma ObserveKeepsFence(st: State, env: Envelope, id: Id, o: Observation)
    ensures GuardedOf(Observe(st, env, id, o).0) == GuardedOf(st)
  {
    hide Reclassified;
  }

  lemma ReachabilityKeepsFence(st: State, env: Envelope, id: Id, r: Reachability)
    ensures GuardedOf(UpdateReachability(st, env, id, r).0) == GuardedOf(st)
  {
    hide Reclassified;
  }

  lemma DeregisterKeepsFence(st: State, env: Envelope, id: Id)
    ensures GuardedOf(Deregister(st, env, id).0) == GuardedOf(st)
  {
  }

  lemma LeasesKeepFence(st: State, lease: Lease)
    ensures KeptOf(AcquireLease(st, lease).0) == KeptOf(st)
  {
  }

  lemma RenewalKeepsFence(st: State, env: Envelope, id: Id)
    ensures KeptOf(RenewLease(st, env, id).0) == KeptOf(st)
  {
  }

  lemma EndingKeepsFence(st: State, id: Id, state: LeaseState)
    ensures KeptOf(EndLease(st, id, state).0) == KeptOf(st)
  {
  }

  lemma TombstonesKeepFence(st: State, tomb: Tombstone)
    ensures FenceOf(CreateTombstone(st, tomb).0) == FenceOf(st) && CreateTombstone(st, tomb).0.instances == st.instances
  {
  }

  lemma InvalidationsKeepFence(st: State, rec: Invalidation)
    ensures KeptOf(Invalidate(st, rec).0) == KeptOf(st)
  {
  }

  lemma OperationsKeepGuarded(st: State, env: Envelope, op: Op)
    requires Possible(st, op) && !op.OpTombstone?
    ensures GuardedOf(Perform(st, env, op).0) == GuardedOf(st)
  {
    hide GuardedOf, RegisterService, RegisterRuntime, RegisterProtocol, RegisterEndpoint, RegisterCapability,
         RegisterInstance, GivenWay, Verdict, Observe, UpdateReachability, AcquireLease, RenewLease, EndLease,
         Invalidate, CreateTombstone, Deregister;
    assert op.OpInstance? && op.current.Some? ==> op.current.value in st.instances;
    hide IsCurrent;
    match op
    case OpService(svc) => ServiceKeepsFence(st, svc);
    case OpRuntime(rt) => RuntimeKeepsFence(st, rt);
    case OpProtocol(pd) => ProtocolKeepsFence(st, pd);
    case OpEndpoint(ep) => EndpointKeepsFence(st, ep);
    case OpCapability(cap) => CapabilityKeepsFence(st, cap);
    case OpInstance(inst, current) => InstanceKeepsFence(st, inst, current);
    case OpSupersede(id, inst, current) =>
      if id in st.instances {
        GivingWayKeepsFence(st, Some(id));
        InstanceKeepsFence(GivenWay(st, Some(id)), inst, current);
      }
    case OpObserve(id, o) => ObserveKeepsFence(st, env, id, o);
    case OpReachability(id, r) => ReachabilityKeepsFence(st, env, id, r);
    case OpDeregister(id) => DeregisterKeepsFence(st, env, id);
    case OpAcquire(lease) => LeasesKeepFence(st, lease);
    case OpRenew(id) => RenewalKeepsFence(st, env, id);
    case OpEnd(id, state) => EndingKeepsFence(st, id, state);
    case OpInvalidate(rec) => InvalidationsKeepFence(st, rec);
  }

  /** A mutation changes no process authority, whether it succeeds or throws, and only
      `create_tombstone` changes tombstones. */
  lemma MutationsKeepFence(st: State, env: Envelope, op: Op)
    requires Possible(st, op)
    ensures FenceOf(Mutate(st, env, op).0) == FenceOf(st)
    ensures !op.OpTombstone? ==> Mutate(st, env, op).0.tombstones == st.tombstones
  {
    if op.OpTombstone? {
      TombstonesKeepFence(st, op.tomb);
      hide FenceOf, CreateTombstone;
    } else {
      OperationsKeepGuarded(st, env, op);
      hide FenceOf, Perform;
    }
  }

  // ---- one step ----

  /** The boots of `worker` that may write. */
  function LiveBootsOf(a: Authority, worker: Id): set<Id> {
    set b | b in a.liveBoots && b in a.bootWorker && a.bootWorker[b] == worker
  }

  /** Ownership of boots is one to one, and no boot in use is newer than the counter. */
  predicate Assigned(a: Authority, nextBoot: u64) {
    && a.bootWorker.Keys == a.liveBoots && 0 !in a.liveBoots
    && (forall b :: b in a.liveBoots ==>
          b <= nextBoot && a.bootWorker[b] in a.currentBoot && a.currentBoot[a.bootWorker[b]] == b)
    && (forall w :: w in a.currentBoot ==>
          a.currentBoot[w] <= nextBoot && (a.currentBoot[w] in a.liveBoots ==> a.bootWorker[a.currentBoot[w]] == w))
  }

  /** What adoption does to the authority. */
  function AdoptedAuthority(a: Authority, worker: Id, boot: Id): Authority {
    Granted(if worker in a.currentBoot && a.currentBoot[worker] != boot then RevokedAuthority(a, a.currentBoot[worker])
      else a, worker, boot)
  }

  lemma RevocationAuthority(st: State, boot: Id)
    ensures Revoked(st, boot).authority == RevokedAuthority(st.authority, boot)
    ensures Revoked(st, boot).nextBoot == st.nextBoot
  {
    hide RevokedInstances, RevokedLeases, RevokedEndpoints;
  }

  lemma AdoptionAuthority(st: State, worker: Id)
    ensures Adopted(st, worker).0.authority == AdoptedAuthority(st.authority, worker, Inc(st.nextBoot))
    ensures Adopted(st, worker).0.nextBoot == Inc(st.nextBoot)
  {
    hide Granted, Revoked, RevokedAuthority;
    var counted := st.(nextBoot := Inc(st.nextBoot));
    if worker in st.authority.currentBoot {
      RevocationAuthority(counted, st.authority.currentBoot[worker]);
    }
  }

  lemma RestartAuthority(st: State)
    ensures NewEpoch(st).authority ==
      st.authority.(epoch := Inc(st.authority.epoch), liveBoots := {}, currentBoot := map[], bootWorker := map[])
    ensures Recovered(st).authority == st.authority.(liveBoots := {}, currentBoot := map[], bootWorker := map[])
    ensures NewEpoch(st).nextBoot == Recovered(st).nextBoot == st.nextBoot
  {
    hide RecoveredInstances, RecoveredEndpoints, RecoveredCapabilities, RecoveredLeases, Rebuilt;
  }

  /** The authority after a step, as a function of the authority before it. */
  function NextAuthority(a: Authority, nextBoot: u64, step: Step): Authority {
    match step
    case Adopt(worker) => AdoptedAuthority(a, worker, Inc(nextBoot))
    case Died(boot) => RevokedAuthority(a, boot)
    case BeginEpoch => a.(epoch := Inc(a.epoch), liveBoots := {}, currentBoot := map[], bootWorker := map[])
    case Reload => a.(liveBoots := {}, currentBoot := map[], bootWorker := map[])
    case Call(_, _) => a
  }

  /** Process authority evolves on its own: mutations leave it alone, and the other steps look at
      nothing else. */
  lemma StepFence(st: State, step: Step)
    requires Enabled(st, step)
    ensures
      var next := Next(st, step).0;
      && SameFence(next.authority, NextAuthority(st.authority, st.nextBoot, step))
      && next.authority.epoch == (if step.BeginEpoch? then Inc(st.authority.epoch) else st.authority.epoch)
      && next.nextBoot == (if step.Adopt? then Inc(st.nextBoot) else st.nextBoot)
  {
    hide Mutate, Adopted, Revoked, NewEpoch, Recovered, Possible;
    match step
    case Call(env, op) => MutationsKeepFence(st, env, op);
    case Adopt(worker) => AdoptionAuthority(st, worker);
    case Died(boot) => RevocationAuthority(st, boot);
    case _ => RestartAuthority(st);
  }

  /** An adoption issues the next boot; no other boot ever becomes live. */
  lemma OnlyAdoptionRevives(a: Authority, nextBoot: u64, step: Step)
    ensures
      var next := NextAuthority(a, nextBoot, step);
      forall b :: b in next.liveBoots ==> b in a.liveBoots || (step.Adopt? && b == Inc(nextBoot))
  {
  }

  /** Until the counter wraps, every step keeps ownership one to one. */
  lemma AssignedKeeps(a: Authority, nextBoot: u64, step: Step)
    requires Assigned(a, nextBoot) && nextBoot < TWO_64 - 1
    ensures Assigned(NextAuthority(a, nextBoot, step), if step.Adopt? then nextBoot + 1 else nextBoot)
  {
  }

  /** Adoption leaves the worker exactly one live boot, the new one, and disturbs no other worker. */
  lemma AdoptionIsExclusive(a: Authority, nextBoot: u64, worker: Id)
    requires Assigned(a, nextBoot) && nextBoot < TWO_64 - 1
    ensures
      var next := AdoptedAuthority(a, worker, nextBoot + 1);
      && LiveBootsOf(next, worker) == {nextBoot + 1}
      && next.currentBoot[worker] == nextBoot + 1
      && forall w :: w != worker ==> LiveBootsOf(next, w) == LiveBootsOf(a, w)
  {
    var next := AdoptedAuthority(a, worker, nextBoot + 1);
    assert forall b ::
      b in next.liveBoots && b <= nextBoot ==>
        b in a.liveBoots && a.bootWorker[b] != worker && next.bootWorker[b] == a.bootWorker[b];
    assert forall b ::
      b in a.liveBoots && a.bootWorker[b] != worker ==> b in next.liveBoots && next.bootWorker[b] == a.bootWorker[b];
  }

  /** A worker has at most one live boot. */
  lemma OneLiveBoot(a: Authority, nextBoot: u64, worker: Id)
    requires Assigned(a, nextBoot)
    ensures |LiveBootsOf(a, worker)| <= 1
  {
    if LiveBootsOf(a, worker) != {} {
      assert LiveBootsOf(a, worker) == {a.currentBoot[worker]};
    }
  }

  // ---- whole runs ----

  /** A boot that stopped being live never becomes live again. */
  lemma {:induction false} SpentForGood(st: State, steps: seq<Step>, boot: Id)
    requires Runs(st, steps) && NoWrap(st.nextBoot, steps) && Spent(st, boot)
    ensures Spent(After(st, steps), boot)
    decreases |steps|
  {
    hide Next, Enabled;
    if steps != [] {
      StepFence(st, steps[0]);
      OnlyAdoptionRevives(st.authority, st.nextBoot, steps[0]);
      hide NextAuthority;
      SpentForGood(Next(st, steps[0]).0, steps[1..], boot);
    }
  }

  /** So every later mutation that carries it is refused and changes nothing. */
  lemma SpentBootIsRefused(st: State, steps: seq<Step>, env: Envelope, op: Op)
    requires Runs(st, steps) && NoWrap(st.nextBoot, steps) && Spent(st, env.boot)
    requires Possible(After(st, steps), op)
    ensures
      var (next, outcome) := Mutate(After(st, steps), env, op);
      next == After(st, steps) && (outcome == Refused(STALE_EPOCH) || outcome == Refused(STALE_BOOT))
  {
    SpentForGood(st, steps, env.boot);
    hide After, Runs, Perform, Possible;
  }

  /** A new epoch refuses every envelope of the old one, for good. */
  lemma {:induction false} OldEpochIsRefused(st: State, steps: seq<Step>, env: Envelope, op: Op)
    requires Runs(st, steps) && NoWrap(st.authority.epoch, steps) && env.epoch < st.authority.epoch
    requires Possible(After(st, steps), op)
    ensures Mutate(After(st, steps), env, op) == (After(st, steps), Refused(STALE_EPOCH))
    decreases |steps|
  {
    hide Next, Enabled, Perform, Possible;
    if steps != [] {
      StepFence(st, steps[0]);
      OldEpochIsRefused(Next(st, steps[0]).0, steps[1..], env, op);
    }
  }

  /** In every run from a new registry, each worker has at most one live boot at any time. */
  lemma {:induction false} RunsKeepAssigned(st: State, steps: seq<Step>)
    requires Runs(st, steps) && NoWrap(st.nextBoot, steps) && Assigned(st.authority, st.nextBoot)
    ensures Assigned(After(st, steps).authority, After(st, steps).nextBoot)
    decreases |steps|
  {
    hide Next, Enabled, NextAuthority, Assigned;
    if steps != [] {
      StepFence(st, steps[0]);
      AssignedKeeps(st.authority, st.nextBoot, steps[0]);
      SameFenceAssigned(NextAuthority(st.authority, st.nextBoot, steps[0]), Next(st, steps[0]).0.authority,
        Next(st, steps[0]).0.nextBoot);
      RunsKeepAssigned(Next(st, steps[0]).0, steps[1..]);
    }
  }

  lemma SameFenceAssigned(a: Authority, b: Authority, nextBoot: u64)
    requires SameFence(a, b) && Assigned(a, nextBoot)
    ensures Assigned(b, nextBoot)
  {
  }

  /** With no live boot, none becomes live before the next adoption. */
  lemma {:induction false} NobodyUntilAdoption(st: State, steps: seq<Step>)
    requires Runs(st, steps) && st.authority.liveBoots == {}
    requires forall step :: step in steps ==> !step.Adopt?
    ensures After(st, steps).authority.liveBoots == {}
    decreases |steps|
  {
    hide Next, Enabled;
    if steps != [] {
      StepFence(st, steps[0]);
      OnlyAdoptionRevives(st.authority, st.nextBoot, steps[0]);
      hide NextAuthority;
      NobodyUntilAdoption(Next(st, steps[0]).0, steps[1..]);
    }
  }

  /** The boots issued along a run, in order. */
  function Issued(st: State, steps: seq<Step>): seq<Id>
    requires Runs(st, steps)
    decreases |steps|
  {
    if steps == [] then []
    else
      var (next, outcome) := Next(st, steps[0]);
      (if steps[0].Adopt? && outcome.Done? then [outcome.id] else []) + Issued(next, steps[1..])
  }

  /** Boots are issued in strictly increasing order, each newer than all issued before the run. */
  lemma {:induction false} IssuedIncreases(st: State, steps: seq<Step>)
    requires Runs(st, steps) && NoWrap(st.nextBoot, steps)
    ensures forall i :: 0 <= i < |Issued(st, steps)| ==> st.nextBoot < Issued(st, steps)[i] <= After(st, steps).nextBoot
    ensures forall i, j :: 0 <= i < j < |Issued(st, steps)| ==> Issued(st, steps)[i] < Issued(st, steps)[j]
    ensures st.nextBoot <= After(st, steps).nextBoot <= st.nextBoot + |steps|
    decreases |steps|
  {
    hide Enabled, Mutate, Revoked, NewEpoch, Recovered;
    if steps != [] {
      StepFence(st, steps[0]);
      IssuedIncreases(Next(st, steps[0]).0, steps[1..]);
    }
  }

  // ---- loading an older snapshot ----

  function Adoptions(n: nat): seq<Step> {
    if n == 0 then [] else [Adopt(1)] + Adoptions(n - 1)
  }

  lemma {:induction false} AdoptionsReach(st: State, n: nat)
    requires 0 < n && st.nextBoot + n < TWO_64
    ensures |Adoptions(n)| == n && Runs(st, Adoptions(n))
    ensures st.nextBoot + n in After(st, Adoptions(n)).authority.liveBoots
    decreases n
  {
    hide Next, Runs, After, Enabled;
    FirstAdoption(st);
    var next := Next(st, Adopt(1)).0;
    NoMore(next);
    if n > 1 {
      AdoptionsReach(next, n - 1);
    }
    OneMore(st, Adopt(1), Adoptions(n - 1));
  }

  lemma FirstAdoption(st: State)
    requires st.nextBoot + 1 < TWO_64
    ensures Enabled(st, Adopt(1))
    ensures Next(st, Adopt(1)).0.nextBoot == st.nextBoot + 1
      && st.nextBoot + 1 in Next(st, Adopt(1)).0.authority.liveBoots
  {
    hide Adopted, RevokedAuthority;
    AdoptionAuthority(st, 1);
  }

  lemma NoMore(st: State)
    ensures Runs(st, []) && After(st, []) == st
  {
    hide Next, Enabled;
  }

  lemma OneMore(st: State, step: Step, steps: seq<Step>)
    requires Enabled(st, step) && Runs(Next(st, step).0, steps)
    ensures Runs(st, [step] + steps) && After(st, [step] + steps) == After(Next(st, step).0, steps)
  {
    hide Next, Enabled;
    assert ([step] + steps)[1..] == steps;
  }

  /** Loading a snapshot restores its boot counter.  A boot can then become live, possibly a second
      time, exactly when it is newer than that counter: fencing survives the load of a snapshot
      only if no boot was issued after it was taken. */
  lemma ReissuedExactly(snapshot: State, boot: Id)
    ensures snapshot.nextBoot < boot <==>
      exists steps ::
        Runs(Recovered(snapshot), steps) && NoWrap(snapshot.nextBoot, steps)
        && boot in After(Recovered(snapshot), steps).authority.liveBoots
  {
    var st := Recovered(snapshot);
    RestartAuthority(snapshot);
    hide Recovered, Runs, After;
    if snapshot.nextBoot < boot {
      AdoptionsReach(st, boot - snapshot.nextBoot);
    } else {
      forall steps | Runs(st, steps) && NoWrap(snapshot.nextBoot, steps)
        ensures boot !in After(st, steps).authority.liveBoots {
        SpentForGood(st, steps, boot);
      }
    }
  }
}
