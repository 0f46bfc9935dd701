/** What is left of a registry when processes are gone: after recovery and a new epoch, when none is
    trusted any more, and after the death of one.  Whatever authority is granted later, what depended
    on a lost process does not serve before it is confirmed again. */
module Outages {
  import opened Base
  import opened Enums
  import opened Records
  import opened RegistryModel
  import opened QueryModel
  import opened Lifecycles
  import opened Outcomes

  // ---- recovery and new epochs ----

  /** `st` after recovery or in a new epoch, and whatever authority was granted since. */
  predicate Restarted(st: State, r: State) {
    r == Recovered(st).(authority := r.authority) || r == NewEpoch(st).(authority := r.authority)
  }

  /** What a restart is about. */
  datatype Parts = Parts(
    services: map<Id, Service>, instances: map<Id, Instance>, endpoints: map<Id, Endpoint>,
    capabilities: map<Id, Capability>, leases: map<Id, Lease>)

  function PartsOf(st: State): Parts {
    Parts(st.services, st.instances, st.endpoints, st.capabilities, st.leases)
  }

  function RestartedPartsOf(st: State): Parts {
    Parts(st.services, RecoveredInstances(st.instances), RecoveredEndpoints(st.endpoints),
          RecoveredCapabilities(st.capabilities), RecoveredLeases(st.leases))
  }

  /** What a restart is not about. */
  function RestOf(st: State): State {
    st.(authority := INITIAL.authority, instances := map[], endpoints := map[], capabilities := map[], leases := map[],
        indexes := INITIAL.indexes)
  }

  lemma RecoveredPartsAre(st: State)
    ensures PartsOf(Recovered(st)) == RestartedPartsOf(st) && RestOf(Recovered(st)) == RestOf(st)
  {
    hide RecoveredInstances, RecoveredEndpoints, RecoveredCapabilities, RecoveredLeases, Rebuilt, INITIAL;
  }

  lemma NewEpochPartsAre(st: State)
    ensures PartsOf(NewEpoch(st)) == RestartedPartsOf(st) && RestOf(NewEpoch(st)) == RestOf(st)
  {
    hide RecoveredInstances, RecoveredEndpoints, RecoveredCapabilities, RecoveredLeases, INITIAL;
  }

  lemma AuthorityApart(st: State, a: Authority)
    ensures PartsOf(st.(authority := a)) == PartsOf(st) && RestOf(st.(authority := a)) == RestOf(st)
  {
  }

  lemma RestartedParts(st: State, r: State)
    requires Restarted(st, r)
    ensures PartsOf(r) == RestartedPartsOf(st) && RestOf(r) == RestOf(st)
  {
    hide Recovered, NewEpoch, PartsOf, RestOf, RestartedPartsOf;
    RecoveredPartsAre(st);
    NewEpochPartsAre(st);
    AuthorityApart(Recovered(st), r.authority);
    AuthorityApart(NewEpoch(st), r.authority);
  }

  /** The endpoint lives on this machine, or over TCP. */
  predicate Perishable(ep: Endpoint) {
    ep.transport in {TransportKind.TCP, TransportKind.LOCAL_IPC, TransportKind.IN_PROCESS}
  }

  /** The evidence came from looking at the machine. */
  predicate Observed(p: Provenance) {
    p.kind in {EvidenceKind.MEASURED, EvidenceKind.REPORTED, EvidenceKind.DERIVED}
  }

  /** The service requires a kind of which the instance lists observed capabilities only, if any. */
  predicate RestsOnObservation(st: State, inst: Instance) {
    && inst.serviceId in st.services
    && exists kind ::
         && kind in st.services[inst.serviceId].requiredCapabilities
         && forall c ::
              c in inst.capabilities && c in st.capabilities && st.capabilities[c].kind == kind ==>
                Observed(st.capabilities[c].provenance)
  }

  /** What an instance that depended on lost processes is made of. */
  predicate Dependent(st: State, inst: Instance) {
    || inst.lease != 0
    || (exists e :: e in inst.endpoints && e in st.endpoints && Perishable(st.endpoints[e]))
    || RestsOnObservation(st, inst)
  }

  /** The instance gives service of some sort. */
  predicate InService(l: Lifecycle) {
    l in {Lifecycle.AVAILABLE, Lifecycle.DEGRADED, Lifecycle.DRAINING}
  }

  lemma NotInService(st: State, inst: Instance)
    ensures InService(Reclassified(st, inst).lifecycle) ==> Grounded(st, inst)
  {
    ClassifiedExactly(st, inst);
    hide Reclassified, Grounded, Waiting, Limited;
  }

  /** No lease is active after a restart. */
  lemma NoLeaseSurvives(st: State, r: State)
    requires Restarted(st, r)
    ensures forall l :: l in r.leases ==> r.leases[l].state != LeaseState.ACTIVE
  {
    RestartedParts(st, r);
    hide Restarted;
  }

  lemma PerishedEndpoint(st: State, r: State, e: Id)
    requires Restarted(st, r) && e in st.endpoints && Perishable(st.endpoints[e])
    ensures e in r.endpoints && !Open(r, e)
  {
    RestartedParts(st, r);
    hide Restarted;
  }

  lemma ObservationIsLost(st: State, r: State, inst: Instance)
    requires Restarted(st, r) && RestsOnObservation(st, inst)
    ensures !Equipped(r, inst)
  {
    RestartedParts(st, r);
    hide Restarted;
    var kind :|
      && kind in st.services[inst.serviceId].requiredCapabilities
      && forall c ::
           c in inst.capabilities && c in st.capabilities && st.capabilities[c].kind == kind ==>
             Observed(st.capabilities[c].provenance);
    forall c | c in r.capabilities
      ensures c in st.capabilities && r.capabilities[c] == RecoveredCapability(st.capabilities[c])
    {
    }
    hide RecoveredCapabilities;
  }

  /** After a restart no instance, stored or new, gives service while it has a lease, an endpoint
      of the machine or over TCP, or needs observed capabilities: whoever holds authority. */
  lemma RestartSuspends(st: State, r: State, inst: Instance)
    requires Restarted(st, r) && Dependent(st, inst)
    ensures !InService(Reclassified(r, inst).lifecycle)
  {
    NotInService(r, inst);
    if inst.lease != 0 {
      NoLeaseSurvives(st, r);
      hide Restarted, Reclassified, AllOpen, Equipped;
    } else if e :| e in inst.endpoints && e in st.endpoints && Perishable(st.endpoints[e]) {
      PerishedEndpoint(st, r, e);
      hide Restarted, Reclassified, Equipped, Open;
    } else {
      ObservationIsLost(st, r, inst);
      hide Restarted, Reclassified, AllOpen, Equipped;
    }
  }

  /** What was in service or unready is unready, and answers no query for current evidence. */
  lemma RestartWithdraws(st: State, r: State, i: Id, q: RegistryQuery, a: Answer)
    requires Restarted(st, r) && i in st.instances
    requires st.instances[i].lifecycle in {Lifecycle.AVAILABLE, Lifecycle.DEGRADED, Lifecycle.UNREADY}
    ensures i in r.instances && r.instances[i].lifecycle == Lifecycle.UNREADY
    ensures q.freshness == Freshness.CURRENT && IsAnswer(r, q, a) ==> i !in IdsOf(a.ranked)
  {
    RestartedParts(st, r);
    assert r.instances[i] == RecoveredInstance(st.instances[i]);
    hide Restarted, RecoveredInstances, IsAnswer, Fits, Able, ReadyEnough, HealthyEnough, ReachableEnough, Wanted;
    if IsAnswer(r, q, a) {
      RankedExactly(r, q, a, i);
    }
  }

  /** Everything else about every record is as it was. */
  lemma RestartKeepsTheRest(st: State, r: State)
    requires Restarted(st, r)
    ensures r.(authority := st.authority, instances := st.instances, endpoints := st.endpoints,
               capabilities := st.capabilities, leases := st.leases, indexes := st.indexes) == st
    ensures r.instances.Keys == st.instances.Keys && r.endpoints.Keys == st.endpoints.Keys
    ensures r.capabilities.Keys == st.capabilities.Keys && r.leases.Keys == st.leases.Keys
    ensures forall i :: i in st.instances ==>
      var was, now := st.instances[i], r.instances[i];
      && now == was.(freshness := now.freshness, reachability := now.reachability, lifecycle := now.lifecycle,
           updatedMs := 0)
      && (was.lifecycle in {Lifecycle.AVAILABLE, Lifecycle.DEGRADED, Lifecycle.UNREADY} ==>
            && now.freshness == Freshness.REVALIDATION_REQUIRED
            && now.reachability == Reachability.REVALIDATION_REQUIRED)
      && (was.lifecycle !in {Lifecycle.AVAILABLE, Lifecycle.DEGRADED, Lifecycle.UNREADY} ==>
            now == was.(updatedMs := 0))
    ensures forall e :: e in st.endpoints ==>
      var was, now := st.endpoints[e], r.endpoints[e];
      && now == was.(freshness := now.freshness, reachability := now.reachability)
      && now.reachability == (if Perishable(was) then Reachability.REVALIDATION_REQUIRED else was.reachability)
      && now.freshness ==
           if Perishable(was) && was.transport != TransportKind.TCP then Freshness.REVALIDATION_REQUIRED
             else was.freshness
    ensures forall c :: c in st.capabilities ==>
      var was, now := st.capabilities[c], r.capabilities[c];
      && now == was.(freshness := now.freshness)
      && now.freshness ==
           if was.freshness == Freshness.CURRENT && Observed(was.provenance) then Freshness.REVALIDATION_REQUIRED
           else was.freshness
    ensures forall l :: l in st.leases ==>
      var was, now := st.leases[l], r.leases[l];
      now == if was.state == LeaseState.ACTIVE then was.(state := LeaseState.REVALIDATION_REQUIRED) else was
  {
    hide Restarted;
    RestartedParts(st, r);
    RestIsAll(st, r);
  }

  lemma RestIsAll(st: State, r: State)
    requires RestOf(r) == RestOf(st)
    ensures r.(authority := st.authority, instances := st.instances, endpoints := st.endpoints,
               capabilities := st.capabilities, leases := st.leases, indexes := st.indexes) == st
  {
    hide INITIAL;
  }

  // ---- the death of one process ----

  /** `st` after the death of a live boot, and whatever authority was granted since. */
  predicate Bereaved(st: State, boot: Id, r: State) {
    boot in st.authority.liveBoots && r == Revoked(st, boot).(authority := r.authority)
  }

  /** An instance of the boot listed the endpoint and owned it. */
  predicate HeldBy(st: State, boot: Id, e: Id) {
    e in st.endpoints &&
    exists i :: (
      && i in st.instances && st.instances[i].boot == boot && e in st.instances[i].endpoints
      && st.endpoints[e].serviceInstance == st.instances[i].instanceId)
  }

  /** An instance of the boot names the lease. */
  predicate LeaseOf(st: State, boot: Id, l: Id) {
    l != 0 && exists i :: i in st.instances && st.instances[i].boot == boot && st.instances[i].lease == l
  }

  lemma BereavedParts(st: State, boot: Id, r: State)
    requires Bereaved(st, boot, r)
    ensures r.instances == RevokedInstances(st.instances, boot)
    ensures r.endpoints == RevokedEndpoints(st.endpoints, boot, st.instances)
    ensures r.leases == RevokedLeases(st.leases, boot, st.instances)
    ensures r.(authority := st.authority, instances := st.instances, endpoints := st.endpoints,
      leases := st.leases) == st
  {
    hide RevokedInstances, RevokedEndpoints, RevokedLeases, RevokedAuthority;
  }

  /** An endpoint the dead process held has no owner and is out of reach; nothing else about it has
      changed.  So no instance that lists it gives service, whoever registers it. */
  lemma DeathReleases(st: State, boot: Id, r: State, e: Id, inst: Instance)
    requires Bereaved(st, boot, r) && HeldBy(st, boot, e)
    ensures e in r.endpoints
    ensures r.endpoints[e] == st.endpoints[e].(serviceInstance := 0, reachability := Reachability.UNREACHABLE)
    ensures e in inst.endpoints ==> !InService(Reclassified(r, inst).lifecycle)
  {
    BereavedParts(st, boot, r);
    assert ClaimedBy(boot, e, st.endpoints[e], st.instances);
    hide Bereaved;
    NotInService(r, inst);
    hide RevokedInstances, RevokedLeases, ClaimedBy, Reclassified, LeaseInForce, Equipped;
  }

  /** Nor does one that names a lease of the dead process. */
  lemma DeathEndsLeases(st: State, boot: Id, r: State, l: Id, inst: Instance)
    requires Bereaved(st, boot, r) && LeaseOf(st, boot, l)
    ensures l in r.leases ==> r.leases[l].state != LeaseState.ACTIVE
    ensures inst.lease == l ==> !InService(Reclassified(r, inst).lifecycle)
  {
    BereavedParts(st, boot, r);
    assert LeasedTo(boot, l, st.instances);
    hide Bereaved;
    NotInService(r, inst);
    hide RevokedInstances, RevokedEndpoints, LeasedTo, Reclassified, AllOpen, Equipped;
  }

  /** Its instances are stale, unreachable and not ready, and answer no query; nothing else about
      them has changed. */
  lemma DeathWithdraws(st: State, boot: Id, r: State, i: Id, q: RegistryQuery, a: Answer)
    requires Bereaved(st, boot, r) && i in st.instances && st.instances[i].boot == boot
    ensures i in r.instances
    ensures r.instances[i] == st.instances[i].(
      lifecycle := Lifecycle.STALE, freshness := Freshness.STALE,
      reachability := Reachability.UNREACHABLE, readiness := Readiness.NOT_READY)
    ensures IsAnswer(r, q, a) ==> i !in IdsOf(a.ranked)
  {
    BereavedParts(st, boot, r);
    assert r.instances[i] == Dead(st.instances[i]);
    hide Bereaved, RevokedInstances, IsAnswer, Fits, Able, ReadyEnough, HealthyEnough, ReachableEnough, Wanted;
    if IsAnswer(r, q, a) {
      RankedExactly(r, q, a, i);
    }
  }

  /** Nothing of any other process has changed, and no record of another sort. */
  lemma DeathSparesOthers(st: State, boot: Id, r: State)
    requires Bereaved(st, boot, r)
    ensures r.(authority := st.authority, instances := st.instances, endpoints := st.endpoints,
      leases := st.leases) == st
    ensures r.instances.Keys == st.instances.Keys && r.endpoints.Keys == st.endpoints.Keys
      && r.leases.Keys == st.leases.Keys
    ensures forall i :: i in st.instances && st.instances[i].boot != boot ==> r.instances[i] == st.instances[i]
    ensures forall e :: e in st.endpoints && !HeldBy(st, boot, e) ==> r.endpoints[e] == st.endpoints[e]
    ensures forall l :: l in st.leases ==>
      r.leases[l] ==
        if LeaseOf(st, boot, l) && st.leases[l].state == LeaseState.ACTIVE then
          st.leases[l].(state := LeaseState.EXPIRED)
        else st.leases[l]
  {
    BereavedParts(st, boot, r);
    hide Bereaved;
    forall e | e in st.endpoints ensures ClaimedBy(boot, e, st.endpoints[e], st.instances) <==> HeldBy(st, boot, e) { }
    forall l ensures LeasedTo(boot, l, st.instances) <==> LeaseOf(st, boot, l) { }
    hide ClaimedBy, HeldBy, LeasedTo, LeaseOf;
  }
}
