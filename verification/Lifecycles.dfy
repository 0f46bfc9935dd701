/** What a lifecycle means.  `reclassify_lifecycle` is a cascade over aggregated statuses; here each
    of its six results is described by the fields of the instance, its endpoints, its lease and the
    capabilities of its service alone. */
module Lifecycles {
  import opened Base
  import opened Enums
  import opened Records
  import opened RegistryModel

  // ---- the process and its evidence ----

  predicate Trusted(st: State, inst: Instance) {
    inst.boot in st.authority.liveBoots && inst.freshness == Freshness.CURRENT
  }

  predicate LeaseInForce(st: State, inst: Instance) {
    inst.lease == 0 || (inst.lease in st.leases && st.leases[inst.lease].state == LeaseState.ACTIVE)
  }

  /** The instance lists a current capability of every kind its service requires. */
  predicate Equipped(st: State, inst: Instance) {
    inst.serviceId !in st.services ||
    forall kind :: kind in st.services[inst.serviceId].requiredCapabilities ==>
      exists c :: (
        && c in inst.capabilities && c in st.capabilities
        && st.capabilities[c].kind == kind && st.capabilities[c].freshness == Freshness.CURRENT)
  }

  // ---- reachability ----

  /** The instance cannot be reached this way. */
  predicate Lost(r: Reachability) {
    r == Reachability.UNREACHABLE
  }

  /** Whether it can be reached this way has to be found out. */
  predicate Unproven(r: Reachability) {
    r == Reachability.REVALIDATION_REQUIRED || r == Reachability.UNKNOWN
  }

  predicate Open(st: State, e: Id) {
    e in st.endpoints && !Lost(st.endpoints[e].reachability) && !Unproven(st.endpoints[e].reachability)
  }

  /** The endpoint at `k` is the first that is not open. */
  predicate FirstShut(st: State, ids: seq<Id>, k: nat) {
    k < |ids| && !Open(st, ids[k]) && forall j :: 0 <= j < k ==> Open(st, ids[j])
  }

  /** Every endpoint is open; without endpoints the instance speaks for itself. */
  predicate AllOpen(st: State, inst: Instance) {
    if inst.endpoints == [] then !Lost(inst.reachability) && !Unproven(inst.reachability)
    else forall e :: e in inst.endpoints ==> Open(st, e)
  }

  /** The first endpoint that is not open is registered and lost. */
  predicate CutOff(st: State, inst: Instance) {
    if inst.endpoints == [] then Lost(inst.reachability)
    else exists k :: (
      && 0 <= k < |inst.endpoints| && FirstShut(st, inst.endpoints, k)
      && inst.endpoints[k] in st.endpoints && Lost(st.endpoints[inst.endpoints[k]].reachability))
  }

  /** The first endpoint that is not open is unregistered or unproven. */
  predicate Unconfirmed(st: State, inst: Instance) {
    if inst.endpoints == [] then Unproven(inst.reachability)
    else exists k :: (
      && 0 <= k < |inst.endpoints| && FirstShut(st, inst.endpoints, k)
      && (inst.endpoints[k] in st.endpoints ==> Unproven(st.endpoints[inst.endpoints[k]].reachability)))
  }

  /** Some endpoint is slow; without endpoints the instance speaks for itself. */
  predicate Slow(st: State, inst: Instance) {
    if inst.endpoints == [] then inst.reachability == Reachability.DEGRADED
    else exists e :: e in inst.endpoints && e in st.endpoints && st.endpoints[e].reachability == Reachability.DEGRADED
  }

  // ---- health ----

  predicate SickEndpoint(st: State, inst: Instance) {
    exists e :: (
      && e in inst.endpoints && e in st.endpoints
      && (st.endpoints[e].health == Health.UNHEALTHY || st.endpoints[e].health == Health.UNAVAILABLE))
  }

  predicate WeakEndpoint(st: State, inst: Instance) {
    exists e :: e in inst.endpoints && e in st.endpoints && st.endpoints[e].health == Health.DEGRADED
  }

  /** A weak endpoint covers up that the instance itself is unavailable. */
  predicate Sick(st: State, inst: Instance) {
    || SickEndpoint(st, inst) || inst.health == Health.UNHEALTHY
    || (inst.health == Health.UNAVAILABLE && !WeakEndpoint(st, inst))
  }

  predicate Weak(st: State, inst: Instance) {
    WeakEndpoint(st, inst) || inst.health == Health.DEGRADED
  }

  predicate Unready(r: Readiness) {
    r == Readiness.NOT_READY || r == Readiness.REVALIDATION_REQUIRED || r == Readiness.UNKNOWN
  }

  /** Process, endpoints, lease and capabilities are in order; what is left is readiness and health. */
  predicate Grounded(st: State, inst: Instance) {
    Trusted(st, inst) && AllOpen(st, inst) && LeaseInForce(st, inst) && Equipped(st, inst)
  }

  // ---- what the aggregates mean ----

  /** What an endpoint that is not open makes of the instance that lists it first. */
  function ShutAs(st: State, e: Id): Reachability {
    if e !in st.endpoints then Reachability.UNKNOWN
    else if Lost(st.endpoints[e].reachability) then Reachability.UNREACHABLE
    else Reachability.REVALIDATION_REQUIRED
  }

  lemma {:induction false} ScanMeans(st: State, ids: seq<Id>, degraded: bool)
    ensures
      var r := ScanReachability(ids, degraded, st.endpoints);
      && ((exists k: nat :: FirstShut(st, ids, k)) || forall e :: e in ids ==> Open(st, e))
      && (forall k: nat :: FirstShut(st, ids, k) ==> r == ShutAs(st, ids[k]))
      && ((forall e :: e in ids ==> Open(st, e)) ==>
            r == if degraded || exists e :: e in ids && st.endpoints[e].reachability == Reachability.DEGRADED
                 then Reachability.DEGRADED else Reachability.REACHABLE)
    decreases |ids|
  {
    if ids != [] {
      var e, rest := ids[0], ids[1..];
      assert ids == [e] + rest;
      if Open(st, e) {
        ScanMeans(st, rest, degraded || st.endpoints[e].reachability == Reachability.DEGRADED);
        forall k: nat ensures FirstShut(st, ids, k + 1) <==> FirstShut(st, rest, k) {
          ShutLater(st, ids, k);
        }
        forall k: nat | FirstShut(st, ids, k) ensures k > 0 && FirstShut(st, rest, k - 1) && ids[k] == rest[k - 1] {
        }
      } else {
        assert FirstShut(st, ids, 0);
      }
    }
  }

  lemma ShutLater(st: State, ids: seq<Id>, k: nat)
    requires ids != [] && Open(st, ids[0])
    ensures FirstShut(st, ids, k + 1) <==> FirstShut(st, ids[1..], k)
  {
    hide Open;
    if k < |ids[1..]| {
      assert forall j :: 0 < j <= k ==> ids[j] == ids[1..][j - 1];
    }
  }

  lemma AggregateMeans(st: State, inst: Instance)
    ensures
      var r := AggregateReachability(inst, st.endpoints);
      && (Lost(r) <==> CutOff(st, inst)) && (Unproven(r) <==> Unconfirmed(st, inst))
      && (AllOpen(st, inst) <==> !Lost(r) && !Unproven(r))
      && (AllOpen(st, inst) ==> (r == Reachability.DEGRADED <==> Slow(st, inst)))
  {
    hide FirstShut, ScanReachability;
    if inst.endpoints != [] {
      ScanMeans(st, inst.endpoints, false);
      if exists e :: e in inst.endpoints && !Open(st, e) {
        var k: nat :| FirstShut(st, inst.endpoints, k);
        ShutIsShut(st, inst.endpoints, k);
        forall j: nat | FirstShut(st, inst.endpoints, j) ensures j == k {
          OneFirst(st, inst.endpoints, j, k);
        }
      } else {
        forall k: nat | FirstShut(st, inst.endpoints, k) ensures false {
          ShutIsShut(st, inst.endpoints, k);
        }
      }
    }
  }

  lemma ShutIsShut(st: State, ids: seq<Id>, k: nat)
    requires FirstShut(st, ids, k)
    ensures k < |ids| && ids[k] in ids && !Open(st, ids[k])
  {
  }

  lemma OneFirst(st: State, ids: seq<Id>, j: nat, k: nat)
    requires FirstShut(st, ids, j) && FirstShut(st, ids, k)
    ensures j == k
  {
    hide Open;
  }

  lemma HealthMeans(st: State, inst: Instance)
    ensures
      var h := AggregateHealth(inst, st.endpoints);
      && (h == Health.UNHEALTHY || h == Health.UNAVAILABLE <==> Sick(st, inst))
      && (!Sick(st, inst) ==> (h == Health.DEGRADED <==> Weak(st, inst)))
  {
  }

  // ---- the six lifecycles ----

  /** Readiness and health leave something to wait for. */
  predicate Waiting(st: State, inst: Instance) {
    inst.readiness != Readiness.DRAINING && (Unready(inst.readiness) || Sick(st, inst))
  }

  /** Readiness, health or endpoints fall short of full service. */
  predicate Limited(st: State, inst: Instance) {
    inst.readiness == Readiness.PARTIALLY_READY || Weak(st, inst) || Slow(st, inst)
  }

  /** Exactly when an instance is given each of the six lifecycles; it is never given another. */
  lemma ClassifiedExactly(st: State, inst: Instance)
    ensures
      var l := Reclassified(st, inst).lifecycle;
      && (l == Lifecycle.STALE <==> !Trusted(st, inst) || (AllOpen(st, inst) && !LeaseInForce(st, inst)))
      && (l == Lifecycle.UNREACHABLE <==> Trusted(st, inst) && CutOff(st, inst))
      && (l == Lifecycle.UNREADY <==>
            && Trusted(st, inst)
            && (|| Unconfirmed(st, inst)
                || (AllOpen(st, inst) && LeaseInForce(st, inst) && (Equipped(st, inst) ==> Waiting(st, inst)))))
      && (l == Lifecycle.DRAINING <==> Grounded(st, inst) && inst.readiness == Readiness.DRAINING)
      && (l == Lifecycle.DEGRADED <==>
            Grounded(st, inst) && inst.readiness != Readiness.DRAINING && !Waiting(st, inst) && Limited(st, inst))
      && (l == Lifecycle.AVAILABLE <==>
            Grounded(st, inst) && inst.readiness != Readiness.DRAINING && !Waiting(st, inst) && !Limited(st, inst))
      && (l == Lifecycle.STALE || l == Lifecycle.UNREACHABLE || l == Lifecycle.UNREADY
          || l == Lifecycle.DRAINING || l == Lifecycle.DEGRADED || l == Lifecycle.AVAILABLE)
  {
    AggregateMeans(st, inst);
    HealthMeans(st, inst);
    assert LeaseHolds(inst, st.leases) <==> LeaseInForce(st, inst);
    assert ProvidesRequired(inst, st.services, st.capabilities) <==> Equipped(st, inst);
    hide AggregateReachability, AggregateHealth, LeaseHolds, ProvidesRequired, LeaseInForce, Equipped, Sick, Weak, Slow,
         CutOff, Unconfirmed, AllOpen;
  }

  /** Beside the lifecycle only health and reachability are computed: the worst of the endpoints'
      health and its own, and what the first endpoint that is not open makes of it. */
  lemma StatusExactly(st: State, inst: Instance)
    ensures
      var next := Reclassified(st, inst);
      && next.(health := inst.health, reachability := inst.reachability, lifecycle := inst.lifecycle) == inst
      && (next.health == Health.UNHEALTHY <==> SickEndpoint(st, inst) || inst.health == Health.UNHEALTHY)
      && (next.health != Health.UNHEALTHY ==>
            next.health == if WeakEndpoint(st, inst) then Health.DEGRADED else inst.health)
      && (inst.endpoints == [] ==> next.reachability == inst.reachability)
      && (forall k: nat :: FirstShut(st, inst.endpoints, k) ==> next.reachability == ShutAs(st, inst.endpoints[k]))
      && (inst.endpoints != [] && AllOpen(st, inst) ==>
            next.reachability == if Slow(st, inst) then Reachability.DEGRADED else Reachability.REACHABLE)
  {
    ScanMeans(st, inst.endpoints, false);
    assert inst.endpoints == [] ==> forall k: nat :: !FirstShut(st, inst.endpoints, k);
    hide Classify, FirstShut, ScanReachability, ShutAs;
  }
}
