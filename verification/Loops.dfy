/** The loops of src/registry.cpp and src/authority.cpp that only compute a value, each proved
    against its specification. */
module Loops {
  import opened Base
  import opened Enums
  import opened Records
  import opened RegistryModel

  // ---- reclassification ----

  /** `aggregate_health` */
  method CollectHealth(inst: Instance, endpoints: map<Id, Endpoint>) returns (h: Health)
    ensures h == AggregateHealth(inst, endpoints)
  {
    h := inst.health;
    for k := 0 to |inst.endpoints|
      invariant h == AggregateHealth(inst.(endpoints := inst.endpoints[..k]), endpoints)
    {
      var e := inst.endpoints[k];
      assert inst.endpoints[..k + 1] == inst.endpoints[..k] + [e];
      if e in endpoints {
        var ep := endpoints[e];
        if ep.health == Health.UNHEALTHY || ep.health == Health.UNAVAILABLE {
          h := Health.UNHEALTHY;
        } else if ep.health == Health.DEGRADED && h != Health.UNHEALTHY {
          h := Health.DEGRADED;
        }
      }
    }
    assert inst.endpoints[..|inst.endpoints|] == inst.endpoints;
  }

  /** `aggregate_reachability` */
  method CollectReachability(inst: Instance, endpoints: map<Id, Endpoint>) returns (r: Reachability)
    ensures r == AggregateReachability(inst, endpoints)
  {
    if inst.endpoints == [] {
      return inst.reachability;
    }
    var degraded := false;
    for k := 0 to |inst.endpoints|
      invariant ScanReachability(inst.endpoints, false, endpoints) ==
        ScanReachability(inst.endpoints[k..], degraded, endpoints)
    {
      var e := inst.endpoints[k];
      assert inst.endpoints[k..][1..] == inst.endpoints[k + 1..];
      if e !in endpoints {
        return Reachability.UNKNOWN;
      }
      var seen := endpoints[e].reachability;
      if seen == Reachability.UNREACHABLE {
        return Reachability.UNREACHABLE;
      }
      if seen == Reachability.DEGRADED {
        degraded := true;
      }
      if seen == Reachability.REVALIDATION_REQUIRED || seen == Reachability.UNKNOWN {
        return Reachability.REVALIDATION_REQUIRED;
      }
    }
    return if degraded then Reachability.DEGRADED else Reachability.REACHABLE;
  }

  /** The search for a current capability of one kind. */
  method FindCapability(inst: Instance, kind: CapabilityKind, capabilities: map<Id, Capability>) returns (found: bool)
    ensures found == Provides(inst, kind, capabilities)
  {
    for k := 0 to |inst.capabilities|
      invariant forall j :: 0 <= j < k && inst.capabilities[j] in capabilities ==>
        capabilities[inst.capabilities[j]].kind != kind
        || capabilities[inst.capabilities[j]].freshness != Freshness.CURRENT
    {
      var c := inst.capabilities[k];
      if c in capabilities && capabilities[c].kind == kind && capabilities[c].freshness == Freshness.CURRENT {
        return true;
      }
    }
    return false;
  }

  method CheckRequired(inst: Instance, services: map<Id, Service>, capabilities: map<Id, Capability>) returns (ok: bool)
    ensures ok == ProvidesRequired(inst, services, capabilities)
  {
    hide Provides;
    if inst.serviceId !in services {
      return true;
    }
    var required := services[inst.serviceId].requiredCapabilities;
    for k := 0 to |required|
      invariant forall j :: 0 <= j < k ==> Provides(inst, required[j], capabilities)
    {
      var found := FindCapability(inst, required[k], capabilities);
      if !found {
        return false;
      }
    }
    return true;
  }

  /** `reclassify_lifecycle` */
  method Reclassify(st: State, inst: Instance) returns (r: Instance)
    ensures r == Reclassified(st, inst)
  {
    hide AggregateHealth, AggregateReachability, LeaseHolds, ProvidesRequired;
    var h := CollectHealth(inst, st.endpoints);
    var reach := CollectReachability(inst, st.endpoints);
    r := inst.(health := h, reachability := reach);
    var able := CheckRequired(r, st.services, st.capabilities);
    if r.boot !in st.authority.liveBoots {
      return r.(lifecycle := Lifecycle.STALE);
    }
    if r.freshness != Freshness.CURRENT {
      return r.(lifecycle := Lifecycle.STALE);
    }
    if reach == Reachability.UNREACHABLE {
      return r.(lifecycle := Lifecycle.UNREACHABLE);
    }
    if reach == Reachability.REVALIDATION_REQUIRED || reach == Reachability.UNKNOWN {
      return r.(lifecycle := Lifecycle.UNREADY);
    }
    if !LeaseHolds(r, st.leases) {
      return r.(lifecycle := Lifecycle.STALE);
    }
    if !able {
      return r.(lifecycle := Lifecycle.UNREADY);
    }
    if r.readiness == Readiness.DRAINING {
      return r.(lifecycle := Lifecycle.DRAINING);
    }
    if r.readiness == Readiness.NOT_READY || r.readiness == Readiness.REVALIDATION_REQUIRED
      || r.readiness == Readiness.UNKNOWN {
      return r.(lifecycle := Lifecycle.UNREADY);
    }
    if h == Health.UNHEALTHY || h == Health.UNAVAILABLE {
      return r.(lifecycle := Lifecycle.UNREADY);
    }
    if h == Health.DEGRADED || r.readiness == Readiness.PARTIALLY_READY || reach == Reachability.DEGRADED {
      return r.(lifecycle := Lifecycle.DEGRADED);
    }
    return r.(lifecycle := Lifecycle.AVAILABLE);
  }

  // ---- tombstones ----

  /** `covered_by_tombstone` */
  method FindTombstone(tombstones: map<Id, Tombstone>, kind: Bytes, id: Id, generation: Generation) returns (r: bool)
    ensures r == Covered(tombstones, kind, id, generation)
  {
    hide Covers;
    var left := tombstones.Keys;
    while left != {}
      invariant left <= tombstones.Keys
      invariant forall k :: k in tombstones && k !in left ==> !Covers(tombstones[k], kind, id, generation)
      decreases |left|
    {
      var k :| k in left;
      left := left - {k};
      if Covers(tombstones[k], kind, id, generation) {
        return true;
      }
    }
    return false;
  }

  // ---- the current instance ----

  /** The scan of `register_instance`, in whatever order the map is walked. */
  method FindCurrent(instances: map<Id, Instance>, service: Id) returns (current: Option<Id>)
    ensures IsCurrent(instances, service, current)
  {
    current := None;
    var left := instances.Keys;
    while left != {}
      invariant left <= instances.Keys
      invariant current.Some? ==> Standing(instances, current.value, service)
      invariant forall i :: i in instances && i !in left && Standing(instances, i, service) ==>
        current.Some? && instances[i].instanceGeneration <= instances[current.value].instanceGeneration
      decreases |left|
    {
      var i :| i in left;
      left := left - {i};
      if instances[i].serviceId == service && !instances[i].lifecycle.Terminal() {
        if current == None || instances[i].instanceGeneration > instances[current.value].instanceGeneration {
          current := Some(i);
        }
      }
    }
  }

  // ---- indexes ----

  /** `index[k].insert(v)` */
  function Inserted<K>(m: map<K, set<Id>>, k: K, v: Id): map<K, set<Id>> {
    m[k := (if k in m then m[k] else {}) + {v}]
  }

  lemma GroupedOneMore<K>(pairs: set<(K, Id)>, k: K, v: Id)
    ensures Grouped(pairs + {(k, v)}) == Inserted(Grouped(pairs), k, v)
  {
    var a, b := Grouped(pairs + {(k, v)}), Inserted(Grouped(pairs), k, v);
    assert Keys(pairs + {(k, v)}) == Keys(pairs) + {k};
    assert a.Keys == b.Keys;
    forall j | j in a ensures a[j] == b[j] {
      assert forall p :: p in pairs + {(k, v)} <==> p in pairs || p == (k, v);
      if j == k && k !in Grouped(pairs) {
        assert forall p :: p in pairs ==> p.0 != k;
      }
    }
  }

  /** The pairs of one kind found in some instances. */
  function PairsOf<K(==)>(instances: map<Id, Instance>, pair: Instance -> Option<(K, Id)>): set<(K, Id)> {
    set i | i in instances && pair(instances[i]).Some? :: pair(instances[i]).value
  }

  lemma PairsOneMore<K>(seen: map<Id, Instance>, i: Id, inst: Instance, pair: Instance -> Option<(K, Id)>)
    requires i !in seen
    ensures PairsOf(seen[i := inst], pair) == PairsOf(seen, pair) + if pair(inst).Some? then {pair(inst).value} else {}
  {
    var more := seen[i := inst];
    assert more[i] == inst;
    assert forall j :: j in seen ==> more[j] == seen[j];
    forall p | p in PairsOf(seen, pair) ensures p in PairsOf(more, pair) {
      var j :| j in seen && pair(seen[j]).Some? && pair(seen[j]).value == p;
      assert j in more;
    }
  }

  function KindPair(services: map<Id, Service>): Instance -> Option<(ServiceKind, Id)> {
    (x: Instance) => if x.serviceId in services then Some((services[x.serviceId].kind, x.serviceId)) else None
  }

  function ServicePair(x: Instance): Option<(Id, Id)> { Some((x.serviceId, x.instanceId)) }
  function BootPair(x: Instance): Option<(Id, Id)> { Some((x.boot, x.instanceId)) }
  function NodePair(x: Instance): Option<(Id, Id)> { Some((x.node, x.instanceId)) }

  lemma PairsAre(services: map<Id, Service>, instances: map<Id, Instance>)
    ensures KindPairs(services, instances) == PairsOf(instances, KindPair(services))
    ensures ServicePairs(instances) == PairsOf(instances, ServicePair)
    ensures BootPairs(instances) == PairsOf(instances, BootPair)
    ensures NodePairs(instances) == PairsOf(instances, NodePair)
  {
  }

  /** Indexing one more instance. */
  lemma RebuiltOneMore(services: map<Id, Service>, seen: map<Id, Instance>, i: Id, inst: Instance)
    requires i !in seen
    ensures
      var r := Rebuilt(services, seen);
      var linked := r.(byService := Inserted(r.byService, inst.serviceId, inst.instanceId),
                       byBoot := Inserted(r.byBoot, inst.boot, inst.instanceId),
                       byNode := Inserted(r.byNode, inst.node, inst.instanceId));
      Rebuilt(services, seen[i := inst]) ==
        if inst.serviceId in services then
          linked.(byKind := Inserted(r.byKind, services[inst.serviceId].kind, inst.serviceId)) else linked
  {
    hide Grouped, Inserted, PairsOf, KindPairs, ServicePairs, BootPairs, NodePairs;
    var more := seen[i := inst];
    PairsAre(services, seen);
    PairsAre(services, more);
    PairsOneMore(seen, i, inst, KindPair(services));
    PairsOneMore(seen, i, inst, ServicePair);
    PairsOneMore(seen, i, inst, BootPair);
    PairsOneMore(seen, i, inst, NodePair);
    GroupedOneMore(ServicePairs(seen), inst.serviceId, inst.instanceId);
    GroupedOneMore(BootPairs(seen), inst.boot, inst.instanceId);
    GroupedOneMore(NodePairs(seen), inst.node, inst.instanceId);
    if inst.serviceId in services {
      GroupedOneMore(KindPairs(services, seen), services[inst.serviceId].kind, inst.serviceId);
      assert KindPair(services)(inst) == Some((services[inst.serviceId].kind, inst.serviceId));
    } else {
      assert KindPairs(services, more) == KindPairs(services, seen);
    }
    assert ServicePairs(more) == ServicePairs(seen) + {(inst.serviceId, inst.instanceId)};
    assert BootPairs(more) == BootPairs(seen) + {(inst.boot, inst.instanceId)};
    assert NodePairs(more) == NodePairs(seen) + {(inst.node, inst.instanceId)};
  }

  lemma RebuiltNothing(services: map<Id, Service>)
    ensures Rebuilt(services, map[]) == Indexes(map[], map[], map[], map[])
  {
  }

  /** `rebuild_indexes` */
  method RebuildIndexes(services: map<Id, Service>, instances: map<Id, Instance>) returns (r: Indexes)
    ensures r == Rebuilt(services, instances)
  {
    hide Rebuilt, Inserted;
    r := Indexes(map[], map[], map[], map[]);
    RebuiltNothing(services);
    var left := instances.Keys;
    ghost var seen: map<Id, Instance> := map[];
    while left != {}
      invariant left <= instances.Keys
      invariant seen == map i | i in instances && i !in left :: instances[i]
      invariant r == Rebuilt(services, seen)
      decreases |left|
    {
      var i :| i in left;
      left := left - {i};
      var inst := instances[i];
      RebuiltOneMore(services, seen, i, inst);
      if inst.serviceId in services {
        r := r.(byKind := Inserted(r.byKind, services[inst.serviceId].kind, inst.serviceId));
      }
      r := r.(byService := Inserted(r.byService, inst.serviceId, inst.instanceId),
              byBoot := Inserted(r.byBoot, inst.boot, inst.instanceId),
              byNode := Inserted(r.byNode, inst.node, inst.instanceId));
      seen := seen[i := inst];
    }
    assert seen == instances;
  }
}
