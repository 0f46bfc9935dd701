/** `check_invariants`: what it reports, and that no reachable state gives it anything to report. */
module SelfCheck {
  import opened Base
  import opened Enums
  import opened Records
  import opened RegistryModel
  import opened RegistryInvariants

  datatype Violation =
    | IndexDisagrees(service: Id) | UnknownService(instance: Id)
    | UnknownEndpoint(instance: Id, endpoint: Id) | StaleAvailable(instance: Id)

  /** The identities of the instances of a service, as `instance_index_by_service` lists them. */
  function InstancesOf(instances: map<Id, Instance>, service: Id): set<Id> {
    set i | i in instances && instances[i].serviceId == service
  }

  predicate IndexAgrees(indexes: Indexes, instances: map<Id, Instance>, service: Id) {
    service in indexes.byService && |indexes.byService[service]| == |InstancesOf(instances, service)|
  }

  predicate Untrusted(st: State, i: Id)
    requires i in st.instances
  {
    st.instances[i].lifecycle == Lifecycle.AVAILABLE
    && (st.instances[i].boot !in st.authority.liveBoots || st.instances[i].freshness != Freshness.CURRENT)
  }

  /** The violations of a state. */
  predicate IsViolation(st: State, v: Violation) {
    match v
    case IndexDisagrees(s) => InstancesOf(st.instances, s) != {} && !IndexAgrees(st.indexes, st.instances, s)
    case UnknownService(i) => i in st.instances && st.instances[i].serviceId !in st.services
    case UnknownEndpoint(i, e) => i in st.instances && e in st.instances[i].endpoints && e !in st.endpoints
    case StaleAvailable(i) => i in st.instances && Untrusted(st, i)
  }

  // ---- the check ----

  method CheckEndpoints(ids: seq<Id>, i: Id, endpoints: map<Id, Endpoint>) returns (found: seq<Violation>)
    ensures forall v ::
      v in found <==> v.UnknownEndpoint? && v.instance == i && v.endpoint in ids && v.endpoint !in endpoints
  {
    found := [];
    for k := 0 to |ids|
      invariant forall v ::
        v in found <==> v.UnknownEndpoint? && v.instance == i && v.endpoint in ids[..k] && v.endpoint !in endpoints
    {
      assert ids[..k + 1] == ids[..k] + [ids[k]];
      if ids[k] !in endpoints {
        found := found + [UnknownEndpoint(i, ids[k])];
      }
    }
    assert ids[..|ids|] == ids;
  }

  predicate About(v: Violation, i: Id) {
    !v.IndexDisagrees? && v.instance == i
  }

  /** The body of the loop over the instances. */
  method CheckInstance(st: State, i: Id) returns (found: seq<Violation>)
    requires i in st.instances
    ensures forall v :: v in found <==> About(v, i) && IsViolation(st, v)
  {
    var inst := st.instances[i];
    found := CheckEndpoints(inst.endpoints, i, st.endpoints);
    if inst.serviceId !in st.services {
      found := [UnknownService(i)] + found;
    }
    if Untrusted(st, i) {
      found := found + [StaleAvailable(i)];
    }
  }

  method CheckInvariants(st: State) returns (violations: seq<Violation>)
    ensures forall v :: v in violations <==> IsViolation(st, v)
  {
    violations := [];
    var services := set i | i in st.instances :: st.instances[i].serviceId;
    var left := services;
    while left != {}
      invariant left <= services
      invariant forall v :: v in violations <==> v.IndexDisagrees? && v.service in services - left && IsViolation(st, v)
      decreases |left|
    {
      var s :| s in left;
      left := left - {s};
      assert s in services;
      InUse(st, s);
      if !IndexAgrees(st.indexes, st.instances, s) {
        violations := violations + [IndexDisagrees(s)];
      }
    }
    forall v: Violation | v.IndexDisagrees? && IsViolation(st, v) ensures v.service in services {
      var i :| i in InstancesOf(st.instances, v.service);
    }
    var instances := st.instances.Keys;
    while instances != {}
      invariant instances <= st.instances.Keys
      invariant forall v :: v in violations <==> IsViolation(st, v) && (v.IndexDisagrees? || v.instance !in instances)
      decreases |instances|
    {
      var i :| i in instances;
      instances := instances - {i};
      var found := CheckInstance(st, i);
      violations := violations + found;
    }
  }

  lemma InUse(st: State, s: Id)
    requires exists i :: i in st.instances && st.instances[i].serviceId == s
    ensures InstancesOf(st.instances, s) != {}
  {
    var i :| i in st.instances && st.instances[i].serviceId == s;
    assert i in InstancesOf(st.instances, s);
  }

  // ---- what the indexes list ----

  predicate Lists<K>(index: map<K, set<Id>>, k: K, id: Id) {
    k in index && id in index[k]
  }

  lemma GroupedLists<K>(pairs: set<(K, Id)>, k: K, id: Id)
    ensures Lists(Grouped(pairs), k, id) <==> (k, id) in pairs
    ensures k in Grouped(pairs) ==> Grouped(pairs)[k] != {}
  {
    if (k, id) in pairs {
      assert (k, id).0 == k && (k, id).1 == id;
    }
    if k in Grouped(pairs) {
      var p :| p in pairs && p.0 == k;
      assert p.1 in Grouped(pairs)[k];
    }
  }

  /** After a rebuild each index lists exactly what its name says: services by kind, and instances by
      service, boot and node. */
  lemma RebuiltListsExactly(services: map<Id, Service>, instances: map<Id, Instance>, kind: ServiceKind,
      key: Id, id: Id)
    ensures
      var r := Rebuilt(services, instances);
      && (Lists(r.byKind, kind, id) <==>
            exists i ::
              && i in instances && instances[i].serviceId == id
              && id in services && services[id].kind == kind)
      && (Lists(r.byService, key, id) <==>
            exists i :: i in instances && instances[i].serviceId == key && instances[i].instanceId == id)
      && (Lists(r.byBoot, key, id) <==>
            exists i :: i in instances && instances[i].boot == key && instances[i].instanceId == id)
      && (Lists(r.byNode, key, id) <==>
            exists i :: i in instances && instances[i].node == key && instances[i].instanceId == id)
  {
    GroupedLists(KindPairs(services, instances), kind, id);
    GroupedLists(ServicePairs(instances), key, id);
    GroupedLists(BootPairs(instances), key, id);
    GroupedLists(NodePairs(instances), key, id);
    assert (kind, id) in KindPairs(services, instances) <==>
      exists i :: i in instances && instances[i].serviceId == id && id in services && services[id].kind == kind;
    hide Grouped, Lists;
  }

  // ---- nothing to report ----

  /** The index of a service lists exactly its instances. */
  lemma GroupLists(instances: map<Id, Instance>, s: Id)
    requires Filed(instances, InstanceKey) && InstancesOf(instances, s) != {}
    ensures s in Grouped(ServicePairs(instances)) && Grouped(ServicePairs(instances))[s] == InstancesOf(instances, s)
  {
    assert forall i :: i in instances ==> InstanceKey(instances[i]) == i && instances[i].instanceId == i;
    hide Filed;
    var pairs := ServicePairs(instances);
    forall i | i in InstancesOf(instances, s) ensures (s, i) in pairs { }
    assert s in Keys(pairs) by {
      var i :| i in InstancesOf(instances, s);
      assert (s, i) in pairs;
    }
    assert forall p :: p in pairs && p.0 == s ==> p.1 in InstancesOf(instances, s);
    assert (set p | p in pairs && p.0 == s :: p.1) == InstancesOf(instances, s) by {
      forall i | i in InstancesOf(instances, s) ensures i in (set p | p in pairs && p.0 == s :: p.1) {
        assert (s, i) in pairs && (s, i).1 == i;
      }
    }
  }

  lemma IndexLists(st: State, s: Id)
    requires KeysMatch(st) && st.indexes == Rebuilt(st.services, st.instances) && InstancesOf(st.instances, s) != {}
    ensures s in st.indexes.byService && st.indexes.byService[s] == InstancesOf(st.instances, s)
  {
    hide Filed, Grouped, ServicePairs, InstancesOf;
    GroupLists(st.instances, s);
  }

  /** With keys, indexes and AVAILABLE instances in order, only a dangling reference is reported. */
  lemma CleanExactly(st: State)
    requires KeysMatch(st) && st.indexes == Rebuilt(st.services, st.instances)
    requires forall i :: i in st.instances ==> !Untrusted(st, i)
    ensures (forall v :: !IsViolation(st, v)) <==> Referenced(st.services.Keys, st.instances, st.endpoints.Keys)
  {
    hide Rebuilt, KeysMatch, Untrusted, InstancesOf;
    if Referenced(st.services.Keys, st.instances, st.endpoints.Keys) {
      forall v ensures !IsViolation(st, v) {
        if v.IndexDisagrees? && InstancesOf(st.instances, v.service) != {} {
          IndexLists(st, v.service);
        }
      }
    } else {
      var i :| i in st.instances && !(st.instances[i].serviceId in st.services
        && forall e :: e in st.instances[i].endpoints ==> e in st.endpoints);
      if st.instances[i].serviceId !in st.services {
        assert IsViolation(st, UnknownService(i));
      } else {
        var e :| e in st.instances[i].endpoints && e !in st.endpoints;
        assert IsViolation(st, UnknownEndpoint(i, e));
      }
    }
  }

  lemma NothingToReport(st: State, v: Violation)
    requires Inv(st)
    ensures !IsViolation(st, v)
  {
    if v.IndexDisagrees? && InstancesOf(st.instances, v.service) != {} {
      IndexLists(st, v.service);
    }
    hide Filed, Fenced, Rebuilt, KeysMatch, InstancesOf;
  }

  /** In every state a run can reach, thrown errors and completed reloads included, the check reports
      nothing and a rebuild of the indexes would change nothing. */
  lemma ReachableStatesAreClean(steps: seq<Step>, v: Violation)
    requires Runs(INITIAL, steps) && forall step :: step in steps ==> Proper(step)
    ensures !IsViolation(After(INITIAL, steps), v)
    ensures Reindexed(After(INITIAL, steps)) == After(INITIAL, steps)
  {
    hide Runs, After, Proper, INITIAL, Inv, IsViolation;
    InitialInv();
    RunsKeep(INITIAL, steps);
    NothingToReport(After(INITIAL, steps), v);
    RebuildIsIdle(After(INITIAL, steps));
  }
}
