/** What every answer to a query satisfies, whatever the order in which instances were visited. */
module QueryTheorems {
  import opened Base
  import opened Enums
  import opened Records
  import SemVer
  import opened RegistryModel
  import opened RegistryInvariants
  import opened QueryModel
  import Fencing

  // ---- sorted sequences ----

  ghost predicate StrictOrder<T(!new)>(less: (T, T) -> bool) {
    && (forall x, y :: less(x, y) ==> !less(y, x))
    && (forall x, y, z :: less(x, y) && less(y, z) ==> less(x, z))
  }

  ghost predicate Sorted<T>(s: seq<T>, less: (T, T) -> bool) {
    forall j, k :: 0 <= j < k < |s| ==> less(s[j], s[k])
  }

  /** `at` says where each element of `s` stands in `t`, in the same order. */
  ghost predicate Embeds<T>(s: seq<T>, t: seq<T>, at: seq<nat>) {
    && |at| == |s|
    && (forall j :: 0 <= j < |s| ==> at[j] < |t| && t[at[j]] == s[j])
    && forall j, k :: 0 <= j < k < |s| ==> at[j] < at[k]
  }

  ghost predicate IsSubsequence<T>(s: seq<T>, t: seq<T>) {
    exists at :: Embeds(s, t, at)
  }

  lemma SortedSubset<T(!new)>(s: seq<T>, t: seq<T>, less: (T, T) -> bool)
    requires StrictOrder(less) && Sorted(s, less) && Sorted(t, less)
    requires forall x :: x in s ==> x in t
    ensures IsSubsequence(s, t)
  {
    var at: seq<nat> := [];
    while |at| < |s|
      invariant |at| <= |s|
      invariant Embeds(s[..|at|], t, at)
    {
      var n := |at|;
      assert s[n] in t;
      var m: nat :| m < |t| && t[m] == s[n];
      assert forall j :: 0 <= j < n ==> less(s[..n][j], s[n]);
      assert forall j :: 0 <= j < n ==> at[j] < m;
      assert s[..n + 1] == s[..n] + [s[n]];
      at := at + [m];
    }
    assert s[..|s|] == s;
  }

  /** Two sorted sequences with the same elements are the same. */
  lemma {:induction false} SortedUnique<T(!new)>(s: seq<T>, t: seq<T>, less: (T, T) -> bool)
    requires StrictOrder(less) && Sorted(s, less) && Sorted(t, less)
    requires forall x :: x in s <==> x in t
    ensures s == t
  {
    if s == [] {
      assert forall j :: 0 <= j < |t| ==> t[j] in s;
    } else {
      assert s[0] in t && t != [] && t[0] in s;
      var k :| 0 <= k < |t| && t[k] == s[0];
      var m :| 0 <= m < |s| && s[m] == t[0];
      assert s[0] == t[0];
      assert s == [s[0]] + s[1..] && t == [t[0]] + t[1..];
      assert !less(s[0], s[0]);
      assert s[0] !in s[1..] && t[0] !in t[1..];
      assert forall x :: x in s[1..] <==> x in s && x != s[0];
      assert forall x :: x in t[1..] <==> x in t && x != t[0];
      SortedUnique(s[1..], t[1..], less);
    }
  }

  // ---- which instances survive ----

  lemma {:induction false} CapabilitiesExactly(required: seq<CapabilityKind>, inst: Instance,
      capabilities: map<Id, Capability>)
    ensures CapabilityVerdict(required, inst, capabilities) == None <==>
      forall kind :: kind in required ==> Provides(inst, kind, capabilities)
    decreases |required|
  {
    if required != [] {
      assert required == [required[0]] + required[1..];
      CapabilitiesExactly(required[1..], inst, capabilities);
    }
  }

  /** The runtime contract of a query, when the instance names a registered runtime. */
  predicate RuntimeFits(st: State, q: RegistryQuery, inst: Instance) {
    inst.runtimeInstance in st.runtimeInstances ==>
      var rt := st.runtimeInstances[inst.runtimeInstance];
      && (q.runtimeKind == RuntimeKind.UNKNOWN || rt.kind == q.runtimeKind)
      && (q.runtimeFamily == [] || rt.family == q.runtimeFamily)
      && (q.architecture == [] || rt.architecture == [] || rt.architecture == q.architecture)
  }

  /** Everything a survivor satisfies, said at once.  A required protocol version asks only that
      some protocol of the instance is registered, not that it is compatible. */
  predicate Qualifies(st: State, q: RegistryQuery, inst: Instance, svc: Service) {
    && inst.boot in st.authority.liveBoots
    && inst.lifecycle != Lifecycle.STALE && inst.lifecycle != Lifecycle.INVALIDATED
    && inst.lifecycle != Lifecycle.TOMBSTONED
    && (q.currentOnly ==> !inst.lifecycle.Terminal())
    && FreshnessMeets(inst.freshness, q.freshness) && ReadinessMeets(inst.readiness, q.readiness)
    && HealthMeets(inst.health, q.health) && ReachabilityMeets(inst.reachability, q.reachability)
    && LeaseHolds(inst, st.leases)
    && (ChecksProtocol(q) ==> SpeaksKnown(inst, st.protocols))
    && (forall kind :: kind in q.requiredCapabilities ==> Provides(inst, kind, st.capabilities))
    && RuntimeFits(st, q, inst)
    && (q.minimumApi.Some? ==> !svc.apiVersion.Less(q.minimumApi.value))
    && (q.abi.Some? ==> svc.abiVersion.major == q.abi.value.major)
  }

  lemma SurvivesExactly(st: State, q: RegistryQuery, inst: Instance, svc: Service)
    ensures Judge(st, q, inst, svc).survives <==> Qualifies(st, q, inst, svc)
  {
    hide Provides, LeaseHolds, FreshnessMeets, ReadinessMeets, HealthMeets, ReachabilityMeets, CapabilityVerdict,
         NegotiateProtocol;
    CapabilitiesExactly(q.requiredCapabilities, inst, st.capabilities);
    assert ContractVerdict(st, q, inst, svc) == None <==>
      RuntimeFits(st, q, inst) && (q.minimumApi.Some? ==> !svc.apiVersion.Less(q.minimumApi.value))
      && (q.abi.Some? ==> svc.abiVersion.major == q.abi.value.major);
    hide ContractVerdict, RuntimeFits;
  }

  /** One instance can be both rejected and ranked: a survivor carries the mark of an incompatible
      protocol exactly when it has one, and no other mark. */
  lemma RejectedAndRankedExactly(st: State, q: RegistryQuery, inst: Instance, svc: Service)
    ensures
      var j := Judge(st, q, inst, svc);
      && (!j.survives ==> j.rejections != [])
      && (j.survives ==>
            j.rejections == if ChecksProtocol(q) && SpeaksIncompatible(inst, q.protocolVersion.value, st.protocols) then
              [INCOMPATIBLE_PROTOCOL] else [])
  {
    hide StatusVerdict, CapabilityVerdict, ContractVerdict, SpeaksIncompatible;
  }

  // ---- the answer does not depend on the order of the walk ----

  /** The rank order on identities, by the total each one scores. */
  ghost function Order(totals: map<Id, real>): (Id, Id) -> bool {
    (a: Id, b: Id) => (if a in totals then totals[a] else 0.0) > (if b in totals then totals[b] else 0.0)
      || ((if a in totals then totals[a] else 0.0) == (if b in totals then totals[b] else 0.0) && a < b)
  }

  ghost function Totals(st: State, q: RegistryQuery): map<Id, real> {
    map i | i in st.instances && Survives(st, q, i) :: Sum(FactorsOf(st, q, i))
  }

  lemma OrderIsStrict(totals: map<Id, real>)
    ensures StrictOrder(Order(totals))
  {
  }

  /** The ranked identities are the survivors, sorted. */
  lemma RankingIsSorted(st: State, q: RegistryQuery, ranked: seq<Candidate>)
    requires IsRanking(st, q, ranked)
    ensures Sorted(IdsOf(ranked), Order(Totals(st, q)))
    ensures forall i :: i in IdsOf(ranked) <==> i in st.instances && Survives(st, q, i)
  {
    hide Judged, KindMatches, FactorsOf, Sum;
    var ids := IdsOf(ranked);
    assert forall j :: 0 <= j < |ids| ==> ids[j] in st.instances && Totals(st, q)[ids[j]] == ranked[j].total;
  }

  /** Any two answers agree on everything but the order of the rejections. */
  lemma AnswerIsUnique(st: State, q: RegistryQuery, a: Answer, b: Answer)
    requires IsAnswer(st, q, a) && IsAnswer(st, q, b)
    ensures a.ranked == b.ranked && a.selected == b.selected && a.outcome == b.outcome && a.considered == b.considered
    ensures multiset(a.rejected) == multiset(b.rejected)
  {
    hide IsRanking, EmptyOutcome, RejectionsIn, ConsideredIn;
    RankingIsUnique(st, q, a.ranked, b.ranked);
    var o :| Enumerates(o, st.instances.Keys) && a.rejected == RejectionsIn(st, q, o);
    var p :| Enumerates(p, st.instances.Keys) && b.rejected == RejectionsIn(st, q, p);
    EachOnce(o, st.instances.Keys);
    EachOnce(p, st.instances.Keys);
    RejectionsPermute(st, q, o, p);
  }

  lemma RankingIsUnique(st: State, q: RegistryQuery, a: seq<Candidate>, b: seq<Candidate>)
    requires IsRanking(st, q, a) && IsRanking(st, q, b)
    ensures a == b
  {
    hide Survives, FactorsOf, Sum, Order, Totals, Sorted;
    RankingIsSorted(st, q, a);
    RankingIsSorted(st, q, b);
    OrderIsStrict(Totals(st, q));
    SortedUnique(IdsOf(a), IdsOf(b), Order(Totals(st, q)));
    assert forall j :: 0 <= j < |a| ==> a[j].id == IdsOf(a)[j] == b[j].id;
  }

  /** Walking in another order permutes the rejections. */
  lemma {:induction false} RejectionsPermute(st: State, q: RegistryQuery, o: seq<Id>, p: seq<Id>)
    requires multiset(o) == multiset(p)
    ensures multiset(RejectionsIn(st, q, o)) == multiset(RejectionsIn(st, q, p))
    decreases |o|
  {
    hide RejectionsOf;
    assert |o| == |multiset(o)| == |p|;
    if o != [] {
      var n := |o| - 1;
      assert o[n] in multiset(o);
      var k :| 0 <= k < |p| && p[k] == o[n];
      Without(o, n);
      Without(p, k);
      assert o[..n] + o[n + 1..] == o[..n];
      Extract(st, q, p, k);
      RejectionsPermute(st, q, o[..n], p[..k] + p[k + 1..]);
    }
  }

  lemma Without(p: seq<Id>, k: nat)
    requires k < |p|
    ensures multiset(p[..k] + p[k + 1..]) == multiset(p) - multiset{p[k]}
  {
    assert p == p[..k] + [p[k]] + p[k + 1..];
  }

  lemma {:induction false} EachOnce(order: seq<Id>, keys: set<Id>)
    requires Enumerates(order, keys)
    ensures multiset(order) == multiset(keys)
  {
    if order == [] {
      assert keys == {};
    } else {
      var n := |order| - 1;
      assert order == order[..n] + [order[n]];
      EachOnce(order[..n], keys - {order[n]});
    }
  }

  lemma {:induction false} Extract(st: State, q: RegistryQuery, p: seq<Id>, k: nat)
    requires k < |p|
    ensures multiset(RejectionsIn(st, q, p)) ==
      multiset(RejectionsIn(st, q, p[..k] + p[k + 1..])) + multiset(RejectionsOf(st, q, p[k]))
    decreases |p|
  {
    hide RejectionsOf;
    var n := |p| - 1;
    if k == n {
      assert p[..k] + p[k + 1..] == p[..n];
    } else {
      var rest := p[..k] + p[k + 1..];
      assert rest[..|rest| - 1] == p[..n][..k] + p[..n][k + 1..] && rest[|rest| - 1] == p[n];
      Extract(st, q, p[..n], k);
    }
  }

  // ---- strengthening a query ----

  /** `p` asks no less than `q`: it may require more capabilities, a stricter status, and a runtime
      kind, family or architecture where `q` has none; in all else they agree. */
  predicate Strengthens(p: RegistryQuery, q: RegistryQuery) {
    && (forall kind :: kind in q.requiredCapabilities ==> kind in p.requiredCapabilities)
    && (q.health == Health.UNKNOWN || q.health == p.health
         || (q.health == Health.DEGRADED && p.health == Health.HEALTHY))
    && (q.readiness == Readiness.UNKNOWN || q.readiness == p.readiness)
    && (q.freshness == Freshness.UNKNOWN || q.freshness == p.freshness)
    && (q.reachability == Reachability.UNKNOWN || q.reachability == p.reachability)
    && (q.runtimeKind == RuntimeKind.UNKNOWN || q.runtimeKind == p.runtimeKind)
    && (q.runtimeFamily == [] || q.runtimeFamily == p.runtimeFamily)
    && (q.architecture == [] || q.architecture == p.architecture)
    && q.kind == p.kind && q.exactService == p.exactService && q.minimumApi == p.minimumApi && q.abi == p.abi
    && q.protocol == p.protocol && q.protocolVersion == p.protocolVersion
    && q.preferredNode == p.preferredNode && q.preferredRuntime == p.preferredRuntime
    && q.versionPolicy == p.versionPolicy && q.currentOnly == p.currentOnly
  }

  /** A survivor provides every required capability, so its completeness is full. */
  lemma FullCompleteness(st: State, q: RegistryQuery, inst: Instance)
    requires forall kind :: kind in q.requiredCapabilities ==> Provides(inst, kind, st.capabilities)
    ensures Completeness(st, q, inst) == 100.0
  {
    AllProvided(q.requiredCapabilities, inst, st.capabilities);
    hide Provided, Provides;
    var n := |q.requiredCapabilities|;
    if n > 0 {
      Whole(n as real);
    }
  }

  lemma Whole(x: real)
    requires x > 0.0
    ensures x / x * 100.0 == 100.0
  {
    assert x / x == 1.0;
  }

  lemma {:induction false} AllProvided(required: seq<CapabilityKind>, inst: Instance, capabilities: map<Id, Capability>)
    requires forall kind :: kind in required ==> Provides(inst, kind, capabilities)
    ensures Provided(required, inst, capabilities) == |required|
    decreases |required|
  {
    hide Provides;
    if required != [] {
      AllProvided(required[..|required| - 1], inst, capabilities);
    }
  }

  lemma StrengtheningKeepsScore(st: State, p: RegistryQuery, q: RegistryQuery, i: Id)
    requires Strengthens(p, q) && Survives(st, p, i)
    ensures Survives(st, q, i) && FactorsOf(st, p, i) == FactorsOf(st, q, i)
  {
    var inst := st.instances[i];
    var svc := st.services[inst.serviceId];
    assert Considered(st, q, i);
    assert Qualifies(st, q, inst, svc) by {
      SurvivesExactly(st, p, inst, svc);
      hide Provides, LeaseHolds, Judge;
    }
    SurvivesExactly(st, q, inst, svc);
    SurvivesExactly(st, p, inst, svc);
    assert Completeness(st, p, inst) == Completeness(st, q, inst) by {
      FullCompleteness(st, p, inst);
      FullCompleteness(st, q, inst);
    }
    hide Judge, Completeness, Qualifies;
  }

  lemma StrengtheningKeepsTotals(st: State, p: RegistryQuery, q: RegistryQuery)
    requires Strengthens(p, q)
    ensures forall i :: i in Totals(st, p) ==> i in Totals(st, q) && Totals(st, p)[i] == Totals(st, q)[i]
  {
    forall i | i in st.instances && Survives(st, p, i)
      ensures Survives(st, q, i) && FactorsOf(st, p, i) == FactorsOf(st, q, i)
    {
      StrengtheningKeepsScore(st, p, q, i);
    }
    hide Judged, FactorsOf, Sum, Strengthens;
  }

  lemma SortedUnder(ids: seq<Id>, a: map<Id, real>, b: map<Id, real>)
    requires forall i :: i in ids ==> i in a && i in b && a[i] == b[i]
    requires Sorted(ids, Order(a))
    ensures Sorted(ids, Order(b))
  {
  }

  lemma RankedHaveTotals(st: State, q: RegistryQuery, ranked: seq<Candidate>)
    requires IsRanking(st, q, ranked)
    ensures forall i :: i in IdsOf(ranked) <==> i in Totals(st, q)
  {
    RankingIsSorted(st, q, ranked);
    hide IsRanking, Sorted, Order, FactorsOf, Sum, Survives;
  }

  /** Strengthening a query leaves a subsequence of the old ranking, with the same scores. */
  lemma StrengtheningFilters(st: State, p: RegistryQuery, q: RegistryQuery, a: Answer, b: Answer)
    requires Strengthens(p, q) && IsAnswer(st, p, a) && IsAnswer(st, q, b)
    ensures IsSubsequence(IdsOf(a.ranked), IdsOf(b.ranked))
    ensures forall j, k :: 0 <= j < |a.ranked| && 0 <= k < |b.ranked| && a.ranked[j].id == b.ranked[k].id ==>
      a.ranked[j].factors == b.ranked[k].factors && a.ranked[j].total == b.ranked[k].total
  {
    assert IsSubsequence(IdsOf(a.ranked), IdsOf(b.ranked)) by {
      hide IsRanking, Strengthens, Totals, Order, Sorted, EmptyOutcome, RejectionsIn, ConsideredIn, IsSubsequence,
           StrictOrder;
      RankingIsSorted(st, p, a.ranked);
      RankingIsSorted(st, q, b.ranked);
      RankedHaveTotals(st, p, a.ranked);
      RankedHaveTotals(st, q, b.ranked);
      StrengtheningKeepsTotals(st, p, q);
      SortedUnder(IdsOf(a.ranked), Totals(st, p), Totals(st, q));
      OrderIsStrict(Totals(st, q));
      SortedSubset(IdsOf(a.ranked), IdsOf(b.ranked), Order(Totals(st, q)));
    }
    forall j, k | 0 <= j < |a.ranked| && 0 <= k < |b.ranked| && a.ranked[j].id == b.ranked[k].id
      ensures a.ranked[j].factors == b.ranked[k].factors && a.ranked[j].total == b.ranked[k].total
    {
      StrengtheningKeepsScore(st, p, q, a.ranked[j].id);
      hide Judged, FactorsOf, Sum, Strengthens, EmptyOutcome, RejectionsIn, ConsideredIn, IsSubsequence;
    }
    hide *;
  }

  // ---- queries and the registry ----

  /** An AVAILABLE instance is ranked by the default query of its kind exactly when its lease, if
      it names one, is active. */
  lemma AvailableIsRanked(st: State, i: Id, a: Answer)
    requires Inv(st) && i in st.instances && st.instances[i].lifecycle == Lifecycle.AVAILABLE
    requires IsAnswer(st, DefaultQuery(st.services[st.instances[i].serviceId].kind), a)
    ensures i in IdsOf(a.ranked) <==> LeaseHolds(st.instances[i], st.leases)
  {
    assert Sound(st.instances[i], st.authority.liveBoots) && st.instances[i].serviceId in st.services;
    hide Inv, Judge, Qualifies, LeaseHolds, EmptyOutcome, RejectionsIn, IsRanking, ConsideredIn, DefaultQuery, Sound;
    var inst := st.instances[i];
    var svc := st.services[inst.serviceId];
    var q := DefaultQuery(svc.kind);
    RankingIsSorted(st, q, a.ranked);
    SurvivesExactly(st, q, inst, svc);
    AvailableQualifies(st, inst, svc);
  }

  lemma AvailableQualifies(st: State, inst: Instance, svc: Service)
    requires inst.lifecycle == Lifecycle.AVAILABLE && Sound(inst, st.authority.liveBoots)
    ensures Qualifies(st, DefaultQuery(svc.kind), inst, svc) <==> LeaseHolds(inst, st.leases)
    ensures DefaultQuery(svc.kind).kind == svc.kind && DefaultQuery(svc.kind).exactService == 0
  {
    hide LeaseHolds;
  }

  /** A ranked instance belongs to a live boot. */
  lemma RankedIsLive(st: State, q: RegistryQuery, a: Answer, i: Id)
    requires IsAnswer(st, q, a) && i in IdsOf(a.ranked)
    ensures i in st.instances && st.instances[i].boot in st.authority.liveBoots
  {
    RankingIsSorted(st, q, a.ranked);
    SurvivesExactly(st, q, st.instances[i], st.services[st.instances[i].serviceId]);
    hide Judge, EmptyOutcome, RejectionsIn, IsRanking, ConsideredIn;
  }

  /** Once a boot is spent, no later query of the run ranks an instance that holds it. */
  lemma SpentBootIsNeverRanked(st: State, steps: seq<Step>, boot: Id, q: RegistryQuery, a: Answer, i: Id)
    requires Runs(st, steps) && Fencing.NoWrap(st.nextBoot, steps) && Fencing.Spent(st, boot)
    requires IsAnswer(After(st, steps), q, a) && i in IdsOf(a.ranked)
    ensures After(st, steps).instances[i].boot != boot
  {
    hide After, Runs, IsAnswer;
    Fencing.SpentForGood(st, steps, boot);
    RankedIsLive(After(st, steps), q, a, i);
  }

  // ---- no live process ----

  lemma NobodyLives(st: State, q: RegistryQuery, inst: Instance, svc: Service)
    requires st.authority.liveBoots == {}
    ensures
      var j := Judge(st, q, inst, svc);
      !j.survives && exists c :: j.rejections == [c] && CauseOf(c) == AUTHORITY
  {
    hide LeaseHolds, FreshnessMeets, ReadinessMeets, HealthMeets, ReachabilityMeets, ProtocolVerdict,
         CapabilityVerdict, ContractVerdict;
    assert StatusVerdict(st, q, inst).Some? && CauseOf(StatusVerdict(st, q, inst).value) == AUTHORITY;
    var c := StatusVerdict(st, q, inst).value;
    assert Judge(st, q, inst, svc).rejections == [c];
  }

  lemma NothingLiveSurvives(st: State, q: RegistryQuery, i: Id)
    requires st.authority.liveBoots == {} && Considered(st, q, i)
    ensures !Survives(st, q, i)
    ensures Saw(st, q, AUTHORITY)
  {
    NobodyLives(st, q, st.instances[i], st.services[st.instances[i].serviceId]);
    hide Judge;
    var c :| Judged(st, q, i).rejections == [c] && CauseOf(c) == AUTHORITY;
    assert Rejects(st, q, i, c);
  }

  /** With no live boot, as after recovery or a new epoch until the next adoption, a query ranks
      nothing and says why: STALE_ONLY if it considered an instance, else INCOMPATIBLE_ONLY if it
      skipped one for its kind, else NOT_FOUND. */
  lemma NobodyLivesOutcome(st: State, q: RegistryQuery, a: Answer)
    requires st.authority.liveBoots == {} && IsAnswer(st, q, a)
    ensures a.ranked == [] && a.selected == []
    ensures a.outcome ==
      if exists i :: i in st.instances && Considered(st, q, i) then STALE_ONLY
      else if exists i :: i in st.instances && SkippedByKind(st, q, i) then INCOMPATIBLE_ONLY
      else NOT_FOUND
  {
    assert a.ranked == [] by {
      if a.ranked != [] {
        hide EmptyOutcome, RejectionsIn, ConsideredIn, Judged, KindMatches;
        NothingLiveSurvives(st, q, a.ranked[0].id);
      }
    }
    hide IsRanking, RejectionsIn, ConsideredIn;
    NobodyLivesCause(st, q);
    hide EmptyOutcome, Considered, SkippedByKind;
  }

  lemma NobodyLivesCause(st: State, q: RegistryQuery)
    requires st.authority.liveBoots == {}
    ensures EmptyOutcome(st, q) ==
      if exists i :: i in st.instances && Considered(st, q, i) then STALE_ONLY
      else if exists i :: i in st.instances && SkippedByKind(st, q, i) then INCOMPATIBLE_ONLY
      else NOT_FOUND
  {
    hide Considered, SkippedByKind, Saw, SawSkipped, SawAny, EmptyOutcome;
    if i :| i in st.instances && Considered(st, q, i) {
      SomeConsidered(st, q, i);
    } else {
      OutcomeOfNone(st, q);
    }
  }

  lemma SomeConsidered(st: State, q: RegistryQuery, i: Id)
    requires st.authority.liveBoots == {} && Considered(st, q, i)
    ensures EmptyOutcome(st, q) == STALE_ONLY
  {
    NothingLiveSurvives(st, q, i);
    assert SawAny(st, q) by {
      hide KindMatches;
      assert InScope(st, q, i);
    }
    hide Saw, SawSkipped, SawAny;
  }

  lemma OutcomeOfNone(st: State, q: RegistryQuery)
    requires forall i :: i in st.instances ==> !Considered(st, q, i)
    ensures EmptyOutcome(st, q) == if exists i ::
      i in st.instances && SkippedByKind(st, q, i) then INCOMPATIBLE_ONLY else NOT_FOUND
  {
    NoneConsidered(st, q);
    hide Saw, SawAny, Considered, SkippedByKind;
    assert SawSkipped(st, q) <==> exists i :: i in st.instances && SkippedByKind(st, q, i);
  }

  lemma NoneConsidered(st: State, q: RegistryQuery)
    requires forall i :: i in st.instances ==> !Considered(st, q, i)
    ensures forall cause :: !Saw(st, q, cause)
    ensures SawAny(st, q) <==> exists i :: i in st.instances && SkippedByKind(st, q, i)
  {
    hide Judged, KindMatches, InScope;
    assert forall i :: i in st.instances && InScope(st, q, i) ==> SkippedByKind(st, q, i);
  }

  /** The same after any run without an adoption from a completed recovery or a new epoch on. */
  lemma RestartedOutcome(st: State, reload: bool, steps: seq<Step>, q: RegistryQuery, a: Answer)
    requires Runs(if reload then Recovered(st) else NewEpoch(st), steps)
      && forall step :: step in steps ==> !step.Adopt?
    requires IsAnswer(After(if reload then Recovered(st) else NewEpoch(st), steps), q, a)
    ensures
      var later := After(if reload then Recovered(st) else NewEpoch(st), steps);
      && a.ranked == [] && a.selected == []
      && a.outcome ==
        if exists i :: i in later.instances && Considered(later, q, i) then STALE_ONLY
        else if exists i :: i in later.instances && SkippedByKind(later, q, i) then INCOMPATIBLE_ONLY
        else NOT_FOUND
  {
    var restarted := if reload then Recovered(st) else NewEpoch(st);
    Fencing.RestartAuthority(st);
    hide Recovered, NewEpoch, Runs, After, IsAnswer, Considered, SkippedByKind;
    Fencing.NobodyUntilAdoption(restarted, steps);
    NobodyLivesOutcome(After(restarted, steps), q, a);
  }

  /** In every reachable state an AVAILABLE instance is found by the default query of its kind
      exactly when its lease, if it names one, is active. */
  lemma ReachableAvailableIsRanked(steps: seq<Step>, i: Id, a: Answer)
    requires Runs(INITIAL, steps) && forall step :: step in steps ==> Proper(step)
    requires
      var st := After(INITIAL, steps);
      && i in st.instances && st.instances[i].lifecycle == Lifecycle.AVAILABLE
      && st.instances[i].serviceId in st.services
      && IsAnswer(st, DefaultQuery(st.services[st.instances[i].serviceId].kind), a)
    ensures i in IdsOf(a.ranked) <==> LeaseHolds(After(INITIAL, steps).instances[i], After(INITIAL, steps).leases)
  {
    hide Runs, After, Proper, INITIAL, Inv, IsAnswer, DefaultQuery, LeaseHolds;
    InitialInv();
    RunsKeep(INITIAL, steps);
    AvailableIsRanked(After(INITIAL, steps), i, a);
  }

  // ---- what the score rewards ----

  function HealthRank(h: Health): nat {
    if h == Health.HEALTHY then 2 else if h == Health.DEGRADED then 1 else 0
  }

  function ReadinessRank(r: Readiness): nat {
    if r == Readiness.READY then 2 else if r == Readiness.PARTIALLY_READY then 1 else 0
  }

  function ReachabilityRank(r: Reachability): nat {
    if r == Reachability.REACHABLE then 2 else if r == Reachability.DEGRADED then 1 else 0
  }

  /** `b` is at least as healthy, ready, reachable, fresh and local as `a`. */
  predicate NoWorse(q: RegistryQuery, a: Instance, b: Instance) {
    && HealthRank(a.health) <= HealthRank(b.health) && ReadinessRank(a.readiness) <= ReadinessRank(b.readiness)
    && ReachabilityRank(a.reachability) <= ReachabilityRank(b.reachability)
    && (a.freshness == Freshness.CURRENT ==> b.freshness == Freshness.CURRENT)
    && (q.preferredNode != 0 && a.node == q.preferredNode ==> b.node == q.preferredNode)
    && (q.preferredRuntime != 0 && a.runtimeId == q.preferredRuntime ==> b.runtimeId == q.preferredRuntime)
  }

  predicate SamePlace(q: RegistryQuery, a: Instance, b: Instance) {
    NoWorse(q, a, b) && NoWorse(q, b, a)
  }

  lemma {:induction false} SumPrefix(factors: seq<(Factor, real)>, n: nat)
    requires n < |factors|
    ensures Sum(factors[..n + 1]) == Sum(factors[..n]) + factors[n].1
  {
    assert factors[..n + 1][..n] == factors[..n];
  }

  lemma TotalOfTwelve(f: seq<(Factor, real)>)
    requires |f| == 12
    ensures Sum(f) == f[0].1 + f[1].1 + f[2].1 + f[3].1 + f[4].1 + f[5].1 + f[6].1 + f[7].1 + f[8].1 + f[9].1
      + f[10].1 + f[11].1
  {
    hide Sum;
    SumPrefix(f, 0); SumPrefix(f, 1); SumPrefix(f, 2); SumPrefix(f, 3); SumPrefix(f, 4); SumPrefix(f, 5);
    SumPrefix(f, 6); SumPrefix(f, 7); SumPrefix(f, 8); SumPrefix(f, 9); SumPrefix(f, 10); SumPrefix(f, 11);
    assert f[..0] == [] && f[..12] == f;
    NoFactors();
  }

  lemma NoFactors()
    ensures Sum([]) == 0.0
  {
  }

  /** The factors that look at the status and place of the instance. */
  function StatusScore(q: RegistryQuery, inst: Instance): real {
    40.0 * ReadinessRank(inst.readiness) as real + 40.0 * HealthRank(inst.health) as real
      + 30.0 * ReachabilityRank(inst.reachability) as real
    + (if inst.freshness == Freshness.CURRENT then 100.0 else 0.0)
    + (if q.preferredNode != 0 && inst.node == q.preferredNode then 100.0 else 0.0)
    + (if q.preferredRuntime != 0 && inst.runtimeId == q.preferredRuntime then 100.0 else 0.0)
  }

  /** The factors that look at the contract of the service. */
  function ContractScore(q: RegistryQuery, service: Id, svc: Service): real {
    (if q.exactService != 0 && service == q.exactService then 1000.0 else 0.0)
    + (if q.minimumApi == Some(svc.apiVersion) then 200.0 else 0.0)
    + (if q.abi == Some(svc.abiVersion) then 150.0
      else if q.abi.Some? && svc.abiVersion.major == q.abi.value.major then 80.0 else 0.0)
    + (svc.version.major * 100 + svc.version.minor * 10 + svc.version.patch) as real
    + (if q.versionPolicy == VersionPolicy.PREFER_RECENT then 10.0 else 0.0)
  }

  lemma TotalIs(st: State, q: RegistryQuery, inst: Instance, svc: Service)
    ensures Sum(Factors(st, q, inst, svc)) ==
      ContractScore(q, inst.serviceId, svc) + Completeness(st, q, inst) + StatusScore(q, inst)
  {
    hide Completeness, Sum;
    var factors := Factors(st, q, inst, svc);
    assert factors[4].1 == 40.0 * ReadinessRank(inst.readiness) as real;
    assert factors[5].1 == 40.0 * HealthRank(inst.health) as real;
    assert factors[9].1 == 30.0 * ReachabilityRank(inst.reachability) as real;
    hide ReadinessRank, HealthRank, ReachabilityRank;
    TotalOfTwelve(factors);
  }

  lemma StatusGrows(q: RegistryQuery, a: Instance, b: Instance)
    requires NoWorse(q, a, b)
    ensures StatusScore(q, a) <= StatusScore(q, b)
    ensures StatusScore(q, a) == StatusScore(q, b) <==> SamePlace(q, a, b)
  {
  }

  /** Of two survivors of one service, the one that is no worse in any status or place scores no
      less, and the same only if neither is better in anything. */
  lemma BetterScoresHigher(st: State, q: RegistryQuery, svc: Service, a: Instance, b: Instance)
    requires Judge(st, q, a, svc).survives && Judge(st, q, b, svc).survives && a.serviceId == b.serviceId
    requires NoWorse(q, a, b)
    ensures Sum(Factors(st, q, a, svc)) <= Sum(Factors(st, q, b, svc))
    ensures Sum(Factors(st, q, a, svc)) == Sum(Factors(st, q, b, svc)) <==> SamePlace(q, a, b)
  {
    SurvivesExactly(st, q, a, svc);
    SurvivesExactly(st, q, b, svc);
    FullCompleteness(st, q, a);
    FullCompleteness(st, q, b);
    hide Judge, Qualifies, Completeness, Sum, Factors, StatusScore, ContractScore, NoWorse, SamePlace;
    TotalIs(st, q, a, svc);
    TotalIs(st, q, b, svc);
    StatusGrows(q, a, b);
  }

  // ---- the recency factor ----

  function Recency(v: SemVer.SemanticVersion): int {
    v.major * 100 + v.minor * 10 + v.patch
  }

  /** The order of core versions. */
  predicate Older(a: SemVer.SemanticVersion, b: SemVer.SemanticVersion) {
    a.major < b.major || (a.major == b.major && (a.minor < b.minor || (a.minor == b.minor && a.patch < b.patch)))
  }

  predicate Within(v: SemVer.SemanticVersion, minor: nat, patch: nat) {
    0 <= v.minor <= minor && 0 <= v.patch <= patch
  }

  /** The bounds on minor and patch numbers under which the recency factor follows version order. */
  lemma RecencyFollowsOrderExactly(minor: nat, patch: nat)
    requires minor < TWO_63 && patch < TWO_63
    ensures (forall a, b :: Within(a, minor, patch) && Within(b, minor, patch) ==>
      (Recency(a) < Recency(b) <==> Older(a, b)))
      <==> 10 * minor + patch < 100 && (minor == 0 || patch < 10)
  {
    var last, next := SemVer.SemanticVersion(0, minor, patch, [], []), SemVer.SemanticVersion(1, 0, 0, [], []);
    assert Within(last, minor, patch) && Within(next, minor, patch) && Older(last, next);
    if minor > 0 {
      var patched, raised := SemVer.SemanticVersion(0, 0, patch, [], []), SemVer.SemanticVersion(0, 1, 0, [], []);
      assert Within(patched, minor, patch) && Within(raised, minor, patch) && Older(patched, raised);
    }
  }

  /** Such a pair beyond them: 1.11.0 scores above 2.0.0. */
  lemma RecencyMisleads()
    ensures
      var a, b := SemVer.SemanticVersion(1, 11, 0, [], []), SemVer.SemanticVersion(2, 0, 0, [], []);
      Older(a, b) && Recency(a) > Recency(b)
  {
  }
}
