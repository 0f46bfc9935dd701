/** What the outcome of a query means.  `query` keeps one flag per group of rejections and picks the
    outcome from the flags; here each of its nine outcomes is described by the instances alone. */
module Outcomes {
  import opened Base
  import opened Enums
  import opened Records
  import opened RegistryModel
  import opened QueryModel
  import opened Lifecycles
  import SemVer
  import QueryTheorems

  // ---- what a query asks for ----

  /** The instance belongs to a registered service that the query may be about. */
  predicate Asked(st: State, q: RegistryQuery, i: Id) {
    && i in st.instances && st.instances[i].serviceId in st.services
    && (q.exactService == 0 || q.exactService == st.instances[i].serviceId)
  }

  predicate OfKind(st: State, q: RegistryQuery, i: Id)
    requires Asked(st, q, i)
  {
    q.kind == ServiceKind.UNKNOWN || q.kind == st.services[st.instances[i].serviceId].kind
  }

  predicate Wanted(st: State, q: RegistryQuery, i: Id) {
    Asked(st, q, i) && OfKind(st, q, i)
  }

  // ---- what it asks of an instance ----

  /** Lifecycle, process, freshness and lease are as the query wants them. */
  predicate UpToDate(st: State, q: RegistryQuery, inst: Instance) {
    && inst.lifecycle !in {Lifecycle.STALE, Lifecycle.INVALIDATED, Lifecycle.TOMBSTONED}
    && (q.currentOnly ==> inst.lifecycle !in {Lifecycle.SUPERSEDED, Lifecycle.RETIRED})
    && inst.boot in st.authority.liveBoots
    && (q.freshness == Freshness.UNKNOWN || q.freshness == inst.freshness)
    && LeaseInForce(st, inst)
  }

  predicate ReadyEnough(q: RegistryQuery, inst: Instance) {
    || q.readiness == Readiness.UNKNOWN || q.readiness == inst.readiness
    || {q.readiness, inst.readiness} == {Readiness.READY, Readiness.PARTIALLY_READY}
  }

  predicate HealthyEnough(q: RegistryQuery, inst: Instance) {
    || q.health == Health.UNKNOWN || q.health == inst.health
    || (q.health == Health.DEGRADED && inst.health == Health.HEALTHY)
  }

  predicate ReachableEnough(q: RegistryQuery, inst: Instance) {
    || q.reachability == Reachability.UNKNOWN || q.reachability == inst.reachability
    || {q.reachability, inst.reachability} == {Reachability.REACHABLE, Reachability.DEGRADED}
  }

  predicate InGoodOrder(st: State, q: RegistryQuery, inst: Instance) {
    UpToDate(st, q, inst) && ReadyEnough(q, inst) && HealthyEnough(q, inst) && ReachableEnough(q, inst)
  }

  /** The query names a protocol and a version of it. */
  predicate NamesVersion(q: RegistryQuery) {
    q.protocol != 0 && q.protocolVersion.Some?
  }

  /** Some protocol of the instance is registered. */
  predicate Speaks(st: State, inst: Instance) {
    exists p :: p in inst.protocols && p in st.protocols
  }

  /** Some registered protocol of the instance has another major version than the query. */
  predicate Clashes(st: State, q: RegistryQuery, inst: Instance) {
    NamesVersion(q) &&
    exists p ::
      p in inst.protocols && p in st.protocols && st.protocols[p].version.major != q.protocolVersion.value.major
  }

  /** The instance has a registered protocol if the query names a version, and a current capability
      of every required kind. */
  predicate Able(st: State, q: RegistryQuery, inst: Instance) {
    && (NamesVersion(q) ==> Speaks(st, inst))
    && forall kind :: kind in q.requiredCapabilities ==>
         exists c :: (
           && c in inst.capabilities && c in st.capabilities
           && st.capabilities[c].kind == kind && st.capabilities[c].freshness == Freshness.CURRENT)
  }

  predicate Below(a: SemVer.StructuredVersion, b: SemVer.StructuredVersion) {
    a.major < b.major || (a.major == b.major && (a.minor < b.minor || (a.minor == b.minor && a.patch < b.patch)))
  }

  /** Runtime, architecture, API and ABI fit, as far as the query and the records name them. */
  predicate Fits(st: State, q: RegistryQuery, inst: Instance, svc: Service) {
    && (inst.runtimeInstance in st.runtimeInstances ==>
          var rt := st.runtimeInstances[inst.runtimeInstance];
          && (q.runtimeKind == RuntimeKind.UNKNOWN || q.runtimeKind == rt.kind)
          && (q.runtimeFamily == [] || q.runtimeFamily == rt.family)
          && (q.architecture == [] || rt.architecture == [] || q.architecture == rt.architecture))
    && (q.minimumApi.None? || !Below(svc.apiVersion, q.minimumApi.value))
    && (q.abi.None? || q.abi.value.major == svc.abiVersion.major)
  }

  /** The instance satisfies the query. */
  predicate Serves(st: State, q: RegistryQuery, i: Id) {
    && Wanted(st, q, i)
    && var inst := st.instances[i];
       InGoodOrder(st, q, inst) && Able(st, q, inst) && Fits(st, q, inst, st.services[inst.serviceId])
  }

  /** The instance falls short of the contract the query asks for: it speaks an incompatible protocol,
      or is able and does not fit. */
  predicate Mismatches(st: State, q: RegistryQuery, i: Id)
    requires Wanted(st, q, i)
  {
    var inst := st.instances[i];
    Clashes(st, q, inst) || (Able(st, q, inst) && !Fits(st, q, inst, st.services[inst.serviceId]))
  }

  // ---- what the filters say about one instance ----

  /** The filters reject the instance for the cause. */
  predicate Rejected(j: Judgement, cause: Cause) {
    exists c :: c in j.rejections && CauseOf(c) == cause
  }

  lemma RejectedBy(survives: bool, cause: Cause)
    ensures !Rejected(Judgement([], survives), cause)
    ensures forall c :: Rejected(Judgement([c], survives), cause) <==> CauseOf(c) == cause
    ensures forall c, d :: Rejected(Judgement([c, d], survives), cause) <==> CauseOf(c) == cause || CauseOf(d) == cause
  {
    hide CauseOf;
    forall c ensures Rejected(Judgement([c], survives), cause) <==> CauseOf(c) == cause {
      assert c in [c];
    }
    forall c, d ensures Rejected(Judgement([c, d], survives), cause) <==> CauseOf(c) == cause || CauseOf(d) == cause {
      assert c in [c, d] && d in [c, d];
    }
  }

  lemma StatusMeans(st: State, q: RegistryQuery, inst: Instance)
    ensures
      var v := StatusVerdict(st, q, inst);
      && (v == None <==> InGoodOrder(st, q, inst))
      && (v.Some? ==>
            CauseOf(v.value) ==
              if !UpToDate(st, q, inst) then AUTHORITY
              else if !ReadyEnough(q, inst) then NOT_READY
              else if !HealthyEnough(q, inst) then NOT_HEALTHY
              else NOT_REACHABLE)
  {
  }

  /** What counts as history for a query that asks for current instances only. */
  predicate Past(inst: Instance) {
    inst.lifecycle in {Lifecycle.SUPERSEDED, Lifecycle.TOMBSTONED, Lifecycle.RETIRED, Lifecycle.INVALIDATED}
  }

  /** The lifecycle stands in no query's way. */
  predicate Present(q: RegistryQuery, inst: Instance) {
    && inst.lifecycle !in {Lifecycle.STALE, Lifecycle.INVALIDATED, Lifecycle.TOMBSTONED}
    && (q.currentOnly ==> !Past(inst))
  }

  /** The reason given for an instance that is not in good order. */
  lemma ReasonExactly(st: State, q: RegistryQuery, inst: Instance)
    ensures
      var v := StatusVerdict(st, q, inst);
      var live := Present(q, inst) && inst.boot in st.authority.liveBoots;
      var current := live && q.freshness in {Freshness.UNKNOWN, inst.freshness};
      && (v == Some(INVALIDATED) <==> inst.lifecycle == Lifecycle.INVALIDATED && !q.currentOnly)
      && (v == Some(TOMBSTONED) <==> inst.lifecycle == Lifecycle.TOMBSTONED && !q.currentOnly)
      && (v == Some(STALE_AUTHORITY) <==> Present(q, inst) && inst.boot !in st.authority.liveBoots)
      && (v == Some(LEASE_INVALID) <==> current && !LeaseInForce(st, inst))
      && (v == Some(STALE) <==>
            || inst.lifecycle == Lifecycle.STALE || (q.currentOnly && Past(inst))
            || (live && q.freshness !in {Freshness.UNKNOWN, inst.freshness}))
      && (v == Some(UNREADY) <==> UpToDate(st, q, inst) && !ReadyEnough(q, inst))
      && (v == Some(UNHEALTHY) <==> UpToDate(st, q, inst) && ReadyEnough(q, inst) && !HealthyEnough(q, inst))
      && (v == Some(UNREACHABLE) <==>
            UpToDate(st, q, inst) && ReadyEnough(q, inst) && HealthyEnough(q, inst) && !ReachableEnough(q, inst))
  {
  }

  lemma {:induction false} CapabilityMeans(st: State, required: seq<CapabilityKind>, inst: Instance)
    ensures CapabilityVerdict(required, inst, st.capabilities) == None <==>
      forall kind :: kind in required ==> Provides(inst, kind, st.capabilities)
    ensures CapabilityVerdict(required, inst, st.capabilities).Some? ==>
      CauseOf(CapabilityVerdict(required, inst, st.capabilities).value) in {EVIDENCE, CAPABILITY}
    decreases |required|
  {
    if required != [] {
      assert required == [required[0]] + required[1..];
      hide Provides, Names;
      CapabilityMeans(st, required[1..], inst);
    }
  }

  lemma ProtocolMeans(st: State, q: RegistryQuery, inst: Instance)
    ensures
      var v := ProtocolVerdict(st, q, inst);
      && (v == Some(INSUFFICIENT_EVIDENCE) <==> NamesVersion(q) && !Speaks(st, inst))
      && (v == Some(INCOMPATIBLE_PROTOCOL) <==> Clashes(st, q, inst))
      && v in {None, Some(INSUFFICIENT_EVIDENCE), Some(INCOMPATIBLE_PROTOCOL)}
  {
    assert Clashes(st, q, inst) ==> Speaks(st, inst);
  }

  lemma ContractMeans(st: State, q: RegistryQuery, inst: Instance, svc: Service)
    ensures ContractVerdict(st, q, inst, svc) == None <==> Fits(st, q, inst, svc)
    ensures ContractVerdict(st, q, inst, svc).Some? ==> CauseOf(ContractVerdict(st, q, inst, svc).value) == CONTRACT
  {
  }

  /** The verdicts that were reached, in order. */
  lemma JudgementIs(st: State, q: RegistryQuery, inst: Instance, svc: Service)
    ensures
      var status := StatusVerdict(st, q, inst);
      var protocol := ProtocolVerdict(st, q, inst);
      var capability := CapabilityVerdict(q.requiredCapabilities, inst, st.capabilities);
      var contract := ContractVerdict(st, q, inst, svc);
      var last := if capability.Some? then capability else contract;
      Judge(st, q, inst, svc) ==
        if status.Some? then Judgement([status.value], false)
        else if protocol == Some(INSUFFICIENT_EVIDENCE) then Judgement([INSUFFICIENT_EVIDENCE], false)
        else if protocol.Some? && last.Some? then Judgement([protocol.value, last.value], false)
        else if protocol.Some? then Judgement([protocol.value], true)
        else if last.Some? then Judgement([last.value], false)
        else Judgement([], true)
  {
    hide StatusVerdict, ProtocolVerdict, CapabilityVerdict, ContractVerdict;
  }

  /** The status filters come first, and what they reject is looked at no further. */
  lemma StatusJudged(st: State, q: RegistryQuery, inst: Instance, svc: Service, cause: Cause)
    requires !InGoodOrder(st, q, inst)
    ensures !Judge(st, q, inst, svc).survives
    ensures Rejected(Judge(st, q, inst, svc), cause) <==>
      cause ==
        if !UpToDate(st, q, inst) then AUTHORITY
        else if !ReadyEnough(q, inst) then NOT_READY
        else if !HealthyEnough(q, inst) then NOT_HEALTHY
        else NOT_REACHABLE
  {
    hide StatusVerdict, UpToDate, ReadyEnough, HealthyEnough, ReachableEnough, Rejected;
    StatusMeans(st, q, inst);
    RejectedBy(false, cause);
  }

  lemma ContractJudged(st: State, q: RegistryQuery, inst: Instance, svc: Service, cause: Cause)
    requires InGoodOrder(st, q, inst) && cause !in {EVIDENCE, CAPABILITY}
    ensures Judge(st, q, inst, svc).survives <==> Able(st, q, inst) && Fits(st, q, inst, svc)
    ensures Rejected(Judge(st, q, inst, svc), cause) <==>
      cause == CONTRACT && (Clashes(st, q, inst) || (Able(st, q, inst) && !Fits(st, q, inst, svc)))
  {
    JudgementIs(st, q, inst, svc);
    StatusMeans(st, q, inst);
    ProtocolMeans(st, q, inst);
    CapabilityMeans(st, q.requiredCapabilities, inst);
    ContractMeans(st, q, inst, svc);
    assert Able(st, q, inst) <==>
      && (NamesVersion(q) ==> Speaks(st, inst))
      && CapabilityVerdict(q.requiredCapabilities, inst, st.capabilities) == None;
    assert CauseOf(INCOMPATIBLE_PROTOCOL) == CONTRACT && CauseOf(INSUFFICIENT_EVIDENCE) == EVIDENCE;
    hide Judge, StatusVerdict, ProtocolVerdict, CapabilityVerdict, ContractVerdict, InGoodOrder, Fits, Able,
      Clashes, Speaks,
         NamesVersion, Provides, Rejected, CauseOf;
    RejectedBy(false, cause);
    RejectedBy(true, cause);
  }

  /** The causes for which the filters reject an instance, and when it survives them. */
  lemma JudgedExactly(st: State, q: RegistryQuery, inst: Instance, svc: Service)
    ensures
      var j := Judge(st, q, inst, svc);
      && (j.survives <==> InGoodOrder(st, q, inst) && Able(st, q, inst) && Fits(st, q, inst, svc))
      && (Rejected(j, AUTHORITY) <==> !UpToDate(st, q, inst))
      && (Rejected(j, NOT_READY) <==> UpToDate(st, q, inst) && !ReadyEnough(q, inst))
      && (Rejected(j, NOT_HEALTHY) <==> UpToDate(st, q, inst) && ReadyEnough(q, inst) && !HealthyEnough(q, inst))
      && (Rejected(j, NOT_REACHABLE) <==>
            UpToDate(st, q, inst) && ReadyEnough(q, inst) && HealthyEnough(q, inst) && !ReachableEnough(q, inst))
      && (Rejected(j, CONTRACT) <==>
            && InGoodOrder(st, q, inst)
            && (Clashes(st, q, inst) || (Able(st, q, inst) && !Fits(st, q, inst, svc))))
  {
    hide Judge, Rejected, UpToDate, ReadyEnough, HealthyEnough, ReachableEnough, Fits, Able, Clashes;
    forall cause: Cause | cause !in {EVIDENCE, CAPABILITY}
      ensures InGoodOrder(st, q, inst) ==>
        (Rejected(Judge(st, q, inst, svc), cause) <==>
          cause == CONTRACT && (Clashes(st, q, inst) || (Able(st, q, inst) && !Fits(st, q, inst, svc))))
    {
      if InGoodOrder(st, q, inst) {
        ContractJudged(st, q, inst, svc, cause);
      }
    }
    if InGoodOrder(st, q, inst) {
      ContractJudged(st, q, inst, svc, CONTRACT);
    } else {
      StatusJudged(st, q, inst, svc, AUTHORITY);
      StatusJudged(st, q, inst, svc, NOT_READY);
      StatusJudged(st, q, inst, svc, NOT_HEALTHY);
      StatusJudged(st, q, inst, svc, NOT_REACHABLE);
      StatusJudged(st, q, inst, svc, CONTRACT);
    }
  }

  // ---- which instances are looked at ----

  lemma ScopeMeans(st: State, q: RegistryQuery, i: Id)
    ensures InScope(st, q, i) <==> Asked(st, q, i)
    ensures Considered(st, q, i) <==> Wanted(st, q, i)
    ensures SkippedByKind(st, q, i) <==> Asked(st, q, i) && !OfKind(st, q, i)
    ensures Survives(st, q, i) <==> Serves(st, q, i)
  {
    if Considered(st, q, i) {
      JudgedExactly(st, q, st.instances[i], st.services[st.instances[i].serviceId]);
    }
    hide Judge, InGoodOrder, Able, Fits;
  }

  /** Some wanted instance is rejected for the cause. */
  lemma SawMeans(st: State, q: RegistryQuery, cause: Cause)
    ensures Saw(st, q, cause) <==>
      exists i :: i in st.instances && Considered(st, q, i) && Rejected(Judged(st, q, i), cause)
  {
    hide Judged, Considered, CauseOf;
    if i :| i in st.instances && Considered(st, q, i) && Rejected(Judged(st, q, i), cause) {
      var c :| c in Judged(st, q, i).rejections && CauseOf(c) == cause;
      assert Rejects(st, q, i, c);
    }
    if Saw(st, q, cause) {
      var i, c :| i in st.instances && Rejects(st, q, i, c) && CauseOf(c) == cause;
      assert Rejected(Judged(st, q, i), cause);
    }
  }

  /** The ranked instances are exactly those that satisfy the query. */
  lemma RankedExactly(st: State, q: RegistryQuery, a: Answer, i: Id)
    requires IsAnswer(st, q, a)
    ensures i in IdsOf(a.ranked) <==> Serves(st, q, i)
  {
    hide EmptyOutcome, RejectionsIn, ConsideredIn, Serves, Survives, StrictlyRanked;
    QueryTheorems.RankingIsSorted(st, q, a.ranked);
    ScopeMeans(st, q, i);
    SurvivorIsThere(st, q, i);
    hide IsAnswer;
  }

  lemma SurvivorIsThere(st: State, q: RegistryQuery, i: Id)
    ensures Survives(st, q, i) ==> i in st.instances
  {
    hide Judged, KindMatches;
  }

  // ---- the nine outcomes ----

  predicate SomeServe(st: State, q: RegistryQuery) {
    exists i :: i in st.instances && Serves(st, q, i)
  }

  ghost predicate OneServes(st: State, q: RegistryQuery) {
    exists i :: Serves(st, q, i) && forall j :: Serves(st, q, j) ==> j == i
  }

  ghost predicate TwoServe(st: State, q: RegistryQuery) {
    exists i, j :: Serves(st, q, i) && Serves(st, q, j) && i != j
  }

  predicate SomeOutdated(st: State, q: RegistryQuery) {
    exists i :: i in st.instances && Wanted(st, q, i) && !UpToDate(st, q, st.instances[i])
  }

  predicate SomeUnready(st: State, q: RegistryQuery) {
    exists i :: i in st.instances && Wanted(st, q, i) && !ReadyEnough(q, st.instances[i])
  }

  predicate SomeUnhealthy(st: State, q: RegistryQuery) {
    exists i :: i in st.instances && Wanted(st, q, i) && !HealthyEnough(q, st.instances[i])
  }

  predicate SomeUnreachable(st: State, q: RegistryQuery) {
    exists i :: i in st.instances && Wanted(st, q, i) && !ReachableEnough(q, st.instances[i])
  }

  /** Some instance in question is of another kind, or does not match. */
  predicate SomeIncompatible(st: State, q: RegistryQuery) {
    || (exists i :: i in st.instances && Asked(st, q, i) && !OfKind(st, q, i))
    || (exists i :: i in st.instances && Wanted(st, q, i) && Mismatches(st, q, i))
  }

  predicate SomeAsked(st: State, q: RegistryQuery) {
    exists i :: i in st.instances && Asked(st, q, i)
  }

  /** No wanted instance fails lifecycle, process, freshness, lease, readiness, health or reachability. */
  predicate AllInGoodOrder(st: State, q: RegistryQuery) {
    !SomeOutdated(st, q) && !SomeUnready(st, q) && !SomeUnhealthy(st, q) && !SomeUnreachable(st, q)
  }

  /** What the judgement of a wanted instance says about it. */
  predicate JudgedAs(st: State, q: RegistryQuery, i: Id)
    requires Considered(st, q, i)
  {
    var inst := st.instances[i];
    var j := Judged(st, q, i);
    && (Rejected(j, AUTHORITY) <==> !UpToDate(st, q, inst))
    && (Rejected(j, NOT_READY) <==> UpToDate(st, q, inst) && !ReadyEnough(q, inst))
    && (Rejected(j, NOT_HEALTHY) <==> UpToDate(st, q, inst) && ReadyEnough(q, inst) && !HealthyEnough(q, inst))
    && (Rejected(j, NOT_REACHABLE) <==>
          UpToDate(st, q, inst) && ReadyEnough(q, inst) && HealthyEnough(q, inst) && !ReachableEnough(q, inst))
    && (Rejected(j, CONTRACT) <==>
          && InGoodOrder(st, q, inst)
          && (Clashes(st, q, inst)
              || (Able(st, q, inst) && !Fits(st, q, inst, st.services[inst.serviceId]))))
  }

  lemma WantedJudged(st: State, q: RegistryQuery, i: Id)
    ensures InScope(st, q, i) <==> Asked(st, q, i)
    ensures Considered(st, q, i) <==> Wanted(st, q, i)
    ensures SkippedByKind(st, q, i) <==> Asked(st, q, i) && !OfKind(st, q, i)
    ensures Considered(st, q, i) ==> JudgedAs(st, q, i)
  {
    ScopeMeans(st, q, i);
    if Considered(st, q, i) {
      JudgedExactly(st, q, st.instances[i], st.services[st.instances[i].serviceId]);
    }
    hide Judge, UpToDate, ReadyEnough, HealthyEnough, ReachableEnough, Able, Fits, Clashes, Rejected;
  }

  /** The flags about status. */
  lemma StatusFlagsMean(st: State, q: RegistryQuery)
    ensures Saw(st, q, AUTHORITY) <==> SomeOutdated(st, q)
    ensures !SomeOutdated(st, q) ==> (Saw(st, q, NOT_READY) <==> SomeUnready(st, q))
    ensures !SomeOutdated(st, q) && !SomeUnready(st, q) ==> (Saw(st, q, NOT_HEALTHY) <==> SomeUnhealthy(st, q))
    ensures !SomeOutdated(st, q) && !SomeUnready(st, q) && !SomeUnhealthy(st, q) ==>
      (Saw(st, q, NOT_REACHABLE) <==> SomeUnreachable(st, q))
  {
    hide Judged, UpToDate, ReadyEnough, HealthyEnough, ReachableEnough, Able, Fits, Clashes, Rejected,
      Considered, Wanted, Saw;
    forall i
      ensures Considered(st, q, i) <==> Wanted(st, q, i)
      ensures Considered(st, q, i) ==> JudgedAs(st, q, i)
    {
      WantedJudged(st, q, i);
    }
    SawMeans(st, q, AUTHORITY);
    SawMeans(st, q, NOT_READY);
    SawMeans(st, q, NOT_HEALTHY);
    SawMeans(st, q, NOT_REACHABLE);
  }

  /** The flags about what was in question. */
  lemma ScopeFlagsMean(st: State, q: RegistryQuery)
    ensures SawAny(st, q) <==> SomeAsked(st, q)
    ensures AllInGoodOrder(st, q) ==> (Saw(st, q, CONTRACT) || SawSkipped(st, q) <==> SomeIncompatible(st, q))
  {
    hide Judged, UpToDate, ReadyEnough, HealthyEnough, ReachableEnough, Able, Fits, Clashes, Rejected, Considered, Saw,
         InScope, SkippedByKind, Asked;
    forall i
      ensures InScope(st, q, i) <==> Asked(st, q, i)
      ensures Considered(st, q, i) <==> Wanted(st, q, i)
      ensures SkippedByKind(st, q, i) <==> Asked(st, q, i) && !OfKind(st, q, i)
      ensures Considered(st, q, i) ==> JudgedAs(st, q, i)
    {
      WantedJudged(st, q, i);
    }
    SawMeans(st, q, CONTRACT);
    hide OfKind;
  }

  lemma EmptyOutcomeMeans(st: State, q: RegistryQuery)
    ensures EmptyOutcome(st, q) ==
      if !SomeAsked(st, q) then NOT_FOUND
      else if SomeOutdated(st, q) then STALE_ONLY
      else if SomeUnready(st, q) then UNREADY_ONLY
      else if SomeUnhealthy(st, q) then UNHEALTHY_ONLY
      else if SomeUnreachable(st, q) then UNREACHABLE_ONLY
      else if SomeIncompatible(st, q) then INCOMPATIBLE_ONLY
      else NO_EVIDENCE
  {
    hide Saw, SawSkipped, SawAny, SomeOutdated, SomeUnready, SomeUnhealthy, SomeUnreachable,
      SomeIncompatible, SomeAsked;
    StatusFlagsMean(st, q);
    ScopeFlagsMean(st, q);
  }

  /** Exactly when a query has each of its nine outcomes. */
  lemma OutcomeExactly(st: State, q: RegistryQuery, a: Answer)
    requires IsAnswer(st, q, a)
    ensures a.outcome == FOUND_EXACT <==> OneServes(st, q)
    ensures a.outcome == FOUND_MULTIPLE <==> TwoServe(st, q)
    ensures a.outcome == NOT_FOUND <==> !SomeAsked(st, q)
    ensures a.outcome == STALE_ONLY <==> !SomeServe(st, q) && SomeOutdated(st, q)
    ensures a.outcome == UNREADY_ONLY <==> !SomeServe(st, q) && !SomeOutdated(st, q) && SomeUnready(st, q)
    ensures a.outcome == UNHEALTHY_ONLY <==>
      !SomeServe(st, q) && !SomeOutdated(st, q) && !SomeUnready(st, q) && SomeUnhealthy(st, q)
    ensures a.outcome == UNREACHABLE_ONLY <==>
      && !SomeServe(st, q) && !SomeOutdated(st, q) && !SomeUnready(st, q) && !SomeUnhealthy(st, q)
      && SomeUnreachable(st, q)
    ensures a.outcome == INCOMPATIBLE_ONLY <==>
      !SomeServe(st, q) && AllInGoodOrder(st, q) && SomeIncompatible(st, q)
    ensures a.outcome == NO_EVIDENCE <==>
      !SomeServe(st, q) && AllInGoodOrder(st, q) && !SomeIncompatible(st, q) && SomeAsked(st, q)
  {
    hide SomeOutdated, SomeUnready, SomeUnhealthy, SomeUnreachable, SomeIncompatible, SomeAsked, SomeServe,
      OneServes, TwoServe,
         EmptyOutcome, IsRanking, RejectionsIn, ConsideredIn;
    EmptyOutcomeMeans(st, q);
    ServersAreRanked(st, q, a);
    if !SomeAsked(st, q) {
      NothingAsked(st, q);
    }
  }

  /** With nothing asked for, nothing is found, and nothing is wrong with it. */
  lemma NothingAsked(st: State, q: RegistryQuery)
    requires !SomeAsked(st, q)
    ensures !SomeServe(st, q) && AllInGoodOrder(st, q) && !SomeIncompatible(st, q)
  {
  }

  /** The ids are those of the instances that serve, each once. */
  ghost predicate Lists(ids: seq<Id>, st: State, q: RegistryQuery) {
    && (forall i :: i in ids <==> Serves(st, q, i))
    && forall j, k :: 0 <= j < k < |ids| ==> ids[j] != ids[k]
  }

  lemma NobodyListed(ids: seq<Id>, st: State, q: RegistryQuery)
    requires Lists(ids, st, q) && ids == []
    ensures !SomeServe(st, q) && !OneServes(st, q) && !TwoServe(st, q)
  {
    hide Serves;
    assert forall i :: Serves(st, q, i) ==> i in ids;
  }

  lemma FirstServes(ids: seq<Id>, st: State, q: RegistryQuery)
    requires Lists(ids, st, q) && ids != []
    ensures Serves(st, q, ids[0]) && SomeServe(st, q)
  {
    assert ids[0] in ids;
    ServerIsThere(st, q, ids[0]);
    hide Serves;
  }

  lemma OneListed(ids: seq<Id>, st: State, q: RegistryQuery)
    requires Lists(ids, st, q) && |ids| == 1
    ensures SomeServe(st, q) && OneServes(st, q) && !TwoServe(st, q)
  {
    FirstServes(ids, st, q);
    hide Serves, SomeServe;
    assert forall i :: Serves(st, q, i) ==> i in ids && i == ids[0];
  }

  lemma SecondServes(ids: seq<Id>, st: State, q: RegistryQuery)
    requires Lists(ids, st, q) && |ids| > 1
    ensures Serves(st, q, ids[1]) && ids[1] != ids[0]
  {
    hide Serves;
    assert ids[1] in ids;
  }

  lemma TwoListed(ids: seq<Id>, st: State, q: RegistryQuery)
    requires Lists(ids, st, q) && |ids| > 1
    ensures SomeServe(st, q) && !OneServes(st, q) && TwoServe(st, q)
  {
    hide Serves, SomeServe, Lists;
    FirstServes(ids, st, q);
    SecondServes(ids, st, q);
    assert !OneServes(st, q) by {
      if i :| Serves(st, q, i) && forall j :: Serves(st, q, j) ==> j == i {
        assert ids[0] == i && ids[1] == i;
      }
    }
  }

  lemma ServersAreRanked(st: State, q: RegistryQuery, a: Answer)
    requires IsAnswer(st, q, a)
    ensures a.ranked == [] <==> !SomeServe(st, q)
    ensures |a.ranked| == 1 <==> OneServes(st, q)
    ensures |a.ranked| > 1 <==> TwoServe(st, q)
  {
    hide IsAnswer, SomeServe, OneServes, TwoServe, Serves;
    var ids := IdsOf(a.ranked);
    assert Lists(ids, st, q) by {
      RankedDiffer(st, q, a);
      forall i ensures i in ids <==> Serves(st, q, i) { RankedExactly(st, q, a, i); }
    }
    hide Lists;
    if ids == [] {
      NobodyListed(ids, st, q);
    } else if |ids| == 1 {
      OneListed(ids, st, q);
    } else {
      TwoListed(ids, st, q);
    }
  }

  lemma RankedDiffer(st: State, q: RegistryQuery, a: Answer)
    requires IsAnswer(st, q, a)
    ensures forall j, k :: 0 <= j < k < |a.ranked| ==> IdsOf(a.ranked)[j] != IdsOf(a.ranked)[k]
  {
    hide Survives, EmptyOutcome, RejectionsIn, ConsideredIn, FactorsOf, Sum;
  }

  lemma ServerIsThere(st: State, q: RegistryQuery, i: Id)
    ensures Serves(st, q, i) ==> i in st.instances
  {
  }

  /** The rest of an answer: how many instances were looked at, who is ranked where with which total,
      and that the first of them are selected, as many as the query admits. */
  lemma AnswerExactly(st: State, q: RegistryQuery, a: Answer)
    requires IsAnswer(st, q, a)
    ensures a.considered == |set i | i in st.instances && Wanted(st, q, i)|
    ensures |a.selected| == if |a.ranked| < q.maxResults then |a.ranked| else q.maxResults
    ensures forall j :: 0 <= j < |a.selected| ==> a.selected[j] == a.ranked[j].id
    ensures forall j :: 0 <= j < |a.ranked| ==>
      var c := a.ranked[j];
      && c.rank == j && Serves(st, q, c.id)
      && var inst := st.instances[c.id];
         var svc := st.services[inst.serviceId];
         c.total == QueryTheorems.ContractScore(q, inst.serviceId, svc) + 100.0 + QueryTheorems.StatusScore(q, inst)
    ensures forall j, k :: 0 <= j < k < |a.ranked| ==>
      || a.ranked[j].total > a.ranked[k].total
      || (a.ranked[j].total == a.ranked[k].total && a.ranked[j].id < a.ranked[k].id)
  {
    LookedAt(st, q);
    hide Serves, FactorsOf, Sum, EmptyOutcome, RejectionsIn, ConsideredIn, Survives, Wanted,
         QueryTheorems.ContractScore, QueryTheorems.StatusScore;
    forall j | 0 <= j < |a.ranked| ensures TotalOf(st, q, a.ranked[j]) {
      RankedTotal(st, q, a.ranked[j]);
    }
  }

  ghost predicate TotalOf(st: State, q: RegistryQuery, c: Candidate) {
    && Serves(st, q, c.id)
    && var inst := st.instances[c.id];
       var svc := st.services[inst.serviceId];
       c.total == QueryTheorems.ContractScore(q, inst.serviceId, svc) + 100.0 + QueryTheorems.StatusScore(q, inst)
  }

  lemma RankedTotal(st: State, q: RegistryQuery, c: Candidate)
    requires Survives(st, q, c.id) && c.total == Sum(FactorsOf(st, q, c.id))
    ensures TotalOf(st, q, c)
  {
    ScopeMeans(st, q, c.id);
    var inst := st.instances[c.id];
    var svc := st.services[inst.serviceId];
    assert Judge(st, q, inst, svc).survives by {
      hide Judge;
    }
    hide Judge, Serves, Sum, Factors, Completeness, QueryTheorems.ContractScore, QueryTheorems.StatusScore;
    QueryTheorems.FullCompleteness(st, q, inst);
    QueryTheorems.TotalIs(st, q, inst, svc);
  }

  lemma LookedAt(st: State, q: RegistryQuery)
    ensures ConsideredIn(st, q) == set i | i in st.instances && Wanted(st, q, i)
  {
    forall i ensures Considered(st, q, i) <==> Wanted(st, q, i) { ScopeMeans(st, q, i); }
    hide Considered, Wanted;
  }
}
