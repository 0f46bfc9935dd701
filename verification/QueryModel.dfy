/** Discovery queries of src/selection.cpp: the hard filters, the score, and what an answer is. */
module QueryModel {
  import opened Base
  import opened Enums
  import opened SemVer
  import opened Records
  import opened RegistryModel

  datatype RegistryQuery = RegistryQuery(
    kind: ServiceKind, exactService: Id, runtimeKind: RuntimeKind, runtimeFamily: Bytes,
    minimumApi: Option<StructuredVersion>, abi: Option<StructuredVersion>,
    protocol: Id, protocolVersion: Option<StructuredVersion>,
    requiredCapabilities: seq<CapabilityKind>, architecture: Bytes,
    health: Health, readiness: Readiness, freshness: Freshness, reachability: Reachability,
    preferredNode: Id, preferredRuntime: Id, versionPolicy: VersionPolicy,
    currentOnly: bool, maxResults: nat)

  /** A query as its constructor leaves it, for one kind of service. */
  function DefaultQuery(kind: ServiceKind): RegistryQuery {
    RegistryQuery(kind, 0, RuntimeKind.UNKNOWN, [], None, None, 0, None, [], [],
                  Health.UNKNOWN, Readiness.UNKNOWN, Freshness.CURRENT, Reachability.REACHABLE,
                  0, 0, VersionPolicy.PREFER_RECENT, true, 32)
  }

  datatype Category =
    | WRONG_RUNTIME | STALE | INVALIDATED | TOMBSTONED | STALE_AUTHORITY | LEASE_INVALID
    | UNREADY | UNHEALTHY | UNREACHABLE | MISSING_CAPABILITY | INCOMPATIBLE_PROTOCOL
    | INCOMPATIBLE_ABI | ARCHITECTURE_MISMATCH | BELOW_MIN_VERSION | INSUFFICIENT_EVIDENCE

  /** The groups of categories that `query` keeps a flag for. */
  datatype Cause = AUTHORITY | NOT_READY | NOT_HEALTHY | NOT_REACHABLE | CONTRACT | EVIDENCE | CAPABILITY

  function CauseOf(c: Category): Cause {
    match c
    case STALE | STALE_AUTHORITY | LEASE_INVALID | INVALIDATED | TOMBSTONED => AUTHORITY
    case UNREADY => NOT_READY
    case UNHEALTHY => NOT_HEALTHY
    case UNREACHABLE => NOT_REACHABLE
    case INCOMPATIBLE_PROTOCOL | INCOMPATIBLE_ABI | BELOW_MIN_VERSION | ARCHITECTURE_MISMATCH | WRONG_RUNTIME =>
      CONTRACT
    case INSUFFICIENT_EVIDENCE => EVIDENCE
    case MISSING_CAPABILITY => CAPABILITY
  }

  datatype Factor =
    | EXACT_SERVICE_ID | EXACT_API_VERSION | EXACT_ABI | CAPABILITY_COMPLETENESS | READINESS | HEALTH
    | LOCALITY | RUNTIME_PREFERENCE | VERSION_RECENCY | ENDPOINT_REACHABILITY | FRESHNESS | POLICY_PREFERENCE

  datatype QueryOutcome =
    | FOUND_EXACT | FOUND_MULTIPLE | NOT_FOUND | STALE_ONLY | UNREADY_ONLY | UNHEALTHY_ONLY
    | UNREACHABLE_ONLY | INCOMPATIBLE_ONLY | NO_EVIDENCE

  datatype Candidate = Candidate(id: Id, factors: seq<(Factor, real)>, total: real, rank: nat)
  datatype Rejection = Rejection(id: Id, category: Category)
  datatype Answer = Answer(outcome: QueryOutcome, ranked: seq<Candidate>, rejected: seq<Rejection>, selected: seq<Id>,
      considered: nat)

  // ---- single filters ----

  predicate ReadinessMeets(actual: Readiness, required: Readiness) {
    if required == Readiness.UNKNOWN then true
    else if required == Readiness.READY || required == Readiness.PARTIALLY_READY then
      actual == Readiness.READY || actual == Readiness.PARTIALLY_READY
    else actual == required
  }

  predicate HealthMeets(actual: Health, required: Health) {
    if required == Health.UNKNOWN then true
    else if required == Health.DEGRADED then actual == Health.DEGRADED || actual == Health.HEALTHY
    else actual == required
  }

  predicate ReachabilityMeets(actual: Reachability, required: Reachability) {
    if required == Reachability.UNKNOWN then true
    else if required == Reachability.REACHABLE || required == Reachability.DEGRADED then
      actual == Reachability.REACHABLE || actual == Reachability.DEGRADED
    else actual == required
  }

  predicate FreshnessMeets(actual: Freshness, required: Freshness) {
    required == Freshness.UNKNOWN || actual == required
  }

  datatype Negotiation = EXACT | INCOMPATIBLE | UPGRADE_REQUIRED | DOWNGRADE_ALLOWED

  function NegotiateProtocol(required: StructuredVersion, offered: StructuredVersion,
      exactRequired: bool): Negotiation {
    if required == offered then EXACT
    else if exactRequired then INCOMPATIBLE
    else if required.major != offered.major then INCOMPATIBLE
    else if required.minor == offered.minor then EXACT
    else if offered.minor > required.minor then UPGRADE_REQUIRED
    else DOWNGRADE_ALLOWED
  }

  // ---- which instances are looked at ----

  /** The service and identity tests, before the kind is compared. */
  predicate InScope(st: State, q: RegistryQuery, i: Id) {
    i in st.instances && st.instances[i].serviceId in st.services
    && (q.exactService != 0 ==> st.instances[i].serviceId == q.exactService)
  }

  predicate KindMatches(st: State, q: RegistryQuery, i: Id)
    requires InScope(st, q, i)
  {
    q.kind != ServiceKind.UNKNOWN ==> st.services[st.instances[i].serviceId].kind == q.kind
  }

  predicate Considered(st: State, q: RegistryQuery, i: Id) {
    InScope(st, q, i) && KindMatches(st, q, i)
  }

  predicate SkippedByKind(st: State, q: RegistryQuery, i: Id) {
    InScope(st, q, i) && !KindMatches(st, q, i)
  }

  // ---- the cascade of hard filters ----

  function StatusVerdict(st: State, q: RegistryQuery, inst: Instance): Option<Category> {
    if q.currentOnly && inst.lifecycle.Terminal() then Some(STALE)
    else if inst.lifecycle == Lifecycle.STALE then Some(STALE)
    else if inst.lifecycle == Lifecycle.INVALIDATED then Some(INVALIDATED)
    else if inst.lifecycle == Lifecycle.TOMBSTONED then Some(TOMBSTONED)
    else if inst.boot !in st.authority.liveBoots then Some(STALE_AUTHORITY)
    else if !FreshnessMeets(inst.freshness, q.freshness) then Some(STALE)
    else if !LeaseHolds(inst, st.leases) then Some(LEASE_INVALID)
    else if !ReadinessMeets(inst.readiness, q.readiness) then Some(UNREADY)
    else if !HealthMeets(inst.health, q.health) then Some(UNHEALTHY)
    else if !ReachabilityMeets(inst.reachability, q.reachability) then Some(UNREACHABLE)
    else None
  }

  predicate ChecksProtocol(q: RegistryQuery) {
    q.protocol != 0 && q.protocolVersion.Some?
  }

  /** Some protocol of the instance is registered. */
  predicate SpeaksKnown(inst: Instance, protocols: map<Id, Protocol>) {
    exists p :: p in inst.protocols && p in protocols
  }

  /** Some registered protocol of the instance has another major version. */
  predicate SpeaksIncompatible(inst: Instance, v: StructuredVersion, protocols: map<Id, Protocol>) {
    exists p ::
      p in inst.protocols && p in protocols && NegotiateProtocol(v, protocols[p].version, false) == INCOMPATIBLE
  }

  /** An incompatible protocol is recorded as a rejection, but the instance stays in the running. */
  function ProtocolVerdict(st: State, q: RegistryQuery, inst: Instance): Option<Category> {
    if !ChecksProtocol(q) then None
    else if SpeaksIncompatible(inst, q.protocolVersion.value, st.protocols) then Some(INCOMPATIBLE_PROTOCOL)
    else if SpeaksKnown(inst, st.protocols) then None
    else Some(INSUFFICIENT_EVIDENCE)
  }

  /** The instance names a registered capability of the kind, current or not. */
  predicate Names(inst: Instance, kind: CapabilityKind, capabilities: map<Id, Capability>) {
    exists c :: c in inst.capabilities && c in capabilities && capabilities[c].kind == kind
  }

  /** The first required capability the instance does not provide. */
  function CapabilityVerdict(required: seq<CapabilityKind>, inst: Instance,
      capabilities: map<Id, Capability>): Option<Category>
    decreases |required|
  {
    if required == [] then None
    else if Provides(inst, required[0], capabilities) then CapabilityVerdict(required[1..], inst, capabilities)
    else if Names(inst, required[0], capabilities) then Some(INSUFFICIENT_EVIDENCE)
    else Some(MISSING_CAPABILITY)
  }

  function ContractVerdict(st: State, q: RegistryQuery, inst: Instance, svc: Service): Option<Category> {
    var runs := inst.runtimeInstance in st.runtimeInstances;
    if runs && q.runtimeKind != RuntimeKind.UNKNOWN
      && st.runtimeInstances[inst.runtimeInstance].kind != q.runtimeKind then Some(WRONG_RUNTIME)
    else if runs && q.runtimeFamily != [] && st.runtimeInstances[inst.runtimeInstance].family != q.runtimeFamily then
      Some(WRONG_RUNTIME)
    else if runs && q.architecture != [] && st.runtimeInstances[inst.runtimeInstance].architecture != []
      && st.runtimeInstances[inst.runtimeInstance].architecture != q.architecture then Some(ARCHITECTURE_MISMATCH)
    else if q.minimumApi.Some? && svc.apiVersion.Less(q.minimumApi.value) then Some(BELOW_MIN_VERSION)
    else if q.abi.Some? && svc.abiVersion.major != q.abi.value.major then Some(INCOMPATIBLE_ABI)
    else None
  }

  /** What the filters say about one instance. */
  datatype Judgement = Judgement(rejections: seq<Category>, survives: bool)

  function Judge(st: State, q: RegistryQuery, inst: Instance, svc: Service): Judgement {
    var status := StatusVerdict(st, q, inst);
    if status.Some? then Judgement([status.value], false)
    else
      var protocol := ProtocolVerdict(st, q, inst);
      var noted := if protocol.Some? then [protocol.value] else [];
      if protocol == Some(INSUFFICIENT_EVIDENCE) then Judgement(noted, false)
      else
        var capability := CapabilityVerdict(q.requiredCapabilities, inst, st.capabilities);
        if capability.Some? then Judgement(noted + [capability.value], false)
        else
          var contract := ContractVerdict(st, q, inst, svc);
          if contract.Some? then Judgement(noted + [contract.value], false) else Judgement(noted, true)
  }

  function Judged(st: State, q: RegistryQuery, i: Id): Judgement
    requires Considered(st, q, i)
  {
    Judge(st, q, st.instances[i], st.services[st.instances[i].serviceId])
  }

  predicate Survives(st: State, q: RegistryQuery, i: Id) {
    Considered(st, q, i) && Judged(st, q, i).survives
  }

  predicate Rejects(st: State, q: RegistryQuery, i: Id, c: Category) {
    Considered(st, q, i) && c in Judged(st, q, i).rejections
  }

  // ---- the score ----

  /** How many of the required kinds the instance provides. */
  function Provided(required: seq<CapabilityKind>, inst: Instance, capabilities: map<Id, Capability>): nat
    decreases |required|
  {
    if required == [] then 0
    else
      Provided(required[..|required| - 1], inst, capabilities) +
      (if Provides(inst, required[|required| - 1], capabilities) then 1 else 0)
  }

  function Completeness(st: State, q: RegistryQuery, inst: Instance): real {
    if q.requiredCapabilities == [] then 100.0
    else Provided(q.requiredCapabilities, inst, st.capabilities) as real / |q.requiredCapabilities| as real * 100.0
  }

  function Factors(st: State, q: RegistryQuery, inst: Instance, svc: Service): seq<(Factor, real)> {
    [ (EXACT_SERVICE_ID, if q.exactService != 0 && inst.serviceId == q.exactService then 1000.0 else 0.0),
      (EXACT_API_VERSION, if q.minimumApi == Some(svc.apiVersion) then 200.0 else 0.0),
      (EXACT_ABI, if q.abi == Some(svc.abiVersion) then 150.0
        else if q.abi.Some? && svc.abiVersion.major == q.abi.value.major then 80.0 else 0.0),
      (CAPABILITY_COMPLETENESS, Completeness(st, q, inst)),
      (READINESS, if inst.readiness == Readiness.READY then 80.0
        else if inst.readiness == Readiness.PARTIALLY_READY then 40.0 else 0.0),
      (HEALTH, if inst.health == Health.HEALTHY then 80.0 else if inst.health == Health.DEGRADED then 40.0 else 0.0),
      (LOCALITY, if q.preferredNode != 0 && inst.node == q.preferredNode then 100.0 else 0.0),
      (RUNTIME_PREFERENCE, if q.preferredRuntime != 0 && inst.runtimeId == q.preferredRuntime then 100.0 else 0.0),
      (VERSION_RECENCY, (svc.version.major * 100 + svc.version.minor * 10 + svc.version.patch) as real),
      (ENDPOINT_REACHABILITY, if inst.reachability == Reachability.REACHABLE then 60.0
        else if inst.reachability == Reachability.DEGRADED then 30.0 else 0.0),
      (Factor.FRESHNESS, if inst.freshness == Freshness.CURRENT then 100.0 else 0.0),
      (POLICY_PREFERENCE, if q.versionPolicy == VersionPolicy.PREFER_RECENT then 10.0 else 0.0) ]
  }

  function Sum(factors: seq<(Factor, real)>): real {
    if factors == [] then 0.0 else Sum(factors[..|factors| - 1]) + factors[|factors| - 1].1
  }

  function FactorsOf(st: State, q: RegistryQuery, i: Id): seq<(Factor, real)>
    requires Considered(st, q, i)
  {
    Factors(st, q, st.instances[i], st.services[st.instances[i].serviceId])
  }

  // ---- what an answer is ----

  /** Higher totals first; on a tie the smaller identity. */
  predicate Before(a: Candidate, b: Candidate) {
    a.total > b.total || (a.total == b.total && a.id < b.id)
  }

  predicate StrictlyRanked(ranked: seq<Candidate>) {
    forall j, k :: 0 <= j < k < |ranked| ==> Before(ranked[j], ranked[k])
  }

  /** The ranked list holds exactly the survivors, each scored, in strict order. */
  predicate IsRanking(st: State, q: RegistryQuery, ranked: seq<Candidate>) {
    && StrictlyRanked(ranked)
    && (forall j :: 0 <= j < |ranked| ==>
         && Survives(st, q, ranked[j].id)
         && ranked[j] == Candidate(ranked[j].id, FactorsOf(st, q, ranked[j].id),
              Sum(FactorsOf(st, q, ranked[j].id)), j))
    && (forall i :: i in st.instances && Survives(st, q, i) ==> exists j :: 0 <= j < |ranked| && ranked[j].id == i)
  }

  function IdsOf(ranked: seq<Candidate>): (ids: seq<Id>)
    ensures |ids| == |ranked| && forall j :: 0 <= j < |ids| ==> ids[j] == ranked[j].id
  {
    seq(|ranked|, j requires 0 <= j < |ranked| => ranked[j].id)
  }

  function Truncated<T>(s: seq<T>, n: nat): seq<T> {
    if |s| > n then s[..n] else s
  }

  /** Some considered instance was rejected for the cause. */
  predicate Saw(st: State, q: RegistryQuery, cause: Cause) {
    exists i, c :: i in st.instances && Rejects(st, q, i, c) && CauseOf(c) == cause
  }

  predicate SawSkipped(st: State, q: RegistryQuery) {
    exists i :: i in st.instances && SkippedByKind(st, q, i)
  }

  predicate SawAny(st: State, q: RegistryQuery) {
    exists i :: i in st.instances && InScope(st, q, i)
  }

  /** The outcome when nothing survived. */
  function EmptyOutcome(st: State, q: RegistryQuery): QueryOutcome {
    if !SawAny(st, q) then NOT_FOUND
    else if Saw(st, q, AUTHORITY) then STALE_ONLY
    else if Saw(st, q, NOT_READY) then UNREADY_ONLY
    else if Saw(st, q, NOT_HEALTHY) then UNHEALTHY_ONLY
    else if Saw(st, q, NOT_REACHABLE) then UNREACHABLE_ONLY
    else if SawSkipped(st, q) || Saw(st, q, CONTRACT) then INCOMPATIBLE_ONLY
    else NO_EVIDENCE
  }

  /** One order in which a hash map may be walked. */
  ghost predicate Enumerates(order: seq<Id>, keys: set<Id>) {
    && (forall i :: i in keys <==> i in order)
    && forall j, k :: 0 <= j < k < |order| ==> order[j] != order[k]
  }

  function RejectionsOf(st: State, q: RegistryQuery, i: Id): seq<Rejection> {
    if !Considered(st, q, i) then []
    else
      var rejections := Judged(st, q, i).rejections;
      seq(|rejections|, j requires 0 <= j < |rejections| => Rejection(i, rejections[j]))
  }

  /** The rejections in the order of the walk. */
  function RejectionsIn(st: State, q: RegistryQuery, order: seq<Id>): seq<Rejection> {
    if order == [] then []
    else RejectionsIn(st, q, order[..|order| - 1]) + RejectionsOf(st, q, order[|order| - 1])
  }

  function ConsideredIn(st: State, q: RegistryQuery): set<Id> {
    set i | i in st.instances && Considered(st, q, i)
  }

  /** What a query may answer.  Only the order of the rejections is left open. */
  ghost predicate IsAnswer(st: State, q: RegistryQuery, r: Answer) {
    && IsRanking(st, q, r.ranked)
    && r.selected == Truncated(IdsOf(r.ranked), q.maxResults)
    && r.considered == |ConsideredIn(st, q)|
    && (exists order :: Enumerates(order, st.instances.Keys) && r.rejected == RejectionsIn(st, q, order))
    && r.outcome == (if |r.ranked| == 1 then FOUND_EXACT else if r.ranked != [] then FOUND_MULTIPLE
         else EmptyOutcome(st, q))
  }
}
