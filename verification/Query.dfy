/** `Registry::query` as it runs: one walk over the instances in an arbitrary order, flags set along
    the way, then a sort. */
module Query {
  import opened Base
  import opened Enums
  import opened Records
  import SemVer
  import opened RegistryModel
  import opened QueryModel

  // ---- one instance ----

  /** The protocol loop: it stops at the first incompatible one. */
  method CheckProtocols(inst: Instance, v: SemVer.StructuredVersion, protocols: map<Id, Protocol>)
      returns (known: bool, incompatible: bool)
    ensures incompatible == SpeaksIncompatible(inst, v, protocols)
    ensures !incompatible ==> known == SpeaksKnown(inst, protocols)
  {
    known, incompatible := false, false;
    for k := 0 to |inst.protocols|
      invariant known == exists j :: 0 <= j < k && inst.protocols[j] in protocols
      invariant forall j ::
        0 <= j < k && inst.protocols[j] in protocols ==>
          NegotiateProtocol(v, protocols[inst.protocols[j]].version, false) != INCOMPATIBLE
    {
      var p := inst.protocols[k];
      if p in protocols {
        known := true;
        if NegotiateProtocol(v, protocols[p].version, false) == INCOMPATIBLE {
          incompatible := true;
          return;
        }
      }
    }
  }

  /** `capability_satisfaction`: -1 present, 0 not current, 1 another kind. */
  function CapabilitySatisfaction(cap: Capability, required: CapabilityKind): int {
    if cap.kind != required then 1 else if cap.freshness != Freshness.CURRENT then 0 else -1
  }

  /** The loop over the capabilities of an instance for one required kind. */
  method Satisfaction(inst: Instance, kind: CapabilityKind, capabilities: map<Id, Capability>) returns (sat: int)
    ensures sat == -1 <==> Provides(inst, kind, capabilities)
    ensures sat == 0 <==> Names(inst, kind, capabilities) && !Provides(inst, kind, capabilities)
    ensures sat == -1 || sat == 0 || sat == 1
  {
    sat := 1;
    for k := 0 to |inst.capabilities|
      invariant sat == 0 || sat == 1
      invariant sat == 0 <==> exists j ::
        0 <= j < k && inst.capabilities[j] in capabilities && capabilities[inst.capabilities[j]].kind == kind
      invariant forall j ::
        0 <= j < k && inst.capabilities[j] in capabilities ==>
          CapabilitySatisfaction(capabilities[inst.capabilities[j]], kind) != -1
    {
      var c := inst.capabilities[k];
      if c in capabilities {
        if CapabilitySatisfaction(capabilities[c], kind) == -1 {
          sat := -1;
          return;
        }
        if CapabilitySatisfaction(capabilities[c], kind) == 0 {
          sat := 0;
        }
      }
    }
  }

  /** The loop over the required kinds, up to the first that is not provided. */
  method CheckCapabilities(required: seq<CapabilityKind>, inst: Instance, capabilities: map<Id, Capability>)
      returns (r: Option<Category>)
    ensures r == CapabilityVerdict(required, inst, capabilities)
  {
    hide Provides, Names;
    for k := 0 to |required|
      invariant CapabilityVerdict(required, inst, capabilities) == CapabilityVerdict(required[k..], inst, capabilities)
    {
      var sat := Satisfaction(inst, required[k], capabilities);
      assert required[k..][1..] == required[k + 1..];
      if sat == 0 {
        return Some(INSUFFICIENT_EVIDENCE);
      }
      if sat != -1 {
        return Some(MISSING_CAPABILITY);
      }
    }
    return None;
  }

  /** The body of the walk up to the score. */
  method JudgeOne(st: State, q: RegistryQuery, inst: Instance, svc: Service) returns (j: Judgement)
    ensures j == Judge(st, q, inst, svc)
  {
    hide StatusVerdict, ContractVerdict, CapabilityVerdict, SpeaksIncompatible, SpeaksKnown;
    var status := StatusVerdict(st, q, inst);
    if status.Some? {
      return Judgement([status.value], false);
    }
    var rejections := [];
    if ChecksProtocol(q) {
      var known, incompatible := CheckProtocols(inst, q.protocolVersion.value, st.protocols);
      if incompatible {
        rejections := [INCOMPATIBLE_PROTOCOL];
      } else if !known {
        return Judgement([INSUFFICIENT_EVIDENCE], false);
      }
    }
    var capability := CheckCapabilities(q.requiredCapabilities, inst, st.capabilities);
    if capability.Some? {
      return Judgement(rejections + [capability.value], false);
    }
    var contract := ContractVerdict(st, q, inst, svc);
    if contract.Some? {
      return Judgement(rejections + [contract.value], false);
    }
    return Judgement(rejections, true);
  }

  method CountProvided(required: seq<CapabilityKind>, inst: Instance, capabilities: map<Id, Capability>)
      returns (n: nat)
    ensures n == Provided(required, inst, capabilities)
  {
    hide Provides;
    n := 0;
    for k := 0 to |required|
      invariant n == Provided(required[..k], inst, capabilities)
    {
      assert required[..k + 1][..k] == required[..k];
      var sat := Satisfaction(inst, required[k], capabilities);
      if sat == -1 {
        n := n + 1;
      }
    }
    assert required[..|required|] == required;
  }

  /** The running total that `addf` keeps. */
  method Total(factors: seq<(Factor, real)>) returns (total: real)
    ensures total == Sum(factors)
  {
    total := 0.0;
    for k := 0 to |factors|
      invariant total == Sum(factors[..k])
    {
      assert factors[..k + 1][..k] == factors[..k];
      total := total + factors[k].1;
    }
    assert factors[..|factors|] == factors;
  }

  // ---- the sort ----

  predicate DistinctIds(s: seq<Candidate>) {
    forall j, k :: 0 <= j < k < |s| ==> s[j].id != s[k].id
  }

  /** Inserting into a sorted list. */
  method Insert(sorted: seq<Candidate>, c: Candidate) returns (r: seq<Candidate>)
    requires StrictlyRanked(sorted) && forall k :: 0 <= k < |sorted| ==> sorted[k].id != c.id
    ensures StrictlyRanked(r) && multiset(r) == multiset(sorted) + multiset{c}
  {
    var n := 0;
    while n < |sorted| && Before(sorted[n], c)
      invariant 0 <= n <= |sorted|
      invariant forall k :: 0 <= k < n ==> Before(sorted[k], c)
    {
      n := n + 1;
    }
    assert sorted == sorted[..n] + sorted[n..];
    r := sorted[..n] + [c] + sorted[n..];
    LaterComeAfter(sorted, n, c);
    hide StrictlyRanked, Before;
    InsertedIsRanked(sorted[..n], c, sorted[n..]);
    assert multiset(sorted) == multiset(sorted[..n]) + multiset(sorted[n..]);
  }

  lemma LaterComeAfter(sorted: seq<Candidate>, n: nat, c: Candidate)
    requires StrictlyRanked(sorted) && n <= |sorted| && (n < |sorted| ==> !Before(sorted[n], c))
    requires forall k :: 0 <= k < |sorted| ==> sorted[k].id != c.id
    ensures forall k :: n <= k < |sorted| ==> Before(c, sorted[k])
  {
    if n < |sorted| {
      assert Before(c, sorted[n]);
      forall k | n < k < |sorted| ensures Before(c, sorted[k]) {
        assert Before(sorted[n], sorted[k]);
      }
    }
  }

  lemma InsertedIsRanked(a: seq<Candidate>, c: Candidate, b: seq<Candidate>)
    requires StrictlyRanked(a + b)
    requires (forall k :: 0 <= k < |a| ==> Before(a[k], c)) && forall k :: 0 <= k < |b| ==> Before(c, b[k])
    ensures StrictlyRanked(a + [c] + b)
  {
    forall j, k | 0 <= j < k < |a + [c] + b| ensures Before((a + [c] + b)[j], (a + [c] + b)[k]) {
      var s := a + b;
      var i := if j <= |a| then j else j - 1;
      var m := if k <= |a| then k else k - 1;
      if j != |a| && k != |a| {
        assert (a + [c] + b)[j] == s[i] && (a + [c] + b)[k] == s[m];
        assert Before(s[i], s[m]);
      }
    }
  }

  /** `std::sort` with the comparison of `query`. */
  method SortCandidates(s: seq<Candidate>) returns (r: seq<Candidate>)
    requires DistinctIds(s)
    ensures StrictlyRanked(r) && multiset(r) == multiset(s)
  {
    r := [];
    for k := 0 to |s|
      invariant StrictlyRanked(r) && multiset(r) == multiset(s[..k])
    {
      assert forall j :: 0 <= j < |r| ==> r[j] in multiset(s[..k]);
      assert s[..k + 1] == s[..k] + [s[k]];
      r := Insert(r, s[k]);
    }
    assert s[..|s|] == s;
  }

  // ---- the flags ----

  /** The flags of the walk: `causes` holds one for each group of categories, `any` says whether
      anything was in scope. */
  datatype Flags = Flags(causes: set<Cause>, any: bool)

  function Noted(f: Flags, c: Category): Flags {
    Flags(f.causes + {CauseOf(c)}, true)
  }

  function CausesOf(rejected: seq<Rejection>): set<Cause> {
    set r | r in rejected :: CauseOf(r.category)
  }

  /** The outcome cascade at the end of `query`, on the flags. */
  function OutcomeOf(ranked: nat, f: Flags): QueryOutcome {
    if ranked == 1 then FOUND_EXACT
    else if ranked > 1 then FOUND_MULTIPLE
    else if !f.any then NOT_FOUND
    else if EVIDENCE in f.causes && AUTHORITY !in f.causes && NOT_READY !in f.causes && NOT_HEALTHY !in f.causes
      && NOT_REACHABLE !in f.causes && CONTRACT !in f.causes then NO_EVIDENCE
    else if AUTHORITY in f.causes then STALE_ONLY
    else if NOT_READY in f.causes then UNREADY_ONLY
    else if NOT_HEALTHY in f.causes then UNHEALTHY_ONLY
    else if NOT_REACHABLE in f.causes then UNREACHABLE_ONLY
    else if CONTRACT in f.causes then INCOMPATIBLE_ONLY
    else NO_EVIDENCE
  }

  // ---- the walk ----

  /** A candidate scored as `query` does. */
  ghost predicate IsScored(st: State, q: RegistryQuery, c: Candidate) {
    Survives(st, q, c.id) && c.factors == FactorsOf(st, q, c.id) && c.total == Sum(c.factors)
  }

  /** The unsorted candidates after visiting `order`. */
  ghost predicate Collected(st: State, q: RegistryQuery, order: seq<Id>, candidates: seq<Candidate>) {
    && DistinctIds(candidates)
    && (forall j :: 0 <= j < |candidates| ==> candidates[j].id in order && IsScored(st, q, candidates[j]))
    && (forall i :: i in order && Survives(st, q, i) ==> exists j :: 0 <= j < |candidates| && candidates[j].id == i)
  }

  ghost predicate SkippedIn(st: State, q: RegistryQuery, order: seq<Id>) {
    exists i :: i in order && SkippedByKind(st, q, i)
  }

  ghost predicate ScopeIn(st: State, q: RegistryQuery, order: seq<Id>) {
    exists i :: i in order && InScope(st, q, i)
  }

  ghost function ConsideredAmong(st: State, q: RegistryQuery, order: seq<Id>): set<Id> {
    set i | i in order && Considered(st, q, i)
  }

  lemma InSnoc(order: seq<Id>, i: Id)
    ensures forall j :: j in order + [i] <==> j in order || j == i
  {
  }

  lemma RejectionsSnoc(st: State, q: RegistryQuery, order: seq<Id>, i: Id)
    ensures RejectionsIn(st, q, order + [i]) == RejectionsIn(st, q, order) + RejectionsOf(st, q, i)
  {
    hide RejectionsOf;
    assert (order + [i])[..|order + [i]| - 1] == order;
  }

  lemma ScopeSnoc(st: State, q: RegistryQuery, order: seq<Id>, i: Id)
    requires i !in order
    ensures SkippedIn(st, q, order + [i]) <==> SkippedIn(st, q, order) || SkippedByKind(st, q, i)
    ensures ScopeIn(st, q, order + [i]) <==> ScopeIn(st, q, order) || InScope(st, q, i)
    ensures |ConsideredAmong(st, q, order + [i])| ==
      |ConsideredAmong(st, q, order)| + if Considered(st, q, i) then 1 else 0
  {
    hide SkippedByKind, InScope, Considered;
    InSnoc(order, i);
    assert ConsideredAmong(st, q, order + [i]) ==
      ConsideredAmong(st, q, order) + if Considered(st, q, i) then {i} else {};
  }

  lemma CausesOfMore(a: seq<Rejection>, b: seq<Rejection>)
    ensures CausesOf(a + b) == CausesOf(a) + CausesOf(b)
  {
    hide CauseOf;
    assert forall r :: r in a + b <==> r in a || r in b;
  }

  lemma CollectedSnoc(st: State, q: RegistryQuery, order: seq<Id>, candidates: seq<Candidate>, i: Id, c: Candidate)
    requires Collected(st, q, order, candidates) && i !in order
    ensures !Survives(st, q, i) ==> Collected(st, q, order + [i], candidates)
    ensures c.id == i && IsScored(st, q, c) ==> Collected(st, q, order + [i], candidates + [c])
  {
    hide Considered, Judged, FactorsOf, Sum;
    InSnoc(order, i);
    if Survives(st, q, i) {
      var more := candidates + [c];
      assert more[|candidates|] == c && forall j :: 0 <= j < |candidates| ==> more[j] == candidates[j];
    }
  }

  // ---- the whole query ----

  method Score(st: State, q: RegistryQuery, i: Id) returns (c: Candidate)
    requires Survives(st, q, i) && InstanceKey(st.instances[i]) == i
    ensures c.id == i && IsScored(st, q, c)
  {
    hide Judged, Factors;
    var inst := st.instances[i];
    var svc := st.services[inst.serviceId];
    var provided := CountProvided(q.requiredCapabilities, inst, st.capabilities);
    var factors := Factors(st, q, inst, svc);
    var total := Total(factors);
    return Candidate(inst.instanceId, factors, total, 0);
  }

  /** What the walk has gathered. */
  datatype Gathered = Gathered(candidates: seq<Candidate>, rejected: seq<Rejection>, flags: Flags, considered: nat)

  /** `h` is what one more instance adds to `g`. */
  ghost predicate Adds(st: State, q: RegistryQuery, i: Id, g: Gathered, h: Gathered) {
    && h.rejected == g.rejected + RejectionsOf(st, q, i)
    && h.considered == g.considered + (if Considered(st, q, i) then 1 else 0)
    && h.flags.causes == g.flags.causes + CausesOf(RejectionsOf(st, q, i))
         + (if SkippedByKind(st, q, i) then {CONTRACT} else {})
    && h.flags.any == (g.flags.any || InScope(st, q, i))
    && |g.candidates| <= |h.candidates| && h.candidates[..|g.candidates|] == g.candidates
    && (if Survives(st, q, i) then |h.candidates| == |g.candidates| + 1 && h.candidates[|g.candidates|].id == i
         && IsScored(st, q, h.candidates[|g.candidates|])
        else h.candidates == g.candidates)
  }

  /** The body of the walk. */
  method Visit(st: State, q: RegistryQuery, i: Id, g: Gathered) returns (h: Gathered)
    requires i in st.instances && InstanceKey(st.instances[i]) == i
    ensures Adds(st, q, i, g, h)
  {
    h := g;
    var inst := st.instances[i];
    if !InScope(st, q, i) {
      return;
    }
    if !KindMatches(st, q, i) {
      h := h.(flags := Flags(h.flags.causes + {CONTRACT}, true));
      return;
    }
    var j := JudgeOne(st, q, inst, st.services[inst.serviceId]);
    var flags := Record(g.flags, j.rejections);
    h := h.(considered := h.considered + 1, rejected := h.rejected + RejectionsOf(st, q, i), flags := flags);
    RecordedCauses(st, q, i, j.rejections);
    RankedOrRejected(st, q, inst, st.services[inst.serviceId]);
    hide Judge, RejectionsOf, CausesOf;
    if j.survives {
      var c := Score(st, q, i);
      h := h.(candidates := h.candidates + [c], flags := h.flags.(any := true));
    }
  }

  /** The flags after a list of rejections. */
  method Record(f: Flags, rejections: seq<Category>) returns (r: Flags)
    ensures r.causes == f.causes + set c | c in rejections :: CauseOf(c)
    ensures r.any == (f.any || rejections != [])
  {
    r := f;
    for k := 0 to |rejections|
      invariant r.causes == f.causes + set c | c in rejections[..k] :: CauseOf(c)
      invariant r.any == (f.any || k > 0)
    {
      assert rejections[..k + 1] == rejections[..k] + [rejections[k]];
      r := Noted(r, rejections[k]);
    }
    assert rejections[..|rejections|] == rejections;
  }

  lemma RecordedCauses(st: State, q: RegistryQuery, i: Id, rejections: seq<Category>)
    requires Considered(st, q, i) && rejections == Judged(st, q, i).rejections
    ensures CausesOf(RejectionsOf(st, q, i)) == set c | c in rejections :: CauseOf(c)
  {
    hide Judged, CauseOf;
    var all := RejectionsOf(st, q, i);
    assert forall k :: 0 <= k < |rejections| ==> all[k] == Rejection(i, rejections[k]);
    assert forall c :: c in rejections ==> Rejection(i, c) in all;
  }

  lemma RankedOrRejected(st: State, q: RegistryQuery, inst: Instance, svc: Service)
    ensures Judge(st, q, inst, svc).survives || Judge(st, q, inst, svc).rejections != []
  {
    hide StatusVerdict, ProtocolVerdict, CapabilityVerdict, ContractVerdict;
  }

  ghost predicate Gathers(st: State, q: RegistryQuery, order: seq<Id>, g: Gathered) {
    && Collected(st, q, order, g.candidates)
    && g.rejected == RejectionsIn(st, q, order)
    && g.flags.causes == CausesOf(g.rejected) + (if SkippedIn(st, q, order) then {CONTRACT} else {})
    && g.flags.any == ScopeIn(st, q, order)
    && g.considered == |ConsideredAmong(st, q, order)|
  }

  lemma AddsGathers(st: State, q: RegistryQuery, order: seq<Id>, i: Id, g: Gathered, h: Gathered)
    requires Gathers(st, q, order, g) && Adds(st, q, i, g, h) && i !in order
    ensures Gathers(st, q, order + [i], h)
  {
    hide Considered, InScope, SkippedByKind, Survives, IsScored, CausesOf, RejectionsOf, Collected, RejectionsIn,
         SkippedIn, ScopeIn, ConsideredAmong;
    RejectionsSnoc(st, q, order, i);
    ScopeSnoc(st, q, order, i);
    CausesOfMore(g.rejected, RejectionsOf(st, q, i));
    if Survives(st, q, i) {
      assert h.candidates == g.candidates + [h.candidates[|g.candidates|]];
      CollectedSnoc(st, q, order, g.candidates, i, h.candidates[|g.candidates|]);
    } else {
      CollectedSnoc(st, q, order, g.candidates, i, Candidate(i, [], 0.0, 0));
    }
  }

  // ---- the end of the query ----

  lemma {:induction false} RejectionsMean(st: State, q: RegistryQuery, order: seq<Id>)
    ensures forall r :: r in RejectionsIn(st, q, order) <==> r.id in order && Rejects(st, q, r.id, r.category)
    decreases |order|
  {
    hide Considered, Judged;
    if order != [] {
      var i := order[|order| - 1];
      RejectionsMean(st, q, order[..|order| - 1]);
      assert order == order[..|order| - 1] + [i];
      RejectionsOfMean(st, q, i);
      hide RejectionsOf, Rejects;
    }
  }

  lemma RejectionsOfMean(st: State, q: RegistryQuery, i: Id)
    ensures forall r :: r in RejectionsOf(st, q, i) <==> r.id == i && Rejects(st, q, i, r.category)
  {
    hide Considered, Judged;
    if Considered(st, q, i) {
      var all := RejectionsOf(st, q, i);
      forall c | Rejects(st, q, i, c) ensures Rejection(i, c) in all {
        var k :| 0 <= k < |Judged(st, q, i).rejections| && Judged(st, q, i).rejections[k] == c;
        assert all[k] == Rejection(i, c);
      }
    }
  }

  lemma CausesMean(st: State, q: RegistryQuery, order: seq<Id>, cause: Cause)
    requires Enumerates(order, st.instances.Keys)
    ensures cause in CausesOf(RejectionsIn(st, q, order)) <==> Saw(st, q, cause)
  {
    RejectionsMean(st, q, order);
    hide Rejects, RejectionsIn, CauseOf;
    if Saw(st, q, cause) {
      var i, c :| i in st.instances && Rejects(st, q, i, c) && CauseOf(c) == cause;
      assert Rejection(i, c) in RejectionsIn(st, q, order);
    }
  }

  lemma OutcomeMeans(st: State, q: RegistryQuery, order: seq<Id>, g: Gathered)
    requires Enumerates(order, st.instances.Keys) && Gathers(st, q, order, g)
    ensures OutcomeOf(0, g.flags) == EmptyOutcome(st, q)
  {
    hide CausesOf, RejectionsIn, Saw, SawSkipped, SawAny, SkippedIn, ScopeIn, Collected, ConsideredAmong, Enumerates;
    ScopeMeans(st, q, order);
    CausesMean(st, q, order, AUTHORITY);
    CausesMean(st, q, order, NOT_READY);
    CausesMean(st, q, order, NOT_HEALTHY);
    CausesMean(st, q, order, NOT_REACHABLE);
    CausesMean(st, q, order, CONTRACT);
  }

  lemma ScopeMeans(st: State, q: RegistryQuery, order: seq<Id>)
    requires Enumerates(order, st.instances.Keys)
    ensures SkippedIn(st, q, order) == SawSkipped(st, q) && ScopeIn(st, q, order) == SawAny(st, q)
    ensures ConsideredAmong(st, q, order) == ConsideredIn(st, q)
  {
    hide SkippedByKind, InScope, Considered;
  }

  /** Sorting the candidates and numbering them gives the ranking. */
  lemma RankingOf(st: State, q: RegistryQuery, order: seq<Id>, candidates: seq<Candidate>, sorted: seq<Candidate>,
      ranked: seq<Candidate>)
    requires Enumerates(order, st.instances.Keys) && Collected(st, q, order, candidates)
    requires StrictlyRanked(sorted) && multiset(sorted) == multiset(candidates)
    requires |ranked| == |sorted| && forall j :: 0 <= j < |ranked| ==> ranked[j] == sorted[j].(rank := j)
    ensures IsRanking(st, q, ranked)
  {
    SortedScored(st, q, order, candidates, sorted);
    NumberedIsRanked(sorted, ranked);
    hide Survives, FactorsOf, Sum, Enumerates, Collected, StrictlyRanked;
    forall i | i in st.instances && Survives(st, q, i) ensures exists j :: 0 <= j < |ranked| && ranked[j].id == i {
      var j :| 0 <= j < |sorted| && sorted[j].id == i;
      assert ranked[j].id == i;
    }
  }

  lemma NumberedIsRanked(sorted: seq<Candidate>, ranked: seq<Candidate>)
    requires StrictlyRanked(sorted)
    requires |ranked| == |sorted| && forall j :: 0 <= j < |ranked| ==> ranked[j] == sorted[j].(rank := j)
    ensures StrictlyRanked(ranked)
  {
  }

  lemma SortedScored(st: State, q: RegistryQuery, order: seq<Id>, candidates: seq<Candidate>, sorted: seq<Candidate>)
    requires Enumerates(order, st.instances.Keys) && Collected(st, q, order, candidates)
    requires multiset(sorted) == multiset(candidates)
    ensures forall j :: 0 <= j < |sorted| ==> IsScored(st, q, sorted[j])
    ensures forall i :: i in st.instances && Survives(st, q, i) ==> exists j :: 0 <= j < |sorted| && sorted[j].id == i
  {
    hide IsScored, Survives;
    forall j | 0 <= j < |sorted| ensures IsScored(st, q, sorted[j]) {
      assert sorted[j] in multiset(candidates);
    }
    forall i | i in st.instances && Survives(st, q, i) ensures exists j :: 0 <= j < |sorted| && sorted[j].id == i {
      var k :| 0 <= k < |candidates| && candidates[k].id == i;
      assert candidates[k] in multiset(sorted);
    }
  }

  /** Sorting, numbering, selecting and the outcome. */
  method Finish(st: State, q: RegistryQuery, g: Gathered, ghost order: seq<Id>) returns (r: Answer)
    requires Enumerates(order, st.instances.Keys) && Gathers(st, q, order, g)
    ensures IsAnswer(st, q, r)
  {
    hide EmptyOutcome, RejectionsIn, IsRanking, ConsideredIn, ConsideredAmong, SkippedIn, ScopeIn, SawSkipped, SawAny,
         CausesOf, IsScored, Survives, Considered;
    var sorted := SortCandidates(g.candidates);
    var ranked: seq<Candidate> := [];
    for j := 0 to |sorted|
      invariant |ranked| == j && forall k :: 0 <= k < j ==> ranked[k] == sorted[k].(rank := k)
    {
      ranked := ranked + [sorted[j].(rank := j)];
    }
    RankingOf(st, q, order, g.candidates, sorted, ranked);
    var selected: seq<Id> := [];
    for j := 0 to |ranked|
      invariant selected == IdsOf(ranked)[..j]
    {
      selected := selected + [ranked[j].id];
    }
    if |selected| > q.maxResults {
      selected := selected[..q.maxResults];
    }
    OutcomeMeans(st, q, order, g);
    ScopeMeans(st, q, order);
    r := Answer(OutcomeOf(|ranked|, g.flags), ranked, g.rejected, selected, g.considered);
  }

  lemma NothingGathered(st: State, q: RegistryQuery)
    ensures Gathers(st, q, [], Gathered([], [], Flags({}, false), 0))
  {
  }

  /** `Registry::query`: whatever order the walk takes, the result is an answer. */
  method Answers(st: State, q: RegistryQuery) returns (r: Answer)
    requires Filed(st.instances, InstanceKey)
    ensures IsAnswer(st, q, r)
  {
    hide IsAnswer, Gathers, Adds;
    var g := Gathered([], [], Flags({}, false), 0);
    var left := st.instances.Keys;
    ghost var order: seq<Id> := [];
    NothingGathered(st, q);
    while left != {}
      invariant left <= st.instances.Keys
      invariant Enumerates(order, st.instances.Keys - left)
      invariant Gathers(st, q, order, g)
      decreases |left|
    {
      var i :| i in left;
      left := left - {i};
      var h := Visit(st, q, i, g);
      AddsGathers(st, q, order, i, g, h);
      g := h;
      order := order + [i];
    }
    assert st.instances.Keys - left == st.instances.Keys;
    r := Finish(st, q, g, order);
  }
}
