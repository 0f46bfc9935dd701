/** Runs from a new registry, each of which ends in one call that does what its documentation or
    its name rules out.  Worker 7 is adopted and registers a service and an instance of it first. */
module Witnesses {
  import opened Base
  import opened Enums
  import opened Records
  import SemVer
  import Decimal
  import opened RegistryModel
  import opened QueryModel
  import Fencing
  import Registration
  import QueryTheorems
  import RegistryInvariants

  // ---- the records that take part ----

  const VERSION := SemVer.SemanticVersion(1, 0, 0, [], [])
  const API := SemVer.StructuredVersion(1, 0, 0)
  const EVIDENCE := Provenance(EvidenceKind.REPORTED, [], 0, [])

  const SERVICE := Service(1, 0, [], 1, 7, Lifecycle.AVAILABLE, VERSION, API, API, [], [], [], 0, 0, EVIDENCE, [])

  /** An instance of the service as the coordinator registers it: without an identity. */
  const OFFERED := Instance(0, 1, 1, 5, 0, 7, 101, 0, 0, 0, [], [3], [],
    Health.HEALTHY, Readiness.READY, Freshness.CURRENT, Reachability.REACHABLE,
    0, Lifecycle.REGISTERING, VERSION, 0, 0, 0, 0, 0, EVIDENCE, [])

  /** The instance once it is registered. */
  const WORKING := OFFERED.(instanceId := 1, lifecycle := Lifecycle.AVAILABLE)

  /** A newer instance, and one that lists an endpoint nobody registered. */
  const NEWER := OFFERED.(instanceGeneration := 6)
  const DANGLING := OFFERED.(instanceGeneration := 6, endpoints := [9])

  const SPOKEN := Protocol(3, [], 1, SemVer.StructuredVersion(2, 0, 0), API, [], [], 0, EVIDENCE)

  const TOMB := Tombstone(1, SERVICE_ID, Decimal.Digits(5), 9, 1, 101, 0, [], 0, EVIDENCE)

  /** The envelope of worker 7 with the boot it was given first. */
  const ENV := Envelope(1, 101, 0, 0, 0)

  // ---- the common beginning ----

  const OPENING := [Adopt(7), Call(ENV, OpService(SERVICE))]
  const STAFFED := OPENING + [Call(ENV, OpInstance(OFFERED, None))]

  /** What the runs below look at. */
  datatype Scene = Scene(
    fence: Fencing.Fence, services: map<Id, Service>, instances: map<Id, Instance>, endpoints: map<Id, Endpoint>,
    protocols: map<Id, Protocol>, leases: map<Id, Lease>, tombstones: map<Id, Tombstone>, nextId: u64)

  function SceneOf(st: State): Scene {
    Scene(Fencing.FenceOf(st), st.services, st.instances, st.endpoints, st.protocols, st.leases,
      st.tombstones, st.nextId)
  }

  const ADOPTED := Fencing.Fence(1, 101, map[7 := 101], {101}, map[101 := 7])
  const OPENED := Scene(ADOPTED, map[1 := SERVICE], map[], map[], map[], map[], map[], 1)

  /** A run goes on by one step. */
  lemma {:induction false} OneStepOn(st: State, steps: seq<Step>, step: Step)
    requires Runs(st, steps) && Enabled(After(st, steps), step)
    ensures Runs(st, steps + [step]) && After(st, steps + [step]) == Next(After(st, steps), step).0
    decreases |steps|
  {
    hide Next, Enabled;
    if steps == [] {
      Fencing.NoMore(Next(st, step).0);
      Fencing.OneMore(st, step, []);
      assert [] + [step] == [step] + [];
    } else {
      OneStepOn(Next(st, steps[0]).0, steps[1..], step);
      assert (steps + [step])[1..] == steps[1..] + [step];
    }
  }

  lemma Adoption()
    ensures SceneOf(Adopted(INITIAL, 7).0) == OPENED.(services := map[])
  {
  }

  lemma FirstService(st: State)
    requires SceneOf(st) == OPENED.(services := map[])
    ensures SceneOf(Mutate(st, ENV, OpService(SERVICE)).0) == OPENED
  {
    assert SERVICE.serviceId == 1;
    hide Rebuilt, SameService, SERVICE;
  }

  lemma OpeningRuns()
    ensures Runs(INITIAL, OPENING) && SceneOf(After(INITIAL, OPENING)) == OPENED
  {
    Adoption();
    var st := Next(INITIAL, Adopt(7)).0;
    hide Adopted, SceneOf, INITIAL, Mutate, OPENED;
    Fencing.NoMore(INITIAL);
    OneStepOn(INITIAL, [], Adopt(7));
    OneStepOn(INITIAL, [Adopt(7)], Call(ENV, OpService(SERVICE)));
    FirstService(st);
    hide Runs, After;
    assert [] + [Adopt(7)] == [Adopt(7)];
    assert OPENING == [Adopt(7)] + [Call(ENV, OpService(SERVICE))];
  }

  /** A healthy instance without endpoints, lease and requirements, of a live process. */
  predicate Plain(st: State, inst: Instance) {
    && inst.endpoints == [] && inst.lease == 0
    && inst.boot in st.authority.liveBoots && inst.freshness == Freshness.CURRENT
    && inst.reachability == Reachability.REACHABLE && inst.readiness == Readiness.READY && inst.health == Health.HEALTHY
    && inst.serviceId in st.services && st.services[inst.serviceId].requiredCapabilities == []
  }

  lemma PlainInstalled(st: State, copy: Instance)
    requires Plain(st, copy)
    ensures SceneOf(Installed(st, copy)) ==
      SceneOf(st).(instances := st.instances[copy.instanceId := copy.(lifecycle := Lifecycle.AVAILABLE)])
  {
    hide Rebuilt;
    var stored := st.(instances := st.instances[copy.instanceId := copy],
      instanceHistory := st.instanceHistory + [copy]);
    assert AggregateHealth(copy, st.endpoints) == Health.HEALTHY;
    assert AggregateReachability(copy, st.endpoints) == Reachability.REACHABLE;
    hide AggregateHealth, AggregateReachability, Provides;
    assert Reclassified(stored, copy) == copy.(lifecycle := Lifecycle.AVAILABLE);
    hide Reclassified;
  }

  lemma PlainRegistered(st: State, inst: Instance, current: Option<Id>)
    requires current.Some? ==> current.value in st.instances
    requires Plain(st, inst)
    requires Settled(Allocated(st, inst), Identified(st, inst), current) == None
    ensures
      var copy := Identified(st, inst);
      SceneOf(RegisterInstance(st, inst, current).0) == SceneOf(GivenWay(st, current)).(
        nextId := Allocated(st, inst).nextId,
        instances := GivenWay(st, current).instances[copy.instanceId := copy.(lifecycle := Lifecycle.AVAILABLE)])
    ensures RegisterInstance(st, inst, current).1 == Done(Identified(st, inst).instanceId)
  {
    hide Settled, Installed;
    var vacated := GivenWay(Allocated(st, inst), current);
    var copy := Identified(st, inst);
    PlainInstalled(vacated.(endpoints := Bind(vacated.instances, vacated.endpoints, [], copy.instanceId).0), copy);
  }

  lemma FirstPasses(st: State)
    requires SceneOf(st) == OPENED
    ensures Plain(st, OFFERED) && Verdict(st.authority, ENV) == None && IsCurrent(st.instances, 1, None)
    ensures Identified(st, OFFERED) == OFFERED.(instanceId := 1) && Allocated(st, OFFERED).nextId == 2
    ensures Settled(Allocated(st, OFFERED), Identified(st, OFFERED), None) == None
    ensures GivenWay(st, None) == st && st.instances == map[]
  {
  }

  lemma FirstInstance(st: State)
    requires SceneOf(st) == OPENED
    ensures Enabled(st, Call(ENV, OpInstance(OFFERED, None)))
    ensures SceneOf(Mutate(st, ENV, OpInstance(OFFERED, None)).0) ==
      OPENED.(instances := map[1 := WORKING], nextId := 2)
  {
    hide RegisterInstance, IsCurrent, GivenWay, Settled, Plain, Allocated, Identified, Verdict, SceneOf;
    FirstPasses(st);
    PlainRegistered(st, OFFERED, None);
  }

  lemma StaffedRuns()
    ensures Runs(INITIAL, STAFFED) && SceneOf(After(INITIAL, STAFFED)) ==
      OPENED.(instances := map[1 := WORKING], nextId := 2)
  {
    OpeningRuns();
    hide Runs, After, SceneOf, INITIAL, OPENED, OPENING, Mutate, Enabled;
    FirstInstance(After(INITIAL, OPENING));
    OneStepOn(INITIAL, OPENING, Call(ENV, OpInstance(OFFERED, None)));
  }

  // ---- what the runs lead to ----

  const AWAY := WORKING.(lifecycle := Lifecycle.SUPERSEDED)

  lemma OneCurrent(instances: map<Id, Instance>, inst: Instance)
    requires instances == map[1 := inst] && inst.serviceId == 1
    ensures IsCurrent(instances, 1, if inst.lifecycle.Terminal() then None else Some(1))
  {
  }

  /** A registration that is refused over an endpoint has by then superseded the only standing
      instance and used up an identity. */
  lemma RefusedRegistrationSupersedes()
    ensures Runs(INITIAL, STAFFED)
    ensures
      var st := After(INITIAL, STAFFED);
      var call := Call(ENV, OpInstance(DANGLING, Some(1)));
      && st.instances == map[1 := WORKING]
      && Enabled(st, call) && Next(st, call).1 == Refused(UNKNOWN_IDENTITY)
      && Next(st, call).0.instances == map[1 := AWAY] && Next(st, call).0.nextId == st.nextId + 1
  {
    StaffedRuns();
    hide Runs, After, INITIAL, STAFFED;
    var st := After(INITIAL, STAFFED);
    OneCurrent(st.instances, WORKING);
    DanglingRefused(st, Some(1));
    hide RegisterInstance, IsCurrent;
  }

  lemma DanglingRefused(st: State, current: Option<Id>)
    requires current.Some? ==> current.value in st.instances && st.instances[current.value] == WORKING
    requires 1 in st.services && st.endpoints == map[] && st.tombstones == map[] && st.nextId == 2
    ensures RegisterInstance(st, DANGLING, current) == (GivenWay(st.(nextId := 3), current), Refused(UNKNOWN_IDENTITY))
  {
    var copy := Identified(st, DANGLING);
    assert copy == DANGLING.(instanceId := 2);
    assert Settled(Allocated(st, DANGLING), copy, current) == None;
    hide Settled, Installed, GivenWay;
    var vacated := GivenWay(st.(nextId := 3), current);
    assert vacated.endpoints == map[] by {
      GivingWayScene(st.(nextId := 3), current);
    }
    assert vacated.(endpoints := map[]) == vacated;
  }

  lemma GivingWayScene(st: State, current: Option<Id>)
    requires current.Some? ==> current.value in st.instances
    ensures GivenWay(st, current).endpoints == st.endpoints
  {
  }

  /** A supersession that is refused has by then superseded the old instance. */
  lemma RefusedSupersessionSupersedes()
    ensures Runs(INITIAL, STAFFED)
    ensures
      var st := After(INITIAL, STAFFED);
      var call := Call(ENV, OpSupersede(1, DANGLING, None));
      && st.instances == map[1 := WORKING]
      && Enabled(st, call) && Next(st, call).1 == Refused(UNKNOWN_IDENTITY)
      && Next(st, call).0.instances == map[1 := AWAY]
  {
    StaffedRuns();
    hide Runs, After, INITIAL, STAFFED;
    var st := After(INITIAL, STAFFED);
    var vacated := GivenWay(st, Some(1));
    assert vacated.instances == map[1 := AWAY];
    OneCurrent(vacated.instances, AWAY);
    DanglingRefused(vacated, None);
    hide RegisterInstance, IsCurrent;
  }

  /** The fresh incarnation of worker 7, and what it offers. */
  const FRESH := ENV.(boot := 102)
  const RESTARTED := OFFERED.(boot := 102, instanceGeneration := 1)

  /** A worker that restarts cannot register its first instance: the generation of its dead
      predecessor is larger. */
  lemma DeadBootBlocks()
    ensures Runs(INITIAL, STAFFED + [Adopt(7)])
    ensures
      var st := After(INITIAL, STAFFED + [Adopt(7)]);
      var call := Call(FRESH, OpInstance(RESTARTED, Some(1)));
      && st.authority.liveBoots == {102}
      && Enabled(st, call) && Next(st, call).1 == Refused(STALE_INSTANCE_GENERATION)
  {
    StaffedRuns();
    hide Runs, After, INITIAL, STAFFED, Adopted, SceneOf, TAKEN_OVER, Mutate, Possible;
    OneStepOn(INITIAL, STAFFED, Adopt(7));
    Readopted(After(INITIAL, STAFFED));
    PredecessorBlocks(After(INITIAL, STAFFED + [Adopt(7)]));
  }

  const TAKEN_OVER := OPENED.(
    fence := Fencing.Fence(1, 102, map[7 := 102], {102}, map[102 := 7]),
    instances := map[1 := Dead(WORKING)], nextId := 2)

  lemma PredecessorBlocks(st: State)
    requires SceneOf(st) == TAKEN_OVER
    ensures
      var call := Call(FRESH, OpInstance(RESTARTED, Some(1)));
      st.authority.liveBoots == {102} && Enabled(st, call) && Next(st, call).1 == Refused(STALE_INSTANCE_GENERATION)
  {
    OneCurrent(st.instances, Dead(WORKING));
    Registration.StaleExactly(st, RESTARTED, Some(1));
    assert Standing(st.instances, 1, 1);
    hide RegisterInstance, IsCurrent;
  }

  lemma Readopted(st: State)
    requires SceneOf(st) == OPENED.(instances := map[1 := WORKING], nextId := 2)
    ensures SceneOf(Adopted(st, 7).0) == TAKEN_OVER
  {
    var counted := st.(nextBoot := 102);
    Bereaved(counted);
    hide Revoked, WORKING;
  }

  lemma Bereaved(st: State)
    requires SceneOf(st) == OPENED.(fence := ADOPTED.(nextBoot := 102), instances := map[1 := WORKING], nextId := 2)
    ensures SceneOf(Revoked(st, 101)) == OPENED.(
      fence := Fencing.Fence(1, 102, map[7 := 0], {}, map[]), instances := map[1 := Dead(WORKING)], nextId := 2)
  {
    hide LeasedTo, ClaimedBy;
  }

  /** Two instances of one service stand: the older one, superseded before, by a mere health
      report. */
  lemma TwoStand()
    ensures
      var steps := STAFFED + [Call(ENV, OpInstance(NEWER, Some(1)))];
      var call := Call(ENV, OpObserve(1, SetHealth(Health.HEALTHY)));
      && Runs(INITIAL, steps) && Enabled(After(INITIAL, steps), call)
      && Registration.AtMostOne(After(INITIAL, steps).instances)
      && !Registration.AtMostOne(Next(After(INITIAL, steps), call).0.instances)
  {
    StaffedRuns();
    hide Runs, After, INITIAL, STAFFED, Mutate, SceneOf, Registration.AtMostOne, NEWER, REPLACED, WORKING, IsCurrent;
    var step := Call(ENV, OpInstance(NEWER, Some(1)));
    NewerRegistered(After(INITIAL, STAFFED));
    OneStepOn(INITIAL, STAFFED, step);
    SecondStands(After(INITIAL, STAFFED + [step]));
  }

  /** The scene in which the newer instance has taken over. */
  const REPLACED := OPENED.(instances := map[1 := AWAY,
    2 := NEWER.(instanceId := 2, lifecycle := Lifecycle.AVAILABLE)], nextId := 3)

  lemma NewerPasses(st: State)
    requires SceneOf(st) == OPENED.(instances := map[1 := WORKING], nextId := 2)
    ensures Plain(st, NEWER) && Verdict(st.authority, ENV) == None
    ensures Identified(st, NEWER) == NEWER.(instanceId := 2) && Allocated(st, NEWER).nextId == 3
    ensures Settled(Allocated(st, NEWER), Identified(st, NEWER), Some(1)) == None
  {
  }

  lemma WorkingGivesWay(st: State)
    requires SceneOf(st) == OPENED.(instances := map[1 := WORKING], nextId := 2)
    ensures IsCurrent(st.instances, 1, Some(1)) && 1 in st.instances
    ensures SceneOf(GivenWay(st, Some(1))) == OPENED.(instances := map[1 := AWAY], nextId := 2)
    ensures GivenWay(st, Some(1)).instances == map[1 := AWAY]
  {
    OneCurrent(st.instances, WORKING);
    hide IsCurrent;
  }

  lemma NewerRegistered(st: State)
    requires SceneOf(st) == OPENED.(instances := map[1 := WORKING], nextId := 2)
    ensures Enabled(st, Call(ENV, OpInstance(NEWER, Some(1))))
    ensures SceneOf(Mutate(st, ENV, OpInstance(NEWER, Some(1))).0) == REPLACED
  {
    hide RegisterInstance, IsCurrent, GivenWay, Settled, Plain, Allocated, Identified, Verdict, SceneOf;
    WorkingGivesWay(st);
    NewerPasses(st);
    PlainRegistered(st, NEWER, Some(1));
  }

  lemma SecondStands(st: State)
    requires SceneOf(st) == REPLACED
    ensures
      var call := Call(ENV, OpObserve(1, SetHealth(Health.HEALTHY)));
      && Enabled(st, call) && Registration.AtMostOne(st.instances)
      && !Registration.AtMostOne(Next(st, call).0.instances)
  {
    assert Verdict(st.authority, ENV) == None;
    NewerStands(st.instances);
    assert st.instances[1] == AWAY && GenerationMatches(ENV, AWAY);
    hide Reclassified, Registration.AtMostOne, Registration.HasStanding, REPLACED, SceneOf, Verdict;
    assert Observe(st, ENV, 1, SetHealth(Health.HEALTHY)).1.Done?;
    hide Observe;
    Registration.ObservationKeepsOneExactly(st, ENV, 1, SetHealth(Health.HEALTHY));
  }

  lemma NewerStands(instances: map<Id, Instance>)
    requires instances == REPLACED.instances
    ensures Registration.AtMostOne(instances) && Registration.HasStanding(instances, 1)
  {
    assert Standing(instances, 2, 1);
  }

  /** A query for version 1 of protocol 3. */
  const SPEAKERS := DefaultQuery(0).(protocol := 3, protocolVersion := Some(API))
  const SPEAKING := STAFFED + [Call(ENV, OpProtocol(SPOKEN))]

  const SPOKEN_OF := OPENED.(instances := map[1 := WORKING], protocols := map[3 := SPOKEN], nextId := 2)

  lemma ProtocolRegistered(st: State)
    requires SceneOf(st) == OPENED.(instances := map[1 := WORKING], nextId := 2)
    ensures SceneOf(Mutate(st, ENV, OpProtocol(SPOKEN)).0) == SPOKEN_OF
  {
  }

  lemma Judges(st: State)
    requires SceneOf(st) == SPOKEN_OF
    ensures Judge(st, SPEAKERS, WORKING, SERVICE) == Judgement([INCOMPATIBLE_PROTOCOL], true)
  {
    assert 3 in WORKING.protocols && NegotiateProtocol(API, SPOKEN.version, false) == INCOMPATIBLE;
    assert SpeaksIncompatible(WORKING, API, st.protocols);
    QueryTheorems.SurvivesExactly(st, SPEAKERS, WORKING, SERVICE);
    QueryTheorems.RejectedAndRankedExactly(st, SPEAKERS, WORKING, SERVICE);
    hide Judge;
  }

  /** The answer when the only instance survives. */
  function Only(st: State, q: RegistryQuery, i: Id): Answer
    requires Survives(st, q, i)
  {
    Answer(FOUND_EXACT, [Candidate(i, FactorsOf(st, q, i), Sum(FactorsOf(st, q, i)), 0)],
      RejectionsOf(st, q, i), [i], 1)
  }

  lemma OnlyAnswer(st: State, q: RegistryQuery, i: Id)
    requires st.instances.Keys == {i} && Survives(st, q, i) && 0 < q.maxResults
    ensures IsAnswer(st, q, Only(st, q, i))
  {
    hide FactorsOf, Sum, RejectionsOf, Survives, Considered;
    var a := Only(st, q, i);
    assert Enumerates([i], st.instances.Keys);
    assert RejectionsIn(st, q, [i]) == RejectionsOf(st, q, i) by {
      assert [i][..0] == [];
    }
    assert ConsideredIn(st, q) == {i} by {
      assert Survives(st, q, i) ==> Considered(st, q, i) by {
        SurvivorIsConsidered(st, q, i);
      }
    }
    assert IdsOf(a.ranked) == [i];
  }

  lemma SurvivorIsConsidered(st: State, q: RegistryQuery, i: Id)
    requires Survives(st, q, i)
    ensures Considered(st, q, i)
  {
  }

  lemma SpeakerAnswered(st: State)
    requires SceneOf(st) == SPOKEN_OF
    ensures Survives(st, SPEAKERS, 1) && IsAnswer(st, SPEAKERS, Only(st, SPEAKERS, 1))
    ensures Only(st, SPEAKERS, 1).rejected == [Rejection(1, INCOMPATIBLE_PROTOCOL)]
  {
    Judges(st);
    assert Considered(st, SPEAKERS, 1) && st.instances.Keys == {1} && 0 < SPEAKERS.maxResults;
    assert Judged(st, SPEAKERS, 1) == Judgement([INCOMPATIBLE_PROTOCOL], true);
    assert RejectionsOf(st, SPEAKERS, 1) == [Rejection(1, INCOMPATIBLE_PROTOCOL)];
    hide Judge, Judged, Considered, SPOKEN_OF, SPEAKERS, RejectionsOf, IsAnswer, FactorsOf, Sum;
    OnlyAnswer(st, SPEAKERS, 1);
  }

  /** The instance is rejected for its protocol, and it is the answer. */
  lemma RejectedAndRanked()
    ensures Runs(INITIAL, SPEAKING)
    ensures exists a :: (
      && IsAnswer(After(INITIAL, SPEAKING), SPEAKERS, a)
      && a.outcome == FOUND_EXACT && a.selected == [1] && a.rejected == [Rejection(1, INCOMPATIBLE_PROTOCOL)])
  {
    StaffedRuns();
    hide Runs, After, INITIAL, STAFFED, Mutate, SceneOf, SPEAKERS, SPOKEN_OF, IsAnswer, Survives, FactorsOf,
         RejectionsOf, Sum;
    OneStepOn(INITIAL, STAFFED, Call(ENV, OpProtocol(SPOKEN)));
    ProtocolRegistered(After(INITIAL, STAFFED));
    SpeakerAnswered(After(INITIAL, SPEAKING));
  }

  const BURYING := OPENING + [Call(ENV, OpTombstone(TOMB))]
  const REBURIED := TOMB.(targetText := Decimal.Digits(6))
  const BURIED := SERVICE.(serviceId := 5)

  /** Service 5 is buried up to generation 9.  A second tombstone under the identity of the first
      uncovers it: its registration at generation 1, refused before, is accepted. */
  lemma CoverageIsLost()
    ensures Runs(INITIAL, BURYING)
    ensures
      var st := After(INITIAL, BURYING);
      var next := Mutate(st, ENV, OpTombstone(REBURIED)).0;
      && Mutate(st, ENV, OpService(BURIED)).1 == Refused(TOMBSTONE_RESURRECTION)
      && Mutate(st, ENV, OpTombstone(REBURIED)).1 == Done(1)
      && Mutate(next, ENV, OpService(BURIED)).1 == Done(0)
  {
    OpeningRuns();
    hide Runs, After, INITIAL, OPENING;
    OneStepOn(INITIAL, OPENING, Call(ENV, OpTombstone(TOMB)));
    var st := After(INITIAL, BURYING);
    assert st.tombstones == map[1 := TOMB];
    hide Mutate, SceneOf, OPENED;
    Uncovers(st);
  }

  lemma Uncovers(st: State)
    requires SceneOf(st) == OPENED.(tombstones := map[1 := TOMB])
    ensures
      var next := Mutate(st, ENV, OpTombstone(REBURIED)).0;
      && Mutate(st, ENV, OpService(BURIED)).1 == Refused(TOMBSTONE_RESURRECTION)
      && Mutate(st, ENV, OpTombstone(REBURIED)).1 == Done(1)
      && Mutate(next, ENV, OpService(BURIED)).1 == Done(0)
  {
    assert Covers(TOMB, SERVICE_ID, 5, 1) && !Covers(REBURIED, SERVICE_ID, 5, 1);
    var next := CreateTombstone(st, REBURIED).0;
    assert next.tombstones == map[1 := REBURIED];
    assert Covered(st.tombstones, SERVICE_ID, 5, 1) by {
      assert Covers(st.tombstones[1], SERVICE_ID, 5, 1);
    }
    assert !Covered(next.tombstones, SERVICE_ID, 5, 1);
    hide Decimal.Digits, Rebuilt, SameService, SERVICE_ID, Covered;
  }

  // ---- identities ----

  const OTHER := SERVICE.(serviceId := 2)
  const CHOSEN := OFFERED.(instanceId := 1)
  const CROWDED := OPENING + [Call(ENV, OpService(OTHER)), Call(ENV, OpInstance(CHOSEN, None))]
  const INTRUDER := OFFERED.(serviceId := 2)

  lemma OtherRegistered(st: State)
    requires SceneOf(st) == OPENED
    ensures SceneOf(Mutate(st, ENV, OpService(OTHER)).0) == OPENED.(services := map[1 := SERVICE, 2 := OTHER])
  {
    assert OTHER.serviceId == 2;
    hide Rebuilt, SameService, SERVICE, OTHER;
  }

  lemma ChosenPasses(st: State)
    requires SceneOf(st) == OPENED.(services := map[1 := SERVICE, 2 := OTHER])
    ensures Plain(st, CHOSEN) && Verdict(st.authority, ENV) == None && IsCurrent(st.instances, 1, None)
    ensures Identified(st, CHOSEN) == CHOSEN && Allocated(st, CHOSEN).nextId == 1
    ensures Settled(Allocated(st, CHOSEN), Identified(st, CHOSEN), None) == None
    ensures GivenWay(st, None) == st && st.instances == map[]
  {
  }

  lemma ChosenRegistered(st: State)
    requires SceneOf(st) == OPENED.(services := map[1 := SERVICE, 2 := OTHER])
    ensures Enabled(st, Call(ENV, OpInstance(CHOSEN, None)))
    ensures SceneOf(Mutate(st, ENV, OpInstance(CHOSEN, None)).0) ==
      OPENED.(services := map[1 := SERVICE, 2 := OTHER], instances := map[1 := WORKING])
  {
    hide RegisterInstance, IsCurrent, GivenWay, Settled, Plain, Allocated, Identified, Verdict, SceneOf;
    ChosenPasses(st);
    PlainRegistered(st, CHOSEN, None);
  }

  lemma IntruderPasses(st: State)
    requires SceneOf(st) == OPENED.(services := map[1 := SERVICE, 2 := OTHER], instances := map[1 := WORKING])
    ensures Plain(st, INTRUDER) && Verdict(st.authority, ENV) == None && IsCurrent(st.instances, 2, None)
    ensures Identified(st, INTRUDER) == INTRUDER.(instanceId := 1)
    ensures Settled(Allocated(st, INTRUDER), Identified(st, INTRUDER), None) == None
    ensures GivenWay(st, None) == st
  {
  }

  lemma IntruderRegistered(st: State)
    requires SceneOf(st) == OPENED.(services := map[1 := SERVICE, 2 := OTHER], instances := map[1 := WORKING])
    ensures Enabled(st, Call(ENV, OpInstance(INTRUDER, None)))
    ensures
      var (next, outcome) := Mutate(st, ENV, OpInstance(INTRUDER, None));
      outcome == Done(1) && next.instances == map[1 := WORKING.(serviceId := 2)]
  {
    hide RegisterInstance, IsCurrent, GivenWay, Settled, Plain, Allocated, Identified, Verdict, SceneOf;
    IntruderPasses(st);
    PlainRegistered(st, INTRUDER, None);
    InstancesOfScene(st);
    InstancesOfScene(RegisterInstance(st, INTRUDER, None).0);
  }

  /** A worker names its instance 1 itself.  The registry then hands out 1 to an instance of another
      service, which takes the place of the first. */
  lemma IdentityIsHandedOutAgain()
    ensures Runs(INITIAL, CROWDED)
    ensures
      var st := After(INITIAL, CROWDED);
      var call := Call(ENV, OpInstance(INTRUDER, None));
      && st.instances == map[1 := WORKING]
      && Enabled(st, call) && Next(st, call).1 == Done(1)
      && Next(st, call).0.instances == map[1 := WORKING.(serviceId := 2)]
  {
    OpeningRuns();
    hide Runs, After, SceneOf, INITIAL, OPENED, OPENING, Mutate, Enabled, WORKING, SERVICE, OTHER;
    var first := Call(ENV, OpService(OTHER));
    var second := Call(ENV, OpInstance(CHOSEN, None));
    assert Enabled(After(INITIAL, OPENING), first) by {
      CallsAreEnabled(After(INITIAL, OPENING), OTHER);
    }
    OneStepOn(INITIAL, OPENING, first);
    OtherRegistered(After(INITIAL, OPENING));
    ChosenRegistered(After(INITIAL, OPENING + [first]));
    OneStepOn(INITIAL, OPENING + [first], second);
    assert CROWDED == OPENING + [first] + [second];
    InstancesOfScene(After(INITIAL, CROWDED));
    IntruderRegistered(After(INITIAL, CROWDED));
  }

  lemma CallsAreEnabled(st: State, svc: Service)
    ensures Enabled(st, Call(ENV, OpService(svc)))
  {
  }

  lemma InstancesOfScene(st: State)
    ensures SceneOf(st).instances == st.instances
  {
  }

  // ---- the order of endpoints ----

  const LOST := Endpoint(11, 0, 1, 3, [], TransportKind.TCP, 80, 0, Health.HEALTHY, Reachability.UNREACHABLE,
    Freshness.CURRENT, EVIDENCE, 0)
  const UNSEEN := LOST.(endpointId := 12, reachability := Reachability.REVALIDATION_REQUIRED)
  const WIRED := OPENING + [Call(ENV, OpEndpoint(LOST)), Call(ENV, OpEndpoint(UNSEEN))]

  lemma FirstEndpoint(st: State, ep: Endpoint)
    requires ep.endpointId != 0 && ep.endpointId !in st.endpoints && st.tombstones == map[]
      && Verdict(st.authority, ENV) == None
    ensures SceneOf(Mutate(st, ENV, OpEndpoint(ep)).0) == SceneOf(st).(endpoints := st.endpoints[ep.endpointId := ep])
  {
  }

  /** The first obstacle among its endpoints decides what a fresh instance of a live boot is. */
  predicate Obstructed(st: State, inst: Instance, reach: Reachability) {
    && inst.endpoints != [] && RegistryInvariants.Obstacle(inst.endpoints[0], st.endpoints) == Some(reach)
    && inst.boot in st.authority.liveBoots && inst.freshness == Freshness.CURRENT
  }

  lemma ObstacleClassifies(st: State, inst: Instance, reach: Reachability)
    requires Obstructed(st, inst, reach)
    ensures Installed(st, inst).instances[inst.instanceId].lifecycle ==
      if reach == Reachability.UNREACHABLE then Lifecycle.UNREACHABLE else Lifecycle.UNREADY
  {
    RegistryInvariants.FirstObstacleDecides(inst.endpoints, st.endpoints);
    hide ScanReachability, AggregateHealth, ProvidesRequired, LeaseHolds, Rebuilt;
  }

  const WIRED_SCENE := OPENED.(endpoints := map[11 := LOST, 12 := UNSEEN])

  lemma WiredBinds(ids: seq<Id>)
    requires ids == [11, 12] || ids == [12, 11]
    ensures Bind(map[], map[11 := LOST, 12 := UNSEEN], ids, 1) ==
      (map[11 := LOST.(serviceInstance := 1), 12 := UNSEEN.(serviceInstance := 1)], None)
  {
    var endpoints := map[11 := LOST, 12 := UNSEEN];
    Registration.BindClaims(map[], endpoints, ids, 1);
    Registration.BindExactly(map[], endpoints, ids, 1);
    hide Bind;
    assert 11 in ids && 12 in ids;
    var bound := Bind(map[], endpoints, ids, 1).0;
    assert bound.Keys == {11, 12} && bound[11] == Registration.Claimed(LOST, 1)
      && bound[12] == Registration.Claimed(UNSEEN, 1);
    assert bound == map[11 := LOST.(serviceInstance := 1), 12 := UNSEEN.(serviceInstance := 1)];
  }

  lemma WiredPasses(st: State, ids: seq<Id>)
    requires SceneOf(st) == WIRED_SCENE
    ensures
      var inst := OFFERED.(endpoints := ids);
      && Enabled(st, Call(ENV, OpInstance(inst, None))) && Verdict(st.authority, ENV) == None
      && 1 in st.services && st.instances == map[] && st.endpoints == map[11 := LOST, 12 := UNSEEN]
      && Identified(st, inst) == inst.(instanceId := 1) && Allocated(st, inst) == st.(nextId := 2)
      && 101 in st.authority.liveBoots
      && Settled(Allocated(st, inst), Identified(st, inst), None) == None
  {
  }

  lemma WiredRegistered(st: State, ids: seq<Id>)
    requires SceneOf(st) == WIRED_SCENE && (ids == [11, 12] || ids == [12, 11])
    ensures Enabled(st, Call(ENV, OpInstance(OFFERED.(endpoints := ids), None)))
    ensures
      var (next, outcome) := Mutate(st, ENV, OpInstance(OFFERED.(endpoints := ids), None));
      && outcome == Done(1) && 1 in next.instances
      && next.instances[1].lifecycle == if ids[0] == 11 then Lifecycle.UNREACHABLE else Lifecycle.UNREADY
  {
    hide Verdict, Settled, Identified, Allocated, SceneOf, Bind, Installed, IsCurrent;
    WiredPasses(st, ids);
    WiredBinds(ids);
    var inst := OFFERED.(endpoints := ids, instanceId := 1);
    var bound := map[11 := LOST.(serviceInstance := 1), 12 := UNSEEN.(serviceInstance := 1)];
    var claimed := st.(nextId := 2, endpoints := bound);
    assert Obstructed(claimed, inst, bound[ids[0]].reachability);
    ObstacleClassifies(claimed, inst, bound[ids[0]].reachability);
    Registration.InstalledInstances(claimed, inst);
  }

  lemma WiredRuns()
    ensures Runs(INITIAL, WIRED) && SceneOf(After(INITIAL, WIRED)) == WIRED_SCENE
  {
    OpeningRuns();
    hide Runs, After, INITIAL, OPENING, Mutate;
    var st := After(INITIAL, OPENING);
    OneStepOn(INITIAL, OPENING, Call(ENV, OpEndpoint(LOST)));
    FirstEndpoint(st, LOST);
    var next := After(INITIAL, OPENING + [Call(ENV, OpEndpoint(LOST))]);
    OneStepOn(INITIAL, OPENING + [Call(ENV, OpEndpoint(LOST))], Call(ENV, OpEndpoint(UNSEEN)));
    FirstEndpoint(next, UNSEEN);
    assert WIRED == OPENING + [Call(ENV, OpEndpoint(LOST))] + [Call(ENV, OpEndpoint(UNSEEN))];
  }

  /** Of the same two endpoints, one lost and one unseen, the one listed first decides whether the
      instance is UNREACHABLE or UNREADY. */
  lemma OrderDecides()
    ensures Runs(INITIAL, WIRED)
    ensures
      var st := After(INITIAL, WIRED);
      var one := Call(ENV, OpInstance(OFFERED.(endpoints := [11, 12]), None));
      var two := Call(ENV, OpInstance(OFFERED.(endpoints := [12, 11]), None));
      && Enabled(st, one) && 1 in Next(st, one).0.instances
      && Next(st, one).0.instances[1].lifecycle == Lifecycle.UNREACHABLE
      && Enabled(st, two) && 1 in Next(st, two).0.instances
      && Next(st, two).0.instances[1].lifecycle == Lifecycle.UNREADY
  {
    hide Runs, After, INITIAL, Mutate, Possible, SceneOf;
    WiredRuns();
    WiredRegistered(After(INITIAL, WIRED), [11, 12]);
    WiredRegistered(After(INITIAL, WIRED), [12, 11]);
  }
}
