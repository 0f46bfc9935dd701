/** The coordinator of apps/coordinator.cpp: any number of connections, each with its own
    `handle_connection`, share one registry.  The registry locks every call, so a run is some
    interleaving of their calls. */
module Coordinator {
  import opened Base
  import opened Enums
  import opened Records
  import opened RegistryModel
  import opened RegistryInvariants
  import Fencing
  import QueryModel
  import QueryTheorems
  import opened RegistryObject

  /** The local variables of one `handle_connection`. */
  datatype Conn = Conn(hasWorker: bool, worker: Id, boot: Id)

  /** `conns` holds the open connections. */
  datatype World = World(st: State, epoch: Generation, conns: map<nat, Conn>)

  datatype Event =
    | Connect(c: nat)
    | Hello(c: nat, worker: Id)
    | Request(c: nat, op: Op, serviceInstanceGeneration: Generation)
    | Close(c: nat)

  /** `main`: a registry in a new epoch, no connections. */
  function Start(): World {
    World(NewEpoch(INITIAL), NewEpoch(INITIAL).authority.epoch, map[])
  }

  /** The mutations a connection can ask for; an instance carries the worker and boot of its
      connection. */
  predicate Offered(conn: Conn, op: Op) {
    match op
    case OpRuntime(_) => true
    case OpService(_) => true
    case OpEndpoint(_) => true
    case OpCapability(_) => true
    case OpInstance(inst, _) => inst.worker == conn.worker && inst.boot == conn.boot
    case OpObserve(_, SetHealth(_)) => true
    case OpObserve(_, SetReadiness(_)) => true
    case _ => false
  }

  function EnvelopeOf(w: World, conn: Conn, generation: Generation): Envelope {
    Envelope(w.epoch, conn.boot, generation, 0, 0)
  }

  predicate Feasible(w: World, e: Event) {
    match e
    case Connect(c) => c !in w.conns
    case Hello(c, _) => c in w.conns
    case Request(c, op, _) => c in w.conns && Offered(w.conns[c], op) && Possible(w.st, op)
    case Close(c) => c in w.conns
  }

  /** One call of one connection. */
  function Act(w: World, e: Event): World
    requires Feasible(w, e)
  {
    match e
    case Connect(c) => w.(conns := w.conns[c := Conn(false, 0, 0)])
    case Hello(c, worker) =>
      var (st, outcome) := Adopted(w.st, worker);
      w.(st := st, conns := w.conns[c := Conn(true, worker, outcome.id)])
    case Request(c, op, generation) =>
      if w.conns[c].hasWorker then w.(st := Mutate(w.st, EnvelopeOf(w, w.conns[c], generation), op).0) else w
    case Close(c) =>
      w.(st := if w.conns[c].hasWorker then Revoked(w.st, w.conns[c].boot) else w.st, conns := w.conns - {c})
  }

  predicate Plays(w: World, events: seq<Event>)
    decreases |events|
  {
    events == [] || (Feasible(w, events[0]) && Plays(Act(w, events[0]), events[1..]))
  }

  function WorldAfter(w: World, events: seq<Event>): World
    requires Plays(w, events)
    decreases |events|
  {
    if events == [] then w else WorldAfter(Act(w, events[0]), events[1..])
  }

  // ---- what every interleaving keeps ----

  /** The connection speaks for the boot that its worker has now. */
  predicate HoldsCurrent(a: Authority, conn: Conn) {
    conn.hasWorker && conn.worker in a.currentBoot && a.currentBoot[conn.worker] == conn.boot
  }

  /** A connection's boot was issued to its worker, and if it is live it is the worker's current one. */
  predicate Sane(a: Authority, nextBoot: u64, conn: Conn) {
    conn.hasWorker ==>
      && 0 < conn.boot <= nextBoot
      && (conn.boot in a.liveBoots ==> conn.boot in a.bootWorker && a.bootWorker[conn.boot] == conn.worker)
  }

  predicate CurrentIsLive(a: Authority) {
    forall w :: w in a.currentBoot ==> a.currentBoot[w] == 0 || a.currentBoot[w] in a.liveBoots
  }

  predicate Distinct(conns: map<nat, Conn>) {
    forall c, d ::
      c in conns && d in conns && c != d && conns[c].hasWorker && conns[d].hasWorker ==> conns[c].boot != conns[d].boot
  }

  predicate Good(a: Authority, nextBoot: u64, conns: map<nat, Conn>) {
    && Fencing.Assigned(a, nextBoot) && CurrentIsLive(a) && Distinct(conns)
    && forall c :: c in conns ==> Sane(a, nextBoot, conns[c])
  }

  predicate GoodWorld(w: World) {
    Good(w.st.authority, w.st.nextBoot, w.conns) && w.st.authority.epoch == w.epoch
  }

  lemma HelloGood(a: Authority, nextBoot: u64, conns: map<nat, Conn>, c: nat, worker: Id)
    requires Good(a, nextBoot, conns) && nextBoot < TWO_64 - 1
    ensures Good(Fencing.AdoptedAuthority(a, worker, nextBoot + 1), nextBoot + 1,
      conns[c := Conn(true, worker, nextBoot + 1)])
  {
    Fencing.AssignedKeeps(a, nextBoot, Adopt(worker));
    var next := Fencing.AdoptedAuthority(a, worker, nextBoot + 1);
    assert Fencing.Assigned(next, nextBoot + 1);
    assert forall b ::
      b in next.liveBoots && b <= nextBoot ==> b in a.liveBoots && next.bootWorker[b] == a.bootWorker[b];
    assert CurrentIsLive(next);
    hide Fencing.Assigned, CurrentIsLive, Fencing.AdoptedAuthority;
  }

  lemma CloseGood(a: Authority, nextBoot: u64, conns: map<nat, Conn>, c: nat, boot: Id)
    requires Good(a, nextBoot, conns) && nextBoot < TWO_64 - 1
    ensures Good(RevokedAuthority(a, boot), nextBoot, conns - {c})
  {
    Fencing.AssignedKeeps(a, nextBoot, Died(boot));
    hide Fencing.Assigned;
    var next := RevokedAuthority(a, boot);
    assert CurrentIsLive(next) by { CurrentStaysLive(a, nextBoot, boot); }
  }

  lemma CurrentStaysLive(a: Authority, nextBoot: u64, boot: Id)
    requires Fencing.Assigned(a, nextBoot) && CurrentIsLive(a)
    ensures CurrentIsLive(RevokedAuthority(a, boot))
  {
  }

  lemma SameFenceGood(a: Authority, b: Authority, nextBoot: u64, conns: map<nat, Conn>)
    requires SameFence(a, b) && Good(a, nextBoot, conns)
    ensures Good(b, nextBoot, conns)
  {
  }

  lemma ActGood(w: World, e: Event)
    requires Feasible(w, e) && GoodWorld(w) && w.st.nextBoot < TWO_64 - 1
    ensures GoodWorld(Act(w, e)) && Act(w, e).st.nextBoot <= w.st.nextBoot + 1
  {
    hide Adopted, Mutate, Revoked, Possible, Good, Offered;
    match e
    case Connect(c) => ConnectGood(w.st.authority, w.st.nextBoot, w.conns, c);
    case Hello(c, worker) =>
      Fencing.AdoptionAuthority(w.st, worker);
      HelloGood(w.st.authority, w.st.nextBoot, w.conns, c, worker);
      AdoptionIssues(w.st, worker);
    case Request(c, op, generation) =>
      Fencing.MutationsKeepFence(w.st, EnvelopeOf(w, w.conns[c], generation), op);
      SameFenceGood(w.st.authority, Act(w, e).st.authority, w.st.nextBoot, w.conns);
    case Close(c) =>
      Fencing.RevocationAuthority(w.st, w.conns[c].boot);
      CloseGood(w.st.authority, w.st.nextBoot, w.conns, c, w.conns[c].boot);
      ConnectGood(w.st.authority, w.st.nextBoot, w.conns, c);
  }

  lemma AdoptionIssues(st: State, worker: Id)
    ensures Adopted(st, worker).1 == Done(Inc(st.nextBoot))
    ensures Adopted(st, worker).0.authority.epoch == st.authority.epoch
  {
    Fencing.AdoptionAuthority(st, worker);
    hide Revoked;
  }

  lemma ConnectGood(a: Authority, nextBoot: u64, conns: map<nat, Conn>, c: nat)
    requires Good(a, nextBoot, conns)
    ensures c !in conns ==> Good(a, nextBoot, conns[c := Conn(false, 0, 0)])
    ensures Good(a, nextBoot, conns - {c})
  {
    hide Fencing.Assigned, CurrentIsLive;
  }

  lemma StartGood()
    ensures GoodWorld(Start())
  {
    Fencing.RestartAuthority(INITIAL);
    hide NewEpoch;
  }

  /** Every interleaving of any number of connections keeps boots, workers and connections straight. */
  lemma {:induction false} PlaysKeepGood(w: World, events: seq<Event>)
    requires Plays(w, events) && GoodWorld(w) && w.st.nextBoot + |events| < TWO_64
    ensures GoodWorld(WorldAfter(w, events))
    decreases |events|
  {
    hide Act, Feasible, GoodWorld;
    if events != [] {
      ActGood(w, events[0]);
      PlaysKeepGood(Act(w, events[0]), events[1..]);
    }
  }

  // ---- what that gives ----

  /** In every reachable world a request passes the authority check exactly when its connection
      holds the current boot of its worker; and then no other open connection does. */
  lemma AcceptedExactly(events: seq<Event>, c: nat, generation: Generation)
    requires Plays(Start(), events) && Start().st.nextBoot + |events| < TWO_64
    requires c in WorldAfter(Start(), events).conns && WorldAfter(Start(), events).conns[c].hasWorker
    ensures
      var w := WorldAfter(Start(), events);
      && (Verdict(w.st.authority, EnvelopeOf(w, w.conns[c], generation)) == None <==>
           HoldsCurrent(w.st.authority, w.conns[c]))
      && (HoldsCurrent(w.st.authority, w.conns[c]) ==>
            forall d ::
              d in w.conns && d != c && w.conns[d].hasWorker && w.conns[d].worker == w.conns[c].worker ==>
                !HoldsCurrent(w.st.authority, w.conns[d]))
  {
    StartGood();
    hide Start, Plays, WorldAfter, GoodWorld;
    PlaysKeepGood(Start(), events);
    GoodAccepts(WorldAfter(Start(), events), c, generation);
  }

  lemma GoodAccepts(w: World, c: nat, generation: Generation)
    requires GoodWorld(w) && c in w.conns && w.conns[c].hasWorker
    ensures Verdict(w.st.authority, EnvelopeOf(w, w.conns[c], generation)) == None <==>
      HoldsCurrent(w.st.authority, w.conns[c])
    ensures HoldsCurrent(w.st.authority, w.conns[c]) ==>
      forall d ::
        d in w.conns && d != c && w.conns[d].hasWorker && w.conns[d].worker == w.conns[c].worker ==>
          !HoldsCurrent(w.st.authority, w.conns[d])
  {
  }

  /** A request of a connection whose worker has since said hello elsewhere is refused and changes
      nothing. */
  lemma ReplacedIsRefused(events: seq<Event>, c: nat, op: Op, generation: Generation)
    requires Plays(Start(), events) && Start().st.nextBoot + |events| < TWO_64
    requires Feasible(WorldAfter(Start(), events), Request(c, op, generation))
    requires !HoldsCurrent(WorldAfter(Start(), events).st.authority, WorldAfter(Start(), events).conns[c])
    ensures Act(WorldAfter(Start(), events), Request(c, op, generation)) == WorldAfter(Start(), events)
  {
    hide Plays, WorldAfter, Start, Perform, HoldsCurrent;
    if WorldAfter(Start(), events).conns[c].hasWorker {
      AcceptedExactly(events, c, generation);
    }
  }

  /** The late close of such a connection leaves the registry as it is; it takes only itself away. */
  lemma LateCloseIsIdle(events: seq<Event>, c: nat)
    requires Plays(Start(), events) && Start().st.nextBoot + |events| < TWO_64
    requires c in WorldAfter(Start(), events).conns
    requires !HoldsCurrent(WorldAfter(Start(), events).st.authority, WorldAfter(Start(), events).conns[c])
    ensures Act(WorldAfter(Start(), events), Close(c)).st == WorldAfter(Start(), events).st
  {
    var w := WorldAfter(Start(), events);
    StartGood();
    hide Plays, WorldAfter, Start;
    PlaysKeepGood(Start(), events);
    assert w.conns[c].hasWorker ==> w.conns[c].boot !in w.st.authority.liveBoots;
    hide GoodWorld, HoldsCurrent;
  }

  /** Every instance that a query ranks belongs to the current boot of some worker. */
  lemma RankedAreCurrent(events: seq<Event>, q: QueryModel.RegistryQuery, a: QueryModel.Answer, i: Id)
    requires Plays(Start(), events) && Start().st.nextBoot + |events| < TWO_64
    requires QueryModel.IsAnswer(WorldAfter(Start(), events).st, q, a) && i in QueryModel.IdsOf(a.ranked)
    ensures
      var st := WorldAfter(Start(), events).st;
      i in st.instances && exists worker ::
        worker in st.authority.currentBoot && st.authority.currentBoot[worker] == st.instances[i].boot
  {
    StartGood();
    hide Plays, WorldAfter, Start, QueryModel.IsAnswer;
    PlaysKeepGood(Start(), events);
    var w := WorldAfter(Start(), events);
    QueryTheorems.RankedIsLive(w.st, q, a, i);
    var boot := w.st.instances[i].boot;
    assert w.st.authority.currentBoot[w.st.authority.bootWorker[boot]] == boot;
  }

  // ---- boots without a connection ----

  /** Saying hello again, the boot a connection had stays live exactly when it was the current boot
      of another worker.  The connection forgets it: it can neither use it nor revoke it on close. */
  lemma SecondHelloOrphansExactly(w: World, c: nat, worker: Id)
    requires GoodWorld(w) && w.st.nextBoot < TWO_64 - 1
    requires c in w.conns && w.conns[c].hasWorker
    ensures
      var next := Act(w, Hello(c, worker));
      && (w.conns[c].boot in next.st.authority.liveBoots <==>
           HoldsCurrent(w.st.authority, w.conns[c]) && w.conns[c].worker != worker)
      && forall d :: d in next.conns && next.conns[d].hasWorker ==> next.conns[d].boot != w.conns[c].boot
  {
    Fencing.AdoptionAuthority(w.st, worker);
    AdoptionIssues(w.st, worker);
    hide Adopted;
  }

  /** Every live boot belongs to an open connection; as connections have distinct boots, to one. */
  predicate AllHeld(a: Authority, conns: map<nat, Conn>) {
    forall b :: b in a.liveBoots ==> exists c :: c in conns && conns[c].hasWorker && conns[c].boot == b
  }

  /** The event is a hello of a connection that holds the current boot of another worker. */
  predicate Orphans(w: World, e: Event) {
    e.Hello? && e.c in w.conns && HoldsCurrent(w.st.authority, w.conns[e.c]) && w.conns[e.c].worker != e.worker
  }

  lemma HelloHeld(a: Authority, nextBoot: u64, conns: map<nat, Conn>, c: nat, worker: Id)
    requires Good(a, nextBoot, conns) && nextBoot < TWO_64 - 1 && AllHeld(a, conns)
    requires c in conns && !(HoldsCurrent(a, conns[c]) && conns[c].worker != worker)
    ensures AllHeld(Fencing.AdoptedAuthority(a, worker, nextBoot + 1), conns[c := Conn(true, worker, nextBoot + 1)])
  {
    var next := Fencing.AdoptedAuthority(a, worker, nextBoot + 1);
    var more := conns[c := Conn(true, worker, nextBoot + 1)];
    forall b | b in next.liveBoots ensures exists d :: d in more && more[d].hasWorker && more[d].boot == b {
      if b == nextBoot + 1 {
        assert more[c].boot == b;
      } else {
        var d :| d in conns && conns[d].hasWorker && conns[d].boot == b;
        assert d != c;
        assert more[d] == conns[d];
      }
    }
  }

  lemma CloseHeld(a: Authority, conns: map<nat, Conn>, c: nat)
    requires AllHeld(a, conns) && c in conns
    ensures AllHeld(if conns[c].hasWorker then RevokedAuthority(a, conns[c].boot) else a, conns - {c})
  {
    var next := if conns[c].hasWorker then RevokedAuthority(a, conns[c].boot) else a;
    forall b | b in next.liveBoots
      ensures exists d :: d in conns - {c} && (conns - {c})[d].hasWorker && (conns - {c})[d].boot == b {
      var d :| d in conns && conns[d].hasWorker && conns[d].boot == b;
      assert d in conns - {c};
    }
  }

  lemma ConnectHeld(a: Authority, conns: map<nat, Conn>, c: nat)
    requires AllHeld(a, conns) && c !in conns
    ensures AllHeld(a, conns[c := Conn(false, 0, 0)])
  {
    var more := conns[c := Conn(false, 0, 0)];
    forall b | b in a.liveBoots ensures exists d :: d in more && more[d].hasWorker && more[d].boot == b {
      var d :| d in conns && conns[d].hasWorker && conns[d].boot == b;
      assert more[d] == conns[d];
    }
  }

  /** Exactly these events leave a live boot without a connection. */
  lemma ActHeldExactly(w: World, e: Event)
    requires Feasible(w, e) && GoodWorld(w) && w.st.nextBoot < TWO_64 - 1 && AllHeld(w.st.authority, w.conns)
    ensures AllHeld(Act(w, e).st.authority, Act(w, e).conns) <==> !Orphans(w, e)
  {
    hide Adopted, Mutate, Revoked, Possible, Offered, Good, AllHeld;
    match e
    case Connect(c) => ConnectHeld(w.st.authority, w.conns, c);
    case Hello(c, worker) =>
      Fencing.AdoptionAuthority(w.st, worker);
      AdoptionIssues(w.st, worker);
      if Orphans(w, e) {
        SecondHelloOrphansExactly(w, c, worker);
        Unheld(Act(w, e).st.authority, Act(w, e).conns, w.conns[c].boot);
      } else {
        HelloHeld(w.st.authority, w.st.nextBoot, w.conns, c, worker);
      }
    case Request(c, op, generation) =>
      Fencing.MutationsKeepFence(w.st, EnvelopeOf(w, w.conns[c], generation), op);
      SameHeld(w.st.authority, Act(w, e).st.authority, w.conns);
    case Close(c) =>
      Fencing.RevocationAuthority(w.st, w.conns[c].boot);
      CloseHeld(w.st.authority, w.conns, c);
  }

  lemma Unheld(a: Authority, conns: map<nat, Conn>, boot: Id)
    requires boot in a.liveBoots && forall d :: d in conns && conns[d].hasWorker ==> conns[d].boot != boot
    ensures !AllHeld(a, conns)
  {
  }

  lemma SameHeld(a: Authority, b: Authority, conns: map<nat, Conn>)
    requires SameFence(a, b) && AllHeld(a, conns)
    ensures AllHeld(b, conns)
  {
  }

  predicate NoneOrphans(w: World, events: seq<Event>)
    requires Plays(w, events)
    decreases |events|
  {
    events == [] || (!Orphans(w, events[0]) && NoneOrphans(Act(w, events[0]), events[1..]))
  }

  /** In every world of the play, the last included. */
  predicate HeldThroughout(w: World, events: seq<Event>)
    requires Plays(w, events)
    decreases |events|
  {
    AllHeld(w.st.authority, w.conns) && (events != [] ==> HeldThroughout(Act(w, events[0]), events[1..]))
  }

  /** Throughout an interleaving every live boot belongs to exactly one open connection, exactly
      when no connection that holds the current boot of a worker says hello for another one. */
  lemma HeldThroughoutExactly(events: seq<Event>)
    requires Plays(Start(), events) && Start().st.nextBoot + |events| < TWO_64
    ensures HeldThroughout(Start(), events) <==> NoneOrphans(Start(), events)
  {
    StartGood();
    assert AllHeld(Start().st.authority, Start().conns) by {
      Fencing.RestartAuthority(INITIAL);
      hide NewEpoch;
    }
    hide Start, Plays, NoneOrphans, HeldThroughout, GoodWorld, AllHeld;
    HeldThroughoutFrom(Start(), events);
  }

  lemma {:induction false} HeldThroughoutFrom(w: World, events: seq<Event>)
    requires Plays(w, events) && GoodWorld(w) && w.st.nextBoot + |events| < TWO_64 && AllHeld(w.st.authority, w.conns)
    ensures HeldThroughout(w, events) <==> NoneOrphans(w, events)
    decreases |events|
  {
    hide Act, Feasible, GoodWorld, Orphans, AllHeld;
    if events != [] {
      ActHeldExactly(w, events[0]);
      ActGood(w, events[0]);
      if !Orphans(w, events[0]) {
        HeldThroughoutFrom(Act(w, events[0]), events[1..]);
      } else {
        NotHeld(Act(w, events[0]), events[1..]);
      }
    }
  }

  lemma NotHeld(w: World, events: seq<Event>)
    requires Plays(w, events) && !AllHeld(w.st.authority, w.conns)
    ensures !HeldThroughout(w, events)
  {
  }

  const TWO_HELLOS := [Connect(0), Hello(0, 7), Hello(0, 8)]

  /** Such a play: boot 101 of worker 7 stays live and no connection has it. */
  lemma BootIsOrphaned()
    ensures Plays(Start(), TWO_HELLOS)
    ensures
      var w := WorldAfter(Start(), TWO_HELLOS);
      101 in w.st.authority.liveBoots && w.conns == map[0 := Conn(true, 8, 102)]
  {
    StartGood();
    assert Start().st.nextBoot == 100 && Start().conns == map[] by {
      Fencing.RestartAuthority(INITIAL);
      hide NewEpoch;
    }
    hide Start, GoodWorld;
    TwoHellos(Start());
  }

  lemma TwoHellos(w: World)
    requires GoodWorld(w) && w.st.nextBoot == 100 && w.conns == map[]
    ensures Plays(w, TWO_HELLOS) && WorldAfter(w, TWO_HELLOS).conns == map[0 := Conn(true, 8, 102)]
    ensures 101 in WorldAfter(w, TWO_HELLOS).st.authority.liveBoots
  {
    hide GoodWorld, HoldsCurrent, Adopted, Mutate, Revoked, Plays, WorldAfter, Possible, Offered;
    var w1 := Act(w, Connect(0));
    ActGood(w, Connect(0));
    assert w1.st == w.st && w1.conns == map[0 := Conn(false, 0, 0)];
    var w2 := Act(w1, Hello(0, 7));
    FirstHello(w1);
    SecondHello(w2);
    PlaysThree(w, Connect(0), Hello(0, 7), Hello(0, 8));
    hide Act, Feasible;
  }

  lemma FirstHello(w: World)
    requires GoodWorld(w) && w.st.nextBoot == 100 && w.conns == map[0 := Conn(false, 0, 0)]
    ensures
      var next := Act(w, Hello(0, 7));
      GoodWorld(next) && next.st.nextBoot == 101 && next.conns == map[0 := Conn(true, 7, 101)]
      && HoldsCurrent(next.st.authority, next.conns[0])
  {
    hide GoodWorld, HoldsCurrent, Adopted, Mutate, Revoked, Possible, Offered;
    ActGood(w, Hello(0, 7));
    HelloTakes(w, 0, 7);
    hide Act, Feasible;
  }

  lemma SecondHello(w: World)
    requires GoodWorld(w) && w.st.nextBoot == 101 && w.conns == map[0 := Conn(true, 7, 101)]
      && HoldsCurrent(w.st.authority, w.conns[0])
    ensures
      var next := Act(w, Hello(0, 8));
      101 in next.st.authority.liveBoots && next.conns == map[0 := Conn(true, 8, 102)]
  {
    hide GoodWorld, HoldsCurrent, Adopted, Mutate, Revoked, Possible, Offered;
    SecondHelloOrphansExactly(w, 0, 8);
    HelloTakes(w, 0, 8);
    hide Act, Feasible;
  }

  lemma HelloTakes(w: World, c: nat, worker: Id)
    requires c in w.conns && w.st.nextBoot < TWO_64 - 1
    ensures
      var next := Act(w, Hello(c, worker));
      && next.st.nextBoot == w.st.nextBoot + 1 && next.conns == w.conns[c := Conn(true, worker, w.st.nextBoot + 1)]
      && HoldsCurrent(next.st.authority, next.conns[c])
  {
    Fencing.AdoptionAuthority(w.st, worker);
    AdoptionIssues(w.st, worker);
    hide Adopted, RevokedAuthority;
  }

  lemma PlaysThree(w: World, a: Event, b: Event, c: Event)
    requires Feasible(w, a) && Feasible(Act(w, a), b) && Feasible(Act(Act(w, a), b), c)
    ensures Plays(w, [a, b, c]) && WorldAfter(w, [a, b, c]) == Act(Act(Act(w, a), b), c)
  {
    hide Act, Feasible;
    assert [a, b, c][1..] == [b, c] && [b, c][1..] == [c] && [c][1..] == [];
    assert Plays(Act(Act(w, a), b), [c]) && WorldAfter(Act(Act(w, a), b), [c]) == Act(Act(Act(w, a), b), c);
    assert Plays(Act(w, a), [b, c]) && WorldAfter(Act(w, a), [b, c]) == Act(Act(Act(w, a), b), c);
  }

  // ---- one connection ----

  /** The state of one `handle_connection` and the branches that touch it. */
  class Connection {
    var hasWorker: bool
    var worker: Id
    var boot: Id

    function View(): Conn
      reads this
    {
      Conn(hasWorker, worker, boot)
    }

    constructor ()
      ensures View() == Conn(false, 0, 0)
    {
      hasWorker, worker, boot := false, 0, 0;
    }

    method SayHello(reg: Registry, w: Id)
      modifies this, reg
      ensures reg.View() == Adopted(old(reg.View()), w).0
      ensures Adopted(old(reg.View()), w).1 == Done(boot) && View() == Conn(true, w, boot)
    {
      hide Adopted;
      worker := w;
      boot := reg.AdoptWorker(worker);
      hasWorker := true;
    }

    /** The end of the connection. */
    method Hangup(reg: Registry)
      modifies reg
      ensures reg.View() == if hasWorker then Revoked(old(reg.View()), boot) else old(reg.View())
    {
      hide Revoked;
      if hasWorker {
        reg.MarkWorkerDied(boot);
      }
    }

    /** `UH` and `UR`: an update under the connection's authority; `None` answers NO_WORKER. */
    method Update(reg: Registry, epoch: Generation, id: Id, o: Observation, generation: Generation)
        returns (r: Option<Outcome>)
      requires o.SetHealth? || o.SetReadiness?
      modifies reg
      ensures !hasWorker ==> r == None && reg.View() == old(reg.View())
      ensures hasWorker ==>
        var env := Envelope(epoch, boot, generation, 0, 0);
        r.Some? && (reg.View(), r.value) == Mutate(old(reg.View()), env, OpObserve(id, o))
    {
      if !hasWorker {
        return None;
      }
      var env := Envelope(epoch, boot, generation, 0, 0);
      hide Reclassified, Observe;
      var outcome := reg.Update(id, o, env);
      return Some(outcome);
    }
  }
}
