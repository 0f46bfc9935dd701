/** What saving and loading keep: the round trip, recovery and its idempotence, and which inputs a
    load refuses and what it leaves behind. */
module Recovery {
  import opened Base
  import opened Enums
  import opened Records
  import opened Codec
  import opened Sections
  import opened RegistryModel
  import opened RegistryInvariants
  import opened Persistence
  import RecordCodec
  import SemVer
  import Crc32
  import LittleEndian

  // ---- the trailer ----

  lemma SealedIsIntact(content: Bytes, sha: Bytes -> Digest)
    requires |content| >= 10
    ensures Intact(Sealed(content, sha), sha)
    ensures Sealed(content, sha)[..|Sealed(content, sha)| - 36] == content
  {
    hide Crc32.Crc, LittleEndian.Bytes32, LittleEndian.Read32;
    var data := Sealed(content, sha);
    var n := |data| - 36;
    assert data[..n] == content;
    assert data[n..][..4] == LittleEndian.Bytes32(Crc32.Crc(content, 0));
    assert data[n + 4..] == sha(content);
    LittleEndian.ReadOfBytes(Crc32.Crc(content, 0));
    ReadFront(data[n..]);
  }

  lemma ReadFront(b: Bytes)
    requires |b| >= 4
    ensures LittleEndian.Read32(b) == LittleEndian.Read32(b[..4])
  {
  }

  lemma ContentsAreLong(st: State)
    ensures |Contents(st)| >= 10
  {
    hide PutCatalog, PutCounts, LittleEndian.Bytes32;
  }

  // ---- the round trip ----

  /** Loading a save, into whatever registry, succeeds and yields the saved registry after the
      recovery downgrade: its records, histories, generations and counters, and no process authority. */
  lemma LoadOfSaved(st: State, into: State, sha: Bytes -> Digest)
    requires KeysMatch(st) && WithinLimits(st)
    ensures Load(into, Saved(st, sha), sha) == (Recovered(st), Done(0))
  {
    ContentsAreLong(st);
    SealedIsIntact(Contents(st), sha);
    LoadOfContents(st, into);
    hide Intact, LoadContent, Contents, Recovered, KeysMatch, WithinLimits;
  }

  lemma LoadOfContents(st: State, into: State)
    requires KeysMatch(st) && WithinLimits(st)
    ensures LoadContent(into, Contents(st)) == (Recovered(st), Done(0))
  {
    hide KeysMatch, WithinLimits, PutHeader, GetHeader, PutCatalog, LoadRecords, Recovered, NumbersOf;
    var body := PutCatalog(st, PutInventory(st, PutHistories(st, [])));
    CountsFit(st);
    HeaderUndoes(Header(NumbersOf(st), CountsOf(st)), body);
    RecordsUndo(st, into);
    RecoveryForgetsAuthority(st, into);
  }

  /** Recovery drops process authority, so it does not matter whose it was. */
  lemma RecoveryForgetsAuthority(st: State, into: State)
    ensures Recovered(Renumbered(Replaced(into, st), NumbersOf(st))) == Recovered(st)
  {
    hide RecoveredInstances, RecoveredEndpoints, RecoveredCapabilities, RecoveredLeases, Rebuilt;
  }

  // ---- recovery ----

  lemma MapsRecoveredTwice(instances: map<Id, Instance>, endpoints: map<Id, Endpoint>,
      capabilities: map<Id, Capability>, leases: map<Id, Lease>)
    ensures RecoveredInstances(RecoveredInstances(instances)) == RecoveredInstances(instances)
    ensures RecoveredEndpoints(RecoveredEndpoints(endpoints)) == RecoveredEndpoints(endpoints)
    ensures RecoveredCapabilities(RecoveredCapabilities(capabilities)) == RecoveredCapabilities(capabilities)
    ensures RecoveredLeases(RecoveredLeases(leases)) == RecoveredLeases(leases)
  {
  }

  /** Recovery is idempotent. */
  lemma RecoveredTwice(st: State)
    ensures Recovered(Recovered(st)) == Recovered(st)
  {
    MapsRecoveredTwice(st.instances, st.endpoints, st.capabilities, st.leases);
    hide RecoveredInstances, RecoveredEndpoints, RecoveredCapabilities, RecoveredLeases, Rebuilt;
  }

  /** A new epoch is recovery with the epoch moved on. */
  lemma NewEpochIsRecovery(st: State)
    requires Inv(st)
    ensures NewEpoch(st) == Recovered(st).(authority := Recovered(st).authority.(epoch := Inc(st.authority.epoch)))
  {
    DistrustedKeeps(st);
    RebuildIsIdle(Distrusted(st));
    hide Inv, RecoveredInstances, RecoveredEndpoints, RecoveredCapabilities, RecoveredLeases, Rebuilt;
  }

  /** Recovery changes neither the number nor the length nor the identity of anything saved. */
  lemma RecoveredFits(st: State)
    ensures WithinLimits(Recovered(st)) <==> WithinLimits(st)
    ensures KeysMatch(Recovered(st)) <==> KeysMatch(st)
  {
    hide AllShort, EachShort, Filed;
    RecoveredInstancesFit(st.instances);
    RecoveredEndpointsFit(st.endpoints);
    RecoveredCapabilitiesFit(st.capabilities);
    RecoveredLeasesFit(st.leases);
    hide RecoveredInstances, RecoveredEndpoints, RecoveredCapabilities, RecoveredLeases, Rebuilt;
  }

  lemma RecoveredInstancesFit(instances: map<Id, Instance>)
    ensures AllShort(RecoveredInstances(instances), RecordCodec.ShortInstance) <==>
      AllShort(instances, RecordCodec.ShortInstance)
    ensures Filed(RecoveredInstances(instances), InstanceKey) <==> Filed(instances, InstanceKey)
    ensures |RecoveredInstances(instances)| == |instances|
  {
    var next := RecoveredInstances(instances);
    assert next.Keys == instances.Keys;
    assert forall k :: k in instances ==> next[k] == RecoveredInstance(instances[k]);
    hide RecoveredInstances;
    hide ShortText, ShortVersion, ShortProv;
  }

  lemma RecoveredEndpointsFit(endpoints: map<Id, Endpoint>)
    ensures AllShort(RecoveredEndpoints(endpoints), RecordCodec.ShortEndpoint) <==>
      AllShort(endpoints, RecordCodec.ShortEndpoint)
    ensures Filed(RecoveredEndpoints(endpoints), EndpointKey) <==> Filed(endpoints, EndpointKey)
    ensures |RecoveredEndpoints(endpoints)| == |endpoints|
  {
    var next := RecoveredEndpoints(endpoints);
    assert next.Keys == endpoints.Keys;
    assert forall k :: k in endpoints ==> next[k] == RecoveredEndpoint(endpoints[k]);
    hide RecoveredEndpoints;
    hide ShortText, ShortProv;
  }

  lemma RecoveredCapabilitiesFit(capabilities: map<Id, Capability>)
    ensures AllShort(RecoveredCapabilities(capabilities), RecordCodec.ShortCapability) <==>
      AllShort(capabilities, RecordCodec.ShortCapability)
    ensures Filed(RecoveredCapabilities(capabilities), CapabilityKey) <==> Filed(capabilities, CapabilityKey)
    ensures |RecoveredCapabilities(capabilities)| == |capabilities|
  {
    var next := RecoveredCapabilities(capabilities);
    assert next.Keys == capabilities.Keys;
    assert forall k :: k in capabilities ==> next[k] == RecoveredCapability(capabilities[k]);
    hide RecoveredCapabilities;
    hide ShortText, ShortVersion, ShortProv, ShortValue, ShortTexts;
  }

  lemma RecoveredLeasesFit(leases: map<Id, Lease>)
    ensures AllShort(RecoveredLeases(leases), RecordCodec.ShortLease) <==> AllShort(leases, RecordCodec.ShortLease)
    ensures Filed(RecoveredLeases(leases), LeaseKey) <==> Filed(leases, LeaseKey)
    ensures |RecoveredLeases(leases)| == |leases|
  {
    var next := RecoveredLeases(leases);
    assert next.Keys == leases.Keys;
    assert forall k :: k in leases ==> next[k] == RecoveredLease(leases[k]);
    hide RecoveredLeases;
    hide ShortText, ShortProv;
  }

  /** From the first reload on, saving gives the same bytes and loading the same state. */
  lemma ReloadIsStable(st: State, sha: Bytes -> Digest)
    requires KeysMatch(st) && WithinLimits(st)
    ensures
      var again := Load(Recovered(st), Saved(Recovered(st), sha), sha).0;
      again == Recovered(st) && Saved(again, sha) == Saved(Recovered(st), sha)
  {
    RecoveredFits(st);
    RecoveredTwice(st);
    hide Recovered, Load, Saved, KeysMatch, WithinLimits;
    LoadOfSaved(Recovered(st), Recovered(st), sha);
  }

  /** Equal bytes mean equal registries, up to recovery. */
  lemma SavedDetermines(a: State, b: State, sha: Bytes -> Digest)
    requires KeysMatch(a) && WithinLimits(a) && KeysMatch(b) && WithinLimits(b)
    requires Saved(a, sha) == Saved(b, sha)
    ensures Recovered(a) == Recovered(b)
  {
    hide Recovered, Load, Saved, KeysMatch, WithinLimits;
    LoadOfSaved(a, a, sha);
    LoadOfSaved(b, a, sha);
  }

  // ---- prefixes ----

  lemma RecordsAreLocal(st: State, s: In, c: Counts, t: Bytes)
    requires !LoadRecords(st, s, c).failed
    ensures LoadRecords(st, More(s, t), c) == LoadRecords(st, s, c).(s := More(LoadRecords(st, s, c).s, t))
  {
    hide LoadCatalog, LoadInventory, LoadHistories, More, Cleared;
    var l0 := Loading(Cleared(st), s, false);
    var l1 := LoadCatalog(l0, c);
    var l2 := LoadInventory(l1, c);
    FailureSticks(l0, l1, l2, c);
    CatalogIsLocal(l0, c, t);
    InventoryIsLocal(l1, c, t);
    HistoriesAreLocal(l2, c, t);
  }

  /** A refused section refuses the rest. */
  lemma FailureSticks(l0: Loading, l1: Loading, l2: Loading, c: Counts)
    ensures LoadCatalog(l0, c).failed || !l0.failed
    ensures l1.failed ==> LoadInventory(l1, c).failed
    ensures l2.failed ==> LoadHistories(l2, c).failed
  {
    hide Fill, Append;
  }

  /** Two loads are at the same point of the same input. */
  predicate InStep(l: Loading, m: Loading) {
    l.s == m.s && l.failed == m.failed
  }

  lemma SectionsInStep(l: Loading, m: Loading, c: Counts)
    requires InStep(l, m)
    ensures InStep(LoadCatalog(l, c), LoadCatalog(m, c))
    ensures InStep(LoadInventory(l, c), LoadInventory(m, c))
    ensures InStep(LoadHistories(l, c), LoadHistories(m, c))
  {
    hide Fill, Append, WithServices, WithInstances, WithRuntimes, WithRuntimeInstances, WithEndpoints, WithProtocols,
         WithBackends, WithDevices, WithCapabilities, WithNodes, WithLeases, WithTombstones, WithCompatRecords,
         WithInvalidations, WithInstanceHistory, WithRuntimeHistory, WithEndpointHistory, WithCapabilityHistory;
  }

  /** What is read does not depend on what the registry held. */
  lemma RecordsInStep(a: State, b: State, s: In, c: Counts)
    ensures InStep(LoadRecords(a, s, c), LoadRecords(b, s, c))
  {
    var l0 := Loading(Cleared(a), s, false);
    var m0 := Loading(Cleared(b), s, false);
    hide LoadCatalog, LoadInventory, LoadHistories, Cleared;
    SectionsInStep(l0, m0, c);
    var l1, m1 := LoadCatalog(l0, c), LoadCatalog(m0, c);
    SectionsInStep(l1, m1, c);
    SectionsInStep(LoadInventory(l1, c), LoadInventory(m1, c), c);
  }

  /** Where one content is accepted, no strict prefix of it is: reading would have taken the same
      steps and left the difference over. */
  lemma PrefixIsRefused(content: Bytes, t: Bytes, a: State, b: State)
    requires t != [] && LoadContent(a, content + t).1.Done?
    ensures LoadContent(b, content).1 == Refused(MALFORMED)
  {
    hide GetHeader, LoadRecords, Recovered, Renumbered;
    var s := In(content, true);
    assert content + t != [];
    assert More(s, t) == In(content + t, true);
    var h := GetHeader(s);
    if h.s.ok {
      HeaderIsLocal(s, t);
      var l := LoadRecords(b, h.s, h.v.counts);
      if !l.failed && l.s.ok && l.s.rest == [] {
        RecordsAreLocal(b, h.s, h.v.counts, t);
        RecordsInStep(a, b, More(h.s, t), h.v.counts);
      }
    }
  }

  // ---- corruption ----

  lemma IntactResidue(data: Bytes, sha: Bytes -> Digest)
    requires Intact(data, sha)
    ensures Crc32.Feed(Crc32.ONES, Crc32.Stream(data[..|data| - 32])) == Crc32.RESIDUE
  {
    hide Crc32.Crc, LittleEndian.Bytes32, LittleEndian.Read32, Crc32.Feed, Crc32.Stream, Crc32.RESIDUE, Crc32.ONES;
    var n := |data| - 36;
    var c := data[..n];
    var crc := Crc32.Crc(c, 0);
    ReadFront(data[n..]);
    assert data[n..][..4] == data[n..n + 4];
    LittleEndian.BytesOfRead(data[n..n + 4]);
    assert data[..n + 4] == c + LittleEndian.Bytes32(crc);
    Crc32.StreamConcat(c, LittleEndian.Bytes32(crc));
    LittleEndian.StreamOfWord(crc);
    Crc32.FeedConcat(Crc32.ONES, Crc32.Stream(c), Crc32.Bits(crc, 32));
    Crc32.Residue(c);
  }

  /** Two intact files that agree on everything the checksum covers, and on it, are equal. */
  lemma FrontDecides(a: Bytes, b: Bytes, sha: Bytes -> Digest)
    requires Intact(a, sha) && Intact(b, sha) && |a| == |b| && a[..|a| - 32] == b[..|b| - 32]
    ensures a == b
  {
    hide Crc32.Crc, LittleEndian.Read32;
    var m := |a| - 32;
    assert a[..m - 4] == a[..m][..m - 4] && b[..m - 4] == b[..m][..m - 4];
    assert a == a[..m] + a[m..] && b == b[..m] + b[m..];
  }

  /** A difference within the first `m` bytes and within the window. */
  lemma FrontBurst(a: Bytes, b: Bytes, i: nat, m: nat)
    requires |a| == |b| && m <= |a| && i < m
    requires i + 4 <= |a| && a[..i] == b[..i] && a[i + 4..] == b[i + 4..]
    ensures
      var e := if i + 4 <= m then i + 4 else m;
      a[..m] == a[..i] + a[i..e] + a[e..m] && b[..m] == a[..i] + b[i..e] + a[e..m]
  {
    var e := if i + 4 <= m then i + 4 else m;
    assert a[e..m] == b[e..m] by {
      if e < m {
        assert a[e..m] == a[i + 4..][..m - e] && b[e..m] == b[i + 4..][..m - e];
      }
    }
    assert a[..m] == a[..i] + a[i..e] + a[e..m] && b[..m] == b[..i] + b[i..e] + b[e..m];
  }

  lemma IntactIsLong(data: Bytes, sha: Bytes -> Digest)
    requires Intact(data, sha)
    ensures |data| >= 46
  {
  }

  lemma SameFront(a: Bytes, b: Bytes, i: nat, m: nat)
    requires m <= i <= |a| == |b| && a[..i] == b[..i]
    ensures a[..m] == b[..m]
  {
    assert a[..m] == a[..i][..m] && b[..m] == b[..i][..m];
  }

  /** Corruption confined to four consecutive bytes breaks a file: header, records, checksum and
      digest alike. */
  lemma BurstBreaks(a: Bytes, b: Bytes, i: nat, sha: Bytes -> Digest)
    requires Intact(a, sha)
    requires |a| == |b| && a != b
    requires i + 4 <= |a| && a[..i] == b[..i] && a[i + 4..] == b[i + 4..]
    ensures !Intact(b, sha)
  {
    hide Intact, Crc32.Feed, Crc32.Stream, Crc32.RESIDUE, Crc32.ONES;
    IntactIsLong(a, sha);
    var m := |a| - 32;
    if Intact(b, sha) {
      if i >= m {
        SameFront(a, b, i, m);
      }
      if a[..m] == b[..m] {
        FrontDecides(a, b, sha);
      } else {
        IntactResidue(a, sha);
        IntactResidue(b, sha);
        FrontChanges(a, b, i, m);
      }
    }
  }

  lemma FrontChanges(a: Bytes, b: Bytes, i: nat, m: nat)
    requires |a| == |b| && i < m <= |a| && a[..m] != b[..m]
    requires i + 4 <= |a| && a[..i] == b[..i] && a[i + 4..] == b[i + 4..]
    ensures Crc32.Feed(Crc32.ONES, Crc32.Stream(a[..m])) != Crc32.Feed(Crc32.ONES, Crc32.Stream(b[..m]))
  {
    hide Crc32.Feed, Crc32.Stream, Crc32.ONES;
    FrontBurst(a, b, i, m);
    var e := if i + 4 <= m then i + 4 else m;
    Crc32.BurstChangesRegister(Crc32.ONES, a[..i], a[i..e], b[i..e], a[e..m]);
  }

  /** So such a file is refused, and the registry is not touched. */
  lemma BurstIsRefused(a: Bytes, b: Bytes, i: nat, st: State, sha: Bytes -> Digest)
    requires Intact(a, sha)
    requires |a| == |b| && a != b
    requires i + 4 <= |a| && a[..i] == b[..i] && a[i + 4..] == b[i + 4..]
    ensures Load(st, b, sha) == (st, Refused(MALFORMED))
  {
    hide Intact, LoadContent;
    BurstBreaks(a, b, i, sha);
  }

  // ---- what a refused load leaves behind ----

  /** A refused load keeps authority, counters and indexes; and when already the envelope or the
      header is bad it keeps the records too. */
  lemma RefusedLoadKeeps(st: State, data: Bytes, sha: Bytes -> Digest)
    requires Load(st, data, sha).1.Refused?
    ensures
      var next := Load(st, data, sha).0;
      && next.authority == st.authority && next.indexes == st.indexes && next.nextBoot == st.nextBoot
      && next.nextId == st.nextId
      && (!Intact(data, sha) || !GetHeader(In(data[..|data| - 36], true)).s.ok ==> next == st)
  {
    hide GetHeader, Recovered, LoadRecords, Crc32.Crc, LittleEndian.Read32;
    if Intact(data, sha) {
      var h := GetHeader(In(data[..|data| - 36], true));
      RecordsKeepRest(st, h.s, h.v.counts);
    }
  }

  datatype Rest = Rest(authority: Authority, indexes: Indexes, nextBoot: u64, nextId: u64)

  function RestOf(st: State): Rest {
    Rest(st.authority, st.indexes, st.nextBoot, st.nextId)
  }

  lemma RecordsKeepRest(st: State, s: In, c: Counts)
    ensures RestOf(LoadRecords(st, s, c).st) == RestOf(st)
  {
    hide LoadCatalog, LoadInventory, LoadHistories;
    assert RestOf(Cleared(st)) == RestOf(st);
    var l0 := Loading(Cleared(st), s, false);
    CatalogKeepsRest(l0, c);
    InventoryKeepsRest(LoadCatalog(l0, c), c);
    HistoriesKeepRest(LoadInventory(LoadCatalog(l0, c), c), c);
  }

  lemma CatalogKeepsRest(l: Loading, c: Counts)
    ensures RestOf(LoadCatalog(l, c).st) == RestOf(l.st)
  {
    hide Fill;
  }

  /** What only the first group of sections changes, beside what none does. */
  datatype Front = Front(rest: Rest, services: map<Id, Service>)

  function FrontOf(st: State): Front {
    Front(RestOf(st), st.services)
  }

  lemma InventoryKeepsRest(l: Loading, c: Counts)
    ensures FrontOf(LoadInventory(l, c).st) == FrontOf(l.st)
  {
    hide Fill;
  }

  lemma HistoriesKeepRest(l: Loading, c: Counts)
    ensures FrontOf(LoadHistories(l, c).st) == FrontOf(l.st)
  {
    hide Append;
  }

  const NO_RECORDS := Counts(0, 0, 0, 0, 0, 0, 0, 0, 0, 0, 0, 0, 0, 0, 0, 0, 0, 0)

  /** Records are dropped before they are read.  So an intact file with a good header can be refused
      and still empty the registry: this one announces no records and has one byte too many. */
  lemma RefusedLoadCanErase(st: State, sha: Bytes -> Digest)
    ensures
      var data := Sealed(PutHeader(Header(NumbersOf(st), NO_RECORDS), [0]), sha);
      Load(st, data, sha) == (Cleared(st), Refused(MALFORMED))
  {
    hide Intact, Sealed, PutHeader, LoadContent, Cleared;
    var h := Header(NumbersOf(st), NO_RECORDS);
    HeaderIsLong(h, [0]);
    SealedIsIntact(PutHeader(h, [0]), sha);
    GarbageErases(st, h);
  }

  lemma GarbageErases(st: State, h: Header)
    requires h.counts == NO_RECORDS
    ensures LoadContent(st, PutHeader(h, [0])) == (Cleared(st), Refused(MALFORMED))
  {
    hide PutHeader, GetHeader, LoadRecords, Recovered, Cleared;
    HeaderUndoes(h, [0]);
    NothingToRead(st, In([0], true));
  }

  lemma HeaderIsLong(h: Header, t: Bytes)
    requires |t| > 0
    ensures |PutHeader(h, t)| >= 10
  {
    hide PutCounts, LittleEndian.Bytes32;
  }

  lemma NothingToRead(st: State, s: In)
    ensures LoadRecords(st, s, NO_RECORDS) == Loading(Cleared(st), s, false)
  {
  }

  // ---- exactly when a refused load changes nothing ----

  lemma ServicesFromInput(a: State, b: State, s: In, c: Counts)
    ensures LoadRecords(a, s, c).st.services == LoadRecords(b, s, c).st.services
  {
    hide LoadCatalog, LoadInventory, LoadHistories, Cleared;
    var l, m := LoadCatalog(Loading(Cleared(a), s, false), c), LoadCatalog(Loading(Cleared(b), s, false), c);
    CatalogServices(Loading(Cleared(a), s, false), Loading(Cleared(b), s, false), c);
    InventoryKeepsRest(l, c);
    InventoryKeepsRest(m, c);
    HistoriesKeepRest(LoadInventory(l, c), c);
    HistoriesKeepRest(LoadInventory(m, c), c);
  }

  /** The first section replaces the services whatever they were. */
  lemma CatalogServices(l: Loading, m: Loading, c: Counts)
    requires !l.failed && !m.failed && l.s == m.s
    ensures LoadCatalog(l, c).st.services == LoadCatalog(m, c).st.services
  {
    hide LoadCatalog;
    CatalogServicesAre(l, c);
    CatalogServicesAre(m, c);
  }

  lemma CatalogServicesAre(l: Loading, c: Counts)
    requires !l.failed
    ensures LoadCatalog(l, c).st.services ==
      Fill(c.services, RecordCodec.GetService, ServiceKey, KnownKind, map[], l.s).m
  {
    hide Fill;
  }

  const SOME_SERVICE := Service(
    0, ServiceKind.UNKNOWN, [], 0, 0, Lifecycle.REGISTERING, NO_VERSION, NO_STRUCTURED, NO_STRUCTURED,
    [], [], [], 0, 0, Provenance(EvidenceKind.DERIVED, [], 0, []), [])

  const NO_VERSION := SemVer.SemanticVersion(0, 0, 0, [], [])
  const NO_STRUCTURED := SemVer.StructuredVersion(0, 0, 0)

  /** A file is refused by every registry without effect exactly when its envelope or its header is
      bad.  With both in order the records are replaced, whether or not the load then succeeds. */
  lemma RefusedWithoutEffectExactly(data: Bytes, sha: Bytes -> Digest)
    ensures (forall st :: Load(st, data, sha) == (st, Refused(MALFORMED)))
      <==> !Intact(data, sha) || !GetHeader(In(data[..|data| - 36], true)).s.ok
  {
    hide Intact, LoadContent;
    if Intact(data, sha) {
      IntactIsLong(data, sha);
      var content := data[..|data| - 36];
      if GetHeader(In(content, true)).s.ok {
        var st := Touched(content);
        assert Load(st, data, sha) == LoadContent(st, content);
      } else {
        forall st ensures Load(st, data, sha) == (st, Refused(MALFORMED)) {
          BadHeader(st, content);
        }
      }
    }
  }

  lemma BadHeader(st: State, content: Bytes)
    requires !GetHeader(In(content, true)).s.ok
    ensures LoadContent(st, content) == (st, Refused(MALFORMED))
  {
    hide GetHeader, LoadRecords, Recovered;
  }

  /** A registry that the content would change: its services are not the ones read. */
  lemma Touched(content: Bytes) returns (st: State)
    requires GetHeader(In(content, true)).s.ok
    ensures LoadContent(st, content) != (st, Refused(MALFORMED))
  {
    hide GetHeader, LoadRecords, Recovered, Renumbered;
    var h := GetHeader(In(content, true));
    var read := LoadRecords(INITIAL, h.s, h.v.counts).st.services;
    st := INITIAL.(services := if read == map[] then map[0 := SOME_SERVICE] else map[]);
    ServicesFromInput(INITIAL, st, h.s, h.v.counts);
    assert 0 in map[0 := SOME_SERVICE];
    assert st.services != read;
  }
}
