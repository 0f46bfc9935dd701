/** Runs from a new registry whose save, loaded, breaks a promise: a boot is issued twice, and a
    tombstone is lost. */
module SaveWitnesses {
  import opened Base
  import opened Enums
  import opened Records
  import opened Codec
  import opened RecordCodec
  import opened Sections
  import opened RegistryModel
  import opened RegistryInvariants
  import opened Persistence
  import Decimal
  import Fencing
  import Recovery
  import RoundTrip
  import opened Witnesses

  // ---- loading an older snapshot ----

  lemma NewRegistryIsLoadable()
    ensures Loadable(INITIAL)
  {
  }

  lemma RecoveryKeepsTheCounter()
    ensures Recovered(INITIAL).nextBoot == INITIAL.nextBoot == 100
  {
    Fencing.RestartAuthority(INITIAL);
    hide Recovered;
  }

  lemma AdoptionIssues(st: State, worker: Id)
    ensures Adopted(st, worker).1 == Done(Inc(st.nextBoot))
  {
    hide Revoked, Granted;
  }

  /** A new registry is saved, worker 7 is given boot 101, the save is loaded, and worker 8 is given
      boot 101 again. */
  lemma BootIsIssuedTwice(sha: Bytes -> Digest)
    ensures Adopted(INITIAL, 7).1 == Done(101)
    ensures
      var (back, outcome) := Load(Adopted(INITIAL, 7).0, Saved(INITIAL, sha), sha);
      outcome == Done(0) && Adopted(back, 8).1 == Done(101)
  {
    NewRegistryIsLoadable();
    RecoveryKeepsTheCounter();
    hide Load, Saved, Adopted, Recovered, KeysMatch, WithinLimits, INITIAL;
    Recovery.LoadOfSaved(INITIAL, Adopted(INITIAL, 7).0, sha);
    AdoptionIssues(INITIAL, 7);
    AdoptionIssues(Recovered(INITIAL), 8);
  }

  // ---- a save that does not load ----

  /** The reason is too long for the reader, and nothing before it is. */
  predicate Lengthy(t: Tombstone) {
    MAX_STRING < |t.reason| < 0x1_0000_0000 && ShortText(t.targetKind) && ShortText(t.targetText)
  }

  lemma LengthyTextFails(v: Bytes, t: Bytes)
    requires MAX_STRING < |v| < 0x1_0000_0000
    ensures !Text(In(PutText(v, t), true)).s.ok
  {
    hide U32, PutU32;
    U32Undoes(|v|, v + t, true);
  }

  lemma LengthyTombstoneFails(x: Tombstone, t: Bytes)
    requires Lengthy(x)
    ensures !GetTombstone(In(PutTombstone(x, t), true)).s.ok
  {
    forall v, u | MAX_STRING < |v| < 0x1_0000_0000 ensures !Text(In(PutText(v, u), true)).s.ok {
      LengthyTextFails(v, u);
    }
    hide U64, I64, Text, Prov, PutU64, PutI64, PutText, PutProv, ShortText;
    ScalarsUndo();
  }

  /** A registry whose only record is the tombstone. */
  predicate HoldsOnly(st: State, t: Tombstone) {
    st == Cleared(st).(tombstones := map[t.tombstoneId := t])
  }

  lemma OneValue(t: Tombstone)
    ensures SortedValues(map[t.tombstoneId := t]) == [t]
  {
    var m := map[t.tombstoneId := t];
    SortedKeysUnique(m.Keys, [t.tombstoneId]);
    hide SortedKeys;
  }

  lemma NoValues<V>()
    ensures SortedValues<V>(map[]) == []
  {
    SortedKeysUnique({}, []);
    hide SortedKeys;
  }

  const ONE_TOMBSTONE := Counts(0, 0, 0, 0, 0, 0, 0, 0, 0, 0, 0, 1, 0, 0, 0, 0, 0, 0)

  lemma SaveOfOne(st: State, t: Tombstone)
    requires HoldsOnly(st, t)
    ensures Contents(st) == PutHeader(Header(NumbersOf(st), ONE_TOMBSTONE), PutTombstone(t, []))
  {
    hide PutHeader, PutTombstone, SortedValues, NumbersOf;
    OneValue(t);
    NoValues<Service>(); NoValues<Instance>(); NoValues<Runtime>(); NoValues<Endpoint>(); NoValues<Protocol>();
    NoValues<Backend>(); NoValues<Device>(); NoValues<Capability>(); NoValues<Node>(); NoValues<Lease>();
    NoValues<Compatibility>();
    assert |st.tombstones| == 1;
    assert CountsOf(st) == ONE_TOMBSTONE;
    assert PutHistories(st, []) == [];
    hide PutHistories, CountsOf;
    assert PutEach([t], PutTombstone, []) == PutTombstone(t, []) by {
      assert [t][1..] == [];
    }
    assert PutInventory(st, []) == PutTombstone(t, []);
    hide PutInventory;
  }

  /** Reading it stops at the tombstone, when all records have been dropped. */
  lemma NothingIsRead(st: State, s: In)
    requires !GetTombstone(s).s.ok
    ensures LoadRecords(st, s, ONE_TOMBSTONE) == Loading(Cleared(st), GetTombstone(s).s, true)
  {
    hide GetTombstone;
  }

  lemma LengthyContentErases(st: State, h: Header, t: Tombstone)
    requires h.counts == ONE_TOMBSTONE && Lengthy(t)
    ensures LoadContent(st, PutHeader(h, PutTombstone(t, []))) == (Cleared(st), Refused(MALFORMED))
  {
    hide Lengthy, PutHeader, GetHeader, PutTombstone, GetTombstone, LoadRecords, Cleared, Recovered;
    HeaderUndoes(h, PutTombstone(t, []));
    LengthyTombstoneFails(t, []);
    NothingIsRead(st, In(PutTombstone(t, []), true));
  }

  /** The save of a registry whose only record is such a tombstone is refused, and loading it leaves
      the registry without it. */
  lemma LengthySaveErases(st: State, t: Tombstone, sha: Bytes -> Digest)
    requires HoldsOnly(st, t) && Lengthy(t)
    ensures Load(st, Saved(st, sha), sha) == (Cleared(st), Refused(MALFORMED))
  {
    hide HoldsOnly, Lengthy, Contents, Intact, PutHeader, PutTombstone, Cleared, NumbersOf, LoadContent, Sealed;
    Recovery.ContentsAreLong(st);
    Recovery.SealedIsIntact(Contents(st), sha);
    SaveOfOne(st, t);
    LengthyContentErases(st, Header(NumbersOf(st), ONE_TOMBSTONE), t);
  }

  /** A tombstone for service 5 with a reason of one byte more than the reader takes. */
  const LONG := TOMB.(tombstoneId := 0, reason := seq(MAX_STRING + 1, _ => 0))
  const LONG_STORED := LONG.(tombstoneId := 1)
  const LONG_RUN := [Adopt(7), Call(ENV, OpTombstone(LONG))]

  lemma LongIsLengthy()
    ensures Lengthy(LONG_STORED) && Covers(LONG_STORED, SERVICE_ID, 5, 1)
  {
    assert |SERVICE_ID| == 9;
    Decimal.DigitsAreCanonical(5);
    assert |Decimal.Digits(5)| == 1;
    hide Decimal.Digits, SERVICE_ID;
  }

  lemma AdoptionHoldsNothing()
    ensures
      var st := Adopted(INITIAL, 7).0;
      st == Cleared(st) && Verdict(st.authority, ENV) == None && st.nextId == 1
  {
  }

  lemma LongIsStored(st: State)
    requires st == Cleared(st) && Verdict(st.authority, ENV) == None && st.nextId == 1
    ensures HoldsOnly(Mutate(st, ENV, OpTombstone(LONG)).0, LONG_STORED)
  {
    assert LONG.tombstoneId == 0 && LONG_STORED == LONG.(tombstoneId := 1);
    hide LONG, LONG_STORED;
  }

  lemma LongRuns()
    ensures Runs(INITIAL, LONG_RUN)
    ensures HoldsOnly(After(INITIAL, LONG_RUN), LONG_STORED)
  {
    AdoptionHoldsNothing();
    hide Runs, After, INITIAL, Adopted, LONG, LONG_STORED, HoldsOnly, Verdict, Cleared, Mutate;
    Fencing.NoMore(INITIAL);
    OneStepOn(INITIAL, [], Adopt(7));
    assert [] + [Adopt(7)] == [Adopt(7)];
    OneStepOn(INITIAL, [Adopt(7)], Call(ENV, OpTombstone(LONG)));
    assert LONG_RUN == [Adopt(7)] + [Call(ENV, OpTombstone(LONG))];
    LongIsStored(After(INITIAL, [Adopt(7)]));
  }

  lemma ServiceUncovered(st: State)
    requires HoldsOnly(st, LONG_STORED)
    ensures RegisterService(st, BURIED).1 == Refused(TOMBSTONE_RESURRECTION)
    ensures RegisterService(Cleared(st), BURIED).1 == Done(0)
    ensures Cleared(st).tombstones == map[] && Cleared(st).authority == st.authority
  {
    LongIsLengthy();
    assert BURIED.serviceId == 5 && BURIED.generation == 1 && LONG_STORED.tombstoneId == 1;
    hide LONG_STORED, BURIED, SERVICE_ID, Rebuilt, SameService, Covers;
    assert st.services == map[] && st.tombstones == map[1 := LONG_STORED];
    assert Covered(st.tombstones, SERVICE_ID, 5, 1) by {
      assert Covers(st.tombstones[1], SERVICE_ID, 5, 1);
    }
    var next := Cleared(st);
    assert next.tombstones == map[] && next.services == map[] && next.authority == st.authority;
    assert !Covered(next.tombstones, SERVICE_ID, 5, 1);
    hide Covered, Cleared, HoldsOnly;
  }

  /** Service 5 is buried and its registration refused.  When the registry is saved and the save
      loaded, the reader refuses; the registry has then lost the tombstone, and accepts the service. */
  ghost predicate SaveUncovers(st: State, sha: Bytes -> Digest) {
    var (next, outcome) := Load(st, Saved(st, sha), sha);
    && outcome == Refused(MALFORMED) && !Loadable(st) && next.authority == st.authority
    && RegisterService(st, BURIED).1 == Refused(TOMBSTONE_RESURRECTION)
    && next.tombstones == map[] && RegisterService(next, BURIED).1 == Done(0)
  }

  lemma LengthySaveUncovers(st: State, sha: Bytes -> Digest)
    requires HoldsOnly(st, LONG_STORED)
    ensures SaveUncovers(st, sha)
  {
    hide LONG_STORED, HoldsOnly, Lengthy, RegisterService, Load, Saved, Cleared, KeysMatch, WithinLimits;
    LongIsLengthy();
    LengthySaveErases(st, LONG_STORED, sha);
    RoundTrip.RoundTripExactly(st, st, sha);
    ServiceUncovered(st);
  }

  /** A worker can bring the registry there: it buries service 5 with a long reason. */
  lemma OversizedSaveUncovers(sha: Bytes -> Digest)
    ensures Runs(INITIAL, LONG_RUN) && SaveUncovers(After(INITIAL, LONG_RUN), sha)
  {
    hide Runs, After, INITIAL, LONG_RUN, LONG_STORED, HoldsOnly, SaveUncovers;
    LongRuns();
    LengthySaveUncovers(After(INITIAL, LONG_RUN), sha);
  }
}
