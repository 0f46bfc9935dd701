# Runtime Registry: a verified model

Runtime Registry keeps maps of services, instances, runtimes, endpoints, capabilities, leases and
tombstones behind one lock, and lets workers change them under an authority made of a coordinator
epoch and a process incarnation (a boot). Around it sit a discovery query, a save format with a
recovery step, a framed wire protocol with CRC-32, and semantic versions. This project models those
parts and proves what they keep over whole runs.

## How the model is laid out

- `Base`, `Enums`, `Records`: machine integers, the scoped enumerations (a value read from a file may
  be unnamed), and the descriptor records.
- `Crc32`, `LittleEndian`, `Framing`: the bit-serial checksum, its table-driven loop, polynomial division,
  and the frame codec.
- `Decimal`, `SemVer`: numerals, and versions with their parser, printer and comparison.
- `Codec`, `RecordCodec`, `Streams`, `Sections`, `Persistence`, `Recovery`, `RoundTrip`, `Layout`: the save
  format from single words up to whole files, loading, when the one undoes the other, and the format as
  tables. `Streams` holds the reader and the printers in their own form, a moving position and a growing
  byte vector.
- `RegistryModel`: the registry as a value and every mutator as a step on it. A thrown error is a
  refused outcome, and the state beside it is what the call left behind.
- `Lifecycles`, `Contents`, `Outages`: what a lifecycle means, what accepted calls store, and what is left
  when processes are gone, in terms of the fields of the records.
- `RegistryInvariants`, `Fencing`, `Registration`, `Tombstones`, `Numbering`, `Lasting`, `SelfCheck`: what
  steps and runs keep.
- `QueryModel`, `QueryTheorems`, `Outcomes`, `Query`: what an answer to a query is, what follows from it,
  what each outcome means, and the walk that computes one in any order of the hash map.
- `Loops`, `RegistryObject`: the loops, and the registry as an object whose methods update its maps in
  place, each proved to take the step of the model.
- `Coordinator`: any number of connections sharing one registry, interleaved call by call.
- `Witnesses`, `SaveWitnesses`: runs from a new registry that end in one of the differences below.

Runs are sequences of steps of any length: adoption, death of a boot, new epoch, mutator calls,
accepted or refused, and reloads. A reload saves the registry and loads the same bytes. A run goes
through it only where that load succeeds; `RoundTrip.ReloadableExactly` says where. A refused load is
no step of a run: `SaveWitnesses.OversizedSaveUncovers` shows what it may leave behind. Nor is the load
of another file: `RoundTrip.AcceptedFileKeepsInvExactly` and `RoundTrip.AcceptedFileReissuesExactly`
say what it may bring in. Counters are 64-bit and wrap; a claim that needs a counter not to wrap bounds
the length of the run by the room the counter has left.

## Where the code and its documentation differ

The model follows the code. Each difference is a theorem that says exactly when the promise holds, most
with a run from a new registry that breaks it.

- `include/runtimeregistry/registry.hpp:61-62` promises that a rejection changes nothing. Instance
  registration and supersession break it: `Registration.RejectedRegistrationIsIdleExactly`,
  `Registration.RejectedSupersessionIsIdleExactly`, `Witnesses.RefusedRegistrationSupersedes`,
  `Witnesses.RefusedSupersessionSupersedes`. For all other mutators it holds:
  `Registration.RejectionChangesNothing`.
- `README.md:65` says that a larger generation of an old boot never fences a fresh incarnation. It does:
  `Registration.DeadGenerationsBlock`, `Witnesses.DeadBootBlocks`.
- Superseded and retired instances are not final. A later update, or the death of their boot, makes them
  stand again: `Registration.StepKeepsOneExactly`, `Registration.RunKeepsOneExactly`, `Witnesses.TwoStand`.
- Boots are unique until an older snapshot is loaded: `Fencing.ReissuedExactly`,
  `SaveWitnesses.BootIsIssuedTwice`.
- Identities handed out may be taken already: `Registration.OthersUndisturbedExactly`,
  `Witnesses.IdentityIsHandedOutAgain`.
- A refused load may leave the registry empty: `Recovery.RefusedWithoutEffectExactly`,
  `Recovery.RefusedLoadCanErase`.
- A save does not always load: `RoundTrip.RoundTripExactly`, `SaveWitnesses.OversizedSaveUncovers`.
- The reader does not check references between records: `RoundTrip.AcceptedFileKeepsInvExactly`.
- A tombstone under an identity in use can uncover what was buried: `Tombstones.StepLosesExactly`,
  `Witnesses.CoverageIsLost`.
- A live boot may be without a connection: `Coordinator.HeldThroughoutExactly`,
  `Coordinator.BootIsOrphaned`.
- A required protocol version does not exclude instances that speak an incompatible one:
  `QueryTheorems.RejectedAndRankedExactly`, `Witnesses.RejectedAndRanked`.
- The recency factor follows version order only for small minor and patch numbers:
  `QueryTheorems.RecencyFollowsOrderExactly`.
- The reachability of an instance depends on the order of its endpoints:
  `RegistryInvariants.ScanIgnoresOrderExactly`, `Witnesses.OrderDecides`.
- The overflow guard of the numeral parser misses long numerals: `Decimal.ParsedExactly`.
- Comparison agrees with section 11 of Semantic Versioning 2.0.0 exactly for identifiers below 2^63:
  `SemVer.ComparesByPrecedenceExactly`.

## Model

| member | source | states |
|---|---|---|
| Crc32.FeedIsDivide | include/runtimeregistry/crc32.hpp:10-29 | the reflected bit-serial checksum is polynomial division by 0x04C11DB7 with bits in transmission order, as clause 3.2.9 of IEEE 802.3 defines it |
| Crc32.Calculator.Entry | include/runtimeregistry/crc32.hpp:15-20 | the inner loop computes the table entry of a byte: eight division steps |
| Crc32.Calculator.Build | include/runtimeregistry/crc32.hpp:12-23 | the table loop fills all 256 entries and only then marks the table built |
| Crc32.TableStep | include/runtimeregistry/crc32.hpp:25-27 | one table look-up and shift equals feeding the eight bits of the byte one by one |
| Crc32.Calculator.Crc32 | include/runtimeregistry/crc32.hpp:10-29 | on every input and seed the table-driven loop gives the bit-serial checksum |
| Crc32.CrcConcat | include/runtimeregistry/crc32.hpp:31-36 | a checksum can be continued: the checksum of a prefix is the seed for the rest |
| Crc32.Calculator.Combine | include/runtimeregistry/crc32.hpp:31-36 | combining parts gives the checksum of their concatenation |
| Crc32.FeedInjectiveInRegister | include/runtimeregistry/crc32.hpp:24-28 | for a fixed message, different registers stay different |
| Crc32.FeedInjectiveInMessage | include/runtimeregistry/crc32.hpp:24-28 | from a fixed register, different messages of equal length up to 32 bits give different registers |
| Crc32.BurstChangesRegister | include/runtimeregistry/crc32.hpp:24-28 | messages that differ only inside a window of at most four bytes leave different registers |
| Crc32.Residue | include/runtimeregistry/crc32.hpp:24-28 | a message followed by its own checksum leaves one fixed register, whatever the message |
| LittleEndian.ReadOfBytes | src/protocol.cpp:54-66 | reading a printed 32-bit word gives it back |
| LittleEndian.BytesOfRead | src/protocol.cpp:54-66 | printing a word that was read gives its bytes back |
| Framing.EncodeFrame | src/protocol.cpp:70-84 | the appending code yields magic, version, kind, length, payload and checksum, or nothing when the cut length exceeds 64 KiB |
| Framing.DecodeOfEncoded | src/protocol.cpp:70-104 | decoding an encoded frame gives it back exactly when its kind is named and its payload is at most 64 KiB; every other frame is refused, also one whose length was cut to 32 bits |
| Framing.EncodedOfDecode | src/protocol.cpp:86-104 | whatever is accepted is the encoding of what it decodes to |
| Framing.BurstIsRejected | src/protocol.cpp:86-104 | any corruption inside four consecutive bytes of an accepted frame is rejected |
| Framing.ByteChangeIsRejected | src/protocol.cpp:86-104 | any change of one byte of an accepted frame is rejected |
| Decimal.DigitsAreCanonical | src/registry.cpp:14-16 | rendering a number gives a numeral without leading zero whose value is the number |
| Decimal.DigitsInjective | src/registry.cpp:16-16 | different identities render differently |
| Decimal.ParseU64 | src/version.cpp:16-27 | the digit loop with its overflow guard computes the modelled 64-bit result |
| Decimal.ParsedExactly | src/version.cpp:14-27 | accepted text is a canonical numeral, and its value is right exactly when it is below 2^63 |
| Decimal.OverflowPassesTheGuard | src/version.cpp:20-24 | the guard misses some overflows: 2^64+1 is read as 1 |
| SemVer.ValidDotIdentifiers | src/version.cpp:33-51 | the position loop accepts exactly the dot-separated identifiers of the recursive definition, which allows nothing after a last dot |
| SemVer.CheckIdentifier | src/version.cpp:39-46 | the checks on one identifier: not empty, allowed characters, no leading zero on a number |
| SemVer.ParseOfStr | src/version.cpp:81-114 | printing a well-formed version with components below 2^63 and parsing it gives the version |
| SemVer.ParseIsWellFormed | src/version.cpp:81-114 | every accepted text parses to a well-formed version |
| SemVer.ParseStrParse | src/version.cpp:81-114 | parsing, printing and parsing again changes nothing, for every accepted text, also with an empty patch or a trailing dot |
| SemVer.ParsesInOrder | src/version.cpp:81-114 | the numerals of a version text are major, minor and patch in this order, the prerelease follows a dash and the build metadata a plus |
| SemVer.Compare | src/version.cpp:116-162 | the index loop over both prerelease texts computes the list comparison |
| SemVer.ComparePrereleases | src/version.cpp:127-161 | the loop from two positions on compares the identifier lists that start there |
| SemVer.CompareIdentifiers | src/version.cpp:137-152 | one pair of identifiers is compared as numbers, as number against text, or byte by byte |
| SemVer.CompareIsPrecedence | src/version.cpp:116-162 | on well-formed versions whose numeric identifiers are below 2^63, compare is the precedence of section 11 of Semantic Versioning 2.0.0 |
| SemVer.ComparesByPrecedenceExactly | src/version.cpp:116-162 | a well-formed version compares by that precedence with every version of identifiers below 2^63 exactly when its own numeric identifiers are below 2^63 |
| SemVer.PrecedenceReversal | src/version.cpp:116-162 | precedence is antisymmetric and total |
| SemVer.PrecedenceTransitivity | src/version.cpp:116-162 | precedence is transitive |
| SemVer.PrecedenceEquality | src/version.cpp:116-166 | two well-formed versions have equal precedence exactly when all but their build metadata coincide |
| SemVer.OversizedIdentifiersCollide | src/version.cpp:143-147 | beyond 2^63 the claim fails: prerelease 2^64 compares equal to prerelease 0 |
| SemVer.SplitLoop | src/version.cpp:60-70 | the splitting loop yields the pieces between dots |
| SemVer.StructuredRoundTrip | include/runtimeregistry/version.hpp:120-135 | printing and parsing a structured version gives it back, a missing patch being zero |
| SemVer.StructuredInOrder | src/version.cpp:56-79 | the one to three numerals of a structured version text are major, minor and patch in this order |
| Streams.Reader.U8 | src/persistence.cpp:30-30 | the reader takes one byte or fails for good, never moving past the end |
| Streams.Reader.U32 | src/persistence.cpp:31-31 | the reader takes four bytes, low byte first, or fails without moving |
| Streams.Reader.U64 | src/persistence.cpp:32-32 | two words, low word first |
| Streams.Reader.Text | src/persistence.cpp:34-34 | a length, refused beyond the input or 2^24, then so many bytes |
| Streams.Reader.Value | src/persistence.cpp:51-56 | the recursive reader of capability values stays in bounds and ends on every input, because the bytes left fall with each nested value |
| Streams.Writer.PutU64 | src/persistence.cpp:22-22 | appends the word as two little-endian halves |
| Streams.Writer.PutText | src/persistence.cpp:24-24 | appends the length cut to 32 bits and the bytes |
| Streams.Writer.PutValue | src/persistence.cpp:46-50 | appends a capability value of any nesting depth |
| Codec.U64Undoes | src/persistence.cpp:22-32 | reading a printed 64-bit word gives it back and leaves what follows |
| Codec.TextUndoes | src/persistence.cpp:24-34 | the same for texts within the reader's limit |
| Codec.ValueUndoes | src/persistence.cpp:46-56 | reading undoes printing on capability values of any nesting depth within the limits |
| Codec.ValueIsLocal | src/persistence.cpp:51-56 | a successful read of a capability value does not depend on what follows it |
| Codec.ListedUndoes | src/persistence.cpp:80-82 | reading undoes printing on counted lists within their limit |
| RecordCodec.ServiceUndoes | src/persistence.cpp:69-86 | reading a printed service record gives it back, every field in its place |
| RecordCodec.InstanceUndoes | src/persistence.cpp:87-112 | reading a printed instance record gives it back, every field in its place |
| RecordCodec.RuntimeUndoes | src/persistence.cpp:113-132 | reading a printed runtime record gives it back, every field in its place |
| RecordCodec.EndpointUndoes | src/persistence.cpp:133-146 | reading a printed endpoint record gives it back, every field in its place |
| RecordCodec.ProtocolUndoes | src/persistence.cpp:147-158 | reading a printed protocol record gives it back, every field in its place |
| RecordCodec.BackendUndoes | src/persistence.cpp:159-170 | reading a printed backend record gives it back, every field in its place |
| RecordCodec.DeviceUndoes | src/persistence.cpp:171-180 | reading a printed device record gives it back, every field in its place |
| RecordCodec.CapabilityUndoes | src/persistence.cpp:181-194 | reading a printed capability record gives it back, every field in its place |
| RecordCodec.NodeUndoes | src/persistence.cpp:195-212 | reading a printed node record gives it back, every field in its place |
| RecordCodec.LeaseUndoes | src/persistence.cpp:213-224 | reading a printed lease record gives it back, every field in its place |
| RecordCodec.TombstoneUndoes | src/persistence.cpp:225-234 | reading a printed tombstone record gives it back, every field in its place |
| RecordCodec.InvalidationUndoes | src/persistence.cpp:235-242 | reading a printed invalidation record gives it back, every field in its place |
| RecordCodec.CompatibilityUndoes | src/persistence.cpp:243-249 | reading a printed compatibility record gives it back, every field in its place |
| Sections.GatherKeys | src/persistence.cpp:255-257 | the keys of a map, gathered in any order and sorted, are the one ascending list of them |
| Sections.SortedKeysUnique | src/persistence.cpp:257-257 | there is only one ascending list of a set of keys, so output does not depend on the order of the hash map |
| Sections.SerializeSorted | src/persistence.cpp:253-259 | prints the records of a map in key order |
| Sections.LoadMap | src/persistence.cpp:352-364 | reads so many records, stopping at a failed read, an identity already present or an invalid record |
| Sections.LoadList | src/persistence.cpp:365-369 | reads so many records of a list, stopping at a failed read |
| Sections.MapUndoes | src/persistence.cpp:253-364 | reading the section of a map whose keys are its record identities gives the map back |
| Persistence.HeaderUndoes | src/persistence.cpp:266-346 | reading a printed header gives back all generations, counters and counts within the limit |
| Persistence.CatalogUndoes | src/persistence.cpp:287-357 | reading the first six sections restores those six maps and nothing else |
| Persistence.InventoryUndoes | src/persistence.cpp:293-364 | the same for the other seven maps |
| Persistence.HistoriesUndo | src/persistence.cpp:300-369 | the same for invalidations and the four histories |
| Layout.LongIsPrinted | src/persistence.cpp:19-23 | a 64-bit word is written as its eight base 256 digits, lowest first |
| Layout.ValueIsPrinted | src/persistence.cpp:46-50 | a capability value of any depth is written shape by shape, then its fields, keys before values |
| Layout.HeaderIsPrinted | src/persistence.cpp:263-282 | magic, version, generations, counters and counts stand in the order of the table, in 1, 4 or 8 bytes each |
| Layout.CatalogIsPrinted | src/persistence.cpp:284-289 | services, instances, runtimes, runtime instances, endpoints and protocols follow, each map in key order and each record field by field as its table says |
| Layout.InventoryIsPrinted | src/persistence.cpp:290-296 | then backends, devices, capabilities, nodes, leases, tombstones and compatibility records |
| Layout.HistoriesArePrinted | src/persistence.cpp:297-303 | then invalidations and the four histories, each in its own order |
| Layout.FileIsPrinted | src/persistence.cpp:261-309 | a file is the header, these sections, the checksum lowest byte first, and the digest |
| Recovery.LoadOfSaved | src/persistence.cpp:263-410 | loading a save into any registry succeeds and gives the saved registry after recovery: records, histories, generations and counters |
| RoundTrip.RoundTripExactly | src/persistence.cpp:263-410 | a save loads back as the recovered original exactly when every record is filed under its own identity and within the limits of the reader, whatever the sizes |
| RoundTrip.ReachableRoundTrip | src/persistence.cpp:263-410 | in a state a run can reach, exactly when it is within the limits; the recovered state keeps the invariant |
| RoundTrip.AcceptedFileSavesBack | src/persistence.cpp:316-410 | whatever file a load accepts, the registry it leaves is within the limits, and saving it and loading that gives exactly it back |
| RoundTrip.ReloadableExactly | src/persistence.cpp:263-410 | a run may reload exactly where loading its own save gives the recovered original back |
| RoundTrip.ReloadIsLoad | src/persistence.cpp:263-410 | the reload step is the load of the registry's own save, outcome and state |
| RoundTrip.AcceptedFileKeepsInvExactly | src/persistence.cpp:316-410 | whatever file a load accepts, the registry it leaves satisfies the invariant exactly when its instances name services and endpoints of the file and have named statuses |
| RoundTrip.AcceptedFileIsCleanExactly | src/registry.cpp:534-551 | check_invariants is silent after such a load exactly when those references hold |
| RoundTrip.AcceptedFileReissuesExactly | src/persistence.cpp:371-404 | after any accepted load, a boot can become live exactly when it is above the counter in the file |
| RoundTrip.ValueFits | src/persistence.cpp:51-56 | a nested value that was read with success is within the limits at every depth |
| Recovery.RecoveredTwice | src/persistence.cpp:380-404 | recovery is idempotent |
| Recovery.ReloadIsStable | src/persistence.cpp:263-410 | from the first reload on, the bytes and the state are the same |
| Recovery.NewEpochIsRecovery | src/authority.cpp:8-50 | a new epoch does exactly what recovery does, except that the epoch moves on |
| Recovery.SavedDetermines | src/persistence.cpp:263-309 | equal bytes mean equal registries up to recovery |
| Recovery.PrefixIsRefused | src/persistence.cpp:328-371 | no strict prefix of accepted content is accepted |
| Recovery.BurstIsRefused | src/persistence.cpp:316-326 | corruption of an intact file inside four consecutive bytes is refused and leaves the registry untouched |
| Recovery.RefusedLoadKeeps | src/persistence.cpp:316-378 | a refused load keeps authority, counters and indexes, and keeps the records too when the envelope or the header is bad |
| Recovery.RefusedLoadCanErase | src/persistence.cpp:348-371 | records are dropped before they are read: an intact file with a good header can be refused and leave the registry empty |
| Recovery.RefusedWithoutEffectExactly | src/persistence.cpp:316-350 | a file is refused without effect by every registry exactly when its envelope or its header is bad |
| RegistryInvariants.RunsKeep | src/registry.cpp:65-551 | every run from a state within the invariant stays within it, thrown errors, new epochs and reloads that load included: keys are identities, instances name registered services and endpoints, live boots have owners, AVAILABLE is justified, indexes equal a rebuild |
| RegistryInvariants.NextKeeps | src/registry.cpp:65-525 | each single step keeps that invariant, also when it throws |
| RegistryInvariants.InitialInv | src/registry.cpp:48-57 | a new registry satisfies it |
| RegistryInvariants.ReclassifiedIsSound | src/registry.cpp:372-402 | classification yields AVAILABLE only with a live boot, current freshness, REACHABLE, READY and health HEALTHY or UNKNOWN |
| RegistryInvariants.AvailableExactly | src/registry.cpp:18-42 | an instance is classified AVAILABLE exactly when authority, freshness, lease, required capabilities, readiness, health and every endpoint allow it |
| Lifecycles.ClassifiedExactly | src/registry.cpp:372-402 | the exact condition of each of the six lifecycles on boot, freshness, lease, endpoints, capabilities, readiness and health; no other lifecycle is given |
| Lifecycles.StatusExactly | src/registry.cpp:18-42 | beside the lifecycle only health and reachability are computed: by the worst endpoint, and by the first that is not open |
| RegistryInvariants.ScanIgnoresOrder | src/registry.cpp:30-42 | with obstacles of one sort the aggregated reachability does not depend on the order of endpoints |
| RegistryInvariants.ScanIgnoresOrderExactly | src/registry.cpp:30-42 | every permutation of the endpoints aggregates alike exactly when all obstacles among them are of one sort |
| RegistryInvariants.RegisterInstanceKeeps | src/registry.cpp:255-313 | instance registration keeps the invariant on every path, also when the endpoint loop throws after the old instance gave way |
| RegistryInvariants.RevokedKeeps | src/authority.cpp:71-106 | revocation keeps it |
| RegistryInvariants.RebuildIsIdle | src/registry.cpp:515-525 | in every such state a rebuild of the indexes changes nothing |
| Fencing.MutationsKeepFence | src/registry.cpp:65-505 | no mutation changes process authority, and only create_tombstone changes tombstones |
| Fencing.StepFence | src/authority.cpp:8-106 | process authority evolves on its own, as a function of authority and the boot counter |
| Fencing.AdoptionIsExclusive | src/authority.cpp:52-64 | adoption leaves the worker exactly one live boot, the new one, and disturbs no other worker |
| Fencing.RunsKeepAssigned | src/authority.cpp:52-106 | over any run the live boots and their owners stay one to one, none newer than the counter |
| Fencing.OneLiveBoot | include/runtimeregistry/authority.hpp:17-52 | each worker has at most one live boot |
| Fencing.IssuedIncreases | src/authority.cpp:52-64 | boots are issued in strictly increasing order along any run |
| Fencing.SpentForGood | src/authority.cpp:71-78 | a boot that stopped being live never becomes live again in a run without an older snapshot |
| Fencing.SpentBootIsRefused | src/authority.cpp:108-121 | every later mutation that carries it is refused and changes nothing |
| Fencing.OldEpochIsRefused | src/authority.cpp:108-115 | after a new epoch every envelope of an older one is refused for good |
| Fencing.ReissuedExactly | src/persistence.cpp:373-378 | after loading a snapshot a boot can become live in some run exactly when it is newer than the counter of the snapshot |
| Outages.NoLeaseSurvives | src/authority.cpp:45-49 | no lease is active after recovery or in a new epoch |
| Outages.RestartSuspends | src/authority.cpp:12-49 | after recovery or in a new epoch, under whatever authority, no instance gives service that names a lease, lists an endpoint over TCP or on the machine, or needs observed capabilities |
| Outages.RestartWithdraws | src/persistence.cpp:386-397 | what was AVAILABLE, DEGRADED or UNREADY is then UNREADY and answers no query for current evidence |
| Outages.RestartKeepsTheRest | src/persistence.cpp:386-409 | which records change, in which fields, and that nothing else does |
| Outages.DeathReleases | src/authority.cpp:97-104 | an endpoint that a dead process held has no owner and is unreachable, and no instance that lists it gives service |
| Outages.DeathEndsLeases | src/authority.cpp:82-89 | nor does one that names a lease of the dead process |
| Outages.DeathWithdraws | src/authority.cpp:90-93 | the instances of a dead process are stale, unreachable and not ready, and answer no query |
| Outages.DeathSparesOthers | src/authority.cpp:71-106 | records of other processes and other sorts are as they were |
| Contents.SuccessorWaits | src/authority.cpp:94-101 | a process that registers again over an endpoint its predecessor held gives no service before the endpoint is seen again |
| Registration.BindExactly | src/registry.cpp:287-304 | the endpoint loop succeeds exactly when every endpoint may be claimed, and changes an endpoint only by claiming it |
| Registration.BindClaims | src/registry.cpp:287-304 | when it succeeds every listed endpoint is claimed |
| Registration.PassesExactly | src/registry.cpp:261-286 | the generation and tombstone tests pass exactly when no standing instance is as new and no tombstone bars the first instance |
| Registration.AcceptedExactly | src/registry.cpp:255-313 | when a registration that repeats nothing is accepted, said without the order of the checks |
| Registration.NewestStands | src/registry.cpp:261-313 | an accepted registration makes the new instance newer than every other standing instance of its service |
| Contents.RegistrationStores | src/registry.cpp:255-313 | what an accepted registration stores: the instance under its identity, the old one superseded, both in the history as they were, the endpoints taken, one number more, and nothing else |
| Contents.RegisteredAsGiven | src/registry.cpp:305-313 | the stored instance is the caller's in every field but identity, health, reachability and lifecycle, and is AVAILABLE exactly when the caller's deserves it |
| Contents.SupersessionStores | src/registry.cpp:468-479 | supersession puts the old instance into the history as it was and then registers the new one |
| Contents.ObservationStores | src/registry.cpp:315-365 | an update is accepted exactly for the named generation of a known instance, stores the reported status and classifies by it |
| Contents.EndpointUpdateStores | src/registry.cpp:345-355 | an endpoint update stores the reachability and classifies the owner by it |
| Contents.LostEndpointStops | src/registry.cpp:345-355 | an instance that lists an endpoint reported lost gives no service |
| Contents.DeregistrationStores | src/registry.cpp:493-505 | deregistration retires the instance, which goes to the history as it was |
| Contents.AcquisitionStores | src/registry.cpp:404-417 | a lease is stored as given, under its identity or the next, with the next lease generation |
| Contents.RenewalStores | src/registry.cpp:419-431 | renewal is accepted exactly from the holder, for the generation, and not after revocation |
| Contents.EndingStores | src/registry.cpp:433-451 | only an active lease is ended, with the state asked for |
| Contents.ServiceStores | src/registry.cpp:65-89 | a service is stored as given exactly when it is new and not covered, or newer than the known one; a repetition changes nothing |
| Contents.RuntimeStores | src/registry.cpp:91-119 | the same for runtime instances, with the next identity if they have none |
| Contents.ProtocolStores | src/registry.cpp:121-139 | the same for protocols, which no tombstone covers |
| Contents.EndpointStores | src/registry.cpp:141-169 | the same for endpoints; the history keeps the replaced one |
| Contents.CapabilityStores | src/registry.cpp:171-199 | the same for capabilities; the history keeps the replaced one |
| Lasting.RegisteredForGood | src/registry.cpp:65-139 | over any run, registered services and protocols stay registered, their generations never fall, and a generation names one record |
| Lasting.StepRevivesExactly | src/registry.cpp:404-451 | a revoked lease is brought back exactly by an accepted acquisition of another lease under its identity |
| Lasting.RevokedForGood | src/registry.cpp:404-451 | over any run without such a step a revoked lease stays revoked, and an instance that names it gives no service |
| Registration.RegistrationKeepsOne | src/registry.cpp:261-313 | registration keeps at most one standing instance per service, also when it throws |
| Registration.ObservationKeepsOneExactly | src/registry.cpp:372-402 | an accepted update makes any instance stand again, so it keeps that property exactly when the instance was not history or no other stands |
| Registration.RevocationKeepsOneExactly | src/authority.cpp:80-93 | revoking a live boot keeps it exactly when beside the history of the boot there is only history of other boots |
| Registration.ReachabilityKeepsOneExactly | src/registry.cpp:345-355 | an accepted endpoint update keeps it exactly when the owner was not history or no other instance of its service stands |
| Registration.StepKeepsOneExactly | src/registry.cpp:255-505 | the exact steps that keep it, refused ones included |
| Registration.RunKeepsOneExactly | src/registry.cpp:255-505 | a run keeps it throughout exactly when each of its steps does |
| Registration.DeadGenerationsBlock | src/authority.cpp:80-93 | the generations of a dead boot do block its service: a registration that repeats nothing is refused as stale exactly when a standing instance, or any instance of the dead boot, is as new |
| Registration.RejectionChangesNothing | include/runtimeregistry/registry.hpp:61-62 | every mutator but register_instance and supersede changes nothing when it throws |
| Registration.RejectedRegistrationIsIdleExactly | src/registry.cpp:255-304 | exactly when a rejected instance registration changed nothing |
| Registration.RejectedSupersessionIsIdleExactly | src/registry.cpp:468-479 | a rejected supersession changed nothing exactly when the old instance is unknown |
| Registration.OthersUndisturbedExactly | src/registry.cpp:261-306 | an accepted registration that repeats nothing leaves the instances of other services alone exactly when its identity, given or handed out, is free or belongs to the same service |
| Numbering.ChangeIsNumberedExactly | src/registry.cpp:59-63 | an accepted call that changed the registry moved its three counters by one each, unless it was an instance registration that only confirmed the current instance |
| Tombstones.CoversOneIdentity | src/registry.cpp:507-513 | a tombstone covers exactly one identity of one kind, for all generations up to its floor |
| Tombstones.ReplacementLosesExactly | src/registry.cpp:481-491 | storing a tombstone under an identity in use loses coverage exactly when only the replaced one gave it |
| Tombstones.StepLosesExactly | src/registry.cpp:481-491 | a step loses coverage exactly when it is an accepted tombstone that covers something else, under the identity of the only one that gave it |
| Tombstones.CoveredThroughoutExactly | src/registry.cpp:481-513 | a run keeps coverage throughout exactly when none of its steps is of that kind |
| Tombstones.CoverageStays | src/registry.cpp:481-513 | with tombstone identities from the registry, what is covered stays covered over any run, reloads that load included |
| Tombstones.InstanceResurrectionExactly | src/registry.cpp:281-286 | an instance of a service with no standing one is refused exactly when its service is covered |
| Tombstones.BuriedForGood | src/registry.cpp:481-513 | a tombstone bars first registrations of its service and of its instances, up to its floor, in every later state |
| Tombstones.BuriedRuntimeForGood | src/registry.cpp:103-108 | the same for runtime instances |
| Tombstones.BuriedEndpointForGood | src/registry.cpp:155-160 | the same for endpoints |
| Tombstones.BuriedCapabilityForGood | src/registry.cpp:185-190 | the same for capabilities |
| Loops.CollectHealth | src/registry.cpp:18-28 | the endpoint loop computes the worst health: one bad endpoint makes the instance unhealthy, a degraded one degrades it |
| Loops.CollectReachability | src/registry.cpp:30-42 | the endpoint loop computes the aggregated reachability, stopping at the first obstacle |
| Loops.Reclassify | src/registry.cpp:372-402 | the cascade of classification with its loops |
| Loops.FindTombstone | src/registry.cpp:507-513 | the search over tombstones finds one exactly when the registration is covered |
| Loops.FindCurrent | src/registry.cpp:263-270 | the scan in any order ends at a standing instance of the largest generation, or at none exactly when none stands |
| Loops.RebuildIndexes | src/registry.cpp:515-525 | the loop builds the four indexes of the canonical records |
| SelfCheck.RebuiltListsExactly | src/registry.cpp:515-525 | after a rebuild the indexes list exactly the services of each kind and the instances of each service, boot and node |
| SelfCheck.CheckInvariants | src/registry.cpp:534-551 | the violations reported are exactly the violations of the state |
| SelfCheck.NothingToReport | src/registry.cpp:534-551 | a state within the invariant has none |
| SelfCheck.ReachableStatesAreClean | src/registry.cpp:515-551 | so no state reachable by a run has any, and its indexes equal a rebuild |
| QueryTheorems.SurvivesExactly | src/selection.cpp:153-196 | what the cascade of filters lets through, said at once; a required protocol version asks only for a registered protocol |
| QueryTheorems.RejectedAndRankedExactly | src/selection.cpp:164-178 | an instance is both rejected and ranked exactly when it survives and speaks an incompatible protocol |
| Outcomes.JudgedExactly | src/selection.cpp:153-199 | for which group of causes an instance is rejected, and when it survives, by its fields alone |
| Outcomes.ReasonExactly | src/selection.cpp:153-162 | which reason is given for an instance that is not in good order |
| Outcomes.RankedExactly | src/selection.cpp:126-216 | the ranked instances are exactly those that satisfy the query |
| Outcomes.OutcomeExactly | src/selection.cpp:224-234 | the exact condition of each of the nine outcomes on the instances in question |
| Outcomes.AnswerExactly | src/selection.cpp:200-222 | ranks, totals as weights of contract, status and place, their order, how many instances were looked at and which are selected |
| Query.CheckProtocols | src/selection.cpp:165-174 | the protocol loop finds out whether an incompatible protocol is spoken, else whether a registered one is |
| Query.Satisfaction | src/selection.cpp:179-181 | the capability loop: present and current, named but not current, or absent |
| Query.CheckCapabilities | src/selection.cpp:177-186 | the loop over required kinds stops at the first that is not provided, with its category |
| Query.JudgeOne | src/selection.cpp:153-196 | the filters of one visit of the walk |
| Query.SortCandidates | src/selection.cpp:219-219 | sorts by total, then by identity, losing and adding nothing |
| Query.Visit | src/selection.cpp:131-217 | one visit adds one instance's rejections, causes, count and candidate to what the walk has gathered |
| Query.Answers | src/selection.cpp:126-236 | the whole walk, in any order of the hash map, ends in an answer: the survivors scored and strictly ranked, their prefix selected, the outcome by cause |
| QueryTheorems.AnswerIsUnique | src/selection.cpp:126-236 | ranking, selection, outcome and count are the same for every order of the walk; rejections are permuted |
| QueryTheorems.FullCompleteness | src/selection.cpp:204-206 | capability completeness is 100 for every survivor |
| QueryTheorems.StrengtheningFilters | src/selection.cpp:97-123 | strengthening a query leaves a subsequence of the old ranking with the same factors and totals |
| QueryTheorems.BetterScoresHigher | src/selection.cpp:198-217 | of two survivors of one service the one no worse in status and place scores no less, and the same only if neither is better in anything |
| QueryTheorems.AvailableIsRanked | src/selection.cpp:153-162 | an AVAILABLE instance is ranked by the default query of its kind exactly when its lease, if any, is active |
| QueryTheorems.ReachableAvailableIsRanked | src/selection.cpp:153-162 | in every state a run can reach |
| QueryTheorems.SpentBootIsNeverRanked | src/selection.cpp:157-157 | once a boot stopped being live, no later query of the run ranks an instance that holds it |
| QueryTheorems.NobodyLivesOutcome | src/selection.cpp:131-157 | with no live boot nothing is ranked and the outcome is STALE_ONLY, INCOMPATIBLE_ONLY or NOT_FOUND by what was in scope |
| QueryTheorems.RestartedOutcome | src/selection.cpp:224-234 | that holds from a completed recovery or new epoch until the next adoption, whatever else happens |
| QueryTheorems.RecencyFollowsOrderExactly | src/selection.cpp:211-211 | over all versions with minor and patch up to two bounds, the recency factor follows version order exactly when 10 times the minor bound plus the patch bound is below 100 and, unless minor is 0, the patch bound below 10 |
| QueryTheorems.RecencyMisleads | src/selection.cpp:211-211 | 1.11.0 is older than 2.0.0 and scores above it |
| RegistryObject.Registry.constructor | src/registry.cpp:48-57 | a new registry is the initial state of the model |
| RegistryObject.Registry.BeginCoordinatorEpoch | src/authority.cpp:8-50 | the four loops in place take the new-epoch step |
| RegistryObject.Registry.ReleaseAll | src/authority.cpp:80-105 | the nested loops of revocation, in any order, kill the instances of the boot, expire their leases and release their endpoints |
| RegistryObject.Registry.RevokeBootInternal | src/authority.cpp:71-106 | revocation in place takes the revocation step, or none when the boot is not live |
| RegistryObject.Registry.AdoptWorker | src/authority.cpp:52-64 | adoption in place takes the adoption step and returns the boot issued |
| RegistryObject.Registry.RegisterService | src/registry.cpp:65-89 | takes the registration step of the model on every path |
| RegistryObject.Registry.RegisterRuntime | src/registry.cpp:91-119 | likewise |
| RegistryObject.Registry.RegisterProtocol | src/registry.cpp:121-139 | likewise |
| RegistryObject.Registry.RegisterEndpoint | src/registry.cpp:141-169 | likewise |
| RegistryObject.Registry.RegisterCapability | src/registry.cpp:171-199 | likewise |
| RegistryObject.Registry.BindEndpoints | src/registry.cpp:287-304 | the endpoint loop in place; what it bound stays bound when it throws |
| RegistryObject.Registry.FileInstance | src/registry.cpp:258-313 | scan, tests, giving way, binding and installation in place take the registration step for the instance the scan chose |
| RegistryObject.Registry.RegisterInstance | src/registry.cpp:255-313 | the same after the envelope was validated |
| RegistryObject.Registry.Update | src/registry.cpp:315-365 | the four instance updates take the observation step |
| RegistryObject.Registry.UpdateReachability | src/registry.cpp:345-355 | takes the endpoint update step, reclassifying the owner |
| RegistryObject.Registry.AcquireLease | src/registry.cpp:404-417 | takes the lease step with the next lease generation |
| RegistryObject.Registry.RenewLease | src/registry.cpp:419-431 | takes the renewal step with its four refusals |
| RegistryObject.Registry.EndLease | src/registry.cpp:433-451 | takes the expiry or revocation step |
| RegistryObject.Registry.Invalidate | src/registry.cpp:459-466 | appends the record and commits |
| RegistryObject.Registry.Supersede | src/registry.cpp:468-479 | marks the old instance before registering the new one |
| RegistryObject.Registry.CreateTombstone | src/registry.cpp:481-491 | stores the tombstone under the given or the next identity |
| RegistryObject.Registry.Deregister | src/registry.cpp:493-505 | retires the instance, if known and of the given generation |
| RegistryObject.Registry.Query | src/selection.cpp:126-236 | the locked query returns an answer for the current state |
| RegistryObject.Registry.CheckInvariants | src/registry.cpp:534-551 | reports exactly the violations of the current state |
| RegistryObject.Registry.Serialize | src/persistence.cpp:263-309 | prints header, sections, checksum and digest of the current state |
| RegistryObject.Registry.LoadAllRecords | src/persistence.cpp:348-369 | clears and refills the collections section by section, keeping what was read when it stops |
| RegistryObject.Registry.Recover | src/persistence.cpp:373-405 | restores the numbers and performs recovery in place |
| RegistryObject.Registry.LoadFrom | src/persistence.cpp:316-405 | takes the load step on every input, refused ones included |
| Coordinator.PlaysKeepGood | apps/coordinator.cpp:50-131 | in every interleaving of any number of connections, boots, workers and connections stay one to one |
| Coordinator.AcceptedExactly | apps/coordinator.cpp:58-64 | a request passes the authority check exactly when its connection holds the current boot of its worker, and then no other connection does |
| Coordinator.ReplacedIsRefused | apps/coordinator.cpp:80-128 | a request of a replaced connection changes nothing |
| Coordinator.LateCloseIsIdle | apps/coordinator.cpp:130-130 | the late close of a replaced connection leaves the registry as it is |
| Coordinator.RankedAreCurrent | apps/coordinator.cpp:68-73 | every ranked instance belongs to the current boot of some worker |
| Coordinator.SecondHelloOrphansExactly | apps/coordinator.cpp:59-64 | after another hello the boot a connection had stays live exactly when it was the current boot of a different worker; no connection has it then |
| Coordinator.HeldThroughoutExactly | apps/coordinator.cpp:50-131 | throughout an interleaving every live boot belongs to an open connection exactly when no connection that holds the current boot of a worker says hello for another |
| Coordinator.BootIsOrphaned | apps/coordinator.cpp:59-64 | a play of one connection and two hellos after which boot 101 is live and no connection has it |
| Coordinator.Connection.SayHello | apps/coordinator.cpp:59-64 | adopts the worker and remembers its boot |
| Coordinator.Connection.Hangup | apps/coordinator.cpp:130-130 | revokes the boot the connection holds, if any |
| Coordinator.Connection.Update | apps/coordinator.cpp:118-125 | health and readiness updates under the connection's authority; none without a worker |
| Witnesses.RefusedRegistrationSupersedes | src/registry.cpp:278-305 | a run from a new registry after which a registration is refused over an endpoint, the only standing instance superseded and an identity used up |
| Witnesses.RefusedSupersessionSupersedes | src/registry.cpp:467-479 | a run after which a supersession is refused and the old instance superseded |
| Witnesses.DeadBootBlocks | src/registry.cpp:272-277 | a run after which a restarted worker is refused because of the generation of its dead boot |
| Witnesses.TwoStand | src/registry.cpp:372-402 | a run after which a health report leaves two standing instances of one service |
| Witnesses.RejectedAndRanked | src/selection.cpp:164-178 | a run after which a query answers with an instance it also rejects for its protocol |
| Witnesses.CoverageIsLost | src/registry.cpp:481-491 | a run after which a tombstone under an identity in use lets a buried service register again |
| Witnesses.OrderDecides | src/registry.cpp:30-42 | a run with two endpoints after which an instance is UNREACHABLE or UNREADY by the order in which it lists them |
| Witnesses.IdentityIsHandedOutAgain | src/registry.cpp:262-262 | a run after which the registry hands out the identity of an instance of another service, and replaces it |
| SaveWitnesses.BootIsIssuedTwice | src/authority.cpp:52-64 | a new registry is saved, boot 101 issued, the save loaded, and boot 101 issued again |
| SaveWitnesses.LengthySaveErases | src/persistence.cpp:34-34 | a registry whose only record is a tombstone with a reason above the limit of the reader: loading its own save is refused and drops the tombstone |
| SaveWitnesses.OversizedSaveUncovers | src/persistence.cpp:345-371 | a run that leads there: the service it buried is refused before that load and accepted after it |

## Left out

- Registration of backends, devices and nodes: the service and endpoint pattern again. Their maps are in
  the state, and saving and loading covers them.
- Counters of `accounting_` and `query_and_account`: statistics that no decision reads.
- The `find_*` pointers and `mark_lease_revalidation_required`: they bypass the lock.
- `version_verdict` and `set_worker_health_reporting`: no decision uses them.
- Fields of the authority envelope that no mutator reads.
- `src/tcp.cpp`, `apps/worker.cpp`, socket input and the splitting of request lines: input and output.
  Connections are sources of events.
- `apps/cli.cpp`, `src/explanation.cpp`, reason and detail strings: text for people.
- `src/sha256.cpp`: the digest is a parameter, any deterministic function of the content to 32 bytes.
- Rounding: scores are exact reals. All factors are whole numbers, so only a recency factor beyond 2^53
  would round. Overflow of `int64_t` in the recency factor is not modelled.
- Signed overflow in the numeral loops of `src/version.cpp` is taken as two's complement wrap-around.
- Persisted doubles are their 64 bits; a comparison of two capability values follows IEEE 754 equality.
- Record printers and readers are functions: they are straight lines of the calls that `Streams` has in
  place. `Registry.Serialize` therefore prints its sections from the last to the first, each before what
  follows it; appending in place is modelled only for the printers in `Streams`.
- What a list reader returns after a failed read: its caller throws it away.
- The mutex: each locked call is one step.
- Uncaught conversion errors in the coordinator, which end the process.
- Query.Answers: requires map keys to be record identities, which every reachable state satisfies.
