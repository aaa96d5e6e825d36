# Verification of the realm authority log, its replication, the ledger commitments and settlement

A Dafny model of three parts of the repository, with proofs about all their inputs and runs.

**The realm.** A realm is an append-only, hash-chained log of twelve kinds of authority event. A proposal
is normalised, checked for shape, sequence, previous hash and authority, stamped with a chained hash,
projected, and logged. Snapshots, backups, the integrity check, idempotent commands, the recovery ceremony
and the replication transport are all modelled on that one log, and each is shown to agree with it.

**The ledger commitments.** The Merkle root, the sorted fixed-width state root and the fixed-offset intent
serialiser of the ledger prototype.

**Settlement.** Grants, policy decisions, authorizations and external proofs, and the settlements that
cite them: once per key, always explained, blocked by revocation.

| files | what they hold |
|---|---|
| Text, JsonValues, JsonParser | JavaScript values and their coercions; the canonical encoder and a reader that undoes it |
| Registry, History, CurrentAuthority, Validator, Pipeline | the twelve contracts, the chain, replay, acceptance, and the ledger object |
| Runs, EventIds | runs from the empty ledger, and the histories they reach |
| RootAuthority, Devices, AliasRun, HeadCommits, NormalReplay | what runs keep: the root, the devices, what the head commits to |
| Ceremony, CeremonyOutcome, CeremonyRun, Snapshots, Commands, Transport, Replication, Integrity, Backup, RestoreLimits | the services around the log, and where restoring fails |
| Bytes, Merkle, Commitments | binary commitments |
| Artifacts, Capabilities, Settlement, Marketplace, SettlementLineage, SettlementGrounds, SettlementCapabilities, GrantRevocation, SettlementOrigins, SettlementFlow, SettlementFailures | settlement: as functions, as an object, over runs, from the first grant to the settlement, and where it fails |

`dafny verify dfyconfig.toml` checks everything.

## How it is modelled

- Untyped input is a `Json` value, and the coercions the code applies to it (`||`, `??`, `String`, `Number`,
  `trim`, `===` with identity for arrays and objects) are written out. In the settlement part an empty text
  stands for a field that is missing, null or empty; the code treats the three alike there.
- Code that changes a ledger, a store or a buffer in place is a method with `modifies`, proved against a
  function of the old state; the loops of the source are loops. Statements about runs are lemmas about
  those functions.
- SHA-256 is an arbitrary function to non-empty hexadecimal text (to 32 bytes in the prototype). Where a
  property needs it to tell texts apart, the lemma asks for that on the finitely many texts that were
  hashed, cut to the length the source keeps where it cuts.
- Clocks are parameters. The checks of device signatures and of remote realm evidence are parameters, too.
- A log is a list of events with an envelope and of opaque other entries. As in the code, an event's own type
  decides whether the hash chain runs through it (`Chained`), and its mark or its envelope's type whether it is
  projected (`IsCanonical`); an event without an envelope counts as one whose envelope repeats its own fields.
  `Legit` histories are those whose events were each admissible when they came; `Runs.ReachableIffLegit` shows
  that they are exactly the histories of runs, so a lemma about legitimate histories is a lemma about all runs.

## Properties that do not hold as promised

Each comes with the exact condition under which it does hold, and with a failing input or run.

1. An active root cannot always act. Signers are trimmed, references are not, so a rotation to a
   reference with leading white space leaves a root that nobody can sign for: `RootAuthority.RotationCanStrand`,
   `StrandedForGood`, and the exact condition in `RootProgress`.
2. A device may revoke another device. The legacy `device` field is read by the projection but not by the
   check: `AliasRun.DeviceRevokesAnother`, with the exact condition in `Devices.DeviceRevokesOnlyItself`
   and, for default names, `Devices.SparesUnlessAliased`.
3. The head does not commit to all that the projection reads: neither to a nested envelope that differs from the
   top-level fields (`HeadCommits.HeadMissesEnvelope`, `RestoreLimits.BackupMissesEnvelope`), nor to an entry of no
   realm type whose envelope is of one, which the chain skips (`RestoreLimits.UnchainedEntryRestores`). The exact
   condition is in `Backup.SameIffMirrored`: whatever is chained or projected is chained and repeats its hashed
   fields in its envelope; for chains alone it is in `HeadCommits.SameUnlessCopiesDiffer`. Acceptance builds only
   such events, so for reachable logs, and a hash that tells their texts apart, the claim holds
   (`NormalReplay.SameHeadSameText`; `HeadCommits.SameHeadSameRealm` where payloads hold nothing undefined).
4. The first occurrence of a command id does not always decide: one that throws leaves no record
   (`Commands.FirstMayThrow`). The exact condition is in `Commands.FirstsSuffice`; the first occurrence that
   does not throw always decides (`Commands.StreamIsItsDecidingPart`).
5. A recovery ceremony that begins may stop after one event or two: without a public key, or when the old
   device is named otherwise than by its id or its reference (`CeremonyRun.CeremonyStopsHalfWay`). How far it
   gets, for any input and any reachable state, is in `CeremonyOutcome.CeremonyReaches`.
6. A Merkle root does not fix the number of transactions: any odd list of three or more and the list with its
   last entry repeated share one (`Merkle.RepeatedLastLeaf`).
7. A settlement whose caller supplies an operation id that is taken replaces the operation of an earlier key:
   `SettlementFailures.SharedOperationIdLoses`, with the exact condition over runs in
   `SettlementLineage.OneOperationOverRuns`.
8. A settlement proof may name a capability nobody registered, because a grant can go by a capability id of
   its own: `SettlementFailures.OwnIdLeavesProofUnknown`, with the exact condition over runs in
   `SettlementCapabilities.SalesKnownIffRegistered` and, for the stored proofs, `ProofsKnownIffRegistered`.
9. A backup may be created with a snapshot at a cut beyond the log, and then does not restore
   (`Backup.BackupRoundTrip`).
10. An untouched ledger is not always valid, nor its own backup restorable: a trust with a head in a realm named like
   a member every object inherits, such as `constructor`, contradicts evidence that nobody supplied
   (`RestoreLimits.InheritedRealmFails`). The exact condition is in `Integrity.ReachableIsValid` and
   `Backup.BackupRoundTrip`.

## Model

| member | source | states |
|---|---|---|
| JsonParser.DecodeEncode | node/realm-event-history.js:6-16 | a JSON reader undoes the canonical encoder on every value; undefined members are absent afterwards, undefined slots are null |
| JsonParser.EncodeInjective | node/realm-event-history.js:6-16 | two values share an encoding exactly when they differ only in undefined members and slots; key order never matters |
| JsonParser.EncodeNormal | node/realm-event-history.js:6-16 | dropping undefined members and writing null for undefined slots leaves the text as it was |
| Text.Sorted | node/realm-event-history.js:11-14 | the keys are taken in ascending order, each exactly once |
| Registry.KindOfName | node/realm-event-registry.js:633-639 | each canonical name selects its own contract, and no other text selects one of the twelve |
| Registry.NameInjective | node/realm-event-registry.js:153-631 | no two event types share a name |
| Registry.KeyNotInherited | node/realm-event-registry.js:633-639 | no canonical name is one that every object inherits |
| History.ChainedMeans | node/realm-event-history.js:28-32 | an event is in the chain exactly when a lookup of its own type finds something, under an inherited name, too |
| History.LatestRealmEventHash | node/realm-event-history.js:61-68 | the backward loop finds the hash of the last hash-chained event, whatever lies after it; an empty hash reads as none |
| History.VerifyRealmEventHistory | node/realm-event-history.js:82-104 | the loop reports the first fault of the hash-chained events: a broken link, a wrong hash or a wrong id, and none otherwise |
| History.AttachLinks | node/realm-event-history.js:70-80 | attaching makes an event pass the link check, and changes nothing exactly when it already passed |
| History.ChainVerifies | node/realm-event-history.js:61-104 | linking the hash-chained events of any log, whatever lies between them, gives a log that the check accepts |
| History.VerifiedIffChained | node/realm-event-history.js:70-104 | a log is accepted exactly when linking it again leaves it unchanged |
| EventIds.IdsDistinct | node/realm-event-history.js:54-59 | no two events of one reachable history share an id, although an id carries only part of a hash |
| EventIds.IdTwice | node/realm-event-history.js:70-80 | both id fields of a logged event hold the same id |
| CurrentAuthority.BuildCurrentAuthorityState | node/current-authority-state.js:98-106 | the loop gives the fold of the projection over the canonical events, chained or not, or the fault of the chain, or the first canonical event without an adapter |
| CurrentAuthority.ProjectCanonical | node/current-authority-state.js:59-106 | events that are not canonical have no effect and need no adapter, so the fold over all events is the fold over the canonical ones |
| Validator.ValidatePayload | node/realm-event-validator.js:83-110 | the accumulating loops give the reason codes of the payload contract, in order |
| Validator.AnyPresent | node/realm-event-validator.js:90-96 | whether one of the alternative fields is present |
| Validator.PayloadPasses | node/realm-event-validator.js:83-110 | a payload passes exactly when it has every required field, one of the alternatives and no ill-typed field |
| Validator.AcceptedMeans | node/realm-event-validator.js:171-200 | a proposal passes every stage exactly when its shape, sequence, previous hash, signer and transition are all in order |
| Validator.AcceptedIsWhole | node/realm-event-validator.js:152-200 | an accepted event is chained, canonical and has an adapter |
| Pipeline.Ledger.constructor | node/current-authority-state.js:15-24 | a new ledger has an empty log and the empty projection |
| Pipeline.Ledger.ApplyCanonicalAuthorityProjection | node/realm-event-pipeline.js:11-17 | the stored projection advances by the event, and the canonical sequence with it; an event that is not canonical is ignored, and one without an adapter is an error that changes nothing |
| Pipeline.Ledger.ApplyToLedger | node/server.js:163-579 | a canonical event whose type has no case of its own is projected and then logged, any other entry leaves the realm alone and is logged; nothing is logged during replay, and nothing changes when the event has no adapter |
| Pipeline.Ledger.AcceptRealmEvent | node/realm-event-pipeline.js:19-31 | the proposal is judged against the stored state; an accepted event is projected and appended, a rejected one changes nothing |
| Pipeline.Ledger.RebuildAuthorityState | node/current-authority-state.js:108-113 | the projection is replaced by the replay of the log, or left alone when the replay fails |
| Pipeline.Ledger.Restart | node/server.js:743-773 | boot interprets every saved entry before the chain is checked, so the first one without an adapter stops it; otherwise it ends in the replay of the log, or in the fault of its chain |
| Runs.LiveIsReplay | node/realm-event-pipeline.js:11-31 | after every run of proposals and unrelated events the stored projection is the replay of the log |
| Runs.RestartRecovers | node/server.js:743-773 | booting from the log of any run gives back the ledger of that run |
| Runs.StepKeepsReplay | node/realm-event-pipeline.js:19-31 | one proposal or unrelated event keeps the stored projection equal to the replay |
| Runs.LegitHistory | node/current-authority-state.js:98-124 | a reachable history verifies, replays, and its k-th event has sequence k |
| Runs.LegitIsReached | node/realm-event-validator.js:171-212 | every history whose events were admissible when they came is the log of some run |
| Runs.ReachableIffLegit | node/realm-event-validator.js:171-212 | a log is the log of some run exactly when each of its events with an envelope was admissible when it came |
| Runs.NormalizeProposalJson | node/realm-event-validator.js:36-63 | submitting what a normalised proposal says normalises to the same proposal |
| RootAuthority.RootStep | node/realm-event-registry.js:46-64 | with a root in place none is created again, only the root rotates itself, and a root stays active |
| RootAuthority.RootContinuity | node/realm-event-registry.js:171-189 | in every run the first realm event creates the root, no other does, and a root is active ever after |
| RootAuthority.RootProgress | node/realm-event-registry.js:46-64 | the root can have some proposal accepted next exactly when its id or its reference equals its own trimmed text and is not empty |
| RootAuthority.RotationCanStrand | node/realm-event-registry.js:386-406 | two accepted events after which the root can never act: a rotation to a reference that starts with a space |
| RootAuthority.StrandedForGood | node/realm-event-registry.js:386-406 | a root that cannot act stays the root in every continuation |
| Devices.DevicesDistinct | node/realm-event-registry.js:220-239 | in every reachable state device ids are pairwise distinct, and so are references |
| Devices.DeviceProvenance | node/realm-event-registry.js:207-303 | each device entry names the event that issued it, whose signer was entitled to, and is revoked exactly if a later event revoked it |
| Devices.IssuerQualified | node/realm-event-registry.js:211-219 | an issuing signer was the active root, or an active recovery authority with an executed recovery that names the device |
| Devices.IssuedStays | node/realm-event-registry.js:220-303 | an issued device that is not issued again stays in the list |
| Devices.RevocationTakesEffect | node/realm-event-registry.js:286-301 | right after a revocation every device the applied target names is revoked and carries the event |
| Devices.RevocationSticks | node/realm-event-registry.js:260-301 | a revoked device stays revoked unless a later event issues its id or its reference again |
| Devices.DeviceSignerKinds | node/realm-event-validator.js:136-150 | an event signed by a mere device changes no device unless it is a revocation |
| Devices.DeviceRevokesOnlyItself | node/realm-event-registry.js:122-127 | an accepted revocation leaves every other device as it was, revoked ones included, exactly when the legacy field, where it counts, and otherwise the checked target, names none of them |
| Devices.SparesUnlessAliased | node/realm-event-registry.js:122-127 | with default names an accepted revocation by a mere device spares the others exactly when it does not name one of them in the legacy field of a payload without a device id |
| Devices.PlainSelfRevocation | node/realm-event-registry.js:260-285 | without the legacy alias and with default names a mere device revokes only itself |
| AliasRun.DeviceRevokesAnother | node/realm-event-registry.js:122-127 | a run of four accepted events in which a mere device, through the legacy alias, revokes another one and stays active itself: the check reads one target, the projection another |
| HeadCommits.HeadFixesCovered | node/realm-event-history.js:34-104 | verified histories with one head agree, event by event, on kind, payload, version, ids, links and the copies of signer, reference and sequence the hash covers |
| HeadCommits.SameUnlessCopiesDiffer | node/realm-event-history.js:34-104 | verified histories with one head are the same events, timestamps aside, exactly when the copies of signer, reference and sequence that the hash does not cover agree |
| HeadCommits.HeadFixesHistory | node/realm-event-history.js:34-104 | where envelopes repeat the hashed fields, verified histories with one head are the same events, timestamps aside |
| HeadCommits.SameAuthorityReasons | node/realm-event-validator.js:136-150 | the authority checks give the same reasons on projections that differ in timestamps only |
| HeadCommits.SameHeadSameRealm | node/realm-event-validator.js:171-200 | reachable histories with one head and JSON payloads are the same events with the same projection, timestamps aside, and give every proposal the same verdict |
| NormalReplay.TidyText | node/realm-event-history.js:6-45 | undefined members of a payload do not change the hashed text |
| NormalReplay.ProjectTidy | node/realm-event-registry.js:108-631 | replaying the payloads as their JSON text holds them gives the projection as its JSON text holds it |
| NormalReplay.TidyAuthorityReasons | node/realm-event-validator.js:136-150 | the authority checks give the same reasons on a projection and on its JSON form |
| NormalReplay.SameHeadSameText | node/realm-event-validator.js:171-200 | whatever the payloads hold, reachable histories with one head have the same JSON text and projection, timestamps aside, and give every proposal the same verdict |
| HeadCommits.HeadMissesEnvelope | node/realm-event-history.js:34-45 | two verified logs with one head and different roots: their nested envelopes differ from the hashed fields |
| Ceremony.SubmitProposals | node/recovery-ceremony-runtime.js:87-114 | the loop submits in turn and stops at the first rejection |
| Ceremony.ExecuteRecoveryCeremony | node/recovery-ceremony-runtime.js:87-114 | malformed input throws before anything changes; otherwise the three proposals are submitted in turn |
| CeremonyOutcome.NormalizeStage | node/recovery-ceremony-runtime.js:15-85 | what each ceremony proposal normalises to |
| Ceremony.GrowsByAccepted | node/recovery-ceremony-runtime.js:87-114 | on success and on failure the log grew by exactly the accepted events returned |
| Ceremony.SubmitKeepsReplay | node/recovery-ceremony-runtime.js:87-114 | a ceremony, complete or not, leaves the projection equal to the replay |
| CeremonyOutcome.CeremonyReaches | node/recovery-ceremony-runtime.js:15-114 | for any input, from any reachable state: how many of the three proposals are accepted, as a condition on the input and the state; the ceremony succeeds exactly when all are, and then what the old id matches is revoked, the replacement is in the list, and all else is as it was |
| CeremonyOutcome.CeremonyCompletes | node/recovery-ceremony-runtime.js:15-114 | with complete input, an active old device and a new replacement: all three are accepted exactly when the trimmed signer is an active recovery authority and the old device is named by its id or reference |
| CeremonyRun.CeremonyStopsHalfWay | node/recovery-ceremony-runtime.js:87-114 | reachable states and inputs with which a ready signer logs one event, or two, and then fails |
| Snapshots.RebuildFromSnapshot | node/realm-snapshot.js:115-122 | a snapshot that fails its check is refused; otherwise the remaining canonical events are replayed on its projection |
| Snapshots.CreatedAt | node/realm-snapshot.js:72-91 | at every cut a snapshot is created, with the projection and head of that cut |
| Snapshots.CreatedAtEnd | node/realm-snapshot.js:72-91 | without a cut the snapshot is taken at the end |
| Snapshots.VerifiesIffCut | node/realm-snapshot.js:93-113 | a snapshot passes its check exactly when it is the snapshot of one of the cuts of the history |
| Snapshots.SnapshotResumes | node/realm-snapshot.js:47-122 | after any accepted extension the old snapshot verifies, and resuming from it equals full replay |
| Commands.ExecutionStore.constructor | node/realm-command-execution.js:7-22 | a new store is empty |
| Commands.ExecutionStore.Set | node/realm-command-execution.js:7-22 | setting a record changes that id only |
| Commands.AcceptOne | node/realm-event-pipeline.js:19-31 | one submission as a command result |
| Commands.ExecuteRealmCommand | node/realm-command-runtime.js:60-84 | the dispatch does what the command type says; a command that throws has changed nothing |
| Commands.ExecuteCommand | node/realm-command-execution.js:68-117 | an id seen before is answered from the store or refused, any other command is executed and, with an id, recorded |
| Commands.ExecuteGrows | node/realm-command-runtime.js:60-84 | whatever a command does, the log grows by exactly the events of its result and stays replayed |
| Commands.HandleEffect | node/realm-command-execution.js:68-117 | a command changes the node only if it is executed, and then records its own id only |
| Commands.StreamIsItsDecidingPart | node/realm-command-execution.js:68-117 | any stream leaves the ledger and store of the stream cut down to commands without an id and the first occurrence of each id that does not throw |
| Commands.RecordsStay | node/realm-command-execution.js:68-117 | a record is never changed by later commands |
| Commands.ReplayReturnsFirst | node/realm-command-execution.js:41-117 | an executed command, sent again at any later time, gets its first result and event ids and changes nothing |
| Commands.ConflictIsRefused | node/realm-command-execution.js:24-117 | a different intent under a recorded id is refused and changes nothing, whatever happened since |
| Commands.FirstsSuffice | node/realm-command-execution.js:68-117 | a stream leaves the ledger and store of its first occurrences exactly when no new id has a throwing first occurrence and a later one that runs |
| Commands.RecordedIffRuns | node/realm-command-execution.js:68-117 | the ids a stream records are those of which some occurrence runs |
| Commands.FirstMayThrow | node/realm-command-execution.js:68-117 | the first occurrence of an id is not always the one that counts: one that throws leaves no record |
| Commands.CommandsKeepSound | node/realm-command-execution.js:41-117 | in every node reached by commands the projection is the replay and every recorded event id is logged |
| Transport.VerifyTransportEventSegment | node/realm-replication-transport.js:36-68 | the loop reports the first fault of a segment, or the hash it ends on |
| Transport.SegmentExtends | node/realm-replication-transport.js:36-68 | a segment of hash-chained events passes after a verified history exactly when the history it makes verifies |
| Transport.RunCommands | node/realm-replication-transport.js:168-205 | commands run in order until one fails |
| Transport.ReceiveEventBatch | node/realm-replication-transport.js:145-205 | a batch that was received before is answered from the store; any other must start at the local head, and its events are submitted in order; stored ids are looked up untrimmed |
| Replication.ReplicaAccepts | node/realm-replication-transport.js:122-139 | a source event handed over as a proposal is accepted by an up-to-date replica, with the same hash and id |
| Replication.CommandIdsDiffer | node/realm-replication-transport.js:110-120 | commands for different events of one log never share an id, whatever their prefixes |
| Replication.HashFixesCut | node/realm-event-history.js:34-52 | two cuts of one log with the same last hash are the same cut |
| Replication.NextEventArrives | node/realm-replication-transport.js:122-205 | the next source event makes the copy one event longer |
| Replication.NextBatch | node/realm-replication-transport.js:168-205 | the batch that starts at the local head is taken over whole |
| Replication.OtherBatch | node/realm-replication-transport.js:70-108 | any other batch of the source, early or repeated, leaves ledger and store alone |
| Replication.ReplicaHoldsProgress | node/realm-replication-transport.js:36-205 | under every delivery schedule the replica holds exactly the batches that have come in order |
| Replication.ReplicaProjection | node/realm-replication-transport.js:36-205 | its events are a prefix of the source, with that prefix's head and projection |
| Replication.ProgressIffInOrder | node/realm-replication-transport.js:168-205 | how far a schedule brings the replica: as many batches as it contains in order |
| Replication.Convergence | node/realm-replication-transport.js:36-205 | the replica ends with the whole source log exactly when the schedule contains all batches in order |
| Integrity.VerifyFederationReferences | node/realm-integrity-check.js:135-191 | the loop fails on the first trust without a canonical logged event, with another head, or with contradicting evidence; a realm name that every object inherits counts as contradicted where nothing is supplied under it |
| Integrity.VerifyCommandExecutionBoundary | node/realm-integrity-check.js:206-245 | the loops fail on the first recorded event id that is not logged |
| Integrity.VerifyRealmIntegrity | node/realm-integrity-check.js:254-312 | the report of all checks, or the error that the replay throws |
| Integrity.NoFailures | node/realm-integrity-check.js:254-312 | the failure list is empty exactly when no check failed |
| Integrity.TrustProvenance | node/realm-event-registry.js:537-631 | each projected trust names the logged event that established or updated it, with the head that event named |
| Integrity.SoundIsValid | node/realm-integrity-check.js:135-312 | a replayed ledger with sound lineage is valid exactly when the supplied remote evidence agrees with its trusts |
| Integrity.ReachableIsValid | node/realm-integrity-check.js:135-312 | every ledger reached by commands is valid for any command ids, with or without a snapshot, exactly when the supplied evidence agrees |
| Integrity.ValidMeans | node/realm-integrity-check.js:39-93 | a valid report on any ledger vouches for the chain and for the stored projection |
| Backup.RestoreRealmFromBackup | node/realm-backup-restore.js:157-215 | restoring into the fresh empty ledger gives the ledger of the artifact, or the first error; the ledger holds the rebuilt log whenever the artifact verified |
| Backup.SnapshotFits | node/realm-snapshot.js:72-113 | a snapshot is created at every cut that is not negative, and verifies exactly when the cut lies within the history |
| Backup.BackupRoundTrip | node/realm-backup-restore.js:55-243 | a sound node can be backed up unless a snapshot is asked for at a negative cut; its artifact restores exactly when the cut lies within the history and the supplied evidence agrees with the trusts, and what is restored is the same ledger with the same head and projection hash |
| Backup.RestoresItself | node/realm-backup-restore.js:94-215 | any verified artifact restores exactly when the trusts of its own replay refer to its log and the supplied records name logged events, and what it restores is its own log with its own replay |
| Backup.SameIffMirrored | node/realm-backup-restore.js:94-155 | a saved log whose chain has the head of a reachable log projects the same events in JSON, timestamps aside, exactly when every entry that is chained or projected is chained and repeats its hashed fields in its envelope |
| Backup.RestoredByHead | node/realm-backup-restore.js:94-215 | under that condition a verified artifact with a ledger's head restores exactly when the supplied evidence agrees with the ledger's trusts, and then to the ledger's authority, in JSON and timestamps aside; nothing is asked of the payloads |
| RestoreLimits.BackupMissesEnvelope | node/realm-backup-restore.js:94-155 | without matching envelopes, two artifacts with one head restore to different roots |
| RestoreLimits.UnchainedEntryRestores | node/current-authority-state.js:59-106 | behind any reachable log, one entry of no realm type with the envelope of a rotation leaves head and chain as they are and restores to any root at all |
| RestoreLimits.InheritedRealmNeedsEvidence | node/realm-integrity-check.js:135-191 | a trust with a head in a realm named like an inherited member keeps any reachable ledger invalid and its backup from restoring, unless evidence is supplied under that name |
| RestoreLimits.InheritedRealmFails | node/realm-integrity-check.js:135-191 | a run of two accepted events after which that happens |
| Bytes.ReadLE | crypto-proto/demo.js:33-37 | a value that fits its width is read back |
| Bytes.WriteBigUInt64LE | crypto-proto/demo.js:33-37 | eight bytes are written at the offset and no others; a value out of range is an error that writes nothing |
| Merkle.CalculateMerkleRoot | crypto-proto/demo.js:63-76 | the level-by-level loop terminates with the root of the recursive tree |
| Merkle.RootFixesList | crypto-proto/demo.js:63-76 | lists of one length with one root are equal |
| Merkle.RepeatedLastLeaf | crypto-proto/demo.js:63-76 | repeating the last of an odd number of leaves keeps the root exactly when there are at least three, or the single leaf hashes to itself |
| Commitments.AddressInjective | crypto-proto/demo.js:83-83 | different addresses give different bytes |
| Commitments.WordsReadBack | crypto-proto/demo.js:84-85 | a 128-bit value is read back from its two words |
| Commitments.AccountBuffer | crypto-proto/demo.js:80-88 | an account is written into its 44 bytes, or refused when a field does not fit |
| Commitments.CalculateStateRoot | crypto-proto/demo.js:78-90 | the loop over the sorted keys hashes all records, or fails with the first account that does not fit |
| Commitments.StateRootFixesAccounts | crypto-proto/demo.js:78-90 | two states have one root exactly when they have the same accounts, in whatever order they were entered |
| Commitments.SerializeIntent | crypto-proto/demo.js:29-43 | the writes in place give the intent bytes, or a range error |
| Commitments.IntentReadsBack | crypto-proto/demo.js:29-43 | nonce, expiry, fee, action and payload are read back from their offsets |
| Commitments.HeaderParts | crypto-proto/demo.js:214-215 | the nonce lies at byte 64, and every other field at its own offset |
| Commitments.IntentInjective | crypto-proto/demo.js:29-43 | two intents with the same bytes are the same |
| Artifacts.FindAfterUpsert | node/protocol-artifacts.js:44-53 | after an upsert the new artifact answers to its id and every other id as before |
| Artifacts.UpsertKeeps | node/protocol-artifacts.js:44-53 | no id is ever lost |
| Artifacts.DerivedIdFixesText | node/protocol-artifacts.js:28-34 | equal derived ids come from equal texts, if the cut hash tells them apart |
| Capabilities.AllowedMeans | node/capability-resolution.js:33-89 | a request is allowed exactly when a grant that bears on it allows it and none denies it or asks for a quorum or an approval; the ids named are those of the allowing grants |
| Capabilities.StricterWins | node/capability-resolution.js:7-12 | deny beats quorum, quorum beats approval, whatever the order of the grants |
| Settlement.BuildSettlement | node/marketplace-flow-runtime.js:49-88 | the proof's lineage names the fact, evaluation, decision, capability, grants and authorization it was built from, and the transaction and operation built with it |
| Settlement.BuildControlGrant | node/authority-runtime.js:64-108 | a grant that is built has an id, a capability id, and a capability and scope without wildcards |
| Settlement.RegisterCapability | node/authority-runtime.js:57-62 | only the capabilities can change, and nothing does on an error |
| Settlement.CreateControlGrant | node/authority-runtime.js:123-138 | only the capabilities and the two grant stores can change, and nothing does on an error |
| Settlement.RevokeControlGrant | node/authority-runtime.js:140-177 | only the two grant stores and the revocations can change, and nothing does on an error |
| Settlement.RecordPolicyArtifacts | node/policy-artifacts.js:48-99 | only evaluations and decisions can change, and nothing does on an error |
| Settlement.BuildAuthorization | node/authority-runtime.js:262-327 | only the authorizations can change, and nothing does on an error |
| Settlement.CreateExternalProof | node/external-proof-runtime.js:28-97 | only the proof stores can change, and nothing does on an error |
| Settlement.ExecuteMarketplaceSettlement | node/marketplace-flow-runtime.js:20-102 | only transactions, operations, settlement proofs and used keys can change, and nothing does on a refusal |
| Marketplace.MarketLedger.constructor | node/marketplace-flow-runtime.js:7-14 | a new ledger has empty stores |
| Marketplace.MarketLedger.Register | node/authority-runtime.js:57-62 | the method on the ledger's own stores |
| Marketplace.MarketLedger.CreateGrant | node/authority-runtime.js:123-138 | capability, grant and resolver copy are stored in turn; an invalid grant leaves all three alone |
| Marketplace.MarketLedger.RevokeGrant | node/authority-runtime.js:140-177 | both copies are marked and the revocation is stored; an unknown grant changes nothing |
| Marketplace.MarketLedger.RecordPolicy | node/policy-artifacts.js:48-99 | evaluation and decision are stored |
| Marketplace.MarketLedger.Authorize | node/authority-runtime.js:262-327 | the authorization, executable or denied, is stored |
| Marketplace.MarketLedger.CreateProof | node/external-proof-runtime.js:28-97 | the four parts and the replay key are stored, unless the reference was proved before |
| Marketplace.MarketLedger.StoreProof | node/external-proof-runtime.js:85-89 | the four upserts and the pushed replay key |
| Marketplace.MarketLedger.Settle | node/marketplace-flow-runtime.js:20-102 | the checks in order, then the three upserts and the used key |
| Marketplace.MarketLedger.StoreSettlement | node/marketplace-flow-runtime.js:90-93 | the three upserts and the pushed key |
| SettlementLineage.SaleIsStored | node/marketplace-flow-runtime.js:45-93 | a settlement is stored under a key that was not used before |
| SettlementLineage.OncePerKey | node/marketplace-flow-runtime.js:39-93 | over any run from any ledger no two settlements carry one idempotency key |
| SettlementLineage.DerivedKeyFixesDeal | node/marketplace-flow-runtime.js:39-43 | two settlements without keys of their own share the derived key exactly when they name the same purchase intent, proof and authorization |
| SettlementLineage.OncePerDeal | node/marketplace-flow-runtime.js:39-47 | over any run, settlements without keys of their own settle one purchase intent, proof and authorization at most once, whatever the hash |
| SettlementLineage.OneOperationUnlessTaken | node/marketplace-flow-runtime.js:60-93 | a settlement leaves each used key with exactly one operation exactly when its operation id was not taken |
| SettlementLineage.OneOperationOverRuns | node/marketplace-flow-runtime.js:60-93 | after any run every used key has exactly one operation exactly when no settlement of the run found its operation id taken; a lost key stays lost |
| SettlementFailures.SharedOperationIdLoses | node/marketplace-flow-runtime.js:60-93 | a run of six calls that gives two settlements one operation id: the first key is used and no operation serves it |
| SettlementLineage.OneOperationWhenDerived | node/marketplace-flow-runtime.js:60-93 | over every run that leaves operation ids to be derived, each used key has exactly one operation |
| SettlementGrounds.AuthorizeKeeps | node/authority-runtime.js:262-327 | an executable authorization always names grants, a decision and a capability |
| SettlementGrounds.StepKeeps | node/marketplace-flow-runtime.js:104-128 | every call keeps all proofs complete and resolvable, and loses no id |
| SettlementGrounds.EveryProofExplained | node/marketplace-flow-runtime.js:104-128 | after any run every stored settlement proof is explained, and its fact, evaluation, decision, grants, authorization, transaction and operation are still found |
| SettlementGrounds.EveryRunExplained | node/marketplace-flow-runtime.js:104-128 | the same from the empty ledger |
| SettlementCapabilities.KnownIffRegistered | node/authority-runtime.js:57-138 | after any run a capability id is known exactly when it was before or some call registered it, alone or with a grant |
| SettlementCapabilities.ProofsKnownIffRegistered | node/marketplace-flow-runtime.js:69-78 | after any run the capabilities that settlement proofs name are known exactly when each was registered before the run or by one of its calls |
| SettlementCapabilities.SalesKnownIffRegistered | node/marketplace-flow-runtime.js:69-78 | in any run from a ledger without authorizations, what its settlements named is known at the end exactly when the derived capability id of each authorization request they rest on was registered |
| SettlementFailures.OwnIdLeavesProofUnknown | node/marketplace-flow-runtime.js:69-78 | a run of five calls after which a settlement proof names a capability that is not registered |
| SettlementCapabilities.GrantRegistersCapability | node/authority-runtime.js:123-138 | a grant makes its capability's derived id known exactly when it was known or the grant goes by it |
| SettlementCapabilities.ProofCapabilitiesKnown | node/authority-runtime.js:262-327 | where grants go by derived capability ids, the capability each proof names is registered, too |
| GrantRevocation.StatusAfterRevoke | node/authority-runtime.js:166-172 | a revocation sets the status of the grant it names, and no other grant's |
| GrantRevocation.OnlyGivingReactivates | node/authority-runtime.js:123-177 | a grant that is not active becomes active exactly by being given out again as an active one |
| GrantRevocation.SaleCitesActive | node/authority-runtime.js:348-356 | a settlement cites active grants only |
| GrantRevocation.RevocationBlocks | node/marketplace-flow-runtime.js:20-26 | after a revocation no settlement cites the grant until it has been given out again |
| SettlementOrigins.AuthorizedMeans | node/authority-runtime.js:262-327 | an authorization is executable exactly when a grant allows the request, none is stricter, the decision allows and the approval holds |
| SettlementOrigins.SettlesExactlyWhen | node/marketplace-flow-runtime.js:20-47 | a settlement succeeds exactly when the ledger holds an executable, unexpired authorization on active grants, a complete verified proof and an allowing decision, and the key is unused |
| SettlementOrigins.IdsStayDistinct | node/protocol-artifacts.js:44-53 | no run stores two authorizations, proofs or decisions under one id |
| SettlementOrigins.SaleAuthorization | node/authority-runtime.js:329-359 | every settlement rests on the latest authorization under its id, fair when given, not expired, on grants that allowed the request then and are active still, and names the derived capability of that request |
| SettlementOrigins.SaleDecision | node/marketplace-flow-runtime.js:33-37 | every settlement rests on the latest decision under its id, and that decision allows |
| SettlementOrigins.SaleProof | node/external-proof-runtime.js:99-130 | every settlement rests on the latest external proof under its id, verified, and on that proof's fact |
| SettlementOrigins.ReplayKeyFixesReference | node/external-proof-runtime.js:31-33 | two proofs share a replay key exactly when they are of one type for one reference of one domain |
| SettlementFlow.GrantSpeaks | node/authority-runtime.js:64-108 | a grant given with default status and policy allows exactly the requests it bears on |
| SettlementFlow.OkIsAllow | node/policy-artifacts.js:12-30 | a policy result that says no more than ok is recorded as a decision that allows |
| SettlementFlow.FlowSettles | node/marketplace-flow-runtime.js:20-102 | in a ledger without other grants, one default grant, one favourable decision, one authorization and one new proof settle, citing that grant, exactly when the key is unused |
| SettlementOrigins.OnceUnlessAllowed | node/external-proof-runtime.js:33-37 | one outside reference is proved once, except by calls that allow duplicates |

## Left out

- Numbers other than integers, integers from 10^21 on, hexadecimal and exponent numerals, and arrays where the code calls `Number`: numbers are unbounded integers and `Number` reads decimal numerals only.
- Lone surrogates, and the difference between UTF-16 and code point order above U+FFFF, in sorting and encoding.
- Lower-casing beyond ASCII letters, and NFC normalisation before hashing in node/protocol-artifacts.js.
- Logged events whose fields have other types than acceptance gives them (a signer that is no text, say), an empty `current_event_hash` as distinct from a missing one, and gossiped events as inputs of runs: runs are fed proposals and entries that no part of the realm reads.
- Payloads given as arrays.
- Standby nodes, whose write guard throws after the projection was updated, and the option that switches the sequence check off.
- Persistence, HTTP routes, user interface, peers, relays and mesh merge; `recorded_at`, lifecycle tables and observability.
- Real cryptography: hashes, device signatures and remote realm evidence are parameters.
- Backup versions other than the defaults; cloning a value is the identity.
- `requestMissingHistory`, `announceEventHead` and `receiveSnapshot` of the transport: they only build or refuse messages.
- The other cases of `applyEvent`: accounts, controllers, transfers and the logged forms of settlement commands, so the reset of the settlement stores at boot is not part of this model.
- Sessions and federation trusts have their transitions and their place in replay and integrity, but no theorems of their own beyond `Integrity.TrustProvenance`.
- Hexadecimal text of Merkle leaves and roots, the UTF-8 encoding of an intent's payload, and addresses that are not `sl1_` with forty hexadecimal digits.
- Settlement with a whole authorization or proof object in place of an id: the runs settle by stored ids.
- The check of an intent approval, whose verdict is an input, and the reading of reason codes off a policy result.
- Metadata, verification steps, confirmations and challenge windows of settlement artifacts: stored, never read.
- SettlementGrounds.EveryProofExplained: does not say that the capability a proof names is registered, because it need not be; SettlementCapabilities.ProofsKnownIffRegistered says exactly when it is.
