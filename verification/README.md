# Verified models of the append-only protocols

Dafny models of the parts of the repository that must survive crashes, replays and
rollbacks: epoch-fenced journals, hash-chain verifiers, the generation store, the model
checkpoint protocol, the two-log spend, the conflict-component search, and the
relational store with its bundles. `dafny verify dfyconfig.toml` checks everything.

How the models are built:

- An operation that changes state is a method of a class whose fields are the source's.
  Its `ensures` states the result and the whole new state, through a specification
  function on values. The lemmas are about those functions: what acceptance means in
  terms of the records alone, what every step of a run keeps, what one digest pins.
- A module whose name ends in `Terms`, and `Grants`, says when an operation is accepted and
  what it then writes, spelled out over documents, records and arguments.
- A journal is a sequence of files, each whole or torn. Every write takes a fault: no
  file, a torn file, a complete file reported as a failure, or none. A run is any
  sequence of events of any number of processes with any faults.
- A digest is a number. Hash functions, encoders, readers, signature checks and key and
  path checks are fields of an `Env`; the premise that digests do not collide and that
  what is written can be read back is the predicate `Sound` (or `Paired`), stated on
  every lemma that needs it. No digest contains its preimage.
- Clocks, drawn identifiers, metadata texts and faults are parameters.

| files | what they model |
|---|---|
| `Base`, `Chains` | options, results, files and faults; replay as a fold, hash chains |
| `Fencing`, `FencingLaws`, `Coordinator`, `Anchor`, `AnchoredRuns`, `Grants` | the epoch-fenced coordinator and its separate compare-and-swap anchor |
| `AuditChain`, `AuditFork`, `ForkPublication`, `Custody`, `CustodyFork`, `ExternalCheckpoint`, `CheckpointService`, `Receipts`, `AuditTerms`, `ForkTerms`, `CustodyTerms`, `ServiceTerms` | signed chains, comparators, publication and service journals |
| `Witness`, `Consumption`, `SpendRuns`, `SpendTerms` | the spend over a local log and a witness |
| `ConflictGraph`, `Reconciliation`, `DecisionTerms` | conflict components and human decisions |
| `Generations`, `Ledger`, `Recovery`, `GenerationTree`, `GenerationRuns`, `GenerationLimits`, `GenerationRaces`, `PublicationTerms`, `RollbackTerms` | the generation store, the audit file and rollback; where their guarantees end; interleaved operations |
| `Checkpoint`, `CheckpointLaws`, `CheckpointTerms` | model checkpoints |
| `HistoricalSchema`, `HistoricalStore`, `HistoricalLaws`, `HistoricalTerms`, `StoreBundle` | the relational store, its gate and its bundles |

Where the code does not do what one would expect of it, the code was kept and the exact
condition proved:

- A cut-off spend can be reconciled only while its registry epoch is not behind the local
  log; once a later review at a newer epoch is recorded it is stranded for good
  (`GapClosable`, `StrandedForGood`, `StrandingHappens`).
- A rolled-back generation stays left only while HEAD can be read
  (`NeverReturns`, `WithoutHeadAnyTarget`), and only while the bootstrap's parent id is
  never itself materialised: once it is, wherever it was published, a rollback to it passes
  exactly when it is numbered below HEAD (`StagedOriginConfuses`, `OriginAlwaysReturns`).
- The generation store takes no lock. Whatever is interleaved keeps the tree and a HEAD
  that verifies (`RacesKeep`), but a publication that checked before a rollback and writes
  after it brings HEAD back (`RaceReturns`): exactly when the HEAD it checked against
  descends from the generation that was left (`LateWriteIff`; over whole runs
  `AlwaysLeftIff`), so never while HEAD stands still between check and write
  (`NeverReturnsIff`).
- A rollback writes the digest of the re-encoded manifest, so its HEAD verifies exactly
  when the target's manifest file is canonical (`RolledBackVerifies`).
- A stopped publication can be tried again exactly when its envelope file was not created
  (`RetryIff`); otherwise its commit identifier is spent for good (`SpentForGood`), and if
  HEAD was not replaced, HEAD never names it (`StoppedNeverNamed`).
- An audit line written without its newline is readable until the next append, which
  reports success and makes the ledger unreadable (`UnendedIff`, `AppendedIff`).
- A generation without optimizer state lowers the taint flag while a legacy optimizer
  stays live (`OptimizerLeftLegacy`); a refused legacy load leaves legacy parts without the
  flag exactly when it set a part and could not put it back (`FailedRestoreLeavesLegacy`),
  and the next save then writes HEAD over them (`ExposedReachesHead`).

## Model

| member | source | states |
|---|---|---|
| Chains.TipPinsChain | rust/galia-core/src/fenced_coordinator.rs:286-308 | two hash chains of equal length over one floor that end in the same digest are the same chain, record for record |
| Chains.RunConcat | rust/galia-core/src/independent_audit.rs:89-120 | replaying a concatenation is replaying its second part from the state the first part left, errors included |
| Chains.RunPrefix | rust/galia-core/src/fenced_coordinator.rs:286-308 | whatever replays, replays up to every point |
| Base.RefusedIds | rust/galia-core/src/consumption.rs:26-26 | refused identifiers are exactly those that are blank, longer than 256, or hold a control character |
| Fencing.ReplayIffLawful | rust/galia-core/src/fenced_coordinator.rs:135-186 | a journal replays exactly when every record, judged against the records before it alone, is numbered, linked, holds the latest grant and spends a fresh nonce; and the replayed fields are then what the records determine |
| Fencing.ApplyIffLawful | rust/galia-core/src/fenced_coordinator.rs:135-186 | one more record is accepted exactly when it is lawful after the journal |
| Fencing.ApplyKeepsStateOf | rust/galia-core/src/fenced_coordinator.rs:135-186 | an accepted record leaves the state that the longer journal determines |
| FencingLaws.FencingLaw | rust/galia-core/src/fenced_coordinator.rs:129-186 | in every replayable journal each spend carries the grant of the latest acquisition, epochs never fall and rise with every acquisition, nonces are distinct, and record_count = epoch + nonce claims |
| FencingLaws.EpochOfRecord | rust/galia-core/src/fenced_coordinator.rs:142-148 | the epoch a record carries is the number of acquisitions up to it |
| FencingLaws.EpochsRise | rust/galia-core/src/fenced_coordinator.rs:142-148 | a later record never carries a smaller epoch, and a later acquisition a greater one |
| FencingLaws.NoncesNeverRepeat | rust/galia-core/src/fenced_coordinator.rs:149-180 | no two spends of a replayable journal share a nonce |
| FencingLaws.PrefixList | rust/galia-core/src/fenced_coordinator.rs:286-308 | the list of checkpoints kept by the replay is, position by position, the checkpoint of the prefix that ends there |
| FencingLaws.ReplayShape | rust/galia-core/src/fenced_coordinator.rs:123-134 | count, tip, epoch and grant of a replayed state in terms of the journal |
| FencingLaws.CheckpointsValid | rust/galia-core/src/fenced_coordinator.rs:83-100 | the checkpoint of every replayable journal passes the shape check |
| FencingLaws.FloorIsHistory | rust/galia-core/src/fenced_coordinator.rs:383-397 | a floor passes exactly when it is the checkpoint the journal had at the floor's height, and the call then returns the current checkpoint |
| FencingLaws.FloorPinsPrefix | rust/galia-core/src/fenced_coordinator.rs:383-397 | a checkpoint taken from journal j passes on journal k exactly when k replays and begins with the same records as j up to that height |
| FencingLaws.FloorsNeverExpire | rust/galia-core/src/fenced_coordinator.rs:383-397 | a checkpoint taken earlier keeps passing after any further records |
| Anchor.TransitionKeepsBalance | rust/galia-core/src/durable_monotonic_anchor.rs:81-109 | the anchor's own transition rule, blind to the journal, keeps record_count = epoch + nonce claims and climbs by one |
| Anchor.TransitionExact | rust/galia-core/src/durable_monotonic_anchor.rs:81-109 | from where an anchor can stand the rule accepts exactly: one record more, a new well-formed tip, and either the first grant at epoch one, a new holder at the next epoch with the same claims, or the same holder with one claim more |
| Anchor.ReplayIffLawful | rust/galia-core/src/durable_monotonic_anchor.rs:169-205 | an anchor journal replays exactly when every record is numbered, linked, starts where the one before it ended and goes one record up |
| Anchor.SwapExact | rust/galia-core/src/durable_monotonic_anchor.rs:218-237 | a swap goes through exactly in its own scope, from where the anchor stands, one record up; the record written carries that number, link, from and to |
| Anchor.AnchorClimbs | rust/galia-core/src/durable_monotonic_anchor.rs:169-205 | in every replayable anchor journal the value is balanced and its height is the number of swaps |
| Anchor.SwapMoves | rust/galia-core/src/durable_monotonic_anchor.rs:218-237 | a swap that passes its guards and is written whole moves the anchor to its target |
| Anchor.TornForever | rust/galia-core/src/durable_monotonic_anchor.rs:169-205 | a torn record makes the anchor unreadable whatever follows it |
| Anchor.DurableAnchor.ReplayAll | rust/galia-core/src/durable_monotonic_anchor.rs:169-205 | the replay loop computes the fold of the transition rule over all files |
| Anchor.DurableAnchor.Current | rust/galia-core/src/durable_monotonic_anchor.rs:214-217 | returns the replayed value, for its own scope only |
| Anchor.DurableAnchor.Swap | rust/galia-core/src/durable_monotonic_anchor.rs:218-237 | result and journal after a compare-and-swap under any write fault |
| Coordinator.PrepareIffAdmissible | rust/galia-core/src/fenced_coordinator.rs:346-374 | an epoch acquisition, claim or commit is prepared exactly when the journal is lawful and the request admissible by the journal's own records: right epoch, current holder, fresh nonce, canonical signed response |
| Coordinator.PreparedExtends | rust/galia-core/src/fenced_coordinator.rs:309-345 | a prepared record extends the journal by one lawful record |
| Coordinator.RecordAppends | rust/galia-core/src/fenced_coordinator.rs:309-323 | whatever happens to the write, earlier records stay, at most one file is added, and success means a complete replayable record |
| Grants.RecordsWhatWasAsked | rust/galia-core/src/fenced_coordinator.rs:346-467 | whatever happens to the write, the only record that can appear is the next number and link with the action asked for: the caller's own host at the next epoch, or the caller's grant with its nonce and response; and whoever is told Ok holds the latest grant, has its nonce spent, and reads its committed response back |
| Grants.AnchoredRecordsWhatWasAsked | rust/galia-core/src/fenced_coordinator.rs:360-374 | the same through the anchor, under any fault of either write |
| Grants.OnlyWhatWasAsked | rust/galia-core/src/fenced_coordinator.rs:324-374 | over every interleaving of any number of processes, each record in the journal is one that some process asked for, host, epoch, nonce and response included |
| Coordinator.RecoveryIsOwnCommits | rust/galia-core/src/fenced_coordinator.rs:412-425 | a host reads back a response exactly when one of the records is that host's own commit of it |
| Coordinator.ReplayState.constructor | rust/galia-core/src/fenced_coordinator.rs:124-128 | starts blank |
| Coordinator.ReplayState.Clone | rust/galia-core/src/fenced_coordinator.rs:324-334 | copies every field |
| Coordinator.ReplayState.Act | rust/galia-core/src/fenced_coordinator.rs:141-181 | field updates of one action; a refused one changes nothing |
| Coordinator.ReplayState.ApplyRecord | rust/galia-core/src/fenced_coordinator.rs:135-186 | field updates of one record; a refused one changes nothing |
| Coordinator.FencingCoordinator.ReplayAll | rust/galia-core/src/fenced_coordinator.rs:286-308 | the replay loop over updated fields computes the fold over the journal |
| Coordinator.FencingCoordinator.Append | rust/galia-core/src/fenced_coordinator.rs:309-323 | record written and state after an append, under any write fault |
| Coordinator.FencingCoordinator.ProjectNext | rust/galia-core/src/fenced_coordinator.rs:324-334 | the next record and the state it leads to, worked out on a copy: the replayed state itself is untouched |
| Coordinator.FencingCoordinator.AppendWithAnchor | rust/galia-core/src/fenced_coordinator.rs:324-343 | both journals after swap-then-append, under any fault of either write |
| Coordinator.FencingCoordinator.AdvanceEpoch | rust/galia-core/src/fenced_coordinator.rs:346-359 | grant returned and journal after an acquisition |
| Coordinator.FencingCoordinator.AdvanceEpochAnchored | rust/galia-core/src/fenced_coordinator.rs:360-374 | the same through the anchor, with both journals stated |
| Coordinator.FencingCoordinator.ClaimNonce | rust/galia-core/src/fenced_coordinator.rs:429-441 | checkpoint returned and journal after a claim |
| Coordinator.FencingCoordinator.CommitResponseText | rust/galia-core/src/fenced_coordinator.rs:442-467 | receipt returned and journal after a commit |
| Coordinator.FencingCoordinator.CommitResponseAnchored | rust/galia-core/src/fenced_coordinator.rs:468-495 | the same through the anchor, with both journals stated |
| Coordinator.FencingCoordinator.CheckFloor | rust/galia-core/src/fenced_coordinator.rs:383-397 | agrees with the comparison that FloorIsHistory characterises |
| Coordinator.FencingCoordinator.CommittedResponseForHost | rust/galia-core/src/fenced_coordinator.rs:412-425 | agrees with the lookup that RecoveryIsOwnCommits characterises |
| AnchoredRuns.AnchorNeverStrays | rust/galia-core/src/fenced_coordinator.rs:324-343 | in every interleaving of any number of processes, with a fault or death at any write, while both journals can be read the anchor stands either at the coordinator's checkpoint or at that of exactly one projected, unwritten record |
| AnchoredRuns.StuckForever | rust/galia-core/src/fenced_coordinator.rs:324-343 | once out of step with nobody about to write, no anchored operation of any process ever succeeds again and neither journal changes |
| AnchoredRuns.NoNonceCommittedTwice | rust/galia-core/src/fenced_coordinator.rs:324-343 | over every run no two acknowledged spends share a nonce |
| AnchoredRuns.ProjectionAccepted | rust/galia-core/src/durable_monotonic_anchor.rs:81-109 | the anchor's rule accepts every step the coordinator can project |
| AnchoredRuns.SwapAccepted | rust/galia-core/src/durable_monotonic_anchor.rs:218-237 | with the two in step, the swap of any prepared record passes its guards |
| AnchoredRuns.AheadRefuses | rust/galia-core/src/durable_monotonic_anchor.rs:218-237 | with the anchor ahead, every swap is refused |
| AnchoredRuns.UndisturbedSucceeds | rust/galia-core/src/fenced_coordinator.rs:324-343 | an admissible request that meets no fault goes through and leaves the two in step |
| AnchoredRuns.EventsAreOperation | rust/galia-core/src/fenced_coordinator.rs:324-343 | the three events of one process are the coordinator object's anchored operation |
| AnchoredRuns.RunsKeepInv | rust/galia-core/src/fenced_coordinator.rs:324-343 | the invariant tying both journals, the lock and the acknowledgements holds in every reachable state |
| AuditChain.VerifySignedAuditChain | rust/galia-core/src/independent_audit.rs:89-120 | the loop accepts and returns what the fold over the chain does |
| AuditChain.RunFacts | rust/galia-core/src/independent_audit.rs:89-120 | every verified envelope is numbered from the floor, linked to the one before, signed by the pinned auditor, in scope |
| AuditChain.HeightsNeverFall | rust/galia-core/src/independent_audit.rs:104-111 | along a verified chain heights never fall and equal heights carry equal checkpoints |
| AuditChain.ChainsCompose | rust/galia-core/src/independent_audit.rs:89-120 | a then b verifies over a pin exactly when a verifies over it and b over the pin moved to the end of a (within the length cap), with the same tip and observations |
| AuditTerms.VerifyIff | rust/galia-core/src/independent_audit.rs:40-120 | a chain verifies exactly over a proper pin when it has one to 128 statements, each of the pinned auditor and scope, numbered and linked from the floor, about the same checkpoint or a greater height, and signed; handed on are the signed checkpoints in order and the last digest |
| AuditTerms.DualRootIff | rust/galia-core/src/independent_audit.rs:124-157 | both roots pass exactly when the chain is lawful, both are of the auditor's scope and readable, the journal has been through the floor and every signed checkpoint, and the anchor stands where the journal ends, which is the answer |
| AuditChain.AssessDualRootAudit | rust/galia-core/src/independent_audit.rs:124-157 | agrees with the assessment that DualRollbackDetected speaks of |
| AuditChain.AllFloorsPass | rust/galia-core/src/independent_audit.rs:134-139 | accepts exactly when every signed checkpoint passes as a floor |
| AuditChain.DualRollbackDetected | rust/galia-core/src/independent_audit.rs:124-157 | an accepted journal begins with the records behind every checkpoint the auditor signed, so rolling back both roots together is caught |
| AuditFork.CompareSignedAuditBranches | rust/galia-core/src/audit_equivocation.rs:62-133 | agrees with the comparison that ComparisonExact characterises |
| AuditFork.CountCommon | rust/galia-core/src/audit_equivocation.rs:78-86 | the loop finds the longest common prefix |
| AuditFork.SharedPredecessor | rust/galia-core/src/audit_equivocation.rs:87-101 | where two accepted branches first differ they share sequence and predecessor |
| AuditFork.ComparisonExact | rust/galia-core/src/audit_equivocation.rs:62-133 | it errs only on branches that do not verify or are not canonical - the missing-predecessor and same-envelope errors never occur - and otherwise tells equality, proper prefix and first conflict apart |
| AuditFork.ComparisonSymmetric | rust/galia-core/src/audit_equivocation.rs:62-133 | comparing the other way round finds the same fork with its sides exchanged |
| AuditTerms.ComparisonNames | rust/galia-core/src/audit_equivocation.rs:62-133 | branches compare exactly when both are lawful and signed in plain lower-case hexadecimal; the answer counts the shared envelopes, names where each branch ends, and shows the two envelopes that follow with their sequence, predecessor, digests and whether their checkpoints differ |
| ForkPublication.FingerprintIsPair | rust/galia-core/src/fork_publication.rs:124-147 | two proven forks have one fingerprint exactly when the unordered pair of conflicting envelopes is the same: not branch order, tails or witnesses |
| ForkPublication.BranchOrderIrrelevant | rust/galia-core/src/fork_publication.rs:124-147 | the branches exchanged prove the same fork |
| ForkPublication.OneEntryPerPair | rust/galia-core/src/fork_publication.rs:210-255 | a readable journal holds at most one entry per unordered pair of conflicting envelopes |
| ForkPublication.KnownIffHeld | rust/galia-core/src/fork_publication.rs:226-255 | the replayed fork set knows a bundle exactly when an entry for its pair is in the journal |
| ForkPublication.AppendExact | rust/galia-core/src/fork_publication.rs:285-318 | an append goes through exactly for a proven fork whose pair is new, within the caps, and leaves a readable journal one entry longer |
| ForkTerms.ProofIff | rust/galia-core/src/fork_publication.rs:124-147 | a bundle is a proven fork exactly when the quorum accepts it and its two lawful branches part somewhere; the proof is that evidence and the digest of the floor, the place and the two envelope digests in order |
| ForkTerms.ReplayIffLawful | rust/galia-core/src/fork_publication.rs:210-255 | a journal is readable exactly when it has at most 4096 entries, each numbered, linked, of this policy and size, and each publishing a proven fork not published before |
| ForkTerms.PublishIff | rust/galia-core/src/fork_publication.rs:285-318 | a publication goes through exactly for a proven fork not published before on a readable journal with room, and is acknowledged with the count and digest of the entry it leaves |
| ForkTerms.FloorIff | rust/galia-core/src/fork_publication.rs:263-278 | any retained checkpoint passes exactly on a readable journal that had that digest at that height; reported is where the journal ends |
| ForkPublication.RunBundles | rust/galia-core/src/fork_publication.rs:280-284 | the replayed list of bundles is the journal's, in order |
| ForkPublication.FloorPinsPrefix | rust/galia-core/src/fork_publication.rs:263-278 | a retained checkpoint passes on a journal exactly when that journal replays and begins with the same entries |
| ForkPublication.ScratchForkPublication.ReplayAll | rust/galia-core/src/fork_publication.rs:210-255 | the record-by-record loop computes the fold |
| ForkPublication.ScratchForkPublication.Publish | rust/galia-core/src/fork_publication.rs:285-318 | result and journal after an append, under any write fault |
| ForkPublication.ScratchForkPublication.CheckFloor | rust/galia-core/src/fork_publication.rs:263-278 | agrees with the comparison that FloorPinsPrefix characterises |
| Custody.VerifyReceiptChain | rust/galia-core/src/custody_attestation.rs:100-135 | the loop accepts and returns what the fold does |
| Custody.RunFacts | rust/galia-core/src/custody_attestation.rs:100-135 | numbering, links, signer and publication heights of a verified receipt chain |
| Custody.VerifyCustodyAgainstLocal | rust/galia-core/src/custody_attestation.rs:140-172 | accepts exactly when the chain verifies and every receipt is backed by the local journal |
| Custody.CheckBacked | rust/galia-core/src/custody_attestation.rs:148-159 | one receipt is backed exactly when its checkpoint passes as a floor and its bundle is the entry there |
| Custody.ReceiptPinsJournal | rust/galia-core/src/custody_attestation.rs:140-172 | one accepted receipt pins the whole local journal up to its height |
| CustodyTerms.VerifyIff | rust/galia-core/src/custody_attestation.rs:41-135 | a receipt chain verifies exactly over a proper pin - a custodian of this stream and policies with a key of its own - when it has one to 128 receipts, numbered, linked, signed, one publication height each; handed on are the attested checkpoints in order and the last digest |
| CustodyTerms.LocalIff | rust/galia-core/src/custody_attestation.rs:140-172 | receipts are upheld locally exactly when they are lawful, the journal is readable and has been through the floor, and each attests checkpoint and bundle of the entry at its height |
| CustodyTerms.TwoIff | rust/galia-core/src/custody_attestation.rs:187-209 | two custodians agree exactly when they differ in name and key, both are upheld, and their last receipts attest one checkpoint, which is the answer |
| Custody.AssessTwoCustodians | rust/galia-core/src/custody_attestation.rs:187-209 | agrees with the assessment that AgreementMeansSameHistory speaks of |
| Custody.AgreementMeansSameHistory | rust/galia-core/src/custody_attestation.rs:187-209 | two agreeing custodians use different keys and never disagree about an entry at the same height |
| CustodyFork.AssessCustodianFork | rust/galia-core/src/custody_equivocation.rs:58-103 | agrees with the classification that ClassificationExact characterises |
| CustodyFork.PayloadsPinEnvelopes | rust/galia-core/src/custody_equivocation.rs:58-103 | accepted branches with n equal payloads have the same envelopes, signatures included, up to the one before the last |
| CustodyFork.AtFirstDifference | rust/galia-core/src/custody_equivocation.rs:73-90 | where payloads first differ the sequences agree, the predecessors agree exactly when the envelopes before are one, and the content then differs |
| CustodyFork.ClassificationExact | rust/galia-core/src/custody_equivocation.rs:58-103 | equal payloads, a proper payload prefix, or a conflict at the first difference over a shared predecessor; the only error left is the missing common predecessor, exactly when the preceding envelopes differ in signature alone; the not-a-content-conflict error never occurs |
| CustodyFork.AssessSymmetric | rust/galia-core/src/custody_equivocation.rs:58-103 | assessing the other way round exchanges the two sides and nothing else |
| CustodyTerms.ConflictNames | rust/galia-core/src/custody_equivocation.rs:73-103 | where lawful branches first differ, at n over one shared receipt, the answer is a conflict with common prior floor + n, sequence one more, the digest of the shared receipt, and envelope and payload digests of the left branch's receipt on the left and the right one's on the right |
| CustodyTerms.NoConflictNames | rust/galia-core/src/custody_equivocation.rs:91-103 | lawful branches that never differ give equality or extension, no conflict, and common prior floor + the shorter length |
| CustodyTerms.OnlyLawfulAssessed | rust/galia-core/src/custody_equivocation.rs:58-66 | branches that do not both verify are not assessed |
| CustodyFork.SubjectIgnoresOrder | rust/galia-core/src/custody_disclosure.rs:103-145 | reversing the branches gives the same disclosure subject |
| CustodyFork.SubjectExact | rust/galia-core/src/custody_disclosure.rs:103-145 | a subject exists exactly for a proven conflict over a shared predecessor |
| CustodyTerms.SubjectNames | rust/galia-core/src/custody_disclosure.rs:103-145 | a subject is made exactly for a contradiction of lawful branches at some n, and names the custodian, the pin, sequence floor + n + 1, common prior floor + n, the shared receipt, the two envelope digests in strictly ascending order, and the digest of just that |
| CustodyFork.RosterIsGood | rust/galia-core/src/custody_disclosure.rs:62-83 | the scan with its id and key sets accepts exactly well-formed rosters without repeats |
| CustodyFork.CheckPolicy | rust/galia-core/src/custody_disclosure.rs:48-85 | accepts exactly the policies bound to these pins with enough active observers |
| CustodyFork.CheckEndorsement | rust/galia-core/src/custody_disclosure.rs:206-221 | accepts exactly a valid signature of this subject by an active roster entry |
| CustodyFork.CheckEndorsements | rust/galia-core/src/custody_disclosure.rs:206-221 | accepts exactly lists of valid endorsements by different observers, and counts them |
| CustodyFork.AssessDisclosures | rust/galia-core/src/custody_disclosure.rs:192-236 | accepts exactly a quorum over the subject of a proven conflict |
| CustodyTerms.PolicyIff | rust/galia-core/src/custody_disclosure.rs:48-85 | a policy is valid exactly when it is bound to this custodian, pin, audit and witness policy, lists one to 32 observers in ascending order with own keys and no repeats, and requires at least two and no more than are not revoked |
| CustodyTerms.DisclosureIff | rust/galia-core/src/custody_disclosure.rs:192-236 | the disclosed subject and quorum are accepted exactly for a contradiction at some n that the subject names, under such a policy, with endorsements of just that subject, policy and epoch, each signed by a different active observer |
| CustodyFork.QuorumOfKeys | rust/galia-core/src/custody_disclosure.rs:192-236 | an accepted disclosure carries valid signatures by at least two, and at least the required number of, different roster keys |
| ExternalCheckpoint.VerifyAnchorChain | rust/galia-core/src/external_checkpoint.rs:117-152 | the loop accepts and returns what the fold does |
| ExternalCheckpoint.RunFacts | rust/galia-core/src/external_checkpoint.rs:117-152 | numbering, links, last board and evidence of a verified chain |
| ExternalCheckpoint.ChainLinked | rust/galia-core/src/external_checkpoint.rs:117-152 | a verified chain is a hash chain over its floor |
| ExternalCheckpoint.BoardsOnlyGrow | rust/galia-core/src/external_checkpoint.rs:104-114 | along a verified chain heights never fall, quarantine never clears, and equal heights carry equal boards |
| ExternalCheckpoint.SeenNeverDecides | rust/galia-core/src/external_checkpoint.rs:144-145 | the duplicate check never makes a difference to acceptance |
| ExternalCheckpoint.ChainsCompose | rust/galia-core/src/external_checkpoint.rs:117-152 | a then b verifies exactly when a verifies and b verifies from the floor re-pinned at the end of a, with the same board, tip and evidence |
| ServiceTerms.VerifyIff | rust/galia-core/src/external_checkpoint.rs:82-152 | a chain verifies exactly over a proper trust when each envelope is the signer's, numbered and linked, repeats the board before it or grows one that was not quarantined, carries evidence exactly in quarantine, and is signed |
| ExternalCheckpoint.InspectAnchoredBoard | rust/galia-core/src/external_checkpoint.rs:156-189 | accepts exactly when the chain verifies and ends in the local board and the local evidence |
| CheckpointService.ClientHoldsServiceChain | rust/galia-core/src/mtls_checkpoint_server.rs:263-284 | a client that appends a served suffix to its own verified prefix holds exactly the service's chain |
| CheckpointService.SuffixExact | rust/galia-core/src/mtls_checkpoint_server.rs:268-284 | a suffix is served exactly to a client whose prefix is on the service's chain, within the cap |
| CheckpointService.ClaimExact | rust/galia-core/src/mtls_checkpoint_server.rs:285-300 | a nonce is claimed exactly when the nonce journal is readable and holds no claim of it; earlier claims survive every write outcome |
| CheckpointService.FloorPinsBothPrefixes | rust/galia-core/src/mtls_checkpoint_server.rs:321-355 | a snapshot is accepted exactly by a store that begins with the same envelopes and the same nonce claims |
| ServiceTerms.ReadIff | rust/galia-core/src/mtls_checkpoint_server.rs:214-228 | the envelope files are read exactly when all are whole and hold nothing or a lawful chain, and as that chain |
| ServiceTerms.AppendIff | rust/galia-core/src/mtls_checkpoint_server.rs:249-262 | an envelope is appended exactly when it lawfully follows the chain the files hold; the files then hold the longer chain, its length is the answer, and no fault leaves anything else |
| ServiceTerms.SuffixIff | rust/galia-core/src/mtls_checkpoint_server.rs:268-284 | a suffix is served exactly to whoever names the chain's digest at its own height, and is everything after it, one to 128 envelopes |
| ServiceTerms.NoncesIff | rust/galia-core/src/mtls_checkpoint_server.rs:229-248 | the claims are readable exactly when each is numbered, linked, well formed and of a nonce not claimed before it |
| ServiceTerms.ClaimIff | rust/galia-core/src/mtls_checkpoint_server.rs:285-300 | a claim goes through exactly when it lawfully follows, and the record written is of this nonce and this challenge |
| ServiceTerms.SnapIff | rust/galia-core/src/mtls_checkpoint_server.rs:305-320 | a snapshot tells the heights and last digests of both journals, exactly when both are readable |
| ServiceTerms.FloorIff | rust/galia-core/src/mtls_checkpoint_server.rs:321-355 | any retained snapshot passes exactly on readable journals that had those digests at those heights; reported is the present snapshot |
| CheckpointService.ScratchCheckpointServiceStore.ReadCheckpoints | rust/galia-core/src/mtls_checkpoint_server.rs:214-228 | reads and verifies every envelope file |
| CheckpointService.ScratchCheckpointServiceStore.ReadNonces | rust/galia-core/src/mtls_checkpoint_server.rs:229-248 | the loop with running tip and count computes the fold |
| CheckpointService.ScratchCheckpointServiceStore.Append | rust/galia-core/src/mtls_checkpoint_server.rs:249-262 | result and files after an append, under any write fault |
| CheckpointService.ScratchCheckpointServiceStore.ServeSuffix | rust/galia-core/src/mtls_checkpoint_server.rs:268-284 | agrees with the suffix that SuffixExact characterises |
| CheckpointService.ScratchCheckpointServiceStore.Claim | rust/galia-core/src/mtls_checkpoint_server.rs:285-300 | result and files after a claim, under any write fault |
| CheckpointService.ScratchCheckpointServiceStore.Snap | rust/galia-core/src/mtls_checkpoint_server.rs:305-320 | the counts and tips of both journals |
| CheckpointService.ScratchCheckpointServiceStore.VerifyExternalFloor | rust/galia-core/src/mtls_checkpoint_server.rs:321-355 | agrees with the comparison that FloorPinsBothPrefixes characterises |
| Receipts.VerifyReceipts | rust/galia-core/src/audit.rs:78-126 | the loop with its staged map, published set, head and link computes the fold and matches the checkpoint |
| Receipts.NextReceipt | rust/galia-core/src/audit.rs:143-162 | agrees with the construction that NextExact characterises |
| Receipts.AcceptedIffLawful | rust/galia-core/src/audit.rs:78-126 | a sequence is accepted exactly when every receipt is well formed, numbered, linked, continues HEAD, and stages a commit never staged before or publishes one staged with that manifest and unpublished |
| Receipts.TablesOf | rust/galia-core/src/audit.rs:93-109 | the staged and published tables are what the receipts say |
| Receipts.CommitLife | rust/galia-core/src/audit.rs:93-109 | two receipts of one commit are its staging and its publication, in that order, with one manifest |
| Receipts.CountLaw | rust/galia-core/src/audit.rs:78-126 | count = staged-unpublished + 2 x published |
| Receipts.CheckpointPinsSequence | rust/galia-core/src/audit.rs:112-119 | a checkpoint accepts the sequence it was taken from and no other |
| Receipts.CheckpointIff | rust/galia-core/src/audit.rs:112-119 | a checkpoint accepts exactly the lawful sequences of that many receipts, at least one, that end in that digest and leave that HEAD |
| Receipts.SameCheckpointSameSequence | rust/galia-core/src/audit.rs:112-119 | two sequences accepted under one checkpoint are identical |
| Receipts.PrefixAccepted | rust/galia-core/src/audit.rs:78-126 | every prefix of an accepted sequence is accepted |
| Receipts.NextExact | rust/galia-core/src/audit.rs:143-162 | a receipt is made exactly when it lawfully extends the sequence, and it is the only one with those contents |
| Witness.DurableScratchWitness.ReplayAll | rust/galia-core/src/durable_witness.rs:133-178 | the loop computes the fold over the journal |
| Witness.DurableScratchWitness.LookupSpend | rust/galia-core/src/durable_witness.rs:181-187 | agrees with the lookup that LookupExact characterises |
| Witness.DurableScratchWitness.ConsumeSpend | rust/galia-core/src/durable_witness.rs:199-225 | result and journal after a spend, under any write fault |
| Witness.ReplayShape | rust/galia-core/src/durable_witness.rs:133-178 | entries, tip and remembered identities of a readable journal |
| Witness.SpentAre | rust/galia-core/src/durable_witness.rs:160-165 | an authorization or nonce is remembered exactly when an entry spent it |
| Witness.EntriesFacts | rust/galia-core/src/durable_witness.rs:149-176 | each entry is numbered, chained and carries the receipt made for its own request; no two share an authorization or nonce; epochs never fall |
| Witness.TipPinsHistory | rust/galia-core/src/durable_witness.rs:190-198 | the count and tip a witness reports pin its whole history, file by file |
| Witness.LookupExact | rust/galia-core/src/durable_witness.rs:181-187 | a lookup returns the receipt of the one entry that spent the authorization |
| Witness.LookupMisses | rust/galia-core/src/durable_witness.rs:181-187 | and nothing exactly when none did |
| Witness.ConsumeAppends | rust/galia-core/src/durable_witness.rs:199-225 | a spend that passes its guards leaves a readable journal one entry longer |
| Witness.ReplayIffLawful | rust/galia-core/src/durable_witness.rs:133-178 | a witness journal replays exactly when every entry is for this case, numbered and chained, expects the tip it follows, spends something not yet spent at no lower epoch, and carries the receipt for just that |
| Witness.ConsumeExact | rust/galia-core/src/durable_witness.rs:199-225 | a spend goes through exactly for such a request; what is written is the entry for it and what is returned that entry's receipt |
| Consumption.ScratchConsumptionStore.ReadHistory | rust/galia-core/src/consumption.rs:167-198 | the loop computes the fold over the log |
| Consumption.ScratchConsumptionStore.ScreenRequest | rust/galia-core/src/consumption.rs:230-264 | the guards before the witness, in order, and the record they lead to |
| Consumption.ScratchConsumptionStore.ConsumeReview | rust/galia-core/src/consumption.rs:201-203 | result and log after an unwitnessed spend |
| Consumption.ScratchConsumptionStore.ConsumeWithWitness | rust/galia-core/src/consumption.rs:209-214 | result, log and witness journal after a witnessed spend, under any fault of either write |
| Consumption.ScratchConsumptionStore.ReconcileWithWitness | rust/galia-core/src/consumption.rs:218-224 | result and log after a reconciliation; only the log is modified |
| Consumption.ScratchConsumptionStore.CheckCheckpoint | rust/galia-core/src/consumption.rs:356-365 | agrees with the comparison that CheckpointPinsLog characterises |
| Consumption.NothingSpentTwice | rust/galia-core/src/consumption.rs:189-193 | no two records of a readable log share an authorization or nonce, and epochs never fall |
| Consumption.SpentAre | rust/galia-core/src/consumption.rs:189-193 | an identity is remembered exactly when a record carries it |
| Consumption.CheckpointPinsLog | rust/galia-core/src/consumption.rs:356-365 | a retained checkpoint accepts the log it was taken from and no other |
| Consumption.ScreenedAppends | rust/galia-core/src/consumption.rs:250-264 | a screened record, with or without receipt, extends the log it was screened against |
| Consumption.FreshReceiptBound | rust/galia-core/src/consumption.rs:280-309 | a fresh receipt never fails the two binding checks: only the witness itself refuses |
| SpendRuns.RunsKeepInv | rust/galia-core/src/consumption.rs:225-334 | the invariant tying both logs, the lock, looked-up receipts and interrupted spends is kept by every event |
| SpendRuns.OneToOne | rust/galia-core/src/consumption.rs:225-334 | in every run every complete local record stands for exactly one witness entry (id, nonce, epoch, decision digest, receipt), and no entry for two records |
| SpendRuns.GapsAreInterrupted | rust/galia-core/src/consumption.rs:265-316 | between operations the witness entries without a local record are exactly the spends cut off after their entry landed |
| SpendTerms.ReconcileExact | rust/galia-core/src/consumption.rs:218-264 | under any fault, a gap is closed exactly for an admitted review that a readable witness has spent at its epoch, and what appears locally is the record of that review with the digest of that entry's receipt |
| SpendTerms.ReplayIffLawful | rust/galia-core/src/consumption.rs:167-198 | a log replays exactly when every record is of this case, well formed, numbered, linked, and spends an authorization and nonce of no earlier record at no lower epoch |
| SpendTerms.CheckpointIff | rust/galia-core/src/consumption.rs:356-365 | a checkpoint passes exactly on a lawful log of that many records that ends in that digest at that epoch |
| SpendTerms.ScreenIff | rust/galia-core/src/consumption.rs:225-264 | a review passes the local screen exactly when the log is lawful and has room, the review is for this root, namespace and case, verifies and is well formed, its authorization and nonce are unspent, and neither its epoch nor its policy floor is behind any record; the record then says what was reviewed, decided and signed, field by field |
| SpendTerms.PlainIff | rust/galia-core/src/consumption.rs:201-264 | an unwitnessed spend goes through exactly for an admitted review, and leaves its record |
| SpendTerms.WitnessedIff | rust/galia-core/src/consumption.rs:209-334 | a witnessed spend goes through exactly for an admitted review the witness is ready for, when both writes meet no fault; whatever happens, what appears at the witness is this review's spend, and what appears locally its record with the digest of that receipt |
| SpendTerms.RebindIff | rust/galia-core/src/consumption.rs:280-309 | whatever receipt a witness hands over, a record is made of it exactly when the review is admitted and the receipt is about just this review and grants nothing |
| SpendTerms.AnswersIff | rust/galia-core/src/consumption.rs:280-309 | a witness's answer passes both checks exactly when it is about just this review, grants nothing and repeats the tip expected |
| SpendTerms.OnlyVerifiedSpent | rust/galia-core/src/consumption.rs:225-334 | over every run each local record and each witness entry stems from a review that some process asked to spend or recover, that verifies and is for this root and case, and says exactly what it decided |
| SpendRuns.GapClosable | rust/galia-core/src/consumption.rs:218-249 | a gap is closed by a well-formed request for it exactly when neither its epoch nor its policy floor is behind the local high-water mark |
| SpendRuns.StrandedForGood | rust/galia-core/src/consumption.rs:242-245 | a gap whose epoch the local log has passed is never closed, whatever follows |
| SpendRuns.StrandingHappens | rust/galia-core/src/consumption.rs:237-245 | of two reviews, the earlier cut off between its writes and the later at a newer epoch: the earlier can no longer be reconciled |
| SpendRuns.LogsOnlyGrow | rust/galia-core/src/consumption.rs:225-334 | complete records of either log are never lost or changed |
| SpendRuns.EventsAreSpend | rust/galia-core/src/consumption.rs:225-334 | the events of one process are the store's witnessed spend |
| SpendRuns.EventsAreReconcile | rust/galia-core/src/consumption.rs:218-224 | the events of one process are the store's reconciliation, and the witness journal is unchanged |
| ConflictGraph.BuildAdjacency | galia2/authority_reconciliation.py:49-51 | the adjacency map holds every node with exactly its neighbours |
| ConflictGraph.Collect | galia2/authority_reconciliation.py:55-59 | the depth-first loop, whatever order neighbours are pushed in, terminates and collects exactly the nodes joined to the root, disjoint from those seen |
| ConflictGraph.ConflictComponents | galia2/authority_reconciliation.py:48-61 | the search returns the components by definition: one sorted list per node least in its own, in order |
| ConflictGraph.ComponentsPartition | galia2/authority_reconciliation.py:48-61 | every conflicting candidate is in exactly one component |
| ConflictGraph.ComponentMembers | galia2/authority_reconciliation.py:48-61 | two candidates share a component exactly when a conflict path joins them; components are ascending |
| ConflictGraph.ComponentsOfGraph | galia2/authority_reconciliation.py:48-61 | only which pairs conflict matters: not pair order, orientation or repetition |
| ConflictGraph.Sorted | galia2/authority_reconciliation.py:60-60 | strictly ascending, with the elements of the set |
| ConflictGraph.SortedUnique | galia2/authority_reconciliation.py:60-60 | the only ascending sequence with those elements |
| Reconciliation.OverlapMeans | galia2/authority_reconciliation.py:39-44 | two candidates overlap exactly when some instant lies in both intervals of one provider and scope; overlap and kind are symmetric |
| Reconciliation.CollectPairs | galia2/authority_reconciliation.py:73-78 | the nested loops list the pairs of each kind in order |
| Reconciliation.PairsExact | galia2/authority_reconciliation.py:73-78 | a pair is listed under a kind exactly when an earlier and a later candidate are of that kind to each other |
| Reconciliation.ConflictMeans | galia2/authority_reconciliation.py:73-82 | the conflict graph joins exactly the candidates that conflict |
| Reconciliation.ReconcileCandidates | galia2/authority_reconciliation.py:67-110 | the whole call agrees with the specification the laws below speak of |
| Reconciliation.MakeHumanDecision | galia2/authority_reconciliation.py:112-119 | agrees with the decision that DecisionAccepted speaks of |
| Reconciliation.OrderIrrelevant | galia2/authority_reconciliation.py:45-46 | the order of the candidates changes neither components nor digests |
| Reconciliation.SubsetHashPins | galia2/authority_reconciliation.py:63-65 | a component or set digest pins identifiers and candidate hashes |
| Reconciliation.DecisionMadeIff | galia2/authority_reconciliation.py:112-119 | without a component named, a decision can be made exactly for a candidate in a conflict |
| Reconciliation.DecisionAccepted | galia2/authority_reconciliation.py:85-104 | a decision made for any conflicted candidate is accepted, resolves its component alone, preserves the conflicts, and settles the set exactly when there is one component |
| Reconciliation.NamedComponent | galia2/authority_reconciliation.py:91-94 | with a component named, acceptance means it is the selected candidate's own |
| Reconciliation.DecisionPinsSet | galia2/authority_reconciliation.py:87-98 | no other set of candidates accepts the same decision |
| DecisionTerms.ScreenIff | galia2/authority_reconciliation.py:24-71 | admitted are exactly two or more candidates, each named, with proper digests and a non-empty interval, each under its own digest, no two of one identifier |
| DecisionTerms.KindMeans | galia2/authority_reconciliation.py:39-78 | candidates of one provider and scope that share an instant corroborate each other exactly when key and assertion are the same, and conflict otherwise; all others are compatible |
| DecisionTerms.EachPairOnce | galia2/authority_reconciliation.py:73-78 | every two candidates are listed once, under one kind |
| DecisionTerms.ReportSays | galia2/authority_reconciliation.py:72-84 | which pairs, standing and set digest a report without decision carries: unresolved exactly if some pair conflicts, corroborated or non-overlapping exactly otherwise |
| DecisionTerms.ComponentsSay | galia2/authority_reconciliation.py:83-84 | the records of the report are the components in order, unresolved, each with the digest of its own members |
| DecisionTerms.ListingSays | galia2/authority_reconciliation.py:45-65 | a digest of a set covers identifier and hash of each member, position by position |
| DecisionTerms.DecisionIff | galia2/authority_reconciliation.py:85-104 | a decision is accepted exactly when it selects, on an admitted list that it names by digest, a member of the component it names by digest, under its own digest; then that component is resolved, nothing else of the report changes, and action is required exactly if there are other components |
| DecisionTerms.DecisionSays | galia2/authority_reconciliation.py:112-119 | a decision that is made says what was selected, by which review, on which set and in which component, under its own digest |
| Generations.GenerationStore.constructor | galia2/persistence.py:266-288 | takes up an existing store |
| Generations.GenerationStore.VerifyPayloadFiles | galia2/persistence.py:551-558 | true exactly when every declared payload is present and intact |
| Generations.GenerationStore.VerifyGeneration | galia2/persistence.py:417-449 | agrees with the specification of verification, check by check |
| Generations.GenerationStore.StageGeneration | galia2/persistence.py:290-327 | result and disk after staging, under any write fault |
| Generations.GenerationStore.PublishGeneration | galia2/persistence.py:329-406 | result and disk after publication, stopped at any of its writes |
| Generations.StagedIntact | galia2/persistence.py:290-311 | what was staged passes the candidate check |
| Generations.MaterialisedVerifies | galia2/persistence.py:382-388 | a checked candidate with its envelope verifies under the digests the new HEAD names |
| PublicationTerms.VerifiedIff | galia2/persistence.py:417-449 | a generation verifies as a manifest exactly when its directory holds that manifest, its envelope and the declared payloads, intact and nothing else, every digest being what the next document says |
| PublicationTerms.StagedIff | galia2/persistence.py:290-327 | a staging goes through exactly for a proper manifest whose payloads are those given, under an unused id, and copies them |
| PublicationTerms.PublishedIff | galia2/persistence.py:329-406 | a publication goes through exactly when HEAD can be read and its generation verifies, the staged candidate is an intact child of it, one higher, under an unused id, and the evidence is for this very candidate: preflight, authorization and candidate name its commit, parent, digests, schema and decision, the preflight passed with exactly its two guards, and the transition crosses the human boundary from PROMOTION_READY to CANONICAL with both |
| PublicationTerms.PublicationLeaves | galia2/persistence.py:382-406 | whatever the fault, HEAD is either what it was or names this commit, its number and digests; the directory that appears holds the staged files and the envelope of this evidence |
| PublicationTerms.EveryGenerationAuthorized | galia2/persistence.py:329-406 | over every run each generation that was not there at the start was published by an event whose evidence names its very commit, manifest and parent |
| Ledger.AuditLedger.Read | galia2/recovery_audit.py:204-234 | the loop computes the fold over the lines |
| Ledger.AuditLedger.AppendEvent | galia2/recovery_audit.py:236-265 | result and file after an append, cut off at any byte |
| Ledger.AppendedIff | galia2/recovery_audit.py:236-265 | a successful append reads back as the old events and the new one exactly when the last line had been ended; otherwise the ledger can no longer be read |
| Ledger.UnendedIff | galia2/recovery_audit.py:236-265 | the failing side is reached: on an ended ledger an append leaves a readable one without a final newline exactly when it is cut off before the newline, and its event is then read although it reported a failure |
| Ledger.UnreadableRefuses | galia2/recovery_audit.py:204-265 | an unreadable ledger takes no further event |
| Ledger.LastHashPins | galia2/recovery_audit.py:204-234 | the digest of the last event pins every event before it |
| Ledger.ReadIffLawful | galia2/recovery_audit.py:204-234 | a ledger is readable exactly when every line is a named event with details under its own digest, linked to the one before |
| Ledger.AppendExact | galia2/recovery_audit.py:236-265 | an append succeeds exactly on a readable ledger for a named event with details under a named actor and policy; the event carries identifier, kind, actor, time, policy, references, details and link, each as given |
| Recovery.RecoveryManager.OpenIntake | galia2/recovery_audit.py:418-441 | reports the exact HEAD bytes' digest, notes the intake, and modifies the audit file only |
| Recovery.RecoveryManager.VerifyIsAncestor | galia2/recovery_audit.py:545-557 | the loop with its seen set terminates and agrees with the walk that WalkFrom characterises |
| Recovery.RecoveryManager.RollBack | galia2/recovery_audit.py:468-530 | result, HEAD and audit file after a rollback, under any fault of any write; only HEAD and the audit file change |
| GenerationTree.WalkFrom | galia2/recovery_audit.py:545-557 | in the tree the walk accepts exactly the proper ancestors that are generations |
| GenerationTree.UpNumbers | galia2/persistence.py:356-358 | n steps up the tree lower the sequence number by n |
| GenerationTree.AncestorsDiffer | galia2/recovery_audit.py:545-557 | a proper ancestor of a generation never descends from it: going up never comes back |
| GenerationTree.RootedGrows | galia2/persistence.py:353-389 | a verified generation under an existing parent has grown like the others: every generation has a sound parent, one number lower, down to the bootstrap |
| GenerationTree.RollbackExact | galia2/recovery_audit.py:468-488 | with a readable HEAD a bound, unchanged authorization passes exactly when its target is a proper ancestor of HEAD |
| GenerationTree.RollbackAscends | galia2/recovery_audit.py:489-557 | in whatever has grown from the bootstrap, a rollback that passes its checks goes up the tree from HEAD |
| GenerationTree.RollbackToOrigin | galia2/recovery_audit.py:489-557 | once the bootstrap's parent id is a generation, a bound and unchanged authorization for it passes exactly when it is numbered below HEAD, whether HEAD descends from it or not |
| RollbackTerms.CheckedIff | galia2/recovery_audit.py:468-494 | in the tree the checks pass exactly when the authorization is for this recovery and policy, expects the HEAD that was observed and still is there, and its target is a generation the store holds, above HEAD if HEAD can be read |
| RollbackTerms.RolledBackIff | galia2/recovery_audit.py:468-530 | a rollback succeeds exactly when the checks pass, no write fails and the audit file is readable with named events; HEAD then names the target with its number and digests, and the attempt and the outcome are recorded in that order, with their references |
| RollbackTerms.FailureRecorded | galia2/recovery_audit.py:505-530 | a rollback that fails after its attempt leaves the event of its failure |
| RollbackTerms.BoundToIntake | galia2/recovery_audit.py:468-477 | an authorization bound to one intake passes only for that recovery and while HEAD is byte for byte what the intake saw |
| GenerationRuns.RunsKeep | galia2/persistence.py:353-389 | after any run of stage, publish and rollback with a failure at any write, HEAD can be read and names a generation that verifies, and every generation has its parent; they form the tree exactly as long as the bootstrap's parent id is not materialised |
| GenerationRuns.StepGrows | galia2/persistence.py:353-389 | no step changes a materialised generation; one appears only by publication, as a child of the generation HEAD named at that moment |
| GenerationRuns.RunsGrow | galia2/persistence.py:390-392 | over every run materialised generations never change |
| GenerationRuns.PublishKeeps | galia2/persistence.py:382-392 | a publication stopped anywhere keeps the tree and a sound HEAD |
| GenerationRuns.RolledBackVerifies | galia2/recovery_audit.py:479-482 | the HEAD a rollback writes names its target truly exactly when the manifest file is the canonical encoding |
| GenerationRuns.NeverReturns | galia2/recovery_audit.py:468-557 | once a rollback has reported success or moved HEAD, HEAD never again names the generation it was moved off or any descendant of it, as long as the bootstrap's parent id is not materialised |
| GenerationRuns.OneRollbackPerObservation | galia2/recovery_audit.py:475-477 | at most one rollback ever passes for one observed value of HEAD: after one that reported success, or got as far as HEAD, no authorization bound to that observation passes again |
| GenerationRuns.SuccessMoves | galia2/recovery_audit.py:489-504 | a rollback that reports success has changed HEAD |
| GenerationRuns.WithoutHeadAnyTarget | galia2/recovery_audit.py:489-494 | with HEAD lost or unreadable a bound authorization passes for any verifying generation: the readable-HEAD premise is needed |
| GenerationRuns.AttemptRecorded | galia2/recovery_audit.py:496-502 | a rollback that touched HEAD has first left a complete record of the attempt, if the audit file's last line was ended |
| GenerationLimits.RetryIff | galia2/persistence.py:382-392 | a publication that was stopped after its checks can be tried again, with any evidence, if and only if it stopped before its envelope file was created |
| GenerationLimits.StopSpends | galia2/persistence.py:382-392 | where each stop leaves the commit identifier: unchanged, held by a spoilt staging directory, or by a materialised generation |
| GenerationLimits.SpentForGood | galia2/persistence.py:290-300 | over every run from there, the identifier is never staged and never published again |
| GenerationLimits.OrphanLeft | galia2/persistence.py:390-392 | a publication stopped between its directory and HEAD leaves a verified generation that HEAD does not descend from |
| GenerationLimits.StoppedNeverNamed | galia2/persistence.py:382-392 | over every run, HEAD never names a commit whose publication stopped with its envelope file created and HEAD not replaced, nor a descendant of it |
| GenerationLimits.LineLands | galia2/persistence.py:353-393 | a ready child of the generation HEAD names, under an unused id, is staged and published, and HEAD names it |
| GenerationLimits.StagedOriginConfuses | galia2/recovery_audit.py:545-557 | publish the bootstrap's parent id under any generation HEAD names, roll back off it, land two generations of another line: a rollback to the generation HEAD was rolled back off then passes |
| GenerationLimits.OriginAlwaysReturns | galia2/recovery_audit.py:475-557 | over every run once that id is a generation, a rollback to it bound to HEAD passes exactly when it is numbered below HEAD |
| GenerationRaces.UndisturbedPublish | galia2/persistence.py:382-392 | the steps of one publication with nothing between them are the publication of the store object, stopped where they stop |
| GenerationRaces.UndisturbedStage | galia2/persistence.py:290-327 | the same for a staging |
| GenerationRaces.UndisturbedRollback | galia2/recovery_audit.py:468-504 | and for a rollback: HEAD is replaced by what its checks found, or nothing changes |
| GenerationRaces.RacesKeep | galia2/persistence.py:353-392 | in every interleaving of stages, publications and rollbacks that check first and write later, any of which may die anywhere: HEAD can be read and names a generation that verifies, every generation has its parent, none ever changes; they form the tree exactly as long as the bootstrap's parent id is not materialised |
| GenerationRaces.StepForward | galia2/persistence.py:567-577 | no step of one operation removes or replaces what another has staged, outside the generations |
| GenerationRaces.RacesKeepUnnamed | galia2/persistence.py:382-389 | in every interleaving a materialised generation whose own publication has yet to write HEAD is named by no HEAD, no manifest and no operation in progress |
| GenerationRaces.RaceReturns | galia2/persistence.py:353-389 | the race: a publication checks against HEAD, a rollback moves HEAD off that generation, the publication goes on, and HEAD names a child of the generation it was rolled back off |
| GenerationRaces.LateWriteIff | galia2/persistence.py:353-389 | the exact condition: when a publication replaces HEAD, a generation HEAD had left stays left if and only if the HEAD the publication checked against did not descend from it |
| GenerationRaces.LateReturnIff | galia2/recovery_audit.py:475-504 | the same for a rollback: exactly if its target does not descend from it |
| GenerationRaces.AlwaysLeftIff | galia2/recovery_audit.py:475-504 | over whole interleavings, exactly: a generation that was left is never named again, nor a descendant of it, if and only if no publication that checked against one of them, and no rollback to one of them, replaces HEAD |
| GenerationRaces.NeverReturnsIff | galia2/recovery_audit.py:475-504 | the same from the rollback that left it; so never while HEAD does not move between any operation's check and its own write |
| Checkpoint.CheckpointedModel.CurrentValidGeneration | main.py:644-684 | the parent of the next save is the generation that Chosen names |
| Checkpoint.CheckpointedModel.CheckpointStatus | main.py:708-773 | the status report selects that same generation, with fallback exactly when it is not the current one |
| Checkpoint.CheckpointedModel.PruneGenerations | main.py:686-701 | files after a prune in any order with any unlinks failing |
| Checkpoint.CheckpointedModel.SaveCheckpoint | main.py:775-891 | result and files after a save stopped at any step |
| Checkpoint.CheckpointedModel.ApplyCheckpoint | main.py:614-642 | live parts after an apply that fails at any stage and restores fully or partly |
| Checkpoint.CheckpointedModel.LoadCheckpoint | main.py:893-1002 | result, live parts and taint after a load |
| CheckpointTerms.ChosenIff | main.py:544-684 | which generation a disk offers, in terms of its documents: HEAD's current one exactly when its manifest, number and payload are in order; HEAD's previous one exactly when the current one is not, its manifest still reads under HEAD's commit and number, names that previous generation as its parent, and that generation is in order |
| CheckpointTerms.LoadIff | main.py:893-964 | a load whose applies succeed restores exactly that generation, or the authorized legacy file when there is no HEAD, and otherwise fails and changes nothing |
| CheckpointTerms.StrangeLineageRefused | main.py:544-562 | with the current generation damaged and a HEAD whose previous generation is not the parent the current manifest names, a load fails and changes nothing, and so does the next save |
| CheckpointTerms.OnlyStandingLoaded | main.py:893-1002 | under any apply fault a successful load leaves the parts of a generation that stands, or of the authorized legacy file |
| CheckpointTerms.LegacyIff | main.py:941-1002 | the legacy file is loaded exactly without a HEAD, when asked for and readable, and taints the model |
| CheckpointTerms.SaveIff | main.py:775-891 | a save goes through exactly without taint, under a named commit, over no HEAD or one that offers a generation; HEAD, manifest and payload then carry that parent, commit, next number and exactly the live parts |
| CheckpointLaws.CrashSafe | main.py:775-891 | stopped after any disk step, a following load restores what it would have before if HEAD was not replaced, and exactly the saved state otherwise; HEAD is replaced exactly when the save got that far |
| CheckpointLaws.HeadReplaced | main.py:823-868 | the disk after HEAD is replaced: new HEAD, its generation valid, its parent untouched |
| CheckpointLaws.PruneSpares | main.py:884-891 | a save never touches the files of the generations the old HEAD names |
| CheckpointLaws.AtMostThree | main.py:884-891 | a save whose unlinks succeed leaves at most three payloads |
| CheckpointLaws.FallbackIsParent | main.py:544-562 | after a committed save, any damage to the current payload alone falls back exactly to what a load would have restored before the save |
| CheckpointLaws.DamageNoticed | main.py:564-588 | any change to a payload's bytes is noticed |
| CheckpointLaws.LoadRestoresChoice | main.py:893-964 | a load whose applies succeed restores exactly the chosen generation, and fails without effect when there is none |
| CheckpointLaws.LoadAllOrNothing | main.py:614-642 | with restores succeeding, a failed load changes nothing and a successful one leaves exactly one validated candidate's parts, or the authorized legacy file's |
| CheckpointLaws.HeadNeverLegacy | main.py:775-786 | over whole runs HEAD is never written while any live part derives from a legacy load, if generations carry optimizer state and no refused legacy load leaves a part behind |
| CheckpointLaws.OptimizerLeftLegacy | main.py:905-940 | after a generation load the taint is down, yet the optimizer is still legacy exactly when it was before and the generation carries none |
| CheckpointLaws.FailedRestoreLeavesLegacy | main.py:986-989 | whichever stage an apply fails at and however far the restore gets, legacy parts stay live with the taint down exactly when a legacy load sets a part and does not put it back; that load is refused |
| CheckpointLaws.ExposedReachesHead | main.py:775-868 | each such load makes the next save write HEAD over legacy parts: the premise of HeadNeverLegacy is tight |
| CheckpointLaws.PartsFollow | main.py:614-642 | after any apply each live part is the old one with its origin or the applied one with its own |
| CheckpointLaws.RunsKeepLineage | main.py:775-891 | over whole runs, cut anywhere, HEAD names a valid generation whose manifest names HEAD's previous generation as parent, which is valid too |
| HistoricalSchema.InsertKeeps | historical_store.py:107-257 | an accepted INSERT keeps every key, unique, reference and check constraint of every table |
| HistoricalSchema.UpdateKeeps | historical_store.py:1002-1013 | an UPDATE that leaves keys, unique columns and references alone keeps them too |
| HistoricalStore.Find | historical_store.py:835-843 | the first row with the value, none exactly when no row has it |
| HistoricalStore.HistoricalDatabase.InsertWithAudit | historical_store.py:67-75 | both rows go in, or neither |
| HistoricalStore.HistoricalDatabase.RegisterDocumentRepresentation | historical_store.py:487-579 | result and tables after a registration |
| HistoricalStore.HistoricalDatabase.ClaimPromotionBlockers | historical_store.py:833-939 | the blockers that UnblockedIff characterises |
| HistoricalStore.HistoricalDatabase.ReviewAClaim | historical_store.py:941-1024 | result and tables after a review, blocked promotions included |
| HistoricalStore.HistoricalDatabase.RegisterRow | historical_store.py:406-485 | result and tables after a plain registration |
| HistoricalStore.HistoricalDatabase.ProposeAClaim | historical_store.py:679-715 | result and tables after a proposal |
| HistoricalStore.HistoricalDatabase.AddClaimEvidence | historical_store.py:717-779 | result and tables after a citation |
| HistoricalStore.HistoricalDatabase.ResolveADiscrepancy | historical_store.py:1026-1073 | result and tables after a resolution |
| HistoricalLaws.UnblockedIff | historical_store.py:833-939 | nothing blocks exactly when the claim is not flagged, or has a usable type list, a document, and a captured representation of such a type on it |
| HistoricalLaws.RunsKeep | historical_store.py:487-1073 | over every run from an empty store: constraints hold, a flagged CANONICAL claim has its captured representation, every status is that of the latest review or PROPOSED, and evidence cites its own document |
| HistoricalLaws.PromotionGated | historical_store.py:957-973 | a promotion goes through only with its gate met; a refused one leaves every table but the audit log alone |
| HistoricalLaws.ReviewKeeps | historical_store.py:941-1024 | a review, accepted, blocked or refused, keeps all of that |
| HistoricalLaws.RepresentationKeeps | historical_store.py:487-579 | so does a registration of a representation |
| HistoricalLaws.ProposeKeeps | historical_store.py:679-715 | so does a new claim, which nothing has reviewed |
| HistoricalLaws.CiteKeeps | historical_store.py:717-779 | so does new evidence |
| HistoricalLaws.ResolveKeeps | historical_store.py:1026-1073 | so does a resolved discrepancy |
| HistoricalLaws.PlainKeeps | historical_store.py:406-485 | so does any plain registration |
| HistoricalTerms.RegisteredIff | historical_store.py:406-485 | a plain registration goes through exactly for one of the seven tables and a row the schema admits; it adds that row and one audit line and nothing else |
| HistoricalTerms.RepresentationIff | historical_store.py:487-579 | a representation is registered exactly when state, locator, digest, length and raw flag are consistent, its document exists and its row is admitted; every column is as described |
| HistoricalTerms.ProposedIff | historical_store.py:679-715 | a claim is proposed exactly when its row is admitted; every column is as claimed, the status PROPOSED |
| HistoricalTerms.CitedIff | historical_store.py:717-779 | evidence is added exactly in one of three roles, from a representation of its own document if from any, and when its row is admitted; every column is as cited |
| HistoricalTerms.ReviewedIff | historical_store.py:941-1024 | a review goes through exactly for one of four decisions with reviewer and reason, on a claim that exists, with its gate met if it promotes; VALIDATE, PROMOTE_CANONICAL, REJECT and QUARANTINE make the claim VALIDATED, CANONICAL, REJECTED and QUARANTINED, nothing else of it changes but the time of promotion, and review row and audit line say so |
| HistoricalTerms.RefusedReview | historical_store.py:957-973 | a promotion is blocked exactly when the gate of an existing claim is not met, and then one audit line is all that is added; any other refusal changes nothing |
| HistoricalTerms.ResolvedIff | historical_store.py:1026-1073 | a discrepancy is resolved or closed exactly when it exists, with resolver and text; only its status, resolution and time change |
| HistoricalTerms.LineAdmitted | historical_store.py:67-75 | the audit line of an operation is always accepted: its number is one more than the greatest so far |
| HistoricalTerms.AdmittedIff | historical_store.py:107-257 | a row is admitted exactly with the columns of its table, values of their kinds, its checks passed, key and description not taken, and every reference NULL or leading to a row |
| HistoricalTerms.KeysSay | historical_store.py:107-257 | in a store that meets its constraints no two rows share a key, nor what a representation or alias describes besides, table by table |
| HistoricalTerms.ReferencesSay | historical_store.py:107-257 | every reference of every table is NULL or leads to a row |
| HistoricalTerms.ChecksSay | historical_store.py:107-257 | in a store that meets its constraints statuses, states and roles are among those named, digests are 64 long, and an artifact is raw exactly when captured, with digest and length |
| StoreBundle.TopologicalOrder | historical_store_bundle.py:17-33 | every foreign key leads to a table written earlier |
| StoreBundle.OrderedKeeps | historical_store_bundle.py:48-63 | an export holds the rows of its table in strictly ascending key order |
| StoreBundle.RowAdmitted | historical_store_bundle.py:195-212 | every row of an export is admitted when its turn comes |
| StoreBundle.TargetsPresent | historical_store_bundle.py:195-212 | with all its foreign-key targets already in |
| StoreBundle.RoundTrip | historical_store_bundle.py:172-232 | export then reconstruct succeeds for every store that meets its constraints and re-exports the identical bundle |
| StoreBundle.ReachableRoundTrip | historical_store_bundle.py:172-232 | in particular for every store the operations can reach |
| StoreBundle.ReconstructExact | historical_store_bundle.py:172-232 | the bundles that can be reconstructed are exactly the exports of stores that meet their constraints |
| StoreBundle.RoundTripKeepsGate | historical_store_bundle.py:172-232 | the promotion gate and the evidence rule survive reconstruction |
| StoreBundle.CountsSuffice | historical_store_bundle.py:185-193 | the twelve counted tables being empty means all fifteen are |
| StoreBundle.ReconstructInto | historical_store_bundle.py:172-232 | the nested loops agree with the specification; a refused row rolls everything back |

## Left out

- Signatures, SHA-256, JSON: signature checks are predicates, digests an injective function, encoders have an exact reader; noncanonical bytes of a Rust journal entry count as a torn file.
- Identifiers in the Rust journals: `ValidId` counts characters where the source counts UTF-8 bytes, and knows ASCII spaces and control characters only.
- Directory handling: lock files, markers, permissions, symbolic links, temporary names, and gaps in journal file numbers; a journal is the sequence of its numbered files.
- Coordinator.FencingCoordinator.ClaimNonce: is outside the anchored runs, which use the anchored operations only, as the source demands of an anchored root.
- committed_response without a host, network fencing, the TLS serving loop and the replay fence: no further state.
- Fork-witness policy: the quorum over a published bundle is a predicate that yields the evidence digest.
- verify_review: a predicate of the whole request. `consume_inner` tests its report once more after the write; the report always carries the same value, so that test is not a branch of the model.
- CheckpointService.ClientHoldsServiceChain: assumes a service pinned at an empty genesis, as the store's constructor demands.
- SpendRuns.GapsAreInterrupted: excludes the unwitnessed spend (`consume_review`), which leaves records no witness entry stands behind.
- Witness: the in-memory witness and `observe` are not modelled; the latter only reports replayed fields.
- Reconciliation: identifiers are numbers because only their order is used; extra keys of a candidate, timestamps as text and the constant fields of the report are not modelled. All rejections of a single candidate are one error.
- Generations: directory paths inside commit identifiers, stray temporary directories and receipts are not modelled.
- GenerationRaces.RacesKeep: the reads of one operation's checks are one event, as are all the renames of one staging; the audit file is not part of it.
- Recovery: retained failed attempts and the text of recovery receipts are not modelled; a receipt is kept or not.
- Checkpoint: schema migration is inside the readers, the audit file is not modelled, a target path is taken to hold no glob characters, and live optimizer state is never empty. Training is any change of the live parts.
- CheckpointLaws.HeadNeverLegacy: assumes generations with optimizer state and no refused legacy load that leaves a part behind, the two cases in which it fails being stated beside it.
- HistoricalSchema: SQLite's type conversions and NULL primary keys are refused rather than modelled; migrations, indexes and triggers are left out (no operation updates or deletes audit rows).
- HistoricalStore.Register: sources, documents, ingest runs, entities, aliases, discrepancies and their claims may be any row the schema admits, which covers what the operations insert.
- StoreBundle: the sort order of keys is an injective position on the real line; after reconstruction rows stand in key order, so "latest review" by insertion is a property of the original store only.
- Semantic snapshots, atomic bundle files, claim bundles: reading and formatting.
- State machine, orchestrator, preflight, authority, release authority, deployment and deletion gates, attestation, historical capture, network fencing, publishing tools, the neural model and its training: finite tables, field comparisons or no decidable contract.
