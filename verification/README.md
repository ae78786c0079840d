# Verified models of the Idenqa core

This project states and proves what the hard parts of Idenqa promise: that ciphertext
referenced by accepted evidence is never lost, that corroborated identity facts really
rest on independent sources, that a key-rewrap sweep which reports completion has covered
what it says, and that the audit chain, the upload validator, model dispatch, grants,
experiences, scopes and acceptance records keep their invariants over every run and every
input. `dafny verify dfyconfig.toml` checks everything.

## The parts

**Evidence uploads.** `Upload` and `Reconciliation` are the two aggregates with all their
transitions, each with the exact condition under which it succeeds. `Protocol` puts uploaders, recovery workers, an orphan sweeper and a clock
over one durable store and one object store. Every database transaction and every
object-store call is one event. Between any two events an actor may stall, crash, or act on
a stale reading; a write may take effect and still be reported as failed. `ProtocolSafety`
holds the inductive invariant and its preservation event by event, `ProtocolSteps` what each
transaction demands and leaves, `ProtocolRuns` the theorems about whole runs,
`ProtocolAccepted` what they accept, `ProtocolStranded` what becomes of obligations of superseded
attempts, `ProtocolWitness` two concrete runs, `OrphanAge` why the minimum orphan age is the
shortest safe one, and `OrphanPage` the sweeper's page loop.

An acceptance is two events: the transaction reads the clock under its row locks (`Lock`,
internal/authority/postgres/upload_acceptance.go:84-92), and at any later time it retains its
pending obligation and commits (`Commit`, internal/evidence/postgres/upload_store.go:359-389).
Nothing bounds the time between the two. A commit is *safe* when its object is stored and no
worker is deleting it at that moment; a *run* is an interleaving whose commits are all safe.
Committing while the lease runs, or before any worker ever claimed the obligation, is safe
(`PromptCommitsMakeARun`), and safety is exactly what an acceptance needs
(`CommitKeepsItsObjectExactly`).

Assumptions: one monotone application clock (readings carried by commands may be older
than the clock, never newer); object versions are never reused; the provider stamps a
stored object within five minutes of the application clock; a definite commit error means
that nothing was committed, an unknown outcome means either; an object-store delete takes
effect at its own event or never, so one that timed out does not land later (the if-direction
of `CommitKeepsItsObjectExactly` rests on this); one tenant, since every repository is
tenant-scoped. Other transitions of an upload are not held back by the row
lock of an open acceptance; the version check then refuses its commit.

**Identity corroboration.** `Lineage` says what corroboration means on the graph of shared
lineage roots. `UnionFind`, `Linking` and `Voting` are the loops of `Evaluate` — path
halving on an array, linking through owners, the vote per component, the tally — and
`Evaluation` is the whole method with its theorems. `Decimal` proves that comparing
validated decimals as text is comparing them as numbers. `Text` is byte order and sorting.

**Key rewrap.** `Rewrap` is one bounded batch against a provider, a tenant directory and
an adapter that may answer anything within their contracts: objects of `lo` are present
throughout, objects of `hi` may come and go. `Sweepers` is any number of workers committing
batches by compare-and-swap, `SweeperRecords` what their row and audit record, `SweeperWitness`
two concrete runs of them.

**Smaller cores.** `AuditChain`, `UploadBody`, `Dispatch`, `Grants` with `GrantReads`,
`Experience`, `Scope` and `Acceptance`. Hashes, signatures and reference syntax are parameters. No hash is assumed
injective: where two chains could differ under one hash, the lemmas name the records that
would have to collide. A receiver is assumed to commit plaintext once per
redemption and only after it was produced and verified, as its contract says.

## What turned out not to hold

- The lease check and the pending obligation do not by themselves protect an accepted object.
  An acceptance that commits late, after a worker claimed its obligation, deleted its object
  and put the obligation back, is accepted without an object: `OvertakenAcceptanceMayCommit`
  is such a run, `CommitKeepsItsObjectExactly` the exact condition.
- An unresolved obligation left by an earlier attempt of a later-accepted upload need not ever
  be settled: `StrandedObligationIsReachable` is a run that strands one.
  `SupersededSettlesExactly` says when such an obligation can still be settled — its own
  uploader has not finished, or the worker holding its claim is already deleting — and
  `SupersededObjectRemovedExactly` when its object can still go.
- A rewrap batch that fails after it entered a tenant and before it finished an object of
  that tenant commits a cursor that means "tenant exhausted". `RefusedObjectIsNeverRewrapped`
  is, for any object, a run of a sweeper over that object alone which completes and has
  rewrapped nothing; `RefusedEntryIsSkipped` obtains the two batches of that run from
  `Process`, against a provider that refuses during the first and has recovered in the second.
  `CoverageExactly` and `CompletedAccountsForEveryObject` give the exact condition,
  `SureEntriesCover` one on the world.
- The compare-and-swap does not compare the status, so a completed sweep can turn to failed:
  `CompletedRowMayReopen`, exactly when `CompletedReopensExactly` says.
- A redemption whose plaintext a receiver committed need not end in success, although a
  released destination is not to be classified as a failure (internal/evidence/access.go:302-304):
  if recording the success fails, a retry that is denied ends it as denied.
  `ReleasedMayBeDenied` is such a run for every grant; `ReleasedEndsOtherwiseExactly` says that
  it can happen exactly as long as the success is not recorded.
- A revoked experience version can be live again, exactly when another version is neither a
  draft nor revoked: `RevokedVersionReturnsExactly`.
- Published is not served: saving a draft takes a live version out of service
  (`PublishedMayBeUnserved`), and a rollback serves a version beside a newer draft
  (`ServedBesideNewerDraft`). `ServedVersusPublished` gives the condition.
- Records after the last checkpoint of an audit export are unprotected:
  `SignedPrefixIsAllThatCounts` says exactly which record lists its checkpoints accept.

## Model

| member | source | states |
|---|---|---|
| Upload.TransitionSound | internal/evidence/upload.go:374-513 | none of the five transitions revalidates, yet each keeps the whole restore-time invariant, advances the version by one, never moves time back, changes no identity field and leaves no terminal state |
| Upload.SucceedsExactly | internal/evidence/upload.go:374-513 | each of the five transitions succeeds if and only if version, time, state, attempt, lease and, for an acceptance, evidence, placement, byte count, digest and media type are the demanded ones; version conflicts and expiry are reported exactly then |
| Upload.EffectExactly | internal/evidence/upload.go:374-513 | what each transition leaves: the claimed lease is the attempt timeout cut off at the expiry, a failed attempt is issued again or expires, a rejection keeps its reason |
| Upload.HistoryInvariant | internal/evidence/upload.go:624-658 | after any history of commands the state is valid, its version counts the commands, time never went back |
| Upload.TerminalIsLast | internal/evidence/upload.go:407-513 | accepted, rejected and expired are absorbing: no command succeeds after them |
| Upload.AcceptedIsDeclared | internal/evidence/upload.go:434-466 | in every accepted history the accepted asset repeats the evidence, placement, digest and media type declared at issue, with as many bytes as declared |
| Upload.AcceptedAttemptClaimedTwoVersionsEarlier | internal/evidence/upload.go:434-466 | an upload accepted at version V was accepted inside the lease of the very claim presented at V-2 |
| Upload.AcceptedReplayWindow | internal/evidence/upload_preflight.go:66-107 | against an accepted upload preflight never claims again and replays exactly for V and V-2 with matching metadata |
| Upload.PreflightProceedsExactly | internal/evidence/upload_preflight.go:66-107 | against any intent preflight claims if and only if length, media type and digest are the declared ones and the claim is allowed; every refusal has its cause |
| Reconciliation.OpenedExactly | internal/evidence/reconciliation.go:67-102 | an obligation is opened exactly for a current attempt, pending, available neither before the lease ends nor before it was written |
| Reconciliation.RecoveryClaimedExactly | internal/evidence/reconciliation.go:169-190 | recovery claims exactly an available obligation or one whose claim ran out, one version and one claim further, for the timeout |
| Reconciliation.RetriedExactly | internal/evidence/reconciliation.go:192-206 | exactly a claimed obligation is put back, available after the delay |
| Reconciliation.ResolvedExactly | internal/evidence/reconciliation.go:208-222 | exactly an unresolved obligation is resolved, as retained or deleted |
| ProtocolRuns.EventKeeps | internal/authority/upload_acceptance_service.go:99-317 | every event of every actor, an acceptance if it is safe when it commits, keeps the invariant that ties leases, claims, obligations, assets and stored versions together |
| ProtocolAccepted.AcceptedAssetIsDeclared | internal/evidence/postgres/upload_store.go:298-425 | in every interleaving, safe or not, the asset of an accepted upload repeats its evidence, placement, digest and media type |
| ProtocolAccepted.AssetsAreAccepted | internal/evidence/postgres/upload_store.go:298-425 | in every run an asset is that of an accepted upload whose declaration it repeats |
| ProtocolAccepted.AcceptedByMatchingCommit | internal/evidence/postgres/upload_store.go:298-425 | an upload becomes accepted only by a commit with the declared byte count, which adds exactly this asset |
| ProtocolSteps.WriteExactly | internal/authority/upload_acceptance_service.go:160-167 | the write-ahead insert opens an obligation only where the attempt has none, and is reported as done only if the stored one is that of this object, pending |
| ProtocolSteps.LockExactly | internal/authority/postgres/upload_acceptance.go:84-92 | an acceptance opens if and only if it is allowed for the claimed attempt and the clock is inside lease and lifetime |
| ProtocolSteps.CommitExactly | internal/evidence/postgres/upload_store.go:298-425 | it commits if and only if it is still allowed, the evidence has no asset and the obligation is pending for this object; upload, asset and obligation change together |
| ProtocolSteps.DiscardExactly | internal/authority/upload_acceptance_service.go:224-270 | where a discarding uploader goes, depending on whether its obligation was written and its delete reported |
| ProtocolSteps.ReleaseExactly | internal/authority/upload_acceptance_service.go:290-317 | giving up rejects exactly for a classified reason inside the lease and otherwise releases the attempt, only for the claim held |
| ProtocolSteps.JudgeExactly | internal/evidence/reconciliation_service.go:85-122 | a worker retains exactly for an acceptance of this attempt with this object, deletes exactly without acceptance and asset, and otherwise retries |
| ProtocolSteps.RecoveringExactly | internal/evidence/reconciliation_service.go:58-83 | a worker holds exactly the claimed obligation it stored, and a failed read is retried |
| ProtocolSteps.FencedExactly | db/query/evidence_reconciliation.sql:34-44 | a worker's result is written if and only if version and claim are those it holds and the transition is legal |
| ProtocolSteps.ReferencedExactly | db/query/evidence_reconciliation.sql:64-80 | a version is unprotected exactly when no asset names it and no obligation other than a deleted one does |
| ProtocolRuns.PromptCommitsMakeARun | internal/authority/postgres/upload_acceptance.go:84-92 | any interleaving whose acceptances commit while their lease runs, or before any worker claimed their obligation, is a run |
| ProtocolRuns.PromptAcceptancesKeepTheirObjects | internal/evidence/upload.go:434-466 | in any interleaving whose acceptances commit while their lease runs, or while their obligation's claim counter is zero, no accepted object is ever lost |
| ProtocolRuns.CommitKeepsItsObjectExactly | internal/evidence/postgres/upload_store.go:298-425 | however late it commits, an acceptance's object survives every continuation if and only if it is stored and no worker is deleting it at the commit |
| ProtocolWitness.OvertakenAcceptanceMayCommit | db/query/evidence_reconciliation.sql:46-56 | a run in which the obligation is pending again, the object is gone, and the acceptance may commit |
| ProtocolRuns.AcceptedObjectIsNeverDeleted | internal/evidence/reconciliation_service.go:85-122 | in every run the exact version referenced by an accepted upload stays stored and referenced ever after, and its attempt's obligation retains it |
| ProtocolRuns.DeletedVersionIsNeverReferenced | internal/authority/upload_acceptance_service.go:160-270 | a version deleted by anyone is referenced by no asset before or after, in any state of the run |
| ProtocolRuns.DispositionsAreTruthful | internal/evidence/reconciliation.go:169-222 | in every state of a run, retained means accepted by this attempt with this exact version; deleted means this version is gone and nothing accepts it |
| ProtocolRuns.CondemnableIsNeverReferenced | internal/evidence/orphan_discovery.go:19-26 | the minimum orphan age suffices: a version old enough and unreferenced when asked about is past its lease, and no state of the run, earlier or later, references it |
| OrphanAge.SafeAgeExactly | internal/evidence/orphan_discovery.go:24-26 | the minimum orphan age is the shortest safe one: at an age, everything a check finds unreferenced is referenced by no asset in any state of any run, if and only if that age is at least the minimum |
| OrphanAge.YoungerMayBeAccepted | internal/evidence/orphan_discovery.go:53-62 | a run in which a version one microsecond younger, found unreferenced by a check, is accepted afterwards |
| ProtocolRuns.CondemnedVersionCannotBeAccepted | internal/evidence/orphan_discovery.go:95-117 | what the sweeper condemns is accepted in no state of the run |
| ProtocolStranded.SupersededSettlesExactly | internal/evidence/reconciliation_service.go:85-122 | in every reachable state an unresolved obligation of a superseded attempt can still be settled if and only if its own uploader knows of it and has not finished, or the worker holding its claim is deleting its object or recording that |
| ProtocolStranded.SupersededObjectRemovedExactly | internal/authority/upload_acceptance_service.go:224-270 | its stored object can still disappear if and only if its uploader may discard it, a worker of the attempt is deleting it, or a sweeper has condemned it |
| ProtocolStranded.JudgeRetries | internal/evidence/reconciliation_service.go:99-110 | whatever it has read of the upload, a worker of a superseded attempt sees a conflict and retries |
| ProtocolWitness.StrandedObligationIsReachable | internal/evidence/reconciliation_service.go:99-105 | a run after which an obligation is never settled and its object never removed |
| OrphanPage.DiscoverPage | internal/evidence/orphan_discovery.go:72-127 | the page loop reports exactly the owned, old, unreferenced items it deleted; the counters add up; a failure keeps the cursor and names the item it stopped at |
| OrphanPage.RemovedExactly | internal/evidence/orphan_discovery.go:95-123 | each item reported deleted among those examined occurs once, every other one never |
| OrphanPage.PageDeletesOnlyDeadVersions | internal/evidence/orphan_discovery.go:94-117 | when the answers of a page are taken along a run, every version the loop asks to delete, reported or not, is referenced in no state of that run |
| UnionFind.HalvingKeepsForest | internal/identity/evaluation.go:187-193 | path halving changes no root and keeps the forest acyclic |
| UnionFind.Root | internal/identity/evaluation.go:187-193 | the walk ends at the root of its start and leaves the partition as it was |
| UnionFind.Link | internal/identity/evaluation.go:198-199 | linking merges exactly the two classes and keeps the forest acyclic |
| Linking.LinkShared | internal/identity/evaluation.go:183-203 | after the linking loop two records have one root exactly when a chain of records sharing lineage roots joins them |
| Text.AtMostExactly | internal/identity/evaluation.go:221-223 | the text order decides at the first difference, a prefix before its extensions |
| Voting.Vote | internal/identity/evaluation.go:205-214 | every class is recorded, and a class is in conflict exactly when it holds two values |
| Voting.Tally | internal/identity/evaluation.go:215-220 | the count of a value is the number of unconflicted classes that carry it |
| Voting.BackersAreSupporters | internal/identity/evaluation.go:204-220 | that count is the number of connected components unanimous for the value |
| Voting.AgreementSeen | internal/identity/evaluation.go:224-228 | no conflict and at most one counted value: exactly when all eligible records carry one value |
| Evaluation.Filter | internal/identity/evaluation.go:144-168 | the filter keeps exactly the eligible records and lists each of their identifiers |
| Evaluation.Evaluate | internal/identity/evaluation.go:139-234 | the finding is the one that the graph definition demands, in every branch, for every input |
| Evaluation.SatisfiedExactly | internal/identity/evaluation.go:224-233 | "satisfied" exactly when input is complete, something is eligible, every eligible text is "true" or "false" as expected, all values agree and there are enough components |
| Evaluation.NotSatisfiedExactly | internal/identity/evaluation.go:169-228 | a value mismatch exactly when complete and some eligible text is not the expected boolean's, conflicting values exactly when otherwise two values occur |
| Evaluation.InconclusiveOtherwise | internal/identity/evaluation.go:139-168 | anything else is inconclusive, and exactly the eligible identifiers are listed when the input is complete |
| Evaluation.AgeExactly | internal/identity/evaluation.go:144-168 | an age bound admits exactly the otherwise eligible records younger than that many seconds |
| Evaluation.SatisfiedHasDisjointSources | internal/identity/evaluation.go:137-143 | a satisfied finding rests on at least the minimum number of eligible records with pairwise disjoint lineage roots and one value |
| Evaluation.FindingIgnoresOrder | internal/identity/evaluation.go:144-233 | the whole finding depends neither on the order of the records nor on map iteration order |
| Evaluation.BridgeAddsNoIndependence | internal/identity/evaluation.go:137-139 | adding an eligible record that shares a lineage root with an eligible one never raises the number of independent sources |
| Evaluation.DecimalsAgreeAsNumbers | internal/identity/evaluation.go:208-212 | on validated decimals, agreement of values as texts is agreement as numbers |
| Decimal.CanonicalSound | internal/identity/value.go:71-79 | the canonical form of any matching text is accepted, is its own canonical form and denotes the same rational |
| Decimal.AcceptedUnique | internal/identity/value.go:52-55 | two accepted decimals denote the same rational exactly when their texts are equal |
| Decimal.CanonicalDecides | internal/identity/value.go:71-79 | on every text of the pattern, equality of canonical forms decides equality of the rationals |
| Decimal.RenderInjective | internal/identity/value.go:23 | a text matches the decimal pattern in one way only |
| Decimal.MatchesExactly | internal/identity/value.go:23 | the pattern: an optional sign, up to 32 digits without a leading zero, up to 18 digits after a dot |
| Rewrap.Process | internal/keyrewrap/keyrewrap.go:433-499 | the batch loop ends; its counters add up within the batch size, and rewrapped counts exactly the logged objects that the provider changed when asked, skipped those it found current; its log holds each stable object between its cursors once and nothing else; completed leaves nothing beyond; an error class names what failed, and a skipped tenant one whose first listing or rewrap can fail; a cancelled start commits nothing |
| Rewrap.CountersFollowAnswers | internal/keyrewrap/keyrewrap.go:488-492 | a provider that finds nothing current skips nothing, one that finds everything current rewraps nothing |
| Rewrap.CoverageExactly | internal/keyrewrap/keyrewrap.go:444-452 | the committed end bounds what was done exactly unless the batch failed on entering a tenant that holds stable objects |
| Rewrap.QuietBatchIsExact | internal/keyrewrap/keyrewrap.go:433-499 | with nothing coming or going, the objects done are exactly those between the cursors, and as many as the batch counted |
| Rewrap.SureEntriesCover | internal/keyrewrap/keyrewrap.go:460-487 | where no first listing and no first rewrap of a tenant with stable objects can fail, every batch covers what lies between its cursors |
| Rewrap.RefusedEntryIsSkipped | internal/keyrewrap/keyrewrap.go:444-487 | two calls of the batch loop over one object, the first against a provider that refuses it, the second against one that has recovered: the second starts past the object, reports completion, and neither touched it |
| Rewrap.RewrapTenantClass | internal/keyrewrap/keyrewrap.go:591-635 | never more than the limit, each object at most once, the count exactly that of the objects the provider changed when asked, success below the limit means that every stable object of the tenant was attempted, and an error means that a listing or a rewrap of the tenant failed |
| Sweepers.StepKeeps | internal/keyrewrap/postgres/store.go:130-245 | every load, new generation, batch, crash and compare-and-swap commit keeps the row consistent with the audit of its generation |
| SweeperRecords.BeginExactly | internal/keyrewrap/postgres/store.go:130-181 | in every run, beginning with an epoch yields a row of that epoch: unchanged, audit included, if the row had it, and otherwise the next generation, running from the start with zero counters and all earlier audits kept |
| SweeperRecords.CommitExactly | internal/keyrewrap/postgres/store.go:183-245 | a commit writes if and only if generation, epoch and cursor are those that were read, and then the row takes the batch's end, status, error and counts and the audit its entry |
| SweeperRecords.GenerationsHaveOneEpoch | internal/keyrewrap/postgres/store.go:130-245 | in every run generations are numbered without gaps, all batches of a generation carry its one epoch, and consecutive generations have different ones |
| SweeperRecords.CountersAreObjects | internal/keyrewrap/postgres/store.go:211-226 | in every run the durable counters count the distinct objects changed, those found current and the failed batches, and status and error are those of the last batch |
| Sweepers.CommittedBatchesFormOneChain | internal/keyrewrap/keyrewrap.go:241-252 | with any number of sweepers the committed batches of each generation form one contiguous cursor chain ending at the durable cursor |
| Sweepers.CompletedAccountsForEveryObject | internal/keyrewrap/keyrewrap.go:349-406 | in a completed generation a committed batch did a stable object exactly when no committed batch failed on entering its tenant, and what a committed batch did was rewrapped in this generation |
| Sweepers.CompletedWithoutSkipsIsTotal | internal/keyrewrap/keyrewrap.go:349-406 | completed without such a failure means that every stable object was rewrapped in this generation |
| Sweepers.ProcessedIsDistinctObjects | internal/keyrewrap/postgres/store.go:211-226 | the durable processed counter is the number of distinct objects of the generation's committed batches, and equals rewrapped plus skipped |
| Sweepers.CompletedReopensExactly | internal/keyrewrap/postgres/store.go:212-219 | a completed row can leave completion within its generation if and only if a worker in flight read it, at the cursor where it completed, before it did |
| SweeperWitness.RefusedObjectIsNeverRewrapped | internal/keyrewrap/keyrewrap.go:349-406 | for any object a run of one sweeper over it commits those two batches: the row is completed and nothing was rewrapped in any generation |
| SweeperWitness.CompletedRowMayReopen | internal/keyrewrap/postgres/store.go:212-219 | a run in which one worker completes and another may still turn the row to failed |
| AuditChain.Verify | internal/audit/chain.go:97-126 | the loops accept exactly the exports that are chained, attested and in checkpoint order, and report the head |
| AuditChain.AppendAllChained | internal/audit/chain.go:46-57 | any sequence of appends succeeds exactly on valid facts and yields a chain |
| AuditChain.AppendedTellsFacts | internal/audit/chain.go:46-57 | every appended record carries the six fields of its own fact, at its own place |
| AuditChain.RecordsFixFacts | internal/audit/chain.go:46-57 | fact lists that append to one record list are equal |
| AuditChain.HeadFixesFacts | internal/audit/chain.go:46-57 | equal heads of two appended chains mean equal facts, unless named records collide |
| AuditChain.SignedAnywhereIsVerified | internal/audit/chain.go:70-77 | any sequence of appends, signed at any of its records, is accepted |
| AuditChain.AppendedAndSignedIsVerified | internal/audit/chain.go:70-77 | any sequence of appends, signed at its head, is accepted |
| AuditChain.CheckpointFixesPrefix | internal/audit/chain.go:108-117 | two verified exports that agree on a checkpoint's position and hash have identical records up to it, exactly unless two of those records at one position have different bodies and one hash |
| AuditChain.HeadFixesChain | internal/audit/chain.go:135-149 | equal record lists have equal heads, and equal heads mean equal lists, lengths included, unless the heads or two records at one position collide |
| AuditChain.SignedExactly | internal/audit/chain.go:70-77 | a checkpoint is signed exactly for a named tenant and key, a digest and a stamped time, over the head's own sequence and hash |
| AuditChain.VerifiedMeans | internal/audit/chain.go:97-126 | every record of a verified export is numbered, joined, complete and hashed, every checkpoint of this tenant, within the chain, over its record's hash and accepted by a trusted key, checkpoints in order |
| AuditChain.VerifiedPrefixWasSigned | internal/audit/chain.go:97-126 | if the keys signed only heads of one history, a verified export carries that history up to its last checkpoint, unless it holds a forged checkpoint or a colliding record |
| AuditChain.UnsignedTailMayBeCut | internal/audit/chain.go:101-117 | an export cut to n records still verifies exactly when n reaches its last checkpoint |
| AuditChain.SignedPrefixIsAllThatCounts | internal/audit/chain.go:101-117 | with other records in its place an export verifies whenever they are chained and keep the prefix of its last checkpoint, and only then unless one of them collides with a signed record at its position |
| AuditChain.UnsignedTailIsAccepted | internal/audit/chain.go:97-117 | every chain signed before its end is an export whose tail can be cut unnoticed |
| UploadBody.ValidateSignature | internal/evidence/upload_body.go:157-181 | the peek decides the file signature and consumes nothing |
| UploadBody.SignedExactly | internal/evidence/upload_body.go:157-181 | the bytes that open a JPEG and a PNG |
| UploadBody.UploadReader.Read | internal/evidence/upload_body.go:65-117 | each read emits the next bytes of the body, never past the declared length; terminal errors and validation are sticky and truthful, and over a well-behaved source exactly the mismatch there is |
| UploadBody.UploadReader.Finalise | internal/evidence/upload_body.go:135-155 | the verdict at the boundary: validated only with nothing trailing and the declared digest; over a well-behaved source the length mismatch, the digest mismatch or validation, exactly as the body has it |
| UploadBody.UploadReader.Result | internal/evidence/upload_body.go:121-133 | a result exists exactly for a validated stream and states its whole length and digest |
| UploadBody.Consume | internal/evidence/upload_body.go:43-155 | for every content, every chunking, every failure and every sequence of buffer sizes: a prefix within the limit is emitted, success means the whole signed content with length and digest, errors are true; over a well-behaved source the result is the one that signature, length and digest of the content determine |
| Dispatch.StepKeeps | internal/model/postgres/request.go:163-266 | claim, recovery, call, completion, lost answers and crashes keep one holder per attempt and room for at most one call |
| Dispatch.AtMostOneCall | internal/model/execution.go:60-93 | over all runs the external executor is called at most once per attempt |
| Dispatch.OneResultForAll | internal/model/execution.go:66-93 | all callers that obtain a result asked with the registered digest and obtain the stored one; exactly one call was made, and the result is its answer, or uncertain if it had none |
| Dispatch.StoredResultIsTheAnswer | internal/model/execution.go:75-93 | a stored result, returned or not, is the answer of the one call of its attempt |
| Dispatch.StepsExactly | internal/model/postgres/request.go:163-266 | what claiming, completing, failing to complete and crashing leave, report lost or not |
| Dispatch.AnswerCanBeRecovered | internal/model/execution.go:60-74 | a run, for any request and answer, in which the completion's report is lost and another caller recovers the answer without a second call |
| Dispatch.StoredResultStays | internal/model/postgres/request.go:237-266 | a stored result never changes |
| Dispatch.AbandonedClaimNeverDispatches | internal/model/execution.go:22-34 | a claim whose holder is gone is never dispatched again and stays pending |
| Grants.StepKeeps | internal/evidence/access.go:183-346 | every step of issuers, revokers and readers keeps uses, outcomes, releases and quarantines consistent |
| Grants.UsesAreDistinctRedemptions | internal/evidence/grant.go:178-198 | over all runs a grant's uses equal its distinct claimed redemptions, never exceed the maximum, and all lie in its window and belong to its runner |
| Grants.OutcomesAreJustified | internal/evidence/access.go:240-319 | success is recorded only after a receiver committed plaintext of the asset's digest, whatever was produced, and integrity failure only after durable quarantine |
| Grants.ReleasedEndsOtherwiseExactly | internal/evidence/access.go:288-319 | in every reachable state a redemption whose plaintext was committed can still end other than in success if and only if its success is not recorded |
| Grants.ReleasedMayBeDenied | internal/evidence/access.go:204-236 | for every grant, a run that releases its plaintext and ends the redemption as denied |
| Grants.OutcomeIsFinal | internal/evidence/grant.go:259-267 | a redemption has at most one terminal outcome |
| Grants.RevocationIsFinal | internal/evidence/grant.go:190-198 | after revocation no new redemption of the grant starts |
| GrantReads.IssueExactly | internal/evidence/grant.go:101-152 | a grant is issued exactly unused, unrevoked, for 1 to 32 uses within at most an hour |
| GrantReads.ClaimExactly | internal/evidence/grant.go:178-188 | a new identifier consumes a use if and only if the runner is the grant's, the time in its window, the grant unrevoked and a use left; otherwise the refusal is recorded |
| GrantReads.ReplayExactly | internal/evidence/access.go:213-226 | a repeated identifier consumes nothing and yields the recorded outcome to the runner it was claimed for, nobody else |
| GrantReads.ReleaseExactly | internal/evidence/access.go:255-307 | plaintext is committed exactly when its digest is the asset's and nothing was committed for the identifier; of another digest nothing is, and quarantine follows |
| GrantReads.QuarantineIsLeftExactly | internal/evidence/access.go:291-319 | a reader in quarantine leaves it by a crash, by blocking the asset, which ends as integrity failure, or by failing to, which ends as failed |
| GrantReads.RecordExactly | internal/evidence/access.go:322-346 | a finishing reader records its own outcome where none is recorded, and nothing else |
| GrantReads.MaximumIsReachedExactly | internal/evidence/grant.go:178-188 | every grant has a run that claims all its uses, after which no claim consumes another |
| GrantReads.EveryOutcomeIsReachable | internal/evidence/access.go:183-319 | every outcome can be recorded for every grant, integrity failure by plaintext of any other digest |
| Experience.PlanKeeps | internal/experience/lifecycle.go:44-148 | applying any plan keeps the aggregate and its revision table consistent |
| Experience.StepKeeps | internal/experience/service.go:236-293 | with any number of commands in flight, the expected revision fences every write to the state its command saw, gate included |
| Experience.OutcomeExactly | internal/experience/lifecycle.go:24-148 | for every operation exactly when it applies, when it repeats itself and why it is refused |
| Experience.AppliedExactly | internal/experience/lifecycle.go:44-148 | in every run an applied command leaves exactly this aggregate and these revision states |
| Experience.PublishedRevisionIsTheAggregates | internal/experience/lifecycle.go:24-148 | in every run a revision is published exactly when the aggregate is unrevoked and has it as its published version; the approved version is none or the latest |
| Experience.LiveWasApproved | internal/experience/service.go:255-264 | no version goes live without an earlier explicit approval of it |
| Experience.ServedVersusPublished | internal/experience/postgres/store.go:256-270 | a version is served exactly when it is published and the last applied operation was a publication or a rollback |
| Experience.PublishedMayBeUnserved | internal/experience/lifecycle.go:44-59 | a run after which a published version is not served |
| Experience.ServedBesideNewerDraft | internal/experience/lifecycle.go:125-148 | a run after which a version is served although a newer draft is open |
| Experience.OnlyRollbackEndsRevocation | internal/experience/lifecycle.go:125-148 | from a revoked aggregate exactly an applied rollback leads out, never straight back to the revoked version |
| Experience.RevokedVersionReturnsExactly | internal/experience/lifecycle.go:143-146 | in every reachable state a revoked version can be live again if and only if some other version is neither a draft nor revoked |
| Experience.RevokedVersionMayReturn | internal/experience/lifecycle.go:125-148 | a run in which a revoked version is live again |
| Experience.RevokedVersionMayBeGone | internal/experience/service.go:255-264 | a run after which a revoked version is never served again |
| Scope.ParseRoundTrip | internal/access/scope.go:426-463 | every pair of valid segments parses back from its text |
| Scope.ValidExactly | internal/access/scope.go:426-463 | valid texts are exactly two names of at most 64 characters around one colon, a star standing for either in a pattern |
| Scope.MatchesExactly | internal/access/scope.go:182-191 | a pattern matches a permission exactly when each half is a star or the same name |
| Scope.Resolve | internal/access/scope.go:305-345 | resolution succeeds exactly for valid, distinct patterns that all match something, and yields the sorted set of matched registered permissions |
| Scope.Allows | internal/access/scope.go:416-424 | the binary search answers membership of a valid permission |
| Scope.ResolvedAllowsExactly | internal/access/scope.go:182-191 | a resolved grant allows exactly the registered permissions that some requested pattern matches |
| Scope.ResolutionIgnoresOrder | internal/access/scope.go:305-345 | the grant does not depend on the order of the registry or of the patterns |
| Scope.RestoreGrant | internal/access/scope.go:357-403 | a snapshot restores exactly when its patterns and permissions are valid, distinct and cover each other |
| Scope.ResolvedRestores | internal/access/scope.go:347-403 | the snapshot of a resolved grant restores, without the registry, to the same grant |
| Acceptance.ValidList | internal/acceptance/provider.go:355-422 | the shared validator loop: every entry is good and no key repeats |
| Acceptance.Validate | internal/acceptance/provider.go:205-221 | the verdict is valid, invalid or incomplete exactly as the quantified definition says, a metric included where evidence must be complete |
| Acceptance.WellFormedExactly | internal/acceptance/provider.go:205-422 | a record is not invalid exactly when every field and every list entry is one of those allowed, by name, number and reference, and no list repeats a key |
| Acceptance.AcceptedExactly | internal/acceptance/provider.go:259-288 | an accepting record validates exactly when every required gate passes, every required role approves after the run and the risks are tolerable, with no other check or role in it |
| Acceptance.VerdictForgetsOrder | internal/acceptance/provider.go:205-221 | reordering the lists of a record, or the references of a check, does not change the verdict |
| Acceptance.DigestForgetsOrder | internal/acceptance/provider.go:230-253 | the normal form that is digested does not depend on the order of checks, references, risks, approvals or metrics |
| Acceptance.NormalFormExactly | internal/acceptance/provider.go:230-253 | two valid records have one normal form if and only if they are reorderings of each other |

## Left out

- The actors of `Protocol`, `Sweepers`, `Dispatch`, `Grants` and `Experience` are steps on values, not classes: a theorem about every interleaving quantifies over their runs, which a method body cannot express; what is not captured is the statement order inside one step.
- Liveness of recovery, of grants and of sweeps: only what can and cannot happen is proved, not that it eventually does.
- Counter overflow: versions, attempts, uses, sequences and generations are unbounded numbers, except where an aggregate checks a bound itself.
- Cryptography, key wrapping, JSON encoding, PostgreSQL locking and row-level tenant isolation; times are microseconds and every instant is UTC unless a model says otherwise.
- The rewrap backoff clock and epoch observation: a sweeper may load the state at any time, and an epoch is an opaque text.
- OrphanPage.DiscoverPage: the key and version grammar of owned objects is a verdict carried by each item, because it is identifier syntax.
- Acceptance.Validate: token, digest, commit and reference syntax and the scalar sections are opaque verdicts, because they are field-by-field syntax.
- OrphanPage.PageDeletesOnlyDeadVersions: takes the state in which each reference check was answered as given; the page loop is not itself a sequence of protocol events.
- The other value types of identity values, normalisation transformations and subject handling in internal/identity.
- Service permission checks, delivery, key custody, fraud, admission, review, managed tenants, configuration, command-line tools and the client libraries: single-branch validation or wiring that would add only easy members.
