# A verified model of the HEKATE runtime

HEKATE keeps an append-only ledger of events. The current state is the fold of that
ledger through one guarded step function, and several services plan batches of events
and commit them against the revision they planned on. This project models that core in
Dafny and proves what the services rely on: the stored projection is always the replay
of the ledger, background Sleep consumes every observation once, the batches the
integration, completion and Sleep services plan are the ones the projector accepts, and
the budget loops end where they should.

How the project is laid out:

- `Model`, `Prelude`, `Ordering`, `Selection`, `Evidence`, `Deliberation`, `Lookup`: entities,
  text helpers, sorting, lists filled in turn, the normal form of evidence, Position and
  conflict rules.
- `Projector`: the guards of every modelled event kind and the step function, as
  functions on values; `CurrentState`: the same projector as classes that update their
  maps in place, proved to do exactly what the step function says.
- `LedgerRecords`: what every accepted ledger guarantees about candidates, criteria and claims.
- `Ledger`, `WriterRace`: the commit contract, recovery, and any number of racing writers.
- `SleepSeeds`, `SleepBatch`, `SleepDeliberation`, `SleepProtocol`: seed windows, batch
  planning, candidate validation, and racing Sleep coordinators.
- `MemoryIntegration` (the service), `IntegrationHistory`, `IntegrationAccept`,
  `IntegrationExact` (exactly when its plans can be made), `IntegrationFrame`,
  `CandidateLifecycle`, `PositionLifecycle`, `MemoryLifecycle`.
- `Completion`, `CompletionAccept`, `CompletionExact`, `Operations`, `OperationRaces`, `ConflictIndex`.
- `PromptBudget`, `PromptRenderer`, `ContextSnapshot`.
- `Transition`, `Services`: status records, and the services as classes that load the
  store, plan and commit; their contracts say when a call succeeds and what it leaves.
- `Witnesses`: concrete ledgers for which a promise fails, or a plan can be made.

Abstractions. Identifiers are opaque numbers; where the runtime relies on a fresh UUID
the lemma that needs it says so. SHA-256, JSON decoding and case folding are the function
values of `Env`, about which nothing is assumed, but that `LedgerRecords.ClaimsHold` lets
case folding ignore white space around a text, as `src/core/evidence.rs:61-67` does;
serialized lengths are function parameters. An event's kind and decoded payload are one `Body`; a payload that does not
decode is `Malformed`. Protocols are state machines whose actions are the loads, plans,
commits and crashes of each party, so a statement over all action lists is a statement
over every interleaving. `commit_batch` is one atomic step with the contract the storage
port implies: the batch is appended and the projection replaced only if the revision
still fits.

Where the code and a plausible promise part:

- The plan for withdrawing a Position keeps the Position's confidence and the projector
  asks for the candidate's: the event is accepted exactly when they are equal
  (`IntegrationAccept.PlannedPositionAccepted`; a refused one is in
  `Witnesses.WithdrawalRefused`).
- A Position that replaced another one can never be withdrawn: the lifecycle rule for a
  Position kept in place asks that it supersede nothing, and a withdrawal keeps what the
  Position supersedes. Such a proposal can be neither verified nor materialized, and the
  projector refuses it (`IntegrationExact.SuccessorNotWithdrawn`; a ledger on which nothing
  else stands against the withdrawal is in `Witnesses.SuccessorStays`). A withdrawal can be
  planned exactly for a Position that supersedes nothing and meets the other conditions
  (`IntegrationExact.PositionExactly`).
- The plan for a Memory revision does not check that its actor is not the model, and the
  projector does: accepted exactly for other actors
  (`IntegrationAccept.PlannedRevisionAccepted`; a ledger with both outcomes is in
  `Witnesses.RevisionByModelRefused`).
- A withdrawn Position becomes active again exactly when an establishing event reuses its
  identifier (`PositionLifecycle.PositionEnds`; a ledger is in
  `Witnesses.WithdrawnReactivated`).
- The size loop of a context snapshot can run out of rounds although dropping more would
  help: it succeeds exactly when the rounds it needs are at most eight
  (`ContextSnapshot.EnoughRounds`). When each item that has to go is seen at the first
  measurement, that is one round an item and two to four to settle: up to four items
  always work and seven or more never do (`ContextSnapshot.FewDropsSucceed`,
  `ContextSnapshot.SevenDropsFail`).
- Recording the start of an operation names no expected revision and is not guarded, and
  two processes may execute the same operation on one ledger
  (`src/interfaces/cli/mod.rs:1020-1025`). Then a capability can run twice, and a verified
  operation is taken back to authorized, a move the transition table forbids
  (`OperationRaces.CapabilityRunsTwice`). A schedule of calls is safe exactly when no call
  passes the checks of an operation that another one is about to run
  (`OperationRaces.SerializationExact`); an engine that makes one call after another meets
  that (`Operations.OneCallSerialized`).

## Model

| member | source | states |
|---|---|---|
| Prelude.TrimIdempotent | src/runtime/sleep.rs:1155-1158 | trimming a trimmed text changes nothing, so text that passed the blank check stays non-blank once stored |
| Prelude.TrimMeaning | src/runtime/sleep.rs:1155-1158 | trimming leaves what stands between the white space at both ends |
| Prelude.BlankMeaning | src/runtime/sleep.rs:1103-1112 | a text is blank exactly when every character of it is white space |
| Selection.TakenOnce | src/runtime/context_builder.rs:1003-1020 | there is one list in which an item is kept exactly when it fits behind those kept before it |
| Selection.AllTaken | src/runtime/context_builder.rs:1003-1020 | when every prefix fits, that list is the whole offer |
| Evidence.NormalizeMeaning | src/core/evidence.rs:69-83 | the normal form holds, for every (event, artifact, hash) key, the reference with the earliest as-of sequence, in strictly increasing key order |
| Evidence.NormalizeSetOnly | src/core/evidence.rs:69-83 | the normal form depends only on which references occur, not on order or repetition |
| Evidence.NormalizeIdempotent | src/core/evidence.rs:69-83 | normalizing twice is normalizing once |
| Model.FingerprintMeaning | src/core/sleep.rs:142-170 | a candidate's fingerprint covers its kind, its trimmed content, and the sources and counterevidence, each in order |
| CompletionExact.FingerprintMeaning | src/core/evidence.rs:85-110 | a claim's fingerprint covers its task, its criterion and the events, artifacts and hashes of its evidence, each in order |
| Ordering.DedupIdsSet | src/runtime/sleep.rs:1265-1270 | sorting and deduplicating identifiers keeps exactly their set, strictly increasing |
| Projector.ReplayPrefix | src/runtime/projector.rs:71-77 | a prefix of an accepted ledger is accepted, and replay is the fold of the rest over it |
| Projector.ReplayCounts | src/runtime/projector.rs:347-349 | replay yields the ledger's length as revision and its event identifiers, which are distinct, as the applied list |
| CurrentState.CurrentState.Apply | src/runtime/projector.rs:79-350 | applying an event in place succeeds exactly when the step function accepts it and leaves exactly its result; a refused event changes nothing |
| CurrentState.CurrentState.ApplyPositionIntegration | src/runtime/projector.rs:721-933 | a Position event that passes the guards in turn changes only the Position it is about and the one it supersedes, both of them HEKATE's, on the word of somebody else, once for each candidate; a refused one changes nothing |
| CurrentState.CurrentState.StoreConflict | src/runtime/projector.rs:1101-1130 | storing a conflict updates the index of every relationship it touches and no other |
| CurrentState.CurrentState.CheckPositionIntegration | src/runtime/projector.rs:721-913 | going through the guards of an integrated Position event one by one, with early returns and a loop over the evidence, accepts exactly the events the step function accepts |
| CurrentState.CurrentState.CheckIntegrationEvidence | src/runtime/projector.rs:1723-1768 | the loop over evidence with early returns passes exactly when every reference is valid |
| CurrentState.CurrentState.ApplyClaimCreated | src/runtime/projector.rs:1183-1239 | the guards of a new claim in order accept exactly what the specification does, and store it with normalized evidence |
| CurrentState.CurrentState.ApplyMemoryRevision | src/runtime/projector.rs:1565-1721 | the guards of a Memory revision in turn accept exactly what the specification does, and store only its link |
| CurrentState.IndexRelationships | src/runtime/projector.rs:1112-1128 | the loop over relationships indexes the conflict in each, whatever the order |
| CurrentState.CurrentState.ApplySleepRun | src/runtime/projector.rs:1010-1073 | a run is started once, at the cursor and within the ledger, and ended once, with the seeds and bounds it started with; only a completion moves the cursor, to between its run's cursor and high-water mark |
| CurrentState.ReplayEvents | src/runtime/projector.rs:71-77 | the replay loop computes the fold, or stops exactly when the fold refuses |
| CurrentState.LedgerStore.Record | src/runtime/projector.rs:47-69 | loading, applying in a loop and committing has exactly the outcome and new store of the specified batch commit; an error changes nothing |
| Ledger.RecordBatchLands | src/runtime/projector.rs:47-69 | a batch is committed exactly when it is non-empty, intact, at the expected revision and accepted event by event; it lands whole and the store is consistent again |
| Ledger.CommitExactly | src/ports/storage.rs:33-39 | a commit appends its batch exactly when the batch is there and intact, the revision is the expected one and the offered projection applied the batch last at the next revision; otherwise the first of these that fails is the error |
| Ledger.RecoverExactly | src/runtime/recovery.rs:33-85 | recovery succeeds exactly when the stored projection is the replay, and then reports every pending approval and every operation in doubt; otherwise it says what differs |
| Ledger.CommitLandsOnCurrent | src/ports/storage.rs:33-39 | a commit that lands was projected from the current state, even when the writer named no expected revision |
| WriterRace.NextKeepsWorld | src/runtime/projector.rs:47-69 | every step of the race keeps the stored projection equal to the replay, and only a commit planned on the current state changes the store |
| WriterRace.CommitLandsExactly | src/runtime/projector.rs:47-69 | in the race a commit lands exactly when its batch is there and intact, nobody committed since its writer loaded, and the revision is the one it expects; otherwise the store stays as it is |
| WriterRace.RaceKeepsLedger | src/runtime/projector.rs:47-83 | under any interleaving of loads, commits and crashes of many writers the stored state is the replay, the revision is the ledger length and no event is applied twice |
| WriterRace.RaceRecovers | src/runtime/recovery.rs:33-45 | no interleaving of writers makes recovery fail, and its report is what the stored state leaves open |
| SleepSeeds.ScanSeedWindow | src/runtime/sleep.rs:1020-1057 | the window holds, in order, the observations after the cursor with a character that is not white space whose event is about them, as long as each fits behind the others; the first that does not fit ends it, and the rest, and those that do not decode, are only counted |
| SleepSeeds.SeedOfMeaning | src/runtime/sleep.rs:1103-1120 | an event decodes exactly when it records an observation that has a character other than white space and is about it; the seed is its identifier, its number and that observation |
| SleepSeeds.SeedIdsMeaning | src/runtime/sleep.rs:1020-1057 | the identifiers of the seeds between two places are those of exactly the decodable events there, each once, in ledger order |
| SleepSeeds.DecodedIsSeeds | src/runtime/sleep.rs:1091-1121 | looking observations up by identifier finds each of them once, in ledger order |
| SleepSeeds.SeedsCut | src/runtime/sleep.rs:1020-1057 | a window cut after its k-th seed is the window that ends at that seed |
| SleepSeeds.DecodeAllRecovers | src/runtime/sleep.rs:1059-1089 | the recorded seeds of a run decode back to exactly those seeds when it is resumed |
| SleepBatch.PlanNew | src/runtime/sleep_batch.rs:23-78 | a new run takes the longest prefix that fits the model, or fails with the anchors, the first observation, the configuration or the build error, in the cases the code distinguishes |
| SleepBatch.SelectRecall | src/runtime/sleep.rs:697-709 | the push-and-pop loop keeps a recalled item exactly when it is among the first twenty-four and fits the budget behind those kept before it, and counts the others |
| SleepBatch.TrimContext | src/runtime/sleep.rs:723-734 | popping recalled items ends with the longest prefix within the hard limit, and fails exactly when none is |
| SleepDeliberation.ValidateDeliberation | src/runtime/sleep.rs:1123-1263 | the loop over drafts has the outcome of judging them one after another, up to the first refusal |
| SleepDeliberation.ValidatedMeaning | src/runtime/sleep.rs:1153-1262 | candidates of an accepted deliberation are within bounds, cite only the context, keep sources and counterevidence apart, and have fingerprints new to the state and to each other |
| SleepDeliberation.CandidatesOfDrafts | src/runtime/sleep.rs:1153-1262 | the candidates come from the drafts in order, each with its kind, confidence, trimmed texts, and sources and counterevidence as ordered sets; a draft is left out exactly when it revises a Memory that is gone or proposes nothing new |
| SleepDeliberation.AcceptedExactly | src/runtime/sleep.rs:1123-1232 | a deliberation is accepted exactly when its review keeps the bounds and the context, and every draft has its texts and sources, keeps the bounds, cites the context alone without overlap, and, for a revision, names a Memory as it was recalled and a seed |
| SleepDeliberation.CompletionAccepted | src/runtime/sleep.rs:485-530 | every completion batch built from a deliberation that validates is accepted event by event: the candidates are stored as validated, the run ends at the cursor, the cursor moves there, and no other run or candidate changes |
| SleepDeliberation.DeliberationCompletesRun | src/runtime/sleep.rs:459-545 | if nobody committed in between, a validated deliberation completes the run a coordinator holds, stores its candidates and moves the cursor to the end of the run |
| SleepProtocol.ExactlyOnceSleep | src/runtime/sleep.rs:132-545 | in every reachable ledger the completed runs, concatenated, consumed each once and in ledger order exactly the events before the cursor that record, about itself, an observation with a character other than white space |
| SleepProtocol.OneRunningRun | src/runtime/sleep.rs:139-143 | however coordinators race, at most one run is running; it starts at the cursor and its high-water revision is within the ledger |
| SleepProtocol.CursorMonotone | src/runtime/projector.rs:1019-1073 | no step moves the cursor back, and only a completion moves it |
| SleepProtocol.ResumeDecodes | src/runtime/sleep.rs:1059-1089 | a recorded run always decodes in full when it is resumed |
| SleepProtocol.StartsAlone | src/runtime/sleep.rs:132-400 | while no run is running, a coordinator left alone starts one on as many of the observations after the cursor as it takes, and holds it with the place of the last one as the cursor to come |
| SleepProtocol.ResumesAlone | src/runtime/sleep.rs:139-200 | a run that a crash left behind is taken up by any coordinator left alone, to end at the place of its last seed |
| SleepProtocol.EndsAlone | src/runtime/sleep.rs:797-826 | any running run can be ended as failed, after which none is running and the cursor is where it was |
| MemoryIntegration.FirstEvidenceError | src/runtime/memory_integration.rs:970-1057 | the evidence check passes exactly when every reference does |
| IntegrationHistory.HistoryHolds | src/runtime/projector.rs:1431-1455 | in every accepted ledger stored reviews have normalized evidence and a verified one names the latest event that verified its candidate |
| IntegrationHistory.PrincipalPersists | src/runtime/memory_integration.rs:1303-1313 | with principals created once, a principal found as of an earlier revision is unchanged |
| IntegrationExact.ReviewExactly | src/runtime/memory_integration.rs:788-871 | a review can be planned exactly when a known user gives a reason for a candidate that waits for one, the candidate and its evidence stand in the ledger, and, to verify it, its proposal can be carried out |
| IntegrationExact.CandidateExactly | src/runtime/memory_integration.rs:907-1058 | a candidate passes the checks exactly when it has its texts and sources, is not from the future, keeps its fingerprint, and cites intact events up to its revision, and each reference names a cited event by then with the hash of the event or of the artifact it created |
| IntegrationExact.RevisionExactly | src/runtime/memory_integration.rs:1120-1244 | a Memory revision can be planned exactly when its target was active at the candidate's revision, is no explicit preference and has not changed since, its promotion is the expected event with the expected hash, something observed later is a source, and a replacement says something else |
| IntegrationExact.PositionExactly | src/runtime/memory_integration.rs:1279-1469 | a Position can be planned exactly when HEKATE holds no other active Position on the subject and no unresolved conflict is about it, then and now, and a Position it starts from is unchanged, active and at the expected version; one to be withdrawn must supersede nothing |
| IntegrationExact.MemoryExactly | src/runtime/memory_integration.rs:296-677 | a Memory candidate can be materialized exactly when it was verified and not materialized, its evidence is still good, and it is a new Lesson or a revision that can be planned |
| IntegrationExact.MaterializationExactly | src/runtime/memory_integration.rs:679-786 | a Position candidate can be materialized exactly when a known user asks for it, it was verified and not materialized, and its Position can be planned |
| IntegrationExact.SuccessorNotWithdrawn | src/runtime/memory_integration.rs:1393-1432 | a proposal to withdraw a Position that replaced another one can be neither verified nor materialized, and no event that does it is accepted |
| IntegrationExact.PromotionIsFound | src/runtime/memory_integration.rs:1204-1213 | a promotion that was recorded is the one a later revision of its Memory finds |
| IntegrationExact.ReviewRecorded | src/runtime/memory_integration.rs:788-891 | every planned review is accepted and leaves the candidate at the new disposition with a record of who gave which reason on which evidence, and changes nothing else of the candidates, Memories and Positions |
| IntegrationAccept.PlannedTransitionAccepted | src/runtime/memory_integration.rs:788-871 | every planned verification or rejection is accepted by the projector |
| IntegrationAccept.PlannedLessonAccepted | src/runtime/memory_integration.rs:296-467 | every planned Lesson batch is accepted event by event and adds one active Lesson with the candidate's content, confidence and sources, no subject and no predecessor, from a promoted candidate that says the same |
| IntegrationAccept.PlannedRevisionAccepted | src/runtime/memory_integration.rs:469-677 | a planned Memory revision is accepted exactly when its actor is not the model; a replacement has the proposal's trimmed text, the candidate's confidence and sources, and its target's kind and subject, and supersedes it; an expiry only ends the target |
| IntegrationAccept.PlannedPositionAccepted | src/runtime/memory_integration.rs:679-786 | a planned Position event is accepted always, except that a withdrawal is accepted exactly when the Position's confidence is the candidate's; accepted, it establishes, revises or retracts just the Position the proposal says, field by field, and links it |
| IntegrationAccept.WithdrawSound | src/runtime/memory_integration.rs:1393-1432 | a planned withdrawal meets every guard of the projector but the one on confidence |
| IntegrationFrame.FrameHolds | src/runtime/memory_integration.rs:1120-1469 | no run of reviews and materializations changes a Position that is not HEKATE's or an explicit preference, and a replacement keeps its target's kind and subject |
| LedgerRecords.CandidatesHold | src/runtime/projector.rs:256-346 | in every accepted ledger, whoever wrote it, a candidate has its texts, bounds and applied sources, is from the revision of its run, keeps its fingerprint and is unlike every other; a reviewed one has a reason and evidence that it cites and that was there by then |
| CandidateLifecycle.CandidateLife | src/runtime/projector.rs:1337-1563 | with fresh candidate identifiers a candidate is reviewed at most once, materialized at most once, only after it was verified and as its kind says, and never after it was rejected |
| CandidateLifecycle.MapsExclusive | src/runtime/projector.rs:1457-1563 | the three materialization maps hold exactly the ledger's materializations and no candidate is in two of them |
| CandidateLifecycle.ReviewedByOther | src/runtime/projector.rs:1355-1380 | whoever reviews a candidate is a known principal and not the model |
| PositionLifecycle.PositionsHold | src/runtime/projector.rs:841-932 | over runs of integrated Position events there is at most one active Position per principal and subject, every successor is one version above a superseded predecessor, no Position has two successors, and every superseded one has an active descendant |
| PositionLifecycle.PositionEnds | src/runtime/deliberation.rs:156-192 | a superseded Position stays as it is; a retracted one is active again exactly when an establishing event reuses its identifier |
| PositionLifecycle.EndedForever | src/core/integration.rs:249-268 | with fresh identifiers a Position that stopped being active never is again |
| PositionLifecycle.ChainsEnd | src/runtime/projector.rs:852-868 | chains of successors have no cycle and only their newest Position can be active |
| MemoryLifecycle.MemoriesHold | src/runtime/engine.rs:1378-1531 | however promotions, status changes, materializations and crashes interleave, a superseded Memory is not active and has one successor |
| MemoryLifecycle.EndedForever | src/runtime/engine.rs:1500-1531 | a Memory that left Active is never changed again |
| MemoryLifecycle.CallEvolves | src/runtime/engine.rs:1378-1450 | every committed call adds one Memory, replaces an active one or ends an active one |
| MemoryLifecycle.PromotionExactly | src/runtime/engine.rs:1378-1450 | a promotion lands exactly when its candidate still waits for one and its events are new; the Memory says what the candidate says, and an explicit preference supersedes the first active inference about the same subject |
| MemoryLifecycle.StatusExactly | src/runtime/engine.rs:1482-1531 | a Memory is superseded or expired by the user exactly when it is active and the event is new, with its candidate, and nothing else changes |
| MemoryLifecycle.ChainActive | src/runtime/memory_integration.rs:509-551 | in a chain of Memories only the newest can be active |
| Completion.LatestClaims | src/runtime/completion.rs:734-746 | the loop finds, for every criterion, the claim created last |
| Completion.EvaluateTaskCompletionIn | src/runtime/completion.rs:446-561 | the gate is ready exactly when every required criterion is met by its latest claim, no approval is pending and no operation is started or unknown; otherwise it lists what is missing, unreviewed, rejected and blocking, approvals and operations in order |
| CompletionExact.ReadyExactly | src/runtime/completion.rs:446-561 | the gate is ready exactly when the claim created last about each required criterion is verified, unblocked, keeps its fingerprint and rests on evidence that stands in the ledger, nothing awaits approval and nothing is in doubt |
| CompletionExact.GateLists | src/runtime/completion.rs:470-545 | a blocked gate lists exactly the required criteria without a claim, and the last claims that wait for review, were rejected or count |
| CompletionExact.BlockersListed | src/runtime/completion.rs:470-545 | every blocker listed is about a required criterion and true of it, and each criterion that is not met has one |
| CompletionAccept.PlannedCriterionAccepted | src/runtime/completion.rs:130-170 | every planned criterion is accepted |
| CompletionAccept.PlannedClaimAccepted | src/runtime/completion.rs:172-234 | every planned claim is accepted |
| CompletionAccept.PlannedClaimTransitionAccepted | src/runtime/completion.rs:355-425 | every planned verification or rejection of a claim is accepted |
| CompletionExact.CriterionExactly | src/runtime/completion.rs:130-170 | a criterion can be defined exactly when its task exists, somebody other than the model describes it, and no other criterion of the task says the same; it is kept as described |
| CompletionExact.ClaimExactly | src/runtime/completion.rs:172-234 | a claim can be made exactly when its task and criterion fit, its confidence is at most a hundred, its evidence stands and is nobody else's, and it supersedes a claim of its own kind; it is stored as made, waiting for review |
| CompletionExact.ClaimReviewExactly | src/runtime/completion.rs:355-425 | a claim can be reviewed exactly when it waits for a review, somebody other than the model gives a reason, its evidence stands, and, to verify it, there is evidence and no blocker; only its disposition changes |
| LedgerRecords.ClaimsHold | src/runtime/projector.rs:1183-1335 | in every accepted ledger, whoever wrote it, the criteria of a task say different things, and a claim is about a criterion of its task, on evidence that was there by then, keeps its fingerprint and is unlike every other; a verified one has evidence and no blocker |
| CompletionAccept.EvidenceStays | src/runtime/completion.rs:643-719 | evidence that was valid stays valid as the ledger grows with fresh artifact identifiers |
| CompletionAccept.MetStays | src/runtime/completion.rs:446-561 | a criterion that is met stays met until a newer claim is made about it |
| CompletionAccept.CompletionLandsReady | src/runtime/completion.rs:276-320 | whenever a completion lands, the gate is ready in the state just before it, the actor is not the model, and only the task's status changes |
| CompletionAccept.CompletionDecided | src/runtime/completion.rs:276-320 | a task in progress is completed by another actor than the model exactly when its gate is ready |
| Operations.RunsAtMostOnce | src/runtime/engine.rs:1596-1833 | over any schedule of racing calls with crashes between any two steps, in which no call passes the checks of an operation another one is about to run, no capability runs twice, each that ran was allowed by its policy, and approved if the policy asks for that, and each event moved each status by at most one allowed transition |
| Operations.OneCallSerialized | src/runtime/engine.rs:1596-1833 | calls made one after another are such a schedule |
| Operations.RunIsCleared | src/runtime/engine.rs:1637-1677 | a capability runs only for an operation recorded as started, never run before, and with an approved approval of its own where its policy asks for one |
| Operations.CheckedStatus | src/runtime/engine.rs:1600-1648 | an operation passes the checks exactly when it has not been started, its policy allows its intent, and it is approved if the policy asks for that; one that ended is told from one in doubt |
| Operations.ReportRecords | src/runtime/engine.rs:1683-1826 | a report leaves the operation verified, unknown or failed by the outcome, a receipt that says succeeded, unknown or failed, a verdict exactly for a confirmed or failed run, an artifact only where the capability answered, and nothing else |
| Operations.NextSafe | src/runtime/engine.rs:1533-1594 | planning, resolving, executing, crashing and foreign commits all keep the protocol's invariant |
| OperationRaces.CapabilityRunsTwice | src/runtime/engine.rs:1650-1682 | from the empty ledger, two calls that both pass the checks run the capability twice, and the second takes the verified operation back to authorized |
| OperationRaces.SerializationExact | src/runtime/engine.rs:1596-1833 | a schedule lets no call pass the checks of an operation another one is about to run if and only if nothing the calls in progress may still do, at any point of it, makes a capability run twice |
| OperationRaces.UnguardedLands | src/runtime/projector.rs:139-146 | records of intents, operations, approvals, receipts, effects and artifacts land, whatever was recorded before, exactly when their events are new and distinct |
| ConflictIndex.DecisionKeepsIndex | src/runtime/engine.rs:627-660 | the batch of a validated decision keeps the relationship's index exact and leaves terminal conflicts alone |
| ConflictIndex.DecisionPositions | src/runtime/engine.rs:560-660 | a validated decision stores its Positions as proposed, leaves each Position that one of them supersedes superseded, and changes no other |
| ConflictIndex.DecisionConflict | src/runtime/engine.rs:600-660 | a decision stores the conflict it proposes as proposed, and changes no other |
| ConflictIndex.DecisionKinds | src/runtime/engine.rs:2017-2041 | each Position and conflict of a decision is recorded by the kind of event its place in its lifecycle asks for |
| ConflictIndex.JudgmentMeaning | src/runtime/deliberation.rs:75-294 | a decision validates exactly when it answers the actor on this context with its texts and bounds, cites what was shown, its Positions are HEKATE's and the actor's and follow the lifecycle, and its conflict is between the two, continues a stored one step by step or opens at the first, and says what its status needs |
| ConflictIndex.IndexHolds | src/runtime/projector.rs:1101-1130 | once the relationship was created without conflicts, its index is duplicate-free and holds exactly the open and negotiating conflicts in every later state |
| ConflictIndex.TerminalForever | src/runtime/deliberation.rs:280-294 | a conflict that was resolved or accepted never changes again |
| PromptBudget.EstimateExact | src/runtime/prompt_budget.rs:6-17 | the saturating estimate is the exact cost cut off at the largest 64-bit value |
| PromptBudget.Prepare | src/runtime/prompt_budget.rs:19-103 | the request keeps the longest optional prefix that fits and passes the later check; a budget error means that no prefix fits |
| PromptBudget.FitsExactly | src/runtime/prompt_budget.rs:79-84 | despite saturation, a prefix fits exactly when the true sum is within the context limit |
| PromptBudget.CheckPreparedExact | src/runtime/prompt_budget.rs:107-114 | the check before sending accepts exactly the requests whose true total is within the limit and whose report is right |
| PromptRenderer.RequireEvidence | src/runtime/prompt_renderer.rs:175-201 | the dependency loop moves support from optional to required as specified, or fails |
| PromptRenderer.StateEvidenceRequired | src/runtime/prompt_renderer.rs:170-202 | the evidence of every rendered Position and conflict, and the current event, is required |
| PromptRenderer.RendersExactly | src/runtime/prompt_renderer.rs:60-215 | a thought is rendered exactly when every event its state records rest on is required from the start, carried by an optional item, or a relevant event; an optional item becomes required only when a state record rests on an event it carries, and with all its evidence |
| PromptRenderer.SnapshotOrder | src/runtime/prompt_renderer.rs:105-156 | with a snapshot the optional items are the recalls it shows by falling score, equal scores in their order, then the other recent items from the newest, the recalls left over, and older context, without what a recall already covers |
| PromptRenderer.EventOrder | src/runtime/prompt_renderer.rs:156-185 | without one they are all recalls by falling score and then the relevant events from the newest, but for the observation itself and what was recalled |
| PromptRenderer.AllowedEvidenceIds | src/adapters/primary_model.rs:553-573 | the allowed identifiers are exactly the recent, recalled and snapshot ones, without duplicates when the recent ones have none |
| PromptRenderer.FirstForeignCitation | src/adapters/primary_model.rs:725-756 | a thought is refused exactly when it cites an event outside the supplied context |
| PromptRenderer.EvidenceClosed | src/adapters/primary_model.rs:256-271 | however many optional items are dropped, the request's evidence is that of the required part and the kept prefix, contains that of every rendered Position and conflict, and bounds what an accepted thought cites |
| PromptRenderer.ScopeKeepsState | src/adapters/primary_model.rs:256-271 | scoping the context to the request keeps every rendered Position and conflict |
| ContextSnapshot.SectionState.DropForHardLimit | src/runtime/context_builder.rs:1022-1046 | one item is dropped in place: the last recall, else the end of the middle, else the first active item; it fails exactly when nothing is left |
| ContextSnapshot.SelectByBudget | src/runtime/context_builder.rs:1003-1020 | the push-and-pop loop keeps a candidate exactly when it fits the budget behind those kept before it, and counts the others; it keeps all when every prefix fits |
| ContextSnapshot.BuildSnapshot | src/runtime/context_builder.rs:97-197 | the eight-round loop computes the specified draft and the snapshot it stands for; its sections are the candidates taken in turn less what went for the hard limit, in order, and exactly the candidates taken in turn when their settled size is within the limit |
| ContextSnapshot.BuiltInOrder | src/runtime/context_builder.rs:97-197 | a returned snapshot holds what the candidates fill the sections with in turn, less recalls from the last one, then the middle from its end, then other active items from the first one |
| ContextSnapshot.AllOffered | src/runtime/context_builder.rs:1003-1020 | when every prefix of both offers fits, the sections start with all candidates and none dropped |
| ContextSnapshot.FailureReason | src/runtime/context_builder.rs:175-197 | a build fails only when the rounds run out or when a snapshot with nothing left to drop is over the limit |
| ContextSnapshot.SuccessIsFixedPoint | src/runtime/context_builder.rs:134-190 | a snapshot that is returned reports its own serialized length, within the hard limit |
| ContextSnapshot.NothingLost | src/runtime/context_builder.rs:1003-1046 | in both sections, what is held and what was dropped add up to what was offered |
| ContextSnapshot.SettlesInFour | src/runtime/context_builder.rs:134-197 | when nothing is dropped for the hard limit the size is stable within four of the eight rounds |
| ContextSnapshot.EnoughRounds | src/runtime/context_builder.rs:134-197 | the loop succeeds exactly when the rounds needed to shrink and to settle are at most those it has |
| ContextSnapshot.AnchorsAndSources | src/runtime/context_builder.rs:885-968 | a snapshot keeps its anchors as they were built, reports the bytes, counts and limit of its own sections, and refers, in order, to exactly the events its anchors, its items and the profile rest on |
| ContextSnapshot.FewDropsSucceed | src/runtime/context_builder.rs:134-197 | when as many items have to go as each first measurement shows, the loop succeeds exactly when that number and the rounds to settle are at most eight: always up to four items, never from seven on |
| ContextSnapshot.SevenDropsFail | src/runtime/context_builder.rs:194-197 | with seven items of a hundred bytes to drop the loop gives up although two more rounds would do |
| Witnesses.WithdrawalRefused | src/runtime/projector.rs:838-840 | a replayed ledger on which a reviewed withdrawal with another confidence is planned by the service and refused by the projector |
| Witnesses.WithdrawnReactivated | src/runtime/projector.rs:841-851 | a replayed ledger, all of whose Position events are integrated, in which a withdrawn Position is active again after an establishing event reuses its identifier |
| Witnesses.SuccessorStays | src/runtime/deliberation.rs:156-192 | a replayed ledger on which a withdrawal cannot be planned although its Position is HEKATE's, active, unchanged, undisputed and as certain as the candidate, because it replaced another one |
| Witnesses.RevisionByModelRefused | src/runtime/memory_integration.rs:469-677 | a replayed ledger on which the expiry of a Memory is planned for the user and accepted, and planned for the model and refused |
| Witnesses.LessonLands | src/runtime/memory_integration.rs:296-467 | a replayed ledger on which a Lesson is planned and accepted |
| Transition.TaskRecord.Transition | src/core/transition.rs:14-37 | a task is moved on exactly when the table allows it, and is left alone otherwise |
| Transition.OperationRecord.Transition | src/core/transition.rs:73-105 | an operation is moved on exactly when the table allows it, one stage or more ahead, and is left alone otherwise |
| Transition.OperationLife | src/core/transition.rs:73-105 | an operation never returns to a status it left, and makes at most five transitions |
| Transition.CompletionIsFinal | src/core/transition.rs:14-71 | a task is completed only from in progress and a run only from running or suspended, and exactly the terminal statuses have no way out |
| Services.MemoryIntegrationService.Review | src/runtime/memory_integration.rs:788-891 | a review succeeds exactly when it can be planned, commits exactly the planned event, and is recorded as it was given |
| Services.MemoryIntegrationService.MaterializeMemory | src/runtime/memory_integration.rs:296-677 | a materialization commits exactly the planned batch, fails after planning only for a revision by the model, and leaves the Lesson or the change of a Memory the candidate proposes, field by field |
| Services.MemoryIntegrationService.MaterializePosition | src/runtime/memory_integration.rs:679-786 | a materialization commits exactly the planned event, fails after planning only when the confidences differ, and makes of the Positions what the candidate proposes, field by field |
| Services.CompletionGate.CreateClaim | src/runtime/completion.rs:172-234 | creating a claim succeeds exactly when it can be planned, and stores the claim as it was made |
| Services.CompletionGate.ReviewClaim | src/runtime/completion.rs:355-444 | reviewing a claim succeeds exactly when it can be planned, and changes its disposition alone |
| Services.CompletionGate.CompleteTask | src/runtime/completion.rs:276-320 | replaying, evaluating the gate, moving the task on and committing completes the task exactly as planned, with the gate ready before |
| Services.OperationEngine.ExecuteOperation | src/runtime/engine.rs:1596-1833 | one uninterrupted call, whatever other calls are in progress, is five actions of the operation protocol in a row; it runs the capability exactly when the operation may start and the call's events are new, and leaves the operation verified for a confirmed outcome, failed for a failure and unknown otherwise, with the receipt, verdict and artifact that go with it and nothing else changed |
| Services.OperationEngine.ResolveApproval | src/runtime/engine.rs:1533-1594 | resolving an approval succeeds exactly when it is pending, its operation may still be moved on and both events are new; it settles the approval in the user's name, authorizes or fails its operation and changes nothing else, and is one action of the operation protocol |
| Services.MemoryEngine.Perform | src/runtime/engine.rs:1378-1531 | a promotion or status change lands exactly when it can be planned and its events are accepted, and leaves the Memory the candidate says or the status asked for, and nothing else changed |

## Left out

- Initiatives, Focus resolution, identity versions, goals, runs, attempts, working states, decisions, commitments and responses: their events are `Unmodelled` bodies, which count in the revision and the applied list and carry the verdict of their guards; they would mostly add records that are inserted and looked up.
- Timestamps, the validity dates of Memories, error-message texts and cognitive traces.
- The building of a context snapshot's anchors and candidate items with the validation of their sources: the size loop takes them as given, and a source reference is only its event.
- Semantic recall and its scores: recalled items are arbitrary inputs, filtered as the code filters them.
- The foreground lease, task scheduling and logging: a coordinator may be preempted or crash at any step instead.
- The parsing of model output: a parsed thought and a parsed deliberation are arbitrary inputs; only the evidence checks on them are kept.
- SQLite, transports and adapters: storage enters as the atomic commit of `Ledger.CommitBatch`, and the repair of as-of revisions that older databases need is not part of this model.
- SleepProtocol.ExactlyOnceSleep: the load and the commit inside one projector call of a coordinator are one step here, because the call names the expected revision; `WriterRace` splits them.
- Operations.RunsAtMostOnce: the load and the commit of one record are one step; a record that another writer overtakes in between fails, which is a crash of its call.
- PositionLifecycle.PositionsHold: Position events that decisions record are not part of these runs, because the projector does not guard them.
