/** Entities, events and the projected state of the runtime. Identifiers are
    opaque numbers; timestamps are not modelled. */
module Model {
  import opened Prelude
  import opened Ordering

  type PrincipalId = nat
  type RelationshipId = nat
  type ObservationId = nat
  type TaskId = nat
  type PositionId = nat
  type ConflictId = nat
  type IntentId = nat
  type OperationId = nat
  type ApprovalId = nat
  type ReceiptId = nat
  type VerificationId = nat
  type ArtifactId = nat
  type EventId = nat
  type MemoryCandidateId = nat
  type MemoryId = nat
  type SleepRunId = nat
  type CandidateId = nat
  type CriterionId = nat
  type ClaimId = nat

  const MAX_SLEEP_SEEDS: nat := 12
  const MAX_SLEEP_RECALL: nat := 24
  const MAX_SLEEP_CANDIDATES: nat := 8
  const MAX_CANDIDATE_SOURCES: nat := 16
  const MAX_SLEEP_TEXT: nat := 2_000
  const SLEEP_SEED_BUDGET_BYTES: nat := 32 * 1024
  const SLEEP_RECALL_BUDGET_BYTES: nat := 32 * 1024
  const SLEEP_CONTEXT_HARD_LIMIT_BYTES: nat := 80 * 1024

  const POSITION_INTEGRATION_SCHEMA := "hekate.position_integration.v1"
  const MEMORY_REVISION_SCHEMA := "hekate.memory_revision.v1"

  // ---------------------------------------------------------------- entities

  datatype PrincipalKind = User | Hekate | Unit
  datatype Principal = Principal(id: PrincipalId, kind: PrincipalKind)

  datatype Relationship = Relationship(
    id: RelationshipId, participants: seq<PrincipalId>, unresolvedConflicts: seq<ConflictId>)

  datatype Observation = Observation(id: ObservationId, actor: PrincipalId, content: string)

  datatype TaskStatus = Planned | InProgress | Blocked | Completed | Cancelled
  datatype Task = Task(id: TaskId, title: string, status: TaskStatus)

  datatype Stance = Support | Oppose | Uncertain | Neutral
  datatype PositionStatus = Active | Superseded | Retracted
  datatype Position = Position(
    id: PositionId, principal: PrincipalId, subject: string, stance: Stance, version: nat,
    status: PositionStatus, confidence: nat, supersedes: Option<PositionId>, reasons: seq<string>,
    evidence: seq<EventId>, reconsideration: seq<string>)

  datatype ConflictStatus = Open | Negotiating | Resolved | AcceptedDisagreement
  datatype Conflict = Conflict(
    id: ConflictId, subject: string, participants: seq<PositionId>, status: ConflictStatus,
    revision: nat, reasons: seq<string>, evidence: seq<EventId>, reconsideration: seq<string>,
    questions: seq<string>, resolution: Option<string>)

  predicate Unresolved(status: ConflictStatus) {
    status.Open? || status.Negotiating?
  }

  datatype Intent = Intent(id: IntentId, capability: string, operation: string)
  datatype OperationStatus =
    Planned | Authorized | Started | Succeeded | Failed | Unknown | Verified | Disputed
  datatype Operation = Operation(
    id: OperationId, intent: IntentId, status: OperationStatus, approval: Option<ApprovalId>)
  datatype ApprovalStatus = Pending | Approved | Denied | Expired
  datatype Approval = Approval(
    id: ApprovalId, intent: IntentId, operation: OperationId, status: ApprovalStatus,
    resolvedBy: Option<PrincipalId>)
  datatype Receipt = Receipt(id: ReceiptId, operation: OperationId, status: OperationStatus)
  datatype EffectStatus = Verified | Failed | Disputed
  datatype EffectVerification = EffectVerification(
    id: VerificationId, operation: OperationId, status: EffectStatus)
  datatype Artifact = Artifact(id: ArtifactId, contentHash: string, provenance: EventId)

  datatype MemoryKind = ExplicitPreference | InferredPreference | VerifiedFact | Episode | Lesson
  datatype MemoryCandidateStatus = Candidate | Promoted | Rejected | Superseded | Expired
  datatype MemoryCandidate = MemoryCandidate(
    id: MemoryCandidateId, kind: MemoryKind, content: string, subject: Option<PrincipalId>,
    status: MemoryCandidateStatus, confidence: nat, sources: seq<EventId>,
    supersedes: Option<MemoryCandidateId>)
  datatype MemoryStatus = Active | Superseded | Expired
  datatype Memory = Memory(
    id: MemoryId, candidate: MemoryCandidateId, kind: MemoryKind, content: string,
    subject: Option<PrincipalId>, status: MemoryStatus, confidence: nat, sources: seq<EventId>,
    supersedes: Option<MemoryId>)

  // ---------------------------------------------------------------- evidence and claims

  datatype EvidenceRef = EvidenceRef(
    event: EventId, artifact: Option<ArtifactId>, sourceHash: string, asOf: nat)
  datatype Disposition = NeedsValidation | Verified | Rejected
  datatype Criterion = Criterion(id: CriterionId, task: TaskId, description: string, required: bool)
  datatype Claim = Claim(
    id: ClaimId, task: TaskId, criterion: CriterionId, disposition: Disposition, confidence: nat,
    evidence: seq<EvidenceRef>, blocker: Option<string>, fingerprint: string, asOf: nat,
    supersedes: Option<ClaimId>)
  datatype ClaimTransition = ClaimTransition(
    claim: ClaimId, task: TaskId, criterion: CriterionId, previous: Disposition,
    disposition: Disposition, reason: string, evidence: seq<EvidenceRef>)

  // ---------------------------------------------------------------- sleep and integration

  datatype SleepRunStatus = Running | Completed | Interrupted | Failed
  datatype SleepRun = SleepRun(
    id: SleepRunId, status: SleepRunStatus, highWater: nat, cursorBefore: nat,
    cursorAfter: Option<nat>, seeds: seq<EventId>)
  datatype CandidateKind =
    Memory | MemoryRevision | Position | Conflict | Relationship | Identity | Goal | Association
  datatype IntegrationCandidate = IntegrationCandidate(
    id: CandidateId, run: SleepRunId, kind: CandidateKind, disposition: Disposition, asOf: nat,
    content: string, rationale: string, sources: seq<EventId>, counter: seq<EventId>,
    confidence: nat, fingerprint: string)

  datatype PositionOperation =
    | Establish(subject: string, stance: Stance, reasons: seq<string>, reconsideration: seq<string>)
    | Revise(position: PositionId, expectedVersion: nat, stance: Stance, reasons: seq<string>,
             reconsideration: seq<string>)
    | Withdraw(position: PositionId, expectedVersion: nat, reason: string)
  datatype PositionProposal = PositionProposal(schema: string, operation: PositionOperation)
  datatype MemoryOperation =
    | Replace(target: MemoryId, expectedEvent: EventId, expectedHash: string, replacement: string)
    | Expire(target: MemoryId, expectedEvent: EventId, expectedHash: string)
  datatype MemoryProposal = MemoryProposal(schema: string, operation: MemoryOperation)

  datatype IntegrationVerification = IntegrationVerification(
    candidate: CandidateId, verificationEvent: Option<EventId>, previous: Disposition,
    disposition: Disposition, actor: PrincipalId, reason: string, evidence: seq<EvidenceRef>,
    asOf: nat)
  datatype IntegrationMaterialization = IntegrationMaterialization(
    candidate: CandidateId, memoryCandidate: MemoryCandidateId, memory: MemoryId,
    sources: seq<EventId>, counter: seq<EventId>, evidence: seq<EvidenceRef>, fingerprint: string,
    asOf: nat)
  datatype PositionAction = Establish | Revise | Withdraw
  datatype PositionMaterialization = PositionMaterialization(
    candidate: CandidateId, position: PositionId, positionEvent: EventId,
    verificationEvent: EventId, action: PositionAction, prior: Option<Position>,
    sources: seq<EventId>, counter: seq<EventId>, evidence: seq<EvidenceRef>, fingerprint: string,
    asOf: nat)
  datatype MemoryAction = Replace | Expire
  datatype MemoryRevisionMaterialization = MemoryRevisionMaterialization(
    candidate: CandidateId, verificationEvent: EventId, target: MemoryId,
    replacement: Option<MemoryId>, expectedEvent: EventId, expectedHash: string,
    action: MemoryAction, sources: seq<EventId>, counter: seq<EventId>,
    evidence: seq<EvidenceRef>, fingerprint: string, asOf: nat)

  // ---------------------------------------------------------------- events

  datatype EntityKind =
    Principal | Observation | Task | Position | Conflict | Operation | Approval | Receipt
    | Verification | MemoryCandidate | Memory | Artifact | SleepRun | IntegrationCandidate
    | CompletionCriterion | CompletionClaim | OtherEntity
  datatype EntityRef = EntityRef(kind: EntityKind, id: nat)
  datatype SourceType = Engine | Sleep | Completion | MemoryIntegration | PositionIntegration | OtherSource

  datatype PositionEventKind = Established | Maintained | Recorded | Revised | Retracted
  datatype ConflictEventKind = Opened | Recorded | Updated | Resolved
  datatype OperationEventKind = Planned | Authorized | Started | Succeeded | Failed | StateUnknown
  datatype ApprovalEventKind = Requested | Resolved
  datatype MemoryCandidateEventKind = Created | Rejected
  datatype MemoryEventKind = Promoted | Superseded | Expired
  datatype SleepEventKind = Started | Completed | Interrupted | Failed

  /** The kind of an event together with its decoded payload. `Malformed` is a
      payload that does not decode for its kind; `Unmodelled` is a kind whose
      record this model does not hold, with the verdict of that kind's guards. */
  datatype Body =
    | PrincipalCreated(principal: Principal)
    | RelationshipCreated(relationship: Relationship)
    | ObservationRecorded(observation: Observation)
    | UserMessageReceived(message: Observation)
    | TaskCreated(task: Task)
    | TaskCompleted(completed: Task)
    | PositionEvent(positionKind: PositionEventKind, position: Position,
                    integration: Option<PositionMaterialization>)
    | ConflictEvent(conflictKind: ConflictEventKind, conflict: Conflict)
    | IntentCreated(intent: Intent)
    | OperationEvent(operationKind: OperationEventKind, operation: Operation)
    | ApprovalEvent(approvalKind: ApprovalEventKind, approval: Approval)
    | ReceiptRecorded(receipt: Receipt)
    | EffectVerified(effect: EffectVerification)
    | ArtifactCreated(artifact: Artifact)
    | CriterionDefined(criterion: Criterion)
    | ClaimCreated(claim: Claim)
    | ClaimVerified(verified: ClaimTransition)
    | ClaimRejected(rejected: ClaimTransition)
    | MemoryCandidateEvent(memoryCandidateKind: MemoryCandidateEventKind, memoryCandidate: MemoryCandidate)
    | MemoryEvent(memoryKind: MemoryEventKind, memory: Memory)
    | SleepRunEvent(sleepKind: SleepEventKind, run: SleepRun)
    | CandidateCreated(candidate: IntegrationCandidate, asOfPresent: bool)
    | CandidateVerified(accepted: IntegrationVerification)
    | CandidateRejected(refused: IntegrationVerification)
    | CandidateMaterialized(materialization: IntegrationMaterialization)
    | MemoryRevisionMaterialized(revision: MemoryRevisionMaterialization)
    | Unmodelled(guardsPass: bool)
    | Malformed

  datatype Event = Event(
    id: EventId, actor: PrincipalId, body: Body, subject: Option<EntityRef>, source: SourceType,
    sourceRef: Option<nat>, causation: Option<EventId>, correlation: Option<nat>,
    integrityHash: string)

  /** SHA-256, JSON decoding and case folding, about which nothing is assumed. */
  datatype Env = Env(
    normalize: string -> string,
    candidateDigest: (CandidateKind, string, seq<EventId>, seq<EventId>) -> string,
    completionDigest: (TaskId, CriterionId, seq<EventId>, seq<ArtifactId>, seq<string>) -> string,
    eventDigest: Event -> string,
    decodePosition: string -> Option<PositionProposal>,
    decodeMemory: string -> Option<MemoryProposal>)

  function CanonicalHash(env: Env, e: Event): string {
    env.eventDigest(e.(integrityHash := ""))
  }

  predicate IntegrityHolds(env: Env, e: Event) {
    e.integrityHash == CanonicalHash(env, e)
  }

  /** An event as the runtime builds it: its hash covers everything else. */
  function Seal(env: Env, e: Event): (sealed: Event)
    ensures IntegrityHolds(env, sealed)
  {
    assert e.(integrityHash := CanonicalHash(env, e)).(integrityHash := "") == e.(integrityHash := "");
    e.(integrityHash := CanonicalHash(env, e))
  }

  /** An event the engine records about one entity. */
  function EngineEvent(env: Env, actor: PrincipalId, id: EventId, body: Body, kind: EntityKind, entity: nat): Event {
    Seal(env, Event(id, actor, body, Some(EntityRef(kind, entity)), SourceType.Engine, None, None, None, ""))
  }

  function SourceHash(env: Env, e: Event): string {
    if e.integrityHash == "" then CanonicalHash(env, e) else e.integrityHash
  }

  function CandidateFingerprint(
    env: Env, kind: CandidateKind, content: string, sources: seq<EventId>, counter: seq<EventId>): string
  {
    env.candidateDigest(kind, Trim(content), SortIds(sources), SortIds(counter))
  }

  /** The fingerprint covers the kind, the trimmed content, and the cited events in order. */
  lemma FingerprintMeaning(
    env: Env, kind: CandidateKind, content: string, sources: seq<EventId>, counter: seq<EventId>)
    ensures exists inFavour: seq<nat>, against: seq<nat> ::
              && Sorted(NatLe, inFavour) && multiset(inFavour) == multiset(sources)
              && Sorted(NatLe, against) && multiset(against) == multiset(counter)
              && CandidateFingerprint(env, kind, content, sources, counter)
                 == env.candidateDigest(kind, Trim(content), inFavour, against)
  {
    SortIsSorted(NatLe, sources);
    SortMultiset(NatLe, sources);
    SortIsSorted(NatLe, counter);
    SortMultiset(NatLe, counter);
    hide Sort, Sorted, Trim;
    assert CandidateFingerprint(env, kind, content, sources, counter)
        == env.candidateDigest(kind, Trim(content), Sort(NatLe, sources), Sort(NatLe, counter));
  }

  predicate FingerprintMatches(env: Env, c: IntegrationCandidate) {
    CandidateFingerprint(env, c.kind, c.content, c.sources, c.counter) == c.fingerprint
  }

  // ---------------------------------------------------------------- typed proposals

  predicate ValidText(s: string) {
    !Blank(s) && Utf8Len(Trim(s)) <= MAX_SLEEP_TEXT
  }

  predicate ValidTexts(values: seq<string>) {
    1 <= |values| <= MAX_CANDIDATE_SOURCES && forall v | v in values :: ValidText(v)
  }

  function ParsePositionProposal(env: Env, content: string): Option<PositionOperation> {
    match env.decodePosition(content)
    case None => None
    case Some(PositionProposal(schema, op)) =>
      var valid :=
        match op
        case Establish(subject, _, reasons, reconsideration) =>
          ValidText(subject) && ValidTexts(reasons) && ValidTexts(reconsideration)
        case Revise(_, version, _, reasons, reconsideration) =>
          version != 0 && ValidTexts(reasons) && ValidTexts(reconsideration)
        case Withdraw(_, version, reason) =>
          version != 0 && ValidText(reason);
      if schema == POSITION_INTEGRATION_SCHEMA && valid then Some(op) else None
  }

  function ParseMemoryProposal(env: Env, content: string): Option<MemoryOperation> {
    match env.decodeMemory(content)
    case None => None
    case Some(MemoryProposal(schema, op)) =>
      if schema == MEMORY_REVISION_SCHEMA && ValidSha256Hex(op.expectedHash)
         && (op.Replace? ==> ValidText(op.replacement))
      then Some(op) else None
  }

  // ---------------------------------------------------------------- state

  datatype State = State(
    revision: nat,
    principals: map<PrincipalId, Principal>,
    relationships: map<RelationshipId, Relationship>,
    observations: map<ObservationId, Observation>,
    tasks: map<TaskId, Task>,
    positions: map<PositionId, Position>,
    conflicts: map<ConflictId, Conflict>,
    intents: map<IntentId, Intent>,
    operations: map<OperationId, Operation>,
    approvals: map<ApprovalId, Approval>,
    receipts: map<ReceiptId, Receipt>,
    effects: map<VerificationId, EffectVerification>,
    artifacts: map<ArtifactId, Artifact>,
    criteria: map<CriterionId, Criterion>,
    claims: map<ClaimId, Claim>,
    memoryCandidates: map<MemoryCandidateId, MemoryCandidate>,
    memories: map<MemoryId, Memory>,
    sleepRuns: map<SleepRunId, SleepRun>,
    sleepCursor: nat,
    candidates: map<CandidateId, IntegrationCandidate>,
    verifications: map<CandidateId, IntegrationVerification>,
    materializations: map<CandidateId, IntegrationMaterialization>,
    positionMaterializations: map<CandidateId, PositionMaterialization>,
    memoryRevisions: map<CandidateId, MemoryRevisionMaterialization>,
    applied: seq<EventId>)

  const EMPTY_STATE: State := State(
    0, map[], map[], map[], map[], map[], map[], map[], map[], map[], map[], map[], map[], map[],
    map[], map[], map[], map[], 0, map[], map[], map[], map[], map[], [])

  predicate IsModelActor(s: State, actor: PrincipalId) {
    actor in s.principals && s.principals[actor].kind.Hekate?
  }

  predicate IsReviewer(s: State, actor: PrincipalId) {
    actor in s.principals && !s.principals[actor].kind.Hekate?
  }

  /** Ledger position of an applied event, counted from one. */
  function SequenceOf(s: State, event: EventId): Option<nat> {
    match IndexOf(s.applied, event)
    case None => None
    case Some(i) => Some(i + 1)
  }
}
