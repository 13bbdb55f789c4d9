/** The guarded step function that folds the ledger into the current state. */
module Projector {
  import opened Prelude
  import opened Ordering
  import opened Model
  import opened Evidence
  import opened Deliberation
  import opened Transition

  // ---------------------------------------------------------------- tasks

  predicate SubjectIs(e: Event, kind: EntityKind, id: nat) {
    e.subject == Some(EntityRef(kind, id))
  }

  predicate TaskCompletionAccepted(s: State, e: Event, t: Task) {
    && SubjectIs(e, EntityKind.Task, t.id)
    && t.id in s.tasks
    && TransitionTask(s.tasks[t.id], TaskStatus.Completed) == Some(t)
  }

  // ---------------------------------------------------------------- Positions

  function SupersedePosition(positions: map<PositionId, Position>, prior: Option<PositionId>):
    map<PositionId, Position>
  {
    if prior.Some? && prior.value in positions
    then positions[prior.value := positions[prior.value].(status := PositionStatus.Superseded)]
    else positions
  }

  function StorePlainPosition(s: State, kind: PositionEventKind, p: Position): map<PositionId, Position> {
    var base := if kind.Revised? then SupersedePosition(s.positions, p.supersedes) else s.positions;
    base[p.id := p]
  }

  function WithdrawnPosition(prior: Position, reason: string, sources: seq<EventId>): Position {
    prior.(status := PositionStatus.Retracted,
           reasons := prior.reasons + [Trim(reason)],
           evidence := DedupIds(prior.evidence + sources))
  }

  predicate PositionMatchesProposal(env: Env, c: IntegrationCandidate, p: Position, m: PositionMaterialization) {
    match ParsePositionProposal(env, c.content)
    case None => false
    case Some(Establish(subject, stance, reasons, reconsideration)) =>
      && m.action.Establish? && m.prior.None?
      && p.subject == Trim(subject) && p.stance == stance
      && p.reasons == TrimAll(reasons) && p.reconsideration == TrimAll(reconsideration)
    case Some(Revise(position, version, stance, reasons, reconsideration)) =>
      && m.action.Revise? && m.prior.Some?
      && position == m.prior.value.id && version == m.prior.value.version
      && p.subject == m.prior.value.subject && p.stance == stance
      && p.reasons == TrimAll(reasons) && p.reconsideration == TrimAll(reconsideration)
    case Some(Withdraw(position, version, reason)) =>
      && m.action.Withdraw? && m.prior.Some?
      && position == m.prior.value.id && version == m.prior.value.version
      && p == WithdrawnPosition(m.prior.value, reason, m.sources)
  }

  predicate ArtifactMatches(s: State, r: EvidenceRef) {
    r.artifact.Some? ==>
      && r.artifact.value in s.artifacts
      && s.artifacts[r.artifact.value].provenance == r.event
      && s.artifacts[r.artifact.value].contentHash == r.sourceHash
  }

  predicate IntegrationEvidenceOk(s: State, c: IntegrationCandidate, r: EvidenceRef, asOf: nat) {
    && ValidSha256Hex(r.sourceHash)
    && r.asOf <= asOf
    && (r.event in c.sources || r.event in c.counter)
    && (match SequenceOf(s, r.event)
        case None => false
        case Some(n) => n <= r.asOf && n <= asOf)
    && ArtifactMatches(s, r)
  }

  predicate IntegrationEvidenceValid(s: State, c: IntegrationCandidate, refs: seq<EvidenceRef>, asOf: nat) {
    forall r | r in refs :: IntegrationEvidenceOk(s, c, r, asOf)
  }

  predicate PositionEnvelopeOk(e: Event, p: Position, m: PositionMaterialization) {
    && SubjectIs(e, EntityKind.Position, p.id)
    && m.position == p.id
    && m.positionEvent == e.id
    && e.source.PositionIntegration?
    && e.sourceRef == Some(m.candidate)
    && e.correlation == Some(m.candidate)
    && e.causation == Some(m.verificationEvent)
  }

  /** The candidate, its verification record and the materialization agree. */
  predicate PositionProvenanceOk(env: Env, s: State, m: PositionMaterialization) {
    && m.candidate in s.candidates
    && m.candidate !in s.positionMaterializations
    && m.candidate in s.verifications
    && var c := s.candidates[m.candidate];
    && var v := s.verifications[m.candidate];
    && c.kind == CandidateKind.Position
    && c.disposition.Verified?
    && v.disposition.Verified?
    && v.verificationEvent == Some(m.verificationEvent)
    && Normalize(m.evidence) == v.evidence
    && m.verificationEvent in s.applied
    && m.fingerprint == c.fingerprint
    && FingerprintMatches(env, c)
    && m.sources == c.sources
    && m.counter == c.counter
    && m.asOf == c.asOf
    && c.asOf <= s.revision
    && (forall id | id in c.sources + c.counter :: id in s.applied)
    && IntegrationEvidenceValid(s, c, Normalize(m.evidence), m.asOf)
  }

  predicate PositionActionOk(s: State, kind: PositionEventKind, p: Position, m: PositionMaterialization) {
    match m.action
    case Establish =>
      && kind.Established?
      && m.prior.None? && p.status.Active? && p.version == 1 && p.supersedes.None?
    case Revise =>
      && kind.Revised?
      && m.prior.Some?
      && var prior := m.prior.value;
      && prior.id in s.positions && s.positions[prior.id] == prior
      && prior.status.Active?
      && p.id != prior.id
      && p.supersedes == Some(prior.id)
      && p.principal == prior.principal && p.subject == prior.subject
      && CheckedAddU32(prior.version, 1) == Some(p.version)
      && p.status.Active?
    case Withdraw =>
      && kind.Retracted?
      && m.prior.Some?
      && var prior := m.prior.value;
      && prior.id in s.positions && s.positions[prior.id] == prior
      && prior.status.Active?
      && p.id == prior.id
      && p.supersedes.None?
      && p.status.Retracted?
      && p.version == prior.version
      && p.principal == prior.principal && p.subject == prior.subject && p.stance == prior.stance
  }

  function TargetOf(m: PositionMaterialization): Option<PositionId> {
    if m.prior.Some? then Some(m.prior.value.id) else None
  }

  predicate PositionIntegrationAccepted(
    env: Env, s: State, e: Event, kind: PositionEventKind, p: Position, m: PositionMaterialization)
  {
    && PositionEnvelopeOk(e, p, m)
    && IsReviewer(s, e.actor)
    && IsModelActor(s, p.principal)
    && PositionProvenanceOk(env, s, m)
    && var c := s.candidates[m.candidate];
    && PositionMatchesProposal(env, c, p, m)
    && p.confidence == c.confidence
    && PositionActionOk(s, kind, p, m)
    && !PositionIntegrationBlocked(env, s, p.principal, p.subject, TargetOf(m))
    && ValidPositionRevision(s, p)
    && (!m.action.Withdraw? ==> p.evidence == c.sources)
    && (m.action.Withdraw? ==> forall id | id in c.sources :: id in p.evidence)
  }

  function StoreIntegratedPosition(s: State, p: Position, m: PositionMaterialization): map<PositionId, Position> {
    var base := if m.action.Revise? then SupersedePosition(s.positions, p.supersedes) else s.positions;
    base[p.id := p]
  }

  /** An integrated Position event is about a Position of HEKATE's, which starts from one of HEKATE's. */
  lemma IntegratedOwner(
    env: Env, s: State, e: Event, kind: PositionEventKind, p: Position, m: PositionMaterialization)
    requires PositionIntegrationAccepted(env, s, e, kind, p, m)
    ensures IsModelActor(s, p.principal) && !IsModelActor(s, e.actor) && m.candidate !in s.positionMaterializations
    ensures p.id in s.positions ==> s.positions[p.id].principal == p.principal
    ensures m.action.Revise? && p.supersedes.Some? && p.supersedes.value in s.positions ==>
              s.positions[p.supersedes.value].principal == p.principal
  {
    hide PositionEnvelopeOk, PositionMatchesProposal, PositionIntegrationBlocked, Normalize, IntegrationEvidenceValid;
  }

  // ---------------------------------------------------------------- Conflicts

  predicate ConflictTouches(s: State, c: Conflict, r: Relationship) {
    exists id | id in c.participants && id in s.positions :: s.positions[id].principal in r.participants
  }

  function IndexConflict(s: State, c: Conflict, r: Relationship): Relationship {
    if !ConflictTouches(s, c, r) then r
    else if Unresolved(c.status) then
      if c.id in r.unresolvedConflicts then r
      else r.(unresolvedConflicts := r.unresolvedConflicts + [c.id])
    else r.(unresolvedConflicts := Remove(r.unresolvedConflicts, c.id))
  }

  /** Every relationship, with the conflict indexed in those it touches. */
  function IndexAll(s: State, c: Conflict): map<RelationshipId, Relationship> {
    map id | id in s.relationships :: IndexConflict(s, c, s.relationships[id])
  }

  // ---------------------------------------------------------------- operations

  function EffectOutcome(status: EffectStatus): OperationStatus {
    match status
    case Verified => OperationStatus.Verified
    case Disputed => OperationStatus.Disputed
    case Failed => OperationStatus.Failed
  }

  // ---------------------------------------------------------------- completion

  predicate CriterionAccepted(env: Env, s: State, c: Criterion) {
    && !Blank(c.description)
    && c.task in s.tasks
    && c.id !in s.criteria
    && (forall id | id in s.criteria && s.criteria[id].task == c.task ::
          env.normalize(s.criteria[id].description) != env.normalize(c.description))
  }

  predicate ClaimEvidenceOk(s: State, r: EvidenceRef, asOf: nat) {
    && ValidSha256Hex(r.sourceHash)
    && r.asOf <= asOf
    && (match SequenceOf(s, r.event)
        case None => false
        case Some(n) => n <= asOf)
    && ArtifactMatches(s, r)
  }

  function NormalizedClaim(c: Claim): Claim {
    c.(evidence := Normalize(c.evidence))
  }

  predicate ClaimAccepted(env: Env, s: State, c: Claim) {
    var evidence := Normalize(c.evidence);
    && c.task in s.tasks
    && c.criterion in s.criteria
    && s.criteria[c.criterion].task == c.task
    && c.disposition.NeedsValidation?
    && c.confidence <= 100
    && c.asOf <= s.revision
    && c.fingerprint == CompletionFingerprint(env, c.task, c.criterion, evidence)
    && (forall r | r in evidence :: ClaimEvidenceOk(s, r, c.asOf))
    && c.id !in s.claims
    && (forall id | id in s.claims :: s.claims[id].fingerprint != c.fingerprint)
    && (c.supersedes.Some? ==>
          && c.supersedes.value in s.claims
          && s.claims[c.supersedes.value].task == c.task
          && s.claims[c.supersedes.value].criterion == c.criterion)
  }

  predicate HasBlocker(blocker: Option<string>) {
    blocker.Some? && !Blank(blocker.value)
  }

  predicate ClaimTransitionAccepted(s: State, t: ClaimTransition, expected: Disposition) {
    && t.claim in s.claims
    && var c := s.claims[t.claim];
    && c.task == t.task && c.criterion == t.criterion
    && c.disposition == t.previous
    && t.previous.NeedsValidation?
    && t.disposition == expected
    && !Blank(t.reason)
    && Normalize(t.evidence) == c.evidence
    && (expected.Verified? ==> c.evidence != [] && !HasBlocker(c.blocker))
  }

  // ---------------------------------------------------------------- memories

  function PromotedStatus(status: MemoryStatus): MemoryCandidateStatus {
    match status
    case Active => MemoryCandidateStatus.Promoted
    case Superseded => MemoryCandidateStatus.Superseded
    case Expired => MemoryCandidateStatus.Expired
  }

  // ---------------------------------------------------------------- Sleep runs

  predicate SleepStartAccepted(s: State, r: SleepRun) {
    && r.id !in s.sleepRuns
    && r.status.Running?
    && r.cursorBefore == s.sleepCursor
    && r.highWater <= s.revision
    && r.cursorAfter.None?
  }

  /** A terminal record continues the running one it ends. */
  predicate SleepContinues(s: State, r: SleepRun) {
    && r.id in s.sleepRuns
    && var previous := s.sleepRuns[r.id];
    && previous.status.Running?
    && r.cursorBefore == previous.cursorBefore
    && r.highWater == previous.highWater
    && r.seeds == previous.seeds
  }

  predicate SleepRunAccepted(s: State, kind: SleepEventKind, r: SleepRun) {
    match kind
    case Started => SleepStartAccepted(s, r)
    case Completed =>
      && SleepContinues(s, r) && r.status.Completed?
      && r.cursorAfter.Some? && r.cursorBefore <= r.cursorAfter.value <= r.highWater
    case Interrupted => SleepContinues(s, r) && r.status.Interrupted? && r.cursorAfter.None?
    case Failed => SleepContinues(s, r) && r.status.Failed? && r.cursorAfter.None?
  }

  // ---------------------------------------------------------------- integration candidates

  function EffectiveCandidate(s: State, c: IntegrationCandidate, asOfPresent: bool): IntegrationCandidate {
    if c.asOf == 0 && !asOfPresent && c.run in s.sleepRuns then c.(asOf := s.sleepRuns[c.run].highWater) else c
  }

  predicate CandidateAccepted(env: Env, s: State, c: IntegrationCandidate, asOfPresent: bool) {
    && c.disposition.NeedsValidation?
    && !Blank(c.content) && !Blank(c.rationale)
    && c.sources != []
    && |c.sources| <= MAX_CANDIDATE_SOURCES && |c.counter| <= MAX_CANDIDATE_SOURCES
    && c.confidence <= 100
    && (forall id | id in c.sources :: id in s.applied && id !in c.counter)
    && (forall id | id in c.counter :: id in s.applied)
    && c.run in s.sleepRuns
    && s.sleepRuns[c.run].status.Running?
    && EffectiveCandidate(s, c, asOfPresent).asOf == s.sleepRuns[c.run].highWater
    && FingerprintMatches(env, c)
    && (forall id | id in s.candidates :: s.candidates[id].fingerprint != c.fingerprint)
  }

  predicate ProposalParses(env: Env, c: IntegrationCandidate) {
    && (c.kind == CandidateKind.Position ==> ParsePositionProposal(env, c.content).Some?)
    && (c.kind == CandidateKind.MemoryRevision ==> ParseMemoryProposal(env, c.content).Some?)
  }

  predicate CandidateTransitionAccepted(
    env: Env, s: State, e: Event, v: IntegrationVerification, expected: Disposition)
  {
    && SubjectIs(e, EntityKind.IntegrationCandidate, v.candidate)
    && e.actor == v.actor
    && (v.verificationEvent.Some? ==> v.verificationEvent.value == e.id)
    && IsReviewer(s, v.actor)
    && v.candidate in s.candidates
    && var c := s.candidates[v.candidate];
    && c.disposition == v.previous
    && v.previous.NeedsValidation?
    && v.disposition == expected
    && !Blank(v.reason)
    && v.asOf == c.asOf && v.asOf <= s.revision
    && FingerprintMatches(env, c)
    && (expected.Verified? ==> ProposalParses(env, c))
    && Normalize(v.evidence) != []
    && IntegrationEvidenceValid(s, c, Normalize(v.evidence), v.asOf)
  }

  function StoredVerification(e: Event, v: IntegrationVerification): IntegrationVerification {
    v.(verificationEvent := Some(e.id), reason := Trim(v.reason), evidence := Normalize(v.evidence))
  }

  predicate MaterializationAccepted(env: Env, s: State, e: Event, m: IntegrationMaterialization) {
    && SubjectIs(e, EntityKind.IntegrationCandidate, m.candidate)
    && m.candidate in s.candidates
    && var c := s.candidates[m.candidate];
    && c.disposition.Verified?
    && m.candidate !in s.materializations
    && CandidateFingerprint(env, c.kind, c.content, c.sources, c.counter) == m.fingerprint
    && c.kind == CandidateKind.Memory
    && m.sources == c.sources && m.counter == c.counter && m.asOf == c.asOf
    && m.candidate in s.verifications
    && s.verifications[m.candidate].disposition.Verified?
    && Normalize(m.evidence) == s.verifications[m.candidate].evidence
    && m.memoryCandidate in s.memoryCandidates
    && var mc := s.memoryCandidates[m.memoryCandidate];
    && mc.status.Promoted? && mc.kind.Lesson? && mc.content == c.content && mc.sources == c.sources
    && m.memory in s.memories
    && s.memories[m.memory].status.Active?
    && s.memories[m.memory].candidate == m.memoryCandidate
    && IntegrationEvidenceValid(s, c, Normalize(m.evidence), m.asOf)
  }

  predicate RevisionEnvelopeOk(s: State, e: Event, m: MemoryRevisionMaterialization) {
    && SubjectIs(e, EntityKind.IntegrationCandidate, m.candidate)
    && e.source.MemoryIntegration?
    && e.sourceRef == Some(m.candidate)
    && e.correlation == Some(m.candidate)
    && e.causation == Some(m.verificationEvent)
    && m.verificationEvent in s.applied
    && m.expectedEvent in s.applied
  }

  predicate RevisionProvenanceOk(env: Env, s: State, m: MemoryRevisionMaterialization) {
    && m.candidate in s.candidates
    && var c := s.candidates[m.candidate];
    && c.kind == CandidateKind.MemoryRevision
    && c.disposition.Verified?
    && m.candidate !in s.memoryRevisions
    && FingerprintMatches(env, c)
    && m.fingerprint == c.fingerprint
    && m.sources == c.sources && m.counter == c.counter && m.asOf == c.asOf
    && m.expectedEvent in c.counter
    && ValidSha256Hex(m.expectedHash)
    && m.candidate in s.verifications
    && var v := s.verifications[m.candidate];
    && v.disposition.Verified?
    && v.verificationEvent == Some(m.verificationEvent)
    && Normalize(m.evidence) == v.evidence
    && IntegrationEvidenceValid(s, c, Normalize(m.evidence), m.asOf)
  }

  /** The Memory events that precede the link already made the proposed change. */
  predicate RevisionEffectOk(s: State, op: MemoryOperation, m: MemoryRevisionMaterialization) {
    && m.target == op.target
    && m.expectedEvent == op.expectedEvent
    && m.expectedHash == op.expectedHash
    && m.target in s.memories
    && var target := s.memories[m.target];
    && !target.kind.ExplicitPreference?
    && (match m.action
        case Replace =>
          && m.replacement.Some?
          && m.replacement.value in s.memories
          && var replacement := s.memories[m.replacement.value];
          && replacement.candidate in s.memoryCandidates
          && var rc := s.memoryCandidates[replacement.candidate];
          && op.Replace?
          && target.status.Superseded?
          && replacement.status.Active?
          && replacement.supersedes == Some(m.target)
          && replacement.kind == target.kind
          && replacement.subject == target.subject
          && rc.supersedes == Some(target.candidate)
          && rc.content == Trim(op.replacement)
        case Expire =>
          op.Expire? && m.replacement.None? && target.status.Expired?)
  }

  predicate MemoryRevisionAccepted(env: Env, s: State, e: Event, m: MemoryRevisionMaterialization) {
    && RevisionEnvelopeOk(s, e, m)
    && IsReviewer(s, e.actor)
    && RevisionProvenanceOk(env, s, m)
    && var op := ParseMemoryProposal(env, s.candidates[m.candidate].content);
    && op.Some?
    && RevisionEffectOk(s, op.value, m)
  }

  // ---------------------------------------------------------------- the step function

  /** The guards of an event's kind. */
  predicate BodyAccepted(env: Env, s: State, e: Event) {
    match e.body
    case TaskCompleted(t) => TaskCompletionAccepted(s, e, t)
    case PositionEvent(kind, p, integration) =>
      integration.Some? ==> PositionIntegrationAccepted(env, s, e, kind, p, integration.value)
    case CriterionDefined(c) => CriterionAccepted(env, s, c)
    case ClaimCreated(c) => !IsModelActor(s, e.actor) && ClaimAccepted(env, s, c)
    case ClaimVerified(t) =>
      !IsModelActor(s, e.actor) && ClaimTransitionAccepted(s, t, Disposition.Verified)
    case ClaimRejected(t) =>
      !IsModelActor(s, e.actor) && ClaimTransitionAccepted(s, t, Disposition.Rejected)
    case SleepRunEvent(kind, r) => SleepRunAccepted(s, kind, r)
    case CandidateCreated(c, present) => CandidateAccepted(env, s, c, present)
    case CandidateVerified(v) => CandidateTransitionAccepted(env, s, e, v, Disposition.Verified)
    case CandidateRejected(v) => CandidateTransitionAccepted(env, s, e, v, Disposition.Rejected)
    case CandidateMaterialized(m) => MaterializationAccepted(env, s, e, m)
    case MemoryRevisionMaterialized(m) => MemoryRevisionAccepted(env, s, e, m)
    case Unmodelled(guardsPass) => guardsPass
    case Malformed => false
    case _ => true
  }

  predicate Accepts(env: Env, s: State, e: Event) {
    e.id !in s.applied && BodyAccepted(env, s, e)
  }

  function NextObservations(s: State, b: Body): map<ObservationId, Observation> {
    match b
    case ObservationRecorded(o) => s.observations[o.id := o]
    case UserMessageReceived(o) => s.observations[o.id := o]
    case _ => s.observations
  }

  function NextTasks(s: State, b: Body): map<TaskId, Task> {
    match b
    case TaskCreated(t) => s.tasks[t.id := t]
    case TaskCompleted(t) => s.tasks[t.id := t]
    case _ => s.tasks
  }

  function NextPositions(s: State, b: Body): map<PositionId, Position> {
    if b.PositionEvent? then
      if b.integration.Some? then StoreIntegratedPosition(s, b.position, b.integration.value)
      else StorePlainPosition(s, b.positionKind, b.position)
    else s.positions
  }

  function NextRelationships(s: State, b: Body): map<RelationshipId, Relationship> {
    match b
    case RelationshipCreated(r) => s.relationships[r.id := r]
    case ConflictEvent(_, c) => IndexAll(s, c)
    case _ => s.relationships
  }

  function NextOperations(s: State, b: Body): map<OperationId, Operation> {
    match b
    case OperationEvent(_, o) => s.operations[o.id := o]
    case EffectVerified(v) =>
      if v.operation in s.operations
      then s.operations[v.operation := s.operations[v.operation].(status := EffectOutcome(v.status))]
      else s.operations
    case _ => s.operations
  }

  function NextCriteria(s: State, b: Body): map<CriterionId, Criterion> {
    if b.CriterionDefined?
    then s.criteria[b.criterion.id := b.criterion.(description := Trim(b.criterion.description))]
    else s.criteria
  }

  function NextClaims(s: State, b: Body): map<ClaimId, Claim> {
    match b
    case ClaimCreated(c) => s.claims[c.id := NormalizedClaim(c)]
    case ClaimVerified(t) => SetDisposition(s.claims, t.claim, Disposition.Verified)
    case ClaimRejected(t) => SetDisposition(s.claims, t.claim, Disposition.Rejected)
    case _ => s.claims
  }

  function SetDisposition(claims: map<ClaimId, Claim>, id: ClaimId, d: Disposition): map<ClaimId, Claim> {
    if id in claims then claims[id := claims[id].(disposition := d)] else claims
  }

  function NextMemoryCandidates(s: State, b: Body): map<MemoryCandidateId, MemoryCandidate> {
    match b
    case MemoryCandidateEvent(_, c) => s.memoryCandidates[c.id := c]
    case MemoryEvent(_, m) =>
      if m.candidate in s.memoryCandidates
      then s.memoryCandidates[m.candidate :=
             s.memoryCandidates[m.candidate].(status := PromotedStatus(m.status))]
      else s.memoryCandidates
    case _ => s.memoryCandidates
  }

  function NextMemories(s: State, b: Body): map<MemoryId, Memory> {
    if b.MemoryEvent? then s.memories[b.memory.id := b.memory] else s.memories
  }

  function NextSleepRuns(s: State, b: Body): map<SleepRunId, SleepRun> {
    if b.SleepRunEvent? then s.sleepRuns[b.run.id := b.run] else s.sleepRuns
  }

  function NextSleepCursor(s: State, b: Body): nat {
    if b.SleepRunEvent? && b.sleepKind.Completed? && b.run.cursorAfter.Some? then b.run.cursorAfter.value
    else s.sleepCursor
  }

  function NextCandidates(s: State, b: Body): map<CandidateId, IntegrationCandidate> {
    match b
    case CandidateCreated(c, present) => s.candidates[c.id := EffectiveCandidate(s, c, present)]
    case CandidateVerified(v) => Dispose(s.candidates, v.candidate, Disposition.Verified)
    case CandidateRejected(v) => Dispose(s.candidates, v.candidate, Disposition.Rejected)
    case _ => s.candidates
  }

  function Dispose(candidates: map<CandidateId, IntegrationCandidate>, id: CandidateId, d: Disposition):
    map<CandidateId, IntegrationCandidate>
  {
    if id in candidates then candidates[id := candidates[id].(disposition := d)] else candidates
  }

  function NextVerifications(s: State, e: Event): map<CandidateId, IntegrationVerification> {
    match e.body
    case CandidateVerified(v) => s.verifications[v.candidate := StoredVerification(e, v)]
    case CandidateRejected(v) => s.verifications[v.candidate := StoredVerification(e, v)]
    case _ => s.verifications
  }

  function NextMaterializations(s: State, b: Body): map<CandidateId, IntegrationMaterialization> {
    if b.CandidateMaterialized? then
      s.materializations[b.materialization.candidate :=
        b.materialization.(evidence := Normalize(b.materialization.evidence))]
    else s.materializations
  }

  function NextPositionMaterializations(s: State, b: Body): map<CandidateId, PositionMaterialization> {
    if b.PositionEvent? && b.integration.Some?
    then s.positionMaterializations[b.integration.value.candidate := b.integration.value]
    else s.positionMaterializations
  }

  function NextMemoryRevisions(s: State, b: Body): map<CandidateId, MemoryRevisionMaterialization> {
    if b.MemoryRevisionMaterialized?
    then s.memoryRevisions[b.revision.candidate := b.revision.(evidence := Normalize(b.revision.evidence))]
    else s.memoryRevisions
  }

  /** The state after an accepted event, field by field. */
  function After(s: State, e: Event): State {
    var b := e.body;
    State(
      s.revision + 1,
      if b.PrincipalCreated? then s.principals[b.principal.id := b.principal] else s.principals,
      NextRelationships(s, b),
      NextObservations(s, b),
      NextTasks(s, b),
      NextPositions(s, b),
      if b.ConflictEvent? then s.conflicts[b.conflict.id := b.conflict] else s.conflicts,
      if b.IntentCreated? then s.intents[b.intent.id := b.intent] else s.intents,
      NextOperations(s, b),
      if b.ApprovalEvent? then s.approvals[b.approval.id := b.approval] else s.approvals,
      if b.ReceiptRecorded? then s.receipts[b.receipt.id := b.receipt] else s.receipts,
      if b.EffectVerified? then s.effects[b.effect.id := b.effect] else s.effects,
      if b.ArtifactCreated? then s.artifacts[b.artifact.id := b.artifact] else s.artifacts,
      NextCriteria(s, b),
      NextClaims(s, b),
      NextMemoryCandidates(s, b),
      NextMemories(s, b),
      NextSleepRuns(s, b),
      NextSleepCursor(s, b),
      NextCandidates(s, b),
      NextVerifications(s, e),
      NextMaterializations(s, b),
      NextPositionMaterializations(s, b),
      NextMemoryRevisions(s, b),
      s.applied + [e.id])
  }

  function Step(env: Env, s: State, e: Event): Option<State> {
    if Accepts(env, s, e) then Some(After(s, e)) else None
  }

  /** Folds a batch of events into a state; one refused event refuses them all. */
  function ApplyAll(env: Env, s: State, events: seq<Event>): Option<State> {
    if events == [] then Some(s)
    else
      match ApplyAll(env, s, events[..|events| - 1])
      case None => None
      case Some(t) => Step(env, t, events[|events| - 1])
  }

  function Replay(env: Env, events: seq<Event>): Option<State> {
    ApplyAll(env, EMPTY_STATE, events)
  }

  function Ids(events: seq<Event>): (r: seq<EventId>)
    ensures |r| == |events|
  {
    seq(|events|, i requires 0 <= i < |events| => events[i].id)
  }

  // ---------------------------------------------------------------- laws of the fold

  lemma {:induction false} ApplyAllConcat(env: Env, s: State, a: seq<Event>, b: seq<Event>)
    ensures ApplyAll(env, s, a + b)
            == (match ApplyAll(env, s, a) case None => None case Some(t) => ApplyAll(env, t, b))
  {
    if b == [] {
      assert a + b == a;
    } else {
      var front := b[..|b| - 1];
      ApplyAllConcat(env, s, a, front);
      assert (a + b)[..|a + b| - 1] == a + front;
    }
  }

  /** One more event on an accepted batch. */
  lemma ApplyLast(env: Env, s: State, events: seq<Event>, e: Event)
    ensures ApplyAll(env, s, events + [e])
            == (match ApplyAll(env, s, events) case None => None case Some(t) => Step(env, t, e))
  {
    hide Step;
    assert (events + [e])[..|events|] == events;
  }

  lemma ApplyOne(env: Env, s: State, e: Event)
    ensures ApplyAll(env, s, [e]) == Step(env, s, e)
  {
    hide Step;
    assert [e][..0] == [];
  }

  /** A prefix of an accepted ledger is accepted. */
  lemma ReplayPrefix(env: Env, events: seq<Event>, k: nat)
    requires k <= |events| && Replay(env, events).Some?
    ensures Replay(env, events[..k]).Some?
    ensures Replay(env, events) == ApplyAll(env, Replay(env, events[..k]).value, events[k..])
  {
    ApplyAllConcat(env, EMPTY_STATE, events[..k], events[k..]);
    assert events[..k] + events[k..] == events;
  }

  /** An accepted event's guards and its effect on the records the integration
      and Sleep protocols depend on. */
  lemma StepParts(env: Env, s: State, e: Event)
    requires Step(env, s, e).Some?
    ensures e.id !in s.applied && BodyAccepted(env, s, e)
    ensures var t := Step(env, s, e).value;
            && t.revision == s.revision + 1 && t.applied == s.applied + [e.id]
            && t.principals
               == (if e.body.PrincipalCreated? then s.principals[e.body.principal.id := e.body.principal]
                   else s.principals)
            && t.positions == NextPositions(s, e.body)
            && t.artifacts == (if e.body.ArtifactCreated? then s.artifacts[e.body.artifact.id := e.body.artifact]
                               else s.artifacts)
            && t.memoryCandidates == NextMemoryCandidates(s, e.body)
            && t.memories == NextMemories(s, e.body)
            && t.sleepRuns == NextSleepRuns(s, e.body)
            && t.candidates == NextCandidates(s, e.body)
            && t.verifications == NextVerifications(s, e)
            && t.materializations == NextMaterializations(s, e.body)
            && t.positionMaterializations == NextPositionMaterializations(s, e.body)
            && t.memoryRevisions == NextMemoryRevisions(s, e.body)
  {
  }

  /** Its effect on the records the completion gate depends on. */
  lemma StepCompletionParts(env: Env, s: State, e: Event)
    requires Step(env, s, e).Some?
    ensures e.id !in s.applied && BodyAccepted(env, s, e)
    ensures var t := Step(env, s, e).value;
            && t.revision == s.revision + 1 && t.applied == s.applied + [e.id]
            && t.tasks == NextTasks(s, e.body)
            && t.criteria == NextCriteria(s, e.body)
            && t.claims == NextClaims(s, e.body)
            && t.artifacts == (if e.body.ArtifactCreated? then s.artifacts[e.body.artifact.id := e.body.artifact]
                               else s.artifacts)
  {
  }

  /** Its effect on the operation records. */
  lemma StepOperationParts(env: Env, s: State, e: Event)
    requires Step(env, s, e).Some?
    ensures var t := Step(env, s, e).value;
            && t.operations == NextOperations(s, e.body)
            && t.intents == (if e.body.IntentCreated? then s.intents[e.body.intent.id := e.body.intent] else s.intents)
            && t.approvals
               == (if e.body.ApprovalEvent? then s.approvals[e.body.approval.id := e.body.approval] else s.approvals)
            && t.receipts == (if e.body.ReceiptRecorded? then s.receipts[e.body.receipt.id := e.body.receipt] else s.receipts)
            && t.effects == (if e.body.EffectVerified? then s.effects[e.body.effect.id := e.body.effect] else s.effects)
            && t.artifacts == (if e.body.ArtifactCreated? then s.artifacts[e.body.artifact.id := e.body.artifact]
                               else s.artifacts)
  {
  }

  /** Its effect on Positions, conflicts and the index of open conflicts. */
  lemma StepConflictParts(env: Env, s: State, e: Event)
    requires Step(env, s, e).Some?
    ensures var t := Step(env, s, e).value;
            && t.positions == NextPositions(s, e.body)
            && t.relationships == NextRelationships(s, e.body)
            && t.conflicts == (if e.body.ConflictEvent? then s.conflicts[e.body.conflict.id := e.body.conflict]
                               else s.conflicts)
  {
  }

  lemma StepCounts(env: Env, s: State, e: Event)
    requires Step(env, s, e).Some?
    ensures var t := Step(env, s, e).value;
            t.revision == s.revision + 1 && t.applied == s.applied + [e.id] && e.id !in s.applied
  {
  }

  lemma {:induction false} ApplyAllCounts(env: Env, s: State, events: seq<Event>)
    requires ApplyAll(env, s, events).Some? && Distinct(s.applied)
    ensures var t := ApplyAll(env, s, events).value;
            && t.revision == s.revision + |events|
            && t.applied == s.applied + Ids(events)
            && Distinct(t.applied)
  {
    if events != [] {
      var front, e := events[..|events| - 1], events[|events| - 1];
      ApplyAllCounts(env, s, front);
      StepCounts(env, ApplyAll(env, s, front).value, e);
      assert Ids(events) == Ids(front) + [e.id];
    }
  }

  /** Replaying an accepted ledger yields its length as revision and its event
      identifiers, which are distinct, as the applied list. */
  lemma ReplayCounts(env: Env, events: seq<Event>)
    requires Replay(env, events).Some?
    ensures var s := Replay(env, events).value;
            s.revision == |events| && s.applied == Ids(events) && Distinct(Ids(events))
  {
    ApplyAllCounts(env, EMPTY_STATE, events);
    assert [] + Ids(events) == Ids(events);
  }
}
