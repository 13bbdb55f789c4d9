/** The service that reviews integration candidates and plans the batches that
    materialize them. It checks everything itself, apart from the projector. */
module MemoryIntegration {
  import opened Prelude
  import opened Ordering
  import opened Model
  import opened Evidence
  import opened Deliberation
  import opened Projector
  import opened Lookup

  datatype IntegrationError =
    | UnknownCandidate
    | InvalidDispositionTransition
    | UnsupportedCandidateKind
    | MissingEvidence
    | InvalidEvidenceHash
    | UnknownEvidenceEvent(event: EventId)
    | FutureEvidence(event: EventId)
    | FutureEvidenceSequence
    | EvidenceOutsideCandidate(event: EventId)
    | SourceEventIntegrity(event: EventId)
    | EventHashMismatch(event: EventId)
    | UnknownArtifactEvidence(artifact: ArtifactId)
    | ArtifactProvenanceMismatch(artifact: ArtifactId)
    | ArtifactHashMismatch(artifact: ArtifactId)
    | CandidateFingerprintMismatch
    | InvalidReason
    | UnknownActor
    | ModelCannotVerify
    | MissingVerification
    | CandidateNotVerified
    | AlreadyMaterialized
    | DuplicateFingerprint
    | MemoryMaterializationFailure
    | InvalidMemoryRevisionProposal
    | UnknownMemory
    | MemoryChanged
    | MemoryNotActive
    | ExplicitPreferenceProtected
    | MemoryTargetEvidenceMismatch
    | InvalidPositionProposal
    | UnknownPosition
    | WrongPositionPrincipal
    | PositionVersionMismatch
    | PositionChanged
    | PositionConflict
    | InvalidPositionAsOf
    | PositionAlreadyMaterialized
    | InvalidPositionTransition
    | ReplayFailed

  // ---------------------------------------------------------------- ledger lookups

  predicate IsVerifiedEventOf(e: Event, candidate: CandidateId) {
    e.body.CandidateVerified? && SubjectIs(e, EntityKind.IntegrationCandidate, candidate)
  }

  /** The latest event that verified the candidate. */
  function LastVerified(ledger: seq<Event>, candidate: CandidateId): Option<EventId> {
    if ledger == [] then None
    else
      var e := ledger[|ledger| - 1];
      if IsVerifiedEventOf(e, candidate) then Some(e.id) else LastVerified(ledger[..|ledger| - 1], candidate)
  }

  predicate IsCreatedEventOf(e: Event, candidate: CandidateId) {
    e.body.CandidateCreated? && SubjectIs(e, EntityKind.IntegrationCandidate, candidate)
  }

  function LastCreated(ledger: seq<Event>, candidate: CandidateId): Option<EventId> {
    if ledger == [] then None
    else
      var e := ledger[|ledger| - 1];
      if IsCreatedEventOf(e, candidate) then Some(e.id) else LastCreated(ledger[..|ledger| - 1], candidate)
  }

  // ---------------------------------------------------------------- checks on a candidate

  function ActorError(s: State, actor: PrincipalId, cannotBeModel: bool): Option<IntegrationError> {
    if actor !in s.principals then Some(UnknownActor)
    else if cannotBeModel && s.principals[actor].kind.Hekate? then Some(ModelCannotVerify)
    else None
  }

  function ProvenanceError(env: Env, ledger: seq<Event>, asOf: nat, id: EventId): Option<IntegrationError> {
    match FindEvent(ledger, id)
    case None => Some(UnknownEvidenceEvent(id))
    case Some(n) =>
      if n > asOf then Some(FutureEvidence(id))
      else if !IntegrityHolds(env, ledger[n - 1]) then Some(SourceEventIntegrity(id))
      else None
  }

  function EvidenceError(
    env: Env, ledger: seq<Event>, s: State, c: IntegrationCandidate, r: EvidenceRef): Option<IntegrationError>
  {
    if !ValidSha256Hex(r.sourceHash) then Some(InvalidEvidenceHash)
    else if r.asOf > c.asOf then Some(FutureEvidenceSequence)
    else if r.event !in c.sources + c.counter then Some(EvidenceOutsideCandidate(r.event))
    else
      match FindEvent(ledger, r.event)
      case None => Some(UnknownEvidenceEvent(r.event))
      case Some(n) =>
        if n > r.asOf || n > c.asOf then Some(FutureEvidenceSequence)
        else if !IntegrityHolds(env, ledger[n - 1]) then Some(SourceEventIntegrity(r.event))
        else
          match r.artifact
          case None =>
            if SourceHash(env, ledger[n - 1]) != r.sourceHash then Some(EventHashMismatch(r.event)) else None
          case Some(a) =>
            if a !in s.artifacts then Some(UnknownArtifactEvidence(a))
            else
              match FindArtifactCreated(ledger, a)
              case None => Some(UnknownArtifactEvidence(a))
              case Some(created) =>
                if created > r.asOf then Some(FutureEvidenceSequence)
                else if s.artifacts[a].provenance != r.event then Some(ArtifactProvenanceMismatch(a))
                else if s.artifacts[a].contentHash != r.sourceHash then Some(ArtifactHashMismatch(a))
                else None
  }

  function FirstProvenanceError(env: Env, ledger: seq<Event>, asOf: nat, ids: seq<EventId>):
    (r: Option<IntegrationError>)
    ensures r.None? <==> forall id | id in ids :: ProvenanceError(env, ledger, asOf, id).None?
  {
    if ids == [] then None
    else
      var first := ProvenanceError(env, ledger, asOf, ids[0]);
      if first.Some? then first else FirstProvenanceError(env, ledger, asOf, ids[1..])
  }

  function FirstEvidenceError(
    env: Env, ledger: seq<Event>, s: State, c: IntegrationCandidate, refs: seq<EvidenceRef>):
    (r: Option<IntegrationError>)
    ensures r.None? <==> forall ref | ref in refs :: EvidenceError(env, ledger, s, c, ref).None?
  {
    if refs == [] then None
    else
      var first := EvidenceError(env, ledger, s, c, refs[0]);
      if first.Some? then first else FirstEvidenceError(env, ledger, s, c, refs[1..])
  }

  function CandidateError(
    env: Env, ledger: seq<Event>, s: State, c: IntegrationCandidate, refs: seq<EvidenceRef>):
    Option<IntegrationError>
  {
    if Blank(c.content) || Blank(c.rationale) then Some(MemoryMaterializationFailure)
    else if c.sources == [] then Some(MissingEvidence)
    else if c.asOf > s.revision then Some(FutureEvidenceSequence)
    else if !FingerprintMatches(env, c) then Some(CandidateFingerprintMismatch)
    else
      var provenance := FirstProvenanceError(env, ledger, c.asOf, c.sources + c.counter);
      if provenance.Some? then provenance
      else if refs == [] then Some(MissingEvidence)
      else FirstEvidenceError(env, ledger, s, c, refs)
  }

  function DefaultEvidence(env: Env, ledger: seq<Event>, asOf: nat, ids: seq<EventId>):
    Result<seq<EvidenceRef>, IntegrationError>
  {
    if ids == [] then Ok([])
    else
      match FindEvent(ledger, ids[0])
      case None => Err(UnknownEvidenceEvent(ids[0]))
      case Some(n) =>
        if !IntegrityHolds(env, ledger[n - 1]) then Err(SourceEventIntegrity(ids[0]))
        else
          match DefaultEvidence(env, ledger, asOf, ids[1..])
          case Err(error) => Err(error)
          case Ok(rest) => Ok([EvidenceRef(ids[0], None, SourceHash(env, ledger[n - 1]), asOf)] + rest)
  }

  // ---------------------------------------------------------------- Memory revisions

  predicate AsOfPresent(ledger: seq<Event>, s: State, c: IntegrationCandidate) {
    && s.revision == |ledger|
    && c.asOf <= |ledger|
    && c.run in s.sleepRuns
    && s.sleepRuns[c.run].highWater == c.asOf
  }

  predicate ChangesMemory(e: Event, target: MemoryId) {
    e.body.MemoryEvent? && SubjectIs(e, EntityKind.Memory, target)
  }

  /** The event that promoted the target, under the identifier the proposal names. */
  function FindPromotion(ledger: seq<Event>, id: EventId, target: MemoryId): (r: Option<nat>)
    ensures r.Some? ==>
              && 1 <= r.value <= |ledger| && ledger[r.value - 1].id == id
              && ledger[r.value - 1].body.MemoryEvent? && ledger[r.value - 1].body.memoryKind.Promoted?
  {
    if ledger == [] then None
    else
      match FindPromotion(ledger[..|ledger| - 1], id, target)
      case Some(n) => Some(n)
      case None =>
        var e := ledger[|ledger| - 1];
        if e.id == id && ChangesMemory(e, target) && e.body.memoryKind.Promoted? then Some(|ledger|) else None
  }

  predicate IsNewSource(ledger: seq<Event>, after: nat, id: EventId) {
    exists i | 0 <= i < |ledger| ::
      && ledger[i].id == id && i + 1 > after
      && (ledger[i].body.ObservationRecorded? || ledger[i].body.UserMessageReceived?)
  }

  /** The target as it was and still is, with the event that promoted it. */
  function MemoryRevisionPlan(
    env: Env, ledger: seq<Event>, s: State, c: IntegrationCandidate, op: MemoryOperation):
    Result<(Memory, Event), IntegrationError>
  {
    if !AsOfPresent(ledger, s, c) then Err(InvalidMemoryRevisionProposal)
    else if op.expectedEvent !in c.counter then Err(MemoryTargetEvidenceMismatch)
    else
      match Replay(env, ledger[..c.asOf])
      case None => Err(ReplayFailed)
      case Some(asOf) =>
        if op.target !in asOf.memories then
          Err(if op.target in s.memories then MemoryChanged else UnknownMemory)
        else
          var prior := asOf.memories[op.target];
          if !prior.status.Active? then Err(MemoryNotActive)
          else if prior.kind.ExplicitPreference? then Err(ExplicitPreferenceProtected)
          else if op.Replace? && Trim(op.replacement) == Trim(prior.content) then Err(MemoryMaterializationFailure)
          else if op.target !in s.memories || s.memories[op.target] != prior then Err(MemoryChanged)
          else if exists e | e in ledger[c.asOf..] :: ChangesMemory(e, op.target) then Err(MemoryChanged)
          else
            match FindPromotion(ledger, op.expectedEvent, op.target)
            case None => Err(MemoryTargetEvidenceMismatch)
            case Some(n) =>
              var e := ledger[n - 1];
              if !IntegrityHolds(env, e) || n > c.asOf || e.body.memory != prior
                 || SourceHash(env, e) != op.expectedHash then Err(MemoryTargetEvidenceMismatch)
              else if !exists id | id in c.sources :: IsNewSource(ledger, n, id) then
                Err(MemoryMaterializationFailure)
              else Ok((prior, e))
  }

  // ---------------------------------------------------------------- Positions

  function PriorPosition(s: State, asOf: State, id: PositionId): Result<Position, IntegrationError> {
    if id !in asOf.positions then Err(if id in s.positions then PositionChanged else UnknownPosition)
    else if id !in s.positions || s.positions[id] != asOf.positions[id] then Err(PositionChanged)
    else Ok(asOf.positions[id])
  }

  /** What the prior Position of a revision or a withdrawal must satisfy. */
  function PriorError(
    env: Env, s: State, asOf: State, prior: Position, hekate: PrincipalId, expectedVersion: nat):
    Option<IntegrationError>
  {
    if prior.principal != hekate then Some(WrongPositionPrincipal)
    else if prior.version != expectedVersion then Some(PositionVersionMismatch)
    else if !prior.status.Active? then Some(InvalidPositionTransition)
    else if PositionIntegrationBlocked(env, asOf, hekate, prior.subject, Some(prior.id))
            || PositionIntegrationBlocked(env, s, hekate, prior.subject, Some(prior.id))
    then Some(PositionConflict)
    else None
  }

  datatype PlannedPosition = PlannedPosition(position: Position, action: PositionAction, prior: Option<Position>)

  function EstablishedPosition(
    c: IntegrationCandidate, hekate: PrincipalId, id: PositionId, op: PositionOperation): Position
    requires op.Establish?
  {
    Position.Position(id, hekate, Trim(op.subject), op.stance, 1, PositionStatus.Active, c.confidence, None,
                      TrimAll(op.reasons), c.sources, TrimAll(op.reconsideration))
  }

  function RevisedPosition(
    c: IntegrationCandidate, hekate: PrincipalId, id: PositionId, op: PositionOperation, prior: Position): Position
    requires op.Revise?
  {
    Position.Position(id, hekate, prior.subject, op.stance, prior.version + 1, PositionStatus.Active, c.confidence,
                      Some(prior.id), TrimAll(op.reasons), c.sources, TrimAll(op.reconsideration))
  }

  function PositionPlan(
    env: Env, ledger: seq<Event>, s: State, c: IntegrationCandidate, hekate: PrincipalId, op: PositionOperation,
    id: PositionId): Result<PlannedPosition, IntegrationError>
  {
    if !AsOfPresent(ledger, s, c) then Err(InvalidPositionAsOf)
    else
      match Replay(env, ledger[..c.asOf])
      case None => Err(ReplayFailed)
      case Some(asOf) =>
        if asOf.revision != c.asOf || !IsModelActor(asOf, hekate) then Err(InvalidPositionAsOf)
        else
          match op
          case Establish(subject, _, _, _) =>
            var p := EstablishedPosition(c, hekate, id, op);
            if PositionIntegrationBlocked(env, asOf, hekate, p.subject, None)
               || PositionIntegrationBlocked(env, s, hekate, p.subject, None) then Err(PositionConflict)
            else if !ValidPositionRevision(s, p) then Err(InvalidPositionTransition)
            else Ok(PlannedPosition(p, PositionAction.Establish, None))
          case Revise(target, expectedVersion, _, _, _) =>
            (match PriorPosition(s, asOf, target)
             case Err(error) => Err(error)
             case Ok(prior) =>
               var error := PriorError(env, s, asOf, prior, hekate, expectedVersion);
               if error.Some? then Err(error.value)
               else if CheckedAddU32(prior.version, 1).None? then Err(InvalidPositionTransition)
               else
                 var p := RevisedPosition(c, hekate, id, op, prior);
                 if !ValidPositionRevision(s, p) then Err(InvalidPositionTransition)
                 else Ok(PlannedPosition(p, PositionAction.Revise, Some(prior))))
          case Withdraw(target, expectedVersion, reason) =>
            match PriorPosition(s, asOf, target)
            case Err(error) => Err(error)
            case Ok(prior) =>
              var error := PriorError(env, s, asOf, prior, hekate, expectedVersion);
              if error.Some? then Err(error.value)
              else
                var p := WithdrawnPosition(prior, reason, c.sources);
                if !ValidPositionRevision(s, p) then Err(InvalidPositionTransition)
                else Ok(PlannedPosition(p, PositionAction.Withdraw, Some(prior)))
  }

  // ---------------------------------------------------------------- the planned events

  function IntegrationEvent(
    env: Env, actor: PrincipalId, id: EventId, body: Body, kind: EntityKind, entity: nat, candidate: CandidateId,
    causation: Option<EventId>): Event
  {
    Seal(env, Event(id, actor, body, Some(EntityRef(kind, entity)), SourceType.MemoryIntegration, Some(candidate),
                    causation, Some(candidate), ""))
  }

  /** What any materialization asks of its candidate before it looks at the ledger. */
  function VerificationOf(s: State, id: CandidateId): Result<IntegrationVerification, IntegrationError> {
    if id !in s.verifications then Err(MissingVerification)
    else if !s.verifications[id].disposition.Verified? then Err(CandidateNotVerified)
    else Ok(s.verifications[id])
  }

  /** The evidence a review rests on: what the reviewer gave, or all of the candidate's. */
  function ReviewEvidence(
    env: Env, ledger: seq<Event>, c: IntegrationCandidate, refs: Option<seq<EvidenceRef>>):
    Result<seq<EvidenceRef>, IntegrationError>
  {
    match refs
    case Some(given) => Ok(Normalize(given))
    case None => DefaultEvidence(env, ledger, c.asOf, c.sources + c.counter)
  }

  /** A verification also dry-runs the plan that would materialize the candidate;
      `hekate` is the unique HEKATE principal, if there is one. */
  function ProposalError(
    env: Env, ledger: seq<Event>, s: State, c: IntegrationCandidate, hekate: Option<PrincipalId>,
    newPosition: PositionId): Option<IntegrationError>
  {
    if c.kind == CandidateKind.Position then
      if hekate.None? then Some(InvalidPositionProposal)
      else
        match ParsePositionProposal(env, c.content)
        case None => Some(InvalidPositionProposal)
        case Some(op) =>
          match PositionPlan(env, ledger, s, c, hekate.value, op, newPosition)
          case Err(error) => Some(error)
          case Ok(_) => None
    else if c.kind == CandidateKind.MemoryRevision then
      match ParseMemoryProposal(env, c.content)
      case None => Some(InvalidMemoryRevisionProposal)
      case Some(op) =>
        match MemoryRevisionPlan(env, ledger, s, c, op)
        case Err(error) => Some(error)
        case Ok(_) => None
    else None
  }

  function ReviewEvent(
    env: Env, actor: PrincipalId, event: EventId, candidate: CandidateId, v: IntegrationVerification,
    causation: Option<EventId>): Event
  {
    IntegrationEvent(env, actor, event,
                     if v.disposition.Verified? then CandidateVerified(v) else CandidateRejected(v),
                     EntityKind.IntegrationCandidate, candidate, candidate, causation)
  }

  /** Plans the event that verifies or rejects a candidate. */
  function PlanTransition(
    env: Env, ledger: seq<Event>, s: State, id: CandidateId, actor: PrincipalId, to: Disposition, reason: string,
    refs: Option<seq<EvidenceRef>>, hekate: Option<PrincipalId>, newPosition: PositionId, event: EventId):
    Result<Event, IntegrationError>
  {
    if id !in s.candidates then Err(UnknownCandidate)
    else
      var c := s.candidates[id];
      var actorError := ActorError(s, actor, true);
      if actorError.Some? then Err(actorError.value)
      else if !c.disposition.NeedsValidation? || to.NeedsValidation? then Err(InvalidDispositionTransition)
      else if Blank(reason) then Err(InvalidReason)
      else
        match ReviewEvidence(env, ledger, c, refs)
        case Err(error) => Err(error)
        case Ok(evidence) =>
          var error := CandidateError(env, ledger, s, c, evidence);
          if error.Some? then Err(error.value)
          else
            var proposal := if to.Verified? then ProposalError(env, ledger, s, c, hekate, newPosition) else None;
            if proposal.Some? then Err(proposal.value)
            else
              var v := IntegrationVerification.IntegrationVerification(
                id, None, c.disposition, to, actor, Trim(reason), evidence, c.asOf);
              Ok(ReviewEvent(env, actor, event, id, v, LastCreated(ledger, id)))
  }

  /** Fresh identifiers for the records and events of one materialization. */
  datatype FreshIds = FreshIds(
    memoryCandidate: MemoryCandidateId, memory: MemoryId, created: EventId, changed: EventId, promoted: EventId,
    linked: EventId)

  function LessonCandidate(c: IntegrationCandidate, ids: FreshIds): MemoryCandidate {
    MemoryCandidate.MemoryCandidate(ids.memoryCandidate, MemoryKind.Lesson, c.content, None,
                                    MemoryCandidateStatus.Candidate, c.confidence, c.sources, None)
  }

  function MemoryFrom(mc: MemoryCandidate, ids: FreshIds, supersedes: Option<MemoryId>): Memory {
    Memory.Memory(ids.memory, mc.id, mc.kind, mc.content, mc.subject, MemoryStatus.Active, mc.confidence, mc.sources,
                  supersedes)
  }

  predicate DuplicateLesson(s: State, c: IntegrationCandidate) {
    (exists k | k in s.materializations ::
       && s.materializations[k].fingerprint == c.fingerprint
       && s.materializations[k].memory in s.memories
       && s.memories[s.materializations[k].memory].status.Active?)
    || (exists m | m in s.memories ::
          && s.memories[m].status.Active? && s.memories[m].kind.Lesson?
          && s.memories[m].content == c.content && s.memories[m].sources == c.sources)
  }

  function LessonBatch(
    env: Env, actor: PrincipalId, id: CandidateId, c: IntegrationCandidate, v: IntegrationVerification, ids: FreshIds):
    seq<Event>
  {
    var mc := LessonCandidate(c, ids);
    var m := IntegrationMaterialization.IntegrationMaterialization(
      id, ids.memoryCandidate, ids.memory, c.sources, c.counter, v.evidence, c.fingerprint, c.asOf);
    [IntegrationEvent(env, actor, ids.created, MemoryCandidateEvent(MemoryCandidateEventKind.Created, mc),
                      EntityKind.MemoryCandidate, mc.id, id, None),
     IntegrationEvent(env, actor, ids.promoted, MemoryEvent(MemoryEventKind.Promoted, MemoryFrom(mc, ids, None)),
                      EntityKind.Memory, ids.memory, id, Some(ids.created)),
     IntegrationEvent(env, actor, ids.linked, CandidateMaterialized(m),
                      EntityKind.IntegrationCandidate, id, id, Some(ids.promoted))]
  }

  /** Plans the batch that turns a verified Memory candidate into a Lesson. */
  function PlanLesson(
    env: Env, ledger: seq<Event>, s: State, id: CandidateId, actor: PrincipalId, ids: FreshIds):
    Result<seq<Event>, IntegrationError>
  {
    if ActorError(s, actor, false).Some? then Err(UnknownActor)
    else if id !in s.candidates then Err(UnknownCandidate)
    else
      var c := s.candidates[id];
      if c.kind == CandidateKind.MemoryRevision then PlanRevision(env, ledger, s, c, actor, ids)
      else if !c.disposition.Verified? then Err(CandidateNotVerified)
      else if c.kind != CandidateKind.Memory then Err(UnsupportedCandidateKind)
      else if id in s.materializations then Err(AlreadyMaterialized)
      else
        match VerificationOf(s, id)
        case Err(error) => Err(error)
        case Ok(v) =>
          var error := CandidateError(env, ledger, s, c, v.evidence);
          if error.Some? then Err(error.value)
          else if DuplicateLesson(s, c) then Err(DuplicateFingerprint)
          else Ok(LessonBatch(env, actor, id, c, v, ids))
  }

  function RevisionLink(
    c: IntegrationCandidate, v: IntegrationVerification, op: MemoryOperation, prior: Memory, verified: EventId,
    expectedEvent: EventId, expectedHash: string, ids: FreshIds): MemoryRevisionMaterialization
  {
    MemoryRevisionMaterialization.MemoryRevisionMaterialization(
      c.id, verified, prior.id, if op.Replace? then Some(ids.memory) else None, expectedEvent, expectedHash,
      if op.Replace? then MemoryAction.Replace else MemoryAction.Expire, c.sources, c.counter, v.evidence,
      c.fingerprint, c.asOf)
  }

  function ReplacementCandidate(c: IntegrationCandidate, op: MemoryOperation, prior: Memory, ids: FreshIds): MemoryCandidate
    requires op.Replace?
  {
    MemoryCandidate.MemoryCandidate(
      ids.memoryCandidate, prior.kind, Trim(op.replacement), prior.subject, MemoryCandidateStatus.Candidate,
      c.confidence, c.sources, Some(prior.candidate))
  }

  /** A replacement is created, the target is superseded, the replacement is
      promoted and the change is linked; an expiry only changes the target. */
  function RevisionBatch(
    env: Env, actor: PrincipalId, c: IntegrationCandidate, op: MemoryOperation, prior: Memory,
    link: MemoryRevisionMaterialization, ids: FreshIds): seq<Event>
  {
    var linked := IntegrationEvent(env, actor, ids.linked, MemoryRevisionMaterialized(link),
                                   EntityKind.IntegrationCandidate, c.id, c.id, Some(link.verificationEvent));
    if op.Replace? then
      var mc := ReplacementCandidate(c, op, prior, ids);
      [IntegrationEvent(env, actor, ids.created, MemoryCandidateEvent(MemoryCandidateEventKind.Created, mc),
                        EntityKind.MemoryCandidate, mc.id, c.id, Some(link.verificationEvent)),
       IntegrationEvent(env, actor, ids.changed,
                        MemoryEvent(MemoryEventKind.Superseded, prior.(status := MemoryStatus.Superseded)),
                        EntityKind.Memory, prior.id, c.id, Some(ids.created)),
       IntegrationEvent(env, actor, ids.promoted,
                        MemoryEvent(MemoryEventKind.Promoted, MemoryFrom(mc, ids, Some(prior.id))),
                        EntityKind.Memory, ids.memory, c.id, Some(ids.changed)),
       linked]
    else
      [IntegrationEvent(env, actor, ids.changed,
                        MemoryEvent(MemoryEventKind.Expired, prior.(status := MemoryStatus.Expired)),
                        EntityKind.Memory, prior.id, c.id, Some(link.verificationEvent)),
       linked]
  }

  /** Plans the batch that replaces or expires a Memory. */
  function PlanRevision(
    env: Env, ledger: seq<Event>, s: State, c: IntegrationCandidate, actor: PrincipalId, ids: FreshIds):
    Result<seq<Event>, IntegrationError>
  {
    if !c.disposition.Verified? then Err(CandidateNotVerified)
    else if c.id in s.memoryRevisions then Err(AlreadyMaterialized)
    else
      match VerificationOf(s, c.id)
      case Err(error) => Err(error)
      case Ok(v) =>
        var error := CandidateError(env, ledger, s, c, v.evidence);
        if error.Some? then Err(error.value)
        else
          match ParseMemoryProposal(env, c.content)
          case None => Err(InvalidMemoryRevisionProposal)
          case Some(op) =>
            match MemoryRevisionPlan(env, ledger, s, c, op)
            case Err(e) => Err(e)
            case Ok((prior, expected)) =>
              match LastVerified(ledger, c.id)
              case None => Err(MissingVerification)
              case Some(verified) =>
                Ok(RevisionBatch(env, actor, c, op, prior,
                                 RevisionLink(c, v, op, prior, verified, expected.id, CanonicalHash(env, expected), ids),
                                 ids))
  }

  function PositionLink(
    id: CandidateId, c: IntegrationCandidate, v: IntegrationVerification, plan: PlannedPosition, verified: EventId,
    event: EventId): PositionMaterialization
  {
    PositionMaterialization.PositionMaterialization(
      id, plan.position.id, event, verified, plan.action, plan.prior, c.sources, c.counter, v.evidence,
      c.fingerprint, c.asOf)
  }

  function EventKindOf(action: PositionAction): PositionEventKind {
    match action
    case Establish => Established
    case Revise => Revised
    case Withdraw => PositionEventKind.Retracted
  }

  function IntegratedPositionEvent(
    env: Env, actor: PrincipalId, id: CandidateId, plan: PlannedPosition, link: PositionMaterialization): Event
  {
    Seal(env, Event(link.positionEvent, actor,
                    PositionEvent(EventKindOf(plan.action), plan.position, Some(link)),
                    Some(EntityRef(EntityKind.Position, plan.position.id)), SourceType.PositionIntegration, Some(id),
                    Some(link.verificationEvent), Some(id), ""))
  }

  /** Plans the event that establishes, revises or withdraws a Position. */
  function PlanPosition(
    env: Env, ledger: seq<Event>, s: State, id: CandidateId, hekate: PrincipalId, actor: PrincipalId,
    newPosition: PositionId, event: EventId): Result<Event, IntegrationError>
  {
    var actorError := ActorError(s, actor, true);
    if actorError.Some? then Err(actorError.value)
    else if id !in s.candidates then Err(UnknownCandidate)
    else
      var c := s.candidates[id];
      if !c.disposition.Verified? then Err(CandidateNotVerified)
      else if c.kind != CandidateKind.Position then Err(UnsupportedCandidateKind)
      else if id in s.positionMaterializations then Err(PositionAlreadyMaterialized)
      else
        match VerificationOf(s, id)
        case Err(error) => Err(error)
        case Ok(v) =>
          var error := CandidateError(env, ledger, s, c, v.evidence);
          if error.Some? then Err(error.value)
          else
            match ParsePositionProposal(env, c.content)
            case None => Err(InvalidPositionProposal)
            case Some(op) =>
              match PositionPlan(env, ledger, s, c, hekate, op, newPosition)
              case Err(e) => Err(e)
              case Ok(plan) =>
                match LastVerified(ledger, id)
                case None => Err(MissingVerification)
                case Some(verified) =>
                  Ok(IntegratedPositionEvent(env, actor, id, plan, PositionLink(id, c, v, plan, verified, event)))
  }
}
