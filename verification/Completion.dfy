/** Completion criteria, claims about them, and the gate a task must pass. */
module Completion {
  import opened Prelude
  import opened Ordering
  import opened Model
  import opened Evidence
  import opened Transition
  import opened Projector
  import opened Lookup

  datatype CompletionError =
    | UnknownTask
    | ModelCannotVerify
    | EmptyCriterionDescription
    | DuplicateCriterion
    | UnknownCriterion
    | CriterionTaskMismatch
    | InvalidConfidence
    | InvalidSourceHash
    | FutureEvidenceSequence
    | UnknownEventEvidence(event: EventId)
    | UnknownArtifactEvidence(artifact: ArtifactId)
    | ArtifactProvenanceMismatch(artifact: ArtifactId)
    | ArtifactHashMismatch(artifact: ArtifactId)
    | EventHashMismatch(event: EventId)
    | DuplicateFingerprint
    | UnknownSupersededClaim
    | SupersededClaimMismatch
    | UnknownClaim
    | InvalidDispositionTransition
    | InvalidReason
    | EvidenceRequired
    | BlockerPresent
    | StaleRevision
    | GateBlocked
    | InvalidTaskTransition
    | ReplayFailed

  // ---------------------------------------------------------------- evidence

  function ClaimEvidenceError(env: Env, ledger: seq<Event>, s: State, r: EvidenceRef, asOf: nat): Option<CompletionError> {
    if !ValidSha256Hex(r.sourceHash) then Some(InvalidSourceHash)
    else if r.asOf > asOf then Some(FutureEvidenceSequence)
    else
      match FindEvent(ledger, r.event)
      case None => Some(UnknownEventEvidence(r.event))
      case Some(n) =>
        if n > r.asOf || n > asOf then Some(FutureEvidenceSequence)
        else
          match r.artifact
          case None =>
            if SourceHash(env, ledger[n - 1]) != r.sourceHash then Some(EventHashMismatch(r.event)) else None
          case Some(a) =>
            if a !in s.artifacts then Some(UnknownArtifactEvidence(a))
            else
              match FindArtifactCreated(ledger, a)
              case None => Some(UnknownArtifactEvidence(a))
              case Some(created) =>
                if created > r.asOf then Some(FutureEvidenceSequence)
                else if s.artifacts[a].provenance != r.event then Some(ArtifactProvenanceMismatch(a))
                else if s.artifacts[a].contentHash != r.sourceHash then Some(ArtifactHashMismatch(a))
                else None
  }

  function FirstClaimEvidenceError(env: Env, ledger: seq<Event>, s: State, refs: seq<EvidenceRef>, asOf: nat):
    (r: Option<CompletionError>)
    ensures r.None? <==> forall ref | ref in refs :: ClaimEvidenceError(env, ledger, s, ref, asOf).None?
  {
    if refs == [] then None
    else
      var first := ClaimEvidenceError(env, ledger, s, refs[0], asOf);
      if first.Some? then first else FirstClaimEvidenceError(env, ledger, s, refs[1..], asOf)
  }

  // ---------------------------------------------------------------- planned events

  function CompletionEvent(
    env: Env, actor: PrincipalId, id: EventId, body: Body, kind: EntityKind, entity: nat, task: TaskId,
    causation: Option<EventId>, sourceRef: Option<nat>): Event
  {
    Seal(env, Event(id, actor, body, Some(EntityRef(kind, entity)), SourceType.Completion, sourceRef, causation,
                    Some(task), ""))
  }

  /** Plans the event that defines a criterion. */
  function PlanCriterion(
    env: Env, s: State, actor: PrincipalId, task: TaskId, description: string, required: bool, id: CriterionId,
    event: EventId): Result<Event, CompletionError>
  {
    if task !in s.tasks then Err(UnknownTask)
    else if IsModelActor(s, actor) then Err(ModelCannotVerify)
    else if Blank(description) then Err(EmptyCriterionDescription)
    else if exists k | k in s.criteria ::
              s.criteria[k].task == task
              && env.normalize(s.criteria[k].description) == env.normalize(Trim(description))
    then Err(DuplicateCriterion)
    else
      Ok(CompletionEvent(env, actor, event, CriterionDefined(Criterion.Criterion(id, task, Trim(description), required)),
                         EntityKind.CompletionCriterion, id, task, None, None))
  }

  function SupersedesError(s: State, task: TaskId, criterion: CriterionId, supersedes: Option<ClaimId>):
    Option<CompletionError>
  {
    match supersedes
    case None => None
    case Some(id) =>
      if id !in s.claims then Some(UnknownSupersededClaim)
      else if s.claims[id].task != task || s.claims[id].criterion != criterion then Some(SupersededClaimMismatch)
      else None
  }

  function KeptBlocker(blocker: Option<string>): Option<string> {
    if HasBlocker(blocker) then Some(Trim(blocker.value)) else None
  }

  /** Plans the event that creates a claim. */
  function PlanClaim(
    env: Env, ledger: seq<Event>, s: State, actor: PrincipalId, task: TaskId, criterion: CriterionId, confidence: nat,
    refs: seq<EvidenceRef>, blocker: Option<string>, supersedes: Option<ClaimId>, id: ClaimId, event: EventId):
    Result<Event, CompletionError>
  {
    if task !in s.tasks then Err(UnknownTask)
    else if IsModelActor(s, actor) then Err(ModelCannotVerify)
    else if criterion !in s.criteria then Err(UnknownCriterion)
    else if s.criteria[criterion].task != task then Err(CriterionTaskMismatch)
    else if confidence > 100 then Err(InvalidConfidence)
    else
      var evidence := Normalize(refs);
      var error := FirstClaimEvidenceError(env, ledger, s, evidence, s.revision);
      if error.Some? then Err(error.value)
      else
        var fingerprint := CompletionFingerprint(env, task, criterion, evidence);
        if exists k | k in s.claims :: s.claims[k].fingerprint == fingerprint then Err(DuplicateFingerprint)
        else
          var bad := SupersedesError(s, task, criterion, supersedes);
          if bad.Some? then Err(bad.value)
          else
            Ok(CompletionEvent(
              env, actor, event,
              ClaimCreated(Claim.Claim(id, task, criterion, Disposition.NeedsValidation, confidence, evidence,
                                       KeptBlocker(blocker), fingerprint, s.revision, supersedes)),
              EntityKind.CompletionClaim, id, task, None, None))
  }

  function LastClaimEvent(ledger: seq<Event>, id: ClaimId): Option<EventId> {
    if ledger == [] then None
    else
      var e := ledger[|ledger| - 1];
      if e.body.ClaimCreated? && SubjectIs(e, EntityKind.CompletionClaim, id) then Some(e.id)
      else LastClaimEvent(ledger[..|ledger| - 1], id)
  }

  /** Plans the event that verifies or rejects a claim. */
  function PlanClaimTransition(
    env: Env, ledger: seq<Event>, s: State, actor: PrincipalId, id: ClaimId, to: Disposition, reason: string,
    event: EventId): Result<Event, CompletionError>
  {
    if id !in s.claims then Err(UnknownClaim)
    else
      var c := s.claims[id];
      if IsModelActor(s, actor) then Err(ModelCannotVerify)
      else if !c.disposition.NeedsValidation? || to.NeedsValidation? then Err(InvalidDispositionTransition)
      else if Blank(reason) then Err(InvalidReason)
      else if to.Verified? && c.evidence == [] then Err(EvidenceRequired)
      else if to.Verified? && HasBlocker(c.blocker) then Err(BlockerPresent)
      else
        var error := FirstClaimEvidenceError(env, ledger, s, c.evidence, c.asOf);
        if error.Some? then Err(error.value)
        else
          var t := ClaimTransition.ClaimTransition(c.id, c.task, c.criterion, c.disposition, to, Trim(reason), c.evidence);
          Ok(CompletionEvent(env, actor, event, if to.Verified? then ClaimVerified(t) else ClaimRejected(t),
                             EntityKind.CompletionClaim, c.id, c.task, LastClaimEvent(ledger, c.id), Some(actor)))
  }

  // ---------------------------------------------------------------- the gate

  /** The claim most recently created for a criterion. */
  function LatestClaim(ledger: seq<Event>, criterion: CriterionId): Option<ClaimId> {
    if ledger == [] then None
    else
      var e := ledger[|ledger| - 1];
      if e.body.ClaimCreated? && e.body.claim.criterion == criterion then Some(e.body.claim.id)
      else LatestClaim(ledger[..|ledger| - 1], criterion)
  }

  method LatestClaims(ledger: seq<Event>) returns (latest: map<CriterionId, ClaimId>)
    ensures forall k :: k in latest <==> LatestClaim(ledger, k).Some?
    ensures forall k | k in latest :: LatestClaim(ledger, k) == Some(latest[k])
  {
    latest := map[];
    for i := 0 to |ledger|
      invariant forall k :: k in latest <==> LatestClaim(ledger[..i], k).Some?
      invariant forall k | k in latest :: LatestClaim(ledger[..i], k) == Some(latest[k])
    {
      assert ledger[..i + 1][..i] == ledger[..i];
      if !ledger[i].body.ClaimCreated? {
        continue;
      }
      latest := latest[ledger[i].body.claim.criterion := ledger[i].body.claim.id];
    }
    assert ledger[..|ledger|] == ledger;
  }

  datatype Blocker =
    | NoClaim(criterion: CriterionId)
    | ClaimNeedsValidation(claim: ClaimId)
    | ClaimWasRejected(claim: ClaimId)
    | Reported(text: string)
    | NoEvidence(claim: ClaimId)
    | FingerprintMismatch(claim: ClaimId)
    | EvidenceInvalid(error: CompletionError)
    | ApprovalPending(approval: ApprovalId)
    | OperationUnknown(operation: OperationId)

  datatype Gate =
    | Ready(verified: seq<ClaimId>)
    | Blocked(missing: seq<CriterionId>, needsValidation: seq<ClaimId>, rejected: seq<ClaimId>,
              blockers: seq<Blocker>, pendingApprovals: seq<ApprovalId>, unknownOperations: seq<OperationId>)

  /** The claim the gate looks at for a criterion. */
  function CurrentClaim(ledger: seq<Event>, s: State, criterion: CriterionId): Option<Claim> {
    match LatestClaim(ledger, criterion)
    case None => None
    case Some(id) => if id in s.claims then Some(s.claims[id]) else None
  }

  /** What stops a verified claim from counting. */
  function VerifiedClaimBlocker(env: Env, ledger: seq<Event>, s: State, c: Claim): Option<Blocker> {
    if HasBlocker(c.blocker) then Some(Reported(Trim(c.blocker.value)))
    else if c.evidence == [] then Some(NoEvidence(c.id))
    else if c.fingerprint != CompletionFingerprint(env, c.task, c.criterion, c.evidence) then Some(FingerprintMismatch(c.id))
    else
      match FirstClaimEvidenceError(env, ledger, s, c.evidence, c.asOf)
      case Some(error) => Some(EvidenceInvalid(error))
      case None => None
  }

  /** A criterion is met by its latest claim, if that is verified and nothing stops it. */
  predicate Met(env: Env, ledger: seq<Event>, s: State, criterion: CriterionId) {
    match CurrentClaim(ledger, s, criterion)
    case None => false
    case Some(c) => c.disposition.Verified? && VerifiedClaimBlocker(env, ledger, s, c).None?
  }

  function RequiredCriteria(s: State, task: TaskId): set<CriterionId> {
    set k | k in s.criteria && s.criteria[k].task == task && s.criteria[k].required
  }

  function PendingApprovals(s: State): set<ApprovalId> {
    set k | k in s.approvals && s.approvals[k].status.Pending?
  }

  function UnknownOperations(s: State): set<OperationId> {
    set k | k in s.operations && (s.operations[k].status.Started? || s.operations[k].status.Unknown?)
  }

  /** Every required criterion is met, no approval is pending and no operation is
      in an unknown state. */
  predicate GateReady(env: Env, ledger: seq<Event>, s: State, task: TaskId) {
    && (forall k | k in s.criteria && s.criteria[k].task == task && s.criteria[k].required :: Met(env, ledger, s, k))
    && (forall k | k in s.approvals :: !s.approvals[k].status.Pending?)
    && (forall k | k in s.operations :: !s.operations[k].status.Started? && !s.operations[k].status.Unknown?)
  }

  /** The criteria at the given places whose latest claim the filter picks. */
  function Claims(ledger: seq<Event>, s: State, ids: seq<CriterionId>, d: Disposition): seq<ClaimId> {
    if ids == [] then []
    else
      var c := CurrentClaim(ledger, s, ids[|ids| - 1]);
      Claims(ledger, s, ids[..|ids| - 1], d) + (if c.Some? && c.value.disposition == d then [c.value.id] else [])
  }

  function MetClaims(env: Env, ledger: seq<Event>, s: State, ids: seq<CriterionId>): seq<ClaimId> {
    if ids == [] then []
    else
      var k := ids[|ids| - 1];
      MetClaims(env, ledger, s, ids[..|ids| - 1])
      + (if Met(env, ledger, s, k) then [CurrentClaim(ledger, s, k).value.id] else [])
  }

  function Missing(ledger: seq<Event>, s: State, ids: seq<CriterionId>): seq<CriterionId> {
    if ids == [] then []
    else
      Missing(ledger, s, ids[..|ids| - 1])
      + (if CurrentClaim(ledger, s, ids[|ids| - 1]).None? then [ids[|ids| - 1]] else [])
  }

  function BlockerOf(env: Env, ledger: seq<Event>, s: State, criterion: CriterionId): Option<Blocker> {
    match CurrentClaim(ledger, s, criterion)
    case None => Some(NoClaim(criterion))
    case Some(c) =>
      match c.disposition
      case NeedsValidation => Some(ClaimNeedsValidation(c.id))
      case Rejected => Some(ClaimWasRejected(c.id))
      case Verified => VerifiedClaimBlocker(env, ledger, s, c)
  }

  function Blockers(env: Env, ledger: seq<Event>, s: State, ids: seq<CriterionId>): seq<Blocker> {
    if ids == [] then []
    else
      var b := BlockerOf(env, ledger, s, ids[|ids| - 1]);
      Blockers(env, ledger, s, ids[..|ids| - 1]) + (if b.Some? then [b.value] else [])
  }

  lemma NothingBlocks(env: Env, ledger: seq<Event>, s: State, criterion: CriterionId)
    ensures BlockerOf(env, ledger, s, criterion).None? <==> Met(env, ledger, s, criterion)
    ensures Met(env, ledger, s, criterion) ==>
              CurrentClaim(ledger, s, criterion).Some? && CurrentClaim(ledger, s, criterion).value.disposition.Verified?
  {
    hide VerifiedClaimBlocker, CurrentClaim;
  }

  lemma {:induction false} NoBlockers(env: Env, ledger: seq<Event>, s: State, ids: seq<CriterionId>)
    ensures Blockers(env, ledger, s, ids) == [] <==> forall k | k in ids :: Met(env, ledger, s, k)
    ensures Blockers(env, ledger, s, ids) == [] ==>
              && Missing(ledger, s, ids) == []
              && Claims(ledger, s, ids, Disposition.NeedsValidation) == []
              && Claims(ledger, s, ids, Disposition.Rejected) == []
  {
    hide BlockerOf, Met, CurrentClaim;
    if ids != [] {
      var front, last := ids[..|ids| - 1], ids[|ids| - 1];
      NoBlockers(env, ledger, s, front);
      NothingBlocks(env, ledger, s, last);
      assert ids == front + [last];
      assert (forall k | k in ids :: Met(env, ledger, s, k))
        <==> (forall k | k in front :: Met(env, ledger, s, k)) && Met(env, ledger, s, last);
    }
  }

  function PendingBlockers(ids: seq<ApprovalId>): (r: seq<Blocker>)
    ensures |r| == |ids|
  {
    seq(|ids|, i requires 0 <= i < |ids| => ApprovalPending(ids[i]))
  }

  function UnknownBlockers(ids: seq<OperationId>): (r: seq<Blocker>)
    ensures |r| == |ids|
  {
    seq(|ids|, i requires 0 <= i < |ids| => OperationUnknown(ids[i]))
  }

  lemma PendingMeaning(s: State)
    ensures forall k :: k in PendingApprovals(s) <==> k in s.approvals && s.approvals[k].status.Pending?
    ensures forall k :: k in UnknownOperations(s)
                        <==> k in s.operations && (s.operations[k].status.Started? || s.operations[k].status.Unknown?)
  {
  }

  lemma NothingPending(s: State)
    ensures Ascending(PendingApprovals(s)) == [] <==> forall k | k in s.approvals :: !s.approvals[k].status.Pending?
  {
    PendingMeaning(s);
    hide PendingApprovals;
    assert Ascending(PendingApprovals(s)) == [] <==> PendingApprovals(s) == {};
  }

  lemma NothingUnknown(s: State)
    ensures Ascending(UnknownOperations(s)) == [] <==>
              forall k | k in s.operations :: !s.operations[k].status.Started? && !s.operations[k].status.Unknown?
  {
    PendingMeaning(s);
    hide UnknownOperations;
    assert Ascending(UnknownOperations(s)) == [] <==> UnknownOperations(s) == {};
  }

  /** Nothing collected means that the gate is ready. */
  lemma GateDecides(env: Env, ledger: seq<Event>, s: State, task: TaskId)
    ensures GateReady(env, ledger, s, task) <==>
              && Blockers(env, ledger, s, Ascending(RequiredCriteria(s, task))) == []
              && Ascending(PendingApprovals(s)) == []
              && Ascending(UnknownOperations(s)) == []
  {
    hide Met, Blockers, PendingApprovals, UnknownOperations;
    var ids := Ascending(RequiredCriteria(s, task));
    NoBlockers(env, ledger, s, ids);
    assert forall k :: k in ids <==> k in RequiredCriteria(s, task);
    NothingPending(s);
    NothingUnknown(s);
  }

  /** The lists the gate builds from the criteria at `ids`. */
  ghost predicate Collected(
    env: Env, ledger: seq<Event>, s: State, ids: seq<CriterionId>, missing: seq<CriterionId>,
    needsValidation: seq<ClaimId>, rejected: seq<ClaimId>, blockers: seq<Blocker>, verified: seq<ClaimId>)
  {
    && missing == Missing(ledger, s, ids)
    && needsValidation == Claims(ledger, s, ids, Disposition.NeedsValidation)
    && rejected == Claims(ledger, s, ids, Disposition.Rejected)
    && blockers == Blockers(env, ledger, s, ids)
    && verified == MetClaims(env, ledger, s, ids)
  }

  lemma CollectOne(
    env: Env, ledger: seq<Event>, s: State, ids: seq<CriterionId>, i: nat, missing: seq<CriterionId>,
    needsValidation: seq<ClaimId>, rejected: seq<ClaimId>, blockers: seq<Blocker>, verified: seq<ClaimId>)
    requires i < |ids| && Collected(env, ledger, s, ids[..i], missing, needsValidation, rejected, blockers, verified)
    ensures var claim := CurrentClaim(ledger, s, ids[i]);
            var b := BlockerOf(env, ledger, s, ids[i]);
            Collected(env, ledger, s, ids[..i + 1],
                      if claim.None? then missing + [ids[i]] else missing,
                      if claim.Some? && claim.value.disposition.NeedsValidation?
                      then needsValidation + [claim.value.id] else needsValidation,
                      if claim.Some? && claim.value.disposition.Rejected? then rejected + [claim.value.id] else rejected,
                      if b.Some? then blockers + [b.value] else blockers,
                      if b.None? && claim.Some? then verified + [claim.value.id] else verified)
  {
    hide VerifiedClaimBlocker, CurrentClaim;
    assert ids[..i + 1][..i] == ids[..i];
  }

  /** Walks the required criteria, collecting what is missing, what needs review,
      what was rejected and what blocks. */
  method CollectCriteria(env: Env, s: State, ledger: seq<Event>, ids: seq<CriterionId>)
    returns (missing: seq<CriterionId>, needsValidation: seq<ClaimId>, rejected: seq<ClaimId>,
             blockers: seq<Blocker>, verified: seq<ClaimId>)
    ensures Collected(env, ledger, s, ids, missing, needsValidation, rejected, blockers, verified)
  {
    hide VerifiedClaimBlocker, LatestClaim, Collected;
    var latest := LatestClaims(ledger);
    missing, needsValidation, rejected, blockers, verified := [], [], [], [], [];
    CollectNone(env, ledger, s);
    for i := 0 to |ids|
      invariant Collected(env, ledger, s, ids[..i], missing, needsValidation, rejected, blockers, verified)
    {
      var k := ids[i];
      var claim := if k in latest && latest[k] in s.claims then Some(s.claims[latest[k]]) else None;
      assert claim == CurrentClaim(ledger, s, k);
      CollectOne(env, ledger, s, ids, i, missing, needsValidation, rejected, blockers, verified);
      if claim.None? {
        missing := missing + [k];
        blockers := blockers + [NoClaim(k)];
        continue;
      }
      var c := claim.value;
      match c.disposition {
        case NeedsValidation =>
          needsValidation := needsValidation + [c.id];
          blockers := blockers + [ClaimNeedsValidation(c.id)];
        case Rejected =>
          rejected := rejected + [c.id];
          blockers := blockers + [ClaimWasRejected(c.id)];
        case Verified =>
          var blocker := VerifiedClaimBlocker(env, ledger, s, c);
          if blocker.Some? {
            blockers := blockers + [blocker.value];
            continue;
          }
          verified := verified + [c.id];
      }
    }
    assert ids[..|ids|] == ids;
  }

  lemma CollectNone(env: Env, ledger: seq<Event>, s: State)
    ensures Collected(env, ledger, s, [], [], [], [], [], [])
  {
  }

  /** Evaluates the gate of a task: what the criteria leave open, then the pending
      approvals and the operations in an unknown state. */
  method EvaluateTaskCompletionIn(env: Env, s: State, ledger: seq<Event>, task: TaskId)
    returns (r: Result<Gate, CompletionError>)
    ensures r.Err? <==> task !in s.tasks
    ensures r.Ok? ==> (r.value.Ready? <==> GateReady(env, ledger, s, task))
    ensures r.Ok? ==>
              var ids := Ascending(RequiredCriteria(s, task));
              if r.value.Ready? then r.value.verified == MetClaims(env, ledger, s, ids)
              else
                && r.value.missing == Missing(ledger, s, ids)
                && r.value.needsValidation == Claims(ledger, s, ids, Disposition.NeedsValidation)
                && r.value.rejected == Claims(ledger, s, ids, Disposition.Rejected)
                && r.value.pendingApprovals == Ascending(PendingApprovals(s))
                && r.value.unknownOperations == Ascending(UnknownOperations(s))
                && Sorted(NatLt, r.value.pendingApprovals) && Sorted(NatLt, r.value.unknownOperations)
                && (forall k :: k in r.value.pendingApprovals <==> k in s.approvals && s.approvals[k].status.Pending?)
                && (forall k :: k in r.value.unknownOperations <==>
                      k in s.operations && (s.operations[k].status.Started? || s.operations[k].status.Unknown?))
                && r.value.blockers == Blockers(env, ledger, s, ids) + PendingBlockers(r.value.pendingApprovals)
                                       + UnknownBlockers(r.value.unknownOperations)
  {
    if task !in s.tasks {
      return Err(UnknownTask);
    }
    PendingMeaning(s);
    hide GateReady, Blockers, Missing, Claims, MetClaims, Met, RequiredCriteria, PendingApprovals, UnknownOperations, Sorted;
    var ids := Ascending(RequiredCriteria(s, task));
    var missing, needsValidation, rejected, blockers, verified := CollectCriteria(env, s, ledger, ids);
    NoBlockers(env, ledger, s, ids);
    GateDecides(env, ledger, s, task);
    var pending, unknown := Ascending(PendingApprovals(s)), Ascending(UnknownOperations(s));
    AscendingSorted(PendingApprovals(s));
    AscendingSorted(UnknownOperations(s));
    blockers := blockers + PendingBlockers(pending) + UnknownBlockers(unknown);
    if missing == [] && needsValidation == [] && rejected == [] && blockers == [] && pending == [] && unknown == [] {
      return Ok(Ready(verified));
    }
    return Ok(Gate.Blocked(missing, needsValidation, rejected, blockers, pending, unknown));
  }

  // ---------------------------------------------------------------- completing a task

  datatype CompletionPlan = AlreadyCompleted(task: Task) | Complete(completed: Task, event: Event)

  /** Replays the events it loaded, evaluates the gate and plans the completion. */
  function PlanCompletion(
    env: Env, ledger: seq<Event>, actor: PrincipalId, task: TaskId, expected: nat, event: EventId):
    Result<CompletionPlan, CompletionError>
  {
    match Replay(env, ledger)
    case None => Err(ReplayFailed)
    case Some(s) =>
      if task !in s.tasks then Err(UnknownTask)
      else if IsModelActor(s, actor) then Err(ModelCannotVerify)
      else if s.tasks[task].status.Completed? then Ok(AlreadyCompleted(s.tasks[task]))
      else if expected != s.revision then Err(StaleRevision)
      else if !GateReady(env, ledger, s, task) then Err(GateBlocked)
      else
        match TransitionTask(s.tasks[task], TaskStatus.Completed)
        case None => Err(InvalidTaskTransition)
        case Some(t) =>
          Ok(Complete(t, CompletionEvent(env, actor, event, TaskCompleted(t), EntityKind.Task, task, task, None, None)))
  }
}
