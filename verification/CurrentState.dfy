/** The projected state as the runtime holds it: maps that the projector updates
    in place, one event at a time. */
module CurrentState {
  import opened Prelude
  import opened Ordering
  import opened Model
  import opened Evidence
  import opened Deliberation
  import opened Projector
  import opened Ledger
  import opened Transition

  /** What an event changes, before it is counted. */
  function Changed(s: State, e: Event): State {
    After(s, e).(revision := s.revision, applied := s.applied)
  }

  /** Goes through the relationships one by one. */
  method IndexRelationships(s: State, c: Conflict) returns (next: map<RelationshipId, Relationship>)
    ensures next == IndexAll(s, c)
  {
    hide IndexConflict;
    next := s.relationships;
    var left := next.Keys;
    while left != {}
      invariant left <= s.relationships.Keys == next.Keys
      invariant forall id | id in next ::
                  next[id] == if id in left then s.relationships[id] else IndexConflict(s, c, s.relationships[id])
      decreases |left|
    {
      var id := Least(left);
      next := next[id := IndexConflict(s, c, next[id])];
      left := left - {id};
    }
  }

  // ---------------------------------------------------------------- what each group of kinds may change

  /** Who takes part, and what was said and asked for. */
  predicate IsEntry(b: Body) {
    b.PrincipalCreated? || b.RelationshipCreated? || b.ObservationRecorded? || b.UserMessageReceived? || b.TaskCreated?
  }

  lemma EntryChange(s: State, t: State, e: Event)
    requires IsEntry(e.body)
    requires t == s.(principals := t.principals, relationships := t.relationships, observations := t.observations,
                     tasks := t.tasks)
    requires t.principals == if e.body.PrincipalCreated? then s.principals[e.body.principal.id := e.body.principal]
                             else s.principals
    requires t.relationships == NextRelationships(s, e.body)
    requires t.observations == NextObservations(s, e.body)
    requires t.tasks == NextTasks(s, e.body)
    ensures t == Changed(s, e)
  {
  }

  /** What is to be done. */
  predicate IsAction(b: Body) {
    b.IntentCreated? || b.OperationEvent? || b.ApprovalEvent?
  }

  lemma ActionChange(s: State, t: State, e: Event)
    requires IsAction(e.body)
    requires t == s.(intents := t.intents, operations := t.operations, approvals := t.approvals)
    requires t.intents == if e.body.IntentCreated? then s.intents[e.body.intent.id := e.body.intent] else s.intents
    requires t.operations == NextOperations(s, e.body)
    requires t.approvals == if e.body.ApprovalEvent? then s.approvals[e.body.approval.id := e.body.approval]
                            else s.approvals
    ensures t == Changed(s, e)
  {
  }

  /** What came of it. */
  predicate IsOutcome(b: Body) {
    b.ReceiptRecorded? || b.ArtifactCreated? || b.EffectVerified?
  }

  lemma OutcomeChange(s: State, t: State, e: Event)
    requires IsOutcome(e.body)
    requires t == s.(receipts := t.receipts, artifacts := t.artifacts, operations := t.operations,
                     effects := t.effects)
    requires t.receipts == if e.body.ReceiptRecorded? then s.receipts[e.body.receipt.id := e.body.receipt]
                           else s.receipts
    requires t.artifacts == if e.body.ArtifactCreated? then s.artifacts[e.body.artifact.id := e.body.artifact]
                            else s.artifacts
    requires t.operations == NextOperations(s, e.body)
    requires t.effects == if e.body.EffectVerified? then s.effects[e.body.effect.id := e.body.effect] else s.effects
    ensures t == Changed(s, e)
  {
  }

  /** Memories and their candidates. */
  predicate IsMemoryRecord(b: Body) {
    b.MemoryCandidateEvent? || b.MemoryEvent?
  }

  lemma MemoryRecordChange(s: State, t: State, e: Event)
    requires IsMemoryRecord(e.body)
    requires t == s.(memories := t.memories, memoryCandidates := t.memoryCandidates)
    requires t.memories == NextMemories(s, e.body)
    requires t.memoryCandidates == NextMemoryCandidates(s, e.body)
    ensures t == Changed(s, e)
  {
  }

  /** Tasks and their criteria. */
  predicate IsDefinition(b: Body) {
    b.TaskCompleted? || b.CriterionDefined?
  }

  /** Claims about criteria. */
  predicate IsClaim(b: Body) {
    b.ClaimCreated? || b.ClaimVerified? || b.ClaimRejected?
  }

  /** Reviews of candidates. */
  predicate IsReview(b: Body) {
    b.CandidateVerified? || b.CandidateRejected?
  }

  /** What became of Memory candidates. */
  predicate IsMaterialization(b: Body) {
    b.CandidateMaterialized? || b.MemoryRevisionMaterialized?
  }

  /** Storing a Position of HEKATE's over, or after, one of HEKATE's touches nothing else. */
  lemma OthersUntouched(s: State, p: Position, m: PositionMaterialization)
    requires IsModelActor(s, p.principal)
    requires p.id in s.positions ==> s.positions[p.id].principal == p.principal
    requires m.action.Revise? && p.supersedes.Some? && p.supersedes.value in s.positions ==>
               s.positions[p.supersedes.value].principal == p.principal
    ensures var after := StoreIntegratedPosition(s, p, m);
            && (forall id | id in s.positions && !IsModelActor(s, s.positions[id].principal) ::
                  id in after && after[id] == s.positions[id])
            && (forall id | id in s.positions && after[id] != s.positions[id] :: id == p.id || Some(id) == p.supersedes)
  {
  }

  class CurrentState {
    var revision: nat
    var principals: map<PrincipalId, Principal>
    var relationships: map<RelationshipId, Relationship>
    var observations: map<ObservationId, Observation>
    var tasks: map<TaskId, Task>
    var positions: map<PositionId, Position>
    var conflicts: map<ConflictId, Conflict>
    var intents: map<IntentId, Intent>
    var operations: map<OperationId, Operation>
    var approvals: map<ApprovalId, Approval>
    var receipts: map<ReceiptId, Receipt>
    var effects: map<VerificationId, EffectVerification>
    var artifacts: map<ArtifactId, Artifact>
    var criteria: map<CriterionId, Criterion>
    var claims: map<ClaimId, Claim>
    var memoryCandidates: map<MemoryCandidateId, MemoryCandidate>
    var memories: map<MemoryId, Memory>
    var sleepRuns: map<SleepRunId, SleepRun>
    var sleepCursor: nat
    var candidates: map<CandidateId, IntegrationCandidate>
    var verifications: map<CandidateId, IntegrationVerification>
    var materializations: map<CandidateId, IntegrationMaterialization>
    var positionMaterializations: map<CandidateId, PositionMaterialization>
    var memoryRevisions: map<CandidateId, MemoryRevisionMaterialization>
    var applied: seq<EventId>

    constructor ()
      ensures View() == EMPTY_STATE
    {
      revision, sleepCursor, applied := 0, 0, [];
      principals, relationships, observations, tasks := map[], map[], map[], map[];
      positions, conflicts, intents, operations := map[], map[], map[], map[];
      approvals, receipts, effects, artifacts := map[], map[], map[], map[];
      criteria, claims, memoryCandidates, memories := map[], map[], map[], map[];
      sleepRuns, candidates, verifications := map[], map[], map[];
      materializations, positionMaterializations, memoryRevisions := map[], map[], map[];
    }

    /** A copy of a stored state. */
    constructor Load(s: State)
      ensures View() == s
    {
      revision, sleepCursor, applied := s.revision, s.sleepCursor, s.applied;
      principals, relationships, observations, tasks := s.principals, s.relationships, s.observations, s.tasks;
      positions, conflicts, intents, operations := s.positions, s.conflicts, s.intents, s.operations;
      approvals, receipts, effects, artifacts := s.approvals, s.receipts, s.effects, s.artifacts;
      criteria, claims, memoryCandidates, memories := s.criteria, s.claims, s.memoryCandidates, s.memories;
      sleepRuns, candidates, verifications := s.sleepRuns, s.candidates, s.verifications;
      materializations, positionMaterializations, memoryRevisions :=
        s.materializations, s.positionMaterializations, s.memoryRevisions;
    }

    function View(): State
      reads this
    {
      State(revision, principals, relationships, observations, tasks, positions, conflicts, intents, operations,
            approvals, receipts, effects, artifacts, criteria, claims, memoryCandidates, memories, sleepRuns,
            sleepCursor, candidates, verifications, materializations, positionMaterializations, memoryRevisions, applied)
    }

    // ---------------------------------------------------------------- tasks

    method ApplyTaskCompletion(e: Event, t: Task) returns (ok: bool)
      modifies `tasks
      ensures ok <==> TaskCompletionAccepted(old(View()), e, t)
      ensures View() == if ok then old(View()).(tasks := old(View()).tasks[t.id := t]) else old(View())
    {
      if e.subject != Some(EntityRef(EntityKind.Task, t.id)) {
        return false;
      }
      if t.id !in tasks {
        return false;
      }
      var record := new TaskRecord(tasks[t.id]);
      var moved := record.Transition(TaskStatus.Completed);
      if !moved || record.task != t {
        return false;
      }
      tasks := tasks[t.id := t];
      return true;
    }

    // ---------------------------------------------------------------- Positions

    /** Outside integration nothing is checked; a revision supersedes its predecessor. */
    method ApplyPosition(kind: PositionEventKind, p: Position)
      modifies `positions
      ensures View() == old(View()).(positions := StorePlainPosition(old(View()), kind, p))
    {
      if kind.Revised? && p.supersedes.Some? && p.supersedes.value in positions {
        var previous := positions[p.supersedes.value];
        positions := positions[p.supersedes.value := previous.(status := PositionStatus.Superseded)];
      }
      positions := positions[p.id := p];
    }

    method CheckIntegrationRef(c: IntegrationCandidate, r: EvidenceRef, asOf: nat) returns (ok: bool)
      ensures ok <==> IntegrationEvidenceOk(View(), c, r, asOf)
    {
      if !ValidSha256Hex(r.sourceHash) {
        return false;
      }
      if r.asOf > asOf {
        return false;
      }
      if r.event !in c.sources && r.event !in c.counter {
        return false;
      }
      var index := IndexOf(applied, r.event);
      if index.None? {
        return false;
      }
      if index.value + 1 > r.asOf || index.value + 1 > asOf {
        return false;
      }
      if r.artifact.Some? {
        if r.artifact.value !in artifacts {
          return false;
        }
        var artifact := artifacts[r.artifact.value];
        if artifact.provenance != r.event || artifact.contentHash != r.sourceHash {
          return false;
        }
      }
      return true;
    }

    method CheckIntegrationEvidence(c: IntegrationCandidate, refs: seq<EvidenceRef>, asOf: nat) returns (ok: bool)
      ensures ok <==> IntegrationEvidenceValid(View(), c, refs, asOf)
    {
      hide IntegrationEvidenceOk;
      for i := 0 to |refs|
        invariant forall r | r in refs[..i] :: IntegrationEvidenceOk(View(), c, r, asOf)
      {
        ok := CheckIntegrationRef(c, refs[i], asOf);
        if !ok {
          return false;
        }
      }
      return true;
    }

    /** The event is about the Position and the candidate it claims to integrate. */
    method CheckPositionEnvelope(e: Event, p: Position, m: PositionMaterialization) returns (ok: bool)
      ensures ok <==> PositionEnvelopeOk(e, p, m)
    {
      if e.subject.None? || e.subject.value.kind != EntityKind.Position || e.subject.value.id != p.id
         || m.position != p.id || m.positionEvent != e.id
      {
        return false;
      }
      if !e.source.PositionIntegration? || e.sourceRef != Some(m.candidate) || e.correlation != Some(m.candidate)
         || e.causation != Some(m.verificationEvent)
      {
        return false;
      }
      return true;
    }

    /** The candidate was verified as the materialization says, and was not materialized yet. */
    method CheckPositionProvenance(env: Env, m: PositionMaterialization) returns (ok: bool)
      ensures ok <==> PositionProvenanceOk(env, View(), m)
      ensures ok ==> m.candidate in candidates
    {
      hide IntegrationEvidenceValid, Normalize, FingerprintMatches;
      if m.candidate !in candidates {
        return false;
      }
      var c := candidates[m.candidate];
      if c.kind != CandidateKind.Position || !c.disposition.Verified? {
        return false;
      }
      if m.candidate in positionMaterializations {
        return false;
      }
      if m.candidate !in verifications {
        return false;
      }
      var v := verifications[m.candidate];
      var evidence := Normalize(m.evidence);
      if !v.disposition.Verified? || v.verificationEvent != Some(m.verificationEvent) || evidence != v.evidence
         || m.verificationEvent !in applied
      {
        return false;
      }
      if m.fingerprint != c.fingerprint || !FingerprintMatches(env, c) || m.sources != c.sources || m.counter != c.counter
         || m.asOf != c.asOf || c.asOf > revision || exists id | id in c.sources + c.counter :: id !in applied
      {
        return false;
      }
      ok := CheckIntegrationEvidence(c, evidence, m.asOf);
    }

    /** The action fits the Position it starts from, and the kind of the event. */
    method CheckPositionAction(kind: PositionEventKind, p: Position, m: PositionMaterialization) returns (ok: bool)
      ensures ok <==> PositionActionOk(View(), kind, p, m)
    {
      match m.action {
        case Establish =>
          if m.prior.Some? || !p.status.Active? || p.version != 1 || p.supersedes.Some? {
            return false;
          }
        case Revise =>
          if m.prior.None? {
            return false;
          }
          var prior := m.prior.value;
          if prior.id !in positions || positions[prior.id] != prior || !prior.status.Active? || p.id == prior.id
             || p.supersedes != Some(prior.id) || p.principal != prior.principal || p.subject != prior.subject
             || CheckedAddU32(prior.version, 1) != Some(p.version) || !p.status.Active?
          {
            return false;
          }
        case Withdraw =>
          if m.prior.None? {
            return false;
          }
          var prior := m.prior.value;
          if prior.id !in positions || positions[prior.id] != prior || !prior.status.Active? || p.id != prior.id
             || p.supersedes.Some? || !p.status.Retracted? || p.version != prior.version || p.principal != prior.principal
             || p.subject != prior.subject || p.stance != prior.stance
          {
            return false;
          }
      }
      var expected :=
        match m.action
        case Establish => PositionEventKind.Established
        case Revise => PositionEventKind.Revised
        case Withdraw => PositionEventKind.Retracted;
      return kind == expected;
    }

    /** The guards of an integrated Position event, in the order they are checked. */
    method CheckPositionIntegration(env: Env, e: Event, kind: PositionEventKind, p: Position, m: PositionMaterialization)
      returns (ok: bool)
      ensures ok <==> PositionIntegrationAccepted(env, View(), e, kind, p, m)
    {
      hide PositionEnvelopeOk, PositionProvenanceOk, PositionActionOk, PositionMatchesProposal, PositionIntegrationBlocked;
      ok := CheckPositionEnvelope(e, p, m);
      if !ok {
        return;
      }
      if e.actor !in principals || principals[e.actor].kind.Hekate? {
        return false;
      }
      if p.principal !in principals || !principals[p.principal].kind.Hekate? {
        return false;
      }
      ok := CheckPositionProvenance(env, m);
      if !ok {
        return;
      }
      var c := candidates[m.candidate];
      if !PositionMatchesProposal(env, c, p, m) {
        return false;
      }
      if p.confidence != c.confidence {
        return false;
      }
      ok := CheckPositionAction(kind, p, m);
      if !ok {
        return;
      }
      if PositionIntegrationBlocked(env, View(), p.principal, p.subject, TargetOf(m)) {
        return false;
      }
      if !ValidPositionRevision(View(), p) {
        return false;
      }
      if !m.action.Withdraw? && p.evidence != c.sources {
        return false;
      }
      if m.action.Withdraw? && exists id | id in c.sources :: id !in p.evidence {
        return false;
      }
      return true;
    }

    /** Applies an integrated Position event. Only HEKATE's Positions can change by it,
        on somebody else's word, and each candidate changes them once. */
    method ApplyPositionIntegration(env: Env, e: Event, kind: PositionEventKind, p: Position, m: PositionMaterialization)
      returns (ok: bool)
      modifies `positions, `positionMaterializations
      ensures ok <==> PositionIntegrationAccepted(env, old(View()), e, kind, p, m)
      ensures View()
              == if ok then
                   old(View()).(positions := StoreIntegratedPosition(old(View()), p, m),
                                positionMaterializations := old(View()).positionMaterializations[m.candidate := m])
                 else old(View())
      ensures ok ==> IsModelActor(old(View()), p.principal) && !IsModelActor(old(View()), e.actor)
      ensures ok ==> m.candidate !in old(positionMaterializations)
      ensures forall id | id in old(positions) && !IsModelActor(old(View()), old(positions)[id].principal) ::
                id in positions && positions[id] == old(positions)[id]
      ensures ok ==> forall id | id in old(positions) && positions[id] != old(positions)[id] ::
                       id == p.id || Some(id) == p.supersedes
    {
      hide PositionIntegrationAccepted;
      ok := CheckPositionIntegration(env, e, kind, p, m);
      if !ok {
        return;
      }
      IntegratedOwner(env, View(), e, kind, p, m);
      OthersUntouched(View(), p, m);
      if m.action.Revise? && p.supersedes.Some? && p.supersedes.value in positions {
        var previous := positions[p.supersedes.value];
        positions := positions[p.supersedes.value := previous.(status := PositionStatus.Superseded)];
      }
      positions := positions[p.id := p];
      positionMaterializations := positionMaterializations[m.candidate := m];
      return true;
    }

    // ---------------------------------------------------------------- conflicts and effects

    /** Updates the index of every relationship the conflict touches, then stores it. */
    method StoreConflict(c: Conflict)
      modifies `relationships, `conflicts
      ensures View() == old(View()).(relationships := IndexAll(old(View()), c),
                                     conflicts := old(View()).conflicts[c.id := c])
    {
      hide IndexAll;
      relationships := IndexRelationships(View(), c);
      conflicts := conflicts[c.id := c];
    }

    /** Stores what a check found, and settles the operation it was about. */
    method ApplyEffect(v: EffectVerification)
      modifies `operations, `effects
      ensures operations == NextOperations(old(View()), EffectVerified(v))
      ensures effects == old(effects)[v.id := v]
    {
      if v.operation in operations {
        var status :=
          match v.status
          case Verified => OperationStatus.Verified
          case Disputed => OperationStatus.Disputed
          case Failed => OperationStatus.Failed;
        operations := operations[v.operation := operations[v.operation].(status := status)];
      }
      effects := effects[v.id := v];
    }

    // ---------------------------------------------------------------- completion

    method DefineCriterion(env: Env, c: Criterion) returns (ok: bool)
      modifies `criteria
      ensures ok <==> CriterionAccepted(env, old(View()), c)
      ensures View()
              == if ok then
                   old(View()).(criteria := old(View()).criteria[c.id := c.(description := Trim(c.description))])
                 else old(View())
    {
      hide Trim;
      if Trim(c.description) == "" {
        return false;
      }
      if c.task !in tasks {
        return false;
      }
      if c.id in criteria {
        return false;
      }
      var normalized := env.normalize(c.description);
      if exists id | id in criteria ::
           criteria[id].task == c.task && env.normalize(criteria[id].description) == normalized
      {
        return false;
      }
      criteria := criteria[c.id := c.(description := Trim(c.description))];
      return true;
    }

    method CheckClaimRef(r: EvidenceRef, asOf: nat) returns (ok: bool)
      ensures ok <==> ClaimEvidenceOk(View(), r, asOf)
    {
      if !ValidSha256Hex(r.sourceHash) {
        return false;
      }
      if r.asOf > asOf {
        return false;
      }
      var index := IndexOf(applied, r.event);
      if index.None? || index.value + 1 > asOf {
        return false;
      }
      if r.artifact.Some? {
        if r.artifact.value !in artifacts {
          return false;
        }
        var artifact := artifacts[r.artifact.value];
        if artifact.provenance != r.event {
          return false;
        }
        if artifact.contentHash != r.sourceHash {
          return false;
        }
      }
      return true;
    }

    method CheckClaimEvidence(refs: seq<EvidenceRef>, asOf: nat) returns (ok: bool)
      ensures ok <==> forall r | r in refs :: ClaimEvidenceOk(View(), r, asOf)
    {
      hide ClaimEvidenceOk;
      for i := 0 to |refs|
        invariant forall r | r in refs[..i] :: ClaimEvidenceOk(View(), r, asOf)
      {
        ok := CheckClaimRef(refs[i], asOf);
        if !ok {
          return false;
        }
      }
      return true;
    }

    method ApplyClaimCreated(env: Env, actor: PrincipalId, claim: Claim) returns (ok: bool)
      modifies `claims
      ensures ok <==> !IsModelActor(old(View()), actor) && ClaimAccepted(env, old(View()), claim)
      ensures View() == if ok then old(View()).(claims := old(View()).claims[claim.id := NormalizedClaim(claim)])
                        else old(View())
    {
      hide Normalize, CompletionFingerprint, ClaimEvidenceOk;
      if IsModelActor(View(), actor) {
        return false;
      }
      if claim.task !in tasks {
        return false;
      }
      if claim.criterion !in criteria {
        return false;
      }
      if criteria[claim.criterion].task != claim.task {
        return false;
      }
      if !claim.disposition.NeedsValidation? {
        return false;
      }
      if claim.confidence > 100 {
        return false;
      }
      if claim.asOf > revision {
        return false;
      }
      var c := claim.(evidence := Normalize(claim.evidence));
      if c.fingerprint != CompletionFingerprint(env, c.task, c.criterion, c.evidence) {
        return false;
      }
      ok := CheckClaimEvidence(c.evidence, c.asOf);
      if !ok {
        return;
      }
      if c.id in claims {
        return false;
      }
      if exists id | id in claims :: claims[id].fingerprint == c.fingerprint {
        return false;
      }
      if c.supersedes.Some? {
        if c.supersedes.value !in claims {
          return false;
        }
        var previous := claims[c.supersedes.value];
        if previous.task != c.task || previous.criterion != c.criterion {
          return false;
        }
      }
      claims := claims[c.id := c];
      return true;
    }

    method ApplyClaimTransition(actor: PrincipalId, t: ClaimTransition, expected: Disposition) returns (ok: bool)
      modifies `claims
      ensures ok <==> !IsModelActor(old(View()), actor) && ClaimTransitionAccepted(old(View()), t, expected)
      ensures View() == if ok then old(View()).(claims := SetDisposition(old(View()).claims, t.claim, expected))
                        else old(View())
    {
      hide Normalize, Blank;
      if IsModelActor(View(), actor) {
        return false;
      }
      if t.claim !in claims {
        return false;
      }
      var c := claims[t.claim];
      if c.task != t.task || c.criterion != t.criterion {
        return false;
      }
      if c.disposition != t.previous || !t.previous.NeedsValidation? || t.disposition != expected {
        return false;
      }
      if Blank(t.reason) {
        return false;
      }
      if Normalize(t.evidence) != c.evidence {
        return false;
      }
      if expected.Verified? {
        if c.evidence == [] {
          return false;
        }
        if c.blocker.Some? && !Blank(c.blocker.value) {
          return false;
        }
      }
      claims := claims[t.claim := c.(disposition := expected)];
      return true;
    }

    // ---------------------------------------------------------------- Memories and Sleep

    /** Stores a Memory and carries its status over to its candidate. */
    method ApplyMemory(kind: MemoryEventKind, m: Memory)
      modifies `memories, `memoryCandidates
      ensures memories == old(memories)[m.id := m]
      ensures memoryCandidates == NextMemoryCandidates(old(View()), MemoryEvent(kind, m))
    {
      if m.candidate in memoryCandidates {
        var status :=
          match m.status
          case Active => MemoryCandidateStatus.Promoted
          case Superseded => MemoryCandidateStatus.Superseded
          case Expired => MemoryCandidateStatus.Expired;
        memoryCandidates := memoryCandidates[m.candidate := memoryCandidates[m.candidate].(status := status)];
      }
      memories := memories[m.id := m];
    }

    /** A run is started at the cursor, or ended as the run it was. */
    method CheckSleepRun(kind: SleepEventKind, r: SleepRun) returns (ok: bool)
      ensures ok <==> SleepRunAccepted(View(), kind, r)
    {
      if kind.Started? {
        if r.id in sleepRuns || !r.status.Running? || r.cursorBefore != sleepCursor || r.highWater > revision
           || r.cursorAfter.Some?
        {
          return false;
        }
        return true;
      }
      if r.id !in sleepRuns {
        return false;
      }
      var previous := sleepRuns[r.id];
      if !previous.status.Running? || r.cursorBefore != previous.cursorBefore || r.highWater != previous.highWater
         || r.seeds != previous.seeds
      {
        return false;
      }
      match kind {
        case Completed =>
          if r.cursorAfter.None? {
            return false;
          }
          if !r.status.Completed? || r.cursorAfter.value < r.cursorBefore || r.cursorAfter.value > r.highWater {
            return false;
          }
        case Interrupted =>
          if !r.status.Interrupted? || r.cursorAfter.Some? {
            return false;
          }
        case Failed =>
          if !r.status.Failed? || r.cursorAfter.Some? {
            return false;
          }
      }
      return true;
    }

    /** Starts or ends a run. Only a completion moves the cursor, to a revision between
        the run's own cursor and its high-water mark; a run ends once, with the seeds
        it started with. */
    method ApplySleepRun(kind: SleepEventKind, r: SleepRun) returns (ok: bool)
      modifies `sleepRuns, `sleepCursor
      ensures ok <==> SleepRunAccepted(old(View()), kind, r)
      ensures View()
              == if ok then
                   old(View()).(sleepRuns := old(View()).sleepRuns[r.id := r],
                                sleepCursor := NextSleepCursor(old(View()), SleepRunEvent(kind, r)))
                 else old(View())
      ensures sleepCursor != old(sleepCursor) ==> ok && kind.Completed?
      ensures ok && kind.Completed? ==> r.cursorBefore <= sleepCursor <= r.highWater
      ensures ok && kind.Started? ==> r.id !in old(sleepRuns) && r.cursorBefore == sleepCursor && r.highWater <= revision
      ensures ok && !kind.Started? ==>
                && r.id in old(sleepRuns) && old(sleepRuns)[r.id].status.Running? && !r.status.Running?
                && r.seeds == old(sleepRuns)[r.id].seeds
                && r.cursorBefore == old(sleepRuns)[r.id].cursorBefore && r.highWater == old(sleepRuns)[r.id].highWater
    {
      ok := CheckSleepRun(kind, r);
      if !ok {
        return;
      }
      if kind.Completed? {
        sleepCursor := r.cursorAfter.value;
      }
      sleepRuns := sleepRuns[r.id := r];
    }

    // ---------------------------------------------------------------- integration

    method CreateCandidate(env: Env, candidate: IntegrationCandidate, asOfPresent: bool) returns (ok: bool)
      modifies `candidates
      ensures ok <==> CandidateAccepted(env, old(View()), candidate, asOfPresent)
      ensures View()
              == if ok then
                   old(View()).(candidates :=
                     old(View()).candidates[candidate.id := EffectiveCandidate(old(View()), candidate, asOfPresent)])
                 else old(View())
    {
      hide Blank, CandidateFingerprint;
      var c := candidate;
      if !c.disposition.NeedsValidation? || Blank(c.content) || Blank(c.rationale) || c.sources == []
         || |c.sources| > MAX_CANDIDATE_SOURCES || |c.counter| > MAX_CANDIDATE_SOURCES || c.confidence > 100
      {
        return false;
      }
      if (exists id | id in c.sources :: id !in applied) || (exists id | id in c.counter :: id !in applied)
         || exists id | id in c.sources :: id in c.counter
      {
        return false;
      }
      if c.run !in sleepRuns {
        return false;
      }
      var run := sleepRuns[c.run];
      if !run.status.Running? {
        return false;
      }
      if c.asOf == 0 && !asOfPresent {
        c := c.(asOf := run.highWater);
      }
      if c.asOf != run.highWater {
        return false;
      }
      if CandidateFingerprint(env, c.kind, c.content, c.sources, c.counter) != c.fingerprint
         || exists id | id in candidates :: candidates[id].fingerprint == c.fingerprint
      {
        return false;
      }
      candidates := candidates[c.id := c];
      return true;
    }

    method CheckIntegrationTransition(env: Env, e: Event, v: IntegrationVerification, expected: Disposition)
      returns (ok: bool)
      ensures ok <==> CandidateTransitionAccepted(env, View(), e, v, expected)
      ensures ok ==> v.candidate in candidates
    {
      hide Blank, Normalize, Trim, FingerprintMatches, IntegrationEvidenceValid, ParsePositionProposal, ParseMemoryProposal;
      if e.subject.None? || e.subject.value.kind != EntityKind.IntegrationCandidate || e.subject.value.id != v.candidate {
        return false;
      }
      if e.actor != v.actor {
        return false;
      }
      if v.verificationEvent.Some? && v.verificationEvent.value != e.id {
        return false;
      }
      if v.actor !in principals || principals[v.actor].kind.Hekate? {
        return false;
      }
      if v.candidate !in candidates {
        return false;
      }
      var c := candidates[v.candidate];
      if c.disposition != v.previous || !v.previous.NeedsValidation? || v.disposition != expected {
        return false;
      }
      if Blank(v.reason) {
        return false;
      }
      if v.asOf != c.asOf || v.asOf > revision {
        return false;
      }
      if !FingerprintMatches(env, c) {
        return false;
      }
      if expected.Verified? && c.kind == CandidateKind.Position && ParsePositionProposal(env, c.content).None? {
        return false;
      }
      if expected.Verified? && c.kind == CandidateKind.MemoryRevision && ParseMemoryProposal(env, c.content).None? {
        return false;
      }
      var evidence := Normalize(v.evidence);
      if evidence == [] {
        return false;
      }
      ok := CheckIntegrationEvidence(c, evidence, v.asOf);
    }

    method ApplyIntegrationTransition(env: Env, e: Event, v: IntegrationVerification, expected: Disposition)
      returns (ok: bool)
      modifies `candidates, `verifications
      ensures ok <==> CandidateTransitionAccepted(env, old(View()), e, v, expected)
      ensures View()
              == if ok then
                   old(View()).(candidates := Dispose(old(View()).candidates, v.candidate, expected),
                                verifications := old(View()).verifications[v.candidate := StoredVerification(e, v)])
                 else old(View())
    {
      hide Trim, Normalize, CandidateTransitionAccepted;
      ok := CheckIntegrationTransition(env, e, v, expected);
      if !ok {
        return;
      }
      candidates := candidates[v.candidate := candidates[v.candidate].(disposition := expected)];
      var stored := v.(verificationEvent := Some(e.id), reason := Trim(v.reason), evidence := Normalize(v.evidence));
      verifications := verifications[v.candidate := stored];
      return true;
    }

    method CheckIntegrationMaterialization(env: Env, e: Event, m: IntegrationMaterialization) returns (ok: bool)
      ensures ok <==> MaterializationAccepted(env, View(), e, m)
    {
      hide Normalize, CandidateFingerprint, IntegrationEvidenceValid;
      if e.subject.None? || e.subject.value.kind != EntityKind.IntegrationCandidate || e.subject.value.id != m.candidate {
        return false;
      }
      if m.candidate !in candidates {
        return false;
      }
      var c := candidates[m.candidate];
      if !c.disposition.Verified? {
        return false;
      }
      if m.candidate in materializations {
        return false;
      }
      if CandidateFingerprint(env, c.kind, c.content, c.sources, c.counter) != m.fingerprint {
        return false;
      }
      if c.kind != CandidateKind.Memory {
        return false;
      }
      if m.sources != c.sources || m.counter != c.counter || m.asOf != c.asOf {
        return false;
      }
      if m.candidate !in verifications {
        return false;
      }
      var evidence := Normalize(m.evidence);
      if !verifications[m.candidate].disposition.Verified? || evidence != verifications[m.candidate].evidence {
        return false;
      }
      if m.memoryCandidate !in memoryCandidates {
        return false;
      }
      var mc := memoryCandidates[m.memoryCandidate];
      if !mc.status.Promoted? || !mc.kind.Lesson? || mc.content != c.content || mc.sources != c.sources {
        return false;
      }
      if m.memory !in memories {
        return false;
      }
      if !memories[m.memory].status.Active? || memories[m.memory].candidate != m.memoryCandidate {
        return false;
      }
      ok := CheckIntegrationEvidence(c, evidence, m.asOf);
    }

    method ApplyIntegrationMaterialization(env: Env, e: Event, m: IntegrationMaterialization) returns (ok: bool)
      modifies `materializations
      ensures ok <==> MaterializationAccepted(env, old(View()), e, m)
      ensures View()
              == if ok then
                   old(View()).(materializations :=
                     old(View()).materializations[m.candidate := m.(evidence := Normalize(m.evidence))])
                 else old(View())
    {
      hide Normalize, MaterializationAccepted;
      ok := CheckIntegrationMaterialization(env, e, m);
      if !ok {
        return;
      }
      materializations := materializations[m.candidate := m.(evidence := Normalize(m.evidence))];
      return true;
    }

    method CheckRevisionProvenance(env: Env, m: MemoryRevisionMaterialization) returns (ok: bool)
      ensures ok <==> RevisionProvenanceOk(env, View(), m)
      ensures ok ==> m.candidate in candidates
    {
      hide IntegrationEvidenceValid, Normalize, FingerprintMatches, ValidSha256Hex;
      if m.candidate !in candidates {
        return false;
      }
      var c := candidates[m.candidate];
      if c.kind != CandidateKind.MemoryRevision || !c.disposition.Verified? || m.candidate in memoryRevisions
         || !FingerprintMatches(env, c) || m.fingerprint != c.fingerprint || m.sources != c.sources
         || m.counter != c.counter || m.asOf != c.asOf || m.expectedEvent !in c.counter || !ValidSha256Hex(m.expectedHash)
      {
        return false;
      }
      if m.candidate !in verifications {
        return false;
      }
      var v := verifications[m.candidate];
      var evidence := Normalize(m.evidence);
      if !v.disposition.Verified? || v.verificationEvent != Some(m.verificationEvent) || evidence != v.evidence {
        return false;
      }
      ok := CheckIntegrationEvidence(c, evidence, m.asOf);
    }

    method CheckRevisionEffect(op: MemoryOperation, m: MemoryRevisionMaterialization) returns (ok: bool)
      ensures ok <==> RevisionEffectOk(View(), op, m)
    {
      hide Trim;
      if m.target != op.target || m.expectedEvent != op.expectedEvent || m.expectedHash != op.expectedHash {
        return false;
      }
      if m.target !in memories {
        return false;
      }
      var target := memories[m.target];
      if target.kind.ExplicitPreference? {
        return false;
      }
      match m.action {
        case Replace =>
          if m.replacement.None? {
            return false;
          }
          if m.replacement.value !in memories {
            return false;
          }
          var replacement := memories[m.replacement.value];
          if replacement.candidate !in memoryCandidates {
            return false;
          }
          var rc := memoryCandidates[replacement.candidate];
          if !op.Replace? || !target.status.Superseded? || !replacement.status.Active?
             || replacement.supersedes != Some(m.target) || replacement.kind != target.kind
             || replacement.subject != target.subject || rc.supersedes != Some(target.candidate)
             || rc.content != Trim(op.replacement)
          {
            return false;
          }
        case Expire =>
          if !op.Expire? || m.replacement.Some? || !target.status.Expired? {
            return false;
          }
      }
      return true;
    }

    /** The guards are those of the source; it checks the evidence last, after the effect. */
    method ApplyMemoryRevision(env: Env, e: Event, m: MemoryRevisionMaterialization) returns (ok: bool)
      modifies `memoryRevisions
      ensures ok <==> MemoryRevisionAccepted(env, old(View()), e, m)
      ensures View()
              == if ok then
                   old(View()).(memoryRevisions :=
                     old(View()).memoryRevisions[m.candidate := m.(evidence := Normalize(m.evidence))])
                 else old(View())
    {
      hide RevisionProvenanceOk, RevisionEffectOk, Normalize, ParseMemoryProposal;
      if e.subject != Some(EntityRef(EntityKind.IntegrationCandidate, m.candidate)) || !e.source.MemoryIntegration?
         || e.sourceRef != Some(m.candidate) || e.correlation != Some(m.candidate)
         || e.causation != Some(m.verificationEvent) || m.verificationEvent !in applied || m.expectedEvent !in applied
      {
        return false;
      }
      if e.actor !in principals || principals[e.actor].kind.Hekate? {
        return false;
      }
      ok := CheckRevisionProvenance(env, m);
      if !ok {
        return;
      }
      var op := ParseMemoryProposal(env, candidates[m.candidate].content);
      if op.None? {
        return false;
      }
      ok := CheckRevisionEffect(op.value, m);
      if !ok {
        return;
      }
      memoryRevisions := memoryRevisions[m.candidate := m.(evidence := Normalize(m.evidence))];
      return true;
    }

    // ---------------------------------------------------------------- one event

    method InsertEntry(e: Event)
      requires IsEntry(e.body)
      modifies `principals, `relationships, `observations, `tasks
      ensures View() == Changed(old(View()), e)
    {
      hide Changed;
      match e.body {
        case PrincipalCreated(p) => principals := principals[p.id := p];
        case RelationshipCreated(r) => relationships := relationships[r.id := r];
        case ObservationRecorded(o) => observations := observations[o.id := o];
        case UserMessageReceived(o) => observations := observations[o.id := o];
        case TaskCreated(t) => tasks := tasks[t.id := t];
      }
      EntryChange(old(View()), View(), e);
    }

    method InsertAction(e: Event)
      requires IsAction(e.body)
      modifies `intents, `operations, `approvals
      ensures View() == Changed(old(View()), e)
    {
      hide Changed;
      match e.body {
        case IntentCreated(i) => intents := intents[i.id := i];
        case OperationEvent(_, o) => operations := operations[o.id := o];
        case ApprovalEvent(_, a) => approvals := approvals[a.id := a];
      }
      ActionChange(old(View()), View(), e);
    }

    method InsertOutcome(e: Event)
      requires IsOutcome(e.body)
      modifies `receipts, `artifacts, `operations, `effects
      ensures View() == Changed(old(View()), e)
    {
      hide Changed;
      match e.body {
        case ReceiptRecorded(r) => receipts := receipts[r.id := r];
        case ArtifactCreated(a) => artifacts := artifacts[a.id := a];
        case EffectVerified(v) => ApplyEffect(v);
      }
      OutcomeChange(old(View()), View(), e);
    }

    method InsertMemory(e: Event)
      requires IsMemoryRecord(e.body)
      modifies `memories, `memoryCandidates
      ensures View() == Changed(old(View()), e)
    {
      hide Changed;
      match e.body {
        case MemoryCandidateEvent(_, c) => memoryCandidates := memoryCandidates[c.id := c];
        case MemoryEvent(kind, m) => ApplyMemory(kind, m);
      }
      MemoryRecordChange(old(View()), View(), e);
    }

    method ApplyDefinition(env: Env, e: Event) returns (ok: bool)
      requires IsDefinition(e.body)
      modifies `tasks, `criteria
      ensures ok <==> BodyAccepted(env, old(View()), e)
      ensures View() == if ok then Changed(old(View()), e) else old(View())
    {
      hide View, TaskCompletionAccepted, CriterionAccepted, Trim, PositionIntegrationAccepted, ClaimAccepted,
           ClaimTransitionAccepted, SleepRunAccepted, CandidateAccepted, CandidateTransitionAccepted,
           MaterializationAccepted, MemoryRevisionAccepted, IsModelActor;
      match e.body {
        case TaskCompleted(t) => ok := ApplyTaskCompletion(e, t);
        case CriterionDefined(c) => ok := DefineCriterion(env, c);
      }
    }

    method ApplyClaim(env: Env, e: Event) returns (ok: bool)
      requires IsClaim(e.body)
      modifies `claims
      ensures ok <==> BodyAccepted(env, old(View()), e)
      ensures View() == if ok then Changed(old(View()), e) else old(View())
    {
      hide View, ClaimAccepted, ClaimTransitionAccepted, IsModelActor, NormalizedClaim, SetDisposition,
           TaskCompletionAccepted, PositionIntegrationAccepted, CriterionAccepted, SleepRunAccepted,
           CandidateAccepted, CandidateTransitionAccepted, MaterializationAccepted, MemoryRevisionAccepted;
      match e.body {
        case ClaimCreated(c) => ok := ApplyClaimCreated(env, e.actor, c);
        case ClaimVerified(t) => ok := ApplyClaimTransition(e.actor, t, Disposition.Verified);
        case ClaimRejected(t) => ok := ApplyClaimTransition(e.actor, t, Disposition.Rejected);
      }
    }

    method ApplySleep(env: Env, e: Event) returns (ok: bool)
      requires e.body.SleepRunEvent?
      modifies `sleepRuns, `sleepCursor
      ensures ok <==> BodyAccepted(env, old(View()), e)
      ensures View() == if ok then Changed(old(View()), e) else old(View())
    {
      hide View, TaskCompletionAccepted, PositionIntegrationAccepted, CriterionAccepted, ClaimAccepted,
           ClaimTransitionAccepted, SleepRunAccepted, CandidateAccepted, CandidateTransitionAccepted,
           MaterializationAccepted, MemoryRevisionAccepted, IsModelActor;
      ok := ApplySleepRun(e.body.sleepKind, e.body.run);
    }

    method ApplyCandidate(env: Env, e: Event) returns (ok: bool)
      requires e.body.CandidateCreated?
      modifies `candidates
      ensures ok <==> BodyAccepted(env, old(View()), e)
      ensures View() == if ok then Changed(old(View()), e) else old(View())
    {
      hide View, CandidateAccepted, EffectiveCandidate, CandidateTransitionAccepted, StoredVerification, Dispose,
           TaskCompletionAccepted, PositionIntegrationAccepted, CriterionAccepted, ClaimAccepted,
           ClaimTransitionAccepted, SleepRunAccepted, MaterializationAccepted, MemoryRevisionAccepted, IsModelActor;
      ok := CreateCandidate(env, e.body.candidate, e.body.asOfPresent);
    }

    method ApplyReview(env: Env, e: Event) returns (ok: bool)
      requires IsReview(e.body)
      modifies `candidates, `verifications
      ensures ok <==> BodyAccepted(env, old(View()), e)
      ensures View() == if ok then Changed(old(View()), e) else old(View())
    {
      hide View, TaskCompletionAccepted, PositionIntegrationAccepted, CriterionAccepted, ClaimAccepted,
           ClaimTransitionAccepted, SleepRunAccepted, CandidateAccepted, CandidateTransitionAccepted,
           MaterializationAccepted, MemoryRevisionAccepted, IsModelActor, StoredVerification, Dispose;
      if e.body.CandidateVerified? {
        ok := ApplyIntegrationTransition(env, e, e.body.accepted, Disposition.Verified);
      } else {
        ok := ApplyIntegrationTransition(env, e, e.body.refused, Disposition.Rejected);
      }
    }

    method ApplyMaterialization(env: Env, e: Event) returns (ok: bool)
      requires IsMaterialization(e.body)
      modifies `materializations, `memoryRevisions
      ensures ok <==> BodyAccepted(env, old(View()), e)
      ensures View() == if ok then Changed(old(View()), e) else old(View())
    {
      hide View, MaterializationAccepted, MemoryRevisionAccepted, Normalize, TaskCompletionAccepted,
           PositionIntegrationAccepted, CriterionAccepted, ClaimAccepted, ClaimTransitionAccepted, SleepRunAccepted,
           CandidateAccepted, CandidateTransitionAccepted, IsModelActor;
      match e.body {
        case CandidateMaterialized(m) => ok := ApplyIntegrationMaterialization(env, e, m);
        case MemoryRevisionMaterialized(m) => ok := ApplyMemoryRevision(env, e, m);
      }
    }

    method ApplyPositionEvent(env: Env, e: Event) returns (ok: bool)
      requires e.body.PositionEvent? && e.body.integration.Some?
      modifies `positions, `positionMaterializations
      ensures ok <==> BodyAccepted(env, old(View()), e)
      ensures View() == if ok then Changed(old(View()), e) else old(View())
    {
      hide View, TaskCompletionAccepted, PositionIntegrationAccepted, CriterionAccepted, ClaimAccepted,
           ClaimTransitionAccepted, SleepRunAccepted, CandidateAccepted, CandidateTransitionAccepted,
           MaterializationAccepted, MemoryRevisionAccepted, IsModelActor, StoreIntegratedPosition;
      ok := ApplyPositionIntegration(env, e, e.body.positionKind, e.body.position, e.body.integration.value);
    }

    method ApplyPlainPosition(e: Event)
      requires e.body.PositionEvent? && e.body.integration.None?
      modifies `positions
      ensures View() == Changed(old(View()), e)
    {
      hide View, StorePlainPosition;
      ApplyPosition(e.body.positionKind, e.body.position);
    }

    method ApplyConflict(e: Event)
      requires e.body.ConflictEvent?
      modifies `relationships, `conflicts
      ensures View() == Changed(old(View()), e)
    {
      hide View, IndexAll;
      StoreConflict(e.body.conflict);
    }

    /** Kinds that are stored without a check. */
    method Insert(e: Event)
      requires IsEntry(e.body) || IsAction(e.body) || IsOutcome(e.body) || IsMemoryRecord(e.body)
      modifies this
      ensures View() == Changed(old(View()), e)
    {
      hide Changed, View;
      if IsEntry(e.body) {
        InsertEntry(e);
      } else if IsAction(e.body) {
        InsertAction(e);
      } else if IsOutcome(e.body) {
        InsertOutcome(e);
      } else {
        InsertMemory(e);
      }
    }

    /** Checks and applies an event of any kind, without counting it. */
    method ApplyBody(env: Env, e: Event) returns (ok: bool)
      modifies this
      ensures ok <==> BodyAccepted(env, old(View()), e)
      ensures View() == if ok then Changed(old(View()), e) else old(View())
    {
      hide Changed, View, BodyAccepted;
      KindGuards(env, View(), e);
      if IsEntry(e.body) || IsAction(e.body) || IsOutcome(e.body) || IsMemoryRecord(e.body) {
        Insert(e);
        ok := true;
      } else if e.body.ConflictEvent? {
        ApplyConflict(e);
        ok := true;
      } else if IsDefinition(e.body) {
        ok := ApplyDefinition(env, e);
      } else if IsClaim(e.body) {
        ok := ApplyClaim(env, e);
      } else if e.body.SleepRunEvent? {
        ok := ApplySleep(env, e);
      } else if e.body.CandidateCreated? {
        ok := ApplyCandidate(env, e);
      } else if IsReview(e.body) {
        ok := ApplyReview(env, e);
      } else if IsMaterialization(e.body) {
        ok := ApplyMaterialization(env, e);
      } else if e.body.PositionEvent? && e.body.integration.None? {
        ApplyPlainPosition(e);
        ok := true;
      } else if e.body.PositionEvent? {
        ok := ApplyPositionEvent(env, e);
      } else {
        ok := e.body.Unmodelled? && e.body.guardsPass;
      }
    }

    /** Applies one event in place, or refuses it and changes nothing. */
    method Apply(env: Env, e: Event) returns (ok: bool)
      modifies this
      ensures ok <==> Step(env, old(View()), e).Some?
      ensures View() == if ok then Step(env, old(View()), e).value else old(View())
    {
      hide Step, BodyAccepted, After, Changed;
      StepIs(env, View(), e);
      if e.id in applied {
        return false;
      }
      AfterCounts(View(), e);
      ok := ApplyBody(env, e);
      if ok {
        Count(e.id);
      }
    }

    method Count(id: EventId)
      modifies `revision, `applied
      ensures View() == old(View()).(revision := old(View()).revision + 1, applied := old(View()).applied + [id])
    {
      revision := revision + 1;
      applied := applied + [id];
    }
  }

  /** Which kinds have guards, and where they are. */
  lemma KindGuards(env: Env, s: State, e: Event)
    ensures IsEntry(e.body) || IsAction(e.body) || IsOutcome(e.body) || IsMemoryRecord(e.body) ==> BodyAccepted(env, s, e)
    ensures e.body.ConflictEvent? || (e.body.PositionEvent? && e.body.integration.None?) ==> BodyAccepted(env, s, e)
    ensures e.body.Unmodelled? || e.body.Malformed? ==>
              && (BodyAccepted(env, s, e) <==> e.body.Unmodelled? && e.body.guardsPass)
              && Changed(s, e) == s
  {
    hide TaskCompletionAccepted, PositionIntegrationAccepted, CriterionAccepted, ClaimAccepted, ClaimTransitionAccepted,
         SleepRunAccepted, CandidateAccepted, CandidateTransitionAccepted, MaterializationAccepted, MemoryRevisionAccepted;
  }

  lemma StepIs(env: Env, s: State, e: Event)
    ensures Step(env, s, e) == if e.id !in s.applied && BodyAccepted(env, s, e) then Some(After(s, e)) else None
  {
    hide BodyAccepted, After;
  }

  lemma AfterCounts(s: State, e: Event)
    ensures Changed(s, e).revision == s.revision && Changed(s, e).applied == s.applied
    ensures After(s, e) == Changed(s, e).(revision := s.revision + 1, applied := s.applied + [e.id])
  {
  }

  /** Folds the ledger into a new state, stopping at the first event it refuses. */
  method ReplayEvents(env: Env, events: seq<Event>) returns (state: CurrentState, ok: bool)
    ensures fresh(state)
    ensures ok <==> Replay(env, events).Some?
    ensures ok ==> state.View() == Replay(env, events).value
  {
    hide Step;
    state := new CurrentState();
    for i := 0 to |events|
      invariant Replay(env, events[..i]) == Some(state.View())
      invariant fresh(state)
    {
      assert events[..i + 1] == events[..i] + [events[i]];
      ApplyLast(env, EMPTY_STATE, events[..i], events[i]);
      var applied := state.Apply(env, events[i]);
      if !applied {
        RefusedPrefix(env, EMPTY_STATE, events, i + 1);
        return state, false;
      }
    }
    assert events[..|events|] == events;
    return state, true;
  }

  lemma RefusedPrefix(env: Env, s: State, events: seq<Event>, k: nat)
    requires k <= |events| && ApplyAll(env, s, events[..k]).None?
    ensures ApplyAll(env, s, events).None?
  {
    hide Step;
    assert events == events[..k] + events[k..];
    ApplyAllConcat(env, s, events[..k], events[k..]);
  }

  // ---------------------------------------------------------------- the stored ledger

  /** The storage behind the runtime, with the contract its port documents: a commit
      appends the events and replaces the projection, or does nothing. */
  class LedgerStore {
    var ledger: seq<Event>
    var state: State

    constructor ()
      ensures View() == EMPTY_STORE
    {
      ledger, state := [], EMPTY_STATE;
    }

    function View(): Store
      reads this
    {
      Store(ledger, state)
    }

    method Commit(env: Env, events: seq<Event>, offered: State, expected: Option<nat>) returns (r: Result<State, CommitError>)
      modifies this
      ensures var outcome := CommitBatch(env, old(View()), events, offered, expected);
              match outcome
              case Ok(next) => r == Ok(offered) && View() == next
              case Err(error) => r == Err(error) && View() == old(View())
    {
      var outcome := CommitBatch(env, View(), events, offered, expected);
      if outcome.Err? {
        return Err(outcome.error);
      }
      ledger := ledger + events;
      state := offered;
      return Ok(offered);
    }

    /** Loads a copy of the projection, applies the batch to it, and commits. */
    method Record(env: Env, events: seq<Event>, expected: Option<nat>) returns (r: Result<State, CommitError>)
      modifies this
      ensures match RecordBatch(env, old(View()), events, expected)
              case Ok(next) => r == Ok(next.state) && View() == next
              case Err(error) => r == Err(error) && View() == old(View())
    {
      hide Step, FirstDamaged;
      var base := state;
      if expected.Some? && base.revision != expected.value {
        return Err(StaleContext(expected.value, base.revision));
      }
      var current := new CurrentState.Load(base);
      for i := 0 to |events|
        invariant ApplyAll(env, base, events[..i]) == Some(current.View())
        invariant fresh(current) && View() == old(View())
      {
        assert events[..i + 1] == events[..i] + [events[i]];
        ApplyLast(env, base, events[..i], events[i]);
        var applied := current.Apply(env, events[i]);
        if !applied {
          RefusedPrefix(env, base, events, i + 1);
          return Err(Refused);
        }
      }
      assert events[..|events|] == events;
      r := Commit(env, events, current.View(), expected);
    }
  }
}
