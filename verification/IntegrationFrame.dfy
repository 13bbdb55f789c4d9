/** What a run of the integration service leaves alone. */
module IntegrationFrame {
  import opened Prelude
  import opened Model
  import opened Deliberation
  import opened Projector
  import opened Ledger
  import opened MemoryIntegration
  import opened IntegrationHistory
  import opened IntegrationAccept
  import opened MemoryLifecycle
  import opened PositionLifecycle

  datatype Call =
    | Review(candidate: CandidateId, reviewer: PrincipalId, to: Disposition, reason: string,
             refs: Option<seq<EvidenceRef>>, model: Option<PrincipalId>, dryRun: PositionId, event: EventId)
    | Remember(candidate: CandidateId, actor: PrincipalId, ids: FreshIds)
    | Position(candidate: CandidateId, hekate: PrincipalId, actor: PrincipalId, newPosition: PositionId, event: EventId)

  function PlanOf(env: Env, ledger: seq<Event>, s: State, call: Call): Result<seq<Event>, IntegrationError> {
    match call
    case Review(id, reviewer, to, reason, refs, model, dryRun, event) =>
      (match PlanTransition(env, ledger, s, id, reviewer, to, reason, refs, model, dryRun, event)
       case Err(error) => Err(error)
       case Ok(e) => Ok([e]))
    case Remember(id, actor, ids) =>
      if ids.memory in s.memories then Err(MemoryMaterializationFailure) else PlanLesson(env, ledger, s, id, actor, ids)
    case Position(id, hekate, actor, newPosition, event) =>
      match PlanPosition(env, ledger, s, id, hekate, actor, newPosition, event)
      case Err(error) => Err(error)
      case Ok(e) => Ok([e])
  }

  /** Plans on the stored state and commits against its revision; a call that
      cannot be planned or is refused changes nothing. */
  function Perform(env: Env, st: Store, call: Call): Store {
    match PlanOf(env, st.ledger, st.state, call)
    case Err(_) => st
    case Ok(batch) =>
      match RecordBatch(env, st, batch, Some(st.state.revision))
      case Err(_) => st
      case Ok(next) => next
  }

  function PerformAll(env: Env, st: Store, calls: seq<Call>): Store {
    if calls == [] then st else Perform(env, PerformAll(env, st, calls[..|calls| - 1]), calls[|calls| - 1])
  }

  // ---------------------------------------------------------------- the frame

  ghost predicate PositionFrame(s: State, t: State) {
    && (forall i | i in s.positions ::
          && i in t.positions && t.positions[i].principal == s.positions[i].principal
          && (!IsModelActor(s, s.positions[i].principal) ==> t.positions[i] == s.positions[i]))
    && (forall i | i in t.positions && i !in s.positions :: IsModelActor(s, t.positions[i].principal))
  }

  ghost predicate MemoryFrame(before: map<MemoryId, Memory>, after: map<MemoryId, Memory>) {
    && (forall i | i in before ::
          && i in after && after[i] == before[i].(status := after[i].status)
          && (before[i].kind.ExplicitPreference? ==> after[i] == before[i]))
    && (forall i | i in after && i !in before ::
          && !after[i].kind.ExplicitPreference?
          && (after[i].supersedes.Some? ==>
                && after[i].supersedes.value in after
                && after[after[i].supersedes.value].kind == after[i].kind
                && after[after[i].supersedes.value].subject == after[i].subject))
  }

  ghost predicate Frame(s: State, t: State) {
    t.principals == s.principals && PositionFrame(s, t) && MemoryFrame(s.memories, t.memories)
  }

  lemma FrameTransitive(s: State, t: State, u: State)
    requires Frame(s, t) && Frame(t, u)
    ensures Frame(s, u)
  {
    MemoryFrameTransitive(s.memories, t.memories, u.memories);
  }

  lemma MemoryFrameTransitive(a: map<MemoryId, Memory>, b: map<MemoryId, Memory>, c: map<MemoryId, Memory>)
    requires MemoryFrame(a, b) && MemoryFrame(b, c)
    ensures MemoryFrame(a, c)
  {
    forall i | i in c && i !in a
      ensures !c[i].kind.ExplicitPreference?
      ensures c[i].supersedes.Some? ==>
                && c[i].supersedes.value in c
                && c[c[i].supersedes.value].kind == c[i].kind && c[c[i].supersedes.value].subject == c[i].subject
    {
      if i in b && c[i].supersedes.Some? {
        var k := c[i].supersedes.value;
        assert b[i].supersedes == c[i].supersedes;
        assert k in b && c[k] == b[k].(status := c[k].status);
      }
    }
  }

  // ---------------------------------------------------------------- each call keeps to it

  ghost predicate TouchesNeither(events: seq<Event>) {
    forall e | e in events :: !e.body.PrincipalCreated? && !e.body.PositionEvent?
  }

  lemma {:induction false} QuietRun(env: Env, s: State, events: seq<Event>)
    requires ApplyAll(env, s, events).Some? && TouchesNeither(events)
    ensures var t := ApplyAll(env, s, events).value; t.principals == s.principals && t.positions == s.positions
  {
    hide Step, BodyAccepted;
    if events != [] {
      var front := events[..|events| - 1];
      QuietRun(env, s, front);
      StepParts(env, ApplyAll(env, s, front).value, events[|events| - 1]);
    }
  }

  lemma ReviewShape(env: Env, ledger: seq<Event>, s: State, call: Call)
    requires call.Review? && PlanOf(env, ledger, s, call).Ok?
    ensures var batch := PlanOf(env, ledger, s, call).value;
            TouchesNeither(batch) && forall e | e in batch :: !e.body.MemoryEvent?
  {
    hide ReviewEvidence, CandidateError, ProposalError, Blank, LastCreated;
  }

  lemma RememberShape(env: Env, ledger: seq<Event>, s: State, call: Call)
    requires call.Remember? && PlanOf(env, ledger, s, call).Ok?
    ensures TouchesNeither(PlanOf(env, ledger, s, call).value)
  {
    hide CandidateError, MemoryRevisionPlan, ParseMemoryProposal, DuplicateLesson, LastVerified, PlanRevision;
    var id := call.candidate;
    if s.candidates[id].kind == CandidateKind.MemoryRevision {
      RevisionShape(env, ledger, s, s.candidates[id], call.actor, call.ids);
    }
  }

  lemma RevisionShape(
    env: Env, ledger: seq<Event>, s: State, c: IntegrationCandidate, actor: PrincipalId, ids: FreshIds)
    requires PlanRevision(env, ledger, s, c, actor, ids).Ok?
    ensures TouchesNeither(PlanRevision(env, ledger, s, c, actor, ids).value)
  {
    hide CandidateError, MemoryRevisionPlan, ParseMemoryProposal, LastVerified;
  }

  lemma AddLesson(memories: map<MemoryId, Memory>, m: Memory)
    requires m.id !in memories && !m.kind.ExplicitPreference? && m.supersedes.None?
    ensures MemoryFrame(memories, memories[m.id := m])
  {
  }

  lemma ReviseFrame(
    memories: map<MemoryId, Memory>, c: IntegrationCandidate, op: MemoryOperation, prior: Memory, ids: FreshIds)
    requires prior.id in memories && memories[prior.id] == prior && ids.memory !in memories
    requires !prior.kind.ExplicitPreference?
    ensures MemoryFrame(memories, RevisedMemories(memories, c, op, prior, ids))
  {
    hide Trim;
  }

  lemma RememberFrame(env: Env, ledger: seq<Event>, s: State, call: Call)
    requires Current(env, ledger, s) && call.Remember?
    requires PlanOf(env, ledger, s, call).Ok? && ApplyAll(env, s, PlanOf(env, ledger, s, call).value).Some?
    ensures Frame(s, ApplyAll(env, s, PlanOf(env, ledger, s, call).value).value)
  {
    hide Step, PlanLesson, RevisedMemories, MemoryFrame;
    var batch := PlanOf(env, ledger, s, call).value;
    var id, ids := call.candidate, call.ids;
    RememberShape(env, ledger, s, call);
    QuietRun(env, s, batch);
    ReplayCounts(env, ledger);
    AppliedFresh(env, s, batch);
    PlanKnown(env, ledger, s, id, call.actor, ids);
    if s.candidates[id].kind == CandidateKind.MemoryRevision {
      RevisionEffect(env, ledger, s, id, call.actor, ids);
      var op := ParseMemoryProposal(env, s.candidates[id].content).value;
      ReviseFrame(s.memories, s.candidates[id], op, s.memories[op.target], ids);
    } else {
      PlannedLessonAccepted(env, ledger, s, id, call.actor, ids);
      AddLesson(s.memories, ApplyAll(env, s, batch).value.memories[ids.memory]);
    }
  }

  lemma ReviewFrame(env: Env, ledger: seq<Event>, s: State, call: Call)
    requires call.Review? && PlanOf(env, ledger, s, call).Ok?
    requires ApplyAll(env, s, PlanOf(env, ledger, s, call).value).Some?
    ensures Frame(s, ApplyAll(env, s, PlanOf(env, ledger, s, call).value).value)
  {
    hide Step, PlanOf;
    var batch := PlanOf(env, ledger, s, call).value;
    ReviewShape(env, ledger, s, call);
    QuietRun(env, s, batch);
    QuietMemories(env, s, batch);
  }

  lemma OnlyPositions(env: Env, s: State, e: Event)
    requires Step(env, s, e).Some? && e.body.PositionEvent?
    ensures var t := Step(env, s, e).value; t.principals == s.principals && t.memories == s.memories
  {
    hide Step, BodyAccepted;
    StepParts(env, s, e);
  }

  lemma PositionEventFrame(env: Env, s: State, e: Event)
    requires KeysOk(s) && Step(env, s, e).Some? && e.body.PositionEvent? && e.body.integration.Some?
    ensures Frame(s, Step(env, s, e).value)
  {
    hide Step, PositionIntegrationAccepted, PositionFrame, StoreIntegratedPosition;
    OnlyPositions(env, s, e);
    IntegratedPositions(env, s, e);
    IntegratedOwner(env, s, e, e.body.positionKind, e.body.position, e.body.integration.value);
    StoredFrame(s, Step(env, s, e).value, e.body.position, e.body.integration.value);
  }

  /** Storing a Position of HEKATE's over, or after, one of HEKATE's touches nobody else's. */
  lemma StoredFrame(s: State, t: State, p: Position, m: PositionMaterialization)
    requires IsModelActor(s, p.principal) && t.positions == StoreIntegratedPosition(s, p, m)
    requires p.id in s.positions ==> s.positions[p.id].principal == p.principal
    requires m.action.Revise? && p.supersedes.Some? && p.supersedes.value in s.positions ==>
               s.positions[p.supersedes.value].principal == p.principal
    ensures PositionFrame(s, t)
  {
  }

  lemma PositionCallFrame(env: Env, ledger: seq<Event>, s: State, call: Call)
    requires Current(env, ledger, s) && call.Position? && PlanOf(env, ledger, s, call).Ok?
    requires ApplyAll(env, s, PlanOf(env, ledger, s, call).value).Some?
    ensures Frame(s, ApplyAll(env, s, PlanOf(env, ledger, s, call).value).value)
  {
    hide Step, CandidateError, PositionPlan, ParsePositionProposal, LastVerified, Frame;
    var batch := PlanOf(env, ledger, s, call).value;
    PositionShape(env, ledger, s, call);
    hide PlanOf, ApplyAll, Replay;
    CurrentFacts(env, ledger, s);
    assert [batch[0]] == batch;
    ApplyOne(env, s, batch[0]);
    PositionEventFrame(env, s, batch[0]);
  }

  lemma PositionShape(env: Env, ledger: seq<Event>, s: State, call: Call)
    requires call.Position? && PlanOf(env, ledger, s, call).Ok?
    ensures var batch := PlanOf(env, ledger, s, call).value;
            |batch| == 1 && batch[0].body.PositionEvent? && batch[0].body.integration.Some?
  {
    hide CandidateError, PositionPlan, ParsePositionProposal, LastVerified;
  }

  lemma PerformFrame(env: Env, st: Store, call: Call)
    requires Consistent(env, st)
    ensures Consistent(env, Perform(env, st, call)) && Frame(st.state, Perform(env, st, call).state)
  {
    hide Step, PlanOf, Frame;
    SameFrame(st.state);
    var plan := PlanOf(env, st.ledger, st.state, call);
    if plan.Ok? && RecordBatch(env, st, plan.value, Some(st.state.revision)).Ok? {
      RecordBatchLands(env, st, plan.value, Some(st.state.revision));
      match call
      case Review(_, _, _, _, _, _, _, _) => ReviewFrame(env, st.ledger, st.state, call);
      case Remember(_, _, _) => RememberFrame(env, st.ledger, st.state, call);
      case Position(_, _, _, _, _) => PositionCallFrame(env, st.ledger, st.state, call);
    }
  }

  lemma SameFrame(s: State)
    ensures Frame(s, s)
  {
  }

  /** No run of reviews and materializations changes a Position that is not
      HEKATE's, or any explicit preference; a replacement keeps its target's kind
      and subject. */
  lemma {:induction false} FrameHolds(env: Env, st: Store, calls: seq<Call>)
    requires Consistent(env, st)
    ensures Consistent(env, PerformAll(env, st, calls))
    ensures Frame(st.state, PerformAll(env, st, calls).state)
  {
    hide Perform, Frame, Consistent;
    if calls == [] {
      SameFrame(st.state);
    } else {
      var front := calls[..|calls| - 1];
      FrameHolds(env, st, front);
      var mid := PerformAll(env, st, front);
      PerformFrame(env, mid, calls[|calls| - 1]);
      FrameTransitive(st.state, mid.state, Perform(env, mid, calls[|calls| - 1]).state);
    }
  }
}
