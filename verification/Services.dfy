/** The services as the runtime runs them: each call loads the store, plans, and
    commits against the revision it loaded. */
module Services {
  import opened Prelude
  import opened Model
  import opened Projector
  import opened Transition
  import opened Ledger
  import CurrentState
  import MI = MemoryIntegration
  import IH = IntegrationHistory
  import IA = IntegrationAccept
  import IX = IntegrationExact
  import C = Completion
  import CA = CompletionAccept
  import CX = CompletionExact
  import O = Operations
  import OR = OperationRaces
  import ML = MemoryLifecycle

  datatype ServiceError<+E> = Planning(error: E) | NotCommitted(commit: CommitError)

  /** A planned batch that is intact and accepted lands on a consistent store. */
  lemma Lands(env: Env, st: Store, batch: seq<Event>)
    requires Consistent(env, st) && batch != [] && AllIntact(env, batch)
    ensures RecordBatch(env, st, batch, Some(st.state.revision)).Ok? <==> ApplyAll(env, st.state, batch).Some?
    ensures RecordBatch(env, st, batch, Some(st.state.revision)).Ok? ==>
              var next := RecordBatch(env, st, batch, Some(st.state.revision)).value;
              && Consistent(env, next) && next.ledger == st.ledger + batch
              && ApplyAll(env, st.state, batch) == Some(next.state)
  {
    hide Step;
    ReplayCounts(env, st.ledger);
    RecordBatchLands(env, st, batch, Some(st.state.revision));
  }

  // ---------------------------------------------------------------- integration

  class MemoryIntegrationService {
    const store: CurrentState.LedgerStore

    constructor (store: CurrentState.LedgerStore)
      ensures this.store == store
    {
      this.store := store;
    }

    /** Verifies or rejects a candidate: it succeeds exactly when it can be planned, and
        records the review as it was given. */
    method Review(
      env: Env, id: CandidateId, actor: PrincipalId, to: Disposition, reason: string, refs: Option<seq<EvidenceRef>>,
      hekate: Option<PrincipalId>, newPosition: PositionId, event: EventId)
      returns (r: Result<State, ServiceError<MI.IntegrationError>>)
      requires Consistent(env, store.View()) && event !in store.state.applied
      modifies store
      ensures Consistent(env, store.View())
      ensures match MI.PlanTransition(env, old(store.ledger), old(store.state), id, actor, to, reason, refs, hekate,
                                      newPosition, event)
              case Err(error) => r == Err(Planning(error)) && store.View() == old(store.View())
              case Ok(e) =>
                && r == Ok(store.state) && store.ledger == old(store.ledger) + [e]
                && id in old(store.state).candidates
                && IX.ReviewLanded(env, old(store.ledger), old(store.state), store.state, id, actor, to, reason, refs, event)
    {
      hide MI.PlanTransition, Step, Consistent, IX.ReviewLanded;
      var state, ledger := store.state, store.ledger;
      ConsistentIsCurrent(env, store.View());
      var plan := MI.PlanTransition(env, ledger, state, id, actor, to, reason, refs, hekate, newPosition, event);
      if plan.Err? {
        return Err(Planning(plan.error));
      }
      IX.ReviewRecorded(env, ledger, state, id, actor, to, reason, refs, hekate, newPosition, event);
      TransitionIntact(env, ledger, state, id, actor, to, reason, refs, hekate, newPosition, event);
      ApplyOne(env, state, plan.value);
      Lands(env, store.View(), [plan.value]);
      var committed := store.Record(env, [plan.value], Some(state.revision));
      return Ok(committed.value);
    }

    /** Materializes a Memory candidate. A Lesson lands whenever it can be planned; a
        revision lands exactly when its actor, besides, is not the model. What is stored
        is the Lesson, or the change of a Memory, that the candidate proposes. */
    method MaterializeMemory(env: Env, id: CandidateId, actor: PrincipalId, ids: MI.FreshIds)
      returns (r: Result<State, ServiceError<MI.IntegrationError>>)
      requires Consistent(env, store.View()) && ids.memory !in store.state.memories
      requires var plan := MI.PlanLesson(env, store.ledger, store.state, id, actor, ids);
               plan.Ok? ==> IA.FreshEvents(store.state, plan.value)
      modifies store
      ensures Consistent(env, store.View())
      ensures match MI.PlanLesson(env, old(store.ledger), old(store.state), id, actor, ids)
              case Err(error) => r == Err(Planning(error)) && store.View() == old(store.View())
              case Ok(batch) =>
                && id in old(store.state).candidates && id in old(store.state).verifications
                && var revision := old(store.state).candidates[id].kind == CandidateKind.MemoryRevision;
                if revision && IsModelActor(old(store.state), actor)
                then r == Err(NotCommitted(Refused)) && store.View() == old(store.View())
                else
                  && r == Ok(store.state) && store.ledger == old(store.ledger) + batch
                  && (if revision then IA.RevisionLanded(env, old(store.state), store.state, id, ids)
                      else IA.LessonLanded(old(store.state), store.state, id, ids))
    {
      hide MI.PlanLesson, Step, Consistent, RecordBatch, IA.LessonLanded, IA.RevisionLanded;
      var state, ledger := store.state, store.ledger;
      ConsistentIsCurrent(env, store.View());
      var plan := MI.PlanLesson(env, ledger, state, id, actor, ids);
      if plan.Err? {
        return Err(Planning(plan.error));
      }
      LessonAccepted(env, ledger, state, id, actor, ids);
      LessonIntact(env, ledger, state, id, actor, ids);
      Lands(env, store.View(), plan.value);
      RefusedReason(env, store.View(), plan.value);
      var committed := store.Record(env, plan.value, Some(state.revision));
      if committed.Err? {
        return Err(NotCommitted(committed.error));
      }
      return Ok(committed.value);
    }

    /** Materializes a Position candidate. It lands whenever it can be planned, but for
        a withdrawal of a Position whose confidence is not the candidate's. Landed, it
        makes of the Positions what the candidate proposes. */
    method MaterializePosition(
      env: Env, id: CandidateId, hekate: PrincipalId, actor: PrincipalId, newPosition: PositionId, event: EventId)
      returns (r: Result<State, ServiceError<MI.IntegrationError>>)
      requires Consistent(env, store.View()) && IH.PrincipalsOnce(store.ledger) && event !in store.state.applied
      modifies store
      ensures Consistent(env, store.View())
      ensures match MI.PlanPosition(env, old(store.ledger), old(store.state), id, hekate, actor, newPosition, event)
              case Err(error) => r == Err(Planning(error)) && store.View() == old(store.View())
              case Ok(e) =>
                && id in old(store.state).candidates && id in old(store.state).verifications
                && e.body.PositionEvent? && e.body.integration.Some?
                && (if e.body.position.confidence == old(store.state).candidates[id].confidence
                    then
                      && r == Ok(store.state) && store.ledger == old(store.ledger) + [e]
                      && IA.PositionLanded(env, old(store.state), old(store.state).candidates[id], hekate, newPosition,
                                           store.state.positions)
                      && IA.PositionLinked(env, old(store.state), store.state, id, newPosition, event)
                    else r == Err(NotCommitted(Refused)) && store.View() == old(store.View()))
    {
      hide MI.PlanPosition, Step, Consistent, RecordBatch, IA.PositionLanded, IA.PositionLinked;
      var state, ledger := store.state, store.ledger;
      ConsistentIsCurrent(env, store.View());
      var plan := MI.PlanPosition(env, ledger, state, id, hekate, actor, newPosition, event);
      if plan.Err? {
        return Err(Planning(plan.error));
      }
      IA.PlannedPositionConfidence(env, ledger, state, id, hekate, actor, newPosition, event);
      IA.PlannedPositionAccepted(env, ledger, state, id, hekate, actor, newPosition, event);
      PositionIntact(env, ledger, state, id, hekate, actor, newPosition, event);
      ApplyOne(env, state, plan.value);
      Lands(env, store.View(), [plan.value]);
      RefusedReason(env, store.View(), [plan.value]);
      var committed := store.Record(env, [plan.value], Some(state.revision));
      if committed.Err? {
        return Err(NotCommitted(committed.error));
      }
      return Ok(committed.value);
    }
  }

  lemma ConsistentIsCurrent(env: Env, st: Store)
    requires Consistent(env, st)
    ensures IA.Current(env, st.ledger, st.state)
  {
    hide Step;
  }

  lemma RefusedReason(env: Env, st: Store, batch: seq<Event>)
    ensures ApplyAll(env, st.state, batch).None? ==>
              RecordBatch(env, st, batch, Some(st.state.revision)) == Err(Refused)
  {
    hide Step;
  }

  lemma TransitionIntact(
    env: Env, ledger: seq<Event>, s: State, id: CandidateId, actor: PrincipalId, to: Disposition, reason: string,
    refs: Option<seq<EvidenceRef>>, hekate: Option<PrincipalId>, newPosition: PositionId, event: EventId)
    requires MI.PlanTransition(env, ledger, s, id, actor, to, reason, refs, hekate, newPosition, event).Ok?
    ensures AllIntact(env, [MI.PlanTransition(env, ledger, s, id, actor, to, reason, refs, hekate, newPosition, event).value])
  {
    hide MI.CandidateError, MI.ProposalError, MI.ReviewEvidence, Blank;
  }

  lemma LessonIntact(env: Env, ledger: seq<Event>, s: State, id: CandidateId, actor: PrincipalId, ids: MI.FreshIds)
    requires MI.PlanLesson(env, ledger, s, id, actor, ids).Ok?
    ensures MI.PlanLesson(env, ledger, s, id, actor, ids).value != []
    ensures AllIntact(env, MI.PlanLesson(env, ledger, s, id, actor, ids).value)
    ensures id in s.candidates
  {
    hide MI.CandidateError, MI.MemoryRevisionPlan, ParseMemoryProposal, MI.DuplicateLesson, MI.LastVerified, Trim;
  }

  lemma LessonAccepted(env: Env, ledger: seq<Event>, s: State, id: CandidateId, actor: PrincipalId, ids: MI.FreshIds)
    requires IA.Current(env, ledger, s) && ids.memory !in s.memories
    requires MI.PlanLesson(env, ledger, s, id, actor, ids).Ok?
    requires IA.FreshEvents(s, MI.PlanLesson(env, ledger, s, id, actor, ids).value)
    ensures id in s.candidates
    ensures id in s.verifications
    ensures var t := ApplyAll(env, s, MI.PlanLesson(env, ledger, s, id, actor, ids).value);
            var revision := s.candidates[id].kind == CandidateKind.MemoryRevision;
            && (t.None? <==> revision && IsModelActor(s, actor))
            && (t.Some? && revision ==> IA.RevisionLanded(env, s, t.value, id, ids))
            && (t.Some? && !revision ==> IA.LessonLanded(s, t.value, id, ids))
  {
    LessonIntact(env, ledger, s, id, actor, ids);
    hide MI.PlanLesson, Step, IA.FreshEvents, IA.RevisionLanded, IA.LessonLanded;
    if s.candidates[id].kind == CandidateKind.MemoryRevision {
      IA.PlannedRevisionAccepted(env, ledger, s, id, actor, ids);
    } else {
      IA.PlannedLessonAccepted(env, ledger, s, id, actor, ids);
    }
  }

  lemma PositionIntact(
    env: Env, ledger: seq<Event>, s: State, id: CandidateId, hekate: PrincipalId, actor: PrincipalId,
    newPosition: PositionId, event: EventId)
    requires MI.PlanPosition(env, ledger, s, id, hekate, actor, newPosition, event).Ok?
    ensures AllIntact(env, [MI.PlanPosition(env, ledger, s, id, hekate, actor, newPosition, event).value])
  {
    hide MI.CandidateError, MI.PositionPlan, ParsePositionProposal, MI.LastVerified;
  }

  // ---------------------------------------------------------------- completion

  class CompletionGate {
    const store: CurrentState.LedgerStore

    constructor (store: CurrentState.LedgerStore)
      ensures this.store == store
    {
      this.store := store;
    }

    /** Creates a claim: it succeeds exactly when it can be planned, and the claim is
        recorded as it was made. */
    method CreateClaim(
      env: Env, actor: PrincipalId, task: TaskId, criterion: CriterionId, confidence: nat, refs: seq<EvidenceRef>,
      blocker: Option<string>, supersedes: Option<ClaimId>, id: ClaimId, event: EventId)
      returns (r: Result<State, ServiceError<C.CompletionError>>)
      requires Consistent(env, store.View()) && event !in store.state.applied && id !in store.state.claims
      modifies store
      ensures Consistent(env, store.View())
      ensures match C.PlanClaim(env, old(store.ledger), old(store.state), actor, task, criterion, confidence, refs,
                                blocker, supersedes, id, event)
              case Err(error) => r == Err(Planning(error)) && store.View() == old(store.View())
              case Ok(e) =>
                && r == Ok(store.state) && store.ledger == old(store.ledger) + [e]
                && CX.ClaimLanded(env, old(store.state), store.state, id, task, criterion, confidence, refs, blocker,
                                  supersedes)
    {
      hide C.PlanClaim, Step, Consistent, CX.ClaimLanded, CX.GoodClaim;
      var state, ledger := store.state, store.ledger;
      ConsistentIsCurrent(env, store.View());
      var plan := C.PlanClaim(env, ledger, state, actor, task, criterion, confidence, refs, blocker, supersedes, id, event);
      if plan.Err? {
        return Err(Planning(plan.error));
      }
      CX.ClaimExactly(env, ledger, state, actor, task, criterion, confidence, refs, blocker, supersedes, id, event);
      ClaimIntact(env, ledger, state, actor, task, criterion, confidence, refs, blocker, supersedes, id, event);
      ApplyOne(env, state, plan.value);
      Lands(env, store.View(), [plan.value]);
      var committed := store.Record(env, [plan.value], Some(state.revision));
      return Ok(committed.value);
    }

    /** Verifies or rejects a claim: it succeeds exactly when it can be planned, and
        changes the claim's disposition alone. */
    method ReviewClaim(env: Env, actor: PrincipalId, id: ClaimId, to: Disposition, reason: string, event: EventId)
      returns (r: Result<State, ServiceError<C.CompletionError>>)
      requires Consistent(env, store.View()) && event !in store.state.applied
      modifies store
      ensures Consistent(env, store.View())
      ensures match C.PlanClaimTransition(env, old(store.ledger), old(store.state), actor, id, to, reason, event)
              case Err(error) => r == Err(Planning(error)) && store.View() == old(store.View())
              case Ok(e) =>
                && r == Ok(store.state) && store.ledger == old(store.ledger) + [e]
                && CX.ReviewLanded(old(store.state), store.state, id, to)
    {
      hide C.PlanClaimTransition, Step, Consistent, CX.ReviewLanded, CX.Reviewable;
      var state, ledger := store.state, store.ledger;
      ConsistentIsCurrent(env, store.View());
      var plan := C.PlanClaimTransition(env, ledger, state, actor, id, to, reason, event);
      if plan.Err? {
        return Err(Planning(plan.error));
      }
      CX.ClaimReviewExactly(env, ledger, state, actor, id, to, reason, event);
      ReviewIntact(env, ledger, state, actor, id, to, reason, event);
      ApplyOne(env, state, plan.value);
      Lands(env, store.View(), [plan.value]);
      var committed := store.Record(env, [plan.value], Some(state.revision));
      return Ok(committed.value);
    }

    /** Completes a task: replays the ledger, evaluates the gate, moves the task on and
        commits. A task that was already completed is returned as it is. */
    method CompleteTask(env: Env, actor: PrincipalId, task: TaskId, expected: nat, event: EventId)
      returns (r: Result<Task, ServiceError<C.CompletionError>>)
      requires Consistent(env, store.View()) && event !in store.state.applied
      modifies store
      ensures Consistent(env, store.View())
      ensures match C.PlanCompletion(env, old(store.ledger), actor, task, expected, event)
              case Err(error) => r == Err(Planning(error)) && store.View() == old(store.View())
              case Ok(AlreadyCompleted(t)) => r == Ok(t) && store.View() == old(store.View())
              case Ok(Complete(t, e)) =>
                && r == Ok(t) && store.ledger == old(store.ledger) + [e]
                && C.GateReady(env, old(store.ledger), old(store.state), task)
                && store.state.tasks == old(store.state).tasks[task := t]
    {
      hide Step, C.GateReady;
      var ledger := store.ledger;
      ghost var before := store.View();
      var replayed, replays := CurrentState.ReplayEvents(env, ledger);
      if !replays {
        return Err(Planning(C.ReplayFailed));
      }
      var state := replayed.View();
      assert state == store.state;
      if task !in state.tasks {
        return Err(Planning(C.UnknownTask));
      }
      if IsModelActor(state, actor) {
        return Err(Planning(C.ModelCannotVerify));
      }
      if state.tasks[task].status.Completed? {
        return Ok(state.tasks[task]);
      }
      if expected != state.revision {
        return Err(Planning(C.StaleRevision));
      }
      var gate := C.EvaluateTaskCompletionIn(env, state, ledger, task);
      if !gate.value.Ready? {
        return Err(Planning(C.GateBlocked));
      }
      var record := new TaskRecord(state.tasks[task]);
      var moved := record.Transition(TaskStatus.Completed);
      if !moved {
        return Err(Planning(C.InvalidTaskTransition));
      }
      var e := C.CompletionEvent(env, actor, event, TaskCompleted(record.task), EntityKind.Task, task, task, None, None);
      CA.ReplayFacts(env, ledger);
      CA.PlannedCompletionAccepted(env, ledger, state, actor, task, expected, event);
      ApplyOne(env, state, e);
      Lands(env, before, [e]);
      CA.StepTasks(env, state, e);
      var committed := store.Record(env, [e], Some(state.revision));
      return Ok(record.task);
    }
  }

  lemma ClaimIntact(
    env: Env, ledger: seq<Event>, s: State, actor: PrincipalId, task: TaskId, criterion: CriterionId, confidence: nat,
    refs: seq<EvidenceRef>, blocker: Option<string>, supersedes: Option<ClaimId>, id: ClaimId, event: EventId)
    requires C.PlanClaim(env, ledger, s, actor, task, criterion, confidence, refs, blocker, supersedes, id, event).Ok?
    ensures AllIntact(env, [C.PlanClaim(env, ledger, s, actor, task, criterion, confidence, refs, blocker, supersedes, id,
                                        event).value])
  {
    hide C.FirstClaimEvidenceError, C.SupersedesError, C.KeptBlocker;
  }

  lemma ReviewIntact(
    env: Env, ledger: seq<Event>, s: State, actor: PrincipalId, id: ClaimId, to: Disposition, reason: string, event: EventId)
    requires C.PlanClaimTransition(env, ledger, s, actor, id, to, reason, event).Ok?
    ensures AllIntact(env, [C.PlanClaimTransition(env, ledger, s, actor, id, to, reason, event).value])
  {
    hide C.FirstClaimEvidenceError, HasBlocker, Blank;
  }

  // ---------------------------------------------------------------- operations

  lemma FiveActions(p: O.Party, w: O.World, a: O.Action, b: O.Action, c: O.Action, d: O.Action, e: O.Action)
    ensures O.Exec(p, w, [a, b, c, d, e])
            == O.Next(p, O.Next(p, O.Next(p, O.Next(p, O.Next(p, w, a), b), c), d), e)
  {
    hide O.Next;
    assert [a][..0] == [];
    assert O.Exec(p, w, [a]) == O.Next(p, w, a);
    assert [a, b][..1] == [a];
    assert O.Exec(p, w, [a, b]) == O.Next(p, O.Next(p, w, a), b);
    assert [a, b, c][..2] == [a, b];
    assert O.Exec(p, w, [a, b, c]) == O.Next(p, O.Next(p, O.Next(p, w, a), b), c);
    assert [a, b, c, d][..3] == [a, b, c];
    assert O.Exec(p, w, [a, b, c, d]) == O.Next(p, O.Next(p, O.Next(p, O.Next(p, w, a), b), c), d);
    assert [a, b, c, d, e][..4] == [a, b, c, d];
  }

  class OperationEngine {
    const store: CurrentState.LedgerStore
    const party: O.Party

    constructor (store: CurrentState.LedgerStore, party: O.Party)
      ensures this.store == store && this.party == party
    {
      this.store, this.party := store, party;
    }

    /** The world of the protocol, with the calls other engines have in progress. */
    ghost function World(calls: map<nat, O.Call>, ran: seq<OperationId>): O.World
      reads store
    {
      O.World(store.View(), calls, ran)
    }

    /** Resolves an approval, as one action of the protocol. It succeeds exactly when
        the approval is pending, its operation is still planned and both of its events
        are new; then the approval is settled and its operation moved on. */
    method ResolveApproval(
      id: ApprovalId, approved: bool, events: (EventId, EventId), ghost calls: map<nat, O.Call>, ghost ran: seq<OperationId>)
      returns (ok: bool)
      requires Consistent(party.env, store.View())
      modifies store
      ensures Consistent(party.env, store.View())
      ensures World(calls, ran) == O.Next(party, old(World(calls, ran)), O.Resolve(id, approved, events))
      ensures ok <==> var s := old(store.state);
                && id in s.approvals && s.approvals[id].status.Pending?
                && s.approvals[id].operation in s.operations
                && OperationTransitionAllowed(s.operations[s.approvals[id].operation].status,
                                              if approved then OperationStatus.Authorized else OperationStatus.Failed)
                && events.0 !in s.applied && events.1 !in s.applied && events.0 != events.1
      ensures ok ==> ApprovalSettled(old(store.state), store.state, id, approved, party.user)
      ensures !ok ==> store.View() == old(store.View())
    {
      hide RecordBatch, Consistent;
      var state := store.state;
      var batch := O.ResolveBatch(party.env, party.user, state, id, approved, events);
      if batch.None? {
        return false;
      }
      ResolveLands(party, store.View(), id, approved, events);
      var committed := store.Record(party.env, batch.value, Some(state.revision));
      return committed.Ok?;
    }

    /** Authorizes an operation that is only planned; one that was approved is authorized already. */
    method AuthorizePlanned(
      record: OperationRecord, event: EventId, ghost c: nat, ghost calls: map<nat, O.Call>, ghost ran: seq<OperationId>)
      returns (ok: bool)
      requires record.operation.status.Planned? || record.operation.status.Authorized?
      modifies store, record
      ensures ok ==> record.operation == old(record.operation).(status := OperationStatus.Authorized)
      ensures ok && old(record.operation).status.Planned? ==>
                O.Moved(old(store.state), store.state, old(record.operation), OperationStatus.Authorized)
      ensures !ok || old(record.operation).status.Authorized? ==> store.View() == old(store.View())
      ensures Consistent(party.env, old(store.View())) ==>
                LandsIf(party.env, old(store.View()), store.View(), AuthorizeEvents(old(record.operation), event), ok)
      ensures var o := old(record.operation);
              O.Next(party, old(World(calls[c := if o.status.Planned? then O.Cleared(o) else O.Call.Authorized(o)], ran)),
                     O.Authorize(c, event))
              == World(calls[c := if ok then O.Call.Authorized(record.operation) else O.NoCall], ran)
    {
      hide RecordBatch, O.RecordOperation, O.Next, Consistent, LandsIf;
      ghost var o := record.operation;
      AuthorizeNext(party, World(calls[c := if o.status.Planned? then O.Cleared(o) else O.Call.Authorized(o)], ran), c, event);
      if !record.operation.status.Planned? {
        NothingLands(party.env, store.View());
        return true;
      }
      PutTwice(calls, c, O.Cleared(o), O.Call.Authorized(o.(status := OperationStatus.Authorized)));
      var _ := record.Transition(OperationStatus.Authorized);
      MoveLands(party, store.View(), event, OperationEventKind.Authorized, record.operation);
      var batch := [O.RecordOperation(party.env, party.hekate, event, OperationEventKind.Authorized, record.operation)];
      var committed := store.Record(party.env, batch, None);
      return committed.Ok?;
    }

    /** Records the start of an authorized operation. */
    method StartAuthorized(
      record: OperationRecord, event: EventId, ghost c: nat, ghost calls: map<nat, O.Call>, ghost ran: seq<OperationId>)
      returns (ok: bool)
      requires record.operation.status.Authorized?
      modifies store, record
      ensures record.operation == old(record.operation).(status := OperationStatus.Started)
      ensures ok ==> O.Moved(old(store.state), store.state, old(record.operation), OperationStatus.Started)
      ensures !ok ==> store.View() == old(store.View())
      ensures Consistent(party.env, old(store.View())) ==>
                LandsIf(party.env, old(store.View()), store.View(), [event], ok)
      ensures O.Next(party, old(World(calls[c := O.Call.Authorized(record.operation)], ran)), O.Start(c, event))
              == World(calls[c := if ok then O.Launching(record.operation) else O.NoCall], ran)
    {
      hide RecordBatch, O.RecordOperation, O.Next, Consistent, LandsIf;
      ghost var o := record.operation;
      StartNext(party, World(calls[c := O.Call.Authorized(o)], ran), c, event);
      PutTwice(calls, c, O.Call.Authorized(o), O.Launching(o.(status := OperationStatus.Started)));
      var _ := record.Transition(OperationStatus.Started);
      MoveLands(party, store.View(), event, OperationEventKind.Started, record.operation);
      var batch := [O.RecordOperation(party.env, party.hekate, event, OperationEventKind.Started, record.operation)];
      var committed := store.Record(party.env, batch, None);
      return committed.Ok?;
    }

    /** Records what came of a run. */
    method ReportOutcome(
      o: Operation, outcome: O.Outcome, artifact: Option<Artifact>, ids: O.ReportIds, ghost c: nat,
      ghost calls: map<nat, O.Call>, ghost ran: seq<OperationId>)
      returns (ok: bool)
      modifies store
      ensures ok ==> O.OutcomeRecorded(old(store.state), store.state, o, outcome, artifact, ids)
      ensures !ok ==> store.View() == old(store.View())
      ensures Consistent(party.env, old(store.View())) ==>
                LandsIf(party.env, old(store.View()), store.View(), O.ReportEvents(outcome, artifact, ids), ok)
      ensures O.Next(party, old(World(calls[c := O.Reporting(o, outcome)], ran)), O.Report(c, artifact, ids))
              == World(calls[c := O.NoCall], ran)
    {
      hide RecordBatch, O.ReportBatch, O.Next, O.OutcomeRecorded, Consistent, LandsIf;
      ReportNext(party, World(calls[c := O.Reporting(o, outcome)], ran), c, artifact, ids);
      PutTwice(calls, c, O.Reporting(o, outcome), O.NoCall);
      ReportLands(party, store.View(), o, outcome, artifact, ids);
      var report := O.ReportBatch(party.env, party.hekate, o, outcome, artifact, ids);
      var committed := store.Record(party.env, report, None);
      return committed.Ok?;
    }

    /** Executes an operation in one uninterrupted call: checks, authorizes it if it is
        only planned, records the start, runs the capability (whose outcome is given)
        and records what came of it. This is the protocol's five actions in a row; the
        capability runs exactly when the protocol says it does. On a consistent store
        it runs exactly when the checks pass and the call's own events are new, and
        what it leaves behind is stated by its outcome. */
    method ExecuteOperation(
      id: OperationId, authorized: EventId, started: EventId, outcome: O.Outcome, artifact: Option<Artifact>,
      ids: O.ReportIds, ghost c: nat, ghost calls: map<nat, O.Call>, ghost ran: seq<OperationId>)
      returns (launched: bool, reported: bool)
      requires c in calls && calls[c].NoCall?
      modifies store
      ensures launched ==> id in old(store.state).operations && O.CheckExecute(party.policy, old(store.state), id).Ok?
      ensures reported ==> launched
      ensures reported ==>
                var s, t := old(store.state), store.state;
                var o := s.operations[id];
                match outcome
                case Confirmed =>
                  O.Recorded(s, t, o, OperationStatus.Verified,
                             Receipt.Receipt(ids.receiptId, o.id, OperationStatus.Succeeded),
                             Some(EffectVerification.EffectVerification(ids.effectId, o.id, EffectStatus.Verified)), artifact)
                case Unconfirmed =>
                  O.Recorded(s, t, o, OperationStatus.Unknown,
                             Receipt.Receipt(ids.receiptId, o.id, OperationStatus.Unknown), None, artifact)
                case OutcomeUnknown =>
                  O.Recorded(s, t, o, OperationStatus.Unknown,
                             Receipt.Receipt(ids.receiptId, o.id, OperationStatus.Unknown), None, None)
                case Failure =>
                  O.Recorded(s, t, o, OperationStatus.Failed,
                             Receipt.Receipt(ids.receiptId, o.id, OperationStatus.Failed),
                             Some(EffectVerification.EffectVerification(ids.effectId, o.id, EffectStatus.Failed)), None)
      ensures launched && !reported ==>
                O.Moved(old(store.state), store.state, old(store.state).operations[id], OperationStatus.Started)
      ensures !launched && store.View() != old(store.View()) ==>
                && id in old(store.state).operations && old(store.state).operations[id].status.Planned?
                && O.Moved(old(store.state), store.state, old(store.state).operations[id], OperationStatus.Authorized)
      ensures Consistent(party.env, old(store.View())) ==>
                && Consistent(party.env, store.View())
                && var s := old(store.state);
                && (launched <==>
                      && id in s.operations && O.MayStart(party.policy, s, s.operations[id])
                      && Distinct(s.applied + CallEvents(s.operations[id], authorized, started)))
                && (reported <==>
                      launched && Distinct(s.applied + CallEvents(s.operations[id], authorized, started)
                                           + O.ReportEvents(outcome, artifact, ids)))
      ensures World(calls, if launched then ran + [O.CheckExecute(party.policy, old(store.state), id).value.id] else ran)
              == O.Exec(party, old(World(calls, ran)),
                        [O.Execute(c, id), O.Authorize(c, authorized), O.Start(c, started), O.Action.Run(c, outcome),
                         O.Report(c, artifact, ids)])
    {
      hide RecordBatch, O.CheckExecute, O.Exec, O.Next, O.Moved, O.Recorded, O.MayStart, Consistent, Distinct;
      ghost var w0 := World(calls, ran);
      FiveActions(party, w0, O.Execute(c, id), O.Authorize(c, authorized), O.Start(c, started), O.Action.Run(c, outcome),
                  O.Report(c, artifact, ids));
      assert calls[c := O.NoCall] == calls;
      ClearNext(party, w0, c, id);
      O.CheckedStatus(party.policy, store.state, id);
      var checked := O.CheckExecute(party.policy, store.state, id);
      if checked.Err? {
        IdleNext(party, w0, c, authorized, started, outcome, artifact, ids);
        return false, false;
      }
      ghost var o := checked.value;
      EventParts(store.state.applied, o, authorized, started, O.ReportEvents(outcome, artifact, ids));
      var record := new OperationRecord(checked.value);
      var ok := AuthorizePlanned(record, authorized, c, calls, ran);
      if !ok {
        IdleNext(party, World(calls, ran), c, authorized, started, outcome, artifact, ids);
        return false, false;
      }
      ghost var s1 := store.state;
      ok := StartAuthorized(record, started, c, calls, ran);
      if !ok {
        IdleNext(party, World(calls, ran), c, authorized, started, outcome, artifact, ids);
        return false, false;
      }
      ghost var s2 := store.state;
      MovedOn(w0.store.state, s1, s2, o);
      RunNext(party, World(calls[c := O.Launching(record.operation)], ran), c, outcome);
      PutTwice(calls, c, O.Launching(record.operation), O.Reporting(record.operation, outcome));
      reported := ReportOutcome(record.operation, outcome, artifact, ids, c, calls, ran + [record.operation.id]);
      if reported { RecordedOn(w0.store.state, s2, store.state, o, outcome, artifact, ids); }
      return true, reported;
    }
  }

  // ---------------------------------------------------------------- what a call's records leave

  function AuthorizeEvents(o: Operation, authorized: EventId): seq<EventId> {
    if o.status.Planned? then [authorized] else []
  }

  /** The events of a call before its run. */
  function CallEvents(o: Operation, authorized: EventId, started: EventId): seq<EventId> {
    AuthorizeEvents(o, authorized) + [started]
  }

  /** The records land exactly when their events are new, and are applied in order. */
  ghost predicate LandsIf(env: Env, before: Store, after: Store, events: seq<EventId>, ok: bool) {
    && Consistent(env, after)
    && (ok <==> Distinct(before.state.applied + events))
    && (ok ==> after.state.applied == before.state.applied + events)
  }

  lemma NothingLands(env: Env, st: Store)
    ensures Consistent(env, st) ==> LandsIf(env, st, st, [], true)
  {
    if Consistent(env, st) {
      ReplayCounts(env, st.ledger);
      assert st.state.applied + [] == st.state.applied;
    }
  }

  lemma MoveLands(p: O.Party, st: Store, event: EventId, kind: OperationEventKind, o: Operation)
    ensures var outcome := RecordBatch(p.env, st, [O.RecordOperation(p.env, p.hekate, event, kind, o)], None);
            && (outcome.Ok? ==> O.Moved(st.state, outcome.value.state, o, o.status))
            && (Consistent(p.env, st) ==>
                  LandsIf(p.env, st, if outcome.Ok? then outcome.value else st, [event], outcome.Ok?))
  {
    hide RecordBatch, Consistent, O.Moved, Step;
    var batch := [O.RecordOperation(p.env, p.hekate, event, kind, o)];
    O.MoveStep(p.env, st.state, p.hekate, event, kind, o);
    if RecordBatch(p.env, st, batch, None).Ok? { Landed(p.env, st, batch, None); }
    assert Ids(batch) == [event];
    if Consistent(p.env, st) { OR.UnguardedLands(p.env, st, batch, None); }
  }

  lemma ReportLands(p: O.Party, st: Store, o: Operation, outcome: O.Outcome, artifact: Option<Artifact>, ids: O.ReportIds)
    ensures var report := O.ReportBatch(p.env, p.hekate, o, outcome, artifact, ids);
            var landed := RecordBatch(p.env, st, report, None);
            && (landed.Ok? ==> O.OutcomeRecorded(st.state, landed.value.state, o, outcome, artifact, ids))
            && (Consistent(p.env, st) ==>
                  LandsIf(p.env, st, if landed.Ok? then landed.value else st, O.ReportEvents(outcome, artifact, ids),
                          landed.Ok?))
  {
    hide RecordBatch, Consistent, O.OutcomeRecorded, O.ReportBatch, O.ReportEvents, Step;
    var report := O.ReportBatch(p.env, p.hekate, o, outcome, artifact, ids);
    if RecordBatch(p.env, st, report, None).Ok? {
      Landed(p.env, st, report, None);
      O.ReportRecords(p.env, p.hekate, st.state, o, outcome, artifact, ids);
    }
    O.ReportShape(p.env, p.hekate, o, outcome, artifact, ids);
    if Consistent(p.env, st) { OR.UnguardedLands(p.env, st, report, None); }
  }

  /** New events are new one record after the other. */
  lemma EventParts(applied: seq<EventId>, o: Operation, authorized: EventId, started: EventId, report: seq<EventId>)
    ensures var first, call := AuthorizeEvents(o, authorized), CallEvents(o, authorized, started);
            && applied + first + [started] == applied + call
            && (Distinct(applied + call) ==> Distinct(applied + first))
            && (Distinct(applied + call + report) ==> Distinct(applied + call))
  {
    var first, call := AuthorizeEvents(o, authorized), CallEvents(o, authorized, started);
    assert applied + first + [started] == applied + call;
    FrontDistinct(applied + first, [started]);
    FrontDistinct(applied + call, report);
  }

  lemma FrontDistinct(a: seq<EventId>, b: seq<EventId>)
    ensures Distinct(a + b) ==> Distinct(a)
  {
    if Distinct(a + b) {
      forall i, j | 0 <= i < j < |a| ensures a[i] != a[j] { assert (a + b)[i] == a[i] && (a + b)[j] == a[j]; }
    }
  }

  lemma MovedOn(s: State, s1: State, s2: State, o: Operation)
    requires s1 == s || O.Moved(s, s1, o, OperationStatus.Authorized)
    requires O.Moved(s1, s2, o.(status := OperationStatus.Authorized), OperationStatus.Started)
    ensures O.Moved(s, s2, o, OperationStatus.Started)
  {
  }

  /** The report of a call is the whole change of the call. */
  lemma RecordedOn(
    s: State, s2: State, t: State, o: Operation, outcome: O.Outcome, artifact: Option<Artifact>, ids: O.ReportIds)
    requires O.Moved(s, s2, o, OperationStatus.Started)
    requires O.OutcomeRecorded(s2, t, o.(status := OperationStatus.Started), outcome, artifact, ids)
    ensures O.OutcomeRecorded(s, t, o, outcome, artifact, ids)
  {
  }

  lemma PutTwice(calls: map<nat, O.Call>, c: nat, before: O.Call, after: O.Call)
    ensures calls[c := before][c := after] == calls[c := after]
    ensures calls[c := before][c := O.NoCall] == calls[c := O.NoCall]
  {
  }

  /** The approval is settled by the user, its operation moved on, and nothing else changed. */
  ghost predicate ApprovalSettled(s: State, t: State, id: ApprovalId, approved: bool, user: PrincipalId)
    requires id in s.approvals && s.approvals[id].operation in s.operations
  {
    var a := s.approvals[id];
    var o := s.operations[a.operation];
    && a.status.Pending?
    && t == s.(approvals := s.approvals[a.id := a.(status := if approved then ApprovalStatus.Approved
                                                            else ApprovalStatus.Denied, resolvedBy := Some(user))],
               operations := s.operations[o.id := o.(status := if approved then OperationStatus.Authorized
                                                               else OperationStatus.Failed)],
               revision := t.revision, applied := t.applied)
  }

  lemma ResolveLands(p: O.Party, st: Store, id: ApprovalId, approved: bool, events: (EventId, EventId))
    requires Consistent(p.env, st) && O.ResolveBatch(p.env, p.user, st.state, id, approved, events).Some?
    ensures var batch := O.ResolveBatch(p.env, p.user, st.state, id, approved, events).value;
            var outcome := RecordBatch(p.env, st, batch, Some(st.state.revision));
            && (outcome.Ok? <==> events.0 !in st.state.applied && events.1 !in st.state.applied && events.0 != events.1)
            && (outcome.Ok? ==> Consistent(p.env, outcome.value)
                                && ApprovalSettled(st.state, outcome.value.state, id, approved, p.user))
  {
    hide Step, RecordBatch;
    var batch := O.ResolveBatch(p.env, p.user, st.state, id, approved, events).value;
    ReplayCounts(p.env, st.ledger);
    RecordBatchLands(p.env, st, batch, Some(st.state.revision));
    assert [batch[0]] + [batch[1]] == batch;
    ApplyOne(p.env, st.state, batch[0]);
    ApplyLast(p.env, st.state, [batch[0]], batch[1]);
    O.UnguardedAccepted(p.env, st.state, batch[0]);
    if events.0 !in st.state.applied {
      var settled := Step(p.env, st.state, batch[0]).value;
      O.UnguardedAccepted(p.env, settled, batch[1]);
      O.ApprovalStep(p.env, st.state, batch[0]);
      if events.1 !in settled.applied { O.OperationStep(p.env, settled, batch[1]); }
    }
  }

  // What each action of a call does to it.

  lemma ClearNext(p: O.Party, w: O.World, c: nat, id: OperationId)
    requires O.CallOf(w, c).NoCall?
    ensures O.Next(p, w, O.Execute(c, id))
            == match O.CheckExecute(p.policy, w.store.state, id)
               case Err(_) => w
               case Ok(o) => O.Put(w, c, if o.status.Planned? then O.Cleared(o) else O.Call.Authorized(o))
  {
    hide O.CheckExecute;
  }

  lemma IdleNext(
    p: O.Party, w: O.World, c: nat, authorized: EventId, started: EventId, outcome: O.Outcome, artifact: Option<Artifact>,
    ids: O.ReportIds)
    requires O.CallOf(w, c).NoCall?
    ensures O.Next(p, w, O.Authorize(c, authorized)) == w && O.Next(p, w, O.Start(c, started)) == w
    ensures O.Next(p, w, O.Action.Run(c, outcome)) == w && O.Next(p, w, O.Report(c, artifact, ids)) == w
  {
  }

  lemma AuthorizeNext(p: O.Party, w: O.World, c: nat, event: EventId)
    ensures var call := O.CallOf(w, c);
            O.Next(p, w, O.Authorize(c, event))
            == if !call.Cleared? then w
               else
                 var o := call.operation.(status := OperationStatus.Authorized);
                 O.Commit(p, w, c, [O.RecordOperation(p.env, p.hekate, event, OperationEventKind.Authorized, o)],
                          O.Call.Authorized(o))
  {
    hide O.Commit, O.RecordOperation;
  }

  lemma StartNext(p: O.Party, w: O.World, c: nat, event: EventId)
    requires O.CallOf(w, c).Authorized?
    ensures var o := O.CallOf(w, c).operation.(status := OperationStatus.Started);
            O.Next(p, w, O.Start(c, event))
            == O.Commit(p, w, c, [O.RecordOperation(p.env, p.hekate, event, OperationEventKind.Started, o)], O.Launching(o))
  {
    hide O.Commit, O.RecordOperation;
  }

  lemma RunNext(p: O.Party, w: O.World, c: nat, outcome: O.Outcome)
    requires O.CallOf(w, c).Launching?
    ensures var o := O.CallOf(w, c).operation;
            O.Next(p, w, O.Action.Run(c, outcome)) == O.Put(w, c, O.Reporting(o, outcome)).(ran := w.ran + [o.id])
  {
  }

  lemma ReportNext(p: O.Party, w: O.World, c: nat, artifact: Option<Artifact>, ids: O.ReportIds)
    requires O.CallOf(w, c).Reporting?
    ensures var call := O.CallOf(w, c);
            O.Next(p, w, O.Report(c, artifact, ids))
            == O.Commit(p, w, c, O.ReportBatch(p.env, p.hekate, call.operation, call.outcome, artifact, ids), O.NoCall)
  {
    hide O.Commit, O.ReportBatch;
  }

  // ---------------------------------------------------------------- Memories

  lemma CallIntact(env: Env, user: PrincipalId, ledger: seq<Event>, s: State, call: ML.MemoryCall)
    requires !call.Integrate? && ML.PlanCall(env, user, ledger, s, call).Some?
    ensures ML.PlanCall(env, user, ledger, s, call).value != []
    ensures AllIntact(env, ML.PlanCall(env, user, ledger, s, call).value)
  {
    hide ML.PreviousInferred;
  }

  class MemoryEngine {
    const store: CurrentState.LedgerStore
    const user: PrincipalId

    constructor (store: CurrentState.LedgerStore, user: PrincipalId)
      ensures this.store == store && this.user == user
    {
      this.store, this.user := store, user;
    }

    /** Promotes a Memory candidate or ends a Memory on the user's behalf. When it
        lands, it adds one Memory, replaces an active one or ends an active one, with
        what the candidate says and nothing else. */
    method Perform(env: Env, call: ML.MemoryCall) returns (ok: bool)
      requires Consistent(env, store.View()) && !call.Integrate? && ML.FreshCall(store.state, call)
      modifies store
      ensures Consistent(env, store.View())
      ensures var plan := ML.PlanCall(env, user, old(store.ledger), old(store.state), call);
              && (ok <==> plan.Some? && ApplyAll(env, old(store.state), plan.value).Some?)
              && (ok ==> store.ledger == old(store.ledger) + plan.value
                         && ML.Evolves(old(store.state).memories, store.state.memories)
                         && (match call
                             case Promote(id, memory, _, _) => ML.PromotionLanded(old(store.state), store.state, id, memory)
                             case SetStatus(target, to, _) => ML.StatusLanded(old(store.state), store.state, target, to)
                             case _ => true))
              && (!ok ==> store.View() == old(store.View()))
    {
      hide ML.PlanCall, Step, Consistent, RecordBatch, ML.Evolves, ML.PromotionLanded, ML.StatusLanded;
      var state, ledger := store.state, store.ledger;
      ConsistentIsCurrent(env, store.View());
      var plan := ML.PlanCall(env, user, ledger, state, call);
      if plan.None? {
        return false;
      }
      CallIntact(env, user, ledger, state, call);
      Lands(env, store.View(), plan.value);
      var committed := store.Record(env, plan.value, Some(state.revision));
      if committed.Err? {
        return false;
      }
      ML.CallEvolves(env, user, ledger, state, call);
      IA.CurrentFacts(env, ledger, state);
      match call {
        case Promote(_, _, _, _) => ML.PromotionExactly(env, user, ledger, state, call);
        case SetStatus(_, _, _) => ML.StatusExactly(env, user, ledger, state, call);
        case Integrate(_, _, _) =>
      }
      return true;
    }
  }
}
