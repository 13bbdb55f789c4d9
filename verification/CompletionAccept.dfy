/** Planned completion events are accepted, evidence does not go stale, and a
    task is completed only when its gate is ready. */
module CompletionAccept {
  import opened Prelude
  import opened Ordering
  import opened Model
  import opened Evidence
  import opened Transition
  import opened Projector
  import opened Lookup
  import opened Ledger
  import opened Completion

  // ---------------------------------------------------------------- what every ledger keeps

  /** Tasks and claims are stored under their own identifiers, and a claim's
      evidence is normalized. */
  ghost predicate RecordsOk(s: State) {
    && (forall id | id in s.tasks :: s.tasks[id].id == id)
    && (forall id | id in s.claims :: s.claims[id].id == id && Normalize(s.claims[id].evidence) == s.claims[id].evidence)
  }

  lemma RecordsStep(env: Env, s: State, e: Event)
    requires RecordsOk(s) && Step(env, s, e).Some?
    ensures RecordsOk(Step(env, s, e).value)
  {
    hide Step, BodyAccepted, Normalize;
    StepCompletionParts(env, s, e);
    if e.body.ClaimCreated? { NormalizeIdempotent(e.body.claim.evidence); }
  }

  lemma {:induction false} RecordsHold(env: Env, ledger: seq<Event>)
    requires Replay(env, ledger).Some?
    ensures RecordsOk(Replay(env, ledger).value)
  {
    hide Step, BodyAccepted;
    if ledger != [] {
      RecordsHold(env, ledger[..|ledger| - 1]);
      RecordsStep(env, Replay(env, ledger[..|ledger| - 1]).value, ledger[|ledger| - 1]);
    }
  }

  lemma ReplayFacts(env: Env, ledger: seq<Event>)
    requires Replay(env, ledger).Some?
    ensures var s := Replay(env, ledger).value; s.applied == Ids(ledger) && s.revision == |ledger| && RecordsOk(s)
  {
    hide Step, BodyAccepted;
    ReplayCounts(env, ledger);
    RecordsHold(env, ledger);
  }

  // ---------------------------------------------------------------- plans are accepted

  lemma ClaimEvidenceSound(env: Env, ledger: seq<Event>, s: State, r: EvidenceRef, asOf: nat)
    requires s.applied == Ids(ledger) && ClaimEvidenceError(env, ledger, s, r, asOf).None?
    ensures ClaimEvidenceOk(s, r, asOf)
  {
    hide SourceHash, ValidSha256Hex;
    assert SequenceOf(s, r.event) == FindEvent(ledger, r.event);
  }

  lemma CriterionStep(env: Env, s: State, e: Event)
    requires e.body.CriterionDefined? && e.id !in s.applied && CriterionAccepted(env, s, e.body.criterion)
    ensures Step(env, s, e).Some?
  {
  }

  lemma PlannedCriterionAccepted(
    env: Env, s: State, actor: PrincipalId, task: TaskId, description: string, required: bool, id: CriterionId,
    event: EventId)
    requires PlanCriterion(env, s, actor, task, description, required, id, event).Ok?
    requires event !in s.applied && id !in s.criteria
    ensures Step(env, s, PlanCriterion(env, s, actor, task, description, required, id, event).value).Some?
  {
    hide Step;
    TrimIdempotent(description);
    CriterionStep(env, s, PlanCriterion(env, s, actor, task, description, required, id, event).value);
  }

  lemma ClaimStep(env: Env, s: State, e: Event)
    requires e.body.ClaimCreated? && e.id !in s.applied
    requires !IsModelActor(s, e.actor) && ClaimAccepted(env, s, e.body.claim)
    ensures Step(env, s, e).Some?
  {
  }

  /** Every planned claim is accepted: its evidence is already normal, so the
      projector computes the fingerprint the plan computed. */
  lemma PlannedClaimAccepted(
    env: Env, ledger: seq<Event>, s: State, actor: PrincipalId, task: TaskId, criterion: CriterionId, confidence: nat,
    refs: seq<EvidenceRef>, blocker: Option<string>, supersedes: Option<ClaimId>, id: ClaimId, event: EventId)
    requires Replay(env, ledger) == Some(s) && event !in s.applied && id !in s.claims
    requires PlanClaim(env, ledger, s, actor, task, criterion, confidence, refs, blocker, supersedes, id, event).Ok?
    ensures Step(env, s, PlanClaim(env, ledger, s, actor, task, criterion, confidence, refs, blocker, supersedes, id,
                                   event).value).Some?
  {
    hide Step, ClaimEvidenceError, ClaimEvidenceOk, CompletionFingerprint, Normalize, KeptBlocker;
    var e := PlanClaim(env, ledger, s, actor, task, criterion, confidence, refs, blocker, supersedes, id, event).value;
    ReplayFacts(env, ledger);
    NormalizeIdempotent(refs);
    forall r | r in Normalize(refs) ensures ClaimEvidenceOk(s, r, s.revision) {
      ClaimEvidenceSound(env, ledger, s, r, s.revision);
    }
    ClaimStep(env, s, e);
  }

  lemma ClaimTransitionStep(env: Env, s: State, e: Event, t: ClaimTransition)
    requires e.id !in s.applied && !IsModelActor(s, e.actor)
    requires t.disposition.Verified? ==> e.body == ClaimVerified(t)
    requires t.disposition.Rejected? ==> e.body == ClaimRejected(t)
    requires !t.disposition.NeedsValidation? && ClaimTransitionAccepted(s, t, t.disposition)
    ensures Step(env, s, e).Some?
  {
  }

  /** Every planned verification or rejection of a claim is accepted. */
  lemma PlannedClaimTransitionAccepted(
    env: Env, ledger: seq<Event>, s: State, actor: PrincipalId, id: ClaimId, to: Disposition, reason: string,
    event: EventId)
    requires Replay(env, ledger) == Some(s) && event !in s.applied
    requires PlanClaimTransition(env, ledger, s, actor, id, to, reason, event).Ok?
    ensures Step(env, s, PlanClaimTransition(env, ledger, s, actor, id, to, reason, event).value).Some?
  {
    hide Step, ClaimEvidenceError, Normalize, HasBlocker, LastClaimEvent, Trim;
    var e := PlanClaimTransition(env, ledger, s, actor, id, to, reason, event).value;
    ReplayFacts(env, ledger);
    TrimIdempotent(reason);
    ClaimTransitionStep(env, s, e, if to.Verified? then e.body.verified else e.body.rejected);
  }

  // ---------------------------------------------------------------- evidence does not go stale

  /** No artifact is created under an identifier already in use. */
  ghost predicate FreshArtifact(s: State, e: Event) {
    e.body.ArtifactCreated? ==> e.body.artifact.id !in s.artifacts
  }

  ghost predicate FreshArtifacts(env: Env, s: State, events: seq<Event>) {
    forall k | 0 <= k < |events| && ApplyAll(env, s, events[..k]).Some? ::
      FreshArtifact(ApplyAll(env, s, events[..k]).value, events[k])
  }

  lemma {:induction false} ArtifactsKept(env: Env, s: State, events: seq<Event>)
    requires ApplyAll(env, s, events).Some? && FreshArtifacts(env, s, events)
    ensures var t := ApplyAll(env, s, events).value;
            forall a | a in s.artifacts :: a in t.artifacts && t.artifacts[a] == s.artifacts[a]
  {
    hide Step, BodyAccepted;
    if events != [] {
      var front, e := events[..|events| - 1], events[|events| - 1];
      FreshFront(env, s, events);
      ArtifactsKept(env, s, front);
      assert FreshArtifact(ApplyAll(env, s, front).value, e);
      StepCompletionParts(env, ApplyAll(env, s, front).value, e);
    }
  }

  lemma FreshFront(env: Env, s: State, events: seq<Event>)
    requires FreshArtifacts(env, s, events) && events != []
    ensures FreshArtifacts(env, s, events[..|events| - 1])
  {
    hide Step, FreshArtifact;
    var front := events[..|events| - 1];
    forall k | 0 <= k < |front| && ApplyAll(env, s, front[..k]).Some?
      ensures FreshArtifact(ApplyAll(env, s, front[..k]).value, front[k])
    {
      assert front[..k] == events[..k];
    }
  }

  lemma EvidenceGrows(env: Env, ledger: seq<Event>, more: seq<Event>, s: State, t: State, r: EvidenceRef, asOf: nat)
    requires ClaimEvidenceError(env, ledger, s, r, asOf).None?
    requires forall a | a in s.artifacts :: a in t.artifacts && t.artifacts[a] == s.artifacts[a]
    ensures ClaimEvidenceError(env, ledger + more, t, r, asOf).None?
  {
    hide SourceHash, ValidSha256Hex;
    FindEventGrows(ledger, more, r.event);
    if r.artifact.Some? { FindArtifactGrows(ledger, more, r.artifact.value); }
  }

  /** Evidence that was valid at one revision is valid at every later one. */
  lemma EvidenceStays(env: Env, ledger: seq<Event>, more: seq<Event>, s: State, refs: seq<EvidenceRef>, asOf: nat)
    requires ApplyAll(env, s, more).Some? && FreshArtifacts(env, s, more)
    requires FirstClaimEvidenceError(env, ledger, s, refs, asOf).None?
    ensures FirstClaimEvidenceError(env, ledger + more, ApplyAll(env, s, more).value, refs, asOf).None?
  {
    hide Step, BodyAccepted, ClaimEvidenceError, FreshArtifacts;
    var t := ApplyAll(env, s, more).value;
    ArtifactsKept(env, s, more);
    forall r | r in refs ensures ClaimEvidenceError(env, ledger + more, t, r, asOf).None? {
      EvidenceGrows(env, ledger, more, s, t, r, asOf);
    }
  }

  lemma ReviewedClaimStep(env: Env, s: State, e: Event, id: ClaimId)
    requires Step(env, s, e).Some? && id in s.claims && !s.claims[id].disposition.NeedsValidation?
    ensures id in Step(env, s, e).value.claims && Step(env, s, e).value.claims[id] == s.claims[id]
  {
    hide Step;
    StepCompletionParts(env, s, e);
  }

  lemma {:induction false} ReviewedClaimKept(env: Env, s: State, events: seq<Event>, id: ClaimId)
    requires ApplyAll(env, s, events).Some? && id in s.claims && !s.claims[id].disposition.NeedsValidation?
    ensures var t := ApplyAll(env, s, events).value; id in t.claims && t.claims[id] == s.claims[id]
  {
    hide Step;
    if events != [] {
      var front := events[..|events| - 1];
      ReviewedClaimKept(env, s, front, id);
      ReviewedClaimStep(env, ApplyAll(env, s, front).value, events[|events| - 1], id);
    }
  }

  ghost predicate NoNewClaim(events: seq<Event>, criterion: CriterionId) {
    forall e | e in events :: !(e.body.ClaimCreated? && e.body.claim.criterion == criterion)
  }

  lemma {:induction false} LatestClaimKept(ledger: seq<Event>, more: seq<Event>, criterion: CriterionId)
    requires NoNewClaim(more, criterion)
    ensures LatestClaim(ledger + more, criterion) == LatestClaim(ledger, criterion)
  {
    if more == [] {
      assert ledger + more == ledger;
    } else {
      var front := more[..|more| - 1];
      LatestClaimKept(ledger, front, criterion);
      assert (ledger + more)[..|ledger + more| - 1] == ledger + front;
      assert more[|more| - 1] in more;
    }
  }

  /** A criterion that is met stays met until a newer claim is made about it. */
  lemma MetStays(env: Env, ledger: seq<Event>, more: seq<Event>, s: State, criterion: CriterionId)
    requires Met(env, ledger, s, criterion)
    requires ApplyAll(env, s, more).Some? && FreshArtifacts(env, s, more) && NoNewClaim(more, criterion)
    ensures Met(env, ledger + more, ApplyAll(env, s, more).value, criterion)
  {
    hide Step, BodyAccepted, FirstClaimEvidenceError, FreshArtifacts, LatestClaim, NoNewClaim, CompletionFingerprint,
         HasBlocker;
    var id := LatestClaim(ledger, criterion).value;
    LatestClaimKept(ledger, more, criterion);
    ReviewedClaimKept(env, s, more, id);
    EvidenceStays(env, ledger, more, s, s.claims[id].evidence, s.claims[id].asOf);
  }

  // ---------------------------------------------------------------- completing a task

  lemma TaskCompletedStep(env: Env, s: State, e: Event, t: Task)
    requires e.body == TaskCompleted(t) && e.id !in s.applied
    requires TaskCompletionAccepted(s, e, t)
    ensures Step(env, s, e).Some?
  {
  }

  lemma PlannedCompletionAccepted(
    env: Env, ledger: seq<Event>, s: State, actor: PrincipalId, task: TaskId, expected: nat, event: EventId)
    requires Replay(env, ledger) == Some(s) && event !in s.applied
    requires var plan := PlanCompletion(env, ledger, actor, task, expected, event); plan.Ok? && plan.value.Complete?
    ensures Step(env, s, PlanCompletion(env, ledger, actor, task, expected, event).value.event).Some?
  {
    hide Step, GateReady;
    ReplayFacts(env, ledger);
    var plan := PlanCompletion(env, ledger, actor, task, expected, event).value;
    TaskCompletedStep(env, s, plan.event, plan.completed);
  }

  /** Whenever a completion lands, whatever was committed since its events were
      loaded, the gate is ready in the state just before it, the actor is not the
      model, and only the task's status changes. */
  lemma CompletionLandsReady(
    env: Env, st: Store, seen: seq<Event>, actor: PrincipalId, task: TaskId, expected: nat, event: EventId)
    requires Consistent(env, st) && seen <= st.ledger
    requires var plan := PlanCompletion(env, seen, actor, task, expected, event); plan.Ok? && plan.value.Complete?
    requires RecordBatch(env, st, [PlanCompletion(env, seen, actor, task, expected, event).value.event],
                         Some(Replay(env, seen).value.revision)).Ok?
    ensures GateReady(env, st.ledger, st.state, task) && !IsModelActor(st.state, actor)
    ensures expected == st.state.revision
    ensures var next := RecordBatch(env, st, [PlanCompletion(env, seen, actor, task, expected, event).value.event],
                                    Some(Replay(env, seen).value.revision)).value.state;
            && task in st.state.tasks && st.state.tasks[task].status.InProgress?
            && next.tasks == st.state.tasks[task := st.state.tasks[task].(status := TaskStatus.Completed)]
  {
    hide Step, GateReady;
    var e := PlanCompletion(env, seen, actor, task, expected, event).value.event;
    ReplayFacts(env, seen);
    RecordBatchLands(env, st, [e], Some(|seen|));
    assert seen == st.ledger;
    assert [] + [e] == [e];
    ApplyLast(env, st.state, [], e);
    StepTasks(env, st.state, e);
  }

  lemma StepTasks(env: Env, s: State, e: Event)
    requires Step(env, s, e).Some?
    ensures Step(env, s, e).value.tasks == NextTasks(s, e.body)
  {
    hide Step, BodyAccepted;
    StepCompletionParts(env, s, e);
  }

  /** The task is completed exactly when its gate is ready, if it is in progress,
      its actor is not the model and the revision is the expected one. */
  lemma CompletionDecided(env: Env, st: Store, actor: PrincipalId, task: TaskId, event: EventId)
    requires Consistent(env, st) && task in st.state.tasks && st.state.tasks[task].status.InProgress?
    requires !IsModelActor(st.state, actor) && event !in st.state.applied
    ensures var plan := PlanCompletion(env, st.ledger, actor, task, st.state.revision, event);
            && (plan.Ok? <==> GateReady(env, st.ledger, st.state, task))
            && (plan.Ok? ==> plan.value.Complete?
                             && RecordBatch(env, st, [plan.value.event], Some(st.state.revision)).Ok?)
  {
    hide Step, GateReady;
    var plan := PlanCompletion(env, st.ledger, actor, task, st.state.revision, event);
    if plan.Ok? {
      var e := plan.value.event;
      ReplayFacts(env, st.ledger);
      PlannedCompletionAccepted(env, st.ledger, st.state, actor, task, st.state.revision, event);
      assert [] + [e] == [e];
      ApplyLast(env, st.state, [], e);
      RecordBatchLands(env, st, [e], Some(st.state.revision));
    }
  }
}
