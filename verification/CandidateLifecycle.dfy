/** The life of an integration candidate in any accepted ledger. */
module CandidateLifecycle {
  import opened Prelude
  import opened Model
  import opened Projector

  function ReviewOf(e: Event, id: CandidateId): seq<Disposition> {
    if e.body.CandidateVerified? && e.body.accepted.candidate == id then [Disposition.Verified]
    else if e.body.CandidateRejected? && e.body.refused.candidate == id then [Disposition.Rejected]
    else []
  }

  /** The reviews of a candidate, in ledger order. */
  function ReviewsOf(ledger: seq<Event>, id: CandidateId): seq<Disposition> {
    if ledger == [] then [] else ReviewsOf(ledger[..|ledger| - 1], id) + ReviewOf(ledger[|ledger| - 1], id)
  }

  function MaterializationOf(e: Event, id: CandidateId): seq<CandidateKind> {
    match e.body
    case CandidateMaterialized(m) => if m.candidate == id then [CandidateKind.Memory] else []
    case MemoryRevisionMaterialized(m) => if m.candidate == id then [CandidateKind.MemoryRevision] else []
    case PositionEvent(_, _, integration) =>
      if integration.Some? && integration.value.candidate == id then [CandidateKind.Position] else []
    case _ => []
  }

  /** The materializations of a candidate, in ledger order. */
  function MaterializationsOf(ledger: seq<Event>, id: CandidateId): seq<CandidateKind> {
    if ledger == [] then []
    else MaterializationsOf(ledger[..|ledger| - 1], id) + MaterializationOf(ledger[|ledger| - 1], id)
  }

  ghost predicate FreshCandidate(s: State, e: Event) {
    e.body.CandidateCreated? ==> e.body.candidate.id !in s.candidates
  }

  /** No candidate is created under an identifier already in use. */
  ghost predicate FreshCandidates(env: Env, ledger: seq<Event>) {
    forall k | 0 <= k < |ledger| && Replay(env, ledger[..k]).Some? ::
      FreshCandidate(Replay(env, ledger[..k]).value, ledger[k])
  }

  /** What the state says the reviews of a candidate were. */
  function Outcome(s: State, id: CandidateId): seq<Disposition> {
    if id !in s.candidates || s.candidates[id].disposition.NeedsValidation? then [] else [s.candidates[id].disposition]
  }

  /** What the three maps say its materializations were. */
  function Recorded(s: State, id: CandidateId): seq<CandidateKind> {
    (if id in s.materializations then [CandidateKind.Memory] else [])
    + (if id in s.positionMaterializations then [CandidateKind.Position] else [])
    + (if id in s.memoryRevisions then [CandidateKind.MemoryRevision] else [])
  }

  ghost predicate CandidateOk(ledger: seq<Event>, s: State, id: CandidateId) {
    && ReviewsOf(ledger, id) == Outcome(s, id)
    && MaterializationsOf(ledger, id) == Recorded(s, id)
    && (Recorded(s, id) != [] ==>
          && id in s.candidates
          && s.candidates[id].disposition.Verified?
          && Recorded(s, id) == [s.candidates[id].kind])
  }

  // ---------------------------------------------------------------- steps

  lemma ReviewGuard(env: Env, s: State, e: Event)
    requires BodyAccepted(env, s, e)
    ensures e.body.CandidateVerified? ==>
              && e.body.accepted.candidate in s.candidates
              && s.candidates[e.body.accepted.candidate].disposition.NeedsValidation?
              && e.actor == e.body.accepted.actor && IsReviewer(s, e.actor)
    ensures e.body.CandidateRejected? ==>
              && e.body.refused.candidate in s.candidates
              && s.candidates[e.body.refused.candidate].disposition.NeedsValidation?
              && e.actor == e.body.refused.actor && IsReviewer(s, e.actor)
    ensures e.body.CandidateCreated? ==> e.body.candidate.disposition.NeedsValidation?
  {
  }

  ghost predicate MayMaterialize(s: State, id: CandidateId, kind: CandidateKind) {
    id in s.candidates && s.candidates[id].disposition.Verified? && s.candidates[id].kind == kind
  }

  lemma MaterializationGuard(env: Env, s: State, e: Event)
    requires BodyAccepted(env, s, e)
    ensures e.body.CandidateMaterialized? ==>
              && MayMaterialize(s, e.body.materialization.candidate, CandidateKind.Memory)
              && e.body.materialization.candidate !in s.materializations
    ensures e.body.MemoryRevisionMaterialized? ==>
              && MayMaterialize(s, e.body.revision.candidate, CandidateKind.MemoryRevision)
              && e.body.revision.candidate !in s.memoryRevisions
    ensures e.body.PositionEvent? && e.body.integration.Some? ==>
              && MayMaterialize(s, e.body.integration.value.candidate, CandidateKind.Position)
              && e.body.integration.value.candidate !in s.positionMaterializations
  {
  }

  lemma OutcomeStep(env: Env, s: State, e: Event, id: CandidateId)
    requires Step(env, s, e).Some? && FreshCandidate(s, e)
    ensures Outcome(Step(env, s, e).value, id) == Outcome(s, id) + ReviewOf(e, id)
    ensures id in s.candidates && s.candidates[id].disposition.Verified? ==>
              id in Step(env, s, e).value.candidates && Step(env, s, e).value.candidates[id] == s.candidates[id]
  {
    hide Step, BodyAccepted;
    StepParts(env, s, e);
    ReviewGuard(env, s, e);
  }

  predicate InMap(s: State, id: CandidateId, kind: CandidateKind) {
    match kind
    case Memory => id in s.materializations
    case Position => id in s.positionMaterializations
    case MemoryRevision => id in s.memoryRevisions
    case _ => false
  }

  lemma RecordedIn(s: State, id: CandidateId)
    ensures |Recorded(s, id)| <= 1 ==> forall kind :: InMap(s, id, kind) <==> Recorded(s, id) == [kind]
    ensures (forall kind :: !InMap(s, id, kind)) ==> Recorded(s, id) == []
  {
    var r := Recorded(s, id);
    assert forall kind | kind in r :: InMap(s, id, kind);
    forall kind | InMap(s, id, kind) ensures kind in r {
      assert id in s.materializations ==> r[0] == CandidateKind.Memory;
      assert id in s.memoryRevisions ==> r[|r| - 1] == CandidateKind.MemoryRevision;
      assert id in s.positionMaterializations ==> r[if id in s.materializations then 1 else 0] == CandidateKind.Position;
    }
    if |r| == 1 {
      assert r == [r[0]];
      assert forall kind | kind in r :: kind == r[0];
    }
    assert (forall kind :: !InMap(s, id, kind)) ==>
             !InMap(s, id, CandidateKind.Memory) && !InMap(s, id, CandidateKind.Position)
             && !InMap(s, id, CandidateKind.MemoryRevision);
  }

  lemma MapGrows(env: Env, s: State, e: Event, id: CandidateId, kind: CandidateKind)
    requires Step(env, s, e).Some?
    ensures InMap(Step(env, s, e).value, id, kind) <==> InMap(s, id, kind) || MaterializationOf(e, id) == [kind]
  {
    hide Step, BodyAccepted, NextPositions, NextCandidates, NextVerifications, NextMemories, NextMemoryCandidates,
         NextSleepRuns;
    StepParts(env, s, e);
  }

  lemma MapGuarded(env: Env, s: State, e: Event, id: CandidateId, kind: CandidateKind)
    requires Step(env, s, e).Some?
    ensures MaterializationOf(e, id) == [kind] ==> !InMap(s, id, kind) && MayMaterialize(s, id, kind)
  {
    hide After, BodyAccepted;
    MaterializationGuard(env, s, e);
  }

  lemma RecordedStep(env: Env, s: State, e: Event, id: CandidateId)
    requires Step(env, s, e).Some?
    requires Recorded(s, id) != [] ==> id in s.candidates && Recorded(s, id) == [s.candidates[id].kind]
    ensures Recorded(Step(env, s, e).value, id) == Recorded(s, id) + MaterializationOf(e, id)
    ensures MaterializationOf(e, id) != [] ==>
              && Recorded(s, id) == []
              && id in s.candidates && s.candidates[id].disposition.Verified?
              && MaterializationOf(e, id) == [s.candidates[id].kind]
  {
    hide Step, InMap;
    var t := Step(env, s, e).value;
    var made := MaterializationOf(e, id);
    assert made != [] ==> made == [made[0]];
    forall kind
      ensures InMap(t, id, kind) <==> InMap(s, id, kind) || made == [kind]
      ensures made == [kind] ==> !InMap(s, id, kind) && MayMaterialize(s, id, kind)
    {
      MapGrows(env, s, e, id, kind);
      MapGuarded(env, s, e, id, kind);
    }
    RecordedIn(s, id);
    RecordedFrom(s, t, id, made);
  }

  /** The record is determined by the three memberships. */
  lemma RecordedFrom(s: State, t: State, id: CandidateId, made: seq<CandidateKind>)
    requires |made| <= 1 && (Recorded(s, id) == [] || made == [])
    requires forall kind :: InMap(t, id, kind) <==> InMap(s, id, kind) || made == [kind]
    requires made != [] ==> made[0].Memory? || made[0].Position? || made[0].MemoryRevision?
    ensures Recorded(t, id) == Recorded(s, id) + made
  {
    assert InMap(t, id, CandidateKind.Memory) <==> InMap(s, id, CandidateKind.Memory) || made == [CandidateKind.Memory];
    assert InMap(t, id, CandidateKind.Position)
           <==> InMap(s, id, CandidateKind.Position) || made == [CandidateKind.Position];
    assert InMap(t, id, CandidateKind.MemoryRevision)
           <==> InMap(s, id, CandidateKind.MemoryRevision) || made == [CandidateKind.MemoryRevision];
    assert made != [] ==> made == [made[0]];
  }

  lemma CandidateStep(env: Env, ledger: seq<Event>, s: State, e: Event, id: CandidateId)
    requires CandidateOk(ledger, s, id) && Step(env, s, e).Some? && FreshCandidate(s, e)
    ensures CandidateOk(ledger + [e], Step(env, s, e).value, id)
  {
    hide Step, Outcome, Recorded, ReviewOf, MaterializationOf, FreshCandidate;
    OutcomeStep(env, s, e, id);
    RecordedStep(env, s, e, id);
    assert (ledger + [e])[..|ledger|] == ledger;
  }

  lemma NoCandidate(id: CandidateId)
    ensures CandidateOk([], EMPTY_STATE, id)
  {
  }

  lemma {:induction false} CandidateHolds(env: Env, ledger: seq<Event>, id: CandidateId)
    requires Replay(env, ledger).Some? && FreshCandidates(env, ledger)
    ensures CandidateOk(ledger, Replay(env, ledger).value, id)
  {
    hide Step, CandidateOk, FreshCandidate;
    if ledger == [] {
      NoCandidate(id);
    } else {
      var front, e := ledger[..|ledger| - 1], ledger[|ledger| - 1];
      FreshFront(env, ledger);
      CandidateHolds(env, front, id);
      assert FreshCandidate(Replay(env, front).value, e);
      CandidateStep(env, front, Replay(env, front).value, e, id);
      assert front + [e] == ledger;
    }
  }

  lemma FreshFront(env: Env, ledger: seq<Event>)
    requires FreshCandidates(env, ledger) && ledger != []
    ensures FreshCandidates(env, ledger[..|ledger| - 1])
  {
    hide Step, FreshCandidate;
    var front := ledger[..|ledger| - 1];
    forall k | 0 <= k < |front| && Replay(env, front[..k]).Some?
      ensures FreshCandidate(Replay(env, front[..k]).value, front[k])
    {
      assert front[..k] == ledger[..k];
    }
  }

  // ---------------------------------------------------------------- main results

  /** A candidate is verified or rejected at most once, is materialized at most
      once and only after it was verified, in the way its kind says, and is never
      materialized once it was rejected. */
  lemma CandidateLife(env: Env, ledger: seq<Event>, id: CandidateId)
    requires Replay(env, ledger).Some? && FreshCandidates(env, ledger)
    ensures |ReviewsOf(ledger, id)| <= 1 && |MaterializationsOf(ledger, id)| <= 1
    ensures MaterializationsOf(ledger, id) != [] ==>
              && ReviewsOf(ledger, id) == [Disposition.Verified]
              && id in Replay(env, ledger).value.candidates
              && MaterializationsOf(ledger, id) == [Replay(env, ledger).value.candidates[id].kind]
    ensures ReviewsOf(ledger, id) == [Disposition.Rejected] ==> MaterializationsOf(ledger, id) == []
  {
    hide Step, Recorded;
    CandidateHolds(env, ledger, id);
  }

  /** It is recorded in at most one of the three maps, and the maps hold exactly
      the materializations of the ledger. */
  lemma MapsExclusive(env: Env, ledger: seq<Event>, id: CandidateId)
    requires Replay(env, ledger).Some? && FreshCandidates(env, ledger)
    ensures var s := Replay(env, ledger).value;
            && !(id in s.materializations && id in s.positionMaterializations)
            && !(id in s.materializations && id in s.memoryRevisions)
            && !(id in s.positionMaterializations && id in s.memoryRevisions)
            && (id in s.materializations <==> MaterializationsOf(ledger, id) == [CandidateKind.Memory])
            && (id in s.positionMaterializations <==> MaterializationsOf(ledger, id) == [CandidateKind.Position])
            && (id in s.memoryRevisions <==> MaterializationsOf(ledger, id) == [CandidateKind.MemoryRevision])
  {
    hide Step, Recorded;
    CandidateHolds(env, ledger, id);
    var s := Replay(env, ledger).value;
    RecordedIn(s, id);
    assert InMap(s, id, CandidateKind.Memory) <==> id in s.materializations;
    assert InMap(s, id, CandidateKind.Position) <==> id in s.positionMaterializations;
    assert InMap(s, id, CandidateKind.MemoryRevision) <==> id in s.memoryRevisions;
  }

  /** Whoever verifies or rejects is a principal known at that point, and not the model. */
  lemma ReviewedByOther(env: Env, ledger: seq<Event>, k: nat, id: CandidateId)
    requires k < |ledger| && Replay(env, ledger).Some? && ReviewOf(ledger[k], id) != []
    ensures Replay(env, ledger[..k]).Some? && IsReviewer(Replay(env, ledger[..k]).value, ledger[k].actor)
  {
    hide Step, BodyAccepted;
    ReplayPrefix(env, ledger, k + 1);
    ReplayPrefix(env, ledger, k);
    assert ledger[..k + 1] == ledger[..k] + [ledger[k]];
    ApplyLast(env, EMPTY_STATE, ledger[..k], ledger[k]);
    StepParts(env, Replay(env, ledger[..k]).value, ledger[k]);
    ReviewGuard(env, Replay(env, ledger[..k]).value, ledger[k]);
  }
}
