/** Validated decisions and the relationship's index of unresolved conflicts. */
module ConflictIndex {
  import opened Prelude
  import opened Model
  import opened Deliberation
  import opened Projector
  import opened Ledger

  // ---------------------------------------------------------------- decisions and their validation

  datatype ActionProposal = ActionProposal(capability: string, operation: string, target: string)

  datatype Decision = Decision(
    target: Option<PrincipalId>, contextHash: string, message: string, confidence: nat, evidence: seq<EventId>,
    relatedPositions: seq<PositionId>, position: Option<Position>, userPosition: Option<Position>,
    conflict: Option<Conflict>, action: Option<ActionProposal>)

  /** The observation a decision answers, and what the model was shown of the ledger. */
  datatype Thought = Thought(actor: PrincipalId, snapshotHash: string, events: seq<EventId>)

  datatype JudgmentError =
    | InvalidTarget
    | ContextHashMismatch
    | EmptyResponse
    | ConfidenceOutOfRange
    | UnknownEvent
    | UnknownPosition(position: PositionId)
    | WrongPositionPrincipal
    | InvalidPositionRevision
    | ConflictUnknownPosition(participant: PositionId)
    | ConflictParticipants
    | InvalidConflictRevision
    | InvalidConflictTransition
    | IncompleteConflict
    | IncompleteResolution
    | IncompleteAction

  predicate CitesUnknown(thought: Thought, evidence: seq<EventId>) {
    exists e | e in evidence :: e !in thought.events
  }

  /** Whose Position a conflict names: a stored one first, then the proposed ones. */
  function ParticipantOf(s: State, d: Decision, id: PositionId): Option<PrincipalId> {
    if id in s.positions then Some(s.positions[id].principal)
    else if d.position.Some? && d.position.value.id == id then Some(d.position.value.principal)
    else if d.userPosition.Some? && d.userPosition.value.id == id then Some(d.userPosition.value.principal)
    else None
  }

  function FirstUnknown(s: State, d: Decision, ids: seq<PositionId>): (r: Option<PositionId>)
    ensures r.None? <==> forall id | id in ids :: ParticipantOf(s, d, id).Some?
  {
    if ids == [] then None
    else if ParticipantOf(s, d, ids[0]).None? then Some(ids[0])
    else FirstUnknown(s, d, ids[1..])
  }

  function PositionError(s: State, thought: Thought, p: Position, owner: PrincipalId): Option<JudgmentError> {
    if p.principal != owner then Some(WrongPositionPrincipal)
    else if !ValidPositionRevision(s, p) then Some(InvalidPositionRevision)
    else if p.confidence > 100 then Some(ConfidenceOutOfRange)
    else if CitesUnknown(thought, p.evidence) then Some(UnknownEvent)
    else None
  }

  /** The same checks as for HEKATE's Position, in the order used for the user's. */
  function UserPositionError(s: State, thought: Thought, p: Position): Option<JudgmentError> {
    if p.principal != thought.actor then Some(WrongPositionPrincipal)
    else if p.confidence > 100 then Some(ConfidenceOutOfRange)
    else if !ValidPositionRevision(s, p) then Some(InvalidPositionRevision)
    else if CitesUnknown(thought, p.evidence) then Some(UnknownEvent)
    else None
  }

  predicate Takes(s: State, d: Decision, c: Conflict, principal: PrincipalId) {
    exists id | id in c.participants :: ParticipantOf(s, d, id) == Some(principal)
  }

  function ConflictError(s: State, thought: Thought, d: Decision, c: Conflict, hekate: PrincipalId): Option<JudgmentError> {
    var unknown := FirstUnknown(s, d, c.participants);
    if unknown.Some? then Some(ConflictUnknownPosition(unknown.value))
    else if !Takes(s, d, c, hekate) || !Takes(s, d, c, thought.actor) then Some(ConflictParticipants)
    else if CitesUnknown(thought, c.evidence) then Some(UnknownEvent)
    else if c.id in s.conflicts
            && (s.conflicts[c.id].subject != c.subject || c.revision != SatAddU32(s.conflicts[c.id].revision, 1))
    then Some(InvalidConflictRevision)
    else if c.id in s.conflicts && !ValidConflictTransition(s.conflicts[c.id].status, c.status) then
      Some(InvalidConflictTransition)
    else if c.id !in s.conflicts && (c.revision != 1 || c.status.Resolved?) then Some(InvalidConflictRevision)
    else if Unresolved(c.status) && (c.reasons == [] || c.reconsideration == [] || c.questions == []) then
      Some(IncompleteConflict)
    else if !Unresolved(c.status) && c.resolution.None? then Some(IncompleteResolution)
    else None
  }

  function JudgmentErrorOf(s: State, thought: Thought, d: Decision, hekate: PrincipalId): Option<JudgmentError> {
    if d.target != Some(thought.actor) then Some(InvalidTarget)
    else if d.contextHash != thought.snapshotHash then Some(ContextHashMismatch)
    else if Blank(d.message) then Some(EmptyResponse)
    else if d.confidence > 100 then Some(ConfidenceOutOfRange)
    else if CitesUnknown(thought, d.evidence) then Some(UnknownEvent)
    else if exists id | id in d.relatedPositions :: ParticipantOf(s, d, id).None? then
      Some(UnknownPosition(FirstUnknown(s, d, d.relatedPositions).value))
    else
      var position := if d.position.Some? then PositionError(s, thought, d.position.value, hekate) else None;
      if position.Some? then position
      else
        var user := if d.userPosition.Some? then UserPositionError(s, thought, d.userPosition.value) else None;
        if user.Some? then user
        else
          var conflict := if d.conflict.Some? then ConflictError(s, thought, d, d.conflict.value, hekate) else None;
          if conflict.Some? then conflict
          else if d.action.Some?
                  && (Blank(d.action.value.capability) || Blank(d.action.value.operation) || Blank(d.action.value.target))
          then Some(IncompleteAction)
          else None
  }

  /** The Position a conflict or a decision names is stored, or is proposed here. */
  ghost predicate Named(s: State, d: Decision, id: PositionId) {
    id in s.positions || (d.position.Some? && d.position.value.id == id)
    || (d.userPosition.Some? && d.userPosition.value.id == id)
  }

  /** The named Position is this principal's: a stored one counts before the proposed ones. */
  ghost predicate HeldBy(s: State, d: Decision, id: PositionId, principal: PrincipalId) {
    if id in s.positions then s.positions[id].principal == principal
    else if d.position.Some? && d.position.value.id == id then d.position.value.principal == principal
    else d.userPosition.Some? && d.userPosition.value.id == id && d.userPosition.value.principal == principal
  }

  ghost predicate Shown(thought: Thought, evidence: seq<EventId>) {
    forall e | e in evidence :: e in thought.events
  }

  ghost predicate HasText(text: string) {
    exists i | 0 <= i < |text| :: !IsWhitespace(text[i])
  }

  /** A proposed Position is its owner's, follows the rules of revision, and cites what was shown. */
  ghost predicate GoodPosition(s: State, thought: Thought, p: Option<Position>, owner: PrincipalId) {
    p.Some? ==>
      && p.value.principal == owner && ValidPositionRevision(s, p.value) && p.value.confidence <= 100
      && Shown(thought, p.value.evidence)
  }

  /** A proposed conflict is between HEKATE and the actor, cites what was shown, continues a
      stored one step by step or opens at the first, and says what its status needs. */
  ghost predicate GoodConflict(s: State, thought: Thought, d: Decision, c: Conflict, hekate: PrincipalId) {
    && (forall id | id in c.participants :: Named(s, d, id))
    && (exists id | id in c.participants :: HeldBy(s, d, id, hekate))
    && (exists id | id in c.participants :: HeldBy(s, d, id, thought.actor))
    && Shown(thought, c.evidence)
    && (c.id in s.conflicts ==>
          && var stored := s.conflicts[c.id];
          && c.subject == stored.subject && c.revision == Min(stored.revision + 1, U32_MAX)
          && (stored.status.Open? || (stored.status.Negotiating? && !c.status.Open?)))
    && (c.id !in s.conflicts ==> c.revision == 1 && !c.status.Resolved?)
    && (c.status.Open? || c.status.Negotiating? ==> c.reasons != [] && c.reconsideration != [] && c.questions != [])
    && (c.status.Resolved? || c.status.AcceptedDisagreement? ==> c.resolution.Some?)
  }

  ghost predicate GoodDecision(s: State, thought: Thought, d: Decision, hekate: PrincipalId) {
    && d.target == Some(thought.actor) && d.contextHash == thought.snapshotHash
    && HasText(d.message) && d.confidence <= 100 && Shown(thought, d.evidence)
    && (forall id | id in d.relatedPositions :: Named(s, d, id))
    && GoodPosition(s, thought, d.position, hekate) && GoodPosition(s, thought, d.userPosition, thought.actor)
    && (d.conflict.Some? ==> GoodConflict(s, thought, d, d.conflict.value, hekate))
    && (d.action.Some? ==>
          HasText(d.action.value.capability) && HasText(d.action.value.operation) && HasText(d.action.value.target))
  }

  lemma TextMeaning(text: string)
    ensures HasText(text) <==> !Blank(text)
  {
    BlankMeaning(text);
  }

  lemma ParticipantMeaning(s: State, d: Decision, id: PositionId, principal: PrincipalId)
    ensures Named(s, d, id) <==> ParticipantOf(s, d, id).Some?
    ensures HeldBy(s, d, id, principal) <==> ParticipantOf(s, d, id) == Some(principal)
  {
  }

  lemma ConflictMeaning(s: State, thought: Thought, d: Decision, c: Conflict, hekate: PrincipalId)
    ensures ConflictError(s, thought, d, c, hekate).None? <==> GoodConflict(s, thought, d, c, hekate)
  {
    hide ParticipantOf, Named, HeldBy;
    forall id: PositionId, principal: PrincipalId
      ensures Named(s, d, id) <==> ParticipantOf(s, d, id).Some?
      ensures HeldBy(s, d, id, principal) <==> ParticipantOf(s, d, id) == Some(principal)
    {
      ParticipantMeaning(s, d, id, principal);
    }
    assert Takes(s, d, c, hekate) <==> exists id | id in c.participants :: HeldBy(s, d, id, hekate);
    assert Takes(s, d, c, thought.actor) <==> exists id | id in c.participants :: HeldBy(s, d, id, thought.actor);
    hide Takes;
  }

  /** A decision passes the judgment exactly when it is a good one. */
  lemma JudgmentMeaning(s: State, thought: Thought, d: Decision, hekate: PrincipalId)
    ensures JudgmentErrorOf(s, thought, d, hekate).None? <==> GoodDecision(s, thought, d, hekate)
  {
    hide ConflictError, GoodConflict, Blank, HasText, ValidPositionRevision, Named, ParticipantOf;
    TextMeaning(d.message);
    if d.conflict.Some? { ConflictMeaning(s, thought, d, d.conflict.value, hekate); }
    if d.action.Some? {
      TextMeaning(d.action.value.capability);
      TextMeaning(d.action.value.operation);
      TextMeaning(d.action.value.target);
    }
    forall id: PositionId ensures Named(s, d, id) <==> ParticipantOf(s, d, id).Some? {
      ParticipantMeaning(s, d, id, 0);
    }
  }

  // ---------------------------------------------------------------- the decision batch

  function PositionKindFor(s: State, p: Position): PositionEventKind {
    if p.status.Retracted? then PositionEventKind.Retracted
    else if p.supersedes.Some? then Revised
    else if p.id in s.positions then Maintained
    else Established
  }

  function ConflictKindFor(s: State, c: Conflict): ConflictEventKind {
    if !Unresolved(c.status) then ConflictEventKind.Resolved else if c.id in s.conflicts then Updated else Opened
  }

  datatype DecisionIds = DecisionIds(position: EventId, user: EventId, conflict: EventId)

  function PositionEvents(env: Env, s: State, actor: PrincipalId, id: EventId, p: Option<Position>): seq<Event> {
    if p.None? then []
    else [EngineEvent(env, actor, id, PositionEvent(PositionKindFor(s, p.value), p.value, None), EntityKind.Position, p.value.id)]
  }

  /** HEKATE's Position, the user's, then the conflict, between the record of the
      decision and everything else the batch holds. */
  function DecisionBatch(
    env: Env, s: State, hekate: PrincipalId, thought: Thought, d: Decision, ids: DecisionIds, before: seq<Event>,
    rest: seq<Event>): seq<Event>
  {
    before
    + PositionEvents(env, s, hekate, ids.position, d.position)
    + PositionEvents(env, s, thought.actor, ids.user, d.userPosition)
    + (if d.conflict.None? then []
       else [EngineEvent(env, hekate, ids.conflict, ConflictEvent(ConflictKindFor(s, d.conflict.value), d.conflict.value),
                         EntityKind.Conflict, d.conflict.value.id)])
    + rest
  }

  // ---------------------------------------------------------------- the index

  /** One relationship, between the user and HEKATE, whose list has no duplicates
      and holds exactly the unresolved conflicts. */
  ghost predicate IndexOk(s: State, user: PrincipalId, hekate: PrincipalId, id: RelationshipId) {
    && s.relationships.Keys == {id}
    && (forall c | c in s.conflicts :: s.conflicts[c].id == c)
    && var r := s.relationships[id];
    && user in r.participants && hekate in r.participants
    && Distinct(r.unresolvedConflicts)
    && forall c :: c in r.unresolvedConflicts <==> c in s.conflicts && Unresolved(s.conflicts[c].status)
  }

  predicate LeavesIndex(e: Event) {
    !e.body.ConflictEvent? && !e.body.RelationshipCreated?
  }

  lemma {:induction false} QuietIndex(env: Env, s: State, events: seq<Event>)
    requires ApplyAll(env, s, events).Some? && forall e | e in events :: LeavesIndex(e)
    ensures var t := ApplyAll(env, s, events).value; t.relationships == s.relationships && t.conflicts == s.conflicts
  {
    hide Step;
    if events != [] {
      var front, last := events[..|events| - 1], events[|events| - 1];
      assert last in events;
      QuietIndex(env, s, front);
      StepConflictParts(env, ApplyAll(env, s, front).value, last);
    }
  }

  predicate LeavesPositions(e: Event) {
    !e.body.PositionEvent?
  }

  lemma {:induction false} QuietPositions(env: Env, s: State, events: seq<Event>)
    requires ApplyAll(env, s, events).Some? && forall e | e in events :: LeavesPositions(e)
    ensures ApplyAll(env, s, events).value.positions == s.positions
  {
    hide Step;
    if events != [] {
      var front, last := events[..|events| - 1], events[|events| - 1];
      assert last in events;
      QuietPositions(env, s, front);
      StepConflictParts(env, ApplyAll(env, s, front).value, last);
    }
  }

  lemma IndexConflictOnce(s: State, c: Conflict, r: Relationship)
    requires ConflictTouches(s, c, r) && Distinct(r.unresolvedConflicts)
    ensures var next := IndexConflict(s, c, r);
            && Distinct(next.unresolvedConflicts) && next.participants == r.participants
            && forall x :: x in next.unresolvedConflicts
                           <==> (if x == c.id then Unresolved(c.status) else x in r.unresolvedConflicts)
  {
    RemoveElements(r.unresolvedConflicts, c.id);
    RemoveDistinct(r.unresolvedConflicts, c.id);
  }

  /** Storing a conflict that touches the relationship keeps the index exact. */
  lemma ConflictKeepsIndex(
    env: Env, s: State, e: Event, user: PrincipalId, hekate: PrincipalId, id: RelationshipId)
    requires IndexOk(s, user, hekate, id) && Step(env, s, e).Some? && e.body.ConflictEvent?
    requires ConflictTouches(s, e.body.conflict, s.relationships[id])
    ensures IndexOk(Step(env, s, e).value, user, hekate, id)
  {
    hide Step, IndexConflict, ConflictTouches;
    var c := e.body.conflict;
    StepConflictParts(env, s, e);
    var t := Step(env, s, e).value;
    IndexConflictOnce(s, c, s.relationships[id]);
    assert id in t.relationships;
    assert t.relationships.Keys == {id};
  }

  // ---------------------------------------------------------------- the participants survive the batch

  /** A participant found before the batch is stored, as its principal's or the actor's. */
  ghost predicate Survives(s: State, d: Decision, thought: Thought, t: State) {
    forall id | ParticipantOf(s, d, id).Some? ::
      && id in t.positions
      && (t.positions[id].principal == ParticipantOf(s, d, id).value || t.positions[id].principal == thought.actor)
  }

  lemma PlainStored(s: State, kind: PositionEventKind, p: Position, id: PositionId)
    ensures var next := StorePlainPosition(s, kind, p);
            && p.id in next && next[p.id] == p
            && (id in s.positions ==> id in next && (id != p.id ==> next[id].principal == s.positions[id].principal))
  {
  }

  lemma PositionApplies(env: Env, s: State, base: State, actor: PrincipalId, id: EventId, p: Position, k: PositionId)
    requires ApplyAll(env, s, PositionEvents(env, base, actor, id, Some(p))).Some?
    ensures var t := ApplyAll(env, s, PositionEvents(env, base, actor, id, Some(p))).value;
            && p.id in t.positions && t.positions[p.id] == p
            && (k in s.positions && k != p.id ==> k in t.positions && t.positions[k].principal == s.positions[k].principal)
            && (k in s.positions ==> k in t.positions)
            && t.relationships == s.relationships && t.conflicts == s.conflicts
  {
    hide Step, ApplyAll, StorePlainPosition;
    var e := PositionEvents(env, base, actor, id, Some(p))[0];
    assert PositionEvents(env, base, actor, id, Some(p)) == [e];
    ApplyOne(env, s, e);
    StepConflictParts(env, s, e);
    PlainStored(s, PositionKindFor(base, p), p, k);
  }

  lemma PositionsApply(env: Env, s: State, base: State, actor: PrincipalId, id: EventId, p: Option<Position>, k: PositionId)
    requires ApplyAll(env, s, PositionEvents(env, base, actor, id, p)).Some?
    ensures var t := ApplyAll(env, s, PositionEvents(env, base, actor, id, p)).value;
            && (p.Some? ==> p.value.id in t.positions && t.positions[p.value.id] == p.value)
            && (k in s.positions && (p.Some? ==> k != p.value.id) ==>
                  k in t.positions && t.positions[k].principal == s.positions[k].principal)
            && (k in s.positions ==> k in t.positions)
            && t.relationships == s.relationships && t.conflicts == s.conflicts
  {
    if p.Some? {
      PositionApplies(env, s, base, actor, id, p.value, k);
    }
    hide Step, StorePlainPosition, PositionKindFor;
  }

  lemma ValidKeepsPrincipal(s: State, p: Position)
    requires ValidPositionRevision(s, p)
    ensures p.id in s.positions ==> s.positions[p.id].principal == p.principal
  {
  }

  /** Both Position events of a validated decision leave every participant in place. */
  lemma ParticipantsSurvive(
    env: Env, base: State, s: State, hekate: PrincipalId, thought: Thought, d: Decision, ids: DecisionIds)
    requires JudgmentErrorOf(base, thought, d, hekate).None? && s.positions == base.positions
    requires var first := PositionEvents(env, base, hekate, ids.position, d.position);
             && ApplyAll(env, s, first).Some?
             && ApplyAll(env, ApplyAll(env, s, first).value,
                         PositionEvents(env, base, thought.actor, ids.user, d.userPosition)).Some?
    ensures var mid := ApplyAll(env, s, PositionEvents(env, base, hekate, ids.position, d.position)).value;
            var t := ApplyAll(env, mid, PositionEvents(env, base, thought.actor, ids.user, d.userPosition)).value;
            && Survives(base, d, thought, t)
            && t.relationships == s.relationships && t.conflicts == s.conflicts
  {
    hide ApplyAll, PositionEvents, ConflictError, Blank, CitesUnknown, ValidPositionRevision;
    var mid := ApplyAll(env, s, PositionEvents(env, base, hekate, ids.position, d.position)).value;
    var t := ApplyAll(env, mid, PositionEvents(env, base, thought.actor, ids.user, d.userPosition)).value;
    if d.position.Some? { ValidKeepsPrincipal(base, d.position.value); }
    if d.userPosition.Some? { ValidKeepsPrincipal(base, d.userPosition.value); }
    PositionsApply(env, s, base, hekate, ids.position, d.position, 0);
    PositionsApply(env, mid, base, thought.actor, ids.user, d.userPosition, 0);
    forall id | ParticipantOf(base, d, id).Some?
      ensures id in t.positions
      ensures t.positions[id].principal == ParticipantOf(base, d, id).value || t.positions[id].principal == thought.actor
    {
      PositionsApply(env, s, base, hekate, ids.position, d.position, id);
      PositionsApply(env, mid, base, thought.actor, ids.user, d.userPosition, id);
    }
  }

  lemma ValidTouches(
    base: State, hekate: PrincipalId, thought: Thought, d: Decision, t: State, r: Relationship)
    requires JudgmentErrorOf(base, thought, d, hekate).None? && d.conflict.Some?
    requires Survives(base, d, thought, t) && hekate in r.participants && thought.actor in r.participants
    ensures ConflictTouches(t, d.conflict.value, r)
  {
    hide PositionError, UserPositionError, Blank, CitesUnknown;
    var c := d.conflict.value;
    var id :| id in c.participants && ParticipantOf(base, d, id) == Some(hekate);
    assert id in t.positions;
  }

  lemma ValidConflictStep(base: State, hekate: PrincipalId, thought: Thought, d: Decision)
    requires JudgmentErrorOf(base, thought, d, hekate).None? && d.conflict.Some?
    ensures var c := d.conflict.value;
            c.id in base.conflicts ==> ValidConflictTransition(base.conflicts[c.id].status, c.status)
  {
    hide PositionError, UserPositionError, Blank, CitesUnknown;
  }

  // ---------------------------------------------------------------- what a decision does to Positions

  predicate Supersedes(p: Option<Position>, id: PositionId) {
    p.Some? && p.value.supersedes == Some(id)
  }

  predicate Proposes(p: Option<Position>, id: PositionId) {
    p.Some? && p.value.id == id
  }

  /** One proposed Position is stored as it is, what it supersedes is superseded, and every
      other Position stays as it was. */
  ghost predicate PositionDecided(before: map<PositionId, Position>, p: Option<Position>, after: map<PositionId, Position>) {
    && after.Keys == before.Keys + (if p.Some? then {p.value.id} else {})
    && (p.Some? ==> after[p.value.id] == p.value)
    && forall k | k in before && !Proposes(p, k) ::
         after[k] == if Supersedes(p, k) then before[k].(status := PositionStatus.Superseded) else before[k]
  }

  /** HEKATE's proposed Position and the user's, the second one last. */
  ghost predicate PositionsDecided(before: map<PositionId, Position>, d: Decision, after: map<PositionId, Position>) {
    var p, u := d.position, d.userPosition;
    && after.Keys == before.Keys + (if p.Some? then {p.value.id} else {}) + (if u.Some? then {u.value.id} else {})
    && (u.Some? ==> after[u.value.id] == u.value)
    && (p.Some? && !Proposes(u, p.value.id) ==>
          after[p.value.id]
          == if Supersedes(u, p.value.id) then p.value.(status := PositionStatus.Superseded) else p.value)
    && forall k | k in before && !Proposes(p, k) && !Proposes(u, k) ::
         after[k] == if Supersedes(p, k) || Supersedes(u, k) then before[k].(status := PositionStatus.Superseded)
                     else before[k]
  }

  lemma PlainDecided(s: State, base: State, p: Position)
    requires ValidPositionRevision(base, p) && base.positions.Keys <= s.positions.Keys
    ensures PositionDecided(s.positions, Some(p), StorePlainPosition(s, PositionKindFor(base, p), p))
  {
  }

  lemma EventDecides(env: Env, s: State, base: State, actor: PrincipalId, id: EventId, p: Option<Position>)
    requires ApplyAll(env, s, PositionEvents(env, base, actor, id, p)).Some?
    requires p.Some? ==> ValidPositionRevision(base, p.value)
    requires base.positions.Keys <= s.positions.Keys
    ensures PositionDecided(s.positions, p, ApplyAll(env, s, PositionEvents(env, base, actor, id, p)).value.positions)
  {
    hide Step, ApplyAll, StorePlainPosition, PositionKindFor, ValidPositionRevision;
    if p.Some? {
      var e := PositionEvents(env, base, actor, id, p)[0];
      assert PositionEvents(env, base, actor, id, p) == [e];
      ApplyOne(env, s, e);
      StepConflictParts(env, s, e);
      PlainDecided(s, base, p.value);
    } else {
      NoneApplied(env, s);
    }
  }

  lemma NoneApplied(env: Env, s: State)
    ensures ApplyAll(env, s, []) == Some(s)
  {
  }

  lemma BothDecided(
    before: map<PositionId, Position>, d: Decision, mid: map<PositionId, Position>, after: map<PositionId, Position>)
    requires PositionDecided(before, d.position, mid) && PositionDecided(mid, d.userPosition, after)
    ensures PositionsDecided(before, d, after)
  {
  }

  lemma ValidRevisions(base: State, hekate: PrincipalId, thought: Thought, d: Decision)
    requires JudgmentErrorOf(base, thought, d, hekate).None?
    ensures d.position.Some? ==> ValidPositionRevision(base, d.position.value) && d.position.value.principal == hekate
    ensures d.userPosition.Some? ==>
              ValidPositionRevision(base, d.userPosition.value) && d.userPosition.value.principal == thought.actor
  {
    hide ConflictError, Blank, CitesUnknown, ValidPositionRevision;
  }

  /** A Position that supersedes another continues an active one of the same owner and subject. */
  ghost predicate Succeeds(s: State, p: Option<Position>) {
    p.Some? && p.value.supersedes.Some? ==>
      && p.value.supersedes.value in s.positions
      && var q := s.positions[p.value.supersedes.value];
      && q.status.Active? && q.principal == p.value.principal && q.subject == p.value.subject
      && p.value.version == Min(q.version + 1, U32_MAX) && p.value.status.Active?
  }

  /** The batch of a validated decision stores the Positions it proposes and supersedes
      those they replace, which were active and of the same owner and subject; no other
      Position changes. Between different principals the two do not meet, unless both are
      new under one identifier. */
  lemma DecisionPositions(
    env: Env, s: State, hekate: PrincipalId, thought: Thought, d: Decision, ids: DecisionIds, before: seq<Event>,
    rest: seq<Event>)
    requires JudgmentErrorOf(s, thought, d, hekate).None?
    requires forall e | e in before + rest :: LeavesPositions(e)
    requires ApplyAll(env, s, DecisionBatch(env, s, hekate, thought, d, ids, before, rest)).Some?
    ensures var t := ApplyAll(env, s, DecisionBatch(env, s, hekate, thought, d, ids, before, rest)).value;
            var p, u := d.position, d.userPosition;
            && PositionsDecided(s.positions, d, t.positions)
            && Succeeds(s, p) && Succeeds(s, u)
            && (hekate != thought.actor && p.Some? && (u.Some? ==> u.value.id != p.value.id) ==>
                  && t.positions[p.value.id] == p.value
                  && forall q | Supersedes(p, q) ::
                       t.positions[q] == s.positions[q].(status := PositionStatus.Superseded))
            && (hekate != thought.actor && u.Some? && (p.Some? ==> u.value.id != p.value.id) ==>
                  && t.positions[u.value.id] == u.value
                  && forall q | Supersedes(u, q) ::
                       t.positions[q] == s.positions[q].(status := PositionStatus.Superseded))
  {
    hide ApplyAll, PositionEvents, JudgmentErrorOf, Step, PositionDecided;
    var first := PositionEvents(env, s, hekate, ids.position, d.position);
    var second := PositionEvents(env, s, thought.actor, ids.user, d.userPosition);
    var third := if d.conflict.None? then []
                 else [EngineEvent(env, hekate, ids.conflict,
                                   ConflictEvent(ConflictKindFor(s, d.conflict.value), d.conflict.value),
                                   EntityKind.Conflict, d.conflict.value.id)];
    ApplyAllConcat(env, s, before + first + second, third + rest);
    ApplyAllConcat(env, s, before + first, second);
    ApplyAllConcat(env, s, before, first);
    assert before + first + second + (third + rest) == DecisionBatch(env, s, hekate, thought, d, ids, before, rest);
    var s0 := ApplyAll(env, s, before).value;
    QuietPositions(env, s, before);
    ValidRevisions(s, hekate, thought, d);
    EventDecides(env, s0, s, hekate, ids.position, d.position);
    var s1 := ApplyAll(env, s0, first).value;
    DecidedKeys(s0.positions, d.position, s1.positions);
    EventDecides(env, s1, s, thought.actor, ids.user, d.userPosition);
    var s2 := ApplyAll(env, s1, second).value;
    BothDecided(s.positions, d, s1.positions, s2.positions);
    assert forall e | e in third + rest :: e in rest || LeavesPositions(e);
    QuietPositions(env, s2, third + rest);
  }

  lemma DecidedKeys(before: map<PositionId, Position>, p: Option<Position>, after: map<PositionId, Position>)
    requires PositionDecided(before, p, after)
    ensures before.Keys <= after.Keys
  {
  }

  lemma {:induction false} QuietConflicts(env: Env, s: State, events: seq<Event>)
    requires ApplyAll(env, s, events).Some? && forall e | e in events :: !e.body.ConflictEvent?
    ensures ApplyAll(env, s, events).value.conflicts == s.conflicts
  {
    hide Step;
    if events != [] {
      var front, last := events[..|events| - 1], events[|events| - 1];
      assert last in events;
      QuietConflicts(env, s, front);
      StepConflictParts(env, ApplyAll(env, s, front).value, last);
    }
  }

  /** The batch stores the conflict the decision proposes, as proposed, and no other changes. */
  lemma DecisionConflict(
    env: Env, s: State, hekate: PrincipalId, thought: Thought, d: Decision, ids: DecisionIds, before: seq<Event>,
    rest: seq<Event>)
    requires forall e | e in before + rest :: !e.body.ConflictEvent?
    requires ApplyAll(env, s, DecisionBatch(env, s, hekate, thought, d, ids, before, rest)).Some?
    ensures var t := ApplyAll(env, s, DecisionBatch(env, s, hekate, thought, d, ids, before, rest)).value;
            t.conflicts == if d.conflict.Some? then s.conflicts[d.conflict.value.id := d.conflict.value] else s.conflicts
  {
    hide ApplyAll, Step;
    var first := before + PositionEvents(env, s, hekate, ids.position, d.position)
                 + PositionEvents(env, s, thought.actor, ids.user, d.userPosition);
    var batch := DecisionBatch(env, s, hekate, thought, d, ids, before, rest);
    if d.conflict.Some? {
      var e := EngineEvent(env, hekate, ids.conflict, ConflictEvent(ConflictKindFor(s, d.conflict.value), d.conflict.value),
                           EntityKind.Conflict, d.conflict.value.id);
      assert batch == first + [e] + rest;
      ApplyAllConcat(env, s, first + [e], rest);
      ApplyLast(env, s, first, e);
      QuietConflicts(env, s, first);
      var mid := ApplyAll(env, s, first).value;
      StepConflictParts(env, mid, e);
      QuietConflicts(env, Step(env, mid, e).value, rest);
    } else {
      assert batch == first + rest;
      QuietConflicts(env, s, batch);
    }
  }

  /** The kinds under which a validated decision records its Positions and its conflict. */
  lemma DecisionKinds(s: State, hekate: PrincipalId, thought: Thought, d: Decision)
    requires JudgmentErrorOf(s, thought, d, hekate).None?
    ensures forall p | d.position == Some(p) || d.userPosition == Some(p) ::
              var kind := PositionKindFor(s, p);
              && (kind.Revised? <==> p.supersedes.Some?)
              && (kind.Established? <==> p.id !in s.positions && p.supersedes.None?)
              && (kind.Maintained? <==> p.id in s.positions && p.status.Active?)
              && (kind.Retracted? <==> p.id in s.positions && p.status.Retracted?)
    ensures d.conflict.Some? ==>
              var c := d.conflict.value;
              var kind := ConflictKindFor(s, c);
              && (kind.Resolved? <==> c.status.Resolved? || c.status.AcceptedDisagreement?)
              && (kind.Opened? <==> c.id !in s.conflicts && !kind.Resolved?)
              && (kind.Updated? <==> c.id in s.conflicts && !kind.Resolved?)
  {
    hide JudgmentErrorOf;
    ValidRevisions(s, hekate, thought, d);
  }

  // ---------------------------------------------------------------- decisions over a whole run

  /** A terminal conflict is never changed. */
  ghost predicate TerminalKept(s: State, t: State) {
    forall c | c in s.conflicts :: c in t.conflicts && (!Unresolved(s.conflicts[c].status) ==> t.conflicts[c] == s.conflicts[c])
  }

  lemma ConflictPart(
    env: Env, base: State, t: State, hekate: PrincipalId, thought: Thought, d: Decision, e: Event, user: PrincipalId,
    rel: RelationshipId)
    requires JudgmentErrorOf(base, thought, d, hekate).None? && d.conflict.Some? && thought.actor == user
    requires e.body.ConflictEvent? && e.body.conflict == d.conflict.value && Step(env, t, e).Some?
    requires Survives(base, d, thought, t) && IndexOk(t, user, hekate, rel) && t.conflicts == base.conflicts
    ensures IndexOk(Step(env, t, e).value, user, hekate, rel) && TerminalKept(base, Step(env, t, e).value)
  {
    hide Step, JudgmentErrorOf, ConflictTouches, ParticipantOf, Survives;
    ValidTouches(base, hekate, thought, d, t, t.relationships[rel]);
    ConflictKeepsIndex(env, t, e, user, hekate, rel);
    ValidConflictStep(base, hekate, thought, d);
    StepConflictParts(env, t, e);
  }

  /** A validated decision keeps the index exact and terminal conflicts closed. */
  lemma DecisionKeepsIndex(
    env: Env, s: State, hekate: PrincipalId, user: PrincipalId, thought: Thought, d: Decision, ids: DecisionIds,
    before: seq<Event>, rest: seq<Event>, rel: RelationshipId)
    requires IndexOk(s, user, hekate, rel) && thought.actor == user
    requires JudgmentErrorOf(s, thought, d, hekate).None?
    requires forall e | e in before + rest :: LeavesIndex(e) && LeavesPositions(e)
    requires ApplyAll(env, s, DecisionBatch(env, s, hekate, thought, d, ids, before, rest)).Some?
    ensures var t := ApplyAll(env, s, DecisionBatch(env, s, hekate, thought, d, ids, before, rest)).value;
            IndexOk(t, user, hekate, rel) && TerminalKept(s, t)
  {
    hide ApplyAll, PositionEvents, JudgmentErrorOf, IndexOk, Step, Survives;
    var first := PositionEvents(env, s, hekate, ids.position, d.position);
    var second := PositionEvents(env, s, user, ids.user, d.userPosition);
    var third := if d.conflict.None? then []
                 else [EngineEvent(env, hekate, ids.conflict,
                                   ConflictEvent(ConflictKindFor(s, d.conflict.value), d.conflict.value),
                                   EntityKind.Conflict, d.conflict.value.id)];
    ApplyAllConcat(env, s, before + first + second + third, rest);
    ApplyAllConcat(env, s, before + first + second, third);
    ApplyAllConcat(env, s, before + first, second);
    ApplyAllConcat(env, s, before, first);
    assert forall e | e in before :: e in before + rest;
    assert forall e | e in rest :: e in before + rest;
    var s0 := ApplyAll(env, s, before).value;
    QuietIndex(env, s, before);
    QuietPositions(env, s, before);
    ParticipantsSurvive(env, s, s0, hekate, thought, d, ids);
    var s2 := ApplyAll(env, s, before + first + second).value;
    SameIndex(s, s2, user, hekate, rel);
    var s3 := ApplyAll(env, s2, third).value;
    ThirdPart(env, s, s2, hekate, user, thought, d, third, rel);
    QuietIndex(env, s3, rest);
    SameIndex(s3, ApplyAll(env, s3, rest).value, user, hekate, rel);
  }

  lemma SameIndex(s: State, t: State, user: PrincipalId, hekate: PrincipalId, rel: RelationshipId)
    requires IndexOk(s, user, hekate, rel) && t.relationships == s.relationships && t.conflicts == s.conflicts
    ensures IndexOk(t, user, hekate, rel)
  {
  }

  lemma ThirdPart(
    env: Env, base: State, t: State, hekate: PrincipalId, user: PrincipalId, thought: Thought, d: Decision,
    third: seq<Event>, rel: RelationshipId)
    requires JudgmentErrorOf(base, thought, d, hekate).None? && thought.actor == user
    requires IndexOk(t, user, hekate, rel) && Survives(base, d, thought, t) && t.conflicts == base.conflicts
    requires ApplyAll(env, t, third).Some?
    requires if d.conflict.None? then third == []
             else |third| == 1 && third[0].body.ConflictEvent? && third[0].body.conflict == d.conflict.value
    ensures IndexOk(ApplyAll(env, t, third).value, user, hekate, rel) && TerminalKept(base, ApplyAll(env, t, third).value)
  {
    hide Step, JudgmentErrorOf, IndexOk, Survives;
    if d.conflict.Some? {
      assert [] + [third[0]] == third;
      ApplyLast(env, t, [], third[0]);
      ConflictPart(env, base, t, hekate, thought, d, third[0], user, rel);
    }
  }

  datatype Action =
    | Decide(thought: Thought, decision: Decision, ids: DecisionIds, before: seq<Event>, rest: seq<Event>)
    | Other(events: seq<Event>, expected: Option<nat>)

  /** A decision is validated against the state its batch is committed on; nothing
      else records conflicts or relationships. */
  function Next(env: Env, user: PrincipalId, hekate: PrincipalId, st: Store, a: Action): Store {
    match a
    case Decide(thought, d, ids, before, rest) =>
      if thought.actor != user || JudgmentErrorOf(st.state, thought, d, hekate).Some?
         || exists e | e in before + rest :: !LeavesIndex(e) || !LeavesPositions(e) then st
      else
        (match RecordBatch(env, st, DecisionBatch(env, st.state, hekate, thought, d, ids, before, rest),
                           Some(st.state.revision))
         case Err(_) => st
         case Ok(next) => next)
    case Other(events, expected) =>
      if exists e | e in events :: !LeavesIndex(e) then st
      else
        match RecordBatch(env, st, events, expected)
        case Err(_) => st
        case Ok(next) => next
  }

  function Exec(env: Env, user: PrincipalId, hekate: PrincipalId, st: Store, actions: seq<Action>): Store {
    if actions == [] then st
    else Next(env, user, hekate, Exec(env, user, hekate, st, actions[..|actions| - 1]), actions[|actions| - 1])
  }

  lemma NextKeepsIndex(env: Env, user: PrincipalId, hekate: PrincipalId, st: Store, a: Action, rel: RelationshipId)
    requires Consistent(env, st) && IndexOk(st.state, user, hekate, rel)
    ensures var next := Next(env, user, hekate, st, a);
            Consistent(env, next) && IndexOk(next.state, user, hekate, rel) && TerminalKept(st.state, next.state)
  {
    hide JudgmentErrorOf, IndexOk, DecisionBatch, Step;
    match a
    case Decide(thought, d, ids, before, rest) =>
      if thought.actor == user && JudgmentErrorOf(st.state, thought, d, hekate).None?
         && forall e | e in before + rest :: LeavesIndex(e) && LeavesPositions(e)
      {
        var batch := DecisionBatch(env, st.state, hekate, thought, d, ids, before, rest);
        RecordBatchLands(env, st, batch, Some(st.state.revision));
        if RecordBatch(env, st, batch, Some(st.state.revision)).Ok? {
          DecisionKeepsIndex(env, st.state, hekate, user, thought, d, ids, before, rest, rel);
        }
      }
    case Other(events, expected) =>
      if forall e | e in events :: LeavesIndex(e) {
        RecordBatchLands(env, st, events, expected);
        if RecordBatch(env, st, events, expected).Ok? {
          QuietIndex(env, st.state, events);
          SameIndex(st.state, RecordBatch(env, st, events, expected).value.state, user, hekate, rel);
        }
      }
  }

  /** Once the relationship was created, with no conflict yet, every later state has
      an index that is duplicate-free and holds exactly the unresolved conflicts,
      and a conflict that was resolved or accepted never changes again. */
  lemma {:induction false} IndexHolds(
    env: Env, user: PrincipalId, hekate: PrincipalId, st: Store, actions: seq<Action>, rel: RelationshipId)
    requires Consistent(env, st) && st.state.relationships.Keys == {rel} && st.state.conflicts == map[]
    requires var r := st.state.relationships[rel];
             user in r.participants && hekate in r.participants && r.unresolvedConflicts == []
    ensures var final := Exec(env, user, hekate, st, actions);
            Consistent(env, final) && IndexOk(final.state, user, hekate, rel)
  {
    hide Next, Consistent;
    if actions != [] {
      IndexHolds(env, user, hekate, st, actions[..|actions| - 1], rel);
      NextKeepsIndex(env, user, hekate, Exec(env, user, hekate, st, actions[..|actions| - 1]), actions[|actions| - 1], rel);
    }
  }

  /** A conflict that was resolved or accepted at some point is the same ever after. */
  lemma {:induction false} TerminalForever(
    env: Env, user: PrincipalId, hekate: PrincipalId, st: Store, actions: seq<Action>, rel: RelationshipId, k: nat,
    c: ConflictId)
    requires Consistent(env, st) && st.state.relationships.Keys == {rel} && st.state.conflicts == map[]
    requires var r := st.state.relationships[rel];
             user in r.participants && hekate in r.participants && r.unresolvedConflicts == []
    requires k <= |actions|
    requires var earlier := Exec(env, user, hekate, st, actions[..k]).state.conflicts;
             c in earlier && !Unresolved(earlier[c].status)
    ensures var final := Exec(env, user, hekate, st, actions).state.conflicts;
            c in final && final[c] == Exec(env, user, hekate, st, actions[..k]).state.conflicts[c]
    decreases |actions|
  {
    hide Next, Consistent;
    if k == |actions| {
      assert actions[..k] == actions;
    } else {
      var front := actions[..|actions| - 1];
      assert front[..k] == actions[..k];
      TerminalForever(env, user, hekate, st, front, rel, k, c);
      IndexHolds(env, user, hekate, st, front, rel);
      NextKeepsIndex(env, user, hekate, Exec(env, user, hekate, st, front), actions[|actions| - 1], rel);
    }
  }
}
