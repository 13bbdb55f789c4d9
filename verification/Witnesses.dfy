/** Concrete ledgers that show where a promise fails, and that the plans it speaks
    of can be made. */
module Witnesses {
  import opened Prelude
  import opened Ordering
  import opened Model
  import opened Evidence
  import opened Deliberation
  import opened Projector
  import opened Lookup
  import opened Ledger
  import opened MemoryIntegration
  import opened IntegrationHistory
  import opened IntegrationAccept
  import opened PositionLifecycle
  import IX = IntegrationExact

  function Zeros(n: nat): (r: string)
    ensures |r| == n && forall i | 0 <= i < n :: r[i] == '0'
  {
    if n == 0 then "" else Zeros(n - 1) + "0"
  }

  const HASH: string := Zeros(64)
  const ESTABLISHMENT: PositionOperation := PositionOperation.Establish("s", Support, ["r"], ["r"])
  const WITHDRAWAL: PositionOperation := PositionOperation.Withdraw(7, 1, "r")
  const LATER_WITHDRAWAL: PositionOperation := PositionOperation.Withdraw(7, 2, "r")
  const EXPIRY: MemoryOperation := MemoryOperation.Expire(6, 3, HASH)

  function Decoded(content: string): PositionOperation {
    if content == "w" then WITHDRAWAL else if content == "x" then LATER_WITHDRAWAL else ESTABLISHMENT
  }

  /** A candidate's digest is its content; the contents "w" and "x" withdraw Position 7
      at version one and two, any other establishes one, and every Memory proposal
      expires Memory 6. */
  const ENV: Env := Env(
    s => s, (_, content, _, _) => content, (_, _, _, _, _) => "", _ => HASH,
    content => Some(PositionProposal(POSITION_INTEGRATION_SCHEMA, Decoded(content))),
    _ => Some(MemoryProposal(MEMORY_REVISION_SCHEMA, EXPIRY)))

  function At(id: EventId, actor: PrincipalId, body: Body, subject: Option<EntityRef>): Event {
    Event(id, actor, body, subject, SourceType.Engine, None, None, None, HASH)
  }

  // ---------------------------------------------------------------- the first five events

  const HEKATE: Principal := Principal.Principal(1, Hekate)
  const USER: Principal := Principal.Principal(2, User)
  const HELD: Position := Position.Position(7, 1, "s", Support, 1, PositionStatus.Active, 50, None, [], [], [])
  const SUCCESSOR: Position := Position.Position(7, 1, "s", Support, 2, PositionStatus.Active, 60, Some(6), [], [], [])
  const KEPT: Memory := Memory.Memory(6, 60, MemoryKind.Lesson, "m", None, MemoryStatus.Active, 50, [], None)
  const RUN: SleepRun := SleepRun.SleepRun(5, SleepRunStatus.Running, 4, 0, None, [4])

  const E1: Event := At(1, 1, PrincipalCreated(HEKATE), None)
  const E2: Event := At(2, 1, PrincipalCreated(USER), None)
  const RECORDED: Event := At(3, 1, PositionEvent(PositionEventKind.Recorded, HELD, None), None)
  const SUCCEEDED: Event := At(3, 1, PositionEvent(PositionEventKind.Recorded, SUCCESSOR, None), None)
  const PROMOTED: Event := At(3, 1, MemoryEvent(MemoryEventKind.Promoted, KEPT), Some(EntityRef(EntityKind.Memory, 6)))
  const E4: Event := At(4, 2, ObservationRecorded(Observation.Observation(4, 2, "o")), None)
  const E5: Event := At(5, 1, SleepRunEvent(SleepEventKind.Started, RUN), None)

  function PositionsOn(positions: map<PositionId, Position>, e: Event): map<PositionId, Position> {
    if e == RECORDED then positions[7 := HELD] else if e == SUCCEEDED then positions[7 := SUCCESSOR] else positions
  }

  function PositionsAfter(third: Event): map<PositionId, Position> {
    PositionsOn(map[], third)
  }

  function MemoriesAfter(third: Event): map<MemoryId, Memory> {
    if third == PROMOTED then map[6 := KEPT] else map[]
  }

  predicate Third(e: Event) {
    e == RECORDED || e == SUCCEEDED || e == PROMOTED
  }

  function Opening(third: Event): seq<Event> {
    [E1, E2, third, E4, E5]
  }

  ghost predicate NothingReviewed(s: State) {
    && s.candidates == map[] && s.verifications == map[] && s.materializations == map[]
    && s.positionMaterializations == map[] && s.memoryRevisions == map[] && s.memoryCandidates == map[]
  }

  /** Four events in: two principals, what the third event recorded, and an observation. */
  ghost predicate AfterFour(s: State, third: Event) {
    && s.revision == 4 && s.applied == [1, 2, 3, 4]
    && s.principals == map[1 := HEKATE, 2 := USER]
    && s.positions == PositionsAfter(third) && s.memories == MemoriesAfter(third)
    && s.sleepRuns == map[] && s.sleepCursor == 0 && s.conflicts == map[] && NothingReviewed(s)
  }

  lemma Grow(ledger: seq<Event>, s: State, e: Event)
    requires Replay(ENV, ledger) == Some(s)
    ensures Replay(ENV, ledger + [e]) == Step(ENV, s, e)
  {
    hide Step;
    ApplyLast(ENV, EMPTY_STATE, ledger, e);
  }

  lemma PlainStep(s: State, e: Event)
    requires e.id !in s.applied
    requires e.body.PrincipalCreated? || Third(e) || e.body.ObservationRecorded?
    ensures Step(ENV, s, e).Some?
    ensures Step(ENV, s, e).value.sleepCursor == s.sleepCursor
  {
  }

  ghost predicate AfterTwo(s: State) {
    && s.revision == 2 && s.applied == [1, 2] && s.principals == map[1 := HEKATE, 2 := USER]
    && s.positions == map[] && s.memories == map[]
    && s.sleepRuns == map[] && s.sleepCursor == 0 && s.conflicts == map[] && NothingReviewed(s)
  }

  lemma OpensTwo() returns (s: State)
    ensures Replay(ENV, [E1, E2]) == Some(s) && AfterTwo(s)
  {
    assert Replay(ENV, []) == Some(EMPTY_STATE);
    hide Step, Replay;
    assert [] + [E1] == [E1] && [E1] + [E2] == [E1, E2];
    var s1 := OpensOne([], EMPTY_STATE, E1);
    s := OpensOne([E1], s1, E2);
  }

  lemma OpensFour(third: Event) returns (s: State)
    requires Third(third)
    ensures Replay(ENV, [E1, E2, third, E4]) == Some(s) && AfterFour(s, third)
  {
    hide Step, Replay;
    assert [E1, E2] + [third] == [E1, E2, third] && [E1, E2, third] + [E4] == [E1, E2, third, E4];
    var s2 := OpensTwo();
    var s3 := OpensOne([E1, E2], s2, third);
    s := OpensOne([E1, E2, third], s3, E4);
  }

  lemma OpensOne(ledger: seq<Event>, s: State, e: Event) returns (t: State)
    requires Replay(ENV, ledger) == Some(s) && e.id !in s.applied
    requires e.body.PrincipalCreated? || Third(e) || e.body.ObservationRecorded?
    ensures Replay(ENV, ledger + [e]) == Some(t)
    ensures t.revision == s.revision + 1 && t.applied == s.applied + [e.id]
    ensures t.principals == if e.body.PrincipalCreated? then s.principals[e.body.principal.id := e.body.principal]
                            else s.principals
    ensures t.positions == PositionsOn(s.positions, e)
    ensures t.memories == if e == PROMOTED then s.memories[6 := KEPT] else s.memories
    ensures s.memoryCandidates == map[] ==> t.memoryCandidates == map[]
    ensures t.sleepRuns == s.sleepRuns && t.sleepCursor == s.sleepCursor && t.conflicts == s.conflicts
    ensures t.candidates == s.candidates && t.verifications == s.verifications && t.materializations == s.materializations
    ensures t.positionMaterializations == s.positionMaterializations && t.memoryRevisions == s.memoryRevisions
  {
    PlainStep(s, e);
    StepParts(ENV, s, e);
    StepConflictParts(ENV, s, e);
    hide Step, Replay, BodyAccepted;
    Grow(ledger, s, e);
    t := Step(ENV, s, e).value;
  }

  /** Events are numbered in order, both principals are known, the run is running. */
  ghost predicate Ready(s: State) {
    && 5 <= s.revision == |s.applied| && (forall k | 0 <= k < |s.applied| :: s.applied[k] == k + 1)
    && s.principals == map[1 := HEKATE, 2 := USER]
    && s.sleepRuns == map[5 := RUN] && s.conflicts == map[]
  }

  lemma Opens(third: Event) returns (s: State)
    requires Third(third)
    ensures Replay(ENV, Opening(third)) == Some(s) && Ready(s) && s.revision == 5 && NothingReviewed(s)
    ensures s.positions == PositionsAfter(third) && s.memories == MemoriesAfter(third)
  {
    hide Step, Replay, BodyAccepted, After;
    var four := OpensFour(third);
    RunStarts(four, third);
    Grow([E1, E2, third, E4], four, E5);
    assert [E1, E2, third, E4] + [E5] == Opening(third);
    s := Step(ENV, four, E5).value;
  }

  lemma RunStarts(s: State, third: Event)
    requires AfterFour(s, third)
    ensures Step(ENV, s, E5).Some?
    ensures var t := Step(ENV, s, E5).value;
            && Ready(t) && t.revision == 5 && NothingReviewed(t) && t.positions == s.positions && t.memories == s.memories
  {
    assert SleepStartAccepted(s, RUN);
    assert s.applied + [5] == [1, 2, 3, 4, 5];
  }

  lemma OpeningLength(third: Event)
    ensures |Opening(third)| == 5
  {
  }

  // ---------------------------------------------------------------- candidates and their reviews

  const SUPPORT: EvidenceRef := EvidenceRef(4, None, HASH, 4)

  function Candidate(id: CandidateId, kind: CandidateKind, content: string, counter: seq<EventId>): IntegrationCandidate {
    IntegrationCandidate.IntegrationCandidate(
      id, 5, kind, Disposition.NeedsValidation, 4, content, "y", [4], counter, 60, content)
  }

  ghost predicate Proposed(c: IntegrationCandidate) {
    && |c.content| == 1 && !IsWhitespace(c.content[0])
    && (c.counter == [] || c.counter == [3])
    && c == Candidate(c.id, c.kind, c.content, c.counter)
  }

  function Verified(c: IntegrationCandidate): IntegrationCandidate {
    c.(disposition := Disposition.Verified)
  }

  /** What is stored of the review that event `n` recorded. */
  function Stored(id: CandidateId, n: EventId): IntegrationVerification {
    IntegrationVerification.IntegrationVerification(
      id, Some(n), Disposition.NeedsValidation, Disposition.Verified, 2, "ok", [SUPPORT], 4)
  }

  function CreatedAt(n: EventId, c: IntegrationCandidate): Event {
    At(n, 1, CandidateCreated(c, true), Some(EntityRef(EntityKind.IntegrationCandidate, c.id)))
  }

  function VerifiedAt(n: EventId, c: IntegrationCandidate): Event {
    At(n, 2, CandidateVerified(Stored(c.id, n)), Some(EntityRef(EntityKind.IntegrationCandidate, c.id)))
  }

  lemma OneLetter(s: string)
    requires |s| == 1 && !IsWhitespace(s[0])
    ensures Trim(s) == s && !Blank(s) && ValidText(s)
  {
    assert TrimStart(s) == s;
    assert Utf8Len(s) == Utf8Width(s[0]) + Utf8Len("");
  }

  lemma Texts()
    ensures Trim("ok") == "ok" && !Blank("ok")
    ensures ValidSha256Hex(HASH)
    ensures Normalize([SUPPORT]) == [SUPPORT]
  {
    assert TrimStart("ok") == "ok";
    assert Sort(EvidenceLe, [SUPPORT]) == [SUPPORT];
  }

  lemma Proposals(c: IntegrationCandidate)
    requires Proposed(c)
    ensures ParsePositionProposal(ENV, c.content) == Some(Decoded(c.content))
    ensures ParseMemoryProposal(ENV, c.content) == Some(EXPIRY)
  {
    Texts();
    OneLetter("s");
    OneLetter("r");
    hide ValidText, ValidSha256Hex;
    assert forall v | v in ["r"] :: v == "r";
  }

  lemma Numbered(s: State, id: EventId)
    requires Ready(s) && 1 <= id <= s.revision
    ensures id in s.applied && IndexOf(s.applied, id) == Some(id - 1) && SequenceOf(s, id) == Some(id)
  {
    assert s.applied[id - 1] == id;
    var i := IndexOf(s.applied, id).value;
    assert s.applied[i] == i + 1;
  }

  lemma Supported(s: State, c: IntegrationCandidate)
    requires Ready(s) && Proposed(c)
    ensures IntegrationEvidenceValid(s, c, [SUPPORT], 4) && IntegrationEvidenceValid(s, Verified(c), [SUPPORT], 4)
  {
    Texts();
    Numbered(s, 4);
    hide ValidSha256Hex, SequenceOf, Normalize;
  }

  lemma CandidateGuards(s: State, c: IntegrationCandidate)
    requires Ready(s) && Proposed(c) && forall id | id in s.candidates :: s.candidates[id].fingerprint != c.fingerprint
    ensures CandidateAccepted(ENV, s, c, true) && EffectiveCandidate(s, c, true) == c
    ensures FingerprintMatches(ENV, c) && FingerprintMatches(ENV, Verified(c))
  {
    OneLetter(c.content);
    OneLetter("y");
    Numbered(s, 3);
    Numbered(s, 4);
    hide Blank, Trim, ValidText, IndexOf, SequenceOf, SortIds;
    assert CandidateFingerprint(ENV, c.kind, c.content, c.sources, c.counter) == c.content;
  }

  lemma ReviewGuardsHold(s: State, c: IntegrationCandidate, n: EventId)
    requires Ready(s) && Proposed(c) && c.id in s.candidates && s.candidates[c.id] == c
    ensures CandidateTransitionAccepted(ENV, s, VerifiedAt(n, c), Stored(c.id, n), Disposition.Verified)
    ensures StoredVerification(VerifiedAt(n, c), Stored(c.id, n)) == Stored(c.id, n)
  {
    Texts();
    OneLetter(c.content);
    Proposals(c);
    Supported(s, c);
    hide Blank, Trim, Normalize, IntegrationEvidenceValid, ParsePositionProposal, ParseMemoryProposal, SortIds;
    assert CandidateFingerprint(ENV, c.kind, c.content, c.sources, c.counter) == c.content;
  }

  ghost predicate SameRecords(s: State, t: State) {
    && t.positions == s.positions && t.memories == s.memories && t.memoryCandidates == s.memoryCandidates
    && t.materializations == s.materializations && t.memoryRevisions == s.memoryRevisions
    && t.positionMaterializations == s.positionMaterializations
  }

  lemma NewNumber(s: State)
    requires Ready(s)
    ensures forall id | id > s.revision :: id !in s.applied
  {
  }

  lemma NumbersOn(s: State, t: State)
    requires Ready(s) && t.revision == s.revision + 1 && t.applied == s.applied + [s.revision + 1]
    requires t.principals == s.principals && t.sleepRuns == s.sleepRuns && t.conflicts == s.conflicts
    ensures Ready(t)
  {
  }

  lemma CandidateStep(s: State, c: IntegrationCandidate) returns (t: State)
    requires Ready(s) && Proposed(c) && forall id | id in s.candidates :: s.candidates[id].fingerprint != c.fingerprint
    ensures Step(ENV, s, CreatedAt(s.revision + 1, c)) == Some(t) && Ready(t) && SameRecords(s, t)
    ensures t.revision == s.revision + 1
    ensures t.candidates == s.candidates[c.id := c] && t.verifications == s.verifications
  {
    var e := CreatedAt(s.revision + 1, c);
    CandidateGuards(s, c);
    NewNumber(s);
    assert BodyAccepted(ENV, s, e) by { hide CandidateAccepted; }
    hide BodyAccepted, EffectiveCandidate, After;
    StepParts(ENV, s, e);
    StepConflictParts(ENV, s, e);
    t := Step(ENV, s, e).value;
    NumbersOn(s, t);
  }

  lemma VerifyStep(s: State, c: IntegrationCandidate) returns (t: State)
    requires Ready(s) && Proposed(c) && c.id in s.candidates && s.candidates[c.id] == c
    ensures Step(ENV, s, VerifiedAt(s.revision + 1, c)) == Some(t) && Ready(t) && SameRecords(s, t)
    ensures t.revision == s.revision + 1
    ensures t.candidates == s.candidates[c.id := Verified(c)]
    ensures t.verifications == s.verifications[c.id := Stored(c.id, s.revision + 1)]
  {
    var e := VerifiedAt(s.revision + 1, c);
    ReviewGuardsHold(s, c, s.revision + 1);
    NewNumber(s);
    assert BodyAccepted(ENV, s, e) by { hide CandidateTransitionAccepted; }
    hide BodyAccepted, StoredVerification, After;
    StepParts(ENV, s, e);
    StepConflictParts(ENV, s, e);
    t := Step(ENV, s, e).value;
    NumbersOn(s, t);
  }

  /** A candidate is proposed and then verified by the user. */
  function Reviewed(n: nat, c: IntegrationCandidate): seq<Event> {
    [CreatedAt(n + 1, c), VerifiedAt(n + 2, c)]
  }

  lemma Review(ledger: seq<Event>, s: State, c: IntegrationCandidate) returns (t: State)
    requires Replay(ENV, ledger) == Some(s) && Ready(s) && Proposed(c) && c.id !in s.candidates
    requires forall id | id in s.candidates :: s.candidates[id].fingerprint != c.fingerprint
    ensures Replay(ENV, ledger + Reviewed(|ledger|, c)) == Some(t) && Ready(t) && SameRecords(s, t)
    ensures t.candidates == s.candidates[c.id := Verified(c)]
    ensures t.verifications == s.verifications[c.id := Stored(c.id, |ledger| + 2)]
    ensures t.revision == s.revision + 2
  {
    hide Step, Ready, Proposed;
    ReplayCounts(ENV, ledger);
    var created := CandidateStep(s, c);
    t := VerifyStep(created, c);
    var pair := Reviewed(|ledger|, c);
    Grow(ledger, s, pair[0]);
    Grow(ledger + [pair[0]], created, pair[1]);
    assert ledger + [pair[0]] + [pair[1]] == ledger + pair;
  }

  // ---------------------------------------------------------------- the planned withdrawal is refused

  const WITHDRAW: IntegrationCandidate := Candidate(12, CandidateKind.Position, "w", [])

  /** HEKATE holds a Position with confidence 50; a reviewed proposal withdraws it with 60. */
  const HELD_LEDGER: seq<Event> := Opening(RECORDED) + Reviewed(5, WITHDRAW)

  lemma Found(ledger: seq<Event>, s: State, id: EventId)
    requires Replay(ENV, ledger) == Some(s) && Ready(s) && 1 <= id <= 5
    ensures FindEvent(ledger, id) == Some(id)
  {
    ReplayCounts(ENV, ledger);
    Numbered(s, id);
  }

  /** The service has nothing against a verified candidate. */
  lemma CandidateChecked(ledger: seq<Event>, s: State, c: IntegrationCandidate, third: Event)
    requires Replay(ENV, ledger) == Some(s) && Ready(s) && Proposed(c)
    requires third.integrityHash == HASH && Opening(third) <= ledger
    ensures CandidateError(ENV, ledger, s, Verified(c), [SUPPORT]).None?
  {
    hide ValidSha256Hex, Blank, Trim, FindEvent, Normalize, Replay, SortIds, ValidText;
    Texts();
    OneLetter(c.content);
    OneLetter("y");
    Found(ledger, s, 3);
    Found(ledger, s, 4);
    assert ledger[2] == Opening(third)[2] && ledger[3] == Opening(third)[3];
    var v := Verified(c);
    assert CandidateFingerprint(ENV, v.kind, v.content, v.sources, v.counter) == v.content;
    assert EvidenceError(ENV, ledger, s, v, SUPPORT).None?;
    forall id | id in v.sources + v.counter ensures ProvenanceError(ENV, ledger, 4, id).None? {
      assert id == 3 || id == 4;
    }
  }

  /** The verified candidate's review is the one its ledger records. */
  lemma ReviewFound(ledger: seq<Event>, s: State, id: CandidateId)
    requires Replay(ENV, ledger) == Some(s) && id in s.verifications && s.verifications[id].disposition.Verified?
    ensures LastVerified(ledger, id).Some?
  {
    hide Step, LastVerified, Replay;
    HistoryHolds(ENV, ledger);
    assert ReviewOk(ledger, s, id);
  }

  lemma AsOfFour(ledger: seq<Event>, third: Event) returns (four: State)
    requires Third(third) && Opening(third) <= ledger
    ensures Replay(ENV, ledger[..4]) == Some(four) && AfterFour(four, third)
  {
    hide Replay, AfterFour;
    four := OpensFour(third);
    assert ledger[..4] == Opening(third)[..4] == [E1, E2, third, E4];
  }

  lemma WithdrawalPlanned(ledger: seq<Event>, s: State, four: State)
    requires Replay(ENV, ledger) == Some(s) && Ready(s) && |ledger| == 7
    requires Replay(ENV, ledger[..4]) == Some(four) && AfterFour(four, RECORDED) && s.positions == map[7 := HELD]
    ensures var plan := PositionPlan(ENV, ledger, s, Verified(WITHDRAW), 1, WITHDRAWAL, 8);
            plan.Ok? && plan.value.action.Withdraw? && plan.value.prior == Some(HELD)
  {
    hide Replay, Trim, DedupIds, PositionIntegrationBlocked, AsOfPresent;
    NotBlocked(four);
    NotBlocked(s);
    Present(ledger, s, WITHDRAW);
  }

  lemma NotBlocked(s: State)
    requires s.positions == map[7 := HELD] && s.conflicts == map[]
    ensures !PositionIntegrationBlocked(ENV, s, 1, "s", Some(7))
  {
  }

  lemma Present(ledger: seq<Event>, s: State, c: IntegrationCandidate)
    requires Replay(ENV, ledger) == Some(s) && Ready(s) && Proposed(c)
    ensures AsOfPresent(ledger, s, Verified(c))
  {
    hide Replay;
    ReplayCounts(ENV, ledger);
  }

  lemma WithdrawalEvent(ledger: seq<Event>, s: State)
    requires Replay(ENV, ledger) == Some(s) && Ready(s) && Opening(RECORDED) <= ledger && |ledger| == 7
    requires s.positions == map[7 := HELD] && s.candidates == map[12 := Verified(WITHDRAW)]
    requires s.verifications == map[12 := Stored(12, 7)] && s.positionMaterializations == map[]
    ensures var plan := PlanPosition(ENV, ledger, s, 12, 1, 2, 8, 100);
            && plan.Ok? && plan.value.body.PositionEvent? && plan.value.body.integration.Some?
            && plan.value.body.integration.value.action.Withdraw?
            && plan.value.body.integration.value.prior == Some(HELD)
  {
    hide CandidateError, ParsePositionProposal, Normalize, LastVerified, DedupIds, Trim, PositionPlan, Replay, AfterFour;
    var four := AsOfFour(ledger, RECORDED);
    WithdrawalPlanned(ledger, s, four);
    CandidateChecked(ledger, s, WITHDRAW, RECORDED);
    Proposals(WITHDRAW);
    ReviewFound(ledger, s, 12);
  }

  lemma HeldLedger() returns (s: State)
    ensures Replay(ENV, HELD_LEDGER) == Some(s) && Ready(s) && s.revision == 7
    ensures s.positions == map[7 := HELD] && s.candidates == map[12 := Verified(WITHDRAW)]
    ensures s.verifications == map[12 := Stored(12, 7)] && s.positionMaterializations == map[]
  {
    hide Replay;
    var five := Opens(RECORDED);
    s := Review(Opening(RECORDED), five, WITHDRAW);
  }

  lemma HeldFacts()
    ensures Opening(RECORDED) <= HELD_LEDGER && |HELD_LEDGER| == 7 && PrincipalsOnce(HELD_LEDGER)
  {
    var l := HELD_LEDGER;
    assert Opening(RECORDED) <= l;
    assert l[0] == E1 && l[1] == E2 && l[2] == RECORDED && l[3] == E4 && l[4] == E5;
    assert l[5] == CreatedAt(6, WITHDRAW) && l[6] == VerifiedAt(7, WITHDRAW);
  }

  /** A proposal to withdraw a Position, verified by the user, is planned by the
      service, and the event it plans is refused: the Position keeps its confidence
      of 50 and the projector asks for the candidate's 60. */
  lemma WithdrawalRefused()
    ensures Replay(ENV, HELD_LEDGER).Some?
    ensures var s := Replay(ENV, HELD_LEDGER).value;
            var plan := PlanPosition(ENV, HELD_LEDGER, s, 12, 1, 2, 8, 100);
            plan.Ok? && Step(ENV, s, plan.value).None?
  {
    var s := HeldLedger();
    var ledger := HELD_LEDGER;
    HeldFacts();
    WithdrawalRefusedOn(ledger, s);
  }

  lemma WithdrawalRefusedOn(ledger: seq<Event>, s: State)
    requires Replay(ENV, ledger) == Some(s) && Ready(s) && Opening(RECORDED) <= ledger && |ledger| == 7
    requires PrincipalsOnce(ledger)
    requires s.positions == map[7 := HELD] && s.candidates == map[12 := Verified(WITHDRAW)]
    requires s.verifications == map[12 := Stored(12, 7)] && s.positionMaterializations == map[]
    ensures var plan := PlanPosition(ENV, ledger, s, 12, 1, 2, 8, 100);
            plan.Ok? && Step(ENV, s, plan.value).None?
  {
    WithdrawalEvent(ledger, s);
    ReplayCounts(ENV, ledger);
    NewNumber(s);
    hide Step, PlanPosition, Replay, Ready;
    PlannedPositionAccepted(ENV, ledger, s, 12, 1, 2, 8, 100);
  }

  // ---------------------------------------------------------------- a successor is never withdrawn

  const LATER: IntegrationCandidate := Candidate(16, CandidateKind.Position, "x", [])

  /** HEKATE's Position replaced an earlier one; a proposal withdraws it. */
  const SUCCESSOR_LEDGER: seq<Event> := Opening(SUCCEEDED) + [CreatedAt(6, LATER)]

  lemma SuccessorLedger() returns (s: State)
    ensures Replay(ENV, SUCCESSOR_LEDGER) == Some(s) && Ready(s)
    ensures s.positions == map[7 := SUCCESSOR] && 16 in s.candidates && s.candidates[16] == LATER
  {
    hide Replay, Step;
    var five := Opens(SUCCEEDED);
    s := CandidateStep(five, LATER);
    Grow(Opening(SUCCEEDED), five, CreatedAt(6, LATER));
  }

  lemma Untouched(s: State)
    requires s.positions == map[7 := SUCCESSOR] && s.conflicts == map[]
    ensures IX.Undisputed(ENV, s, 1, "s", Some(7))
  {
  }

  lemma SuccessorHeld(s: State, four: State)
    requires s.positions == map[7 := SUCCESSOR] && s.conflicts == map[]
    requires four.positions == map[7 := SUCCESSOR] && four.conflicts == map[]
    ensures IX.GoodPrior(ENV, s, four, 1, 7, 2)
  {
    Untouched(s);
    Untouched(four);
    hide IX.Undisputed;
  }

  /** Nothing stands against the withdrawal but that the Position replaced another one:
      it is HEKATE's, active, unchanged, undisputed and as certain as the candidate. The
      withdrawal cannot be planned. */
  lemma SuccessorStays()
    ensures Replay(ENV, SUCCESSOR_LEDGER).Some? && Replay(ENV, SUCCESSOR_LEDGER[..4]).Some?
    ensures var s, four := Replay(ENV, SUCCESSOR_LEDGER).value, Replay(ENV, SUCCESSOR_LEDGER[..4]).value;
            && 16 in s.candidates && s.candidates[16] == LATER
            && ParsePositionProposal(ENV, LATER.content) == Some(LATER_WITHDRAWAL)
            && 7 in s.positions && s.positions[7].confidence == LATER.confidence
            && IX.GoodPrior(ENV, s, four, 1, 7, 2)
            && PositionPlan(ENV, SUCCESSOR_LEDGER, s, LATER, 1, LATER_WITHDRAWAL, 8) == Err(InvalidPositionTransition)
  {
    hide Replay, PositionIntegrationBlocked, DedupIds, Trim, IX.Undisputed;
    var s := SuccessorLedger();
    var four := AsOfFour(SUCCESSOR_LEDGER, SUCCEEDED);
    Proposals(LATER);
    SuccessorHeld(s, four);
    ReplayCounts(ENV, SUCCESSOR_LEDGER);
    IX.PriorExactly(ENV, s, four, 1, 7, 2);
  }

  // ---------------------------------------------------------------- Memories

  const LESSON: IntegrationCandidate := Candidate(14, CandidateKind.Memory, "l", [])
  const EXPIRE: IntegrationCandidate := Candidate(15, CandidateKind.MemoryRevision, "v", [3])

  /** A Memory was promoted; a Lesson and the Memory's expiry are proposed and verified. */
  const MEMORY_LEDGER: seq<Event> := Opening(PROMOTED) + Reviewed(5, LESSON) + Reviewed(7, EXPIRE)

  const IDS: FreshIds := FreshIds(70, 71, 101, 102, 103, 104)

  lemma MemoryLedger() returns (s: State)
    ensures Replay(ENV, MEMORY_LEDGER) == Some(s) && Ready(s) && s.revision == 9
    ensures s.candidates == map[14 := Verified(LESSON), 15 := Verified(EXPIRE)]
    ensures s.verifications == map[14 := Stored(14, 7), 15 := Stored(15, 9)]
    ensures s.materializations == map[] && s.memoryRevisions == map[] && s.memories == map[6 := KEPT]
  {
    hide Replay;
    var five := Opens(PROMOTED);
    var seven := Review(Opening(PROMOTED), five, LESSON);
    s := Review(Opening(PROMOTED) + Reviewed(5, LESSON), seven, EXPIRE);
  }

  lemma LessonPlanned(ledger: seq<Event>, s: State, actor: PrincipalId)
    requires Replay(ENV, ledger) == Some(s) && Ready(s) && Opening(PROMOTED) <= ledger && actor in s.principals
    requires 14 in s.candidates && s.candidates[14] == Verified(LESSON)
    requires 14 in s.verifications && s.verifications[14] == Stored(14, 7)
    requires s.materializations == map[] && s.memories == map[6 := KEPT]
    ensures PlanLesson(ENV, ledger, s, 14, actor, IDS).Ok?
    ensures var batch := PlanLesson(ENV, ledger, s, 14, actor, IDS).value;
            Ids(batch) == [IDS.created, IDS.promoted, IDS.linked]
  {
    hide CandidateError, Replay, Normalize, PlanRevision, Ready;
    CandidateChecked(ledger, s, LESSON, PROMOTED);
  }

  /** The plan of a Lesson can be made, and is accepted. */
  lemma LessonLands()
    ensures Replay(ENV, MEMORY_LEDGER).Some?
    ensures var s := Replay(ENV, MEMORY_LEDGER).value;
            var plan := PlanLesson(ENV, MEMORY_LEDGER, s, 14, 2, IDS);
            plan.Ok? && ApplyAll(ENV, s, plan.value).Some?
  {
    hide PlanLesson, Replay, ApplyAll;
    var s := MemoryLedger();
    assert Opening(PROMOTED) <= MEMORY_LEDGER;
    LessonPlanned(MEMORY_LEDGER, s, 2);
    Fresh(s, PlanLesson(ENV, MEMORY_LEDGER, s, 14, 2, IDS).value);
    PlannedLessonAccepted(ENV, MEMORY_LEDGER, s, 14, 2, IDS);
  }

  lemma Fresh(s: State, batch: seq<Event>)
    requires Ready(s) && s.revision < 100
    requires Distinct(Ids(batch)) && forall id | id in Ids(batch) :: id > 100
    ensures FreshEvents(s, batch)
  {
    NewNumber(s);
    forall e | e in batch ensures e.id !in s.applied {
      var i :| 0 <= i < |batch| && batch[i] == e;
      assert Ids(batch)[i] == e.id && e.id in Ids(batch);
    }
  }

  lemma PromotionFound(ledger: seq<Event>, k: nat)
    requires 3 <= k <= |ledger| && ledger[0] == E1 && ledger[1] == E2 && ledger[2] == PROMOTED
    requires forall i | 3 <= i < k :: ledger[i].id != 3
    ensures FindPromotion(ledger[..k], 3, 6) == Some(3)
  {
    if k == 3 {
      NoPromotion(ledger, 2);
      assert ledger[..3][..2] == ledger[..2];
    } else {
      PromotionFound(ledger, k - 1);
      assert ledger[..k][..k - 1] == ledger[..k - 1];
    }
  }

  lemma NoPromotion(ledger: seq<Event>, k: nat)
    requires k <= 2 <= |ledger| && forall i | 0 <= i < k :: ledger[i].body.PrincipalCreated?
    ensures FindPromotion(ledger[..k], 3, 6).None?
  {
  }

  /** The promotion is the third event and nothing touches its Memory afterwards. */
  ghost predicate KeptSince(ledger: seq<Event>) {
    && Opening(PROMOTED) <= ledger
    && forall i | 4 <= i < |ledger| :: !ledger[i].body.MemoryEvent? && ledger[i].id != 3
  }

  lemma NewSource(ledger: seq<Event>)
    requires KeptSince(ledger)
    ensures IsNewSource(ledger, 3, 4) && forall e | e in ledger[4..] :: !ChangesMemory(e, 6)
    ensures FindPromotion(ledger, 3, 6) == Some(3)
  {
    EarlyEvents(ledger);
    PromotionFound(ledger, |ledger|);
    assert ledger[..|ledger|] == ledger;
    assert ledger[3].id == 4;
    forall e | e in ledger[4..] ensures !e.body.MemoryEvent? {
      var i :| 4 <= i < |ledger| && ledger[i] == e;
    }
  }

  lemma ExpiryPlanned(ledger: seq<Event>, s: State, four: State)
    requires KeptSince(ledger) && Replay(ENV, ledger) == Some(s) && Ready(s) && s.memories == map[6 := KEPT]
    requires Replay(ENV, ledger[..4]) == Some(four) && AfterFour(four, PROMOTED)
    ensures MemoryRevisionPlan(ENV, ledger, s, Verified(EXPIRE), EXPIRY) == Ok((KEPT, PROMOTED))
  {
    hide Replay, Trim, FindPromotion, IsNewSource, ChangesMemory, Opening, KeptSince, Ready, AsOfPresent;
    Present(ledger, s, EXPIRE);
    PromotedThird(ledger);
    NewSource(ledger);
  }

  lemma EarlyEvents(ledger: seq<Event>)
    requires Opening(PROMOTED) <= ledger
    ensures ledger[0] == E1 && ledger[1] == E2 && ledger[2] == PROMOTED && ledger[3] == E4
  {
    assert forall i | 0 <= i < 5 :: ledger[i] == Opening(PROMOTED)[i];
  }

  lemma PromotedThird(ledger: seq<Event>)
    requires KeptSince(ledger)
    ensures |ledger| >= 5 && ledger[2] == PROMOTED
  {
    EarlyEvents(ledger);
  }

  lemma ExpiryBatch(ledger: seq<Event>, s: State, actor: PrincipalId)
    requires KeptSince(ledger) && Replay(ENV, ledger) == Some(s) && Ready(s) && s.memories == map[6 := KEPT]
    requires 15 in s.candidates && s.candidates[15] == Verified(EXPIRE) && actor in s.principals
    requires 15 in s.verifications && s.verifications[15] == Stored(15, 9) && s.memoryRevisions == map[]
    ensures PlanLesson(ENV, ledger, s, 15, actor, IDS).Ok?
    ensures Ids(PlanLesson(ENV, ledger, s, 15, actor, IDS).value) == [IDS.changed, IDS.linked]
  {
    hide CandidateError, ParseMemoryProposal, Normalize, LastVerified, MemoryRevisionPlan, Replay, AfterFour, Ready;
    var four := AsOfFour(ledger, PROMOTED);
    ExpiryPlanned(ledger, s, four);
    CandidateChecked(ledger, s, EXPIRE, PROMOTED);
    Proposals(EXPIRE);
    ReviewFound(ledger, s, 15);
  }

  lemma MemoryFacts()
    ensures KeptSince(MEMORY_LEDGER)
  {
  }

  /** The expiry of a Memory is planned for the user and for the model alike; the
      projector accepts the one and refuses the other. */
  lemma RevisionByModelRefused()
    ensures Replay(ENV, MEMORY_LEDGER).Some?
    ensures var s := Replay(ENV, MEMORY_LEDGER).value;
            var byUser, byModel := PlanLesson(ENV, MEMORY_LEDGER, s, 15, 2, IDS), PlanLesson(ENV, MEMORY_LEDGER, s, 15, 1, IDS);
            && byUser.Ok? && ApplyAll(ENV, s, byUser.value).Some?
            && byModel.Ok? && ApplyAll(ENV, s, byModel.value).None?
  {
    hide Replay, KeptSince, PlanLesson, ApplyAll;
    var s := MemoryLedger();
    MemoryFacts();
    ExpiryDecided(MEMORY_LEDGER, s, 1);
    ExpiryDecided(MEMORY_LEDGER, s, 2);
  }

  lemma ExpiryDecided(ledger: seq<Event>, s: State, actor: PrincipalId)
    requires KeptSince(ledger) && Replay(ENV, ledger) == Some(s) && Ready(s) && s.revision < 100 && s.memories == map[6 := KEPT]
    requires 15 in s.candidates && s.candidates[15] == Verified(EXPIRE) && (actor == 1 || actor == 2)
    requires 15 in s.verifications && s.verifications[15] == Stored(15, 9) && s.memoryRevisions == map[]
    ensures PlanLesson(ENV, ledger, s, 15, actor, IDS).Ok?
    ensures ApplyAll(ENV, s, PlanLesson(ENV, ledger, s, 15, actor, IDS).value).Some? <==> actor == 2
  {
    ExpiryBatch(ledger, s, actor);
    hide PlanLesson, Replay, ApplyAll, KeptSince;
    Fresh(s, PlanLesson(ENV, ledger, s, 15, actor, IDS).value);
    PlannedRevisionAccepted(ENV, ledger, s, 15, actor, IDS);
  }

  // ---------------------------------------------------------------- a reused identifier brings a Position back

  const FIRST: IntegrationCandidate := Candidate(11, CandidateKind.Position, "a", [])
  const AGAIN: IntegrationCandidate := Candidate(13, CandidateKind.Position, "b", [])

  const OPINION: Position := Position.Position(
    7, 1, "s", Support, 1, PositionStatus.Active, 60, None, ["r"], [4], ["r"])

  function Link(c: IntegrationCandidate, n: EventId, verified: EventId, action: PositionAction, prior: Option<Position>):
    PositionMaterialization
  {
    PositionMaterialization.PositionMaterialization(
      c.id, 7, n, verified, action, prior, [4], c.counter, [SUPPORT], c.fingerprint, 4)
  }

  function LinkedAt(n: EventId, kind: PositionEventKind, p: Position, m: PositionMaterialization): Event {
    Event(n, 2, PositionEvent(kind, p, Some(m)), Some(EntityRef(EntityKind.Position, p.id)),
          SourceType.PositionIntegration, Some(m.candidate), Some(m.verificationEvent), Some(m.candidate), HASH)
  }

  /** Position 7 is established, withdrawn, and established again under its old identifier. */
  const REUSE_HEAD: seq<Event> := Opening(PROMOTED) + Reviewed(5, FIRST) + Reviewed(7, WITHDRAW) + Reviewed(9, AGAIN)
  const REUSE_TAIL: seq<Event> :=
    [LinkedAt(12, Established, OPINION, Link(FIRST, 12, 7, PositionAction.Establish, None)),
     LinkedAt(13, PositionEventKind.Retracted, WithdrawnPosition(OPINION, "r", [4]),
              Link(WITHDRAW, 13, 9, PositionAction.Withdraw, Some(OPINION))),
     LinkedAt(14, Established, OPINION, Link(AGAIN, 14, 11, PositionAction.Establish, None))]
  const REUSE_LEDGER: seq<Event> := REUSE_HEAD + REUSE_TAIL

  lemma ReuseFirst() returns (s: State)
    ensures Replay(ENV, Opening(PROMOTED) + Reviewed(5, FIRST)) == Some(s) && Ready(s) && s.revision == 7
    ensures s.positions == map[] && s.positionMaterializations == map[]
    ensures s.candidates == map[11 := Verified(FIRST)] && s.verifications == map[11 := Stored(11, 7)]
  {
    hide Replay, Ready;
    OpeningLength(PROMOTED);
    var five := Opens(PROMOTED);
    s := Review(Opening(PROMOTED), five, FIRST);
  }

  lemma ReuseOpens() returns (s: State)
    ensures Replay(ENV, REUSE_HEAD) == Some(s) && Ready(s) && s.revision == 11 && s.positions == map[]
    ensures s.candidates == map[11 := Verified(FIRST), 12 := Verified(WITHDRAW), 13 := Verified(AGAIN)]
    ensures s.verifications == map[11 := Stored(11, 7), 12 := Stored(12, 9), 13 := Stored(13, 11)]
    ensures s.positionMaterializations == map[]
  {
    hide Replay, Opening, Ready, LinkedAt, Link, WithdrawnPosition;
    var seven := ReuseFirst();
    OpeningLength(PROMOTED);
    var l7 := Opening(PROMOTED) + Reviewed(5, FIRST);
    var nine := Review(l7, seven, WITHDRAW);
    s := Review(l7 + Reviewed(7, WITHDRAW), nine, AGAIN);
  }

  /** The candidate was verified by event `v` and not materialized yet. */
  ghost predicate Materializable(s: State, c: IntegrationCandidate, v: EventId) {
    && Ready(s) && Proposed(c) && c.kind == CandidateKind.Position && c.counter == []
    && c.id in s.candidates && s.candidates[c.id] == Verified(c)
    && c.id in s.verifications && s.verifications[c.id] == Stored(c.id, v)
    && c.id !in s.positionMaterializations && v in s.applied
  }

  lemma LinkProvenance(s: State, c: IntegrationCandidate, n: EventId, v: EventId, action: PositionAction, prior: Option<Position>)
    requires Materializable(s, c, v)
    ensures PositionProvenanceOk(ENV, s, Link(c, n, v, action, prior))
  {
    Texts();
    OneLetter(c.content);
    Supported(s, c);
    Numbered(s, 4);
    hide Normalize, Trim, IntegrationEvidenceValid, IndexOf, SequenceOf, SortIds, Blank, ValidText;
    var k := Verified(c);
    assert CandidateFingerprint(ENV, k.kind, k.content, k.sources, k.counter) == k.content;
    assert k.sources + k.counter == [4];
  }

  /** The guards that depend on what the event does hold. */
  ghost predicate Fits(s: State, c: IntegrationCandidate, kind: PositionEventKind, p: Position, m: PositionMaterialization) {
    && p.id == 7 && p.principal == 1 && p.confidence == 60
    && PositionMatchesProposal(ENV, Verified(c), p, m)
    && PositionActionOk(s, kind, p, m)
    && !PositionIntegrationBlocked(ENV, s, 1, p.subject, TargetOf(m))
    && ValidPositionRevision(s, p)
    && (if m.action.Withdraw? then 4 in p.evidence else p.evidence == [4])
    && !m.action.Revise?
  }

  lemma LinkStep(
    s: State, c: IntegrationCandidate, v: EventId, kind: PositionEventKind, p: Position, action: PositionAction,
    prior: Option<Position>) returns (t: State)
    requires Materializable(s, c, v) && Fits(s, c, kind, p, Link(c, s.revision + 1, v, action, prior))
    ensures Step(ENV, s, LinkedAt(s.revision + 1, kind, p, Link(c, s.revision + 1, v, action, prior))) == Some(t)
    ensures Ready(t) && t.revision == s.revision + 1 && t.applied == s.applied + [t.revision]
    ensures t.positions == s.positions[7 := p]
    ensures t.candidates == s.candidates && t.verifications == s.verifications
    ensures t.positionMaterializations.Keys == s.positionMaterializations.Keys + {c.id}
  {
    hide PositionIntegrationAccepted, PositionProvenanceOk, Fits, Step;
    var m := Link(c, s.revision + 1, v, action, prior);
    var e := LinkedAt(s.revision + 1, kind, p, m);
    LinkProvenance(s, c, s.revision + 1, v, action, prior);
    LinkGuards(s, c, v, kind, p, action, prior);
    NewNumber(s);
    LinkApplies(s, e, kind, p, m);
    t := Step(ENV, s, e).value;
    NumbersOn(s, t);
  }

  lemma LinkApplies(s: State, e: Event, kind: PositionEventKind, p: Position, m: PositionMaterialization)
    requires e.body == PositionEvent(kind, p, Some(m)) && e.id !in s.applied && p.id == 7 && !m.action.Revise?
    requires PositionIntegrationAccepted(ENV, s, e, kind, p, m)
    ensures Step(ENV, s, e).Some?
    ensures var t := Step(ENV, s, e).value;
            && t.revision == s.revision + 1 && t.applied == s.applied + [e.id]
            && t.principals == s.principals && t.sleepRuns == s.sleepRuns && t.conflicts == s.conflicts
            && t.positions == s.positions[7 := p]
            && t.candidates == s.candidates && t.verifications == s.verifications
            && t.positionMaterializations == s.positionMaterializations[m.candidate := m]
  {
    hide PositionIntegrationAccepted;
  }

  lemma LinkGuards(
    s: State, c: IntegrationCandidate, v: EventId, kind: PositionEventKind, p: Position, action: PositionAction,
    prior: Option<Position>)
    requires Materializable(s, c, v) && Fits(s, c, kind, p, Link(c, s.revision + 1, v, action, prior))
    requires PositionProvenanceOk(ENV, s, Link(c, s.revision + 1, v, action, prior))
    ensures var m := Link(c, s.revision + 1, v, action, prior);
            && PositionIntegrationAccepted(ENV, s, LinkedAt(s.revision + 1, kind, p, m), kind, p, m)
            && !m.action.Revise? && p.id == 7
  {
    hide PositionProvenanceOk, PositionMatchesProposal, PositionActionOk, PositionIntegrationBlocked, ValidPositionRevision;
  }

  lemma EstablishmentFits(s: State, c: IntegrationCandidate, n: EventId, v: EventId)
    requires Materializable(s, c, v) && c.content != "w" && c.content != "x"
    requires forall id | id in s.positions :: id == 7 && s.positions[id] == WithdrawnPosition(OPINION, "r", [4])
    ensures Fits(s, c, Established, OPINION, Link(c, n, v, PositionAction.Establish, None))
  {
    Proposals(c);
    OneLetter("s");
    OneLetter("r");
    hide Trim, ParsePositionProposal, DedupIds, Ready, ValidText;
    assert TrimAll(["r"]) == ["r"];
  }

  lemma WithdrawalFits(s: State, n: EventId, v: EventId)
    requires Materializable(s, WITHDRAW, v) && s.positions == map[7 := OPINION]
    ensures Fits(s, WITHDRAW, PositionEventKind.Retracted, WithdrawnPosition(OPINION, "r", [4]),
                 Link(WITHDRAW, n, v, PositionAction.Withdraw, Some(OPINION)))
  {
    Proposals(WITHDRAW);
    DedupIdsSet([4] + [4]);
    assert 4 in [4] + [4];
    hide Trim, ParsePositionProposal, DedupIds, Ready, ValidText;
  }

  ghost predicate ReviewedThree(s: State) {
    && Ready(s) && s.revision >= 11
    && s.candidates == map[11 := Verified(FIRST), 12 := Verified(WITHDRAW), 13 := Verified(AGAIN)]
    && s.verifications == map[11 := Stored(11, 7), 12 := Stored(12, 9), 13 := Stored(13, 11)]
  }

  lemma Establishes7(s: State, c: IntegrationCandidate, v: EventId) returns (t: State)
    requires ReviewedThree(s) && c.id !in s.positionMaterializations && ((c == FIRST && v == 7) || (c == AGAIN && v == 11))
    requires forall id | id in s.positions :: id == 7 && s.positions[id] == WithdrawnPosition(OPINION, "r", [4])
    ensures ReviewedThree(t) && t.revision == s.revision + 1 && t.positions == s.positions[7 := OPINION]
    ensures t.positionMaterializations.Keys == s.positionMaterializations.Keys + {c.id}
    ensures Step(ENV, s, LinkedAt(s.revision + 1, Established, OPINION,
                                  Link(c, s.revision + 1, v, PositionAction.Establish, None))) == Some(t)
  {
    hide Step, Ready, Proposed, Materializable, Fits, Link;
    MaterializableNow(s, c, v);
    EstablishmentFits(s, c, s.revision + 1, v);
    t := LinkStep(s, c, v, Established, OPINION, PositionAction.Establish, None);
  }

  lemma Withdraws7(s: State) returns (t: State)
    requires ReviewedThree(s) && 12 !in s.positionMaterializations && s.positions == map[7 := OPINION]
    ensures ReviewedThree(t) && t.revision == s.revision + 1
    ensures t.positions == map[7 := WithdrawnPosition(OPINION, "r", [4])]
    ensures t.positionMaterializations.Keys == s.positionMaterializations.Keys + {12}
    ensures Step(ENV, s, LinkedAt(s.revision + 1, PositionEventKind.Retracted, WithdrawnPosition(OPINION, "r", [4]),
                                  Link(WITHDRAW, s.revision + 1, 9, PositionAction.Withdraw, Some(OPINION)))) == Some(t)
  {
    hide Step, Ready, Proposed, Materializable, Fits, Link, WithdrawnPosition;
    var w := WithdrawnPosition(OPINION, "r", [4]);
    assert map[7 := OPINION][7 := w] == map[7 := w];
    MaterializableNow(s, WITHDRAW, 9);
    WithdrawalFits(s, s.revision + 1, 9);
    t := LinkStep(s, WITHDRAW, 9, PositionEventKind.Retracted, WithdrawnPosition(OPINION, "r", [4]),
                  PositionAction.Withdraw, Some(OPINION));
  }

  /** In a ledger whose Position events are all integrated, a Position that was
      withdrawn becomes active again when an establishing event reuses its identifier;
      only fresh identifiers keep it withdrawn. */
  lemma WithdrawnReactivated()
    ensures OnlyIntegrated(REUSE_LEDGER)
    ensures var before := REUSE_HEAD + REUSE_TAIL[..2];
            && Replay(ENV, before).Some? && Replay(ENV, before + [REUSE_TAIL[2]]).Some?
            && before + [REUSE_TAIL[2]] == REUSE_LEDGER
            && 7 in Replay(ENV, before).value.positions && Replay(ENV, before).value.positions[7].status.Retracted?
            && 7 in Replay(ENV, REUSE_LEDGER).value.positions && Replay(ENV, REUSE_LEDGER).value.positions[7].status.Active?
  {
    hide Replay, Step, Ready, OnlyIntegrated, LinkedAt, Link, Verified, Stored, Opening, Reviewed;
    ReuseIntegrated();
    var s11 := ReuseOpens();
    var s12, s13, s14 := ReuseRun(s11);
    ReplayThree(REUSE_HEAD, REUSE_TAIL, s11, s12, s13, s14);
  }

  lemma ReuseRun(s11: State) returns (s12: State, s13: State, s14: State)
    requires ReviewedThree(s11) && s11.revision == 11 && s11.positions == map[] && s11.positionMaterializations == map[]
    ensures Step(ENV, s11, REUSE_TAIL[0]) == Some(s12) && Step(ENV, s12, REUSE_TAIL[1]) == Some(s13)
    ensures Step(ENV, s13, REUSE_TAIL[2]) == Some(s14)
    ensures 7 in s13.positions && s13.positions[7].status.Retracted?
    ensures 7 in s14.positions && s14.positions[7].status.Active?
  {
    hide Step, ReviewedThree, LinkedAt, Link;
    s12 := Establishes7(s11, FIRST, 7);
    s13 := Withdraws7(s12);
    s14 := Establishes7(s13, AGAIN, 11);
  }

  lemma ReuseIntegrated()
    ensures OnlyIntegrated(REUSE_LEDGER)
  {
    assert OnlyIntegrated(Opening(PROMOTED));
    forall e | e in REUSE_LEDGER && e.body.PositionEvent? ensures e.body.integration.Some? {
      assert e !in Opening(PROMOTED);
      assert e !in Reviewed(5, FIRST) && e !in Reviewed(7, WITHDRAW) && e !in Reviewed(9, AGAIN);
      assert e in REUSE_TAIL;
    }
  }

  lemma MaterializableNow(s: State, c: IntegrationCandidate, v: EventId)
    requires ReviewedThree(s) && ((c == FIRST && v == 7) || (c == WITHDRAW && v == 9) || (c == AGAIN && v == 11))
    requires c.id !in s.positionMaterializations
    ensures Materializable(s, c, v)
  {
    Numbered(s, v);
  }

  lemma ReplayThree(head: seq<Event>, tail: seq<Event>, s: State, t: State, u: State, v: State)
    requires |tail| == 3 && Replay(ENV, head) == Some(s) && Step(ENV, s, tail[0]) == Some(t)
    requires Step(ENV, t, tail[1]) == Some(u) && Step(ENV, u, tail[2]) == Some(v)
    ensures Replay(ENV, head + tail[..2]) == Some(u) && Replay(ENV, head + tail) == Some(v)
    ensures head + tail[..2] + [tail[2]] == head + tail
  {
    hide Replay, Step;
    Grow(head, s, tail[0]);
    assert head + [tail[0]] + [tail[1]] == head + tail[..2];
    Grow(head + [tail[0]], t, tail[1]);
    assert head + tail[..2] + [tail[2]] == head + tail;
    Grow(head + tail[..2], u, tail[2]);
  }
}
