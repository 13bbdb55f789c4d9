/** Exactly when a candidate can be reviewed or materialized, as conditions on the
    ledger, the state and the candidate. */
module IntegrationExact {
  import opened Prelude
  import opened Ordering
  import opened Model
  import opened Evidence
  import opened Deliberation
  import opened Projector
  import opened Lookup
  import opened MemoryIntegration
  import opened IntegrationHistory
  import opened IntegrationAccept

  // ---------------------------------------------------------------- evidence

  /** With every event once in the ledger, the lookup finds the one that is asked for. */
  lemma FindExactly(ledger: seq<Event>, id: EventId, n: nat)
    requires Distinct(Ids(ledger)) && n < |ledger|
    ensures FindEvent(ledger, id) == Some(n + 1) <==> ledger[n].id == id
  {
    assert Ids(ledger)[n] == ledger[n].id;
    if ledger[n].id == id { IndexOfDistinct(Ids(ledger), n); }
  }

  lemma FindNone(ledger: seq<Event>, id: EventId)
    ensures FindEvent(ledger, id).None? <==> forall n: nat | n < |ledger| :: ledger[n].id != id
  {
    forall n: nat | n < |ledger| ensures Ids(ledger)[n] == ledger[n].id {}
  }

  ghost predicate Creates(e: Event, a: ArtifactId) {
    e.body.ArtifactCreated? && e.subject == Some(EntityRef(EntityKind.Artifact, a))
  }

  lemma {:induction false} ArtifactFound(ledger: seq<Event>, a: ArtifactId, limit: nat)
    ensures var found := FindArtifactCreated(ledger, a);
            (found.Some? && found.value <= limit) <==> exists k: nat :: k < |ledger| && k < limit && Creates(ledger[k], a)
  {
    if ledger != [] {
      var front := ledger[..|ledger| - 1];
      ArtifactFound(front, a, limit);
      ArtifactFirst(front, a);
      if k: nat :| k < |ledger| && k < limit && Creates(ledger[k], a) {
        if k < |front| { assert Creates(front[k], a); }
      }
      if k: nat :| k < |front| && k < limit && Creates(front[k], a) { assert Creates(ledger[k], a); }
    }
  }

  lemma {:induction false} ArtifactFirst(ledger: seq<Event>, a: ArtifactId)
    ensures FindArtifactCreated(ledger, a).Some? ==> FindArtifactCreated(ledger, a).value <= |ledger|
    ensures FindArtifactCreated(ledger, a).None? ==> forall k: nat | k < |ledger| :: !Creates(ledger[k], a)
  {
    if ledger != [] { ArtifactFirst(ledger[..|ledger| - 1], a); }
  }

  /** The event of this number has this identifier and its hash verifies. */
  ghost predicate Stands(env: Env, ledger: seq<Event>, n: nat, id: EventId) {
    n < |ledger| && ledger[n].id == id && IntegrityHolds(env, ledger[n])
  }

  /** One of the first `limit` events has this identifier, and its hash verifies. */
  ghost predicate StandsBy(env: Env, ledger: seq<Event>, limit: nat, id: EventId) {
    exists n: nat :: Stands(env, ledger, n, id) && n < limit
  }

  /** The reference names a cited event that was there by then, with the hash of the
      event or of the artifact it created. */
  ghost predicate GoodRef(env: Env, ledger: seq<Event>, s: State, c: IntegrationCandidate, r: EvidenceRef) {
    && ValidSha256Hex(r.sourceHash)
    && r.asOf <= c.asOf
    && (r.event in c.sources || r.event in c.counter)
    && (exists n: nat ::
          && Stands(env, ledger, n, r.event) && n < r.asOf
          && (r.artifact.None? ==> SourceHash(env, ledger[n]) == r.sourceHash))
    && (r.artifact.Some? ==>
          && r.artifact.value in s.artifacts
          && s.artifacts[r.artifact.value].provenance == r.event
          && s.artifacts[r.artifact.value].contentHash == r.sourceHash
          && exists k: nat :: k < |ledger| && k < r.asOf && Creates(ledger[k], r.artifact.value))
  }

  lemma EvidenceExactly(env: Env, ledger: seq<Event>, s: State, c: IntegrationCandidate, r: EvidenceRef)
    requires Distinct(Ids(ledger))
    ensures EvidenceError(env, ledger, s, c, r).None? <==> GoodRef(env, ledger, s, c, r)
  {
    FindNone(ledger, r.event);
    forall n: nat | n < |ledger| ensures FindEvent(ledger, r.event) == Some(n + 1) <==> ledger[n].id == r.event {
      FindExactly(ledger, r.event, n);
    }
    if r.artifact.Some? { ArtifactFound(ledger, r.artifact.value, r.asOf); }
    hide FindEvent, FindArtifactCreated, ValidSha256Hex, SourceHash, IntegrityHolds, Distinct;
    var found := FindEvent(ledger, r.event);
    if found.Some? {
      assert ledger[found.value - 1].id == r.event;
      assert Stands(env, ledger, found.value - 1, r.event) <==> IntegrityHolds(env, ledger[found.value - 1]);
    }
  }

  /** The candidate can be judged: it has its texts and sources, is from no later than
      now, keeps its fingerprint, cites events that stand, and the evidence is good. */
  ghost predicate GoodCandidate(
    env: Env, ledger: seq<Event>, s: State, c: IntegrationCandidate, refs: seq<EvidenceRef>)
  {
    && !AllWhitespace(c.content) && !AllWhitespace(c.rationale)
    && c.sources != [] && c.asOf <= s.revision && FingerprintMatches(env, c)
    && AllStand(env, ledger, c)
    && refs != [] && (forall i | 0 <= i < |refs| :: GoodRef(env, ledger, s, c, refs[i]))
  }

  lemma ProvenanceExactly(env: Env, ledger: seq<Event>, asOf: nat, id: EventId)
    requires Distinct(Ids(ledger))
    ensures ProvenanceError(env, ledger, asOf, id).None? <==> StandsBy(env, ledger, asOf, id)
  {
    FindNone(ledger, id);
    forall n: nat | n < |ledger| ensures FindEvent(ledger, id) == Some(n + 1) <==> ledger[n].id == id {
      FindExactly(ledger, id, n);
    }
    hide FindEvent, IntegrityHolds, Distinct;
    var found := FindEvent(ledger, id);
    if found.Some? {
      assert Stands(env, ledger, found.value - 1, id) <==> IntegrityHolds(env, ledger[found.value - 1]);
    }
  }

  ghost predicate AllStand(env: Env, ledger: seq<Event>, c: IntegrationCandidate) {
    forall id | id in c.sources || id in c.counter :: StandsBy(env, ledger, c.asOf, id)
  }

  lemma ProvenanceAll(env: Env, ledger: seq<Event>, c: IntegrationCandidate)
    requires Distinct(Ids(ledger))
    ensures FirstProvenanceError(env, ledger, c.asOf, c.sources + c.counter).None? <==> AllStand(env, ledger, c)
  {
    hide Distinct, ProvenanceError, StandsBy;
    forall id ensures ProvenanceError(env, ledger, c.asOf, id).None? <==> StandsBy(env, ledger, c.asOf, id) {
      ProvenanceExactly(env, ledger, c.asOf, id);
    }
    assert forall id :: id in c.sources + c.counter <==> id in c.sources || id in c.counter;
  }

  lemma EvidenceAll(env: Env, ledger: seq<Event>, s: State, c: IntegrationCandidate, refs: seq<EvidenceRef>)
    requires Distinct(Ids(ledger))
    ensures FirstEvidenceError(env, ledger, s, c, refs).None?
            <==> forall i | 0 <= i < |refs| :: GoodRef(env, ledger, s, c, refs[i])
  {
    hide Distinct, EvidenceError, GoodRef;
    forall r ensures EvidenceError(env, ledger, s, c, r).None? <==> GoodRef(env, ledger, s, c, r) {
      EvidenceExactly(env, ledger, s, c, r);
    }
    assert forall i | 0 <= i < |refs| :: refs[i] in refs;
  }

  lemma CandidateExactly(env: Env, ledger: seq<Event>, s: State, c: IntegrationCandidate, refs: seq<EvidenceRef>)
    requires Distinct(Ids(ledger))
    ensures CandidateError(env, ledger, s, c, refs).None? <==> GoodCandidate(env, ledger, s, c, refs)
  {
    BlankMeaning(c.content);
    BlankMeaning(c.rationale);
    ProvenanceAll(env, ledger, c);
    EvidenceAll(env, ledger, s, c, refs);
    hide FirstProvenanceError, FirstEvidenceError, GoodRef, StandsBy, Blank, FingerprintMatches, Distinct, IsWhitespace;
  }

  // ---------------------------------------------------------------- Memory revisions

  /** The promotion the proposal expects, before the candidate's revision and intact,
      with something observed after it among the sources. */
  ghost predicate PromotedBefore(
    env: Env, ledger: seq<Event>, c: IntegrationCandidate, op: MemoryOperation, prior: Memory, n: nat)
  {
    && Stands(env, ledger, n, op.expectedEvent) && n < c.asOf
    && ledger[n].body == MemoryEvent(MemoryEventKind.Promoted, prior)
    && ledger[n].subject == Some(EntityRef(EntityKind.Memory, op.target))
    && SourceHash(env, ledger[n]) == op.expectedHash
    && exists i: nat :: n < i < |ledger| && Observed(ledger[i]) && ledger[i].id in c.sources
  }

  ghost predicate Observed(e: Event) {
    e.body.ObservationRecorded? || e.body.UserMessageReceived?
  }

  /** The target was active at the candidate's revision, has not changed since, and is
      not what the user said explicitly; a replacement says something else. */
  ghost predicate GoodTarget(
    ledger: seq<Event>, s: State, asOf: State, c: IntegrationCandidate, op: MemoryOperation)
  {
    && op.target in asOf.memories && op.target in s.memories && s.memories[op.target] == asOf.memories[op.target]
    && var prior := asOf.memories[op.target];
    && prior.status.Active? && !prior.kind.ExplicitPreference?
    && (op.Replace? ==> Trim(op.replacement) != Trim(prior.content))
    && forall k: nat | c.asOf <= k < |ledger| ::
         !(ledger[k].body.MemoryEvent? && ledger[k].subject == Some(EntityRef(EntityKind.Memory, op.target)))
  }

  ghost predicate FromItsRun(ledger: seq<Event>, s: State, c: IntegrationCandidate) {
    c.asOf <= |ledger| && c.run in s.sleepRuns && s.sleepRuns[c.run].highWater == c.asOf
  }

  ghost predicate GoodRevision(env: Env, ledger: seq<Event>, s: State, c: IntegrationCandidate, op: MemoryOperation) {
    && FromItsRun(ledger, s, c) && op.expectedEvent in c.counter
    && var asOf := Replay(env, ledger[..c.asOf]);
    && asOf.Some? && GoodTarget(ledger, s, asOf.value, c, op)
    && exists n: nat :: PromotedBefore(env, ledger, c, op, asOf.value.memories[op.target], n)
  }

  lemma {:induction false} PromotionExactly(ledger: seq<Event>, id: EventId, target: MemoryId, n: nat)
    requires Distinct(Ids(ledger)) && n < |ledger|
    ensures FindPromotion(ledger, id, target) == Some(n + 1)
            <==> ledger[n].id == id && ChangesMemory(ledger[n], target) && ledger[n].body.memoryKind.Promoted?
  {
    var front := ledger[..|ledger| - 1];
    assert Ids(front) == Ids(ledger)[..|ledger| - 1];
    assert Ids(ledger)[n] == ledger[n].id && Ids(ledger)[|ledger| - 1] == ledger[|ledger| - 1].id;
    if n < |front| {
      PromotionExactly(front, id, target, n);
    } else {
      var found := FindPromotion(front, id, target);
      if found.Some? { assert Ids(ledger)[found.value - 1] == id; }
    }
  }

  lemma PromotionFound(
    env: Env, ledger: seq<Event>, c: IntegrationCandidate, op: MemoryOperation, prior: Memory)
    requires Distinct(Ids(ledger))
    ensures var found := FindPromotion(ledger, op.expectedEvent, op.target);
            (exists n: nat :: PromotedBefore(env, ledger, c, op, prior, n))
            <==> found.Some? && PromotedBefore(env, ledger, c, op, prior, found.value - 1)
  {
    hide FindPromotion;
    if n: nat :| PromotedBefore(env, ledger, c, op, prior, n) {
      PromotionExactly(ledger, op.expectedEvent, op.target, n);
    }
  }

  lemma NewSourceExactly(ledger: seq<Event>, n: nat, ids: seq<EventId>)
    ensures (exists id | id in ids :: IsNewSource(ledger, n + 1, id))
            <==> exists i: nat :: n < i < |ledger| && Observed(ledger[i]) && ledger[i].id in ids
  {
    if id :| id in ids && IsNewSource(ledger, n + 1, id) {
      var i :| 0 <= i < |ledger| && ledger[i].id == id && i + 1 > n + 1 && Observed(ledger[i]);
      assert n < i < |ledger| && Observed(ledger[i]) && ledger[i].id in ids;
    }
    if i: nat :| n < i < |ledger| && Observed(ledger[i]) && ledger[i].id in ids {
      assert IsNewSource(ledger, n + 1, ledger[i].id);
    }
  }

  lemma PromotionAgrees(
    env: Env, ledger: seq<Event>, c: IntegrationCandidate, op: MemoryOperation, prior: Memory, n: nat)
    requires Distinct(Ids(ledger)) && FindPromotion(ledger, op.expectedEvent, op.target) == Some(n + 1)
    ensures var e := ledger[n];
            PromotedBefore(env, ledger, c, op, prior, n)
            <==> IntegrityHolds(env, e) && n + 1 <= c.asOf && e.body.memory == prior
                 && SourceHash(env, e) == op.expectedHash
                 && exists id | id in c.sources :: IsNewSource(ledger, n + 1, id)
  {
    PromotionExactly(ledger, op.expectedEvent, op.target, n);
    NewSourceExactly(ledger, n, c.sources);
    hide FindPromotion, IsNewSource, IntegrityHolds, SourceHash, Distinct;
  }

  lemma TargetAgrees(ledger: seq<Event>, s: State, asOf: State, c: IntegrationCandidate, op: MemoryOperation)
    requires c.asOf <= |ledger|
    ensures GoodTarget(ledger, s, asOf, c, op)
            <==> && op.target in asOf.memories
                 && asOf.memories[op.target].status.Active? && !asOf.memories[op.target].kind.ExplicitPreference?
                 && !(op.Replace? && Trim(op.replacement) == Trim(asOf.memories[op.target].content))
                 && op.target in s.memories && s.memories[op.target] == asOf.memories[op.target]
                 && !exists e | e in ledger[c.asOf..] :: ChangesMemory(e, op.target)
  {
    hide Trim;
    if e :| e in ledger[c.asOf..] && ChangesMemory(e, op.target) {
      var j :| 0 <= j < |ledger[c.asOf..]| && ledger[c.asOf..][j] == e;
      assert ledger[c.asOf + j] == e;
    }
    if k: nat :| c.asOf <= k < |ledger| && ChangesMemory(ledger[k], op.target) {
      assert ledger[c.asOf..][k - c.asOf] == ledger[k];
    }
  }

  /** A revision can be planned exactly then. */
  lemma RevisionExactly(env: Env, ledger: seq<Event>, s: State, c: IntegrationCandidate, op: MemoryOperation)
    requires Current(env, ledger, s)
    ensures MemoryRevisionPlan(env, ledger, s, c, op).Ok? <==> GoodRevision(env, ledger, s, c, op)
    ensures MemoryRevisionPlan(env, ledger, s, c, op).Ok? ==>
              op.target in s.memories && MemoryRevisionPlan(env, ledger, s, c, op).value.0 == s.memories[op.target]
  {
    hide Step, Replay, FindPromotion, PromotedBefore, GoodTarget, ChangesMemory, IsNewSource, Distinct, Trim, IntegrityHolds,
         SourceHash;
    ReplayCounts(env, ledger);
    if AsOfPresent(ledger, s, c) && Replay(env, ledger[..c.asOf]).Some? {
      var asOf := Replay(env, ledger[..c.asOf]).value;
      TargetAgrees(ledger, s, asOf, c, op);
      if GoodTarget(ledger, s, asOf, c, op) {
        var prior := asOf.memories[op.target];
        PromotionFound(env, ledger, c, op, prior);
        var found := FindPromotion(ledger, op.expectedEvent, op.target);
        if found.Some? { PromotionAgrees(env, ledger, c, op, prior, found.value - 1); }
      }
    }
  }

  // ---------------------------------------------------------------- Positions

  /** HEKATE has no other active Position on the subject, and no unresolved conflict is
      about the subject or the target; subjects are compared in their normal form. */
  ghost predicate Undisputed(env: Env, s: State, hekate: PrincipalId, subject: string, target: Option<PositionId>) {
    && (forall id | id in s.positions && s.positions[id].principal == hekate && s.positions[id].status.Active? ::
          Some(s.positions[id].id) == target || env.normalize(s.positions[id].subject) != env.normalize(subject))
    && (forall id | id in s.conflicts && (s.conflicts[id].status.Open? || s.conflicts[id].status.Negotiating?) ::
          && env.normalize(s.conflicts[id].subject) != env.normalize(subject)
          && (target.Some? ==> target.value !in s.conflicts[id].participants))
  }

  /** The Position the proposal is about is HEKATE's, active and at the expected version,
      has not changed since the candidate's revision, and is undisputed. */
  ghost predicate GoodPrior(
    env: Env, s: State, asOf: State, hekate: PrincipalId, target: PositionId, version: nat)
  {
    && target in asOf.positions && target in s.positions && s.positions[target] == asOf.positions[target]
    && var prior := s.positions[target];
    && prior.principal == hekate && prior.version == version && prior.status.Active?
    && Undisputed(env, asOf, hekate, prior.subject, Some(prior.id))
    && Undisputed(env, s, hekate, prior.subject, Some(prior.id))
  }

  ghost predicate GoodPosition(
    env: Env, ledger: seq<Event>, s: State, c: IntegrationCandidate, hekate: PrincipalId, op: PositionOperation,
    id: PositionId)
  {
    && FromItsRun(ledger, s, c)
    && var asOf := Replay(env, ledger[..c.asOf]);
    && asOf.Some? && hekate in asOf.value.principals && asOf.value.principals[hekate].kind.Hekate?
    && match op
       case Establish(subject, stance, _, _) =>
         && Undisputed(env, asOf.value, hekate, Trim(subject), None)
         && Undisputed(env, s, hekate, Trim(subject), None)
         && (id in s.positions ==>
               && s.positions[id].version == 1 && s.positions[id].principal == hekate
               && s.positions[id].subject == Trim(subject) && s.positions[id].stance == stance)
       case Revise(target, version, _, _, _) =>
         GoodPrior(env, s, asOf.value, hekate, target, version) && version + 1 <= U32_MAX && id !in s.positions
       case Withdraw(target, version, _) =>
         GoodPrior(env, s, asOf.value, hekate, target, version) && s.positions[target].supersedes.None?
  }

  lemma BlockedExactly(env: Env, s: State, hekate: PrincipalId, subject: string, target: Option<PositionId>)
    ensures PositionIntegrationBlocked(env, s, hekate, subject, target) <==> !Undisputed(env, s, hekate, subject, target)
  {
  }

  lemma PriorExactly(
    env: Env, s: State, asOf: State, hekate: PrincipalId, target: PositionId, version: nat)
    ensures GoodPrior(env, s, asOf, hekate, target, version)
            <==> && PriorPosition(s, asOf, target).Ok?
                 && PriorError(env, s, asOf, PriorPosition(s, asOf, target).value, hekate, version).None?
  {
    if PriorPosition(s, asOf, target).Ok? {
      var prior := PriorPosition(s, asOf, target).value;
      BlockedExactly(env, asOf, hekate, prior.subject, Some(prior.id));
      BlockedExactly(env, s, hekate, prior.subject, Some(prior.id));
    }
    hide PositionIntegrationBlocked, Undisputed;
  }

  lemma EstablishExactly(
    env: Env, ledger: seq<Event>, s: State, c: IntegrationCandidate, hekate: PrincipalId, op: PositionOperation,
    id: PositionId)
    requires Current(env, ledger, s) && AsOfPresent(ledger, s, c) && Replay(env, ledger[..c.asOf]).Some?
    requires Replay(env, ledger[..c.asOf]).value.revision == c.asOf && op.Establish?
    ensures PositionPlan(env, ledger, s, c, hekate, op, id).Ok? <==> GoodPosition(env, ledger, s, c, hekate, op, id)
  {
    var asOf := Replay(env, ledger[..c.asOf]).value;
    BlockedExactly(env, asOf, hekate, Trim(op.subject), None);
    BlockedExactly(env, s, hekate, Trim(op.subject), None);
    hide PositionIntegrationBlocked, Undisputed, Trim, Replay;
  }

  lemma ReviseExactly(
    env: Env, ledger: seq<Event>, s: State, c: IntegrationCandidate, hekate: PrincipalId, op: PositionOperation,
    id: PositionId)
    requires KeysOk(s) && AsOfPresent(ledger, s, c) && Replay(env, ledger[..c.asOf]).Some?
    requires Replay(env, ledger[..c.asOf]).value.revision == c.asOf && op.Revise?
    ensures PositionPlan(env, ledger, s, c, hekate, op, id).Ok? <==> GoodPosition(env, ledger, s, c, hekate, op, id)
  {
    var asOf := Replay(env, ledger[..c.asOf]).value;
    PriorExactly(env, s, asOf, hekate, op.position, op.expectedVersion);
    hide PositionIntegrationBlocked, GoodPrior, PriorError, Trim, Replay;
    if PriorPosition(s, asOf, op.position).Ok? { PriorFields(env, s, asOf, hekate, op.position, op.expectedVersion); }
  }

  lemma WithdrawExactly(
    env: Env, ledger: seq<Event>, s: State, c: IntegrationCandidate, hekate: PrincipalId, op: PositionOperation,
    id: PositionId)
    requires KeysOk(s) && AsOfPresent(ledger, s, c) && Replay(env, ledger[..c.asOf]).Some?
    requires Replay(env, ledger[..c.asOf]).value.revision == c.asOf && op.Withdraw?
    ensures PositionPlan(env, ledger, s, c, hekate, op, id).Ok? <==> GoodPosition(env, ledger, s, c, hekate, op, id)
  {
    var asOf := Replay(env, ledger[..c.asOf]).value;
    PriorExactly(env, s, asOf, hekate, op.position, op.expectedVersion);
    hide PositionIntegrationBlocked, GoodPrior, PriorError, Trim, Replay, DedupIds;
    if PriorPosition(s, asOf, op.position).Ok? { PriorFields(env, s, asOf, hekate, op.position, op.expectedVersion); }
  }

  /** A Position can be planned exactly then. */
  lemma PositionExactly(
    env: Env, ledger: seq<Event>, s: State, c: IntegrationCandidate, hekate: PrincipalId, op: PositionOperation,
    id: PositionId)
    requires Current(env, ledger, s)
    ensures PositionPlan(env, ledger, s, c, hekate, op, id).Ok? <==> GoodPosition(env, ledger, s, c, hekate, op, id)
  {
    hide Step;
    CurrentFacts(env, ledger, s);
    if AsOfPresent(ledger, s, c) && Replay(env, ledger[..c.asOf]).Some? {
      ReplayCounts(env, ledger[..c.asOf]);
      hide Replay, PositionPlan, GoodPosition;
      match op
      case Establish(_, _, _, _) => EstablishExactly(env, ledger, s, c, hekate, op, id);
      case Revise(_, _, _, _, _) => ReviseExactly(env, ledger, s, c, hekate, op, id);
      case Withdraw(_, _, _) => WithdrawExactly(env, ledger, s, c, hekate, op, id);
    }
  }

  lemma PriorFields(env: Env, s: State, asOf: State, hekate: PrincipalId, target: PositionId, version: nat)
    requires PriorPosition(s, asOf, target).Ok?
    ensures var prior := PriorPosition(s, asOf, target).value;
            && target in s.positions && prior == s.positions[target]
            && (PriorError(env, s, asOf, prior, hekate, version).None? ==>
                  prior.principal == hekate && prior.version == version && prior.status.Active?)
  {
    hide PositionIntegrationBlocked;
  }

  // ---------------------------------------------------------------- reviews and materializations

  ghost predicate KnownUser(s: State, actor: PrincipalId) {
    actor in s.principals && !s.principals[actor].kind.Hekate?
  }

  /** The candidate's proposal can be carried out as things stand. */
  ghost predicate GoodProposal(
    env: Env, ledger: seq<Event>, s: State, c: IntegrationCandidate, hekate: Option<PrincipalId>, newPosition: PositionId)
  {
    && (c.kind.Position? ==>
          && hekate.Some? && ParsePositionProposal(env, c.content).Some?
          && GoodPosition(env, ledger, s, c, hekate.value, ParsePositionProposal(env, c.content).value, newPosition))
    && (c.kind.MemoryRevision? ==>
          && ParseMemoryProposal(env, c.content).Some?
          && GoodRevision(env, ledger, s, c, ParseMemoryProposal(env, c.content).value))
  }

  lemma ProposalExactly(
    env: Env, ledger: seq<Event>, s: State, c: IntegrationCandidate, hekate: Option<PrincipalId>, newPosition: PositionId)
    requires Current(env, ledger, s)
    ensures ProposalError(env, ledger, s, c, hekate, newPosition).None?
            <==> GoodProposal(env, ledger, s, c, hekate, newPosition)
  {
    hide PositionPlan, MemoryRevisionPlan, GoodPosition, GoodRevision, ParsePositionProposal, ParseMemoryProposal, Current;
    if c.kind.Position? && hekate.Some? && ParsePositionProposal(env, c.content).Some? {
      PositionExactly(env, ledger, s, c, hekate.value, ParsePositionProposal(env, c.content).value, newPosition);
    }
    if c.kind.MemoryRevision? && ParseMemoryProposal(env, c.content).Some? {
      RevisionExactly(env, ledger, s, c, ParseMemoryProposal(env, c.content).value);
    }
  }

  /** A reference to an event by its own hash, as of the candidate's revision. */
  ghost predicate PlainRef(env: Env, ledger: seq<Event>, asOf: nat, id: EventId, r: EvidenceRef) {
    exists n: nat :: Stands(env, ledger, n, id) && r == EvidenceRef(id, None, SourceHash(env, ledger[n]), asOf)
  }

  lemma {:induction false} DefaultExactly(env: Env, ledger: seq<Event>, asOf: nat, ids: seq<EventId>)
    requires Distinct(Ids(ledger))
    ensures var refs := DefaultEvidence(env, ledger, asOf, ids);
            && (refs.Ok? <==> forall i | 0 <= i < |ids| :: StandsBy(env, ledger, |ledger|, ids[i]))
            && (refs.Ok? ==>
                  |refs.value| == |ids| && forall i | 0 <= i < |ids| :: PlainRef(env, ledger, asOf, ids[i], refs.value[i]))
  {
    if ids != [] {
      DefaultExactly(env, ledger, asOf, ids[1..]);
      FindNone(ledger, ids[0]);
      forall n: nat | n < |ledger| ensures FindEvent(ledger, ids[0]) == Some(n + 1) <==> ledger[n].id == ids[0] {
        FindExactly(ledger, ids[0], n);
      }
      hide FindEvent, IntegrityHolds, SourceHash, Distinct;
      var found := FindEvent(ledger, ids[0]);
      if found.Some? {
        assert Stands(env, ledger, found.value - 1, ids[0]) <==> IntegrityHolds(env, ledger[found.value - 1]);
      }
      assert StandsBy(env, ledger, |ledger|, ids[0])
             <==> found.Some? && IntegrityHolds(env, ledger[found.value - 1]);
      hide StandsBy, Stands;
      assert forall i | 0 < i < |ids| :: ids[i] == ids[1..][i - 1];
      assert forall i | 0 <= i < |ids[1..]| :: ids[1..][i] == ids[i + 1];
    }
  }

  /** The evidence of a review: the given references in normal form, or one for every
      event the candidate cites. */
  ghost predicate EvidenceOfReview(
    env: Env, ledger: seq<Event>, c: IntegrationCandidate, refs: Option<seq<EvidenceRef>>, evidence: seq<EvidenceRef>)
  {
    match refs
    case Some(given) => evidence == Normalize(given)
    case None =>
      var ids := c.sources + c.counter;
      |evidence| == |ids| && forall i | 0 <= i < |ids| :: PlainRef(env, ledger, c.asOf, ids[i], evidence[i])
  }

  /** A review can be planned exactly when a user who is known gives a reason for a
      candidate that waits for one, the candidate and its evidence are good, and, for a
      verification, its proposal can be carried out. */
  lemma ReviewExactly(
    env: Env, ledger: seq<Event>, s: State, id: CandidateId, actor: PrincipalId, to: Disposition, reason: string,
    refs: Option<seq<EvidenceRef>>, hekate: Option<PrincipalId>, newPosition: PositionId, event: EventId)
    requires Current(env, ledger, s)
    ensures PlanTransition(env, ledger, s, id, actor, to, reason, refs, hekate, newPosition, event).Ok?
            <==> && KnownUser(s, actor) && id in s.candidates && s.candidates[id].disposition.NeedsValidation?
                 && !to.NeedsValidation? && !AllWhitespace(reason)
                 && (exists evidence :: EvidenceOfReview(env, ledger, s.candidates[id], refs, evidence)
                                        && GoodCandidate(env, ledger, s, s.candidates[id], evidence))
                 && (to.Verified? ==> GoodProposal(env, ledger, s, s.candidates[id], hekate, newPosition))
  {
    hide Step;
    ReplayCounts(env, ledger);
    BlankMeaning(reason);
    if id in s.candidates {
      var c := s.candidates[id];
      ProposalExactly(env, ledger, s, c, hekate, newPosition);
      ReviewEvidenceExactly(env, ledger, s, c, refs);
    }
    hide CandidateError, ProposalError, ReviewEvidence, EvidenceOfReview, GoodCandidate, GoodProposal, Replay, Distinct, Blank;
  }

  /** A review leaves the candidate at its new disposition, and a record of who gave
      which reason on which evidence, by the event that recorded it. */
  ghost predicate ReviewLanded(
    env: Env, ledger: seq<Event>, s: State, t: State, id: CandidateId, actor: PrincipalId, to: Disposition, reason: string,
    refs: Option<seq<EvidenceRef>>, event: EventId)
    requires id in s.candidates
  {
    var c := s.candidates[id];
    && t.candidates == s.candidates[id := c.(disposition := to)]
    && id in t.verifications && t.verifications == s.verifications[id := t.verifications[id]]
    && var v := t.verifications[id];
    && v.candidate == id && v.verificationEvent == Some(event) && v.previous.NeedsValidation? && v.disposition == to
    && v.actor == actor && v.reason == Trim(reason) && v.asOf == c.asOf
    && (exists evidence :: EvidenceOfReview(env, ledger, c, refs, evidence) && v.evidence == Normalize(evidence))
    && SameKnowledge(s, t)
  }

  /** A review changes no Position and no Memory. */
  ghost predicate SameKnowledge(s: State, t: State) {
    && t.positions == s.positions && t.memories == s.memories && t.memoryCandidates == s.memoryCandidates
    && t.materializations == s.materializations && t.memoryRevisions == s.memoryRevisions
    && t.positionMaterializations == s.positionMaterializations && t.principals == s.principals
  }

  /** Every planned review is recorded as it was given. */
  lemma ReviewRecorded(
    env: Env, ledger: seq<Event>, s: State, id: CandidateId, actor: PrincipalId, to: Disposition, reason: string,
    refs: Option<seq<EvidenceRef>>, hekate: Option<PrincipalId>, newPosition: PositionId, event: EventId)
    requires Current(env, ledger, s) && event !in s.applied
    requires PlanTransition(env, ledger, s, id, actor, to, reason, refs, hekate, newPosition, event).Ok?
    ensures id in s.candidates
    ensures var t := Step(env, s, PlanTransition(env, ledger, s, id, actor, to, reason, refs, hekate, newPosition, event).value);
            t.Some? && ReviewLanded(env, ledger, s, t.value, id, actor, to, reason, refs, event)
  {
    hide Step, PlanTransition, BodyAccepted, Replay, ReviewLanded, EvidenceOfReview, Trim, Distinct;
    PlannedTransitionAccepted(env, ledger, s, id, actor, to, reason, refs, hekate, newPosition, event);
    ReplayCounts(env, ledger);
    TransitionEvent(env, ledger, s, id, actor, to, reason, refs, hekate, newPosition, event);
    var e := PlanTransition(env, ledger, s, id, actor, to, reason, refs, hekate, newPosition, event).value;
    ReviewStored(env, ledger, s, e, id, actor, to, reason, refs);
  }

  /** The event of a review, with the record it carries. */
  ghost predicate ReviewOf(
    env: Env, ledger: seq<Event>, s: State, e: Event, id: CandidateId, actor: PrincipalId, to: Disposition, reason: string,
    refs: Option<seq<EvidenceRef>>)
    requires id in s.candidates
  {
    exists evidence :: EvidenceOfReview(env, ledger, s.candidates[id], refs, evidence) &&
      var v := IntegrationVerification.IntegrationVerification(
        id, None, s.candidates[id].disposition, to, actor, Trim(reason), evidence, s.candidates[id].asOf);
      e.body == if to.Verified? then CandidateVerified(v) else CandidateRejected(v)
  }

  lemma ReviewStored(
    env: Env, ledger: seq<Event>, s: State, e: Event, id: CandidateId, actor: PrincipalId, to: Disposition, reason: string,
    refs: Option<seq<EvidenceRef>>)
    requires Step(env, s, e).Some? && id in s.candidates
    requires s.candidates[id].disposition.NeedsValidation? && !to.NeedsValidation?
    requires ReviewOf(env, ledger, s, e, id, actor, to, reason, refs)
    ensures ReviewLanded(env, ledger, s, Step(env, s, e).value, id, actor, to, reason, refs, e.id)
  {
    StepParts(env, s, e);
    TrimIdempotent(reason);
    hide Step, BodyAccepted, EvidenceOfReview, Trim, Normalize, After;
  }

  lemma TransitionEvent(
    env: Env, ledger: seq<Event>, s: State, id: CandidateId, actor: PrincipalId, to: Disposition, reason: string,
    refs: Option<seq<EvidenceRef>>, hekate: Option<PrincipalId>, newPosition: PositionId, event: EventId)
    requires Distinct(Ids(ledger))
    requires PlanTransition(env, ledger, s, id, actor, to, reason, refs, hekate, newPosition, event).Ok?
    ensures id in s.candidates && s.candidates[id].disposition.NeedsValidation? && !to.NeedsValidation?
    ensures var e := PlanTransition(env, ledger, s, id, actor, to, reason, refs, hekate, newPosition, event).value;
            e.id == event && ReviewOf(env, ledger, s, e, id, actor, to, reason, refs)
  {
    hide CandidateError, ProposalError, ReviewEvidence, EvidenceOfReview, Trim, Blank, Distinct, LastCreated;
    GivenEvidence(env, ledger, s.candidates[id], refs);
  }

  lemma GivenEvidence(env: Env, ledger: seq<Event>, c: IntegrationCandidate, refs: Option<seq<EvidenceRef>>)
    requires Distinct(Ids(ledger)) && ReviewEvidence(env, ledger, c, refs).Ok?
    ensures EvidenceOfReview(env, ledger, c, refs, ReviewEvidence(env, ledger, c, refs).value)
  {
    DefaultExactly(env, ledger, c.asOf, c.sources + c.counter);
    hide DefaultEvidence, Normalize, PlainRef, Distinct;
  }

  lemma PlainRefOnce(env: Env, ledger: seq<Event>, asOf: nat, id: EventId, a: EvidenceRef, b: EvidenceRef)
    requires Distinct(Ids(ledger)) && PlainRef(env, ledger, asOf, id, a) && PlainRef(env, ledger, asOf, id, b)
    ensures a == b
  {
    var n: nat :| Stands(env, ledger, n, id) && a == EvidenceRef(id, None, SourceHash(env, ledger[n]), asOf);
    var m: nat :| Stands(env, ledger, m, id) && b == EvidenceRef(id, None, SourceHash(env, ledger[m]), asOf);
    FindExactly(ledger, id, n);
    FindExactly(ledger, id, m);
  }

  lemma ReviewEvidenceExactly(
    env: Env, ledger: seq<Event>, s: State, c: IntegrationCandidate, refs: Option<seq<EvidenceRef>>)
    requires Distinct(Ids(ledger))
    ensures var given := ReviewEvidence(env, ledger, c, refs);
            (given.Ok? && CandidateError(env, ledger, s, c, given.value).None?)
            <==> exists evidence :: EvidenceOfReview(env, ledger, c, refs, evidence) && GoodCandidate(env, ledger, s, c, evidence)
  {
    hide CandidateError, GoodCandidate, DefaultEvidence, Normalize;
    var given := ReviewEvidence(env, ledger, c, refs);
    if given.Ok? { CandidateExactly(env, ledger, s, c, given.value); }
    DefaultExactly(env, ledger, c.asOf, c.sources + c.counter);
    if given.Ok? { assert EvidenceOfReview(env, ledger, c, refs, given.value); }
    if evidence :| EvidenceOfReview(env, ledger, c, refs, evidence) && GoodCandidate(env, ledger, s, c, evidence) {
      OnlyEvidence(env, ledger, c, refs, evidence);
    }
  }

  /** There is only one list a review can rest on. */
  lemma OnlyEvidence(
    env: Env, ledger: seq<Event>, c: IntegrationCandidate, refs: Option<seq<EvidenceRef>>, evidence: seq<EvidenceRef>)
    requires Distinct(Ids(ledger)) && EvidenceOfReview(env, ledger, c, refs, evidence)
    ensures ReviewEvidence(env, ledger, c, refs) == Ok(evidence)
  {
    if refs.None? {
      var ids := c.sources + c.counter;
      DefaultExactly(env, ledger, c.asOf, ids);
      hide DefaultEvidence, PlainRef, Distinct;
      forall i | 0 <= i < |ids| ensures StandsBy(env, ledger, |ledger|, ids[i]) {
        PlainRefStands(env, ledger, c.asOf, ids[i], evidence[i]);
      }
      var default := DefaultEvidence(env, ledger, c.asOf, ids).value;
      forall i | 0 <= i < |ids| ensures default[i] == evidence[i] {
        PlainRefOnce(env, ledger, c.asOf, ids[i], default[i], evidence[i]);
      }
      assert default == evidence;
    }
  }

  lemma PlainRefStands(env: Env, ledger: seq<Event>, asOf: nat, id: EventId, r: EvidenceRef)
    requires PlainRef(env, ledger, asOf, id, r)
    ensures StandsBy(env, ledger, |ledger|, id)
  {
  }

  /** The candidate was verified, and its review's evidence is still good. */
  ghost predicate GoodVerified(env: Env, ledger: seq<Event>, s: State, id: CandidateId) {
    && id in s.candidates && s.candidates[id].disposition.Verified?
    && id in s.verifications && s.verifications[id].disposition.Verified?
    && GoodCandidate(env, ledger, s, s.candidates[id], s.verifications[id].evidence)
  }

  /** No active Lesson says the same on the same sources, and none was made from a
      candidate with this fingerprint. */
  ghost predicate NewLesson(s: State, c: IntegrationCandidate) {
    && (forall m | m in s.memories && s.memories[m].status.Active? && s.memories[m].kind.Lesson? ::
          s.memories[m].content != c.content || s.memories[m].sources != c.sources)
    && (forall k | k in s.materializations && s.materializations[k].fingerprint == c.fingerprint ::
          s.materializations[k].memory in s.memories ==> !s.memories[s.materializations[k].memory].status.Active?)
  }

  /** A Lesson, or the change of a Memory, can be planned exactly when its candidate was
      verified, was not materialized before, and still proposes something that can be done. */
  lemma MemoryExactly(env: Env, ledger: seq<Event>, s: State, id: CandidateId, actor: PrincipalId, ids: FreshIds)
    requires Current(env, ledger, s)
    ensures PlanLesson(env, ledger, s, id, actor, ids).Ok?
            <==> && actor in s.principals && GoodVerified(env, ledger, s, id)
                 && var c := s.candidates[id];
                 if c.kind.MemoryRevision? then
                   && id !in s.memoryRevisions && ParseMemoryProposal(env, c.content).Some?
                   && GoodRevision(env, ledger, s, c, ParseMemoryProposal(env, c.content).value)
                 else c.kind.Memory? && id !in s.materializations && NewLesson(s, c)
  {
    hide Step, CandidateError, GoodCandidate, MemoryRevisionPlan, GoodRevision, DuplicateLesson, NewLesson,
         ParseMemoryProposal, Replay, Distinct, LastVerified;
    ReplayCounts(env, ledger);
    VerifiedIsFound(env, ledger, s, id);
    if id in s.candidates {
      var c := s.candidates[id];
      DuplicateExactly(s, c);
      if id in s.verifications { CandidateExactly(env, ledger, s, c, s.verifications[id].evidence); }
      if ParseMemoryProposal(env, c.content).Some? {
        RevisionExactly(env, ledger, s, c, ParseMemoryProposal(env, c.content).value);
      }
    }
  }

  /** A verified candidate is its own record, and its verification is in the ledger. */
  lemma VerifiedIsFound(env: Env, ledger: seq<Event>, s: State, id: CandidateId)
    requires Current(env, ledger, s)
    ensures id in s.candidates ==> s.candidates[id].id == id
    ensures id in s.verifications && s.verifications[id].disposition.Verified? ==> LastVerified(ledger, id).Some?
  {
    hide Step, LastVerified, Replay;
    CurrentFacts(env, ledger, s);
    assert ReviewOk(ledger, s, id);
  }

  lemma DuplicateExactly(s: State, c: IntegrationCandidate)
    ensures DuplicateLesson(s, c) <==> !NewLesson(s, c)
  {
  }

  /** A Position can be materialized exactly when its candidate was verified, was not
      materialized before, and proposes something that can still be done. */
  lemma MaterializationExactly(
    env: Env, ledger: seq<Event>, s: State, id: CandidateId, hekate: PrincipalId, actor: PrincipalId,
    newPosition: PositionId, event: EventId)
    requires Current(env, ledger, s)
    ensures PlanPosition(env, ledger, s, id, hekate, actor, newPosition, event).Ok?
            <==> && KnownUser(s, actor) && GoodVerified(env, ledger, s, id)
                 && var c := s.candidates[id];
                 && c.kind.Position? && id !in s.positionMaterializations
                 && ParsePositionProposal(env, c.content).Some?
                 && GoodPosition(env, ledger, s, c, hekate, ParsePositionProposal(env, c.content).value, newPosition)
  {
    hide Step, CandidateError, GoodCandidate, PositionPlan, GoodPosition, ParsePositionProposal, Replay, Distinct,
         LastVerified;
    ReplayCounts(env, ledger);
    VerifiedIsFound(env, ledger, s, id);
    if id in s.candidates {
      var c := s.candidates[id];
      if id in s.verifications { CandidateExactly(env, ledger, s, c, s.verifications[id].evidence); }
      if ParsePositionProposal(env, c.content).Some? {
        PositionExactly(env, ledger, s, c, hekate, ParsePositionProposal(env, c.content).value, newPosition);
      }
    }
  }

  // ---------------------------------------------------------------- what is promoted can be revised

  /** The event promotes this Memory under its own name. */
  ghost predicate Promotes(e: Event, id: EventId, memory: MemoryId) {
    && e.id == id && e.subject == Some(EntityRef(EntityKind.Memory, memory))
    && e.body.MemoryEvent? && e.body.memoryKind.Promoted? && e.body.memory.id == memory
  }

  /** The event ends this Memory under its own name, by the kind of its new status. */
  ghost predicate Ends(e: Event, id: EventId, memory: MemoryId) {
    && e.id == id && e.subject == Some(EntityRef(EntityKind.Memory, memory))
    && e.body.MemoryEvent? && e.body.memory.id == memory && !e.body.memory.status.Active?
    && (e.body.memory.status.Superseded? <==> e.body.memoryKind.Superseded?)
    && (e.body.memory.status.Expired? <==> e.body.memoryKind.Expired?)
  }

  /** A promotion that was recorded is the one a later revision finds. */
  lemma PromotionIsFound(env: Env, ledger: seq<Event>, batch: seq<Event>, k: nat, id: EventId, memory: MemoryId)
    requires Replay(env, ledger + batch).Some? && k < |batch| && Promotes(batch[k], id, memory)
    ensures FindPromotion(ledger + batch, id, memory) == Some(|ledger| + k + 1)
  {
    hide Step, Replay, FindPromotion, Distinct, Ids, Promotes;
    var all, n := ledger + batch, |ledger| + k;
    AllOnce(env, all);
    assert all[n] == batch[k];
    FoundAt(all, n, id, memory);
  }

  lemma AllOnce(env: Env, ledger: seq<Event>)
    requires Replay(env, ledger).Some?
    ensures Distinct(Ids(ledger))
  {
    hide Step;
    ReplayCounts(env, ledger);
  }

  lemma FoundAt(ledger: seq<Event>, n: nat, id: EventId, memory: MemoryId)
    requires Distinct(Ids(ledger)) && n < |ledger| && Promotes(ledger[n], id, memory)
    ensures FindPromotion(ledger, id, memory) == Some(n + 1)
  {
    hide FindPromotion, Distinct, Ids;
    PromotionExactly(ledger, id, memory, n);
  }

  /** The batch of a Lesson, or of a replacement, promotes its Memory that way, and a
      revision ends its target before. */
  lemma BatchPromotes(env: Env, ledger: seq<Event>, s: State, id: CandidateId, actor: PrincipalId, ids: FreshIds)
    requires KeysOk(s) && PlanLesson(env, ledger, s, id, actor, ids).Ok?
    ensures var batch := PlanLesson(env, ledger, s, id, actor, ids).value;
            && id in s.candidates
            && (s.candidates[id].kind != CandidateKind.MemoryRevision ==>
                  |batch| == 3 && Promotes(batch[1], ids.promoted, ids.memory))
            && (s.candidates[id].kind == CandidateKind.MemoryRevision ==>
                  && ParseMemoryProposal(env, s.candidates[id].content).Some?
                  && var op := ParseMemoryProposal(env, s.candidates[id].content).value;
                  && |batch| == (if op.Replace? then 4 else 2)
                  && Ends(batch[if op.Replace? then 1 else 0], ids.changed, op.target)
                  && (op.Replace? ==> Promotes(batch[2], ids.promoted, ids.memory)))
  {
    hide CandidateError, MemoryRevisionPlan, ParseMemoryProposal, DuplicateLesson, LastVerified, Trim;
    if s.candidates[id].kind == CandidateKind.MemoryRevision {
      PlannedTarget(env, ledger, s, s.candidates[id], ParseMemoryProposal(env, s.candidates[id].content).value);
    }
  }

  lemma PlannedTarget(env: Env, ledger: seq<Event>, s: State, c: IntegrationCandidate, op: MemoryOperation)
    requires KeysOk(s) && MemoryRevisionPlan(env, ledger, s, c, op).Ok?
    ensures MemoryRevisionPlan(env, ledger, s, c, op).value.0.id == op.target
  {
    hide Replay, FindPromotion, Trim;
  }

  // ---------------------------------------------------------------- successors

  /** A Position that replaced another one cannot be withdrawn: the proposal can be
      neither verified nor materialized, and the projector refuses an event that does it. */
  lemma SuccessorNotWithdrawn(
    env: Env, ledger: seq<Event>, s: State, id: CandidateId, hekate: PrincipalId, actor: PrincipalId, reason: string,
    refs: Option<seq<EvidenceRef>>, newPosition: PositionId, event: EventId, e: Event)
    requires Current(env, ledger, s)
    requires id in s.candidates && s.candidates[id].kind.Position?
    requires var op := ParsePositionProposal(env, s.candidates[id].content);
             op.Some? && op.value.Withdraw?
             && op.value.position in s.positions && s.positions[op.value.position].supersedes.Some?
    ensures PlanTransition(env, ledger, s, id, actor, Disposition.Verified, reason, refs, Some(hekate), newPosition, event).Err?
    ensures PlanPosition(env, ledger, s, id, hekate, actor, newPosition, event).Err?
    ensures e.body.PositionEvent? && e.body.integration.Some? && e.body.integration.value.candidate == id ==>
              Step(env, s, e).None?
  {
    hide Step, PlanTransition, PlanPosition, GoodCandidate, EvidenceOfReview, Replay, GoodPrior, AllWhitespace,
         ParsePositionProposal;
    ReviewExactly(env, ledger, s, id, actor, Disposition.Verified, reason, refs, Some(hekate), newPosition, event);
    MaterializationExactly(env, ledger, s, id, hekate, actor, newPosition, event);
    if e.body.PositionEvent? && e.body.integration.Some? && e.body.integration.value.candidate == id
       && Step(env, s, e).Some? {
      WithdrawalGuards(env, s, e);
      assert false;
    }
  }

  lemma WithdrawalGuards(env: Env, s: State, e: Event)
    requires e.body.PositionEvent? && e.body.integration.Some? && Step(env, s, e).Some?
    requires var m := e.body.integration.value;
             m.candidate in s.candidates ==>
               var op := ParsePositionProposal(env, s.candidates[m.candidate].content);
               op.Some? && op.value.Withdraw?
    ensures var m := e.body.integration.value;
            && m.candidate in s.candidates
            && var target := ParsePositionProposal(env, s.candidates[m.candidate].content).value.position;
            target in s.positions ==> s.positions[target].supersedes.None?
  {
    hide ParsePositionProposal, PositionEnvelopeOk, PositionIntegrationBlocked, ValidPositionRevision, After, Normalize,
         IntegrationEvidenceValid, FingerprintMatches, DedupIds, Trim;
  }
}
