/** The batches the integration service plans are the ones the projector accepts. */
module IntegrationAccept {
  import opened Prelude
  import opened Ordering
  import opened Model
  import opened Evidence
  import opened Deliberation
  import opened Projector
  import opened Lookup
  import opened MemoryIntegration
  import opened IntegrationHistory

  /** The service loaded this ledger and the state that is its replay. */
  ghost predicate Current(env: Env, ledger: seq<Event>, s: State) {
    Replay(env, ledger) == Some(s)
  }

  lemma CurrentFacts(env: Env, ledger: seq<Event>, s: State)
    requires Current(env, ledger, s)
    ensures s.applied == Ids(ledger) && s.revision == |ledger|
    ensures HistoryOk(ledger, s)
  {
    hide Step;
    ReplayCounts(env, ledger);
    HistoryHolds(env, ledger);
  }

  // ---------------------------------------------------------------- the candidate checks

  /** What the projector will ask of a candidate and of the evidence for it. */
  ghost predicate Sound(env: Env, s: State, c: IntegrationCandidate, refs: seq<EvidenceRef>) {
    && c.asOf <= s.revision
    && FingerprintMatches(env, c)
    && (forall id | id in c.sources + c.counter :: id in s.applied)
    && Normalize(refs) != []
    && IntegrationEvidenceValid(s, c, Normalize(refs), c.asOf)
  }

  lemma EvidenceSound(env: Env, ledger: seq<Event>, s: State, c: IntegrationCandidate, r: EvidenceRef)
    requires s.applied == Ids(ledger) && EvidenceError(env, ledger, s, c, r).None?
    ensures IntegrationEvidenceOk(s, c, r, c.asOf)
  {
    hide IntegrityHolds, SourceHash, ValidSha256Hex;
    assert SequenceOf(s, r.event) == FindEvent(ledger, r.event);
  }

  lemma CandidateSound(env: Env, ledger: seq<Event>, s: State, c: IntegrationCandidate, refs: seq<EvidenceRef>)
    requires s.applied == Ids(ledger) && CandidateError(env, ledger, s, c, refs).None?
    ensures Sound(env, s, c, refs)
  {
    hide EvidenceError, IntegrationEvidenceOk;
    NormalizeMeaning(refs);
    forall id | id in c.sources + c.counter ensures id in s.applied {
      assert ProvenanceError(env, ledger, c.asOf, id).None?;
    }
    forall r | r in Normalize(refs) ensures IntegrationEvidenceOk(s, c, r, c.asOf) {
      EvidenceSound(env, ledger, s, c, r);
    }
  }

  // ---------------------------------------------------------------- reviews

  lemma ProposalParsed(
    env: Env, ledger: seq<Event>, s: State, c: IntegrationCandidate, hekate: Option<PrincipalId>, newPosition: PositionId)
    requires ProposalError(env, ledger, s, c, hekate, newPosition).None?
    ensures ProposalParses(env, c)
  {
    hide PositionPlan, MemoryRevisionPlan, ParsePositionProposal, ParseMemoryProposal;
  }

  lemma ReviewStepAccepted(env: Env, s: State, e: Event, v: IntegrationVerification, expected: Disposition)
    requires e.id !in s.applied && CandidateTransitionAccepted(env, s, e, v, expected)
    requires e.body == (if expected.Verified? then CandidateVerified(v) else CandidateRejected(v))
    requires !expected.NeedsValidation?
    ensures Step(env, s, e).Some?
  {
  }

  lemma ReviewAccepted(
    env: Env, s: State, e: Event, id: CandidateId, actor: PrincipalId, to: Disposition, reason: string,
    evidence: seq<EvidenceRef>)
    requires id in s.candidates && IsReviewer(s, actor) && !to.NeedsValidation?
    requires var c := s.candidates[id];
             c.disposition.NeedsValidation? && Sound(env, s, c, evidence) && (to.Verified? ==> ProposalParses(env, c))
    requires !Blank(reason)
    requires e.id !in s.applied && e.actor == actor && SubjectIs(e, EntityKind.IntegrationCandidate, id)
    requires var v := IntegrationVerification.IntegrationVerification(
               id, None, s.candidates[id].disposition, to, actor, Trim(reason), evidence, s.candidates[id].asOf);
             e.body == (if to.Verified? then CandidateVerified(v) else CandidateRejected(v))
    ensures Step(env, s, e).Some?
  {
    hide ProposalParses, FingerprintMatches, IntegrationEvidenceValid;
    var v := if to.Verified? then e.body.accepted else e.body.refused;
    TrimIdempotent(reason);
    assert CandidateTransitionAccepted(env, s, e, v, to);
    ReviewStepAccepted(env, s, e, v, to);
  }

  /** Every planned verification or rejection is accepted by the projector. */
  lemma PlannedTransitionAccepted(
    env: Env, ledger: seq<Event>, s: State, id: CandidateId, actor: PrincipalId, to: Disposition, reason: string,
    refs: Option<seq<EvidenceRef>>, hekate: Option<PrincipalId>, newPosition: PositionId, event: EventId)
    requires Current(env, ledger, s) && event !in s.applied
    requires PlanTransition(env, ledger, s, id, actor, to, reason, refs, hekate, newPosition, event).Ok?
    ensures Step(env, s, PlanTransition(env, ledger, s, id, actor, to, reason, refs, hekate, newPosition, event).value).Some?
  {
    hide Step, CandidateError, ProposalError, ReviewEvidence, Blank;
    var c := s.candidates[id];
    var e := PlanTransition(env, ledger, s, id, actor, to, reason, refs, hekate, newPosition, event).value;
    var evidence := ReviewEvidence(env, ledger, c, refs).value;
    CurrentFacts(env, ledger, s);
    CandidateSound(env, ledger, s, c, evidence);
    if to.Verified? { ProposalParsed(env, ledger, s, c, hekate, newPosition); }
    ReviewAccepted(env, s, e, id, actor, to, reason, evidence);
  }

  // ---------------------------------------------------------------- Memories

  /** A later state that differs only in Memories and in what was applied. */
  ghost predicate SameReviews(s: State, t: State) {
    && t.principals == s.principals && t.artifacts == s.artifacts
    && t.candidates == s.candidates && t.verifications == s.verifications
    && t.materializations == s.materializations && t.memoryRevisions == s.memoryRevisions
    && s.applied <= t.applied && s.revision <= t.revision
  }

  lemma MemoryStep(env: Env, s: State, e: Event)
    requires e.id !in s.applied && (e.body.MemoryCandidateEvent? || e.body.MemoryEvent?)
    ensures Step(env, s, e).Some?
    ensures var t := Step(env, s, e).value;
            && SameReviews(s, t)
            && t.applied == s.applied + [e.id]
            && t.memories == NextMemories(s, e.body)
            && t.memoryCandidates == NextMemoryCandidates(s, e.body)
  {
  }

  lemma SequenceStable(s: State, t: State, id: EventId)
    requires s.applied <= t.applied && SequenceOf(s, id).Some?
    ensures SequenceOf(t, id) == SequenceOf(s, id)
  {
    IndexOfPrefix(s.applied, t.applied, id);
  }

  /** Evidence that was valid stays valid while only Memories change. */
  lemma SoundStable(env: Env, s: State, t: State, c: IntegrationCandidate, refs: seq<EvidenceRef>)
    requires Sound(env, s, c, refs) && SameReviews(s, t)
    ensures Sound(env, t, c, refs)
  {
    hide FingerprintMatches, Normalize, ValidSha256Hex;
    forall r | r in Normalize(refs) ensures IntegrationEvidenceOk(t, c, r, c.asOf) {
      assert IntegrationEvidenceOk(s, c, r, c.asOf);
      SequenceStable(s, t, r.event);
    }
    forall id | id in c.sources + c.counter ensures id in t.applied {
      assert id in s.applied;
    }
  }

  /** The candidate is verified and its stored review is in order. */
  ghost predicate Reviewed(env: Env, s: State, id: CandidateId) {
    && id in s.candidates && s.candidates[id].disposition.Verified?
    && id in s.verifications && s.verifications[id].disposition.Verified?
    && Normalize(s.verifications[id].evidence) == s.verifications[id].evidence
    && Sound(env, s, s.candidates[id], s.verifications[id].evidence)
  }

  lemma ReviewedStable(env: Env, s: State, t: State, id: CandidateId)
    requires Reviewed(env, s, id) && SameReviews(s, t)
    ensures Reviewed(env, t, id)
  {
    hide Sound;
    SoundStable(env, s, t, s.candidates[id], s.verifications[id].evidence);
  }

  lemma LinkStep(env: Env, t: State, e: Event, m: IntegrationMaterialization)
    requires e.body == CandidateMaterialized(m) && e.id !in t.applied
    requires SubjectIs(e, EntityKind.IntegrationCandidate, m.candidate)
    requires Reviewed(env, t, m.candidate) && m.candidate !in t.materializations
    requires var c := t.candidates[m.candidate];
             && c.kind == CandidateKind.Memory
             && m.sources == c.sources && m.counter == c.counter && m.asOf == c.asOf && m.fingerprint == c.fingerprint
             && m.evidence == t.verifications[m.candidate].evidence
             && m.memoryCandidate in t.memoryCandidates && m.memory in t.memories
             && (var mc := t.memoryCandidates[m.memoryCandidate];
                 mc.status.Promoted? && mc.kind.Lesson? && mc.content == c.content && mc.sources == c.sources)
             && t.memories[m.memory].status.Active? && t.memories[m.memory].candidate == m.memoryCandidate
    ensures Step(env, t, e).Some?
    ensures var u := Step(env, t, e).value;
            && u.memories == t.memories && u.memoryCandidates == t.memoryCandidates
            && u.materializations == t.materializations[m.candidate := m]
            && u.candidates == t.candidates && u.verifications == t.verifications
  {
    hide IntegrationEvidenceValid;
    assert MaterializationAccepted(env, t, e, m);
    assert Normalize(m.evidence) == m.evidence;
    hide MaterializationAccepted, Normalize, Reviewed;
  }

  lemma ApplyThree(env: Env, s: State, a: Event, b: Event, c: Event)
    requires Step(env, s, a).Some? && Step(env, Step(env, s, a).value, b).Some?
    ensures ApplyAll(env, s, [a, b, c]) == Step(env, Step(env, Step(env, s, a).value, b).value, c)
  {
    hide Step;
    assert [a, b] + [c] == [a, b, c];
    assert [a] + [b] == [a, b];
    assert [] + [a] == [a];
    ApplyLast(env, s, [a, b], c);
    ApplyLast(env, s, [a], b);
    ApplyLast(env, s, [], a);
  }

  ghost predicate FreshEvents(s: State, events: seq<Event>) {
    Distinct(Ids(events)) && forall e | e in events :: e.id !in s.applied
  }

  /** A Lesson as it is stored: an active Memory with the text, the confidence and the
      sources of its candidate, promoted from a Memory candidate of the same, and linked
      to the review it rests on. Nothing else of these records changes. */
  ghost predicate LessonLanded(s: State, t: State, id: CandidateId, ids: FreshIds)
    requires id in s.candidates && id in s.verifications
  {
    var c, v := s.candidates[id], s.verifications[id];
    && ids.memory in t.memories && ids.memoryCandidate in t.memoryCandidates && id in t.materializations
    && var m := t.memories[ids.memory];
    && m.id == ids.memory && m.candidate == ids.memoryCandidate
    && m.kind.Lesson? && m.content == c.content && m.subject.None? && m.status.Active?
    && m.confidence == c.confidence && m.sources == c.sources && m.supersedes.None?
    && t.memories == s.memories[ids.memory := m]
    && var mc := t.memoryCandidates[ids.memoryCandidate];
    && mc.id == ids.memoryCandidate
    && mc.kind.Lesson? && mc.content == c.content && mc.subject.None? && mc.status.Promoted?
    && mc.confidence == c.confidence && mc.sources == c.sources && mc.supersedes.None?
    && t.memoryCandidates == s.memoryCandidates[ids.memoryCandidate := mc]
    && var link := t.materializations[id];
    && link.candidate == id && link.memoryCandidate == ids.memoryCandidate && link.memory == ids.memory
    && link.sources == c.sources && link.counter == c.counter && link.evidence == v.evidence
    && link.fingerprint == c.fingerprint && link.asOf == c.asOf
    && t.materializations == s.materializations[id := link]
    && t.candidates == s.candidates && t.verifications == s.verifications
  }

  lemma LessonBatchAccepted(
    env: Env, s: State, actor: PrincipalId, id: CandidateId, ids: FreshIds)
    requires Reviewed(env, s, id) && id !in s.materializations && s.candidates[id].kind == CandidateKind.Memory
    requires ids.created !in s.applied && ids.promoted !in s.applied && ids.linked !in s.applied
    requires ids.created != ids.promoted && ids.created != ids.linked && ids.promoted != ids.linked
    ensures var t := ApplyAll(env, s, LessonBatch(env, actor, id, s.candidates[id], s.verifications[id], ids));
            t.Some? && LessonLanded(s, t.value, id, ids)
  {
    hide Step, Sound;
    var c, v := s.candidates[id], s.verifications[id];
    var batch := LessonBatch(env, actor, id, c, v, ids);
    LessonRecords(env, s, actor, id, ids);
    var s1 := Step(env, s, batch[0]).value;
    var s2 := Step(env, s1, batch[1]).value;
    ReviewedStable(env, s, s2, id);
    LinkStep(env, s2, batch[2], batch[2].body.materialization);
    ApplyThree(env, s, batch[0], batch[1], batch[2]);
  }

  /** The candidate and the Memory of a Lesson are recorded before the link. */
  lemma LessonRecords(env: Env, s: State, actor: PrincipalId, id: CandidateId, ids: FreshIds)
    requires id in s.candidates && id in s.verifications
    requires ids.created !in s.applied && ids.promoted !in s.applied && ids.created != ids.promoted
    ensures var c := s.candidates[id];
            var batch := LessonBatch(env, actor, id, c, s.verifications[id], ids);
            && Step(env, s, batch[0]).Some?
            && var s1 := Step(env, s, batch[0]).value;
            && Step(env, s1, batch[1]).Some?
            && var t := Step(env, s1, batch[1]).value;
            && SameReviews(s, t) && t.applied == s.applied + [ids.created] + [ids.promoted]
            && t.memories == s.memories[ids.memory := MemoryFrom(LessonCandidate(c, ids), ids, None)]
            && t.memoryCandidates
               == s.memoryCandidates[ids.memoryCandidate :=
                                       LessonCandidate(c, ids).(status := MemoryCandidateStatus.Promoted)]
  {
    hide Step;
    var batch := LessonBatch(env, actor, id, s.candidates[id], s.verifications[id], ids);
    MemoryStep(env, s, batch[0]);
    MemoryStep(env, Step(env, s, batch[0]).value, batch[1]);
  }

  lemma PlanReviewed(env: Env, ledger: seq<Event>, s: State, id: CandidateId)
    requires Current(env, ledger, s)
    requires id in s.candidates && s.candidates[id].disposition.Verified? && VerificationOf(s, id).Ok?
    requires CandidateError(env, ledger, s, s.candidates[id], VerificationOf(s, id).value.evidence).None?
    ensures Reviewed(env, s, id)
    ensures LastVerified(ledger, id) == s.verifications[id].verificationEvent && LastVerified(ledger, id).Some?
    ensures s.candidates[id].id == id
  {
    hide Step, CandidateError, Sound, LastVerified;
    CurrentFacts(env, ledger, s);
    assert ReviewOk(ledger, s, id);
    CandidateSound(env, ledger, s, s.candidates[id], s.verifications[id].evidence);
  }

  /** Every planned Lesson batch is accepted event by event, and stores the candidate as a Lesson. */
  lemma PlannedLessonAccepted(
    env: Env, ledger: seq<Event>, s: State, id: CandidateId, actor: PrincipalId, ids: FreshIds)
    requires Current(env, ledger, s)
    requires id in s.candidates && s.candidates[id].kind != CandidateKind.MemoryRevision
    requires PlanLesson(env, ledger, s, id, actor, ids).Ok?
    requires FreshEvents(s, PlanLesson(env, ledger, s, id, actor, ids).value)
    ensures var t := ApplyAll(env, s, PlanLesson(env, ledger, s, id, actor, ids).value);
            t.Some? && id in s.verifications && LessonLanded(s, t.value, id, ids)
  {
    hide Step, LessonLanded, CandidateError, Reviewed, DuplicateLesson, PlanRevision;
    var batch := PlanLesson(env, ledger, s, id, actor, ids).value;
    PlanReviewed(env, ledger, s, id);
    FreshThree(s, batch);
    ReviewedFields(env, s, id);
    LessonBatchAccepted(env, s, actor, id, ids);
  }

  lemma ReviewedFields(env: Env, s: State, id: CandidateId)
    requires Reviewed(env, s, id)
    ensures id in s.candidates && id in s.verifications
  {
  }

  lemma FreshThree(s: State, batch: seq<Event>)
    requires FreshEvents(s, batch) && |batch| == 3
    ensures forall i | 0 <= i < 3 :: batch[i].id !in s.applied
    ensures batch[0].id != batch[1].id && batch[0].id != batch[2].id && batch[1].id != batch[2].id
  {
    var all := Ids(batch);
    assert all[0] != all[1] && all[0] != all[2] && all[1] != all[2];
    forall i | 0 <= i < 3 ensures batch[i].id !in s.applied { assert batch[i] in batch; }
  }

  // ---------------------------------------------------------------- Memory revisions

  /** What a planned revision knows about its target. */
  ghost predicate RevisionSound(
    env: Env, s: State, c: IntegrationCandidate, op: MemoryOperation, prior: Memory, expected: Event)
  {
    && op.target in s.memories && s.memories[op.target] == prior && prior.id == op.target
    && prior.status.Active? && !prior.kind.ExplicitPreference?
    && op.expectedEvent in c.counter && op.expectedEvent in s.applied
    && expected.id == op.expectedEvent
    && CanonicalHash(env, expected) == op.expectedHash
    && (op.Replace? ==> Trim(op.replacement) != Trim(prior.content))
  }

  lemma RevisionPlanSound(
    env: Env, ledger: seq<Event>, s: State, c: IntegrationCandidate, op: MemoryOperation)
    requires Current(env, ledger, s) && MemoryRevisionPlan(env, ledger, s, c, op).Ok?
    ensures var plan := MemoryRevisionPlan(env, ledger, s, c, op).value;
            RevisionSound(env, s, c, op, plan.0, plan.1)
  {
    hide Step, Replay, Trim, LastVerified, IsNewSource;
    CurrentFacts(env, ledger, s);
    var n := FindPromotion(ledger, op.expectedEvent, op.target).value;
    assert Ids(ledger)[n - 1] == op.expectedEvent;
  }

  /** Recording the link of a revision changes the links alone. */
  ghost predicate LinkOnly(t: State, u: State, m: MemoryRevisionMaterialization) {
    && u.memories == t.memories && u.memoryCandidates == t.memoryCandidates
    && u.memoryRevisions == t.memoryRevisions[m.candidate := m]
    && u.candidates == t.candidates && u.verifications == t.verifications
  }

  lemma RevisionLinkStep(env: Env, t: State, e: Event, m: MemoryRevisionMaterialization, op: MemoryOperation)
    requires e.body == MemoryRevisionMaterialized(m) && e.id !in t.applied
    requires RevisionEnvelopeOk(t, e, m)
    requires Reviewed(env, t, m.candidate) && m.candidate !in t.memoryRevisions
    requires var c, v := t.candidates[m.candidate], t.verifications[m.candidate];
             && c.kind == CandidateKind.MemoryRevision
             && ParseMemoryProposal(env, c.content) == Some(op)
             && m.sources == c.sources && m.counter == c.counter && m.asOf == c.asOf && m.fingerprint == c.fingerprint
             && m.evidence == v.evidence && v.verificationEvent == Some(m.verificationEvent)
             && m.expectedEvent in c.counter && m.expectedHash == op.expectedHash
    requires RevisionEffectOk(t, op, m)
    ensures Step(env, t, e).Some? <==> IsReviewer(t, e.actor)
    ensures Step(env, t, e).Some? ==> LinkOnly(t, Step(env, t, e).value, m)
  {
    hide IntegrationEvidenceValid, RevisionEffectOk, Normalize, ParseMemoryProposal, ValidSha256Hex;
    RevisionProvenance(env, t, m, op);
    assert Normalize(m.evidence) == m.evidence;
    hide RevisionProvenanceOk, RevisionEnvelopeOk, Reviewed;
    assert MemoryRevisionAccepted(env, t, e, m) <==> IsReviewer(t, e.actor);
    hide MemoryRevisionAccepted;
  }

  lemma RevisionProvenance(env: Env, t: State, m: MemoryRevisionMaterialization, op: MemoryOperation)
    requires Reviewed(env, t, m.candidate) && m.candidate !in t.memoryRevisions
    requires var c, v := t.candidates[m.candidate], t.verifications[m.candidate];
             && c.kind == CandidateKind.MemoryRevision
             && ParseMemoryProposal(env, c.content) == Some(op)
             && m.sources == c.sources && m.counter == c.counter && m.asOf == c.asOf && m.fingerprint == c.fingerprint
             && m.evidence == v.evidence && v.verificationEvent == Some(m.verificationEvent)
             && m.expectedEvent in c.counter && m.expectedHash == op.expectedHash
    ensures RevisionProvenanceOk(env, t, m)
  {
    hide IntegrationEvidenceValid;
  }

  lemma RevisionEnvelope(env: Env, t: State, actor: PrincipalId, c: IntegrationCandidate, link: MemoryRevisionMaterialization, id: EventId)
    requires link.candidate == c.id && link.verificationEvent in t.applied && link.expectedEvent in t.applied
    ensures RevisionEnvelopeOk(t, IntegrationEvent(env, actor, id, MemoryRevisionMaterialized(link),
                                                   EntityKind.IntegrationCandidate, c.id, c.id,
                                                   Some(link.verificationEvent)), link)
  {
  }

  /** The link of a revision, once the Memory events before it were applied. */
  lemma RevisionLinkAccepted(
    env: Env, s: State, t: State, actor: PrincipalId, c: IntegrationCandidate, op: MemoryOperation, prior: Memory,
    expected: Event, ids: FreshIds, verified: EventId)
    requires Reviewed(env, s, c.id) && s.candidates[c.id] == c && c.kind == CandidateKind.MemoryRevision
    requires c.id !in s.memoryRevisions && ParseMemoryProposal(env, c.content) == Some(op)
    requires RevisionSound(env, s, c, op, prior, expected)
    requires s.verifications[c.id].verificationEvent == Some(verified) && verified in s.applied
    requires SameReviews(s, t) && ids.linked !in t.applied
    requires var link := RevisionLink(c, s.verifications[c.id], op, prior, verified, expected.id,
                                      CanonicalHash(env, expected), ids);
             RevisionEffectOk(t, op, link)
    ensures var link := RevisionLink(c, s.verifications[c.id], op, prior, verified, expected.id,
                                     CanonicalHash(env, expected), ids);
            var e := IntegrationEvent(env, actor, ids.linked, MemoryRevisionMaterialized(link),
                                      EntityKind.IntegrationCandidate, c.id, c.id, Some(verified));
            && (Step(env, t, e).Some? <==> IsReviewer(s, actor))
            && (Step(env, t, e).Some? ==> LinkOnly(t, Step(env, t, e).value, link))
  {
    hide Step, Sound, RevisionEffectOk, RevisionEnvelopeOk, ParseMemoryProposal;
    var link := RevisionLink(c, s.verifications[c.id], op, prior, verified, expected.id, CanonicalHash(env, expected), ids);
    var e := IntegrationEvent(env, actor, ids.linked, MemoryRevisionMaterialized(link),
                              EntityKind.IntegrationCandidate, c.id, c.id, Some(verified));
    ReviewedStable(env, s, t, c.id);
    RevisionEnvelope(env, t, actor, c, link, ids.linked);
    RevisionLinkStep(env, t, e, link, op);
  }

  lemma ExpireEffect(
    env: Env, s: State, t: State, c: IntegrationCandidate, v: IntegrationVerification, op: MemoryOperation, prior: Memory,
    expected: Event, verified: EventId, ids: FreshIds)
    requires RevisionSound(env, s, c, op, prior, expected) && op.Expire?
    requires t.memories == s.memories[prior.id := prior.(status := MemoryStatus.Expired)]
    ensures RevisionEffectOk(t, op, RevisionLink(c, v, op, prior, verified, expected.id, CanonicalHash(env, expected), ids))
  {
  }

  lemma ReplaceEffect(
    env: Env, s: State, t: State, c: IntegrationCandidate, v: IntegrationVerification, op: MemoryOperation, prior: Memory,
    expected: Event, verified: EventId, ids: FreshIds)
    requires RevisionSound(env, s, c, op, prior, expected) && op.Replace? && ids.memory != prior.id
    requires var mc := ReplacementCandidate(c, op, prior, ids);
             && t.memories == s.memories[prior.id := prior.(status := MemoryStatus.Superseded)]
                                        [ids.memory := MemoryFrom(mc, ids, Some(prior.id))]
             && mc.id in t.memoryCandidates
             && t.memoryCandidates[mc.id].supersedes == mc.supersedes
             && t.memoryCandidates[mc.id].content == mc.content
    ensures RevisionEffectOk(t, op, RevisionLink(c, v, op, prior, verified, expected.id, CanonicalHash(env, expected), ids))
  {
  }

  lemma ApplyTwo(env: Env, s: State, a: Event, b: Event)
    requires Step(env, s, a).Some?
    ensures ApplyAll(env, s, [a, b]) == Step(env, Step(env, s, a).value, b)
  {
    hide Step;
    assert [a] + [b] == [a, b];
    assert [] + [a] == [a];
    ApplyLast(env, s, [a], b);
    ApplyLast(env, s, [], a);
  }

  lemma ApplyFour(env: Env, s: State, a: Event, b: Event, c: Event, d: Event)
    requires Step(env, s, a).Some? && Step(env, Step(env, s, a).value, b).Some?
    requires Step(env, Step(env, Step(env, s, a).value, b).value, c).Some?
    ensures ApplyAll(env, s, [a, b, c, d])
            == Step(env, Step(env, Step(env, Step(env, s, a).value, b).value, c).value, d)
  {
    hide Step;
    ApplyThree(env, s, a, b, c);
    assert [a, b, c] + [d] == [a, b, c, d];
    ApplyLast(env, s, [a, b, c], d);
  }

  /** The Memories after a materialized revision. */
  function RevisedMemories(
    memories: map<MemoryId, Memory>, c: IntegrationCandidate, op: MemoryOperation, prior: Memory, ids: FreshIds):
    map<MemoryId, Memory>
  {
    if op.Replace? then
      memories[prior.id := prior.(status := MemoryStatus.Superseded)]
              [ids.memory := MemoryFrom(ReplacementCandidate(c, op, prior, ids), ids, Some(prior.id))]
    else memories[prior.id := prior.(status := MemoryStatus.Expired)]
  }

  lemma SameReviewsTransitive(s: State, t: State, u: State)
    requires SameReviews(s, t) && SameReviews(t, u)
    ensures SameReviews(s, u)
  {
  }

  /** The Memory candidates after a revision: that of the target follows it, and the new
      one says what the replacement says. */
  ghost predicate CandidatesLanded(
    s: State, t: State, c: IntegrationCandidate, op: MemoryOperation, prior: Memory, ids: FreshIds)
  {
    && t.memoryCandidates.Keys == s.memoryCandidates.Keys + (if op.Replace? then {ids.memoryCandidate} else {})
    && (forall k | k in s.memoryCandidates && !(op.Replace? && k == ids.memoryCandidate) ::
          t.memoryCandidates[k]
          == if k != prior.candidate then s.memoryCandidates[k]
             else s.memoryCandidates[k].(status := if op.Replace? then MemoryCandidateStatus.Superseded
                                                   else MemoryCandidateStatus.Expired))
    && (op.Replace? ==>
          && var mc := t.memoryCandidates[ids.memoryCandidate];
          && mc.id == ids.memoryCandidate && mc.kind == prior.kind && mc.content == Trim(op.replacement)
          && mc.subject == prior.subject && mc.status.Promoted? && mc.confidence == c.confidence
          && mc.sources == c.sources && mc.supersedes == Some(prior.candidate))
  }

  /** All a materialized revision changes. */
  ghost predicate Revised(
    s: State, t: State, c: IntegrationCandidate, op: MemoryOperation, prior: Memory,
    link: MemoryRevisionMaterialization, ids: FreshIds)
  {
    && t.memories == RevisedMemories(s.memories, c, op, prior, ids)
    && CandidatesLanded(s, t, c, op, prior, ids)
    && t.memoryRevisions == s.memoryRevisions[link.candidate := link]
    && t.candidates == s.candidates && t.verifications == s.verifications
  }

  lemma RevisedByLink(
    s: State, mid: State, t: State, c: IntegrationCandidate, op: MemoryOperation, prior: Memory,
    link: MemoryRevisionMaterialization, ids: FreshIds)
    requires SameReviews(s, mid) && LinkOnly(mid, t, link)
    requires mid.memories == RevisedMemories(s.memories, c, op, prior, ids) && CandidatesLanded(s, mid, c, op, prior, ids)
    ensures Revised(s, t, c, op, prior, link, ids)
  {
    hide RevisedMemories;
  }

  lemma ExpireBatchAccepted(
    env: Env, s: State, actor: PrincipalId, c: IntegrationCandidate, op: MemoryOperation, prior: Memory,
    expected: Event, verified: EventId, ids: FreshIds)
    requires Reviewed(env, s, c.id) && s.candidates[c.id] == c && c.kind == CandidateKind.MemoryRevision
    requires c.id !in s.memoryRevisions && ParseMemoryProposal(env, c.content) == Some(op) && op.Expire?
    requires RevisionSound(env, s, c, op, prior, expected)
    requires s.verifications[c.id].verificationEvent == Some(verified) && verified in s.applied
    requires FreshEvents(s, RevisionBatch(env, actor, c, op, prior,
               RevisionLink(c, s.verifications[c.id], op, prior, verified, expected.id, CanonicalHash(env, expected), ids), ids))
    ensures var batch := RevisionBatch(env, actor, c, op, prior,
               RevisionLink(c, s.verifications[c.id], op, prior, verified, expected.id, CanonicalHash(env, expected), ids), ids);
            var t := ApplyAll(env, s, batch);
            && (t.Some? <==> IsReviewer(s, actor))
            && (t.Some? ==> Revised(s, t.value, c, op, prior, batch[|batch| - 1].body.revision, ids))
  {
    hide Step, Sound, ParseMemoryProposal, Distinct;
    var link := RevisionLink(c, s.verifications[c.id], op, prior, verified, expected.id, CanonicalHash(env, expected), ids);
    var batch := RevisionBatch(env, actor, c, op, prior, link, ids);
    FreshPair(s, batch, 0, 1);
    MemoryStep(env, s, batch[0]);
    var t := Step(env, s, batch[0]).value;
    ExpireEffect(env, s, t, c, s.verifications[c.id], op, prior, expected, verified, ids);
    RevisionLinkAccepted(env, s, t, actor, c, op, prior, expected, ids, verified);
    ApplyTwo(env, s, batch[0], batch[1]);
    hide SameReviews;
    if Step(env, t, batch[1]).Some? {
      RevisedByLink(s, t, Step(env, t, batch[1]).value, c, op, prior, link, ids);
    }
  }

  lemma FreshPair(s: State, batch: seq<Event>, i: nat, j: nat)
    requires FreshEvents(s, batch) && i < j < |batch|
    ensures batch[i].id !in s.applied && batch[j].id !in s.applied && batch[i].id != batch[j].id
  {
    assert Ids(batch)[i] != Ids(batch)[j];
    assert batch[i] in batch && batch[j] in batch;
  }

  /** A Memory event only moves the status of its Memory's candidate, after the Memory's own. */
  lemma CandidateFollows(s: State, b: Body)
    requires b.MemoryEvent?
    ensures var next := NextMemoryCandidates(s, b);
            && next.Keys == s.memoryCandidates.Keys
            && forall k | k in next ::
                 next[k] == if k != b.memory.candidate then s.memoryCandidates[k]
                            else s.memoryCandidates[k].(
                                   status := if b.memory.status.Active? then MemoryCandidateStatus.Promoted
                                             else if b.memory.status.Superseded? then MemoryCandidateStatus.Superseded
                                             else MemoryCandidateStatus.Expired)
  {
  }

  /** A Memory candidate is recorded, then one Memory changes, then another one. */
  lemma ThreeMemorySteps(env: Env, s: State, a: Event, b: Event, c: Event)
    requires a.body.MemoryCandidateEvent? && b.body.MemoryEvent? && c.body.MemoryEvent?
    requires a.id !in s.applied && b.id !in s.applied && c.id !in s.applied
    requires a.id != b.id && a.id != c.id && b.id != c.id
    ensures Step(env, s, a).Some?
    ensures Step(env, Step(env, s, a).value, b).Some?
    ensures Step(env, Step(env, Step(env, s, a).value, b).value, c).Some?
    ensures var s1 := Step(env, s, a).value;
            var s2 := Step(env, s1, b).value;
            var t := Step(env, s2, c).value;
            && SameReviews(s, t)
            && t.applied == s.applied + [a.id, b.id, c.id]
            && t.memories == s.memories[b.body.memory.id := b.body.memory][c.body.memory.id := c.body.memory]
            && s1.memoryCandidates == s.memoryCandidates[a.body.memoryCandidate.id := a.body.memoryCandidate]
            && s2.memoryCandidates == NextMemoryCandidates(s1, b.body)
            && t.memoryCandidates == NextMemoryCandidates(s2, c.body)
  {
    MemoryStep(env, s, a);
    var s1 := Step(env, s, a).value;
    assert s1.memoryCandidates == s.memoryCandidates[a.body.memoryCandidate.id := a.body.memoryCandidate];
    hide Step, SameReviews, NextMemoryCandidates;
    MemoryStep(env, s1, b);
    var s2 := Step(env, s1, b).value;
    MemoryStep(env, s2, c);
    SameReviewsTransitive(s, s1, s2);
    SameReviewsTransitive(s, s2, Step(env, s2, c).value);
  }

  /** What these leave of the Memory candidates, when the target is superseded and the
      replacement is active. */
  lemma ReplacedCandidates(
    s: State, s1: State, s2: State, t: State, c: IntegrationCandidate, op: MemoryOperation, prior: Memory, mc: MemoryCandidate,
    b: Body, n: Body, ids: FreshIds)
    requires op.Replace? && mc == ReplacementCandidate(c, op, prior, ids)
    requires b.MemoryEvent? && b.memory.candidate == prior.candidate && b.memory.status.Superseded?
    requires n.MemoryEvent? && n.memory.candidate == mc.id && n.memory.status.Active?
    requires s1.memoryCandidates == s.memoryCandidates[mc.id := mc]
    requires s2.memoryCandidates == NextMemoryCandidates(s1, b) && t.memoryCandidates == NextMemoryCandidates(s2, n)
    ensures CandidatesLanded(s, t, c, op, prior, ids)
  {
    hide Trim, NextMemoryCandidates;
    CandidateFollows(s1, b);
    CandidateFollows(s2, n);
  }

  /** The three Memory events that come before the link of a replacement. */
  lemma ReplaceMemories(
    env: Env, s: State, actor: PrincipalId, c: IntegrationCandidate, op: MemoryOperation, prior: Memory,
    link: MemoryRevisionMaterialization, ids: FreshIds)
    requires op.Replace? && FreshEvents(s, RevisionBatch(env, actor, c, op, prior, link, ids))
    ensures var batch := RevisionBatch(env, actor, c, op, prior, link, ids);
            && Step(env, s, batch[0]).Some?
            && Step(env, Step(env, s, batch[0]).value, batch[1]).Some?
            && Step(env, Step(env, Step(env, s, batch[0]).value, batch[1]).value, batch[2]).Some?
            && (var t := Step(env, Step(env, Step(env, s, batch[0]).value, batch[1]).value, batch[2]).value;
                && SameReviews(s, t)
                && ids.linked !in t.applied
                && t.memories == RevisedMemories(s.memories, c, op, prior, ids)
                && CandidatesLanded(s, t, c, op, prior, ids))
  {
    hide Step, Trim, FreshEvents, SameReviews;
    var batch := RevisionBatch(env, actor, c, op, prior, link, ids);
    FreshPair(s, batch, 0, 1);
    FreshPair(s, batch, 0, 2);
    FreshPair(s, batch, 1, 2);
    FreshPair(s, batch, 0, 3);
    FreshPair(s, batch, 1, 3);
    FreshPair(s, batch, 2, 3);
    ThreeMemorySteps(env, s, batch[0], batch[1], batch[2]);
    var s1 := Step(env, s, batch[0]).value;
    var s2 := Step(env, s1, batch[1]).value;
    hide NextMemoryCandidates;
    ReplacedCandidates(s, s1, s2, Step(env, s2, batch[2]).value, c, op, prior, batch[0].body.memoryCandidate, batch[1].body,
                       batch[2].body, ids);
  }

  lemma ReplaceBatchAccepted(
    env: Env, s: State, actor: PrincipalId, c: IntegrationCandidate, op: MemoryOperation, prior: Memory,
    expected: Event, verified: EventId, ids: FreshIds)
    requires Reviewed(env, s, c.id) && s.candidates[c.id] == c && c.kind == CandidateKind.MemoryRevision
    requires c.id !in s.memoryRevisions && ParseMemoryProposal(env, c.content) == Some(op) && op.Replace?
    requires RevisionSound(env, s, c, op, prior, expected) && ids.memory !in s.memories
    requires s.verifications[c.id].verificationEvent == Some(verified) && verified in s.applied
    requires FreshEvents(s, RevisionBatch(env, actor, c, op, prior,
               RevisionLink(c, s.verifications[c.id], op, prior, verified, expected.id, CanonicalHash(env, expected), ids), ids))
    ensures var batch := RevisionBatch(env, actor, c, op, prior,
               RevisionLink(c, s.verifications[c.id], op, prior, verified, expected.id, CanonicalHash(env, expected), ids), ids);
            var t := ApplyAll(env, s, batch);
            && (t.Some? <==> IsReviewer(s, actor))
            && (t.Some? ==> Revised(s, t.value, c, op, prior, batch[|batch| - 1].body.revision, ids))
  {
    hide Step, Sound, ParseMemoryProposal, FreshEvents, Trim;
    var link := RevisionLink(c, s.verifications[c.id], op, prior, verified, expected.id, CanonicalHash(env, expected), ids);
    var batch := RevisionBatch(env, actor, c, op, prior, link, ids);
    ReplaceMemories(env, s, actor, c, op, prior, link, ids);
    var t := Step(env, Step(env, Step(env, s, batch[0]).value, batch[1]).value, batch[2]).value;
    ReplaceEffect(env, s, t, c, s.verifications[c.id], op, prior, expected, verified, ids);
    RevisionLinkAccepted(env, s, t, actor, c, op, prior, expected, ids, verified);
    ApplyFour(env, s, batch[0], batch[1], batch[2], batch[3]);
    hide RevisedMemories, CandidatesLanded;
    if Step(env, t, batch[3]).Some? {
      RevisedByLink(s, t, Step(env, t, batch[3]).value, c, op, prior, link, ids);
    }
  }

  /** A planned Memory revision and all it changes. */
  lemma RevisionEffect(
    env: Env, ledger: seq<Event>, s: State, id: CandidateId, actor: PrincipalId, ids: FreshIds)
    requires Current(env, ledger, s)
    requires id in s.candidates && s.candidates[id].kind == CandidateKind.MemoryRevision
    requires PlanLesson(env, ledger, s, id, actor, ids).Ok?
    requires FreshEvents(s, PlanLesson(env, ledger, s, id, actor, ids).value) && ids.memory !in s.memories
    ensures var t := ApplyAll(env, s, PlanLesson(env, ledger, s, id, actor, ids).value);
            var c := s.candidates[id];
            && (t.Some? <==> !IsModelActor(s, actor))
            && c.id == id && id in s.verifications && s.verifications[id].verificationEvent.Some?
            && ParseMemoryProposal(env, c.content).Some?
            && var op := ParseMemoryProposal(env, c.content).value;
            && op.target in s.memories
            && var prior := s.memories[op.target];
            && prior.id == op.target && prior.status.Active? && !prior.kind.ExplicitPreference?
            && (t.Some? ==>
                  Revised(s, t.value, c, op, prior,
                          RevisionLink(c, s.verifications[id], op, prior, s.verifications[id].verificationEvent.value,
                                       op.expectedEvent, op.expectedHash, ids), ids))
  {
    hide Step, CandidateError, Sound, MemoryRevisionPlan, ParseMemoryProposal, FreshEvents, LastVerified,
         RevisedMemories, CandidatesLanded;
    var c := s.candidates[id];
    CurrentFacts(env, ledger, s);
    assert c.id == id;
    PlanReviewed(env, ledger, s, id);
    var op := ParseMemoryProposal(env, c.content).value;
    RevisionPlanSound(env, ledger, s, c, op);
    var (prior, expected) := MemoryRevisionPlan(env, ledger, s, c, op).value;
    var verified := LastVerified(ledger, id).value;
    VerifiedApplied(env, ledger, s, id);
    RevisionBatchLast(env, actor, c, op, prior,
                      RevisionLink(c, s.verifications[id], op, prior, verified, expected.id, CanonicalHash(env, expected), ids),
                      ids);
    hide RevisionBatch;
    if op.Replace? {
      ReplaceBatchAccepted(env, s, actor, c, op, prior, expected, verified, ids);
    } else {
      ExpireBatchAccepted(env, s, actor, c, op, prior, expected, verified, ids);
    }
  }

  lemma RevisionBatchLast(
    env: Env, actor: PrincipalId, c: IntegrationCandidate, op: MemoryOperation, prior: Memory,
    link: MemoryRevisionMaterialization, ids: FreshIds)
    ensures var batch := RevisionBatch(env, actor, c, op, prior, link, ids);
            batch != [] && batch[|batch| - 1].body == MemoryRevisionMaterialized(link)
  {
  }

  /** A revision as it is stored, for the operation its candidate proposes: the target
      has lost its active status and nothing else, and a replacement has the proposed
      text, the candidate's confidence and sources, and the target's kind and subject. */
  ghost predicate RevisionLanded(env: Env, s: State, t: State, id: CandidateId, ids: FreshIds)
    requires id in s.candidates && id in s.verifications
  {
    var c, v := s.candidates[id], s.verifications[id];
    && ParseMemoryProposal(env, c.content).Some?
    && var op := ParseMemoryProposal(env, c.content).value;
    && op.target in s.memories
    && var prior := s.memories[op.target];
    && prior.status.Active? && !prior.kind.ExplicitPreference?
    && t.memories.Keys == s.memories.Keys + (if op.Replace? then {ids.memory} else {})
    && t.memories[op.target] == prior.(status := if op.Replace? then MemoryStatus.Superseded else MemoryStatus.Expired)
    && (forall k | k in s.memories && k != op.target :: t.memories[k] == s.memories[k])
    && (op.Replace? ==>
          && var m := t.memories[ids.memory];
          && m.id == ids.memory && m.candidate == ids.memoryCandidate
          && m.kind == prior.kind && m.content == Trim(op.replacement) && m.subject == prior.subject
          && m.status.Active? && m.confidence == c.confidence && m.sources == c.sources
          && m.supersedes == Some(op.target))
    && CandidatesLanded(s, t, c, op, prior, ids)
    && id in t.memoryRevisions
    && var link := t.memoryRevisions[id];
    && link.candidate == id && v.verificationEvent == Some(link.verificationEvent) && link.target == op.target
    && link.replacement == (if op.Replace? then Some(ids.memory) else None)
    && link.expectedEvent == op.expectedEvent && link.expectedHash == op.expectedHash
    && (link.action.Replace? <==> op.Replace?)
    && link.sources == c.sources && link.counter == c.counter && link.evidence == v.evidence
    && link.fingerprint == c.fingerprint && link.asOf == c.asOf
    && t.memoryRevisions == s.memoryRevisions[id := link]
    && t.candidates == s.candidates && t.verifications == s.verifications
  }

  lemma RevisedLands(env: Env, s: State, t: State, id: CandidateId, ids: FreshIds)
    requires id in s.candidates && id in s.verifications && s.verifications[id].verificationEvent.Some?
    requires ParseMemoryProposal(env, s.candidates[id].content).Some? && s.candidates[id].id == id
    requires ids.memory !in s.memories
    requires var c := s.candidates[id];
             var op := ParseMemoryProposal(env, c.content).value;
             && op.target in s.memories
             && var prior := s.memories[op.target];
             && prior.id == op.target && prior.status.Active? && !prior.kind.ExplicitPreference?
             && Revised(s, t, c, op, prior,
                        RevisionLink(c, s.verifications[id], op, prior, s.verifications[id].verificationEvent.value,
                                     op.expectedEvent, op.expectedHash, ids), ids)
    ensures RevisionLanded(env, s, t, id, ids)
  {
    hide ParseMemoryProposal, Trim;
  }

  /** A planned Memory revision is accepted exactly when its actor is not the
      model; the plan itself does not check that. What it stores is what its candidate
      proposes, and no other Memory changes. */
  lemma PlannedRevisionAccepted(
    env: Env, ledger: seq<Event>, s: State, id: CandidateId, actor: PrincipalId, ids: FreshIds)
    requires Current(env, ledger, s)
    requires id in s.candidates && s.candidates[id].kind == CandidateKind.MemoryRevision
    requires PlanLesson(env, ledger, s, id, actor, ids).Ok?
    requires FreshEvents(s, PlanLesson(env, ledger, s, id, actor, ids).value) && ids.memory !in s.memories
    ensures var t := ApplyAll(env, s, PlanLesson(env, ledger, s, id, actor, ids).value);
            && (t.Some? <==> !IsModelActor(s, actor))
            && id in s.verifications
            && (t.Some? ==> RevisionLanded(env, s, t.value, id, ids))
  {
    hide Step, PlanLesson, ParseMemoryProposal, FreshEvents, Revised, RevisionLanded;
    RevisionEffect(env, ledger, s, id, actor, ids);
    var t := ApplyAll(env, s, PlanLesson(env, ledger, s, id, actor, ids).value);
    if t.Some? { RevisedLands(env, s, t.value, id, ids); }
  }

  lemma {:induction false} LastVerifiedIn(ledger: seq<Event>, id: CandidateId)
    requires LastVerified(ledger, id).Some?
    ensures LastVerified(ledger, id).value in Ids(ledger)
  {
    var e := ledger[|ledger| - 1];
    assert Ids(ledger)[|ledger| - 1] == e.id;
    if !IsVerifiedEventOf(e, id) {
      LastVerifiedIn(ledger[..|ledger| - 1], id);
      var k :| 0 <= k < |ledger| - 1 && Ids(ledger[..|ledger| - 1])[k] == LastVerified(ledger, id).value;
      assert Ids(ledger)[k] == LastVerified(ledger, id).value;
    }
  }

  lemma VerifiedApplied(env: Env, ledger: seq<Event>, s: State, id: CandidateId)
    requires Current(env, ledger, s) && LastVerified(ledger, id).Some?
    ensures LastVerified(ledger, id).value in s.applied
  {
    hide Step;
    CurrentFacts(env, ledger, s);
    LastVerifiedIn(ledger, id);
  }

  // ---------------------------------------------------------------- Positions

  /** What a plan guarantees about the Position and the link it builds, whatever
      the proposal was; only the confidence is left open. */
  ghost predicate PositionSound(
    env: Env, s: State, c: IntegrationCandidate, hekate: PrincipalId, plan: PlannedPosition, m: PositionMaterialization)
  {
    && plan.position.principal == hekate
    && PositionMatchesProposal(env, c, plan.position, m)
    && PositionActionOk(s, EventKindOf(plan.action), plan.position, m)
    && !PositionIntegrationBlocked(env, s, plan.position.principal, plan.position.subject, TargetOf(m))
    && ValidPositionRevision(s, plan.position)
    && (!m.action.Withdraw? ==> plan.position.evidence == c.sources)
    && (m.action.Withdraw? ==> forall id | id in c.sources :: id in plan.position.evidence)
  }

  predicate LinkOf(c: IntegrationCandidate, plan: PlannedPosition, m: PositionMaterialization) {
    m.action == plan.action && m.prior == plan.prior && m.sources == c.sources
  }

  lemma EstablishSound(
    env: Env, ledger: seq<Event>, s: State, c: IntegrationCandidate, hekate: PrincipalId, op: PositionOperation,
    id: PositionId, m: PositionMaterialization)
    requires op.Establish? && ParsePositionProposal(env, c.content) == Some(op)
    requires PositionPlan(env, ledger, s, c, hekate, op, id).Ok?
    requires LinkOf(c, PositionPlan(env, ledger, s, c, hekate, op, id).value, m)
    ensures PositionSound(env, s, c, hekate, PositionPlan(env, ledger, s, c, hekate, op, id).value, m)
    ensures PositionPlan(env, ledger, s, c, hekate, op, id).value.position.confidence == c.confidence
  {
    hide Replay, PositionIntegrationBlocked, ParsePositionProposal;
  }

  lemma ReviseSound(
    env: Env, ledger: seq<Event>, s: State, c: IntegrationCandidate, hekate: PrincipalId, op: PositionOperation,
    id: PositionId, m: PositionMaterialization)
    requires KeysOk(s)
    requires op.Revise? && ParsePositionProposal(env, c.content) == Some(op)
    requires PositionPlan(env, ledger, s, c, hekate, op, id).Ok?
    requires LinkOf(c, PositionPlan(env, ledger, s, c, hekate, op, id).value, m)
    ensures PositionSound(env, s, c, hekate, PositionPlan(env, ledger, s, c, hekate, op, id).value, m)
    ensures PositionPlan(env, ledger, s, c, hekate, op, id).value.position.confidence == c.confidence
  {
    hide Replay, PositionIntegrationBlocked, ParsePositionProposal;
  }

  lemma WithdrawSound(
    env: Env, ledger: seq<Event>, s: State, c: IntegrationCandidate, hekate: PrincipalId, op: PositionOperation,
    id: PositionId, m: PositionMaterialization)
    requires KeysOk(s)
    requires op.Withdraw? && ParsePositionProposal(env, c.content) == Some(op)
    requires PositionPlan(env, ledger, s, c, hekate, op, id).Ok?
    requires LinkOf(c, PositionPlan(env, ledger, s, c, hekate, op, id).value, m)
    ensures var plan := PositionPlan(env, ledger, s, c, hekate, op, id).value;
            && PositionSound(env, s, c, hekate, plan, m)
            && plan.prior.Some? && plan.position.confidence == plan.prior.value.confidence
  {
    hide Replay, PositionIntegrationBlocked, ParsePositionProposal, DedupIds;
    var plan := PositionPlan(env, ledger, s, c, hekate, op, id).value;
    DedupIdsSet(plan.prior.value.evidence + c.sources);
  }

  lemma PlanSound(
    env: Env, ledger: seq<Event>, s: State, c: IntegrationCandidate, hekate: PrincipalId, op: PositionOperation,
    id: PositionId, m: PositionMaterialization)
    requires KeysOk(s) && ParsePositionProposal(env, c.content) == Some(op)
    requires PositionPlan(env, ledger, s, c, hekate, op, id).Ok?
    requires LinkOf(c, PositionPlan(env, ledger, s, c, hekate, op, id).value, m)
    ensures var plan := PositionPlan(env, ledger, s, c, hekate, op, id).value;
            && PositionSound(env, s, c, hekate, plan, m)
            && plan.position.confidence == if plan.action.Withdraw? && plan.prior.Some?
                                           then plan.prior.value.confidence else c.confidence
  {
    hide Replay, PositionIntegrationBlocked, ParsePositionProposal, PositionSound;
    match op
    case Establish(_, _, _, _) => EstablishSound(env, ledger, s, c, hekate, op, id, m);
    case Revise(_, _, _, _, _) => ReviseSound(env, ledger, s, c, hekate, op, id, m);
    case Withdraw(_, _, _) => WithdrawSound(env, ledger, s, c, hekate, op, id, m);
  }

  /** The texts as they are kept: without the white space at their ends. */
  ghost predicate Trimmed(given: seq<string>, kept: seq<string>) {
    |kept| == |given| && forall i | 0 <= i < |given| :: kept[i] == Trim(given[i])
  }

  /** HEKATE's active Position with the candidate's confidence and sources. */
  ghost predicate Taken(
    c: IntegrationCandidate, hekate: PrincipalId, p: Position, stance: Stance, reasons: seq<string>,
    reconsideration: seq<string>)
  {
    && p.principal == hekate && p.status.Active? && p.confidence == c.confidence && p.evidence == c.sources
    && p.stance == stance && Trimmed(reasons, p.reasons) && Trimmed(reconsideration, p.reconsideration)
  }

  /** The Position a proposal starts from: HEKATE's, active, at the expected version. */
  ghost predicate StartsFrom(s: State, hekate: PrincipalId, target: PositionId, version: nat) {
    && target in s.positions
    && var prior := s.positions[target];
    prior.id == target && prior.principal == hekate && prior.status.Active? && prior.version == version
  }

  /** What the proposal of a candidate makes of the Positions, by its operation: a new
      one, the next version of one that is superseded by it, or one that is retracted
      for a further reason and on further evidence. No other Position changes. */
  ghost predicate PositionLanded(
    env: Env, s: State, c: IntegrationCandidate, hekate: PrincipalId, newPosition: PositionId,
    after: map<PositionId, Position>)
  {
    ParsePositionProposal(env, c.content).Some? &&
    match ParsePositionProposal(env, c.content).value
    case Establish(subject, stance, reasons, reconsideration) =>
      && newPosition in after && after == s.positions[newPosition := after[newPosition]]
      && var p := after[newPosition];
      && Taken(c, hekate, p, stance, reasons, reconsideration)
      && p.id == newPosition && p.version == 1 && p.subject == Trim(subject) && p.supersedes.None?
    case Revise(target, version, stance, reasons, reconsideration) =>
      && StartsFrom(s, hekate, target, version)
      && newPosition != target && newPosition in after
      && after == s.positions[target := s.positions[target].(status := PositionStatus.Superseded)]
                             [newPosition := after[newPosition]]
      && var p := after[newPosition];
      && Taken(c, hekate, p, stance, reasons, reconsideration)
      && p.id == newPosition && p.version == version + 1 && p.subject == s.positions[target].subject
      && p.supersedes == Some(target)
    case Withdraw(target, version, reason) =>
      && StartsFrom(s, hekate, target, version)
      && target in after && after == s.positions[target := after[target]]
      && var prior, p := s.positions[target], after[target];
      && p == prior.(status := PositionStatus.Retracted, reasons := prior.reasons + [Trim(reason)], evidence := p.evidence)
      && Sorted(NatLt, p.evidence)
      && forall e :: e in p.evidence <==> e in prior.evidence || e in c.sources
  }

  /** The candidate's materialization: what it names, and what it rests on. */
  ghost predicate PositionLinked(
    env: Env, s: State, t: State, id: CandidateId, newPosition: PositionId, event: EventId)
    requires id in s.candidates && id in s.verifications
  {
    && id in t.positionMaterializations
    && t.positionMaterializations == s.positionMaterializations[id := t.positionMaterializations[id]]
    && var c, m := s.candidates[id], t.positionMaterializations[id];
    && m.candidate == id && m.positionEvent == event
    && s.verifications[id].verificationEvent == Some(m.verificationEvent)
    && m.sources == c.sources && m.counter == c.counter && m.evidence == s.verifications[id].evidence
    && m.fingerprint == c.fingerprint && m.asOf == c.asOf
    && ParsePositionProposal(env, c.content).Some?
    && match ParsePositionProposal(env, c.content).value
       case Establish(_, _, _, _) => m.action.Establish? && m.position == newPosition && m.prior.None?
       case Revise(target, _, _, _, _) =>
         target in s.positions && m.action.Revise? && m.position == newPosition && m.prior == Some(s.positions[target])
       case Withdraw(target, _, _) =>
         target in s.positions && m.action.Withdraw? && m.position == target && m.prior == Some(s.positions[target])
  }

  /** What storing a planned Position makes of the others. */
  lemma PlanLands(
    env: Env, ledger: seq<Event>, s: State, c: IntegrationCandidate, hekate: PrincipalId, op: PositionOperation,
    id: PositionId, m: PositionMaterialization)
    requires KeysOk(s) && ParsePositionProposal(env, c.content) == Some(op)
    requires PositionPlan(env, ledger, s, c, hekate, op, id).Ok?
    requires LinkOf(c, PositionPlan(env, ledger, s, c, hekate, op, id).value, m)
    requires PositionSound(env, s, c, hekate, PositionPlan(env, ledger, s, c, hekate, op, id).value, m)
    ensures PositionLanded(env, s, c, hekate, id,
                           StoreIntegratedPosition(s, PositionPlan(env, ledger, s, c, hekate, op, id).value.position, m))
  {
    hide Replay, PositionIntegrationBlocked, ParsePositionProposal, DedupIds, PositionMatchesProposal, ValidPositionRevision;
    var plan := PositionPlan(env, ledger, s, c, hekate, op, id).value;
    if op.Withdraw? { DedupIdsSet(plan.prior.value.evidence + c.sources); }
  }

  /** The link a planned Position carries. */
  lemma PlanLinks(
    env: Env, ledger: seq<Event>, s: State, c: IntegrationCandidate, hekate: PrincipalId, op: PositionOperation,
    id: PositionId)
    requires KeysOk(s) && PositionPlan(env, ledger, s, c, hekate, op, id).Ok?
    ensures var plan := PositionPlan(env, ledger, s, c, hekate, op, id).value;
            match op
            case Establish(_, _, _, _) => plan.action.Establish? && plan.position.id == id && plan.prior.None?
            case Revise(target, _, _, _, _) =>
              target in s.positions && plan.action.Revise? && plan.position.id == id && plan.prior == Some(s.positions[target])
            case Withdraw(target, _, _) =>
              target in s.positions && plan.action.Withdraw? && plan.position.id == target
              && plan.prior == Some(s.positions[target])
  {
    hide Replay, PositionIntegrationBlocked, DedupIds, ValidPositionRevision;
  }

  lemma PlanAuthor(
    env: Env, ledger: seq<Event>, s: State, c: IntegrationCandidate, hekate: PrincipalId, op: PositionOperation,
    id: PositionId)
    requires Current(env, ledger, s) && PrincipalsOnce(ledger)
    requires PositionPlan(env, ledger, s, c, hekate, op, id).Ok?
    ensures IsModelActor(s, hekate)
  {
    hide Step, PriorPosition, PriorError, ValidPositionRevision, PositionIntegrationBlocked;
    PrincipalPersists(env, ledger, c.asOf, hekate);
  }

  lemma PositionLinkStep(
    env: Env, s: State, id: CandidateId, hekate: PrincipalId, actor: PrincipalId, plan: PlannedPosition,
    verified: EventId, event: EventId)
    requires event !in s.applied && IsReviewer(s, actor) && IsModelActor(s, hekate)
    requires Reviewed(env, s, id) && id !in s.positionMaterializations
    requires s.candidates[id].kind == CandidateKind.Position
    requires s.verifications[id].verificationEvent == Some(verified) && verified in s.applied
    requires PositionSound(env, s, s.candidates[id], hekate, plan,
                           PositionLink(id, s.candidates[id], s.verifications[id], plan, verified, event))
    ensures var m := PositionLink(id, s.candidates[id], s.verifications[id], plan, verified, event);
            var e := IntegratedPositionEvent(env, actor, id, plan, m);
            && (Step(env, s, e).Some? <==> plan.position.confidence == s.candidates[id].confidence)
            && (Step(env, s, e).Some? ==>
                  Step(env, s, e).value.positions == StoreIntegratedPosition(s, plan.position, m)
                  && Step(env, s, e).value.positionMaterializations == s.positionMaterializations[id := m])
  {
    hide PositionMatchesProposal, PositionActionOk, PositionIntegrationBlocked, ValidPositionRevision,
         FingerprintMatches, IntegrationEvidenceValid, StoreIntegratedPosition, Normalize;
    var c, v := s.candidates[id], s.verifications[id];
    var m := PositionLink(id, c, v, plan, verified, event);
    var e := IntegratedPositionEvent(env, actor, id, plan, m);
    assert PositionProvenanceOk(env, s, m) by {
      assert forall x | x in c.sources + c.counter :: x in s.applied;
    }
    assert PositionEnvelopeOk(e, plan.position, m);
    assert PositionIntegrationAccepted(env, s, e, EventKindOf(plan.action), plan.position, m)
           <==> plan.position.confidence == c.confidence;
  }

  /** A planned Position event is accepted exactly when the Position keeps the
      candidate's confidence. Establishing and revising always do; a withdrawal
      keeps the confidence of the Position it withdraws, so it is accepted exactly
      when that is the candidate's. Accepted, it makes of the Positions what the
      proposal says, and links it. */
  lemma PlannedPositionAccepted(
    env: Env, ledger: seq<Event>, s: State, id: CandidateId, hekate: PrincipalId, actor: PrincipalId,
    newPosition: PositionId, event: EventId)
    requires Current(env, ledger, s) && PrincipalsOnce(ledger) && event !in s.applied
    requires PlanPosition(env, ledger, s, id, hekate, actor, newPosition, event).Ok?
    ensures var e := PlanPosition(env, ledger, s, id, hekate, actor, newPosition, event).value;
            && e.body.PositionEvent? && e.body.integration.Some?
            && var m := e.body.integration.value;
            && (m.action.Withdraw? ==> m.prior.Some? && m.prior.value.id in s.positions)
            && (Step(env, s, e).Some?
                <==> (m.action.Withdraw? ==> s.positions[m.prior.value.id].confidence == s.candidates[id].confidence))
            && id in s.candidates && id in s.verifications
            && (Step(env, s, e).Some? ==>
                  && PositionLanded(env, s, s.candidates[id], hekate, newPosition, Step(env, s, e).value.positions)
                  && PositionLinked(env, s, Step(env, s, e).value, id, newPosition, event))
  {
    hide Step, CandidateError, PositionPlan, PositionSound, ParsePositionProposal, LastVerified, Sound, PositionLanded,
         StoreIntegratedPosition;
    var c := s.candidates[id];
    CurrentFacts(env, ledger, s);
    PlanReviewed(env, ledger, s, id);
    VerifiedApplied(env, ledger, s, id);
    var v, op := s.verifications[id], ParsePositionProposal(env, c.content).value;
    var plan := PositionPlan(env, ledger, s, c, hekate, op, newPosition).value;
    var verified := LastVerified(ledger, id).value;
    var m := PositionLink(id, c, v, plan, verified, event);
    PlanSound(env, ledger, s, c, hekate, op, newPosition, m);
    PlanLands(env, ledger, s, c, hekate, op, newPosition, m);
    PlanLinks(env, ledger, s, c, hekate, op, newPosition);
    PlanAuthor(env, ledger, s, c, hekate, op, newPosition);
    PositionLinkStep(env, s, id, hekate, actor, plan, verified, event);
    WithdrawTarget(env, s, c, hekate, plan, m);
  }

  /** The same, in terms of the planned Position itself. */
  lemma PlannedPositionConfidence(
    env: Env, ledger: seq<Event>, s: State, id: CandidateId, hekate: PrincipalId, actor: PrincipalId,
    newPosition: PositionId, event: EventId)
    requires Current(env, ledger, s) && PrincipalsOnce(ledger) && event !in s.applied
    requires PlanPosition(env, ledger, s, id, hekate, actor, newPosition, event).Ok?
    ensures var e := PlanPosition(env, ledger, s, id, hekate, actor, newPosition, event).value;
            && id in s.candidates && e.body.PositionEvent? && e.body.integration.Some?
            && (Step(env, s, e).Some? <==> e.body.position.confidence == s.candidates[id].confidence)
  {
    hide Step, CandidateError, PositionPlan, PositionSound, ParsePositionProposal, LastVerified, Sound;
    var c := s.candidates[id];
    CurrentFacts(env, ledger, s);
    PlanReviewed(env, ledger, s, id);
    VerifiedApplied(env, ledger, s, id);
    var v, op := s.verifications[id], ParsePositionProposal(env, c.content).value;
    var plan := PositionPlan(env, ledger, s, c, hekate, op, newPosition).value;
    var verified := LastVerified(ledger, id).value;
    PlanSound(env, ledger, s, c, hekate, op, newPosition, PositionLink(id, c, v, plan, verified, event));
    PlanAuthor(env, ledger, s, c, hekate, op, newPosition);
    PositionLinkStep(env, s, id, hekate, actor, plan, verified, event);
  }

  lemma WithdrawTarget(
    env: Env, s: State, c: IntegrationCandidate, hekate: PrincipalId, plan: PlannedPosition, m: PositionMaterialization)
    requires PositionSound(env, s, c, hekate, plan, m)
    ensures m.action.Withdraw? ==>
              m.prior.Some? && m.prior.value.id in s.positions && s.positions[m.prior.value.id] == m.prior.value
  {
  }
}
