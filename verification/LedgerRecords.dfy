/** What every accepted ledger guarantees about the candidates, claims and criteria it
    holds, whoever wrote its events. */
module LedgerRecords {
  import opened Prelude
  import opened Ordering
  import opened Model
  import opened Evidence
  import opened Transition
  import opened Projector

  // ---------------------------------------------------------------- integration candidates

  /** The event was applied, as one of the first `limit`. */
  ghost predicate AppliedBy(s: State, id: EventId, limit: nat) {
    exists n: nat :: n < |s.applied| && n < limit && s.applied[n] == id
  }

  /** The candidate has its texts, its sources and its bounds, is from the revision of its
      run, and keeps its fingerprint. */
  ghost predicate CandidateKept(env: Env, s: State, c: IntegrationCandidate) {
    && !AllWhitespace(c.content) && !AllWhitespace(c.rationale)
    && 0 < |c.sources| <= MAX_CANDIDATE_SOURCES && |c.counter| <= MAX_CANDIDATE_SOURCES && c.confidence <= 100
    && (forall id | id in c.sources :: id in s.applied && id !in c.counter)
    && (forall id | id in c.counter :: id in s.applied)
    && c.run in s.sleepRuns && s.sleepRuns[c.run].highWater == c.asOf <= s.revision
    && FingerprintMatches(env, c)
  }

  /** A candidate that was reviewed has a record of the review, with a reason and with
      evidence that it cites and that was there by then. */
  ghost predicate ReviewKept(s: State, id: CandidateId)
    requires id in s.candidates
  {
    var c := s.candidates[id];
    !c.disposition.NeedsValidation? ==>
      && id in s.verifications
      && var v := s.verifications[id];
      && v.disposition == c.disposition && v.asOf == c.asOf && !AllWhitespace(v.reason) && v.evidence != []
      && forall r | r in v.evidence ::
           && ValidSha256Hex(r.sourceHash) && r.asOf <= v.asOf
           && (r.event in c.sources || r.event in c.counter) && AppliedBy(s, r.event, r.asOf)
  }

  /** No two candidates propose the same. */
  ghost predicate Unlike(candidates: map<CandidateId, IntegrationCandidate>) {
    forall i, j | i in candidates && j in candidates && i != j :: candidates[i].fingerprint != candidates[j].fingerprint
  }

  ghost predicate CandidatesKept(env: Env, s: State) {
    && (forall id | id in s.candidates :: CandidateKept(env, s, s.candidates[id]) && ReviewKept(s, id))
    && Unlike(s.candidates)
  }

  lemma UnlikeMore(candidates: map<CandidateId, IntegrationCandidate>, c: IntegrationCandidate)
    requires Unlike(candidates) && forall id | id in candidates :: candidates[id].fingerprint != c.fingerprint
    ensures Unlike(candidates[c.id := c])
  {
  }

  lemma UnlikeStays(candidates: map<CandidateId, IntegrationCandidate>, id: CandidateId, d: Disposition)
    requires Unlike(candidates) && id in candidates
    ensures Unlike(candidates[id := candidates[id].(disposition := d)])
  {
    var more := candidates[id := candidates[id].(disposition := d)];
    forall i, j | i in more && j in more && i != j ensures more[i].fingerprint != more[j].fingerprint {
      assert more[i].fingerprint == candidates[i].fingerprint && more[j].fingerprint == candidates[j].fingerprint;
    }
  }

  // ---------------------------------------------------------------- criteria and claims

  ghost predicate CriteriaKept(env: Env, s: State) {
    && (forall k | k in s.criteria ::
          !AllWhitespace(s.criteria[k].description) && s.criteria[k].task in s.tasks && s.criteria[k].id == k)
    && (forall i, j | i in s.criteria && j in s.criteria && i != j && s.criteria[i].task == s.criteria[j].task ::
          env.normalize(s.criteria[i].description) != env.normalize(s.criteria[j].description))
  }

  /** The claim is about a criterion of its task, on evidence that was there by then, and
      keeps its fingerprint; a verified one has evidence and no blocker. */
  ghost predicate ClaimKept(env: Env, s: State, c: Claim) {
    && c.task in s.tasks && c.criterion in s.criteria && s.criteria[c.criterion].task == c.task
    && c.confidence <= 100 && c.asOf <= s.revision
    && (forall r | r in c.evidence :: ValidSha256Hex(r.sourceHash) && r.asOf <= c.asOf && AppliedBy(s, r.event, c.asOf))
    && c.fingerprint == CompletionFingerprint(env, c.task, c.criterion, c.evidence)
    && (c.supersedes.Some? ==>
          && c.supersedes.value in s.claims
          && s.claims[c.supersedes.value].task == c.task && s.claims[c.supersedes.value].criterion == c.criterion)
    && (c.disposition.Verified? ==> c.evidence != [] && (c.blocker.Some? ==> AllWhitespace(c.blocker.value)))
  }

  ghost predicate ClaimsKept(env: Env, s: State) {
    (forall id | id in s.claims :: ClaimKept(env, s, s.claims[id])) && Apart(s.claims)
  }

  // ---------------------------------------------------------------- candidates, step by step

  lemma SequenceMeaning(s: State, id: EventId, limit: nat)
    ensures (SequenceOf(s, id).Some? && SequenceOf(s, id).value <= limit) ==> AppliedBy(s, id, limit)
  {
  }

  lemma AppliedLater(s: State, t: State, id: EventId, limit: nat)
    requires AppliedBy(s, id, limit) && s.applied <= t.applied
    ensures AppliedBy(t, id, limit)
  {
    var n: nat :| n < |s.applied| && n < limit && s.applied[n] == id;
    assert t.applied[n] == id;
  }

  /** Everything a candidate depends on is still there. */
  ghost predicate Later(s: State, t: State) {
    && s.applied <= t.applied && s.revision <= t.revision
    && forall r | r in s.sleepRuns :: r in t.sleepRuns && t.sleepRuns[r].highWater == s.sleepRuns[r].highWater
  }

  lemma StepLater(env: Env, s: State, e: Event)
    requires Step(env, s, e).Some?
    ensures Later(s, Step(env, s, e).value)
  {
    StepParts(env, s, e);
    hide Step, After;
    SleepGuards(env, s, e);
    hide BodyAccepted;
  }

  lemma SleepGuards(env: Env, s: State, e: Event)
    requires BodyAccepted(env, s, e)
    ensures e.body.SleepRunEvent? && e.body.run.id in s.sleepRuns ==>
              e.body.run.highWater == s.sleepRuns[e.body.run.id].highWater
  {
  }

  lemma CandidateLater(env: Env, s: State, t: State, c: IntegrationCandidate, d: Disposition)
    requires CandidateKept(env, s, c) && Later(s, t)
    ensures CandidateKept(env, t, c.(disposition := d))
  {
    hide FingerprintMatches;
    assert FingerprintMatches(env, c.(disposition := d)) by { SameFingerprint(env, c, d); }
  }

  lemma SameFingerprint(env: Env, c: IntegrationCandidate, d: Disposition)
    ensures FingerprintMatches(env, c.(disposition := d)) <==> FingerprintMatches(env, c)
  {
  }

  lemma ReviewLater(s: State, t: State, id: CandidateId)
    requires id in s.candidates && ReviewKept(s, id) && Later(s, t)
    requires id in t.candidates && t.candidates[id] == s.candidates[id]
    requires id in s.verifications ==> id in t.verifications && t.verifications[id] == s.verifications[id]
    ensures ReviewKept(t, id)
  {
    hide AppliedBy, ValidSha256Hex;
    var c := s.candidates[id];
    if !c.disposition.NeedsValidation? {
      forall r | r in s.verifications[id].evidence ensures AppliedBy(t, r.event, r.asOf) {
        AppliedLater(s, t, r.event, r.asOf);
      }
    }
  }

  /** The guards of a new candidate. */
  lemma NewCandidate(env: Env, s: State, c: IntegrationCandidate, present: bool)
    requires CandidateAccepted(env, s, c, present)
    requires forall r | r in s.sleepRuns :: s.sleepRuns[r].highWater <= s.revision
    ensures var kept := EffectiveCandidate(s, c, present);
            && CandidateKept(env, s, kept) && kept.disposition.NeedsValidation? && kept.id == c.id
            && forall id | id in s.candidates :: s.candidates[id].fingerprint != kept.fingerprint
  {
    BlankMeaning(c.content);
    BlankMeaning(c.rationale);
    hide Blank, IsWhitespace, SortIds, Trim;
  }

  /** The guards of a review. */
  lemma NewReview(env: Env, s: State, e: Event, v: IntegrationVerification, expected: Disposition)
    requires CandidateTransitionAccepted(env, s, e, v, expected)
    ensures v.candidate in s.candidates
    ensures var c, kept := s.candidates[v.candidate], StoredVerification(e, v);
            && kept.disposition == expected && kept.asOf == c.asOf && !AllWhitespace(kept.reason) && kept.evidence != []
            && forall r | r in kept.evidence ::
                 && ValidSha256Hex(r.sourceHash) && r.asOf <= kept.asOf
                 && (r.event in c.sources || r.event in c.counter) && AppliedBy(s, r.event, r.asOf)
  {
    TrimIdempotent(v.reason);
    BlankMeaning(Trim(v.reason));
    hide ProposalParses, FingerprintMatches, Normalize, ValidSha256Hex, AppliedBy, SequenceOf, ArtifactMatches, Trim,
         IsWhitespace;
    var c := s.candidates[v.candidate];
    forall r | r in Normalize(v.evidence) ensures AppliedBy(s, r.event, r.asOf) {
      assert IntegrationEvidenceOk(s, c, r, v.asOf);
      SequenceMeaning(s, r.event, r.asOf);
    }
  }

  lemma CandidateCreatedKeeps(env: Env, s: State, e: Event)
    requires CandidatesKept(env, s) && Step(env, s, e).Some? && e.body.CandidateCreated?
    requires forall r | r in s.sleepRuns :: s.sleepRuns[r].highWater <= s.revision
    ensures CandidatesKept(env, Step(env, s, e).value)
  {
    hide Step, BodyAccepted, CandidateAccepted, EffectiveCandidate, CandidatesKept, CandidateKept, ReviewKept, Later;
    StepParts(env, s, e);
    StepLater(env, s, e);
    CreatedGuards(env, s, e);
    NewCandidate(env, s, e.body.candidate, e.body.asOfPresent);
    OneMoreCandidate(env, s, Step(env, s, e).value,
                     EffectiveCandidate(s, e.body.candidate, e.body.asOfPresent));
  }

  lemma OneMoreCandidate(env: Env, s: State, t: State, c: IntegrationCandidate)
    requires CandidatesKept(env, s) && Later(s, t) && CandidateKept(env, s, c) && c.disposition.NeedsValidation?
    requires t.candidates == s.candidates[c.id := c] && t.verifications == s.verifications
    requires forall id | id in s.candidates :: s.candidates[id].fingerprint != c.fingerprint
    ensures CandidatesKept(env, t)
  {
    hide CandidateKept, ReviewKept, Later, Unlike;
    UnlikeMore(s.candidates, c);
    forall id | id in t.candidates ensures CandidateKept(env, t, t.candidates[id]) && ReviewKept(t, id) {
      if id == c.id {
        CandidateLater(env, s, t, c, c.disposition);
        Unreviewed(t, id);
      } else {
        CandidateLater(env, s, t, s.candidates[id], s.candidates[id].disposition);
        ReviewLater(s, t, id);
      }
    }
  }

  lemma CreatedGuards(env: Env, s: State, e: Event)
    requires Step(env, s, e).Some? && e.body.CandidateCreated?
    ensures CandidateAccepted(env, s, e.body.candidate, e.body.asOfPresent)
  {
    hide CandidateAccepted;
  }

  lemma Unreviewed(s: State, id: CandidateId)
    requires id in s.candidates && s.candidates[id].disposition.NeedsValidation?
    ensures ReviewKept(s, id)
  {
  }

  lemma ReviewedGuards(env: Env, s: State, e: Event)
    requires Step(env, s, e).Some?
    ensures e.body.CandidateVerified? ==> CandidateTransitionAccepted(env, s, e, e.body.accepted, Disposition.Verified)
    ensures e.body.CandidateRejected? ==> CandidateTransitionAccepted(env, s, e, e.body.refused, Disposition.Rejected)
  {
    hide CandidateTransitionAccepted;
  }

  lemma ReviewStores(
    env: Env, s: State, t: State, e: Event, v: IntegrationVerification, expected: Disposition)
    requires CandidatesKept(env, s) && Later(s, t) && !expected.NeedsValidation?
    requires CandidateTransitionAccepted(env, s, e, v, expected)
    requires v.candidate in s.candidates
    requires t.candidates == s.candidates[v.candidate := s.candidates[v.candidate].(disposition := expected)]
    requires t.verifications == s.verifications[v.candidate := StoredVerification(e, v)]
    ensures CandidatesKept(env, t)
  {
    NewReview(env, s, e, v, expected);
    hide CandidateTransitionAccepted, StoredVerification, CandidateKept, ReviewKept, Unlike, Later, AppliedBy,
         ValidSha256Hex, AllWhitespace;
    UnlikeStays(s.candidates, v.candidate, expected);
    forall id | id in t.candidates ensures CandidateKept(env, t, t.candidates[id]) && ReviewKept(t, id) {
      CandidateLater(env, s, t, s.candidates[id], t.candidates[id].disposition);
      if id == v.candidate {
        ReviewNow(s, t, e, v);
      } else {
        ReviewLater(s, t, id);
      }
    }
  }

  lemma ReviewNow(s: State, t: State, e: Event, v: IntegrationVerification)
    requires Later(s, t) && v.candidate in s.candidates && v.candidate in t.candidates
    requires t.candidates[v.candidate].sources == s.candidates[v.candidate].sources
    requires t.candidates[v.candidate].counter == s.candidates[v.candidate].counter
    requires v.candidate in t.verifications && t.verifications[v.candidate] == StoredVerification(e, v)
    requires var c, kept := t.candidates[v.candidate], StoredVerification(e, v);
             && kept.disposition == c.disposition && kept.asOf == c.asOf && !AllWhitespace(kept.reason) && kept.evidence != []
             && forall r | r in kept.evidence ::
                  && ValidSha256Hex(r.sourceHash) && r.asOf <= kept.asOf
                  && (r.event in c.sources || r.event in c.counter) && AppliedBy(s, r.event, r.asOf)
    ensures ReviewKept(t, v.candidate)
  {
    hide StoredVerification, AppliedBy, ValidSha256Hex;
    forall r | r in StoredVerification(e, v).evidence ensures AppliedBy(t, r.event, r.asOf) {
      AppliedLater(s, t, r.event, r.asOf);
    }
  }

  lemma CandidatesStep(env: Env, s: State, e: Event)
    requires CandidatesKept(env, s) && Step(env, s, e).Some?
    requires forall r | r in s.sleepRuns :: s.sleepRuns[r].highWater <= s.revision
    ensures CandidatesKept(env, Step(env, s, e).value)
  {
    if e.body.CandidateCreated? {
      CandidateCreatedKeeps(env, s, e);
    } else {
      StepParts(env, s, e);
      StepLater(env, s, e);
      ReviewedGuards(env, s, e);
      ReviewedKnown(env, s, e);
      var t := Step(env, s, e).value;
      hide Step, After, BodyAccepted, CandidateTransitionAccepted, StoredVerification, CandidateKept, ReviewKept, Later;
      if e.body.CandidateVerified? {
        ReviewStores(env, s, t, e, e.body.accepted, Disposition.Verified);
      } else if e.body.CandidateRejected? {
        ReviewStores(env, s, t, e, e.body.refused, Disposition.Rejected);
      } else {
        forall id | id in t.candidates ensures CandidateKept(env, t, t.candidates[id]) && ReviewKept(t, id) {
          CandidateLater(env, s, t, s.candidates[id], s.candidates[id].disposition);
          ReviewLater(s, t, id);
        }
      }
    }
  }

  lemma ReviewedKnown(env: Env, s: State, e: Event)
    requires Step(env, s, e).Some?
    ensures e.body.CandidateVerified? ==> e.body.accepted.candidate in s.candidates
    ensures e.body.CandidateRejected? ==> e.body.refused.candidate in s.candidates
  {
    hide FingerprintMatches, ProposalParses, Normalize, IntegrationEvidenceValid, Blank;
  }

  // ---------------------------------------------------------------- criteria and claims, step by step

  lemma CriterionGuards(env: Env, s: State, e: Event)
    requires Step(env, s, e).Some? && e.body.CriterionDefined?
    ensures var c := e.body.criterion;
            && c.id !in s.criteria && !AllWhitespace(Trim(c.description)) && c.task in s.tasks
            && forall id | id in s.criteria && s.criteria[id].task == c.task ::
                 env.normalize(s.criteria[id].description) != env.normalize(c.description)
  {
    TrimIdempotent(e.body.criterion.description);
    BlankMeaning(Trim(e.body.criterion.description));
    hide Trim, IsWhitespace;
  }

  lemma TasksLater(env: Env, s: State, e: Event)
    requires Step(env, s, e).Some?
    ensures s.tasks.Keys <= Step(env, s, e).value.tasks.Keys
  {
    StepCompletionParts(env, s, e);
    hide Step, BodyAccepted;
  }

  lemma OneMoreCriterion(env: Env, s: State, t: State, c: Criterion)
    requires CriteriaKept(env, s) && s.tasks.Keys <= t.tasks.Keys && t.criteria == s.criteria[c.id := c]
    requires !AllWhitespace(c.description) && c.task in s.tasks
    requires forall id | id in s.criteria && s.criteria[id].task == c.task ::
               env.normalize(s.criteria[id].description) != env.normalize(c.description)
    ensures CriteriaKept(env, t)
  {
    hide AllWhitespace;
  }

  lemma CriteriaStep(env: Env, s: State, e: Event)
    requires CriteriaKept(env, s) && Step(env, s, e).Some? && IgnoresMargins(env)
    ensures CriteriaKept(env, Step(env, s, e).value)
    ensures forall k | k in s.criteria :: k in Step(env, s, e).value.criteria && Step(env, s, e).value.criteria[k] == s.criteria[k]
  {
    StepCompletionParts(env, s, e);
    TasksLater(env, s, e);
    hide Step, Trim, BodyAccepted, AllWhitespace, CriteriaKept, NextTasks, NextClaims;
    if e.body.CriterionDefined? {
      CriterionGuards(env, s, e);
      var c := e.body.criterion;
      OneMoreCriterion(env, s, Step(env, s, e).value, c.(description := Trim(c.description)));
    } else {
      SameCriteria(env, s, Step(env, s, e).value);
    }
  }

  lemma SameCriteria(env: Env, s: State, t: State)
    requires CriteriaKept(env, s) && s.tasks.Keys <= t.tasks.Keys && t.criteria == s.criteria
    ensures CriteriaKept(env, t)
  {
    hide AllWhitespace;
  }

  // ---------------------------------------------------------------- claims, step by step

  lemma NewClaim(env: Env, s: State, c: Claim)
    requires ClaimAccepted(env, s, c)
    ensures c.id !in s.claims && ClaimKept(env, s, NormalizedClaim(c))
    ensures forall id | id in s.claims :: s.claims[id].fingerprint != c.fingerprint
  {
    hide Normalize, CompletionFingerprint, ValidSha256Hex, SequenceOf, ArtifactMatches, AppliedBy;
    forall r | r in Normalize(c.evidence) ensures AppliedBy(s, r.event, c.asOf) {
      assert ClaimEvidenceOk(s, r, c.asOf);
      SequenceMeaning(s, r.event, c.asOf);
    }
  }

  /** Everything a claim depends on is still there. */
  ghost predicate LaterClaims(s: State, t: State) {
    && s.applied <= t.applied && s.revision <= t.revision && s.tasks.Keys <= t.tasks.Keys
    && (forall k | k in s.criteria :: k in t.criteria && t.criteria[k] == s.criteria[k])
    && (forall k | k in s.claims ::
          k in t.claims && t.claims[k].task == s.claims[k].task && t.claims[k].criterion == s.claims[k].criterion)
  }

  lemma ClaimLater(env: Env, s: State, t: State, c: Claim)
    requires ClaimKept(env, s, c) && LaterClaims(s, t)
    ensures ClaimKept(env, t, c)
  {
    hide CompletionFingerprint, ValidSha256Hex, AppliedBy;
    forall r | r in c.evidence ensures AppliedBy(t, r.event, c.asOf) { AppliedLater(s, t, r.event, c.asOf); }
  }

  /** A review of a claim, and what a verification asks of it. */
  lemma ClaimReviewGuards(env: Env, s: State, e: Event)
    requires Step(env, s, e).Some?
    ensures e.body.ClaimCreated? ==> ClaimAccepted(env, s, e.body.claim)
    ensures e.body.ClaimVerified? ==>
              e.body.verified.claim in s.claims
              && s.claims[e.body.verified.claim].evidence != [] && !HasBlocker(s.claims[e.body.verified.claim].blocker)
    ensures e.body.ClaimRejected? ==> e.body.rejected.claim in s.claims
  {
    hide ClaimAccepted, Normalize, HasBlocker, Blank;
  }

  ghost predicate Apart(claims: map<ClaimId, Claim>) {
    forall i, j | i in claims && j in claims && i != j :: claims[i].fingerprint != claims[j].fingerprint
  }

  lemma ApartMore(claims: map<ClaimId, Claim>, c: Claim)
    requires Apart(claims) && forall id | id in claims :: claims[id].fingerprint != c.fingerprint
    ensures Apart(claims[c.id := c])
  {
  }

  lemma ApartStays(claims: map<ClaimId, Claim>, id: ClaimId, d: Disposition)
    requires Apart(claims) && id in claims
    ensures Apart(claims[id := claims[id].(disposition := d)])
  {
    var more := claims[id := claims[id].(disposition := d)];
    forall i, j | i in more && j in more && i != j ensures more[i].fingerprint != more[j].fingerprint {
      assert more[i].fingerprint == claims[i].fingerprint && more[j].fingerprint == claims[j].fingerprint;
    }
  }

  lemma StepLaterClaims(env: Env, s: State, e: Event)
    requires CriteriaKept(env, s) && Step(env, s, e).Some? && IgnoresMargins(env)
    ensures LaterClaims(s, Step(env, s, e).value)
  {
    StepCompletionParts(env, s, e);
    CriteriaStep(env, s, e);
    TasksLater(env, s, e);
    ClaimReviewGuards(env, s, e);
    if e.body.ClaimCreated? { NewClaim(env, s, e.body.claim); }
    hide Step, BodyAccepted, CriteriaKept, ClaimAccepted, NormalizedClaim, HasBlocker;
  }

  lemma ReviewedClaim(env: Env, s: State, c: Claim, d: Disposition)
    requires ClaimKept(env, s, c)
    requires d.Verified? ==> c.evidence != [] && !HasBlocker(c.blocker)
    ensures ClaimKept(env, s, c.(disposition := d))
  {
    if c.blocker.Some? { BlankMeaning(c.blocker.value); }
    hide CompletionFingerprint, ValidSha256Hex, AppliedBy, Blank;
  }

  lemma OneMoreClaim(env: Env, s: State, t: State, c: Claim)
    requires ClaimsKept(env, s) && LaterClaims(s, t) && ClaimKept(env, s, c)
    requires t.claims == s.claims[c.id := c] && forall id | id in s.claims :: s.claims[id].fingerprint != c.fingerprint
    ensures ClaimsKept(env, t)
  {
    hide ClaimKept, LaterClaims, Apart;
    ApartMore(s.claims, c);
    forall id | id in t.claims ensures ClaimKept(env, t, t.claims[id]) { ClaimLater(env, s, t, t.claims[id]); }
  }

  lemma OneClaimReviewed(env: Env, s: State, t: State, id: ClaimId, d: Disposition)
    requires ClaimsKept(env, s) && LaterClaims(s, t) && id in s.claims
    requires t.claims == s.claims[id := s.claims[id].(disposition := d)]
    requires d.Verified? ==> s.claims[id].evidence != [] && !HasBlocker(s.claims[id].blocker)
    ensures ClaimsKept(env, t)
  {
    hide ClaimKept, LaterClaims, Apart, HasBlocker;
    ReviewedClaim(env, s, s.claims[id], d);
    ApartStays(s.claims, id, d);
    forall k | k in t.claims ensures ClaimKept(env, t, t.claims[k]) { ClaimLater(env, s, t, t.claims[k]); }
  }

  lemma SameClaims(env: Env, s: State, t: State)
    requires ClaimsKept(env, s) && LaterClaims(s, t) && t.claims == s.claims
    ensures ClaimsKept(env, t)
  {
    hide ClaimKept, LaterClaims, Apart;
    forall k | k in t.claims ensures ClaimKept(env, t, t.claims[k]) { ClaimLater(env, s, t, t.claims[k]); }
  }

  lemma ClaimsStep(env: Env, s: State, e: Event)
    requires CriteriaKept(env, s) && ClaimsKept(env, s) && Step(env, s, e).Some? && IgnoresMargins(env)
    ensures ClaimsKept(env, Step(env, s, e).value)
  {
    StepCompletionParts(env, s, e);
    StepLaterClaims(env, s, e);
    ClaimReviewGuards(env, s, e);
    var t := Step(env, s, e).value;
    hide Step, BodyAccepted, CriteriaKept, ClaimsKept, ClaimAccepted, ClaimKept, LaterClaims, NormalizedClaim, HasBlocker;
    if e.body.ClaimCreated? {
      NewClaim(env, s, e.body.claim);
      SameClaim(e.body.claim);
      OneMoreClaim(env, s, t, NormalizedClaim(e.body.claim));
    } else if e.body.ClaimVerified? {
      OneClaimReviewed(env, s, t, e.body.verified.claim, Disposition.Verified);
    } else if e.body.ClaimRejected? {
      OneClaimReviewed(env, s, t, e.body.rejected.claim, Disposition.Rejected);
    } else {
      SameClaims(env, s, t);
    }
  }

  lemma SameClaim(c: Claim)
    ensures NormalizedClaim(c).id == c.id && NormalizedClaim(c).fingerprint == c.fingerprint
  {
  }

  // ---------------------------------------------------------------- every accepted ledger

  /** The normal form of a description ignores white space around it. */
  ghost predicate IgnoresMargins(env: Env) {
    forall d :: env.normalize(Trim(d)) == env.normalize(d)
  }

  lemma RunsStep(env: Env, s: State, e: Event)
    requires Step(env, s, e).Some? && forall r | r in s.sleepRuns :: s.sleepRuns[r].highWater <= s.revision
    ensures var t := Step(env, s, e).value; forall r | r in t.sleepRuns :: t.sleepRuns[r].highWater <= t.revision
  {
    StepParts(env, s, e);
    if e.body.SleepRunEvent? { RunGuards(env, s, e); }
    hide Step, After, BodyAccepted;
  }

  lemma RunGuards(env: Env, s: State, e: Event)
    requires Step(env, s, e).Some? && e.body.SleepRunEvent?
    ensures e.body.run.highWater <= s.revision
            || (e.body.run.id in s.sleepRuns && e.body.run.highWater == s.sleepRuns[e.body.run.id].highWater)
  {
  }

  /** In every accepted ledger, whoever wrote it: a candidate has its texts, bounds and
      sources, is from the revision of its run and unlike every other; a reviewed one has a
      reason and evidence it cites. */
  lemma {:induction false} CandidatesHold(env: Env, ledger: seq<Event>)
    requires Replay(env, ledger).Some?
    ensures var s := Replay(env, ledger).value;
            CandidatesKept(env, s) && forall r | r in s.sleepRuns :: s.sleepRuns[r].highWater <= s.revision
  {
    hide Step, CandidatesKept;
    if ledger == [] {
      NoRecords(env);
    } else {
      var front, e := ledger[..|ledger| - 1], ledger[|ledger| - 1];
      CandidatesHold(env, front);
      CandidatesStep(env, Replay(env, front).value, e);
      RunsStep(env, Replay(env, front).value, e);
    }
  }

  lemma NoRecords(env: Env)
    ensures CandidatesKept(env, EMPTY_STATE) && CriteriaKept(env, EMPTY_STATE) && ClaimsKept(env, EMPTY_STATE)
  {
  }

  /** In every accepted ledger: the criteria of a task say different things, and a claim is
      about a criterion of its task, on evidence that was there by then, unlike every other
      claim; a verified one has evidence and no blocker. */
  lemma {:induction false} ClaimsHold(env: Env, ledger: seq<Event>)
    requires Replay(env, ledger).Some? && IgnoresMargins(env)
    ensures var s := Replay(env, ledger).value; CriteriaKept(env, s) && ClaimsKept(env, s)
  {
    hide Step, CriteriaKept, ClaimsKept, IgnoresMargins;
    if ledger == [] {
      NoRecords(env);
    } else {
      var front, e := ledger[..|ledger| - 1], ledger[|ledger| - 1];
      ClaimsHold(env, front);
      ClaimsStep(env, Replay(env, front).value, e);
      CriteriaStep(env, Replay(env, front).value, e);
    }
  }
}
