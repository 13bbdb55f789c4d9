/** Exactly when a criterion is met and when criteria, claims and their reviews can be
    planned, as conditions on the ledger and the state, and what each of them records. */
module CompletionExact {
  import opened Prelude
  import opened Ordering
  import opened Model
  import opened Evidence
  import opened Projector
  import opened Lookup
  import opened Completion
  import opened CompletionAccept
  import IX = IntegrationExact

  // ---------------------------------------------------------------- fingerprints

  /** The digest covers the task, the criterion, and the events, the artifacts and the
      hashes of the evidence, each in order. */
  ghost predicate DigestOf(env: Env, task: TaskId, criterion: CriterionId, refs: seq<EvidenceRef>, digest: string) {
    exists events: seq<nat>, artifacts: seq<nat>, hashes: seq<string> ::
      && Sorted(NatLe, events) && multiset(events) == multiset(EventsOf(refs))
      && Sorted(NatLe, artifacts) && multiset(artifacts) == multiset(ArtifactsOf(refs))
      && Sorted(StrLe, hashes) && multiset(hashes) == multiset(HashesOf(refs))
      && digest == env.completionDigest(task, criterion, events, artifacts, hashes)
  }

  lemma StringsOrdered()
    ensures TotalOrder(StrLe)
  {
    forall a, b
      ensures StrLe(a, b) || StrLe(b, a)
      ensures StrLe(a, b) && StrLe(b, a) ==> a == b
    {
      StrTrichotomy(a, b);
    }
    forall a, b, c ensures StrLe(a, b) && StrLe(b, c) ==> StrLe(a, c) {
      if StrLt(a, b) && StrLt(b, c) { StrTransitive(a, b, c); }
    }
  }

  lemma FingerprintMeaning(env: Env, task: TaskId, criterion: CriterionId, refs: seq<EvidenceRef>)
    ensures DigestOf(env, task, criterion, refs, CompletionFingerprint(env, task, criterion, refs))
  {
    var events, artifacts, hashes := EventsOf(refs), ArtifactsOf(refs), HashesOf(refs);
    SortIsSorted(NatLe, events);
    SortMultiset(NatLe, events);
    SortIsSorted(NatLe, artifacts);
    SortMultiset(NatLe, artifacts);
    StringsOrdered();
    SortIsSorted(StrLe, hashes);
    SortMultiset(StrLe, hashes);
    hide Sort, ArtifactsOf, Sorted;
    assert CompletionFingerprint(env, task, criterion, refs)
        == env.completionDigest(task, criterion, Sort(NatLe, events), Sort(NatLe, artifacts), Sort(StrLe, hashes));
  }

  // ---------------------------------------------------------------- evidence and claims

  /** The reference names an event that was there by then, with the hash of the event or
      of the artifact it created. */
  ghost predicate GoodRef(env: Env, ledger: seq<Event>, s: State, r: EvidenceRef, asOf: nat) {
    && ValidSha256Hex(r.sourceHash)
    && r.asOf <= asOf
    && (exists n: nat ::
          && n < |ledger| && ledger[n].id == r.event && n < r.asOf
          && (r.artifact.None? ==> SourceHash(env, ledger[n]) == r.sourceHash))
    && (r.artifact.Some? ==>
          && r.artifact.value in s.artifacts
          && s.artifacts[r.artifact.value].provenance == r.event
          && s.artifacts[r.artifact.value].contentHash == r.sourceHash
          && exists k: nat :: k < |ledger| && k < r.asOf && IX.Creates(ledger[k], r.artifact.value))
  }

  lemma EvidenceExactly(env: Env, ledger: seq<Event>, s: State, r: EvidenceRef, asOf: nat)
    requires Distinct(Ids(ledger))
    ensures ClaimEvidenceError(env, ledger, s, r, asOf).None? <==> GoodRef(env, ledger, s, r, asOf)
  {
    IX.FindNone(ledger, r.event);
    forall n: nat | n < |ledger| ensures FindEvent(ledger, r.event) == Some(n + 1) <==> ledger[n].id == r.event {
      IX.FindExactly(ledger, r.event, n);
    }
    if r.artifact.Some? { IX.ArtifactFound(ledger, r.artifact.value, r.asOf); }
    hide FindEvent, FindArtifactCreated, ValidSha256Hex, SourceHash, Distinct;
    var found := FindEvent(ledger, r.event);
    if found.Some? { assert ledger[found.value - 1].id == r.event; }
  }

  lemma EvidenceAll(env: Env, ledger: seq<Event>, s: State, refs: seq<EvidenceRef>, asOf: nat)
    requires Distinct(Ids(ledger))
    ensures FirstClaimEvidenceError(env, ledger, s, refs, asOf).None?
            <==> forall r | r in refs :: GoodRef(env, ledger, s, r, asOf)
  {
    hide Distinct, ClaimEvidenceError, GoodRef;
    forall r ensures ClaimEvidenceError(env, ledger, s, r, asOf).None? <==> GoodRef(env, ledger, s, r, asOf) {
      EvidenceExactly(env, ledger, s, r, asOf);
    }
  }

  /** Nobody reported a blocker. */
  ghost predicate Unblocked(blocker: Option<string>) {
    blocker.Some? ==> AllWhitespace(blocker.value)
  }

  lemma UnblockedExactly(blocker: Option<string>)
    ensures HasBlocker(blocker) <==> !Unblocked(blocker)
  {
    if blocker.Some? { BlankMeaning(blocker.value); }
  }

  ghost predicate ClaimsAbout(e: Event, criterion: CriterionId) {
    e.body.ClaimCreated? && e.body.claim.criterion == criterion
  }

  /** The last event of the ledger that created a claim about the criterion. */
  ghost predicate LatestAt(ledger: seq<Event>, criterion: CriterionId, n: nat) {
    && n < |ledger| && ClaimsAbout(ledger[n], criterion)
    && forall k: nat | n < k < |ledger| :: !ClaimsAbout(ledger[k], criterion)
  }

  lemma {:induction false} LatestExactly(ledger: seq<Event>, criterion: CriterionId, id: ClaimId)
    ensures LatestClaim(ledger, criterion) == Some(id)
            <==> exists n: nat :: LatestAt(ledger, criterion, n) && ledger[n].body.claim.id == id
  {
    if ledger != [] {
      var last := |ledger| - 1;
      var front := ledger[..last];
      LatestExactly(front, criterion, id);
      if ClaimsAbout(ledger[last], criterion) {
        assert LatestAt(ledger, criterion, last);
      } else {
        forall n: nat ensures LatestAt(ledger, criterion, n) <==> LatestAt(front, criterion, n) {
          LatestBefore(ledger, criterion, n);
        }
      }
    }
  }

  lemma LatestBefore(ledger: seq<Event>, criterion: CriterionId, n: nat)
    requires ledger != [] && !ClaimsAbout(ledger[|ledger| - 1], criterion)
    ensures LatestAt(ledger, criterion, n) <==> LatestAt(ledger[..|ledger| - 1], criterion, n)
  {
    var front := ledger[..|ledger| - 1];
    forall k: nat | k < |front| ensures front[k] == ledger[k] {}
  }

  /** The claim the gate looks at: the stored record of the one created last. */
  ghost predicate ClaimFor(ledger: seq<Event>, s: State, criterion: CriterionId, c: Claim) {
    exists n: nat :: LatestAt(ledger, criterion, n) && ledger[n].body.claim.id in s.claims
                     && c == s.claims[ledger[n].body.claim.id]
  }

  lemma CurrentExactly(ledger: seq<Event>, s: State, criterion: CriterionId)
    ensures forall c :: CurrentClaim(ledger, s, criterion) == Some(c) <==> ClaimFor(ledger, s, criterion, c)
  {
    var latest := LatestClaim(ledger, criterion);
    if latest.Some? { LatestExactly(ledger, criterion, latest.value); }
    forall n: nat | LatestAt(ledger, criterion, n) ensures latest == Some(ledger[n].body.claim.id) {
      LatestExactly(ledger, criterion, ledger[n].body.claim.id);
    }
    hide LatestClaim;
  }

  /** The claim was verified, on evidence that is good, with its fingerprint, and nobody
      reported a blocker. */
  ghost predicate Counts(env: Env, ledger: seq<Event>, s: State, c: Claim) {
    && c.disposition.Verified? && Unblocked(c.blocker)
    && c.evidence != [] && (forall r | r in c.evidence :: GoodRef(env, ledger, s, r, c.asOf))
    && c.fingerprint == CompletionFingerprint(env, c.task, c.criterion, c.evidence)
  }

  lemma CountsExactly(env: Env, ledger: seq<Event>, s: State, c: Claim)
    requires Distinct(Ids(ledger))
    ensures Counts(env, ledger, s, c) <==> c.disposition.Verified? && VerifiedClaimBlocker(env, ledger, s, c).None?
  {
    UnblockedExactly(c.blocker);
    EvidenceAll(env, ledger, s, c.evidence, c.asOf);
    hide HasBlocker, Unblocked, GoodRef, CompletionFingerprint, FirstClaimEvidenceError, Distinct;
  }

  /** A criterion is met exactly when the claim created last about it counts. */
  lemma MetExactly(env: Env, ledger: seq<Event>, s: State, criterion: CriterionId)
    requires Distinct(Ids(ledger))
    ensures Met(env, ledger, s, criterion)
            <==> exists c :: ClaimFor(ledger, s, criterion, c) && Counts(env, ledger, s, c)
  {
    CurrentExactly(ledger, s, criterion);
    hide CurrentClaim, ClaimFor, Counts, VerifiedClaimBlocker, Distinct;
    if CurrentClaim(ledger, s, criterion).Some? {
      CountsExactly(env, ledger, s, CurrentClaim(ledger, s, criterion).value);
    }
  }

  /** The gate is ready exactly when every required criterion of the task is met by the
      claim created last about it, nothing awaits approval and nothing is in doubt. */
  lemma ReadyExactly(env: Env, ledger: seq<Event>, s: State, task: TaskId)
    requires Replay(env, ledger) == Some(s)
    ensures GateReady(env, ledger, s, task)
            <==> && (forall k | k in s.criteria && s.criteria[k].task == task && s.criteria[k].required ::
                       exists c :: ClaimFor(ledger, s, k, c) && Counts(env, ledger, s, c))
                 && (forall k | k in s.approvals :: !s.approvals[k].status.Pending?)
                 && (forall k | k in s.operations :: s.operations[k].status != OperationStatus.Started
                                                     && s.operations[k].status != OperationStatus.Unknown)
  {
    hide Step;
    ReplayCounts(env, ledger);
    forall k ensures Met(env, ledger, s, k) <==> exists c :: ClaimFor(ledger, s, k, c) && Counts(env, ledger, s, c) {
      MetExactly(env, ledger, s, k);
    }
    hide Met, ClaimFor, Counts, Replay, Distinct;
  }

  // ---------------------------------------------------------------- what a blocked gate lists

  /** What the gate lists about the criteria at `ids`: those without a claim, the claims
      that wait for review or were rejected, and one blocker for each that is not met. */
  ghost predicate Listed(
    env: Env, ledger: seq<Event>, s: State, ids: seq<CriterionId>, missing: seq<CriterionId>,
    needsValidation: seq<ClaimId>, rejected: seq<ClaimId>, met: seq<ClaimId>)
  {
    && (forall k :: k in missing <==> k in ids && forall c :: !ClaimFor(ledger, s, k, c))
    && (forall id :: id in needsValidation <==>
          exists k, c | k in ids && ClaimFor(ledger, s, k, c) :: c.id == id && c.disposition.NeedsValidation?)
    && (forall id :: id in rejected <==>
          exists k, c | k in ids && ClaimFor(ledger, s, k, c) :: c.id == id && c.disposition.Rejected?)
    && (forall id :: id in met <==>
          exists k, c | k in ids && ClaimFor(ledger, s, k, c) :: c.id == id && Counts(env, ledger, s, c))
  }

  lemma {:induction false} MissingListed(ledger: seq<Event>, s: State, ids: seq<CriterionId>, k: CriterionId)
    ensures k in Missing(ledger, s, ids) <==> k in ids && CurrentClaim(ledger, s, k).None?
  {
    hide CurrentClaim;
    if ids != [] {
      MissingListed(ledger, s, ids[..|ids| - 1], k);
      assert ids == ids[..|ids| - 1] + [ids[|ids| - 1]];
    }
  }

  lemma {:induction false} ClaimsListed(ledger: seq<Event>, s: State, ids: seq<CriterionId>, d: Disposition, id: ClaimId)
    ensures id in Claims(ledger, s, ids, d) <==>
              exists k | k in ids :: CurrentClaim(ledger, s, k).Some? && CurrentClaim(ledger, s, k).value.disposition == d
                                     && CurrentClaim(ledger, s, k).value.id == id
  {
    hide CurrentClaim;
    if ids != [] {
      ClaimsListed(ledger, s, ids[..|ids| - 1], d, id);
      assert ids == ids[..|ids| - 1] + [ids[|ids| - 1]];
    }
  }

  lemma {:induction false} MetListed(env: Env, ledger: seq<Event>, s: State, ids: seq<CriterionId>, id: ClaimId)
    ensures id in MetClaims(env, ledger, s, ids) <==>
              exists k | k in ids :: Met(env, ledger, s, k) && CurrentClaim(ledger, s, k).value.id == id
  {
    hide CurrentClaim, VerifiedClaimBlocker;
    if ids != [] {
      MetListed(env, ledger, s, ids[..|ids| - 1], id);
      assert ids == ids[..|ids| - 1] + [ids[|ids| - 1]];
    }
  }

  lemma GateLists(env: Env, ledger: seq<Event>, s: State, ids: seq<CriterionId>)
    requires Replay(env, ledger) == Some(s)
    ensures Listed(env, ledger, s, ids, Missing(ledger, s, ids), Claims(ledger, s, ids, Disposition.NeedsValidation),
                   Claims(ledger, s, ids, Disposition.Rejected), MetClaims(env, ledger, s, ids))
  {
    hide Step;
    ReplayCounts(env, ledger);
    forall k ensures forall c :: CurrentClaim(ledger, s, k) == Some(c) <==> ClaimFor(ledger, s, k, c) {
      CurrentExactly(ledger, s, k);
    }
    MissingPart(ledger, s, ids);
    ClaimsPart(ledger, s, ids, Disposition.NeedsValidation);
    ClaimsPart(ledger, s, ids, Disposition.Rejected);
    MetPart(env, ledger, s, ids);
    hide CurrentClaim, ClaimFor, Counts, Replay, Missing, Claims, MetClaims;
  }

  lemma MissingPart(ledger: seq<Event>, s: State, ids: seq<CriterionId>)
    ensures forall k :: k in Missing(ledger, s, ids) <==> k in ids && forall c :: !ClaimFor(ledger, s, k, c)
  {
    hide CurrentClaim, ClaimFor, Missing;
    forall k ensures k in Missing(ledger, s, ids) <==> k in ids && forall c :: !ClaimFor(ledger, s, k, c) {
      CurrentExactly(ledger, s, k);
      MissingListed(ledger, s, ids, k);
    }
  }

  lemma ClaimsPart(ledger: seq<Event>, s: State, ids: seq<CriterionId>, d: Disposition)
    ensures forall id :: id in Claims(ledger, s, ids, d) <==>
              exists k, c | k in ids && ClaimFor(ledger, s, k, c) :: c.id == id && c.disposition == d
  {
    hide CurrentClaim, ClaimFor, Claims;
    forall k ensures forall c :: CurrentClaim(ledger, s, k) == Some(c) <==> ClaimFor(ledger, s, k, c) {
      CurrentExactly(ledger, s, k);
    }
    forall id
      ensures id in Claims(ledger, s, ids, d) <==>
                exists k, c | k in ids && ClaimFor(ledger, s, k, c) :: c.id == id && c.disposition == d
    {
      ClaimsListed(ledger, s, ids, d, id);
    }
  }

  lemma MetPart(env: Env, ledger: seq<Event>, s: State, ids: seq<CriterionId>)
    requires Distinct(Ids(ledger))
    ensures forall id :: id in MetClaims(env, ledger, s, ids) <==>
              exists k, c | k in ids && ClaimFor(ledger, s, k, c) :: c.id == id && Counts(env, ledger, s, c)
  {
    hide CurrentClaim, ClaimFor, MetClaims, Counts, VerifiedClaimBlocker, Distinct;
    forall k ensures forall c :: CurrentClaim(ledger, s, k) == Some(c) <==> ClaimFor(ledger, s, k, c) {
      CurrentExactly(ledger, s, k);
    }
    forall c ensures Counts(env, ledger, s, c)
                     <==> c.disposition.Verified? && VerifiedClaimBlocker(env, ledger, s, c).None?
    {
      CountsExactly(env, ledger, s, c);
    }
    forall id
      ensures id in MetClaims(env, ledger, s, ids) <==>
                exists k, c | k in ids && ClaimFor(ledger, s, k, c) :: c.id == id && Counts(env, ledger, s, c)
    {
      MetListed(env, ledger, s, ids, id);
    }
  }

  /** What a blocker says about a criterion. */
  ghost predicate Blocks(env: Env, ledger: seq<Event>, s: State, k: CriterionId, b: Blocker) {
    match b
    case NoClaim(criterion) => criterion == k && forall c :: !ClaimFor(ledger, s, k, c)
    case ClaimNeedsValidation(id) => exists c :: ClaimFor(ledger, s, k, c) && c.id == id && c.disposition.NeedsValidation?
    case ClaimWasRejected(id) => exists c :: ClaimFor(ledger, s, k, c) && c.id == id && c.disposition.Rejected?
    case Reported(text) =>
      exists c :: ClaimFor(ledger, s, k, c) && c.disposition.Verified?
                  && c.blocker.Some? && !Unblocked(c.blocker) && text == Trim(c.blocker.value)
    case NoEvidence(id) =>
      exists c :: ClaimFor(ledger, s, k, c) && c.id == id && c.disposition.Verified? && c.evidence == []
    case FingerprintMismatch(id) =>
      exists c :: ClaimFor(ledger, s, k, c) && c.id == id && c.disposition.Verified?
                  && c.fingerprint != CompletionFingerprint(env, c.task, c.criterion, c.evidence)
    case EvidenceInvalid(_) =>
      exists c :: ClaimFor(ledger, s, k, c) && c.disposition.Verified?
                  && exists r | r in c.evidence :: !GoodRef(env, ledger, s, r, c.asOf)
    case _ => false
  }

  lemma BlockerMeaning(env: Env, ledger: seq<Event>, s: State, k: CriterionId)
    requires Distinct(Ids(ledger))
    ensures var b := BlockerOf(env, ledger, s, k); b.Some? ==> Blocks(env, ledger, s, k, b.value)
    ensures BlockerOf(env, ledger, s, k).None? <==> Met(env, ledger, s, k)
  {
    CurrentExactly(ledger, s, k);
    NothingBlocks(env, ledger, s, k);
    var current := CurrentClaim(ledger, s, k);
    if current.Some? {
      UnblockedExactly(current.value.blocker);
      EvidenceAll(env, ledger, s, current.value.evidence, current.value.asOf);
    }
    hide CurrentClaim, ClaimFor, GoodRef, HasBlocker, Unblocked, FirstClaimEvidenceError, CompletionFingerprint, Distinct, Trim;
  }

  /** Every blocker the gate lists is about a required criterion, and there is one for
      each that is not met. */
  lemma {:induction false} BlockersListed(env: Env, ledger: seq<Event>, s: State, ids: seq<CriterionId>)
    requires Distinct(Ids(ledger))
    ensures forall b | b in Blockers(env, ledger, s, ids) :: exists k | k in ids :: Blocks(env, ledger, s, k, b)
    ensures forall k | k in ids && !Met(env, ledger, s, k) ::
              exists b | b in Blockers(env, ledger, s, ids) :: Blocks(env, ledger, s, k, b)
  {
    hide BlockerOf, Blocks, Met, Distinct;
    if ids != [] {
      var front, last := ids[..|ids| - 1], ids[|ids| - 1];
      BlockersListed(env, ledger, s, front);
      BlockerMeaning(env, ledger, s, last);
      assert ids == front + [last];
      var all, earlier := Blockers(env, ledger, s, ids), Blockers(env, ledger, s, front);
      forall b | b in all ensures exists k | k in ids :: Blocks(env, ledger, s, k, b) {
        if b in earlier {
          var k :| k in front && Blocks(env, ledger, s, k, b);
          assert k in ids;
        } else {
          assert last in ids;
        }
      }
      forall k | k in ids && !Met(env, ledger, s, k) ensures exists b | b in all :: Blocks(env, ledger, s, k, b) {
        if k in front {
          var b :| b in earlier && Blocks(env, ledger, s, k, b);
          assert b in all;
        } else {
          var b := BlockerOf(env, ledger, s, last).value;
          assert b in all;
        }
      }
    }
  }

  // ---------------------------------------------------------------- when plans can be made, and what they record

  ghost predicate MayDecide(s: State, actor: PrincipalId) {
    actor in s.principals ==> !s.principals[actor].kind.Hekate?
  }

  /** A criterion can be defined exactly when its task exists, somebody other than the
      model describes it, and no other criterion of the task says the same; it is kept
      as described. */
  lemma CriterionExactly(
    env: Env, s: State, actor: PrincipalId, task: TaskId, description: string, required: bool, id: CriterionId,
    event: EventId)
    ensures var plan := PlanCriterion(env, s, actor, task, description, required, id, event);
            && (plan.Ok? <==>
                  && task in s.tasks && MayDecide(s, actor) && !AllWhitespace(description)
                  && forall k | k in s.criteria && s.criteria[k].task == task ::
                       env.normalize(s.criteria[k].description) != env.normalize(Trim(description)))
            && (plan.Ok? && event !in s.applied && id !in s.criteria ==>
                  && Step(env, s, plan.value).Some?
                  && Step(env, s, plan.value).value.criteria
                     == s.criteria[id := Criterion.Criterion(id, task, Trim(description), required)])
  {
    BlankMeaning(description);
    hide Step, Blank, Trim;
    var plan := PlanCriterion(env, s, actor, task, description, required, id, event);
    if plan.Ok? && event !in s.applied && id !in s.criteria {
      PlannedCriterionAccepted(env, s, actor, task, description, required, id, event);
      TrimIdempotent(description);
      StepCompletionParts(env, s, plan.value);
    }
  }

  /** The claim as it was made: it waits for review, with its evidence in normal form. */
  ghost predicate Claimed(
    env: Env, s: State, c: Claim, id: ClaimId, task: TaskId, criterion: CriterionId, confidence: nat,
    refs: seq<EvidenceRef>, blocker: Option<string>, supersedes: Option<ClaimId>)
  {
    && c.id == id && c.task == task && c.criterion == criterion && c.disposition.NeedsValidation?
    && c.confidence == confidence && c.evidence == Normalize(refs) && c.supersedes == supersedes
    && c.asOf == s.revision
    && c.fingerprint == CompletionFingerprint(env, task, criterion, Normalize(refs))
    && (Unblocked(blocker) ==> c.blocker.None?)
    && (!Unblocked(blocker) ==> c.blocker == Some(Trim(blocker.value)))
  }

  /** What a claim needs: its task and criterion, somebody other than the model, good
      evidence that no other claim rests on, and a claim of its own kind to supersede. */
  ghost predicate GoodClaim(
    env: Env, ledger: seq<Event>, s: State, actor: PrincipalId, task: TaskId, criterion: CriterionId, confidence: nat,
    refs: seq<EvidenceRef>, supersedes: Option<ClaimId>)
  {
    && task in s.tasks && MayDecide(s, actor)
    && criterion in s.criteria && s.criteria[criterion].task == task && confidence <= 100
    && (forall r | r in Normalize(refs) :: GoodRef(env, ledger, s, r, s.revision))
    && (forall k | k in s.claims :: s.claims[k].fingerprint != CompletionFingerprint(env, task, criterion, Normalize(refs)))
    && (supersedes.Some? ==>
          && supersedes.value in s.claims
          && s.claims[supersedes.value].task == task && s.claims[supersedes.value].criterion == criterion)
  }

  lemma ClaimPlanned(
    env: Env, ledger: seq<Event>, s: State, actor: PrincipalId, task: TaskId, criterion: CriterionId, confidence: nat,
    refs: seq<EvidenceRef>, blocker: Option<string>, supersedes: Option<ClaimId>, id: ClaimId, event: EventId)
    requires Distinct(Ids(ledger))
    ensures var plan := PlanClaim(env, ledger, s, actor, task, criterion, confidence, refs, blocker, supersedes, id, event);
            && (plan.Ok? <==> GoodClaim(env, ledger, s, actor, task, criterion, confidence, refs, supersedes))
            && (plan.Ok? ==>
                  plan.value.id == event && plan.value.body.ClaimCreated?
                  && Claimed(env, s, plan.value.body.claim, id, task, criterion, confidence, refs, blocker, supersedes))
  {
    EvidenceAll(env, ledger, s, Normalize(refs), s.revision);
    UnblockedExactly(blocker);
    hide FirstClaimEvidenceError, GoodRef, CompletionFingerprint, Normalize, HasBlocker, Unblocked, Trim, Distinct;
  }

  /** A claim can be made exactly then, and is recorded as it was made. */
  lemma ClaimExactly(
    env: Env, ledger: seq<Event>, s: State, actor: PrincipalId, task: TaskId, criterion: CriterionId, confidence: nat,
    refs: seq<EvidenceRef>, blocker: Option<string>, supersedes: Option<ClaimId>, id: ClaimId, event: EventId)
    requires Replay(env, ledger) == Some(s)
    ensures var plan := PlanClaim(env, ledger, s, actor, task, criterion, confidence, refs, blocker, supersedes, id, event);
            && (plan.Ok? <==> GoodClaim(env, ledger, s, actor, task, criterion, confidence, refs, supersedes))
            && (plan.Ok? && event !in s.applied && id !in s.claims ==>
                  && Step(env, s, plan.value).Some?
                  && ClaimLanded(env, s, Step(env, s, plan.value).value, id, task, criterion, confidence, refs, blocker,
                                 supersedes))
  {
    hide Step, PlanClaim, GoodClaim, Claimed, Normalize, Replay, After;
    ReplayCounts(env, ledger);
    ClaimPlanned(env, ledger, s, actor, task, criterion, confidence, refs, blocker, supersedes, id, event);
    var plan := PlanClaim(env, ledger, s, actor, task, criterion, confidence, refs, blocker, supersedes, id, event);
    if plan.Ok? && event !in s.applied && id !in s.claims {
      PlannedClaimAccepted(env, ledger, s, actor, task, criterion, confidence, refs, blocker, supersedes, id, event);
      ClaimStored(env, s, plan.value, id, task, criterion, confidence, refs, blocker, supersedes);
    }
  }

  ghost predicate ClaimLanded(
    env: Env, s: State, t: State, id: ClaimId, task: TaskId, criterion: CriterionId, confidence: nat,
    refs: seq<EvidenceRef>, blocker: Option<string>, supersedes: Option<ClaimId>)
  {
    && id in t.claims && t.claims == s.claims[id := t.claims[id]]
    && Claimed(env, s, t.claims[id], id, task, criterion, confidence, refs, blocker, supersedes)
    && t.tasks == s.tasks && t.criteria == s.criteria
  }

  lemma ClaimStored(
    env: Env, s: State, e: Event, id: ClaimId, task: TaskId, criterion: CriterionId, confidence: nat,
    refs: seq<EvidenceRef>, blocker: Option<string>, supersedes: Option<ClaimId>)
    requires Step(env, s, e).Some? && e.body.ClaimCreated?
    requires Claimed(env, s, e.body.claim, id, task, criterion, confidence, refs, blocker, supersedes)
    ensures ClaimLanded(env, s, Step(env, s, e).value, id, task, criterion, confidence, refs, blocker, supersedes)
  {
    StepCompletionParts(env, s, e);
    NormalizeIdempotent(refs);
    hide Step, Normalize, CompletionFingerprint, Unblocked, Trim, BodyAccepted;
    assert e.body.claim == NormalizedClaim(e.body.claim);
  }

  /** What a review of a claim needs: somebody other than the model with a reason, a
      claim that waits for one and whose evidence is good, and, to verify it, evidence
      and no blocker. */
  ghost predicate Reviewable(
    env: Env, ledger: seq<Event>, s: State, actor: PrincipalId, id: ClaimId, to: Disposition, reason: string)
  {
    && id in s.claims && MayDecide(s, actor) && !to.NeedsValidation? && !AllWhitespace(reason)
    && var c := s.claims[id];
    && c.disposition.NeedsValidation?
    && (forall r | r in c.evidence :: GoodRef(env, ledger, s, r, c.asOf))
    && (to.Verified? ==> c.evidence != [] && Unblocked(c.blocker))
  }

  lemma ReviewPlanned(
    env: Env, ledger: seq<Event>, s: State, actor: PrincipalId, id: ClaimId, to: Disposition, reason: string,
    event: EventId)
    requires Distinct(Ids(ledger))
    ensures var plan := PlanClaimTransition(env, ledger, s, actor, id, to, reason, event);
            && (plan.Ok? <==> Reviewable(env, ledger, s, actor, id, to, reason))
            && (plan.Ok? ==> ReviewsClaim(plan.value, s.claims[id].id, to))
  {
    BlankMeaning(reason);
    if id in s.claims {
      UnblockedExactly(s.claims[id].blocker);
      EvidenceAll(env, ledger, s, s.claims[id].evidence, s.claims[id].asOf);
    }
    hide FirstClaimEvidenceError, GoodRef, HasBlocker, Unblocked, Blank, AllWhitespace, LastClaimEvent, Trim, Distinct;
  }

  ghost predicate ReviewsClaim(e: Event, id: ClaimId, to: Disposition) {
    if to.Verified? then e.body.ClaimVerified? && e.body.verified.claim == id
    else to.Rejected? && e.body.ClaimRejected? && e.body.rejected.claim == id
  }

  lemma ReviewStored(env: Env, s: State, e: Event, id: ClaimId, to: Disposition)
    requires Step(env, s, e).Some? && ReviewsClaim(e, id, to) && id in s.claims
    ensures ReviewLanded(s, Step(env, s, e).value, id, to)
  {
    StepCompletionParts(env, s, e);
    hide Step, BodyAccepted;
  }

  /** A claim can be reviewed exactly then, and only its disposition changes. */
  lemma ClaimReviewExactly(
    env: Env, ledger: seq<Event>, s: State, actor: PrincipalId, id: ClaimId, to: Disposition, reason: string,
    event: EventId)
    requires Replay(env, ledger) == Some(s)
    ensures var plan := PlanClaimTransition(env, ledger, s, actor, id, to, reason, event);
            && (plan.Ok? <==> Reviewable(env, ledger, s, actor, id, to, reason))
            && (plan.Ok? && event !in s.applied ==>
                  && Step(env, s, plan.value).Some?
                  && ReviewLanded(s, Step(env, s, plan.value).value, id, to))
  {
    hide Step, Replay, PlanClaimTransition, GoodRef, Unblocked, AllWhitespace, ReviewLanded, ReviewsClaim, Distinct, Normalize;
    ReplayFacts(env, ledger);
    ReplayCounts(env, ledger);
    ReviewPlanned(env, ledger, s, actor, id, to, reason, event);
    var plan := PlanClaimTransition(env, ledger, s, actor, id, to, reason, event);
    if plan.Ok? && event !in s.applied {
      PlannedClaimTransitionAccepted(env, ledger, s, actor, id, to, reason, event);
      ReviewStored(env, s, plan.value, id, to);
    }
  }

  ghost predicate ReviewLanded(s: State, t: State, id: ClaimId, to: Disposition) {
    && id in s.claims && t.claims == s.claims[id := s.claims[id].(disposition := to)]
    && t.tasks == s.tasks && t.criteria == s.criteria
  }
}
