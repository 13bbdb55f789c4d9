/** Turning a model's deliberation into integration candidates, and the batch
    that completes the run. */
module SleepDeliberation {
  import opened Prelude
  import opened Ordering
  import opened Model
  import opened Projector
  import opened Ledger
  import opened SleepSeeds
  import opened SleepBatch
  import opened SleepProtocol
  import opened Selection

  datatype SleepContext = SleepContext(
    run: SleepRunId, highWater: nat, seeds: seq<SleepSeed>, recalled: seq<RecalledItem>)

  datatype Draft = Draft(
    kind: CandidateKind, content: string, rationale: string, sources: seq<EventId>,
    counter: seq<EventId>, confidence: nat)

  datatype Deliberation = Deliberation(
    drafts: seq<Draft>, summary: string, weakPoints: seq<string>, possibleCounter: seq<EventId>)

  datatype DeliberationError =
    | OutOfBounds
    | ReviewOutsideContext
    | EmptyCandidate
    | CandidateOutOfBounds
    | NoSources
    | ProvenanceOutsideContext
    | Overlap
    | BadProposal
    | RevisionOutsideContext

  /** A draft is refused, dropped without refusing the others, or kept. */
  datatype Verdict = Refuse(error: DeliberationError) | Drop | Keep(candidate: IntegrationCandidate)

  predicate Allowed(ctx: SleepContext, id: EventId) {
    (exists seed | seed in ctx.seeds :: seed.event == id)
    || (exists item | item in ctx.recalled :: item.source == id)
  }

  predicate BoundsOk(d: Deliberation) {
    && |d.drafts| <= MAX_SLEEP_CANDIDATES
    && Utf8Len(Trim(d.summary)) <= MAX_SLEEP_TEXT
    && |d.weakPoints| <= MAX_SLEEP_CANDIDATES
    && |d.possibleCounter| <= MAX_CANDIDATE_SOURCES
    && forall w | w in d.weakPoints :: Utf8Len(Trim(w)) <= MAX_SLEEP_TEXT
  }

  predicate DraftBoundsOk(d: Draft) {
    && Utf8Len(Trim(d.content)) <= MAX_SLEEP_TEXT
    && Utf8Len(Trim(d.rationale)) <= MAX_SLEEP_TEXT
    && |d.sources| <= MAX_CANDIDATE_SOURCES
    && |d.counter| <= MAX_CANDIDATE_SOURCES
    && d.confidence <= 100
  }

  /** The target was recalled as it stands, and something new is a source. */
  predicate RevisionInContext(ctx: SleepContext, op: MemoryOperation, sources: seq<EventId>, counter: seq<EventId>) {
    && (exists item | item in ctx.recalled ::
          && item.entity == EntityRef(EntityKind.Memory, op.target)
          && item.source == op.expectedEvent
          && item.sourceHash == op.expectedHash
          && item.asOf == ctx.highWater)
    && op.expectedEvent in counter
    && exists seed | seed in ctx.seeds :: seed.event in sources
  }

  predicate Revisable(s: State, target: MemoryId) {
    target in s.memories && s.memories[target].status.Active? && !s.memories[target].kind.ExplicitPreference?
  }

  predicate KnownFingerprint(s: State, kept: seq<IntegrationCandidate>, fingerprint: string) {
    (exists id | id in s.candidates :: s.candidates[id].fingerprint == fingerprint)
    || (exists c | c in kept :: c.fingerprint == fingerprint)
  }

  function CandidateOf(env: Env, ctx: SleepContext, d: Draft, id: CandidateId): IntegrationCandidate {
    var sources, counter := DedupIds(d.sources), DedupIds(d.counter);
    IntegrationCandidate.IntegrationCandidate(
      id, ctx.run, d.kind, Disposition.NeedsValidation, ctx.highWater, Trim(d.content), Trim(d.rationale),
      sources, counter, d.confidence, CandidateFingerprint(env, d.kind, Trim(d.content), sources, counter))
  }

  function Judge(
    env: Env, ctx: SleepContext, s: State, kept: seq<IntegrationCandidate>, d: Draft, id: CandidateId): Verdict
  {
    var c := CandidateOf(env, ctx, d, id);
    if Blank(d.content) || Blank(d.rationale) then Refuse(EmptyCandidate)
    else if !DraftBoundsOk(d) then Refuse(CandidateOutOfBounds)
    else if c.sources == [] then Refuse(NoSources)
    else if exists e | e in c.sources + c.counter :: !Allowed(ctx, e) then Refuse(ProvenanceOutsideContext)
    else if exists e | e in c.sources :: e in c.counter then Refuse(Overlap)
    else
      var op := ParseMemoryProposal(env, d.content);
      if d.kind.MemoryRevision? && op.None? then Refuse(BadProposal)
      else if d.kind.MemoryRevision? && !RevisionInContext(ctx, op.value, c.sources, c.counter) then
        Refuse(RevisionOutsideContext)
      else if d.kind.MemoryRevision? && !Revisable(s, op.value.target) then Drop
      else if KnownFingerprint(s, kept, c.fingerprint) then Drop
      else Keep(c)
  }

  /** The candidates of the first drafts, or the first refusal. */
  function JudgeAll(env: Env, ctx: SleepContext, s: State, drafts: seq<Draft>, newId: nat -> CandidateId):
    Result<seq<IntegrationCandidate>, DeliberationError>
  {
    if drafts == [] then Ok([])
    else
      var last := |drafts| - 1;
      match JudgeAll(env, ctx, s, drafts[..last], newId)
      case Err(error) => Err(error)
      case Ok(kept) =>
        match Judge(env, ctx, s, kept, drafts[last], newId(last))
        case Refuse(error) => Err(error)
        case Drop => Ok(kept)
        case Keep(c) => Ok(kept + [c])
  }

  lemma {:induction false} RefusalStands(
    env: Env, ctx: SleepContext, s: State, drafts: seq<Draft>, newId: nat -> CandidateId, k: nat)
    requires k <= |drafts| && JudgeAll(env, ctx, s, drafts[..k], newId).Err?
    ensures JudgeAll(env, ctx, s, drafts, newId) == JudgeAll(env, ctx, s, drafts[..k], newId)
    decreases |drafts|
  {
    hide Judge;
    if k == |drafts| {
      assert drafts[..k] == drafts;
    } else {
      var front := drafts[..|drafts| - 1];
      assert front[..k] == drafts[..k];
      RefusalStands(env, ctx, s, front, newId, k);
    }
  }

  function Validated(env: Env, ctx: SleepContext, s: State, d: Deliberation, newId: nat -> CandidateId):
    Result<seq<IntegrationCandidate>, DeliberationError>
  {
    if !BoundsOk(d) then Err(OutOfBounds)
    else if exists e | e in d.possibleCounter :: !Allowed(ctx, e) then Err(ReviewOutsideContext)
    else JudgeAll(env, ctx, s, d.drafts, newId)
  }

  lemma JudgeNext(
    env: Env, ctx: SleepContext, s: State, drafts: seq<Draft>, newId: nat -> CandidateId, i: nat,
    kept: seq<IntegrationCandidate>)
    requires i < |drafts| && JudgeAll(env, ctx, s, drafts[..i], newId) == Ok(kept)
    ensures JudgeAll(env, ctx, s, drafts[..i + 1], newId)
            == match Judge(env, ctx, s, kept, drafts[i], newId(i))
               case Refuse(error) => Err(error)
               case Drop => Ok(kept)
               case Keep(c) => Ok(kept + [c])
  {
    hide Judge;
    assert drafts[..i + 1][..i] == drafts[..i];
  }

  lemma JudgeNone(env: Env, ctx: SleepContext, s: State, newId: nat -> CandidateId)
    ensures JudgeAll(env, ctx, s, [], newId) == Ok([])
  {
  }

  /** Walks the drafts, growing the list of candidates, and stops at the first refusal. */
  method ValidateDeliberation(env: Env, ctx: SleepContext, s: State, d: Deliberation, newId: nat -> CandidateId)
    returns (r: Result<seq<IntegrationCandidate>, DeliberationError>)
    ensures r == Validated(env, ctx, s, d, newId)
  {
    hide Judge, JudgeAll, BoundsOk, Allowed;
    if !BoundsOk(d) {
      return Err(OutOfBounds);
    }
    if exists e | e in d.possibleCounter :: !Allowed(ctx, e) {
      return Err(ReviewOutsideContext);
    }
    var candidates: seq<IntegrationCandidate> := [];
    JudgeNone(env, ctx, s, newId);
    for i := 0 to |d.drafts|
      invariant JudgeAll(env, ctx, s, d.drafts[..i], newId) == Ok(candidates)
    {
      JudgeNext(env, ctx, s, d.drafts, newId, i, candidates);
      var verdict := Judge(env, ctx, s, candidates, d.drafts[i], newId(i));
      match verdict {
        case Refuse(error) =>
          RefusalStands(env, ctx, s, d.drafts, newId, i + 1);
          return Err(error);
        case Drop =>
        case Keep(c) => candidates := candidates + [c];
      }
    }
    assert d.drafts[..|d.drafts|] == d.drafts;
    return Ok(candidates);
  }

  // ---------------------------------------------------------------- what a kept candidate satisfies

  /** Everything the projector asks of a candidate that does not depend on the
      other candidates. */
  ghost predicate WellFormed(env: Env, ctx: SleepContext, c: IntegrationCandidate) {
    && c.disposition.NeedsValidation?
    && !Blank(c.content) && !Blank(c.rationale)
    && c.sources != []
    && |c.sources| <= MAX_CANDIDATE_SOURCES && |c.counter| <= MAX_CANDIDATE_SOURCES
    && c.confidence <= 100
    && (forall e | e in c.sources :: Allowed(ctx, e) && e !in c.counter)
    && (forall e | e in c.counter :: Allowed(ctx, e))
    && c.run == ctx.run && c.asOf == ctx.highWater
    && FingerprintMatches(env, c)
  }

  ghost predicate FingerprintsNew(s: State, cs: seq<IntegrationCandidate>) {
    && (forall c, id | c in cs && id in s.candidates :: s.candidates[id].fingerprint != c.fingerprint)
    && (forall i, j | 0 <= i < j < |cs| :: cs[i].fingerprint != cs[j].fingerprint)
  }

  lemma KeptWellFormed(
    env: Env, ctx: SleepContext, s: State, kept: seq<IntegrationCandidate>, d: Draft, id: CandidateId)
    requires Judge(env, ctx, s, kept, d, id).Keep?
    ensures var c := Judge(env, ctx, s, kept, d, id).candidate;
            WellFormed(env, ctx, c) && !KnownFingerprint(s, kept, c.fingerprint)
  {
    hide ParseMemoryProposal, RevisionInContext, Trim;
    TrimIdempotent(d.content);
    TrimIdempotent(d.rationale);
    DedupIdsSet(d.sources);
    DedupIdsSet(d.counter);
    var c := CandidateOf(env, ctx, d, id);
    forall e | e in c.sources ensures Allowed(ctx, e) { assert e in c.sources + c.counter; }
    forall e | e in c.counter ensures Allowed(ctx, e) { assert e in c.sources + c.counter; }
  }

  /** The candidates of an accepted deliberation are well formed, and their
      fingerprints are new to the state and to each other. */
  lemma {:induction false} ValidatedMeaning(
    env: Env, ctx: SleepContext, s: State, drafts: seq<Draft>, newId: nat -> CandidateId)
    requires JudgeAll(env, ctx, s, drafts, newId).Ok?
    ensures var cs := JudgeAll(env, ctx, s, drafts, newId).value;
            && |cs| <= |drafts|
            && (forall c | c in cs :: WellFormed(env, ctx, c))
            && FingerprintsNew(s, cs)
  {
    hide Judge, WellFormed;
    if drafts != [] {
      var last := |drafts| - 1;
      ValidatedMeaning(env, ctx, s, drafts[..last], newId);
      var kept := JudgeAll(env, ctx, s, drafts[..last], newId).value;
      var verdict := Judge(env, ctx, s, kept, drafts[last], newId(last));
      if verdict.Keep? {
        KeptWellFormed(env, ctx, s, kept, drafts[last], newId(last));
        assert forall i | 0 <= i < |kept| :: kept[i] in kept;
      }
    }
  }

  // ---------------------------------------------------------------- which drafts become candidates

  /** A candidate that states its draft: the trimmed texts, the sources and the
      counterevidence in order without repetition, and the run of the context. */
  ghost predicate States(env: Env, ctx: SleepContext, d: Draft, id: CandidateId, c: IntegrationCandidate) {
    && c.id == id && c.run == ctx.run && c.asOf == ctx.highWater && c.disposition.NeedsValidation?
    && c.kind == d.kind && c.content == Trim(d.content) && c.rationale == Trim(d.rationale)
    && c.confidence == d.confidence
    && Sorted(NatLt, c.sources) && (forall e :: e in c.sources <==> e in d.sources)
    && Sorted(NatLt, c.counter) && (forall e :: e in c.counter <==> e in d.counter)
    && FingerprintMatches(env, c)
  }

  /** The draft revises a Memory that is no longer there to be revised. */
  ghost predicate Outdated(env: Env, s: State, d: Draft) {
    d.kind.MemoryRevision? && ParseMemoryProposal(env, d.content).Some? &&
    var target := ParseMemoryProposal(env, d.content).value.target;
    target in s.memories ==> !s.memories[target].status.Active? || s.memories[target].kind.ExplicitPreference?
  }

  /** The candidate proposes something neither the state nor an earlier one does. */
  ghost predicate NewProposal(s: State, earlier: seq<IntegrationCandidate>, c: IntegrationCandidate) {
    && (forall id | id in s.candidates :: s.candidates[id].fingerprint != c.fingerprint)
    && (forall k | 0 <= k < |earlier| :: earlier[k].fingerprint != c.fingerprint)
  }

  /** The candidates the drafts would make, one for each. */
  ghost predicate AllStated(
    env: Env, ctx: SleepContext, drafts: seq<Draft>, newId: nat -> CandidateId, all: seq<IntegrationCandidate>)
  {
    |all| == |drafts| && forall i: nat | i < |drafts| :: States(env, ctx, drafts[i], newId(i), all[i])
  }

  /** A draft's candidate goes behind the ones kept before it. */
  ghost function Fresh(env: Env, s: State, drafts: seq<Draft>): (nat, seq<IntegrationCandidate>) -> bool {
    (i: nat, list: seq<IntegrationCandidate>) =>
      && i < |drafts| && !Outdated(env, s, drafts[i])
      && list != [] && NewProposal(s, list[..|list| - 1], list[|list| - 1])
  }

  /** The candidates come from the drafts in order: each states its draft, and a draft
      is left out exactly when it revises a Memory that is gone or proposes nothing new. */
  ghost predicate FromDrafts(
    env: Env, ctx: SleepContext, s: State, drafts: seq<Draft>, newId: nat -> CandidateId, cs: seq<IntegrationCandidate>)
  {
    exists all, places :: AllStated(env, ctx, drafts, newId, all) && TakenInTurn(Fresh(env, s, drafts), all, cs, places)
  }

  lemma CandidateStates(env: Env, ctx: SleepContext, d: Draft, id: CandidateId)
    ensures States(env, ctx, d, id, CandidateOf(env, ctx, d, id))
  {
    hide Trim;
    TrimIdempotent(d.content);
    DedupIdsSet(d.sources);
    DedupIdsSet(d.counter);
  }

  /** What the verdict on a draft that is not refused depends on. */
  lemma JudgedFresh(
    env: Env, ctx: SleepContext, s: State, drafts: seq<Draft>, kept: seq<IntegrationCandidate>, i: nat, id: CandidateId)
    requires i < |drafts| && !Judge(env, ctx, s, kept, drafts[i], id).Refuse?
    ensures var c := CandidateOf(env, ctx, drafts[i], id);
            Judge(env, ctx, s, kept, drafts[i], id)
            == if Fresh(env, s, drafts)(i, kept + [c]) then Keep(c) else Drop
  {
    hide CandidateOf, ParseMemoryProposal, RevisionInContext, DraftBoundsOk, Allowed;
    var c := CandidateOf(env, ctx, drafts[i], id);
    assert (kept + [c])[..|kept|] == kept;
  }

  /** Growing the list of drafts does not change what was fresh before. */
  lemma {:induction false} DraftPlaces(
    env: Env, ctx: SleepContext, s: State, drafts: seq<Draft>, newId: nat -> CandidateId, count: nat)
    requires count <= |drafts| && JudgeAll(env, ctx, s, drafts[..count], newId).Ok?
    ensures exists all, places ::
              && AllStated(env, ctx, drafts[..count], newId, all)
              && TakenInTurn(Fresh(env, s, drafts), all, JudgeAll(env, ctx, s, drafts[..count], newId).value, places)
  {
    hide TakenInTurn, Judge, Fresh, States, CandidateOf;
    if count == 0 {
      assert drafts[..0] == [];
      assert AllStated(env, ctx, [], newId, []);
      NothingTaken(Fresh(env, s, drafts));
    } else {
      assert drafts[..count][..count - 1] == drafts[..count - 1];
      DraftPlaces(env, ctx, s, drafts, newId, count - 1);
      var kept := JudgeAll(env, ctx, s, drafts[..count - 1], newId).value;
      var all, places :| AllStated(env, ctx, drafts[..count - 1], newId, all)
                         && TakenInTurn(Fresh(env, s, drafts), all, kept, places);
      var c := CandidateOf(env, ctx, drafts[count - 1], newId(count - 1));
      CandidateStates(env, ctx, drafts[count - 1], newId(count - 1));
      JudgedFresh(env, ctx, s, drafts, kept, count - 1, newId(count - 1));
      TakeNext(Fresh(env, s, drafts), all, kept, places, c);
      assert AllStated(env, ctx, drafts[..count], newId, all + [c]);
    }
  }

  /** Every candidate of an accepted deliberation states its draft, and no draft is
      lost that proposes something new. */
  lemma CandidatesOfDrafts(env: Env, ctx: SleepContext, s: State, d: Deliberation, newId: nat -> CandidateId)
    requires Validated(env, ctx, s, d, newId).Ok?
    ensures FromDrafts(env, ctx, s, d.drafts, newId, Validated(env, ctx, s, d, newId).value)
  {
    hide TakenInTurn, AllStated, JudgeAll;
    assert d.drafts[..|d.drafts|] == d.drafts;
    DraftPlaces(env, ctx, s, d.drafts, newId, |d.drafts|);
  }

  // ---------------------------------------------------------------- which deliberations are accepted

  /** The context shows the event, as a seed or as a recalled item. */
  ghost predicate InContext(ctx: SleepContext, id: EventId) {
    || (exists i | 0 <= i < |ctx.seeds| :: ctx.seeds[i].event == id)
    || (exists i | 0 <= i < |ctx.recalled| :: ctx.recalled[i].source == id)
  }

  /** The revision names a Memory the context recalls at its own revision, by the event
      and the hash it was recalled with; the draft counters that event and rests on a seed. */
  ghost predicate TargetRecalled(ctx: SleepContext, op: MemoryOperation, d: Draft) {
    && (exists i | 0 <= i < |ctx.recalled| ::
          ctx.recalled[i] == RecalledItem(EntityRef(EntityKind.Memory, op.target), op.expectedEvent, op.expectedHash,
                                          ctx.highWater))
    && op.expectedEvent in d.counter
    && (exists i | 0 <= i < |ctx.seeds| :: ctx.seeds[i].event in d.sources)
  }

  /** The draft has two texts and sources, keeps the bounds, and rests on the context alone. */
  ghost predicate GoodDraft(env: Env, ctx: SleepContext, d: Draft) {
    && !AllWhitespace(d.content) && Utf8Len(Trim(d.content)) <= MAX_SLEEP_TEXT
    && !AllWhitespace(d.rationale) && Utf8Len(Trim(d.rationale)) <= MAX_SLEEP_TEXT
    && 0 < |d.sources| <= MAX_CANDIDATE_SOURCES && |d.counter| <= MAX_CANDIDATE_SOURCES
    && d.confidence <= 100
    && (forall e | e in d.sources :: InContext(ctx, e) && e !in d.counter)
    && (forall e | e in d.counter :: InContext(ctx, e))
    && (d.kind.MemoryRevision? ==>
          var op := ParseMemoryProposal(env, d.content);
          op.Some? && TargetRecalled(ctx, op.value, d))
  }

  ghost predicate GoodReview(ctx: SleepContext, d: Deliberation) {
    && |d.drafts| <= MAX_SLEEP_CANDIDATES && |d.weakPoints| <= MAX_SLEEP_CANDIDATES
    && |d.possibleCounter| <= MAX_CANDIDATE_SOURCES
    && Utf8Len(Trim(d.summary)) <= MAX_SLEEP_TEXT
    && (forall i | 0 <= i < |d.weakPoints| :: Utf8Len(Trim(d.weakPoints[i])) <= MAX_SLEEP_TEXT)
    && (forall i | 0 <= i < |d.possibleCounter| :: InContext(ctx, d.possibleCounter[i]))
  }

  lemma ContextMeaning(ctx: SleepContext, id: EventId)
    ensures Allowed(ctx, id) <==> InContext(ctx, id)
  {
    if seed :| seed in ctx.seeds && seed.event == id {
      var i :| 0 <= i < |ctx.seeds| && ctx.seeds[i] == seed;
    }
    if item :| item in ctx.recalled && item.source == id {
      var i :| 0 <= i < |ctx.recalled| && ctx.recalled[i] == item;
    }
  }

  lemma RecalledMeaning(ctx: SleepContext, op: MemoryOperation, d: Draft)
    ensures RevisionInContext(ctx, op, DedupIds(d.sources), DedupIds(d.counter)) <==> TargetRecalled(ctx, op, d)
  {
    DedupIdsSet(d.sources);
    DedupIdsSet(d.counter);
    hide DedupIds;
    if seed :| seed in ctx.seeds && seed.event in d.sources {
      var i :| 0 <= i < |ctx.seeds| && ctx.seeds[i] == seed;
    }
    if i :| 0 <= i < |ctx.seeds| && ctx.seeds[i].event in d.sources {
      assert ctx.seeds[i] in ctx.seeds && ctx.seeds[i].event in DedupIds(d.sources);
    }
  }

  /** A draft is refused for itself, whatever was kept before it. */
  lemma RefusedExactly(
    env: Env, ctx: SleepContext, s: State, kept: seq<IntegrationCandidate>, d: Draft, id: CandidateId)
    ensures Judge(env, ctx, s, kept, d, id).Refuse? <==> !GoodDraft(env, ctx, d)
  {
    BlankMeaning(d.content);
    BlankMeaning(d.rationale);
    DedupIdsSet(d.sources);
    DedupIdsSet(d.counter);
    forall e ensures Allowed(ctx, e) <==> InContext(ctx, e) { ContextMeaning(ctx, e); }
    forall op ensures RevisionInContext(ctx, op, DedupIds(d.sources), DedupIds(d.counter)) <==> TargetRecalled(ctx, op, d) {
      RecalledMeaning(ctx, op, d);
    }
    hide Allowed, InContext, RevisionInContext, TargetRecalled, ParseMemoryProposal, DedupIds, Trim, Utf8Len, Blank;
  }

  lemma {:induction false} JudgedWhenGood(
    env: Env, ctx: SleepContext, s: State, drafts: seq<Draft>, newId: nat -> CandidateId)
    ensures JudgeAll(env, ctx, s, drafts, newId).Ok? <==> forall i | 0 <= i < |drafts| :: GoodDraft(env, ctx, drafts[i])
  {
    hide Judge, GoodDraft;
    if drafts != [] {
      var last := |drafts| - 1;
      JudgedWhenGood(env, ctx, s, drafts[..last], newId);
      assert forall i | 0 <= i < last :: drafts[..last][i] == drafts[i];
      if JudgeAll(env, ctx, s, drafts[..last], newId).Ok? {
        RefusedExactly(env, ctx, s, JudgeAll(env, ctx, s, drafts[..last], newId).value, drafts[last], newId(last));
      }
    }
  }

  /** A deliberation is accepted exactly when its review and each of its drafts is good. */
  lemma AcceptedExactly(env: Env, ctx: SleepContext, s: State, d: Deliberation, newId: nat -> CandidateId)
    ensures Validated(env, ctx, s, d, newId).Ok?
            <==> GoodReview(ctx, d) && forall i | 0 <= i < |d.drafts| :: GoodDraft(env, ctx, d.drafts[i])
  {
    hide JudgeAll, GoodDraft, Trim, Utf8Len;
    JudgedWhenGood(env, ctx, s, d.drafts, newId);
    forall e ensures Allowed(ctx, e) <==> InContext(ctx, e) { ContextMeaning(ctx, e); }
    hide Allowed, InContext;
    assert forall i | 0 <= i < |d.possibleCounter| :: d.possibleCounter[i] in d.possibleCounter;
    assert forall i | 0 <= i < |d.weakPoints| :: d.weakPoints[i] in d.weakPoints;
  }

  // ---------------------------------------------------------------- the completion batch

  function CandidateEvent(env: Env, hekate: PrincipalId, id: EventId, c: IntegrationCandidate): Event {
    Seal(env, Event(id, hekate, CandidateCreated(c, true),
                    Some(EntityRef(EntityKind.IntegrationCandidate, c.id)),
                    SourceType.Sleep, Some(c.run), None, Some(c.run), ""))
  }

  function CandidateEvents(env: Env, hekate: PrincipalId, ids: seq<EventId>, cs: seq<IntegrationCandidate>): seq<Event>
    requires |ids| == |cs|
  {
    if cs == [] then []
    else
      var last := |cs| - 1;
      CandidateEvents(env, hekate, ids[..last], cs[..last]) + [CandidateEvent(env, hekate, ids[last], cs[last])]
  }

  /** The context names only events that were already applied. */
  ghost predicate Grounded(ctx: SleepContext, s: State) {
    forall id | Allowed(ctx, id) :: id in s.applied
  }

  /** The run of the context is the running one, at a revision already reached. */
  ghost predicate RunsIn(ctx: SleepContext, s: State) {
    && ctx.run in s.sleepRuns
    && s.sleepRuns[ctx.run].status.Running?
    && s.sleepRuns[ctx.run].highWater == ctx.highWater
  }

  lemma CandidateStep(env: Env, s: State, e: Event, ctx: SleepContext, c: IntegrationCandidate)
    requires e.body == CandidateCreated(c, true) && e.id !in s.applied
    requires WellFormed(env, ctx, c) && Grounded(ctx, s) && RunsIn(ctx, s)
    requires forall id | id in s.candidates :: s.candidates[id].fingerprint != c.fingerprint
    ensures Step(env, s, e).Some?
    ensures var t := Step(env, s, e).value;
            && t.candidates == s.candidates[c.id := c]
            && t.sleepRuns == s.sleepRuns && t.sleepCursor == s.sleepCursor
            && t.applied == s.applied + [e.id]
  {
    CandidateGuards(env, s, ctx, c);
    hide CandidateAccepted;
  }

  lemma CandidateGuards(env: Env, s: State, ctx: SleepContext, c: IntegrationCandidate)
    requires WellFormed(env, ctx, c) && Grounded(ctx, s) && RunsIn(ctx, s)
    requires forall id | id in s.candidates :: s.candidates[id].fingerprint != c.fingerprint
    ensures CandidateAccepted(env, s, c, true) && EffectiveCandidate(s, c, true) == c
  {
  }

  /** The fingerprints of a state after some candidates are the earlier ones and theirs. */
  ghost predicate FingerprintsFrom(base: State, cs: seq<IntegrationCandidate>, t: State) {
    forall id | id in t.candidates ::
      (id in base.candidates && t.candidates[id] == base.candidates[id]) || t.candidates[id] in cs
  }

  /** No candidate of the list has this identifier. */
  ghost predicate NoneNamed(cs: seq<IntegrationCandidate>, id: CandidateId) {
    forall k | 0 <= k < |cs| :: cs[k].id != id
  }

  /** Every candidate is stored under its identifier, unless a later one has the same;
      no other stored candidate changes. */
  ghost predicate AllStored(
    base: map<CandidateId, IntegrationCandidate>, cs: seq<IntegrationCandidate>, all: map<CandidateId, IntegrationCandidate>)
  {
    && (forall id | id in base && NoneNamed(cs, id) :: id in all && all[id] == base[id])
    && (forall i | 0 <= i < |cs| && NoneNamed(cs[i + 1..], cs[i].id) :: cs[i].id in all && all[cs[i].id] == cs[i])
  }

  lemma NoneNamedFront(cs: seq<IntegrationCandidate>, last: IntegrationCandidate, id: CandidateId)
    ensures NoneNamed(cs + [last], id) <==> NoneNamed(cs, id) && last.id != id
  {
    assert (cs + [last])[|cs|] == last;
    assert forall k | 0 <= k < |cs| :: (cs + [last])[k] == cs[k];
  }

  lemma OneMoreStored(
    base: map<CandidateId, IntegrationCandidate>, cs: seq<IntegrationCandidate>, last: IntegrationCandidate,
    all: map<CandidateId, IntegrationCandidate>)
    requires AllStored(base, cs, all)
    ensures AllStored(base, cs + [last], all[last.id := last])
  {
    hide NoneNamed;
    var more, next := cs + [last], all[last.id := last];
    forall id | id in base && NoneNamed(more, id) ensures id in next && next[id] == base[id] {
      NoneNamedFront(cs, last, id);
    }
    forall i | 0 <= i < |more| && NoneNamed(more[i + 1..], more[i].id) ensures more[i].id in next && next[more[i].id] == more[i] {
      if i < |cs| {
        assert more[i + 1..] == cs[i + 1..] + [last];
        NoneNamedFront(cs[i + 1..], last, more[i].id);
      }
    }
  }

  lemma StillGrounded(ctx: SleepContext, s: State, t: State)
    requires Grounded(ctx, s) && RunsIn(ctx, s)
    requires t.sleepRuns == s.sleepRuns && s.applied <= t.applied
    ensures Grounded(ctx, t) && RunsIn(ctx, t)
  {
    hide Allowed;
  }

  lemma CandidateEventShape(env: Env, hekate: PrincipalId, id: EventId, c: IntegrationCandidate)
    ensures var e := CandidateEvent(env, hekate, id, c); e.id == id && e.body == CandidateCreated(c, true)
  {
  }

  lemma NextFingerprintNew(base: State, cs: seq<IntegrationCandidate>, mid: State)
    requires cs != [] && FingerprintsNew(base, cs) && FingerprintsFrom(base, cs[..|cs| - 1], mid)
    ensures forall id | id in mid.candidates :: mid.candidates[id].fingerprint != cs[|cs| - 1].fingerprint
  {
    var last := |cs| - 1;
    forall id | id in mid.candidates ensures mid.candidates[id].fingerprint != cs[last].fingerprint {
      if mid.candidates[id] in cs[..last] {
        var i :| 0 <= i < last && cs[i] == mid.candidates[id];
      }
    }
  }

  /** What the state is after some of the candidates, and what the next one needs of it. */
  ghost predicate Applied(base: State, ids: seq<EventId>, cs: seq<IntegrationCandidate>, t: State) {
    && t.sleepRuns == base.sleepRuns && t.sleepCursor == base.sleepCursor
    && t.applied == base.applied + ids
    && FingerprintsFrom(base, cs, t) && AllStored(base.candidates, cs, t.candidates)
  }

  lemma LastIsNew(earlier: seq<EventId>, ids: seq<EventId>)
    requires ids != [] && Distinct(ids) && forall id | id in ids :: id !in earlier
    ensures ids[|ids| - 1] !in earlier + ids[..|ids| - 1]
    ensures earlier + ids == earlier + ids[..|ids| - 1] + [ids[|ids| - 1]]
  {
    var last := |ids| - 1;
    assert ids[last] in ids;
    assert ids == ids[..last] + [ids[last]];
  }

  lemma FingerprintsGrow(base: State, cs: seq<IntegrationCandidate>, mid: State, t: State)
    requires cs != [] && FingerprintsFrom(base, cs[..|cs| - 1], mid)
    requires t.candidates == mid.candidates[cs[|cs| - 1].id := cs[|cs| - 1]]
    ensures FingerprintsFrom(base, cs, t)
  {
    assert cs == cs[..|cs| - 1] + [cs[|cs| - 1]];
  }

  lemma OneMoreAccepted(
    env: Env, hekate: PrincipalId, base: State, mid: State, ctx: SleepContext, ids: seq<EventId>,
    cs: seq<IntegrationCandidate>)
    requires |ids| == |cs| && cs != [] && Distinct(ids) && (forall id | id in ids :: id !in base.applied)
    requires WellFormed(env, ctx, cs[|cs| - 1]) && FingerprintsNew(base, cs)
    requires Grounded(ctx, base) && RunsIn(ctx, base)
    requires Applied(base, ids[..|cs| - 1], cs[..|cs| - 1], mid)
    ensures var e := CandidateEvent(env, hekate, ids[|cs| - 1], cs[|cs| - 1]);
            Step(env, mid, e).Some? && Applied(base, ids, cs, Step(env, mid, e).value)
  {
    var last := |cs| - 1;
    CandidateEventShape(env, hekate, ids[last], cs[last]);
    hide Step, WellFormed, FingerprintsNew, FingerprintsFrom, AllStored, CandidateEvent, Grounded, RunsIn, Distinct;
    var e := CandidateEvent(env, hekate, ids[last], cs[last]);
    LastIsNew(base.applied, ids);
    NextFingerprintNew(base, cs, mid);
    StillGrounded(ctx, base, mid);
    CandidateStep(env, mid, e, ctx, cs[last]);
    FingerprintsGrow(base, cs, mid, Step(env, mid, e).value);
    assert cs == cs[..last] + [cs[last]];
    OneMoreStored(base.candidates, cs[..last], cs[last], mid.candidates);
  }

  lemma FrontNew(base: State, ids: seq<EventId>, cs: seq<IntegrationCandidate>)
    requires |ids| == |cs| && cs != [] && Distinct(ids) && FingerprintsNew(base, cs)
    ensures Distinct(ids[..|cs| - 1]) && FingerprintsNew(base, cs[..|cs| - 1])
    ensures forall id | id in ids[..|cs| - 1] :: id in ids
    ensures forall c | c in cs[..|cs| - 1] :: c in cs
    ensures cs[|cs| - 1] in cs
  {
  }

  lemma NoneApplied(base: State)
    ensures Applied(base, [], [], base)
  {
  }

  lemma {:induction false} CandidatesAccepted(
    env: Env, hekate: PrincipalId, base: State, ctx: SleepContext, ids: seq<EventId>, cs: seq<IntegrationCandidate>)
    requires |ids| == |cs| && Distinct(ids) && (forall id | id in ids :: id !in base.applied)
    requires (forall c | c in cs :: WellFormed(env, ctx, c)) && FingerprintsNew(base, cs)
    requires Grounded(ctx, base) && RunsIn(ctx, base)
    ensures ApplyAll(env, base, CandidateEvents(env, hekate, ids, cs)).Some?
    ensures Applied(base, ids, cs, ApplyAll(env, base, CandidateEvents(env, hekate, ids, cs)).value)
  {
    hide Step, WellFormed, Applied, CandidateEvent, Grounded, RunsIn, Distinct, FingerprintsNew;
    if cs == [] {
      assert ids == [];
      NoneApplied(base);
    } else {
      var last := |cs| - 1;
      var front := CandidateEvents(env, hekate, ids[..last], cs[..last]);
      FrontNew(base, ids, cs);
      CandidatesAccepted(env, hekate, base, ctx, ids[..last], cs[..last]);
      OneMoreAccepted(env, hekate, base, ApplyAll(env, base, front).value, ctx, ids, cs);
      ApplyLast(env, base, front, CandidateEvent(env, hekate, ids[last], cs[last]));
    }
  }

  /** The run has ended at the cursor, its candidates are stored, and nothing else of
      Sleep changed. */
  ghost predicate CompletedWith(base: State, run: SleepRunId, cursor: nat, cs: seq<IntegrationCandidate>, t: State) {
    && t.sleepCursor == cursor && AllStored(base.candidates, cs, t.candidates)
    && run in base.sleepRuns
    && t.sleepRuns == base.sleepRuns[run := base.sleepRuns[run].(status := SleepRunStatus.Completed, cursorAfter := Some(cursor))]
  }

  /** The batch that completes a run is accepted event by event: provenance is
      applied already, fingerprints are unique and the cursor is in bounds. */
  lemma CompletionAccepted(
    env: Env, hekate: PrincipalId, base: State, ctx: SleepContext, d: Deliberation,
    newId: nat -> CandidateId, ids: seq<EventId>, event: EventId, cursor: nat)
    requires Validated(env, ctx, base, d, newId).Ok?
    requires |ids| == |Validated(env, ctx, base, d, newId).value|
    requires Distinct(ids + [event]) && forall id | id in ids + [event] :: id !in base.applied
    requires Grounded(ctx, base) && RunsIn(ctx, base) && base.sleepRuns[ctx.run].id == ctx.run
    requires base.sleepRuns[ctx.run].cursorBefore <= cursor <= ctx.highWater
    ensures var cs := Validated(env, ctx, base, d, newId).value;
            var finish := SleepEvent(env, hekate, event, SleepEventKind.Completed,
                                     CompletedRun(base.sleepRuns[ctx.run], cursor));
            var after := ApplyAll(env, base, CandidateEvents(env, hekate, ids, cs) + [finish]);
            && after.Some? && CompletedWith(base, ctx.run, cursor, cs, after.value)
  {
    hide Step, WellFormed, Allowed, JudgeAll, AllStored;
    var cs := Validated(env, ctx, base, d, newId).value;
    ValidatedMeaning(env, ctx, base, d.drafts, newId);
    assert forall id | id in ids :: id in ids + [event];
    assert Distinct(ids) by { assert (ids + [event])[..|ids|] == ids; }
    CandidatesAccepted(env, hekate, base, ctx, ids, cs);
    var events := CandidateEvents(env, hekate, ids, cs);
    var mid := ApplyAll(env, base, events).value;
    var finish := SleepEvent(env, hekate, event, SleepEventKind.Completed, CompletedRun(base.sleepRuns[ctx.run], cursor));
    assert event in ids + [event];
    assert event !in ids by {
      assert forall i | 0 <= i < |ids| :: (ids + [event])[i] != (ids + [event])[|ids|];
    }
    FinishStep(env, mid, finish);
    ApplyLast(env, base, events, finish);
  }

  lemma FinishStep(env: Env, s: State, e: Event)
    requires e.body.SleepRunEvent? && e.body.sleepKind.Completed? && e.id !in s.applied
    requires SleepRunAccepted(s, e.body.sleepKind, e.body.run)
    ensures Step(env, s, e).Some?
    ensures Step(env, s, e).value.sleepCursor == e.body.run.cursorAfter.value
    ensures Step(env, s, e).value.sleepRuns == s.sleepRuns[e.body.run.id := e.body.run]
    ensures Step(env, s, e).value.candidates == s.candidates
  {
  }

  // ---------------------------------------------------------------- completing a run in the race

  lemma {:induction false} CandidateEventsShape(
    env: Env, hekate: PrincipalId, ids: seq<EventId>, cs: seq<IntegrationCandidate>)
    requires |ids| == |cs|
    ensures AllIntact(env, CandidateEvents(env, hekate, ids, cs))
    ensures forall e | e in CandidateEvents(env, hekate, ids, cs) :: e.body.CandidateCreated?
  {
    if cs != [] {
      CandidateEventsShape(env, hekate, ids[..|cs| - 1], cs[..|cs| - 1]);
    }
  }

  lemma {:induction false} DecodedInLedger(events: seq<Event>, ids: seq<EventId>, highWater: nat)
    ensures forall seed | seed in DecodeAll(events, ids, highWater) :: seed.event in Ids(events)
  {
    hide SeedOf;
    if ids != [] {
      DecodedInLedger(events, ids[..|ids| - 1], highWater);
      var i := IndexOf(Ids(events), ids[|ids| - 1]);
      if i.Some? {
        SeedNumber(events[i.value], i.value + 1);
      }
    }
  }

  /** The context built for a run: its own seeds, and recalled items of the ledger. */
  ghost predicate ContextOf(ledger: seq<Event>, run: SleepRun, ctx: SleepContext) {
    && ctx.run == run.id && ctx.highWater == run.highWater
    && ctx.seeds == DecodeAll(ledger, run.seeds, run.highWater)
    && forall item | item in ctx.recalled :: item.source in Ids(ledger)
  }

  lemma ContextGrounded(env: Env, st: Store, run: SleepRun, ctx: SleepContext)
    requires Consistent(env, st) && ContextOf(st.ledger, run, ctx)
    ensures Grounded(ctx, st.state)
  {
    hide After, BodyAccepted;
    ReplayCounts(env, st.ledger);
    DecodedInLedger(st.ledger, run.seeds, run.highWater);
  }

  /** The run a coordinator holds, when its base is still the stored state. */
  lemma HeldRun(env: Env, w: World, c: nat)
    requires WorldOk(env, w) && CoordinatorOf(w, c).Holding? && CoordinatorOf(w, c).base == w.store.state
    ensures var k := CoordinatorOf(w, c);
            && k.cursorAfter.Some?
            && k.run.id in w.store.state.sleepRuns && w.store.state.sleepRuns[k.run.id] == k.run
            && k.run.status.Running?
            && k.run.cursorBefore < k.cursorAfter.value <= k.run.highWater
  {
    hide After, BodyAccepted;
    var k := CoordinatorOf(w, c);
    CurrentIsBase(env, w);
    RunConsumes(w.store.ledger, w.store.state.sleepCursor, k.run);
  }

  /** The event that ends the run a coordinator holds. */
  function FinishEvent(env: Env, hekate: PrincipalId, event: EventId, run: SleepRun, cursor: nat): Event {
    SleepEvent(env, hekate, event, SleepEventKind.Completed, CompletedRun(run, cursor))
  }

  lemma FinishIntact(env: Env, hekate: PrincipalId, candidates: seq<Event>, event: EventId, run: SleepRun, cursor: nat)
    requires AllIntact(env, candidates)
    ensures AllIntact(env, candidates + [FinishEvent(env, hekate, event, run, cursor)])
  {
  }

  lemma FinishStore(env: Env, hekate: PrincipalId, w: World, c: nat, candidates: seq<Event>, event: EventId)
    requires CoordinatorOf(w, c).Holding? && CoordinatorOf(w, c).cursorAfter.Some?
    requires forall e | e in candidates :: e.body.CandidateCreated?
    ensures var k := CoordinatorOf(w, c);
            var result := RecordBatch(env, w.store,
                                      candidates + [FinishEvent(env, hekate, event, k.run, k.cursorAfter.value)],
                                      Some(k.base.revision));
            result.Ok? ==> Next(env, hekate, w, CommitFinish(c, candidates, event)).store == result.value
  {
    hide RecordBatch, SleepEvent, CompletedRun;
  }

  /** The commit of a completion batch the projector accepts. */
  lemma FinishCommits(env: Env, hekate: PrincipalId, w: World, c: nat, candidates: seq<Event>, event: EventId)
    requires WorldOk(env, w) && CoordinatorOf(w, c).Holding? && CoordinatorOf(w, c).base == w.store.state
    requires CoordinatorOf(w, c).cursorAfter.Some?
    requires AllIntact(env, candidates) && forall e | e in candidates :: e.body.CandidateCreated?
    requires var k := CoordinatorOf(w, c);
             ApplyAll(env, w.store.state,
                      candidates + [FinishEvent(env, hekate, event, k.run, k.cursorAfter.value)]).Some?
    ensures var k := CoordinatorOf(w, c);
            var batch := candidates + [FinishEvent(env, hekate, event, k.run, k.cursorAfter.value)];
            var next := Next(env, hekate, w, CommitFinish(c, candidates, event)).store;
            next.ledger == w.store.ledger + batch && ApplyAll(env, w.store.state, batch) == Some(next.state)
  {
    hide Step, WorldOk, RecordBatch, ApplyAll, Consistent, AllIntact, Next, FinishEvent;
    var k := CoordinatorOf(w, c);
    FinishIntact(env, hekate, candidates, event, k.run, k.cursorAfter.value);
    FinishStore(env, hekate, w, c, candidates, event);
    CurrentIsBase(env, w);
    WorldConsistent(env, w);
    RecordBatchLands(env, w.store, candidates + [FinishEvent(env, hekate, event, k.run, k.cursorAfter.value)],
                     Some(w.store.state.revision));
  }

  lemma WorldConsistent(env: Env, w: World)
    requires WorldOk(env, w)
    ensures Consistent(env, w.store)
  {
    hide Step;
  }

  /** If nobody else committed in between, a deliberation that validates completes
      the run: the batch lands whole and the cursor moves to the last seed. */
  lemma DeliberationCompletesRun(
    env: Env, hekate: PrincipalId, w: World, c: nat, ctx: SleepContext, d: Deliberation,
    newId: nat -> CandidateId, ids: seq<EventId>, event: EventId)
    requires WorldOk(env, w) && CoordinatorOf(w, c).Holding? && CoordinatorOf(w, c).base == w.store.state
    requires ContextOf(w.store.ledger, CoordinatorOf(w, c).run, ctx)
    requires Validated(env, ctx, w.store.state, d, newId).Ok?
    requires |ids| == |Validated(env, ctx, w.store.state, d, newId).value|
    requires Distinct(ids + [event]) && forall id | id in ids + [event] :: id !in w.store.state.applied
    ensures var k := CoordinatorOf(w, c);
            var candidates := CandidateEvents(env, hekate, ids, Validated(env, ctx, w.store.state, d, newId).value);
            var next := Next(env, hekate, w, CommitFinish(c, candidates, event)).store;
            && |next.ledger| == |w.store.ledger| + |candidates| + 1
            && k.cursorAfter.Some?
            && CompletedWith(w.store.state, k.run.id, k.cursorAfter.value,
                             Validated(env, ctx, w.store.state, d, newId).value, next.state)
  {
    hide Step, Validated, Allowed, WorldOk, Next, AllStored;
    var k := CoordinatorOf(w, c);
    var cs := Validated(env, ctx, w.store.state, d, newId).value;
    var candidates := CandidateEvents(env, hekate, ids, cs);
    HeldRun(env, w, c);
    WorldConsistent(env, w);
    ContextGrounded(env, w.store, k.run, ctx);
    CompletionAccepted(env, hekate, w.store.state, ctx, d, newId, ids, event, k.cursorAfter.value);
    CandidateEventsShape(env, hekate, ids, cs);
    FinishCommits(env, hekate, w, c, candidates, event);
  }
}
