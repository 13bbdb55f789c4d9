/** What every accepted ledger guarantees about the records the integration
    service reads back. */
module IntegrationHistory {
  import opened Prelude
  import opened Model
  import opened Evidence
  import opened Projector
  import opened Ledger
  import opened MemoryIntegration

  /** Records are stored under their own identifiers. */
  ghost predicate KeysOk(s: State) {
    && (forall id | id in s.candidates :: s.candidates[id].id == id)
    && (forall id | id in s.memories :: s.memories[id].id == id)
    && (forall id | id in s.positions :: s.positions[id].id == id)
  }

  /** A stored review has normalized evidence, and a verified one names the
      ledger's latest event that verified its candidate. */
  ghost predicate ReviewOk(ledger: seq<Event>, s: State, id: CandidateId) {
    id in s.verifications ==>
      var v := s.verifications[id];
      && v.candidate == id
      && Normalize(v.evidence) == v.evidence
      && (v.disposition.Verified? ==> v.verificationEvent.Some? && LastVerified(ledger, id) == v.verificationEvent)
  }

  ghost predicate HistoryOk(ledger: seq<Event>, s: State) {
    KeysOk(s) && forall id :: ReviewOk(ledger, s, id)
  }

  lemma KeysStep(env: Env, s: State, e: Event)
    requires KeysOk(s) && Step(env, s, e).Some?
    ensures KeysOk(Step(env, s, e).value)
  {
    hide Step, BodyAccepted, After;
    StepParts(env, s, e);
  }

  lemma ReviewStep(env: Env, ledger: seq<Event>, s: State, e: Event, id: CandidateId)
    requires ReviewOk(ledger, s, id) && Step(env, s, e).Some?
    ensures ReviewOk(ledger + [e], Step(env, s, e).value, id)
  {
    hide Step, After, Normalize, BodyAccepted;
    StepParts(env, s, e);
    ReviewGuards(env, s, e);
    assert (ledger + [e])[..|ledger|] == ledger;
    if e.body.CandidateVerified? { NormalizeIdempotent(e.body.accepted.evidence); }
    if e.body.CandidateRejected? { NormalizeIdempotent(e.body.refused.evidence); }
  }

  lemma ReviewGuards(env: Env, s: State, e: Event)
    requires BodyAccepted(env, s, e)
    ensures e.body.CandidateVerified? ==>
              SubjectIs(e, EntityKind.IntegrationCandidate, e.body.accepted.candidate)
              && e.body.accepted.disposition.Verified?
    ensures e.body.CandidateRejected? ==> e.body.refused.disposition.Rejected?
  {
  }

  /** Every replayed ledger keeps these records in order. */
  lemma {:induction false} HistoryHolds(env: Env, ledger: seq<Event>)
    requires Replay(env, ledger).Some?
    ensures HistoryOk(ledger, Replay(env, ledger).value)
  {
    hide Step, ReviewOk, KeysOk;
    if ledger == [] {
      forall id ensures ReviewOk([], EMPTY_STATE, id) { NoReviews(id); }
      NoKeys();
    } else {
      var front, e := ledger[..|ledger| - 1], ledger[|ledger| - 1];
      var s := Replay(env, front).value;
      HistoryHolds(env, front);
      KeysStep(env, s, e);
      assert front + [e] == ledger;
      forall id ensures ReviewOk(ledger, Replay(env, ledger).value, id) {
        ReviewStep(env, front, s, e, id);
      }
    }
  }

  lemma NoReviews(id: CandidateId)
    ensures ReviewOk([], EMPTY_STATE, id)
  {
  }

  lemma NoKeys()
    ensures KeysOk(EMPTY_STATE)
  {
  }

  // ---------------------------------------------------------------- principals

  /** No principal is created twice. */
  ghost predicate PrincipalsOnce(ledger: seq<Event>) {
    forall i, j | 0 <= i < j < |ledger| && ledger[i].body.PrincipalCreated? && ledger[j].body.PrincipalCreated? ::
      ledger[i].body.principal.id != ledger[j].body.principal.id
  }

  ghost predicate CreatedIn(ledger: seq<Event>, id: PrincipalId, p: Principal) {
    exists i | 0 <= i < |ledger| :: ledger[i].body == PrincipalCreated(p) && p.id == id
  }

  lemma {:induction false} PrincipalCreatedAt(env: Env, ledger: seq<Event>, id: PrincipalId)
    requires Replay(env, ledger).Some? && id in Replay(env, ledger).value.principals
    ensures CreatedIn(ledger, id, Replay(env, ledger).value.principals[id])
  {
    hide Step, BodyAccepted, After;
    if ledger != [] {
      var front, e := ledger[..|ledger| - 1], ledger[|ledger| - 1];
      StepParts(env, Replay(env, front).value, e);
      if e.body.PrincipalCreated? && e.body.principal.id == id {
        assert ledger[|ledger| - 1].body == PrincipalCreated(e.body.principal);
      } else {
        PrincipalCreatedAt(env, front, id);
        var p := Replay(env, front).value.principals[id];
        var i :| 0 <= i < |front| && front[i].body == PrincipalCreated(p) && p.id == id;
        assert ledger[i].body == PrincipalCreated(p);
      }
    }
  }

  lemma {:induction false} PrincipalKept(env: Env, s: State, events: seq<Event>, id: PrincipalId)
    requires ApplyAll(env, s, events).Some? && id in s.principals
    requires forall e | e in events && e.body.PrincipalCreated? :: e.body.principal.id != id
    ensures var t := ApplyAll(env, s, events).value; id in t.principals && t.principals[id] == s.principals[id]
  {
    hide Step, BodyAccepted, After;
    if events != [] {
      var front := events[..|events| - 1];
      PrincipalKept(env, s, front, id);
      StepParts(env, ApplyAll(env, s, front).value, events[|events| - 1]);
    }
  }

  /** With principals created once, a principal of an earlier revision is unchanged. */
  lemma PrincipalPersists(env: Env, ledger: seq<Event>, k: nat, id: PrincipalId)
    requires k <= |ledger| && Replay(env, ledger).Some? && PrincipalsOnce(ledger)
    requires Replay(env, ledger[..k]).Some? && id in Replay(env, ledger[..k]).value.principals
    ensures id in Replay(env, ledger).value.principals
    ensures Replay(env, ledger).value.principals[id] == Replay(env, ledger[..k]).value.principals[id]
  {
    hide Step;
    ReplayPrefix(env, ledger, k);
    PrincipalCreatedAt(env, ledger[..k], id);
    var p := Replay(env, ledger[..k]).value.principals[id];
    var i :| 0 <= i < |ledger[..k]| && ledger[..k][i].body == PrincipalCreated(p) && p.id == id;
    forall e | e in ledger[k..] && e.body.PrincipalCreated? ensures e.body.principal.id != id {
      var j :| 0 <= j < |ledger[k..]| && ledger[k..][j] == e;
      assert ledger[k + j] == e && ledger[i].body.PrincipalCreated?;
    }
    PrincipalKept(env, Replay(env, ledger[..k]).value, ledger[k..], id);
  }
}
