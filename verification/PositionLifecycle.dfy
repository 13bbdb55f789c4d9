/** What holds of the Positions of any run whose Position events are all
    integration events. */
module PositionLifecycle {
  import opened Prelude
  import opened Model
  import opened Deliberation
  import opened Projector
  import opened Ledger
  import opened IntegrationHistory

  ghost predicate OnlyIntegrated(events: seq<Event>) {
    forall e | e in events && e.body.PositionEvent? :: e.body.integration.Some?
  }

  predicate SameSubject(env: Env, p: Position, q: Position) {
    p.principal == q.principal && env.normalize(p.subject) == env.normalize(q.subject)
  }

  ghost predicate OneActive(env: Env, positions: map<PositionId, Position>) {
    forall i, j | i in positions && j in positions
                  && positions[i].status.Active? && positions[j].status.Active?
                  && SameSubject(env, positions[i], positions[j]) :: i == j
  }

  /** A Position's successor is one version later, about the same subject, and
      its predecessor is superseded. */
  ghost predicate Linked(positions: map<PositionId, Position>, i: PositionId) {
    i in positions && positions[i].supersedes.Some? ==>
      var k := positions[i].supersedes.value;
      && k in positions && positions[k].status.Superseded?
      && positions[i].version == positions[k].version + 1
      && positions[i].principal == positions[k].principal && positions[i].subject == positions[k].subject
      && !positions[i].status.Retracted?
  }

  /** A superseded Position has an active descendant, which cannot be withdrawn. */
  ghost predicate HasHead(positions: map<PositionId, Position>, k: PositionId) {
    k in positions && positions[k].status.Superseded? ==>
      exists h | h in positions ::
        && positions[h].status.Active? && positions[h].supersedes.Some?
        && positions[h].principal == positions[k].principal && positions[h].subject == positions[k].subject
  }

  ghost predicate OneSuccessor(positions: map<PositionId, Position>) {
    forall i, j | i in positions && j in positions
                  && positions[i].supersedes.Some? && positions[i].supersedes == positions[j].supersedes :: i == j
  }

  ghost predicate PositionsOk(env: Env, positions: map<PositionId, Position>) {
    && (forall i | i in positions :: positions[i].id == i)
    && OneActive(env, positions)
    && (forall i :: Linked(positions, i))
    && (forall k :: HasHead(positions, k))
    && OneSuccessor(positions)
  }

  /** What the projector guarantees of an integrated Position event, in terms of
      the Positions alone. */
  ghost predicate Establishes(env: Env, before: map<PositionId, Position>, p: Position) {
    && p.status.Active? && p.version == 1 && p.supersedes.None?
    && (forall i | i in before && before[i].status.Active? :: !SameSubject(env, before[i], p))
    && (p.id in before ==>
          before[p.id].version == 1 && before[p.id].principal == p.principal && before[p.id].subject == p.subject)
  }

  ghost predicate Revises(env: Env, before: map<PositionId, Position>, p: Position, prior: PositionId) {
    && prior in before && before[prior].status.Active?
    && p.id !in before
    && p.status.Active? && p.supersedes == Some(prior)
    && p.version == before[prior].version + 1
    && p.principal == before[prior].principal && p.subject == before[prior].subject
    && (forall i | i in before && before[i].status.Active? && i != prior :: !SameSubject(env, before[i], p))
  }

  ghost predicate Withdraws(before: map<PositionId, Position>, p: Position) {
    && p.id in before && before[p.id].status.Active?
    && before[p.id].supersedes.None?
    && p.supersedes.None? && p.status.Retracted?
    && p.version == before[p.id].version
    && p.principal == before[p.id].principal && p.subject == before[p.id].subject
  }

  ghost predicate Changes(
    env: Env, before: map<PositionId, Position>, p: Position, m: PositionMaterialization)
  {
    match m.action
    case Establish => Establishes(env, before, p)
    case Revise => m.prior.Some? && Revises(env, before, p, m.prior.value.id)
    case Withdraw => Withdraws(before, p)
  }

  function Superseding(positions: map<PositionId, Position>, prior: PositionId): map<PositionId, Position>
    requires prior in positions
  {
    positions[prior := positions[prior].(status := PositionStatus.Superseded)]
  }

  lemma NotBlocked(env: Env, s: State, p: Position, target: Option<PositionId>)
    requires !PositionIntegrationBlocked(env, s, p.principal, p.subject, target)
    requires forall i | i in s.positions :: s.positions[i].id == i
    ensures forall i | i in s.positions && s.positions[i].status.Active? && Some(i) != target ::
              !SameSubject(env, s.positions[i], p)
  {
  }

  lemma GuardsChange(
    env: Env, s: State, e: Event, kind: PositionEventKind, p: Position, m: PositionMaterialization)
    requires PositionIntegrationAccepted(env, s, e, kind, p, m)
    requires forall i | i in s.positions :: s.positions[i].id == i
    ensures Changes(env, s.positions, p, m)
    ensures m.action.Revise? ==> p.supersedes == Some(m.prior.value.id)
  {
    hide PositionEnvelopeOk, PositionMatchesProposal, PositionIntegrationBlocked, FingerprintMatches,
         IntegrationEvidenceValid;
    NotBlocked(env, s, p, TargetOf(m));
    WithdrawKeepsLink(env, s.candidates[m.candidate], p, m);
  }

  lemma WithdrawKeepsLink(env: Env, c: IntegrationCandidate, p: Position, m: PositionMaterialization)
    requires PositionMatchesProposal(env, c, p, m)
    ensures m.action.Withdraw? && m.prior.Some? ==> p.supersedes == m.prior.value.supersedes
  {
    hide ParsePositionProposal;
  }

  // ---------------------------------------------------------------- the three changes keep the invariant

  lemma HeadSharesSubject(env: Env, positions: map<PositionId, Position>, k: PositionId, p: Position)
    requires HasHead(positions, k) && k in positions
    requires positions[k].principal == p.principal && positions[k].subject == p.subject
    ensures positions[k].status.Superseded? ==>
              exists h | h in positions :: positions[h].status.Active? && SameSubject(env, positions[h], p)
  {
    if positions[k].status.Superseded? {
      var h :| h in positions && positions[h].status.Active?
               && positions[h].principal == p.principal && positions[h].subject == p.subject;
      assert SameSubject(env, positions[h], p);
    }
  }

  lemma EstablishKeeps(env: Env, before: map<PositionId, Position>, p: Position)
    requires PositionsOk(env, before) && Establishes(env, before, p)
    ensures PositionsOk(env, before[p.id := p])
    ensures p.id in before ==> before[p.id].status.Retracted?
  {
    var next := before[p.id := p];
    if p.id in before {
      HeadSharesSubject(env, before, p.id, p);
    }
    forall i ensures Linked(next, i) {
      assert Linked(before, i);
    }
    forall k ensures HasHead(next, k) {
      assert HasHead(before, k);
      if k in next && next[k].status.Superseded? {
        var h :| h in before && before[h].status.Active? && before[h].supersedes.Some?
                 && before[h].principal == before[k].principal && before[h].subject == before[k].subject;
        assert h in next && next[h] == before[h];
      }
    }
  }

  lemma ReviseKeeps(env: Env, before: map<PositionId, Position>, p: Position, prior: PositionId)
    requires PositionsOk(env, before) && Revises(env, before, p, prior)
    ensures PositionsOk(env, Superseding(before, prior)[p.id := p])
  {
    var next := Superseding(before, prior)[p.id := p];
    assert prior != p.id;
    forall i ensures Linked(next, i) {
      assert Linked(before, i);
    }
    forall k ensures HasHead(next, k) {
      assert HasHead(before, k);
      if k in next && next[k].status.Superseded? {
        ReviseHead(env, before, p, prior, k);
      }
    }
    ReviseSuccessor(env, before, p, prior);
  }

  lemma ReviseHead(env: Env, before: map<PositionId, Position>, p: Position, prior: PositionId, k: PositionId)
    requires Revises(env, before, p, prior) && k in before && HasHead(before, k)
    requires Superseding(before, prior)[p.id := p][k].status.Superseded?
    ensures HasHead(Superseding(before, prior)[p.id := p], k)
  {
    var next := Superseding(before, prior)[p.id := p];
    if k == prior {
      assert p.id in next && next[p.id] == p;
    } else {
      var h :| h in before && before[h].status.Active? && before[h].supersedes.Some?
               && before[h].principal == before[k].principal && before[h].subject == before[k].subject;
      if h == prior {
        assert p.id in next && next[p.id] == p;
      } else {
        assert h in next && next[h] == before[h];
      }
    }
  }

  lemma ReviseSuccessor(env: Env, before: map<PositionId, Position>, p: Position, prior: PositionId)
    requires PositionsOk(env, before) && Revises(env, before, p, prior)
    ensures OneSuccessor(Superseding(before, prior)[p.id := p])
  {
    forall i | i in before ensures before[i].supersedes != Some(prior) {
      assert Linked(before, i);
    }
  }

  lemma WithdrawKeeps(env: Env, before: map<PositionId, Position>, p: Position)
    requires PositionsOk(env, before) && Withdraws(before, p)
    ensures PositionsOk(env, before[p.id := p])
  {
    var next := before[p.id := p];
    forall i ensures Linked(next, i) {
      assert Linked(before, i);
    }
    forall k ensures HasHead(next, k) {
      assert HasHead(before, k);
      if k in next && next[k].status.Superseded? {
        var h :| h in before && before[h].status.Active? && before[h].supersedes.Some?
                 && before[h].principal == before[k].principal && before[h].subject == before[k].subject;
        assert h in next && next[h] == before[h];
      }
    }
  }

  // ---------------------------------------------------------------- runs

  lemma IntegratedPositions(env: Env, s: State, e: Event)
    requires Step(env, s, e).Some? && e.body.PositionEvent? && e.body.integration.Some?
    ensures PositionIntegrationAccepted(env, s, e, e.body.positionKind, e.body.position, e.body.integration.value)
    ensures Step(env, s, e).value.positions
            == StoreIntegratedPosition(s, e.body.position, e.body.integration.value)
  {
  }

  lemma QuietPositions(env: Env, s: State, e: Event)
    requires Step(env, s, e).Some? && !e.body.PositionEvent?
    ensures Step(env, s, e).value.positions == s.positions
  {
  }

  lemma PositionsStep(env: Env, s: State, e: Event)
    requires PositionsOk(env, s.positions) && Step(env, s, e).Some? && OnlyIntegrated([e])
    ensures PositionsOk(env, Step(env, s, e).value.positions)
  {
    hide Step, PositionIntegrationAccepted, OneActive, OneSuccessor, HasHead, Linked;
    if e.body.PositionEvent? {
      assert e in [e];
      var p, m := e.body.position, e.body.integration.value;
      IntegratedPositions(env, s, e);
      GuardsChange(env, s, e, e.body.positionKind, p, m);
      match m.action
      case Establish => EstablishKeeps(env, s.positions, p);
      case Revise => ReviseKeeps(env, s.positions, p, m.prior.value.id);
      case Withdraw => WithdrawKeeps(env, s.positions, p);
    } else {
      QuietPositions(env, s, e);
    }
  }

  lemma NoPositions(env: Env)
    ensures PositionsOk(env, map[])
  {
  }

  /** Whatever else happens, there is at most one active Position per principal
      and subject, every successor continues a superseded Position at the next
      version, no Position has two successors, and every superseded Position has
      an active descendant. */
  lemma {:induction false} PositionsHold(env: Env, ledger: seq<Event>)
    requires Replay(env, ledger).Some? && OnlyIntegrated(ledger)
    ensures PositionsOk(env, Replay(env, ledger).value.positions)
  {
    hide Step, PositionsOk;
    if ledger == [] {
      NoPositions(env);
    } else {
      var front, e := ledger[..|ledger| - 1], ledger[|ledger| - 1];
      assert forall x | x in front :: x in ledger;
      PositionsHold(env, front);
      PositionsStep(env, Replay(env, front).value, e);
    }
  }

  /** A superseded Position stays superseded, and one that was retracted becomes
      active again exactly when an establishing event reuses its identifier. */
  lemma PositionEnds(env: Env, s: State, e: Event, k: PositionId)
    requires PositionsOk(env, s.positions) && Step(env, s, e).Some? && OnlyIntegrated([e]) && k in s.positions
    ensures var t := Step(env, s, e).value;
            && k in t.positions
            && (s.positions[k].status.Superseded? ==> t.positions[k] == s.positions[k])
            && (s.positions[k].status.Retracted? ==>
                  (t.positions[k].status.Active?
                   <==> e.body.PositionEvent? && e.body.integration.value.action.Establish? && e.body.position.id == k)
                  && (t.positions[k].status.Active? || t.positions[k] == s.positions[k]))
  {
    hide Step, PositionIntegrationAccepted;
    if e.body.PositionEvent? {
      assert e in [e];
      var p, m := e.body.position, e.body.integration.value;
      IntegratedPositions(env, s, e);
      GuardsChange(env, s, e, e.body.positionKind, p, m);
      if m.action.Establish? { EstablishKeeps(env, s.positions, p); }
    } else {
      QuietPositions(env, s, e);
    }
  }

  /** Identifiers of new Positions are not in use. */
  ghost predicate FreshPosition(s: State, e: Event) {
    e.body.PositionEvent? && e.body.integration.Some? && !e.body.integration.value.action.Withdraw? ==>
      e.body.position.id !in s.positions
  }

  ghost predicate FreshPositions(env: Env, ledger: seq<Event>) {
    forall k | 0 <= k < |ledger| && Replay(env, ledger[..k]).Some? ::
      FreshPosition(Replay(env, ledger[..k]).value, ledger[k])
  }

  /** With fresh identifiers a Position that stopped being active never is again. */
  lemma {:induction false} EndedForever(env: Env, ledger: seq<Event>, k: nat, id: PositionId)
    requires Replay(env, ledger).Some? && OnlyIntegrated(ledger) && FreshPositions(env, ledger) && k <= |ledger|
    requires Replay(env, ledger[..k]).Some?
    requires id in Replay(env, ledger[..k]).value.positions
    requires !Replay(env, ledger[..k]).value.positions[id].status.Active?
    ensures id in Replay(env, ledger).value.positions
    ensures Replay(env, ledger).value.positions[id] == Replay(env, ledger[..k]).value.positions[id]
    decreases |ledger|
  {
    hide Step, PositionsOk;
    if k == |ledger| {
      assert ledger[..k] == ledger;
    } else {
      var last := |ledger| - 1;
      var front, e := ledger[..last], ledger[last];
      assert front[..k] == ledger[..k];
      assert forall x | x in front :: x in ledger;
      assert FreshPositions(env, front) by {
        forall i | 0 <= i < |front| && Replay(env, front[..i]).Some?
          ensures FreshPosition(Replay(env, front[..i]).value, front[i])
        {
          assert front[..i] == ledger[..i];
        }
      }
      EndedForever(env, front, k, id);
      PositionsHold(env, front);
      PositionEnds(env, Replay(env, front).value, e, id);
      assert FreshPosition(Replay(env, front).value, e);
      assert e in ledger;
      assert e.body.PositionEvent? ==> e.body.integration.Some?;
    }
  }

  /** A list of Positions each of which supersedes the next. */
  ghost predicate Chain(positions: map<PositionId, Position>, chain: seq<PositionId>) {
    && (forall i | 0 <= i < |chain| :: chain[i] in positions)
    && (forall i | 0 <= i < |chain| - 1 :: positions[chain[i]].supersedes == Some(chain[i + 1]))
  }

  lemma {:induction false} VersionsDescend(env: Env, positions: map<PositionId, Position>, chain: seq<PositionId>, i: nat, j: nat)
    requires PositionsOk(env, positions) && Chain(positions, chain) && i <= j < |chain|
    ensures positions[chain[i]].version == positions[chain[j]].version + (j - i)
    decreases j
  {
    if i < j {
      VersionsDescend(env, positions, chain, i, j - 1);
      assert Linked(positions, chain[j - 1]);
    }
  }

  /** Supersession has no cycles, and only the newest Position of a chain can be active. */
  lemma ChainsEnd(env: Env, positions: map<PositionId, Position>, chain: seq<PositionId>)
    requires PositionsOk(env, positions) && Chain(positions, chain)
    ensures Distinct(chain)
    ensures forall i | 0 < i < |chain| :: positions[chain[i]].status.Superseded?
  {
    forall i, j | 0 <= i < j < |chain| ensures chain[i] != chain[j] {
      VersionsDescend(env, positions, chain, i, j);
    }
    forall i | 0 < i < |chain| ensures positions[chain[i]].status.Superseded? {
      assert Linked(positions, chain[i - 1]);
      assert positions[chain[i - 1]].supersedes == Some(chain[i - 1 + 1]);
    }
  }
}
