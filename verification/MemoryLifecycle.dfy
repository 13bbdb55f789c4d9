/** Every way a Memory is created or ended, raced by any number of writers. */
module MemoryLifecycle {
  import opened Prelude
  import opened Ordering
  import opened Model
  import opened Projector
  import opened Ledger
  import opened MemoryIntegration
  import opened IntegrationHistory
  import opened IntegrationAccept
  import IX = IntegrationExact

  // ---------------------------------------------------------------- the calls

  /** A promotion by the user, a change of status by the user, or the
      materialization of a reviewed candidate. */
  datatype MemoryCall =
    | Promote(candidate: MemoryCandidateId, memory: MemoryId, superseded: EventId, promoted: EventId)
    | SetStatus(target: MemoryId, to: MemoryStatus, event: EventId)
    | Integrate(integrated: CandidateId, actor: PrincipalId, ids: FreshIds)

  predicate InferredFor(m: Memory, subject: Option<PrincipalId>) {
    m.status.Active? && m.kind.InferredPreference? && m.subject == subject
  }

  /** The first active inference about the same subject, in identifier order. */
  function PreviousInferred(s: State, c: MemoryCandidate): Option<MemoryId> {
    var inferred := set id | id in s.memories && InferredFor(s.memories[id], c.subject);
    if c.kind.ExplicitPreference? && inferred != {} then Some(Least(inferred)) else None
  }

  function MemoryRecord(env: Env, user: PrincipalId, id: EventId, kind: MemoryEventKind, m: Memory): Event {
    EngineEvent(env, user, id, MemoryEvent(kind, m), EntityKind.Memory, m.id)
  }

  function PromotedMemory(c: MemoryCandidate, id: MemoryCandidateId, memory: MemoryId, supersedes: Option<MemoryId>): Memory {
    Memory.Memory(memory, id, c.kind, c.content, c.subject, MemoryStatus.Active, c.confidence, c.sources, supersedes)
  }

  function PlanCall(env: Env, user: PrincipalId, ledger: seq<Event>, s: State, call: MemoryCall): Option<seq<Event>> {
    match call
    case Promote(id, memory, superseded, promoted) =>
      if id !in s.memoryCandidates || !s.memoryCandidates[id].status.Candidate? then None
      else
        var c := s.memoryCandidates[id];
        var previous := PreviousInferred(s, c);
        var event := MemoryRecord(env, user, promoted, MemoryEventKind.Promoted, PromotedMemory(c, id, memory, previous));
        if previous.None? then Some([event])
        else
          Some([MemoryRecord(env, user, superseded, MemoryEventKind.Superseded,
                            s.memories[previous.value].(status := MemoryStatus.Superseded)),
                event])
    case SetStatus(target, to, event) =>
      if target !in s.memories || !s.memories[target].status.Active? || to.Active? then None
      else
        Some([MemoryRecord(env, user, event,
                          if to.Superseded? then MemoryEventKind.Superseded else MemoryEventKind.Expired,
                          s.memories[target].(status := to))])
    case Integrate(id, actor, ids) =>
      match PlanLesson(env, ledger, s, id, actor, ids)
      case Err(_) => None
      case Ok(batch) => Some(batch)
  }

  /** The identifier chosen for a new Memory is not in use. */
  predicate FreshCall(s: State, call: MemoryCall) {
    match call
    case Promote(_, memory, _, _) => memory !in s.memories
    case SetStatus(_, _, _) => true
    case Integrate(_, _, ids) => ids.memory !in s.memories
  }

  // ---------------------------------------------------------------- how Memories change

  datatype Change = Add(m: Memory) | Replace(prior: MemoryId, m: Memory) | End(prior: MemoryId, to: MemoryStatus)

  ghost predicate ChangeOk(before: map<MemoryId, Memory>, change: Change) {
    match change
    case Add(m) => m.id !in before && m.status.Active? && m.supersedes.None?
    case Replace(prior, m) =>
      && prior in before && before[prior].status.Active?
      && m.id !in before && m.status.Active? && m.supersedes == Some(prior)
    case End(prior, to) => prior in before && before[prior].status.Active? && !to.Active?
  }

  function Changed(before: map<MemoryId, Memory>, change: Change): map<MemoryId, Memory>
    requires ChangeOk(before, change)
  {
    match change
    case Add(m) => before[m.id := m]
    case Replace(prior, m) => before[prior := before[prior].(status := MemoryStatus.Superseded)][m.id := m]
    case End(prior, to) => before[prior := before[prior].(status := to)]
  }

  ghost predicate Evolves(before: map<MemoryId, Memory>, after: map<MemoryId, Memory>) {
    exists change :: ChangeOk(before, change) && after == Changed(before, change)
  }

  lemma MemoryFields(env: Env, s: State, e: Event)
    requires Step(env, s, e).Some? && e.body.MemoryEvent?
    ensures Step(env, s, e).value.memories == s.memories[e.body.memory.id := e.body.memory]
  {
    hide Step, BodyAccepted;
    StepParts(env, s, e);
  }

  lemma AppliedFresh(env: Env, s: State, events: seq<Event>)
    requires ApplyAll(env, s, events).Some? && Distinct(s.applied)
    ensures FreshEvents(s, events)
  {
    hide Step;
    ApplyAllCounts(env, s, events);
    var all := s.applied + Ids(events);
    forall i, j | 0 <= i < j < |events| ensures Ids(events)[i] != Ids(events)[j] {
      assert all[|s.applied| + i] != all[|s.applied| + j];
    }
    forall e | e in events ensures e.id !in s.applied {
      var k :| 0 <= k < |events| && events[k] == e;
      forall i | 0 <= i < |s.applied| ensures s.applied[i] != e.id {
        assert all[i] != all[|s.applied| + k];
      }
    }
  }

  lemma PromoteEvolves(env: Env, user: PrincipalId, ledger: seq<Event>, s: State, call: MemoryCall)
    requires KeysOk(s) && call.Promote? && FreshCall(s, call)
    requires PlanCall(env, user, ledger, s, call).Some?
    requires ApplyAll(env, s, PlanCall(env, user, ledger, s, call).value).Some?
    ensures Evolves(s.memories, ApplyAll(env, s, PlanCall(env, user, ledger, s, call).value).value.memories)
  {
    hide Step;
    var batch := PlanCall(env, user, ledger, s, call).value;
    var c := s.memoryCandidates[call.candidate];
    var previous := PreviousInferred(s, c);
    if previous.None? {
      var m := PromotedMemory(c, call.candidate, call.memory, None);
      assert [] + [batch[0]] == batch;
      ApplyLast(env, s, [], batch[0]);
      MemoryFields(env, s, batch[0]);
      assert ChangeOk(s.memories, Add(m));
      assert ApplyAll(env, s, batch).value.memories == Changed(s.memories, Add(m));
    } else {
      var m := PromotedMemory(c, call.candidate, call.memory, previous);
      assert [batch[0]] + [batch[1]] == batch && [] + [batch[0]] == [batch[0]];
      ApplyLast(env, s, [], batch[0]);
      ApplyLast(env, s, [batch[0]], batch[1]);
      MemoryFields(env, s, batch[0]);
      MemoryFields(env, Step(env, s, batch[0]).value, batch[1]);
      assert ChangeOk(s.memories, Change.Replace(previous.value, m));
      assert ApplyAll(env, s, batch).value.memories == Changed(s.memories, Change.Replace(previous.value, m));
    }
  }

  lemma SetStatusEvolves(env: Env, user: PrincipalId, ledger: seq<Event>, s: State, call: MemoryCall)
    requires KeysOk(s) && call.SetStatus?
    requires PlanCall(env, user, ledger, s, call).Some?
    requires ApplyAll(env, s, PlanCall(env, user, ledger, s, call).value).Some?
    ensures Evolves(s.memories, ApplyAll(env, s, PlanCall(env, user, ledger, s, call).value).value.memories)
  {
    hide Step;
    var batch := PlanCall(env, user, ledger, s, call).value;
    assert [] + [batch[0]] == batch;
    ApplyLast(env, s, [], batch[0]);
    MemoryFields(env, s, batch[0]);
    assert ChangeOk(s.memories, End(call.target, call.to));
    assert ApplyAll(env, s, batch).value.memories == Changed(s.memories, End(call.target, call.to));
  }

  lemma RevisedIsChange(
    memories: map<MemoryId, Memory>, c: IntegrationCandidate, op: MemoryOperation, prior: Memory, ids: FreshIds)
    requires prior.id in memories && memories[prior.id] == prior && prior.status.Active? && ids.memory !in memories
    ensures Evolves(memories, RevisedMemories(memories, c, op, prior, ids))
  {
    hide Trim;
    if op.Replace? {
      var m := MemoryFrom(ReplacementCandidate(c, op, prior, ids), ids, Some(prior.id));
      assert ChangeOk(memories, Change.Replace(prior.id, m));
      assert RevisedMemories(memories, c, op, prior, ids) == Changed(memories, Change.Replace(prior.id, m));
    } else {
      assert ChangeOk(memories, End(prior.id, MemoryStatus.Expired));
      assert RevisedMemories(memories, c, op, prior, ids) == Changed(memories, End(prior.id, MemoryStatus.Expired));
    }
  }

  lemma IntegrateEvolves(env: Env, user: PrincipalId, ledger: seq<Event>, s: State, call: MemoryCall)
    requires Current(env, ledger, s) && call.Integrate? && FreshCall(s, call)
    requires PlanCall(env, user, ledger, s, call).Some?
    requires ApplyAll(env, s, PlanCall(env, user, ledger, s, call).value).Some?
    ensures Evolves(s.memories, ApplyAll(env, s, PlanCall(env, user, ledger, s, call).value).value.memories)
  {
    hide Step, PlanLesson, RevisedMemories;
    var batch := PlanCall(env, user, ledger, s, call).value;
    var id, ids := call.integrated, call.ids;
    ReplayCounts(env, ledger);
    AppliedFresh(env, s, batch);
    PlanKnown(env, ledger, s, id, call.actor, ids);
    if s.candidates[id].kind == CandidateKind.MemoryRevision {
      RevisionEffect(env, ledger, s, id, call.actor, ids);
      var op := ParseMemoryProposal(env, s.candidates[id].content).value;
      RevisedIsChange(s.memories, s.candidates[id], op, s.memories[op.target], ids);
    } else {
      PlannedLessonAccepted(env, ledger, s, id, call.actor, ids);
      var t := ApplyAll(env, s, batch).value;
      var m := t.memories[ids.memory];
      assert ChangeOk(s.memories, Add(m));
      assert t.memories == Changed(s.memories, Add(m));
    }
  }

  lemma PlanKnown(env: Env, ledger: seq<Event>, s: State, id: CandidateId, actor: PrincipalId, ids: FreshIds)
    requires PlanLesson(env, ledger, s, id, actor, ids).Ok?
    ensures id in s.candidates
  {
    hide PlanRevision, CandidateError, DuplicateLesson;
  }

  /** Every committed call adds a Memory, replaces an active one or ends an active one. */
  lemma CallEvolves(env: Env, user: PrincipalId, ledger: seq<Event>, s: State, call: MemoryCall)
    requires Current(env, ledger, s) && FreshCall(s, call)
    requires PlanCall(env, user, ledger, s, call).Some?
    requires ApplyAll(env, s, PlanCall(env, user, ledger, s, call).value).Some?
    ensures Evolves(s.memories, ApplyAll(env, s, PlanCall(env, user, ledger, s, call).value).value.memories)
  {
    hide Step, PlanCall, Evolves;
    CurrentFacts(env, ledger, s);
    match call
    case Promote(_, _, _, _) => PromoteEvolves(env, user, ledger, s, call);
    case SetStatus(_, _, _) => SetStatusEvolves(env, user, ledger, s, call);
    case Integrate(_, _, _) => IntegrateEvolves(env, user, ledger, s, call);
  }

  // ---------------------------------------------------------------- what a call of the user changes

  /** The first active inference about the candidate's subject, which an explicit
      preference replaces. */
  ghost predicate Replaces(s: State, c: MemoryCandidate, prior: MemoryId) {
    && c.kind.ExplicitPreference?
    && prior in s.memories && Inference(s.memories[prior], c)
    && forall i | i in s.memories && Inference(s.memories[i], c) :: prior <= i
  }

  ghost predicate Inference(m: Memory, c: MemoryCandidate) {
    m.status.Active? && m.kind.InferredPreference? && m.subject == c.subject
  }

  /** The active Memory that says what the candidate says. */
  ghost predicate Says(m: Memory, c: MemoryCandidate, id: MemoryCandidateId, memory: MemoryId, supersedes: Option<MemoryId>) {
    && m.id == memory && m.candidate == id && m.kind == c.kind && m.content == c.content && m.subject == c.subject
    && m.status.Active? && m.confidence == c.confidence && m.sources == c.sources && m.supersedes == supersedes
  }

  /** A candidate's status after its Memory changed. */
  function Marked(
    candidates: map<MemoryCandidateId, MemoryCandidate>, id: MemoryCandidateId, to: MemoryCandidateStatus):
    map<MemoryCandidateId, MemoryCandidate>
  {
    if id in candidates then candidates[id := candidates[id].(status := to)] else candidates
  }

  /** The candidate is promoted to a new Memory; an explicit preference supersedes the
      inference it replaces, and the candidate of that. Nothing else changes. */
  ghost predicate PromotionLanded(s: State, t: State, id: MemoryCandidateId, memory: MemoryId) {
    && id in s.memoryCandidates && memory in t.memories
    && var c, m := s.memoryCandidates[id], t.memories[memory];
    if exists prior: MemoryId :: Replaces(s, c, prior) then
      exists prior: MemoryId | Replaces(s, c, prior) ::
        && Says(m, c, id, memory, Some(prior))
        && t.memories == s.memories[prior := s.memories[prior].(status := MemoryStatus.Superseded)][memory := m]
        && t.memoryCandidates
           == Marked(Marked(s.memoryCandidates, s.memories[prior].candidate, MemoryCandidateStatus.Superseded),
                     id, MemoryCandidateStatus.Promoted)
    else
      && Says(m, c, id, memory, None)
      && t.memories == s.memories[memory := m]
      && t.memoryCandidates == Marked(s.memoryCandidates, id, MemoryCandidateStatus.Promoted)
  }

  /** The Memory has its new status, and so does its candidate. */
  ghost predicate StatusLanded(s: State, t: State, target: MemoryId, to: MemoryStatus) {
    && target in s.memories && s.memories[target].status.Active? && !to.Active?
    && t.memories == s.memories[target := s.memories[target].(status := to)]
    && t.memoryCandidates
       == Marked(s.memoryCandidates, s.memories[target].candidate,
                 if to.Superseded? then MemoryCandidateStatus.Superseded else MemoryCandidateStatus.Expired)
  }

  lemma PreviousMeaning(s: State, c: MemoryCandidate)
    ensures forall prior: MemoryId :: PreviousInferred(s, c) == Some(prior) <==> Replaces(s, c, prior)
  {
    var inferred := set id | id in s.memories && InferredFor(s.memories[id], c.subject);
    assert forall i :: i in inferred <==> i in s.memories && Inference(s.memories[i], c);
    if c.kind.ExplicitPreference? && inferred != {} {
      var least := Least(inferred);
      assert Replaces(s, c, least);
      forall prior | Replaces(s, c, prior) ensures prior == least {}
    }
  }

  lemma MemoryRecords(env: Env, s: State, e: Event)
    requires e.body.MemoryEvent?
    ensures Step(env, s, e).Some? <==> e.id !in s.applied
    ensures Step(env, s, e).Some? ==>
              var t, m := Step(env, s, e).value, e.body.memory;
              && t.applied == s.applied + [e.id]
              && t.memories == s.memories[m.id := m]
              && t.memoryCandidates
                 == Marked(s.memoryCandidates, m.candidate,
                           match m.status
                           case Active => MemoryCandidateStatus.Promoted
                           case Superseded => MemoryCandidateStatus.Superseded
                           case Expired => MemoryCandidateStatus.Expired)
  {
  }

  /** A promotion lands exactly when the candidate still waits for one and its events
      are new, and then changes just that. */
  lemma PromotionExactly(env: Env, user: PrincipalId, ledger: seq<Event>, s: State, call: MemoryCall)
    requires KeysOk(s) && call.Promote? && FreshCall(s, call)
    ensures var plan := PlanCall(env, user, ledger, s, call);
            && (plan.Some? <==>
                  call.candidate in s.memoryCandidates && s.memoryCandidates[call.candidate].status.Candidate?)
            && (plan.Some? && |plan.value| > 1 ==>
                  && PreviousInferred(s, s.memoryCandidates[call.candidate]).Some?
                  && IX.Ends(plan.value[0], call.superseded, PreviousInferred(s, s.memoryCandidates[call.candidate]).value))
            && (plan.Some? ==> plan.value != [] && IX.Promotes(plan.value[|plan.value| - 1], call.promoted, call.memory))
            && (plan.Some? ==>
                  && (ApplyAll(env, s, plan.value).Some? <==>
                        && call.promoted !in s.applied
                        && (PreviousInferred(s, s.memoryCandidates[call.candidate]).Some? ==>
                              call.superseded !in s.applied && call.superseded != call.promoted))
                  && (ApplyAll(env, s, plan.value).Some? ==>
                        PromotionLanded(s, ApplyAll(env, s, plan.value).value, call.candidate, call.memory)))
  {
    hide Step, Least;
    var plan := PlanCall(env, user, ledger, s, call);
    if plan.Some? {
      var c := s.memoryCandidates[call.candidate];
      var batch, previous := plan.value, PreviousInferred(s, c);
      PreviousMeaning(s, c);
      ApplyOne(env, s, batch[0]);
      MemoryRecords(env, s, batch[0]);
      if previous.None? {
        assert batch == [batch[0]];
      } else {
        assert [batch[0]] + [batch[1]] == batch;
        ApplyLast(env, s, [batch[0]], batch[1]);
        if Step(env, s, batch[0]).Some? { MemoryRecords(env, Step(env, s, batch[0]).value, batch[1]); }
        assert Replaces(s, c, previous.value);
      }
    }
  }

  /** A change of status lands exactly when the Memory is active, is to be so no longer
      and the event is new, and then changes just that. */
  lemma StatusExactly(env: Env, user: PrincipalId, ledger: seq<Event>, s: State, call: MemoryCall)
    requires KeysOk(s) && call.SetStatus?
    ensures var plan := PlanCall(env, user, ledger, s, call);
            && (plan.Some? <==> call.target in s.memories && s.memories[call.target].status.Active? && !call.to.Active?)
            && (plan.Some? ==> |plan.value| == 1 && IX.Ends(plan.value[0], call.event, call.target))
            && (plan.Some? ==>
                  && (ApplyAll(env, s, plan.value).Some? <==> call.event !in s.applied)
                  && (ApplyAll(env, s, plan.value).Some? ==>
                        StatusLanded(s, ApplyAll(env, s, plan.value).value, call.target, call.to)))
  {
    hide Step;
    var plan := PlanCall(env, user, ledger, s, call);
    if plan.Some? {
      ApplyOne(env, s, plan.value[0]);
      MemoryRecords(env, s, plan.value[0]);
      assert plan.value == [plan.value[0]];
    }
  }

  // ---------------------------------------------------------------- what every change keeps

  /** A superseded Memory is no longer active, and no two supersede the same one. */
  ghost predicate MemoriesOk(memories: map<MemoryId, Memory>) {
    && (forall i | i in memories && memories[i].supersedes.Some? ::
          memories[i].supersedes.value in memories && !memories[memories[i].supersedes.value].status.Active?)
    && (forall i, j | i in memories && j in memories
                      && memories[i].supersedes.Some? && memories[i].supersedes == memories[j].supersedes :: i == j)
  }

  lemma EvolvesKeeps(before: map<MemoryId, Memory>, after: map<MemoryId, Memory>)
    requires MemoriesOk(before) && Evolves(before, after)
    ensures MemoriesOk(after)
    ensures forall i | i in before :: i in after && (!before[i].status.Active? ==> after[i] == before[i])
    ensures forall i | i in before :: after[i] == before[i].(status := after[i].status)
  {
    var change :| ChangeOk(before, change) && after == Changed(before, change);
    ChangeKeeps(before, change);
  }

  lemma ChangeKeeps(before: map<MemoryId, Memory>, change: Change)
    requires MemoriesOk(before) && ChangeOk(before, change)
    ensures var after := Changed(before, change);
            && MemoriesOk(after)
            && (forall i | i in before :: i in after && (!before[i].status.Active? ==> after[i] == before[i]))
            && (forall i | i in before :: after[i] == before[i].(status := after[i].status))
  {
    var after := Changed(before, change);
    var added := if change.End? then None else Some(change.m.id);
    forall i | i in after ensures Some(i) == added || (i in before && after[i].supersedes == before[i].supersedes) {
    }
  }

  // ---------------------------------------------------------------- the race

  datatype Writer = Idle | Loaded(base: State) | Planned(base: State, seen: seq<Event>, call: MemoryCall)

  datatype World = World(store: Store, writers: map<nat, Writer>)

  /** A call loads the state, then the events, then commits, each in its own
      step; others commit whatever creates and ends no Memory in between. */
  datatype Action =
    | Load(w: nat)
    | Plan(w: nat, call: MemoryCall)
    | Commit(w: nat)
    | Crash(w: nat)
    | Foreign(events: seq<Event>, expected: Option<nat>)

  function WriterOf(w: World, id: nat): Writer {
    if id in w.writers then w.writers[id] else Idle
  }

  function Next(env: Env, user: PrincipalId, w: World, a: Action): World {
    match a
    case Load(id) => w.(writers := w.writers[id := Loaded(w.store.state)])
    case Plan(id, call) =>
      var k := WriterOf(w, id);
      if k.Loaded? && FreshCall(k.base, call)
      then w.(writers := w.writers[id := Writer.Planned(k.base, w.store.ledger, call)]) else w
    case Commit(id) =>
      (match WriterOf(w, id)
       case Planned(base, seen, call) =>
         (match PlanCall(env, user, seen, base, call)
          case None => w.(writers := w.writers[id := Idle])
          case Some(batch) =>
            match RecordBatch(env, w.store, batch, Some(base.revision))
            case Err(_) => w.(writers := w.writers[id := Idle])
            case Ok(store) => World(store, w.writers[id := Idle]))
       case _ => w)
    case Crash(id) => w.(writers := w.writers[id := Idle])
    case Foreign(events, expected) =>
      if exists e | e in events :: e.body.MemoryEvent? then w
      else
        match RecordBatch(env, w.store, events, expected)
        case Err(_) => w
        case Ok(store) => w.(store := store)
  }

  function Exec(env: Env, user: PrincipalId, w: World, actions: seq<Action>): World {
    if actions == [] then w
    else Next(env, user, Exec(env, user, w, actions[..|actions| - 1]), actions[|actions| - 1])
  }

  ghost predicate WriterOk(env: Env, ledger: seq<Event>, k: Writer) {
    match k
    case Idle => true
    case Loaded(base) => Snapshot(env, ledger, base)
    case Planned(base, seen, call) =>
      && Snapshot(env, ledger, base) && base.revision <= |seen| && seen <= ledger && FreshCall(base, call)
  }

  ghost predicate WorldOk(env: Env, w: World) {
    && Consistent(env, w.store)
    && MemoriesOk(w.store.state.memories)
    && forall id | id in w.writers :: WriterOk(env, w.store.ledger, w.writers[id])
  }

  /** One step of the race either leaves the Memories alone or changes them in
      one of the three ways. */
  ghost predicate Stays(w: World, next: World) {
    next.store.state.memories == w.store.state.memories
    || Evolves(w.store.state.memories, next.store.state.memories)
  }

  lemma {:induction false} QuietMemories(env: Env, s: State, events: seq<Event>)
    requires ApplyAll(env, s, events).Some? && forall e | e in events :: !e.body.MemoryEvent?
    ensures ApplyAll(env, s, events).value.memories == s.memories
  {
    hide Step, BodyAccepted;
    if events != [] {
      var front := events[..|events| - 1];
      QuietMemories(env, s, front);
      StepParts(env, ApplyAll(env, s, front).value, events[|events| - 1]);
    }
  }

  lemma WriterGrows(env: Env, ledger: seq<Event>, more: seq<Event>, k: Writer)
    requires WriterOk(env, ledger, k)
    ensures WriterOk(env, ledger + more, k)
  {
    hide Step;
    if !k.Idle? { SnapshotGrows(env, ledger, more, k.base); }
  }

  lemma StoreGrows(env: Env, w: World, store: Store, more: seq<Event>, writers: map<nat, Writer>)
    requires WorldOk(env, w) && Consistent(env, store) && store.ledger == w.store.ledger + more
    requires MemoriesOk(store.state.memories)
    requires forall id | id in writers :: writers[id].Idle? || (id in w.writers && writers[id] == w.writers[id])
    ensures WorldOk(env, World(store, writers))
  {
    hide Step, Replay;
    forall id | id in writers ensures WriterOk(env, store.ledger, writers[id]) {
      if id in w.writers { WriterGrows(env, w.store.ledger, more, w.writers[id]); }
    }
  }

  /** A call that lands was planned on the current state and the current ledger. */
  lemma CommitEvolves(env: Env, user: PrincipalId, st: Store, k: Writer, batch: seq<Event>)
    requires Consistent(env, st) && k.Planned? && WriterOk(env, st.ledger, k)
    requires PlanCall(env, user, k.seen, k.base, k.call) == Some(batch)
    requires RecordBatch(env, st, batch, Some(k.base.revision)).Ok?
    ensures var store := RecordBatch(env, st, batch, Some(k.base.revision)).value;
            && Consistent(env, store)
            && store.ledger == st.ledger + batch
            && Evolves(st.state.memories, store.state.memories)
  {
    hide Step, PlanCall, Evolves, FreshCall;
    RecordBatchLands(env, st, batch, Some(k.base.revision));
    SameRevisionSameState(env, st, k.base);
    assert k.seen == st.ledger;
    CallEvolves(env, user, st.ledger, st.state, k.call);
  }

  lemma CommitKeeps(env: Env, user: PrincipalId, w: World, id: nat)
    requires WorldOk(env, w) && WriterOf(w, id).Planned?
    ensures WorldOk(env, Next(env, user, w, Commit(id))) && Stays(w, Next(env, user, w, Commit(id)))
  {
    hide Step, PlanCall, MemoriesOk, Evolves, FreshCall, RecordBatch, Consistent;
    var k := WriterOf(w, id);
    var batch := PlanCall(env, user, k.seen, k.base, k.call);
    if batch.Some? && RecordBatch(env, w.store, batch.value, Some(k.base.revision)).Ok? {
      var store := RecordBatch(env, w.store, batch.value, Some(k.base.revision)).value;
      CommitEvolves(env, user, w.store, k, batch.value);
      EvolvesKeeps(w.store.state.memories, store.state.memories);
      StoreGrows(env, w, store, batch.value, w.writers[id := Idle]);
    }
  }

  lemma NextKeeps(env: Env, user: PrincipalId, w: World, a: Action)
    requires WorldOk(env, w)
    ensures WorldOk(env, Next(env, user, w, a)) && Stays(w, Next(env, user, w, a))
  {
    hide Step, PlanCall, MemoriesOk, Evolves, FreshCall;
    match a
    case Load(_) => CurrentIsSnapshot(env, w.store);
    case Plan(id, call) => ReplayCounts(env, w.store.ledger);
    case Commit(id) => if WriterOf(w, id).Planned? { CommitKeeps(env, user, w, id); }
    case Crash(_) =>
    case Foreign(events, expected) =>
      ForeignKeeps(env, user, w, events, expected);
  }

  lemma ForeignKeeps(env: Env, user: PrincipalId, w: World, events: seq<Event>, expected: Option<nat>)
    requires WorldOk(env, w)
    ensures var next := Next(env, user, w, Foreign(events, expected)); WorldOk(env, next) && Stays(w, next)
  {
    hide Step, PlanCall, MemoriesOk, Evolves, FreshCall;
    RecordBatchLands(env, w.store, events, expected);
    hide RecordBatch, Consistent;
    if RecordBatch(env, w.store, events, expected).Ok? && forall e | e in events :: !e.body.MemoryEvent? {
      QuietMemories(env, w.store.state, events);
      StoreGrows(env, w, RecordBatch(env, w.store, events, expected).value, events, w.writers);
    }
  }

  const EMPTY_WORLD: World := World(EMPTY_STORE, map[])

  /** However promotions, status changes, materializations and crashes interleave,
      a superseded Memory is not active and has one successor. */
  lemma {:induction false} MemoriesHold(env: Env, user: PrincipalId, actions: seq<Action>)
    ensures WorldOk(env, Exec(env, user, EMPTY_WORLD, actions))
    ensures MemoriesOk(Exec(env, user, EMPTY_WORLD, actions).store.state.memories)
  {
    hide Next;
    if actions != [] {
      var front := actions[..|actions| - 1];
      MemoriesHold(env, user, front);
      NextKeeps(env, user, Exec(env, user, EMPTY_WORLD, front), actions[|actions| - 1]);
    }
  }

  /** A Memory that left Active is never changed again. */
  lemma {:induction false} EndedForever(env: Env, user: PrincipalId, actions: seq<Action>, k: nat, id: MemoryId)
    requires k <= |actions|
    requires var earlier := Exec(env, user, EMPTY_WORLD, actions[..k]).store.state.memories;
             id in earlier && !earlier[id].status.Active?
    ensures var earlier := Exec(env, user, EMPTY_WORLD, actions[..k]).store.state.memories;
            var now := Exec(env, user, EMPTY_WORLD, actions).store.state.memories;
            id in now && now[id] == earlier[id]
  {
    hide Next, WorldOk, Evolves;
    if k == |actions| {
      assert actions[..k] == actions;
    } else {
      var front := actions[..|actions| - 1];
      assert front[..k] == actions[..k];
      EndedForever(env, user, front, k, id);
      MemoriesHold(env, user, front);
      var w := Exec(env, user, EMPTY_WORLD, front);
      NextKeeps(env, user, w, actions[|actions| - 1]);
      var next := Next(env, user, w, actions[|actions| - 1]);
      if next.store.state.memories != w.store.state.memories {
        EvolvesKeeps(w.store.state.memories, next.store.state.memories);
      }
    }
  }

  /** A list of Memories each of which supersedes the next: only its first can be active. */
  lemma ChainActive(memories: map<MemoryId, Memory>, chain: seq<MemoryId>, i: nat)
    requires MemoriesOk(memories) && 0 < i < |chain|
    requires forall j | 0 <= j < |chain| :: chain[j] in memories
    requires forall j | 0 <= j < |chain| - 1 :: memories[chain[j]].supersedes == Some(chain[j + 1])
    ensures !memories[chain[i]].status.Active?
  {
    assert memories[chain[i - 1]].supersedes == Some(chain[i - 1 + 1]);
  }
}
