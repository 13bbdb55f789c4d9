/** Planned operations, their approvals, and the one execution each may have. */
module Operations {
  import opened Prelude
  import opened Model
  import opened Transition
  import opened Projector
  import opened Ledger

  // ---------------------------------------------------------------- the engine's calls

  datatype Policy = Policy(allowed: bool, requiresApproval: bool)

  datatype ExecuteError =
    | OperationNotFound
    | AlreadyFinished
    | NeedsReconciliation
    | IntentNotFound
    | PolicyDenied
    | NoApproval
    | ApprovalNotFound
    | NotApproved

  /** The checks `execute` makes before it changes anything. */
  function CheckExecute(policy: Intent -> Policy, s: State, id: OperationId): Result<Operation, ExecuteError> {
    if id !in s.operations then Err(OperationNotFound)
    else
      var o := s.operations[id];
      if o.status.Succeeded? || o.status.Verified? || o.status.Failed? || o.status.Disputed? then Err(AlreadyFinished)
      else if o.status.Started? || o.status.Unknown? then Err(NeedsReconciliation)
      else if o.intent !in s.intents then Err(IntentNotFound)
      else
        var p := policy(s.intents[o.intent]);
        if !p.allowed then Err(PolicyDenied)
        else if !p.requiresApproval then Ok(o)
        else if o.approval.None? then Err(NoApproval)
        else if o.approval.value !in s.approvals then Err(ApprovalNotFound)
        else if !s.approvals[o.approval.value].status.Approved? then Err(NotApproved)
        else Ok(o)
  }

  function RecordOperation(env: Env, actor: PrincipalId, id: EventId, kind: OperationEventKind, o: Operation): Event {
    EngineEvent(env, actor, id, OperationEvent(kind, o), EntityKind.Operation, o.id)
  }

  /** A decision's action: the intent, the operation, and an approval request when
      the policy asks for one. */
  function PlanBatch(
    env: Env, hekate: PrincipalId, policy: Intent -> Policy, intent: Intent, id: OperationId, approval: ApprovalId,
    events: (EventId, EventId, EventId)): seq<Event>
  {
    var needed := policy(intent).requiresApproval;
    var o := Operation.Operation(id, intent.id, OperationStatus.Planned, if needed then Some(approval) else None);
    [EngineEvent(env, hekate, events.0, IntentCreated(intent), EntityKind.OtherEntity, intent.id),
     RecordOperation(env, hekate, events.1, OperationEventKind.Planned, o)]
    + (if needed then
         [EngineEvent(env, hekate, events.2,
                      ApprovalEvent(ApprovalEventKind.Requested, Approval.Approval(approval, intent.id, id, ApprovalStatus.Pending, None)),
                      EntityKind.Approval, approval)]
       else [])
  }

  /** Resolves a pending approval and moves its operation accordingly. */
  function ResolveBatch(
    env: Env, user: PrincipalId, s: State, id: ApprovalId, approved: bool, events: (EventId, EventId)): Option<seq<Event>>
  {
    if id !in s.approvals || !s.approvals[id].status.Pending? then None
    else
      var a := s.approvals[id];
      var next := if approved then OperationStatus.Authorized else OperationStatus.Failed;
      if a.operation !in s.operations then None
      else
        match TransitionOperation(s.operations[a.operation], next)
        case None => None
        case Some(o) =>
          var resolved :=
            a.(status := if approved then ApprovalStatus.Approved else ApprovalStatus.Denied, resolvedBy := Some(user));
          Some([EngineEvent(env, user, events.0, ApprovalEvent(ApprovalEventKind.Resolved, resolved), EntityKind.Approval, a.id),
                RecordOperation(env, user, events.1,
                                if approved then OperationEventKind.Authorized else OperationEventKind.Failed, o)])
  }

  datatype Outcome = Confirmed | Unconfirmed | OutcomeUnknown | Failure

  function FinalStatus(outcome: Outcome): OperationStatus {
    match outcome
    case Confirmed => OperationStatus.Succeeded
    case Unconfirmed => OperationStatus.Unknown
    case OutcomeUnknown => OperationStatus.Unknown
    case Failure => OperationStatus.Failed
  }

  datatype ReportIds = ReportIds(
    outcome: EventId, receipt: EventId, artifact: EventId, effect: EventId, receiptId: ReceiptId, effectId: VerificationId)

  /** The receipt of a run, and what is recorded with it. */
  function ReportBatch(
    env: Env, hekate: PrincipalId, o: Operation, outcome: Outcome, artifact: Option<Artifact>, ids: ReportIds): seq<Event>
  {
    var done := o.(status := FinalStatus(outcome));
    var kind :=
      match outcome
      case Confirmed => OperationEventKind.Succeeded
      case Failure => OperationEventKind.Failed
      case _ => OperationEventKind.StateUnknown;
    var verdict := if outcome.Confirmed? then EffectStatus.Verified else EffectStatus.Failed;
    [RecordOperation(env, hekate, ids.outcome, kind, done),
     EngineEvent(env, hekate, ids.receipt, ReceiptRecorded(Receipt.Receipt(ids.receiptId, o.id, done.status)),
                 EntityKind.Receipt, ids.receiptId)]
    + (if (outcome.Confirmed? || outcome.Unconfirmed?) && artifact.Some? then
         [EngineEvent(env, hekate, ids.artifact, ArtifactCreated(artifact.value), EntityKind.Artifact, artifact.value.id)]
       else [])
    + (if outcome.Confirmed? || outcome.Failure? then
         [EngineEvent(env, hekate, ids.effect,
                      EffectVerified(EffectVerification.EffectVerification(ids.effectId, o.id, verdict)),
                      EntityKind.Verification, ids.effectId)]
       else [])
  }

  predicate Unguarded(b: Body) {
    b.IntentCreated? || b.OperationEvent? || b.ApprovalEvent? || b.ReceiptRecorded? || b.EffectVerified?
    || b.ArtifactCreated?
  }

  /** These records are only refused when their event is not new. */
  lemma UnguardedAccepted(env: Env, s: State, e: Event)
    requires Unguarded(e.body)
    ensures Step(env, s, e).Some? <==> e.id !in s.applied
    ensures Step(env, s, e).Some? ==> Step(env, s, e).value.applied == s.applied + [e.id]
  {
  }

  // ---------------------------------------------------------------- calls with a crash between any two steps

  /** Where a call stands, with its copy of the operation. */
  datatype Call =
    | NoCall
    | Cleared(operation: Operation)
    | Authorized(operation: Operation)
    | Launching(operation: Operation)
    | Reporting(operation: Operation, outcome: Outcome)

  /** Any number of calls may be in progress; `ran` lists the operations whose
      capability was run, in order. */
  datatype World = World(store: Store, calls: map<nat, Call>, ran: seq<OperationId>)

  /** The steps of planning, resolving and executing. A record of a call that another
      writer overtakes between its load and its commit fails; that is `Crash`. */
  datatype Action =
    | Plan(intent: Intent, operation: OperationId, approval: ApprovalId, planEvents: (EventId, EventId, EventId))
    | Resolve(resolved: ApprovalId, approved: bool, resolveEvents: (EventId, EventId))
    | Execute(c: nat, executed: OperationId)
    | Authorize(c: nat, authorizeEvent: EventId)
    | Start(c: nat, startEvent: EventId)
    | Run(c: nat, outcome: Outcome)
    | Report(c: nat, artifact: Option<Artifact>, ids: ReportIds)
    | Crash(c: nat)
    | Foreign(events: seq<Event>, expected: Option<nat>)

  datatype Party = Party(env: Env, user: PrincipalId, hekate: PrincipalId, policy: Intent -> Policy)

  predicate TouchesOperations(e: Event) {
    e.body.IntentCreated? || e.body.OperationEvent? || e.body.ApprovalEvent? || e.body.EffectVerified?
  }

  function CallOf(w: World, c: nat): Call {
    if c in w.calls then w.calls[c] else NoCall
  }

  function Put(w: World, c: nat, call: Call): World {
    w.(calls := w.calls[c := call])
  }

  /** Records a batch outside any call. */
  function Append(p: Party, w: World, events: seq<Event>, expected: Option<nat>): World {
    match RecordBatch(p.env, w.store, events, expected)
    case Err(_) => w
    case Ok(store) => w.(store := store)
  }

  /** Records a batch of a call; when that fails the call ends with an error. */
  function Commit(p: Party, w: World, c: nat, events: seq<Event>, call: Call): World {
    match RecordBatch(p.env, w.store, events, None)
    case Err(_) => Put(w, c, NoCall)
    case Ok(store) => Put(w.(store := store), c, call)
  }

  predicate FreshPlan(p: Party, s: State, intent: Intent, operation: OperationId, approval: ApprovalId) {
    p.policy(intent).allowed && intent.id !in s.intents && operation !in s.operations && approval !in s.approvals
  }

  function Next(p: Party, w: World, a: Action): World {
    var s := w.store.state;
    match a
    case Plan(intent, operation, approval, events) =>
      if !FreshPlan(p, s, intent, operation, approval) then w
      else Append(p, w, PlanBatch(p.env, p.hekate, p.policy, intent, operation, approval, events), Some(s.revision))
    case Resolve(id, approved, events) =>
      (match ResolveBatch(p.env, p.user, s, id, approved, events)
       case None => w
       case Some(batch) => Append(p, w, batch, Some(s.revision)))
    case Execute(c, id) =>
      if !CallOf(w, c).NoCall? then w
      else
        (match CheckExecute(p.policy, s, id)
         case Err(_) => w
         case Ok(o) => Put(w, c, if o.status.Planned? then Cleared(o) else Call.Authorized(o)))
    case Authorize(c, event) =>
      if !CallOf(w, c).Cleared? then w
      else
        var o := CallOf(w, c).operation.(status := OperationStatus.Authorized);
        Commit(p, w, c, [RecordOperation(p.env, p.hekate, event, OperationEventKind.Authorized, o)], Call.Authorized(o))
    case Start(c, event) =>
      if !CallOf(w, c).Authorized? then w
      else
        var o := CallOf(w, c).operation.(status := OperationStatus.Started);
        Commit(p, w, c, [RecordOperation(p.env, p.hekate, event, OperationEventKind.Started, o)], Launching(o))
    case Run(c, outcome) =>
      if !CallOf(w, c).Launching? then w
      else
        var o := CallOf(w, c).operation;
        Put(w, c, Reporting(o, outcome)).(ran := w.ran + [o.id])
    case Report(c, artifact, ids) =>
      if !CallOf(w, c).Reporting? then w
      else
        var call := CallOf(w, c);
        Commit(p, w, c, ReportBatch(p.env, p.hekate, call.operation, call.outcome, artifact, ids), NoCall)
    case Crash(c) => Put(w, c, NoCall)
    case Foreign(events, expected) =>
      if exists e | e in events :: TouchesOperations(e) then w else Append(p, w, events, expected)
  }

  function Exec(p: Party, w: World, actions: seq<Action>): World {
    if actions == [] then w else Next(p, Exec(p, w, actions[..|actions| - 1]), actions[|actions| - 1])
  }

  lemma {:induction false} ExecConcat(p: Party, w: World, a: seq<Action>, b: seq<Action>)
    ensures Exec(p, w, a + b) == Exec(p, Exec(p, w, a), b)
  {
    hide Next;
    if b == [] {
      assert a + b == a;
    } else {
      ExecConcat(p, w, a, b[..|b| - 1]);
      assert (a + b)[..|a + b| - 1] == a + b[..|b| - 1];
    }
  }

  lemma ExecOne(p: Party, w: World, a: Action)
    ensures Exec(p, w, [a]) == Next(p, w, a)
  {
    hide Next;
    assert [a][..0] == [];
  }

  const EMPTY_WORLD: World := World(EMPTY_STORE, map[], [])

  // ---------------------------------------------------------------- which calls overlap

  /** The call has passed the checks and has not run the capability yet. */
  predicate BeforeRun(call: Call) {
    call.Cleared? || call.Authorized? || call.Launching?
  }

  /** Some call is between its check of this operation and its run. */
  predicate InFlight(w: World, id: OperationId) {
    exists c | c in w.calls :: BeforeRun(w.calls[c]) && w.calls[c].operation.id == id
  }

  /** A call passes the checks while another one on the operation is about to run it. */
  predicate Overlaps(p: Party, w: World, a: Action) {
    a.Execute? && CallOf(w, a.c).NoCall? && CheckExecute(p.policy, w.store.state, a.executed).Ok? && InFlight(w, a.executed)
  }

  ghost predicate Serialized(p: Party, actions: seq<Action>) {
    forall k | 0 <= k < |actions| :: !Overlaps(p, Exec(p, EMPTY_WORLD, actions[..k]), actions[k])
  }

  // ---------------------------------------------------------------- the invariant, on the three maps alone

  /** The records the protocol depends on. */
  datatype Records = Records(
    intents: map<IntentId, Intent>, operations: map<OperationId, Operation>, approvals: map<ApprovalId, Approval>)

  function RecordsOf(s: State): Records {
    Records(s.intents, s.operations, s.approvals)
  }

  predicate NeedsApproval(policy: Intent -> Policy, r: Records, o: Operation) {
    o.intent in r.intents && policy(r.intents[o.intent]).requiresApproval
  }

  /** An operation's intent is allowed; one that needs an approval has one, of its own. */
  ghost predicate ApprovalLinked(policy: Intent -> Policy, r: Records, id: OperationId)
    requires id in r.operations
  {
    var o := r.operations[id];
    && o.id == id && o.intent in r.intents && policy(r.intents[o.intent]).allowed
    && (o.approval.Some? <==> NeedsApproval(policy, r, o))
    && (o.approval.Some? ==> o.approval.value in r.approvals && r.approvals[o.approval.value].operation == id)
  }

  /** The approval decides how far its operation may be. */
  ghost predicate ApprovalObeyed(r: Records, id: OperationId)
    requires id in r.operations
  {
    var o := r.operations[id];
    o.approval.Some? && o.approval.value in r.approvals ==>
      match r.approvals[o.approval.value].status
      case Pending => o.status.Planned?
      case Approved => !o.status.Planned?
      case Denied => o.status.Failed?
      case Expired => false
  }

  predicate NotStarted(o: Operation) {
    o.status.Planned? || o.status.Authorized?
  }

  /** No operation ran twice, none that has not started ran, and none that ran was denied. */
  ghost predicate RunsOk(r: Records, ran: seq<OperationId>) {
    && Distinct(ran)
    && forall id | id in ran ::
         && id in r.operations && !NotStarted(r.operations[id])
         && (r.operations[id].approval.Some? && r.operations[id].approval.value in r.approvals ==>
               r.approvals[r.operations[id].approval.value].status.Approved?)
  }

  /** The call's copy is the stored operation, at the status its place says. */
  ghost predicate CallOk(policy: Intent -> Policy, r: Records, call: Call, ran: seq<OperationId>) {
    call.NoCall? ||
    var o := call.operation;
    && o.id in r.operations && r.operations[o.id] == o
    && (o.approval.Some? ==> o.approval.value in r.approvals && r.approvals[o.approval.value].status.Approved?)
    && (match call
        case Cleared(_) => o.status.Planned? && o.approval.None?
        case Authorized(_) => o.status.Authorized?
        case Launching(_) => o.status.Started? && o.id !in ran
        case Reporting(_, _) => o.status.Started?
        case NoCall => true)
  }

  ghost predicate RecordsOk(policy: Intent -> Policy, r: Records) {
    && (forall id | id in r.operations :: ApprovalLinked(policy, r, id) && ApprovalObeyed(r, id))
    && (forall a | a in r.approvals ::
          && r.approvals[a].id == a
          && r.approvals[a].operation in r.operations
          && r.operations[r.approvals[a].operation].approval == Some(a))
  }

  ghost predicate SafeOperations(policy: Intent -> Policy, r: Records, call: Call, ran: seq<OperationId>) {
    RecordsOk(policy, r) && RunsOk(r, ran) && CallOk(policy, r, call, ran)
  }

  /** Calls in progress are on different operations. */
  ghost predicate Apart(calls: map<nat, Call>) {
    forall c, d | c in calls && d in calls && c != d && !calls[c].NoCall? && !calls[d].NoCall? ::
      calls[c].operation.id != calls[d].operation.id
  }

  ghost predicate CallsOk(policy: Intent -> Policy, r: Records, calls: map<nat, Call>, ran: seq<OperationId>) {
    Apart(calls) && forall c | c in calls :: CallOk(policy, r, calls[c], ran)
  }

  // ---------------------------------------------------------------- each kind of change keeps it

  /** What a call relies on when something else changes. */
  ghost predicate Keeps(call: Call, r: Records, t: Records, ran: seq<OperationId>, rans: seq<OperationId>) {
    !call.NoCall? ==>
      var o := call.operation;
      && (o.id in r.operations ==> o.id in t.operations && t.operations[o.id] == r.operations[o.id])
      && (o.approval.Some? && o.approval.value in r.approvals && r.approvals[o.approval.value].status.Approved? ==>
            o.approval.value in t.approvals && t.approvals[o.approval.value].status.Approved?)
      && (o.id in rans ==> o.id in ran)
  }

  /** One call moves to a place that fits; the others keep what they rely on. */
  lemma OthersKept(
    policy: Intent -> Policy, r: Records, t: Records, calls: map<nat, Call>, ran: seq<OperationId>, rans: seq<OperationId>,
    c: nat, next: Call)
    requires CallsOk(policy, r, calls, ran)
    requires CallOk(policy, t, next, rans)
    requires next.NoCall? || (c in calls && !calls[c].NoCall? && next.operation.id == calls[c].operation.id)
             || forall d | d in calls && d != c && !calls[d].NoCall? :: calls[d].operation.id != next.operation.id
    requires forall d | d in calls && d != c :: Keeps(calls[d], r, t, ran, rans)
    ensures CallsOk(policy, t, calls[c := next], rans)
  {
    var all := calls[c := next];
    forall d | d in all ensures CallOk(policy, t, all[d], rans) {
      if d != c { assert CallOk(policy, r, calls[d], ran) && Keeps(calls[d], r, t, ran, rans); }
    }
  }

  /** A change outside the calls. */
  lemma AllKept(policy: Intent -> Policy, r: Records, t: Records, calls: map<nat, Call>, ran: seq<OperationId>)
    requires CallsOk(policy, r, calls, ran)
    requires forall d | d in calls :: Keeps(calls[d], r, t, ran, ran)
    ensures CallsOk(policy, t, calls, ran)
  {
    forall d | d in calls ensures CallOk(policy, t, calls[d], ran) {
      assert CallOk(policy, r, calls[d], ran) && Keeps(calls[d], r, t, ran, ran);
    }
  }

  lemma PlanSafe(policy: Intent -> Policy, r: Records, ran: seq<OperationId>, intent: Intent, id: OperationId, approval: ApprovalId)
    requires SafeOperations(policy, r, NoCall, ran)
    requires policy(intent).allowed && intent.id !in r.intents && id !in r.operations && approval !in r.approvals
    ensures var needed := policy(intent).requiresApproval;
            var o := Operation.Operation(id, intent.id, OperationStatus.Planned, if needed then Some(approval) else None);
            var a := Approval.Approval(approval, intent.id, id, ApprovalStatus.Pending, None);
            SafeOperations(policy, Records(r.intents[intent.id := intent], r.operations[id := o],
                                           if needed then r.approvals[approval := a] else r.approvals), NoCall, ran)
  {
    var needed := policy(intent).requiresApproval;
    var o := Operation.Operation(id, intent.id, OperationStatus.Planned, if needed then Some(approval) else None);
    var a := Approval.Approval(approval, intent.id, id, ApprovalStatus.Pending, None);
    var next := Records(r.intents[intent.id := intent], r.operations[id := o],
                        if needed then r.approvals[approval := a] else r.approvals);
    forall k | k in next.operations ensures ApprovalLinked(policy, next, k) && ApprovalObeyed(next, k) {
      if k != id { assert ApprovalLinked(policy, r, k) && ApprovalObeyed(r, k); }
    }
    forall k | k in ran
      ensures k in next.operations && !NotStarted(next.operations[k])
      ensures next.operations[k].approval.Some? && next.operations[k].approval.value in next.approvals ==>
                next.approvals[next.operations[k].approval.value].status.Approved?
    {
      assert k in r.operations && ApprovalLinked(policy, r, k);
    }
  }

  lemma ResolveSafe(
    policy: Intent -> Policy, r: Records, ran: seq<OperationId>, id: ApprovalId, approved: bool, user: PrincipalId)
    requires SafeOperations(policy, r, NoCall, ran)
    requires id in r.approvals && r.approvals[id].status.Pending?
    ensures var a := r.approvals[id];
            && a.operation in r.operations
            && r.operations[a.operation].status.Planned?
            && var o := r.operations[a.operation].(status := if approved then OperationStatus.Authorized else OperationStatus.Failed);
            var resolved :=
              a.(status := if approved then ApprovalStatus.Approved else ApprovalStatus.Denied, resolvedBy := Some(user));
            SafeOperations(policy, Records(r.intents, r.operations[a.operation := o], r.approvals[id := resolved]), NoCall, ran)
  {
    var a := r.approvals[id];
    assert ApprovalLinked(policy, r, a.operation) && ApprovalObeyed(r, a.operation);
    var o := r.operations[a.operation].(status := if approved then OperationStatus.Authorized else OperationStatus.Failed);
    var resolved :=
      a.(status := if approved then ApprovalStatus.Approved else ApprovalStatus.Denied, resolvedBy := Some(user));
    var next := Records(r.intents, r.operations[a.operation := o], r.approvals[id := resolved]);
    assert a.operation !in ran;
    forall k | k in next.operations ensures ApprovalLinked(policy, next, k) && ApprovalObeyed(next, k) {
      assert ApprovalLinked(policy, r, k) && ApprovalObeyed(r, k);
    }
    forall k | k in ran
      ensures k in next.operations && !NotStarted(next.operations[k])
      ensures next.operations[k].approval.Some? && next.operations[k].approval.value in next.approvals ==>
                next.approvals[next.operations[k].approval.value].status.Approved?
    {
      assert k in r.operations && ApprovalLinked(policy, r, k);
    }
  }

  /** The call in progress moves its operation on. */
  lemma MoveSafe(policy: Intent -> Policy, r: Records, call: Call, ran: seq<OperationId>, to: OperationStatus, next: Call)
    requires SafeOperations(policy, r, call, ran) && !call.NoCall?
    requires !to.Planned? && (call.operation.id in ran ==> !to.Authorized?)
    requires next.NoCall? || next.operation == call.operation.(status := to)
    requires match next
             case NoCall => true
             case Cleared(_) => false
             case Authorized(_) => to.Authorized?
             case Launching(_) => to.Started? && call.operation.id !in ran
             case Reporting(_, _) => to.Started?
    ensures SafeOperations(policy, Records(r.intents, r.operations[call.operation.id := call.operation.(status := to)],
                                           r.approvals), next, ran)
  {
    var o := call.operation;
    var moved := Records(r.intents, r.operations[o.id := o.(status := to)], r.approvals);
    forall k | k in moved.operations ensures ApprovalLinked(policy, moved, k) && ApprovalObeyed(moved, k) {
      assert ApprovalLinked(policy, r, k) && ApprovalObeyed(r, k);
    }
  }

  lemma ExecuteSafe(p: Party, s: State, ran: seq<OperationId>, id: OperationId)
    requires SafeOperations(p.policy, RecordsOf(s), NoCall, ran) && CheckExecute(p.policy, s, id).Ok?
    ensures var o := CheckExecute(p.policy, s, id).value;
            SafeOperations(p.policy, RecordsOf(s), if o.status.Planned? then Cleared(o) else Call.Authorized(o), ran)
  {
    var r := RecordsOf(s);
    assert ApprovalLinked(p.policy, r, id) && ApprovalObeyed(r, id);
  }

  lemma RunSafe(policy: Intent -> Policy, r: Records, call: Call, ran: seq<OperationId>, outcome: Outcome)
    requires SafeOperations(policy, r, call, ran) && call.Launching?
    ensures SafeOperations(policy, r, Reporting(call.operation, outcome), ran + [call.operation.id])
    ensures call.operation.id !in ran
  {
  }

  // ---------------------------------------------------------------- the records as a fold of the ledger

  function MoveRecords(r: Records, b: Body): Records {
    match b
    case IntentCreated(i) => r.(intents := r.intents[i.id := i])
    case OperationEvent(_, o) => r.(operations := r.operations[o.id := o])
    case ApprovalEvent(_, a) => r.(approvals := r.approvals[a.id := a])
    case EffectVerified(v) =>
      if v.operation in r.operations
      then r.(operations := r.operations[v.operation := r.operations[v.operation].(status := EffectOutcome(v.status))])
      else r
    case _ => r
  }

  function FoldRecords(r: Records, events: seq<Event>): Records {
    if events == [] then r else MoveRecords(FoldRecords(r, events[..|events| - 1]), events[|events| - 1].body)
  }

  lemma {:induction false} FoldIsState(env: Env, s: State, events: seq<Event>)
    requires ApplyAll(env, s, events).Some?
    ensures RecordsOf(ApplyAll(env, s, events).value) == FoldRecords(RecordsOf(s), events)
  {
    hide Step;
    if events != [] {
      var front := events[..|events| - 1];
      FoldIsState(env, s, front);
      StepOperationParts(env, ApplyAll(env, s, front).value, events[|events| - 1]);
    }
  }

  lemma FoldOne(r: Records, events: seq<Event>, e: Event)
    ensures FoldRecords(r, events + [e]) == MoveRecords(FoldRecords(r, events), e.body)
  {
    assert (events + [e])[..|events|] == events;
  }

  /** Every status is kept or moved by one allowed transition. */
  ghost predicate StatusesMove(r: Records, t: Records) {
    forall id | id in r.operations ::
      && id in t.operations
      && (t.operations[id].status == r.operations[id].status
          || OperationTransitionAllowed(r.operations[id].status, t.operations[id].status))
  }

  /** Each event of the list moves the statuses that way. */
  ghost predicate MovesAllowed(r: Records, events: seq<Event>) {
    forall k | 0 <= k < |events| :: StatusesMove(FoldRecords(r, events[..k]), FoldRecords(r, events[..k + 1]))
  }

  lemma MovesOne(r: Records, events: seq<Event>, e: Event)
    requires MovesAllowed(r, events)
    requires StatusesMove(FoldRecords(r, events), MoveRecords(FoldRecords(r, events), e.body))
    ensures MovesAllowed(r, events + [e])
  {
    hide StatusesMove;
    var all := events + [e];
    FoldOne(r, events, e);
    forall k | 0 <= k < |all| ensures StatusesMove(FoldRecords(r, all[..k]), FoldRecords(r, all[..k + 1])) {
      if k == |events| {
        assert all[..k] == events && all[..k + 1] == all;
      } else {
        assert all[..k] == events[..k] && all[..k + 1] == events[..k + 1];
      }
    }
  }

  lemma {:induction false} FoldConcat(r: Records, a: seq<Event>, b: seq<Event>)
    ensures FoldRecords(r, a + b) == FoldRecords(FoldRecords(r, a), b)
  {
    if b == [] {
      assert a + b == a;
    } else {
      FoldConcat(r, a, b[..|b| - 1]);
      assert a + b == a + b[..|b| - 1] + [b[|b| - 1]];
      FoldOne(r, a + b[..|b| - 1], b[|b| - 1]);
    }
  }

  lemma MovesFront(r: Records, events: seq<Event>)
    requires MovesAllowed(r, events) && events != []
    ensures var n := |events| - 1;
            && MovesAllowed(r, events[..n])
            && StatusesMove(FoldRecords(r, events[..n]), MoveRecords(FoldRecords(r, events[..n]), events[n].body))
  {
    hide StatusesMove, FoldRecords;
    var n := |events| - 1;
    var front := events[..n];
    forall k | 0 <= k < n ensures StatusesMove(FoldRecords(r, front[..k]), FoldRecords(r, front[..k + 1])) {
      assert front[..k] == events[..k] && front[..k + 1] == events[..k + 1];
    }
    FoldOne(r, front, events[n]);
    assert front + [events[n]] == events == events[..n + 1];
  }

  lemma {:induction false} MovesConcat(r: Records, a: seq<Event>, b: seq<Event>)
    requires MovesAllowed(r, a) && MovesAllowed(FoldRecords(r, a), b)
    ensures MovesAllowed(r, a + b)
  {
    hide StatusesMove, FoldRecords, MovesAllowed;
    if b == [] {
      assert a + b == a;
    } else {
      var front, last := b[..|b| - 1], b[|b| - 1];
      MovesFront(FoldRecords(r, a), b);
      MovesConcat(r, a, front);
      FoldConcat(r, a, front);
      MovesOne(r, a + front, last);
      assert a + front + [last] == a + b;
    }
  }

  // ---------------------------------------------------------------- what each batch does

  lemma {:induction false} QuietFold(r: Records, events: seq<Event>)
    requires forall e | e in events :: !TouchesOperations(e)
    ensures FoldRecords(r, events) == r && MovesAllowed(r, events)
  {
    if events != [] {
      var front, last := events[..|events| - 1], events[|events| - 1];
      assert last in events;
      QuietFold(r, front);
      FoldOne(r, front, last);
      MovesOne(r, front, last);
      assert front + [last] == events;
    }
  }

  lemma NoMoves(r: Records)
    ensures MovesAllowed(r, [])
  {
  }

  /** One more event, whose move is allowed. */
  lemma Extend(r: Records, events: seq<Event>, e: Event, before: Records, after: Records)
    requires MovesAllowed(r, events) && FoldRecords(r, events) == before
    requires MoveRecords(before, e.body) == after && StatusesMove(before, after)
    ensures MovesAllowed(r, events + [e]) && FoldRecords(r, events + [e]) == after
  {
    MovesOne(r, events, e);
    FoldOne(r, events, e);
  }

  lemma PlanFold(p: Party, r: Records, intent: Intent, id: OperationId, approval: ApprovalId, events: (EventId, EventId, EventId))
    requires id !in r.operations
    ensures var batch := PlanBatch(p.env, p.hekate, p.policy, intent, id, approval, events);
            var needed := p.policy(intent).requiresApproval;
            var o := Operation.Operation(id, intent.id, OperationStatus.Planned, if needed then Some(approval) else None);
            var a := Approval.Approval(approval, intent.id, id, ApprovalStatus.Pending, None);
            && MovesAllowed(r, batch)
            && FoldRecords(r, batch) == Records(r.intents[intent.id := intent], r.operations[id := o],
                                                if needed then r.approvals[approval := a] else r.approvals)
  {
    hide FoldRecords, MovesAllowed;
    var batch := PlanBatch(p.env, p.hekate, p.policy, intent, id, approval, events);
    NoMoves(r);
    FoldNone(r);
    var r1 := MoveRecords(r, batch[0].body);
    Extend(r, [], batch[0], r, r1);
    var r2 := MoveRecords(r1, batch[1].body);
    assert [] + [batch[0]] == [batch[0]];
    Extend(r, [batch[0]], batch[1], r1, r2);
    assert [batch[0]] + [batch[1]] == batch[..2];
    if |batch| == 3 {
      Extend(r, batch[..2], batch[2], r2, MoveRecords(r2, batch[2].body));
      assert batch[..2] + [batch[2]] == batch;
    } else {
      assert batch[..2] == batch;
    }
  }

  lemma FoldNone(r: Records)
    ensures FoldRecords(r, []) == r
  {
  }

  lemma ResolveFold(p: Party, s: State, id: ApprovalId, approved: bool, events: (EventId, EventId))
    requires ResolveBatch(p.env, p.user, s, id, approved, events).Some?
    requires forall k | k in s.approvals :: s.approvals[k].id == k
    requires forall k | k in s.operations :: s.operations[k].id == k
    ensures var batch := ResolveBatch(p.env, p.user, s, id, approved, events).value;
            var a := s.approvals[id];
            var o := s.operations[a.operation].(status := if approved then OperationStatus.Authorized else OperationStatus.Failed);
            var resolved :=
              a.(status := if approved then ApprovalStatus.Approved else ApprovalStatus.Denied, resolvedBy := Some(p.user));
            && MovesAllowed(RecordsOf(s), batch)
            && FoldRecords(RecordsOf(s), batch)
               == Records(s.intents, s.operations[a.operation := o], s.approvals[id := resolved])
  {
    hide FoldRecords, MovesAllowed;
    var r := RecordsOf(s);
    var batch := ResolveBatch(p.env, p.user, s, id, approved, events).value;
    NoMoves(r);
    FoldNone(r);
    var r1 := MoveRecords(r, batch[0].body);
    Extend(r, [], batch[0], r, r1);
    assert [] + [batch[0]] == [batch[0]];
    Extend(r, [batch[0]], batch[1], r1, MoveRecords(r1, batch[1].body));
    assert [batch[0]] + [batch[1]] == batch;
  }

  lemma RecordFold(env: Env, r: Records, actor: PrincipalId, id: EventId, kind: OperationEventKind, o: Operation)
    requires o.id in r.operations && OperationTransitionAllowed(r.operations[o.id].status, o.status)
    ensures var batch := [RecordOperation(env, actor, id, kind, o)];
            MovesAllowed(r, batch) && FoldRecords(r, batch) == r.(operations := r.operations[o.id := o])
  {
    hide FoldRecords, MovesAllowed;
    var e := RecordOperation(env, actor, id, kind, o);
    NoMoves(r);
    FoldNone(r);
    Extend(r, [], e, r, MoveRecords(r, e.body));
    assert [] + [e] == [e];
  }

  /** The status an outcome leaves once the effect is verified. */
  function SettledStatus(outcome: Outcome): OperationStatus {
    if outcome.Confirmed? then OperationStatus.Verified else FinalStatus(outcome)
  }

  lemma ReportStatuses(r: Records, o: Operation, outcome: Outcome)
    requires o.id in r.operations && r.operations[o.id] == o && o.status.Started?
    ensures var r1 := r.(operations := r.operations[o.id := o.(status := FinalStatus(outcome))]);
            var r2 := r.(operations := r.operations[o.id := o.(status := SettledStatus(outcome))]);
            && StatusesMove(r, r1) && StatusesMove(r1, r1)
            && (outcome.Confirmed? || outcome.Failure? ==>
                  && StatusesMove(r1, r2)
                  && r2 == r1.(operations := r1.operations[o.id :=
                             r1.operations[o.id].(status := EffectOutcome(if outcome.Confirmed? then EffectStatus.Verified
                                                                          else EffectStatus.Failed))]))
            && (!outcome.Confirmed? && !outcome.Failure? ==> r1 == r2)
  {
  }

  /** What a report holds: the outcome, the receipt, perhaps an artifact, perhaps a verdict. */
  lemma ReportParts(env: Env, hekate: PrincipalId, o: Operation, outcome: Outcome, artifact: Option<Artifact>, ids: ReportIds)
    ensures var batch := ReportBatch(env, hekate, o, outcome, artifact, ids);
            var k := if (outcome.Confirmed? || outcome.Unconfirmed?) && artifact.Some? then 3 else 2;
            && |batch| == (if outcome.Confirmed? || outcome.Failure? then k + 1 else k)
            && (match outcome
                case Confirmed =>
                  && batch[0].body == OperationEvent(OperationEventKind.Succeeded, o.(status := OperationStatus.Succeeded))
                  && batch[1].body == ReceiptRecorded(Receipt.Receipt(ids.receiptId, o.id, OperationStatus.Succeeded))
                  && batch[k].body == EffectVerified(EffectVerification.EffectVerification(ids.effectId, o.id, EffectStatus.Verified))
                case Failure =>
                  && batch[0].body == OperationEvent(OperationEventKind.Failed, o.(status := OperationStatus.Failed))
                  && batch[1].body == ReceiptRecorded(Receipt.Receipt(ids.receiptId, o.id, OperationStatus.Failed))
                  && batch[k].body == EffectVerified(EffectVerification.EffectVerification(ids.effectId, o.id, EffectStatus.Failed))
                case _ =>
                  && batch[0].body == OperationEvent(OperationEventKind.StateUnknown, o.(status := OperationStatus.Unknown))
                  && batch[1].body == ReceiptRecorded(Receipt.Receipt(ids.receiptId, o.id, OperationStatus.Unknown)))
            && (k == 3 ==> batch[2].body == ArtifactCreated(artifact.value))
            && batch[0].id == ids.outcome && batch[1].id == ids.receipt && (k == 3 ==> batch[2].id == ids.artifact)
            && (outcome.Confirmed? || outcome.Failure? ==> batch[k].id == ids.effect)
  {
  }

  /** What of these moves the operation. */
  lemma ReportMoves(env: Env, hekate: PrincipalId, o: Operation, outcome: Outcome, artifact: Option<Artifact>, ids: ReportIds)
    ensures var batch := ReportBatch(env, hekate, o, outcome, artifact, ids);
            var k := if (outcome.Confirmed? || outcome.Unconfirmed?) && artifact.Some? then 3 else 2;
            && |batch| == (if outcome.Confirmed? || outcome.Failure? then k + 1 else k)
            && batch[0].body.OperationEvent? && batch[0].body.operation == o.(status := FinalStatus(outcome))
            && batch[1].body.ReceiptRecorded?
            && (k == 3 ==> batch[2].body.ArtifactCreated?)
            && (outcome.Confirmed? || outcome.Failure? ==>
                  batch[k].body.EffectVerified? && batch[k].body.effect.operation == o.id
                  && batch[k].body.effect.status == if outcome.Confirmed? then EffectStatus.Verified else EffectStatus.Failed)
  {
    hide ReportBatch;
    ReportParts(env, hekate, o, outcome, artifact, ids);
  }

  lemma ReportFold(p: Party, r: Records, o: Operation, outcome: Outcome, artifact: Option<Artifact>, ids: ReportIds)
    requires o.id in r.operations && r.operations[o.id] == o && o.status.Started?
    ensures var batch := ReportBatch(p.env, p.hekate, o, outcome, artifact, ids);
            && MovesAllowed(r, batch)
            && FoldRecords(r, batch) == r.(operations := r.operations[o.id := o.(status := SettledStatus(outcome))])
  {
    hide FoldRecords, MovesAllowed, StatusesMove, ReportBatch;
    ReportMoves(p.env, p.hekate, o, outcome, artifact, ids);
    var batch := ReportBatch(p.env, p.hekate, o, outcome, artifact, ids);
    var r1 := r.(operations := r.operations[o.id := o.(status := FinalStatus(outcome))]);
    var r2 := r.(operations := r.operations[o.id := o.(status := SettledStatus(outcome))]);
    ReportStatuses(r, o, outcome);
    NoMoves(r);
    FoldNone(r);
    Extend(r, [], batch[0], r, r1);
    assert [] + [batch[0]] == batch[..1];
    Extend(r, batch[..1], batch[1], r1, r1);
    assert batch[..1] + [batch[1]] == batch[..2];
    var k := if (outcome.Confirmed? || outcome.Unconfirmed?) && artifact.Some? then 3 else 2;
    if k == 3 {
      Extend(r, batch[..2], batch[2], r1, r1);
      assert batch[..2] + [batch[2]] == batch[..3];
    }
    if outcome.Confirmed? || outcome.Failure? {
      Extend(r, batch[..k], batch[k], r1, r2);
      assert batch[..k] + [batch[k]] == batch;
    } else {
      assert batch[..k] == batch;
    }
  }

  // ---------------------------------------------------------------- what the records of a call change

  /** The projection after one operation moved and nothing else changed. */
  ghost predicate Moved(s: State, t: State, o: Operation, to: OperationStatus) {
    t == s.(operations := s.operations[o.id := o.(status := to)], revision := t.revision, applied := t.applied)
  }

  /** The projection after a run was reported: the operation has its new status, there
      is a receipt, perhaps a verdict on the effect, perhaps an artifact, and nothing
      else changed. */
  ghost predicate Recorded(
    s: State, t: State, o: Operation, to: OperationStatus, receipt: Receipt, verdict: Option<EffectVerification>,
    artifact: Option<Artifact>)
  {
    t == s.(operations := s.operations[o.id := o.(status := to)],
            receipts := s.receipts[receipt.id := receipt],
            effects := if verdict.Some? then s.effects[verdict.value.id := verdict.value] else s.effects,
            artifacts := if artifact.Some? then s.artifacts[artifact.value.id := artifact.value] else s.artifacts,
            revision := t.revision, applied := t.applied)
  }

  lemma MoveStep(env: Env, s: State, actor: PrincipalId, id: EventId, kind: OperationEventKind, o: Operation)
    ensures ApplyAll(env, s, [RecordOperation(env, actor, id, kind, o)]).Some? <==> id !in s.applied
    ensures var t := ApplyAll(env, s, [RecordOperation(env, actor, id, kind, o)]);
            t.Some? ==> Moved(s, t.value, o, o.status)
  {
    ApplyOne(env, s, RecordOperation(env, actor, id, kind, o));
  }

  lemma ReceiptStep(env: Env, s: State, e: Event)
    requires e.body.ReceiptRecorded? && Step(env, s, e).Some?
    ensures var t := Step(env, s, e).value;
            t == s.(receipts := s.receipts[e.body.receipt.id := e.body.receipt], revision := t.revision, applied := t.applied)
  {
  }

  lemma OperationStep(env: Env, s: State, e: Event)
    requires e.body.OperationEvent? && Step(env, s, e).Some?
    ensures Moved(s, Step(env, s, e).value, e.body.operation, e.body.operation.status)
  {
  }

  lemma ApprovalStep(env: Env, s: State, e: Event)
    requires e.body.ApprovalEvent? && Step(env, s, e).Some?
    ensures var t := Step(env, s, e).value;
            t == s.(approvals := s.approvals[e.body.approval.id := e.body.approval], revision := t.revision, applied := t.applied)
  {
  }

  lemma ArtifactStep(env: Env, s: State, e: Event)
    requires e.body.ArtifactCreated? && Step(env, s, e).Some?
    ensures var t := Step(env, s, e).value;
            t == s.(artifacts := s.artifacts[e.body.artifact.id := e.body.artifact], revision := t.revision, applied := t.applied)
  {
  }

  lemma EffectStep(env: Env, s: State, e: Event)
    requires e.body.EffectVerified? && Step(env, s, e).Some?
    requires e.body.effect.operation in s.operations && !e.body.effect.status.Disputed?
    ensures var t, v := Step(env, s, e).value, e.body.effect;
            var o := s.operations[v.operation].(status := if v.status.Verified? then OperationStatus.Verified
                                                          else OperationStatus.Failed);
            t == s.(operations := s.operations[v.operation := o], effects := s.effects[v.id := v],
                    revision := t.revision, applied := t.applied)
  {
  }

  /** What a report that lands records, by the outcome of the run. */
  lemma ReportRecords(
    env: Env, hekate: PrincipalId, s: State, o: Operation, outcome: Outcome, artifact: Option<Artifact>, ids: ReportIds)
    requires ApplyAll(env, s, ReportBatch(env, hekate, o, outcome, artifact, ids)).Some?
    ensures OutcomeRecorded(s, ApplyAll(env, s, ReportBatch(env, hekate, o, outcome, artifact, ids)).value, o, outcome,
                            artifact, ids)
  {
    hide Step, ReportBatch, ApplyAll, OutcomeRecorded;
    ReportParts(env, hekate, o, outcome, artifact, ids);
    var batch := ReportBatch(env, hekate, o, outcome, artifact, ids);
    var k := if (outcome.Confirmed? || outcome.Unconfirmed?) && artifact.Some? then 3 else 2;
    assert batch == batch[..k] + batch[k..] && batch[..k] == batch[..2] + batch[2..k];
    ApplyAllConcat(env, s, batch[..k], batch[k..]);
    ApplyAllConcat(env, s, batch[..2], batch[2..k]);
    assert batch[..2] == [batch[0]] + [batch[1]];
    ApplyLast(env, s, [batch[0]], batch[1]);
    ApplyOne(env, s, batch[0]);
    OperationStep(env, s, batch[0]);
    ReceiptStep(env, Step(env, s, batch[0]).value, batch[1]);
    var s2, sk := ApplyAll(env, s, batch[..2]).value, ApplyAll(env, s, batch[..k]).value;
    ApplyNone(env, s2);
    ApplyNone(env, sk);
    if k == 3 {
      assert batch[2..k] == [batch[2]];
      ApplyOne(env, s2, batch[2]);
      ArtifactStep(env, s2, batch[2]);
    }
    if |batch| == k + 1 {
      assert batch[k..] == [batch[k]];
      ApplyOne(env, sk, batch[k]);
      EffectStep(env, sk, batch[k]);
    }
    RecordsAdd(s, s2, sk, ApplyAll(env, s, batch).value, o, outcome, artifact, ids);
  }

  lemma ApplyNone(env: Env, s: State)
    ensures ApplyAll(env, s, []) == Some(s)
  {
  }

  /** The outcome and the receipt, then perhaps the artifact, then perhaps the verdict. */
  lemma RecordsAdd(
    s: State, s2: State, sk: State, t: State, o: Operation, outcome: Outcome, artifact: Option<Artifact>, ids: ReportIds)
    requires var now := match outcome
                        case Confirmed => OperationStatus.Succeeded
                        case Failure => OperationStatus.Failed
                        case _ => OperationStatus.Unknown;
             s2 == s.(operations := s.operations[o.id := o.(status := now)],
                      receipts := s.receipts[ids.receiptId := Receipt.Receipt(ids.receiptId, o.id, now)],
                      revision := s2.revision, applied := s2.applied)
    requires if (outcome.Confirmed? || outcome.Unconfirmed?) && artifact.Some? then
               sk == s2.(artifacts := s2.artifacts[artifact.value.id := artifact.value], revision := sk.revision,
                         applied := sk.applied)
             else sk == s2
    requires if outcome.Confirmed? || outcome.Failure? then
               var verdict := if outcome.Confirmed? then EffectStatus.Verified else EffectStatus.Failed;
               t == sk.(operations := sk.operations[o.id := o.(status := if outcome.Confirmed? then OperationStatus.Verified
                                                                      else OperationStatus.Failed)],
                        effects := sk.effects[ids.effectId := EffectVerification.EffectVerification(ids.effectId, o.id, verdict)],
                        revision := t.revision, applied := t.applied)
             else t == sk
    ensures OutcomeRecorded(s, t, o, outcome, artifact, ids)
  {
  }

  /** The events of a report. */
  function ReportEvents(outcome: Outcome, artifact: Option<Artifact>, ids: ReportIds): seq<EventId> {
    [ids.outcome, ids.receipt]
    + (if (outcome.Confirmed? || outcome.Unconfirmed?) && artifact.Some? then [ids.artifact] else [])
    + (if outcome.Confirmed? || outcome.Failure? then [ids.effect] else [])
  }

  lemma ReportShape(
    env: Env, hekate: PrincipalId, o: Operation, outcome: Outcome, artifact: Option<Artifact>, ids: ReportIds)
    ensures var batch := ReportBatch(env, hekate, o, outcome, artifact, ids);
            && Ids(batch) == ReportEvents(outcome, artifact, ids) && batch != [] && AllIntact(env, batch)
            && forall e | e in batch :: Unguarded(e.body)
  {
  }

  /** The records an outcome calls for. */
  ghost predicate OutcomeRecorded(
    s: State, t: State, o: Operation, outcome: Outcome, artifact: Option<Artifact>, ids: ReportIds)
  {
    match outcome
    case Confirmed =>
      Recorded(s, t, o, OperationStatus.Verified, Receipt.Receipt(ids.receiptId, o.id, OperationStatus.Succeeded),
               Some(EffectVerification.EffectVerification(ids.effectId, o.id, EffectStatus.Verified)), artifact)
    case Unconfirmed =>
      Recorded(s, t, o, OperationStatus.Unknown, Receipt.Receipt(ids.receiptId, o.id, OperationStatus.Unknown), None, artifact)
    case OutcomeUnknown =>
      Recorded(s, t, o, OperationStatus.Unknown, Receipt.Receipt(ids.receiptId, o.id, OperationStatus.Unknown), None, None)
    case Failure =>
      Recorded(s, t, o, OperationStatus.Failed, Receipt.Receipt(ids.receiptId, o.id, OperationStatus.Failed),
               Some(EffectVerification.EffectVerification(ids.effectId, o.id, EffectStatus.Failed)), None)
  }

  // ---------------------------------------------------------------- the run

  const NO_RECORDS: Records := Records(map[], map[], map[])

  ghost predicate WorldSafe(p: Party, w: World) {
    && Consistent(p.env, w.store)
    && SafeOperations(p.policy, RecordsOf(w.store.state), NoCall, w.ran)
    && CallsOk(p.policy, RecordsOf(w.store.state), w.calls, w.ran)
    && MovesAllowed(NO_RECORDS, w.store.ledger)
  }

  lemma WorldCall(p: Party, w: World, c: nat)
    requires WorldSafe(p, w)
    ensures SafeOperations(p.policy, RecordsOf(w.store.state), CallOf(w, c), w.ran)
  {
    hide Consistent, MovesAllowed;
  }

  /** What a batch that lands makes of the records. */
  lemma LandedRecords(p: Party, w: World, events: seq<Event>, expected: Option<nat>)
    requires Consistent(p.env, w.store) && MovesAllowed(NO_RECORDS, w.store.ledger)
    requires MovesAllowed(RecordsOf(w.store.state), events)
    requires RecordBatch(p.env, w.store, events, expected).Ok?
    ensures var store := RecordBatch(p.env, w.store, events, expected).value;
            && Consistent(p.env, store) && MovesAllowed(NO_RECORDS, store.ledger)
            && RecordsOf(store.state) == FoldRecords(RecordsOf(w.store.state), events)
  {
    hide Step, MovesAllowed, FoldRecords, RecordBatch;
    RecordBatchLands(p.env, w.store, events, expected);
    FoldIsState(p.env, w.store.state, events);
    FoldIsState(p.env, EMPTY_STATE, w.store.ledger);
    MovesConcat(NO_RECORDS, w.store.ledger, events);
  }

  /** A batch outside the calls that leaves safe records and what the calls rely on. */
  lemma AppendSafe(p: Party, w: World, events: seq<Event>, expected: Option<nat>)
    requires WorldSafe(p, w)
    requires MovesAllowed(RecordsOf(w.store.state), events)
    requires SafeOperations(p.policy, FoldRecords(RecordsOf(w.store.state), events), NoCall, w.ran)
    requires CallsOk(p.policy, FoldRecords(RecordsOf(w.store.state), events), w.calls, w.ran)
    ensures WorldSafe(p, Append(p, w, events, expected))
  {
    hide Consistent, SafeOperations, CallsOk, MovesAllowed, FoldRecords, RecordBatch;
    if RecordBatch(p.env, w.store, events, expected).Ok? { LandedRecords(p, w, events, expected); }
  }

  /** A batch of a call that leaves safe records and moves only that call. */
  lemma CommitSafe(p: Party, w: World, c: nat, events: seq<Event>, call: Call)
    requires WorldSafe(p, w)
    requires MovesAllowed(RecordsOf(w.store.state), events)
    requires SafeOperations(p.policy, FoldRecords(RecordsOf(w.store.state), events), NoCall, w.ran)
    requires CallsOk(p.policy, FoldRecords(RecordsOf(w.store.state), events), w.calls[c := call], w.ran)
    ensures WorldSafe(p, Commit(p, w, c, events, call))
  {
    hide Consistent, SafeOperations, CallsOk, MovesAllowed, FoldRecords, RecordBatch;
    if RecordBatch(p.env, w.store, events, None).Ok? {
      LandedRecords(p, w, events, None);
    } else {
      EndedCall(p.policy, RecordsOf(w.store.state), w.calls, w.ran, c);
    }
  }

  lemma EndedCall(policy: Intent -> Policy, r: Records, calls: map<nat, Call>, ran: seq<OperationId>, c: nat)
    requires CallsOk(policy, r, calls, ran)
    ensures CallsOk(policy, r, calls[c := NoCall], ran)
  {
    forall d | d in calls ensures Keeps(calls[d], r, r, ran, ran) {}
    OthersKept(policy, r, r, calls, ran, ran, c, NoCall);
  }

  lemma PlanNext(p: Party, w: World, a: Action)
    requires WorldSafe(p, w) && a.Plan?
    ensures WorldSafe(p, Next(p, w, a))
  {
    hide Consistent, MovesAllowed, FoldRecords, PlanBatch, Append, RecordsOk, RunsOk;
    if FreshPlan(p, w.store.state, a.intent, a.operation, a.approval) {
      var r := RecordsOf(w.store.state);
      var batch := PlanBatch(p.env, p.hekate, p.policy, a.intent, a.operation, a.approval, a.planEvents);
      PlanSafe(p.policy, r, w.ran, a.intent, a.operation, a.approval);
      PlanFold(p, r, a.intent, a.operation, a.approval, a.planEvents);
      AllKept(p.policy, r, FoldRecords(r, batch), w.calls, w.ran);
      AppendSafe(p, w, batch, Some(w.store.state.revision));
    }
  }

  lemma SafeKeys(policy: Intent -> Policy, s: State, call: Call, ran: seq<OperationId>)
    requires SafeOperations(policy, RecordsOf(s), call, ran)
    ensures forall k | k in s.approvals :: s.approvals[k].id == k
    ensures forall k | k in s.operations :: s.operations[k].id == k
  {
    var r := RecordsOf(s);
    forall k | k in s.operations ensures s.operations[k].id == k { assert ApprovalLinked(policy, r, k); }
  }

  /** No call is on an operation whose approval is pending. */
  lemma PendingUncalled(policy: Intent -> Policy, r: Records, call: Call, ran: seq<OperationId>, id: ApprovalId)
    requires SafeOperations(policy, r, call, ran) && !call.NoCall?
    requires id in r.approvals && r.approvals[id].status.Pending?
    ensures r.approvals[id].operation != call.operation.id
  {
  }

  lemma ResolveNext(p: Party, w: World, a: Action)
    requires WorldSafe(p, w) && a.Resolve?
    ensures WorldSafe(p, Next(p, w, a))
  {
    hide Consistent, MovesAllowed, FoldRecords, Append, RecordsOk, RunsOk;
    var s := w.store.state;
    var r := RecordsOf(s);
    var batch := ResolveBatch(p.env, p.user, s, a.resolved, a.approved, a.resolveEvents);
    if batch.Some? {
      ResolveSafe(p.policy, r, w.ran, a.resolved, a.approved, p.user);
      SafeKeys(p.policy, s, NoCall, w.ran);
      ResolveFold(p, s, a.resolved, a.approved, a.resolveEvents);
      forall d | d in w.calls ensures Keeps(w.calls[d], r, FoldRecords(r, batch.value), w.ran, w.ran) {
        WorldCall(p, w, d);
        if !w.calls[d].NoCall? { PendingUncalled(p.policy, r, w.calls[d], w.ran, a.resolved); }
      }
      AllKept(p.policy, r, FoldRecords(r, batch.value), w.calls, w.ran);
      AppendSafe(p, w, batch.value, Some(s.revision));
    }
  }

  /** A call moves its own operation; no other call is on it. */
  lemma MovedCall(p: Party, w: World, c: nat, to: OperationStatus, next: Call)
    requires WorldSafe(p, w) && !CallOf(w, c).NoCall?
    requires next.NoCall? || next.operation.id == CallOf(w, c).operation.id
    requires var r, o := RecordsOf(w.store.state), CallOf(w, c).operation;
             CallOk(p.policy, r.(operations := r.operations[o.id := o.(status := to)]), next, w.ran)
    ensures var r, o := RecordsOf(w.store.state), CallOf(w, c).operation;
            CallsOk(p.policy, r.(operations := r.operations[o.id := o.(status := to)]), w.calls[c := next], w.ran)
  {
    hide Consistent, MovesAllowed, SafeOperations, CallOk;
    var r, o := RecordsOf(w.store.state), CallOf(w, c).operation;
    var t := r.(operations := r.operations[o.id := o.(status := to)]);
    forall d | d in w.calls && d != c ensures Keeps(w.calls[d], r, t, w.ran, w.ran) {}
    OthersKept(p.policy, r, t, w.calls, w.ran, w.ran, c, next);
  }

  lemma AdvanceNext(p: Party, w: World, c: nat, id: EventId, kind: OperationEventKind, to: OperationStatus, next: Call)
    requires WorldSafe(p, w) && (CallOf(w, c).Cleared? || CallOf(w, c).Authorized?)
    requires OperationTransitionAllowed(CallOf(w, c).operation.status, to)
    requires next == if CallOf(w, c).Cleared? then Call.Authorized(CallOf(w, c).operation.(status := to))
                     else Launching(CallOf(w, c).operation.(status := to))
    requires if CallOf(w, c).Cleared? then to.Authorized? else to.Started?
    ensures WorldSafe(p, Commit(p, w, c, [RecordOperation(p.env, p.hekate, id, kind, CallOf(w, c).operation.(status := to))],
                                next))
  {
    hide Consistent, MovesAllowed, FoldRecords, Commit;
    WorldCall(p, w, c);
    var call, r, o := CallOf(w, c), RecordsOf(w.store.state), CallOf(w, c).operation;
    assert o.id !in w.ran;
    MoveSafe(p.policy, r, call, w.ran, to, next);
    RecordFold(p.env, r, p.hekate, id, kind, o.(status := to));
    MovedCall(p, w, c, to, next);
    CommitSafe(p, w, c, [RecordOperation(p.env, p.hekate, id, kind, o.(status := to))], next);
  }

  lemma ReportNext(p: Party, w: World, a: Action)
    requires WorldSafe(p, w) && a.Report?
    ensures WorldSafe(p, Next(p, w, a))
  {
    hide Consistent, MovesAllowed, FoldRecords, Commit, ReportBatch;
    var call := CallOf(w, a.c);
    if call.Reporting? {
      WorldCall(p, w, a.c);
      var r, o := RecordsOf(w.store.state), call.operation;
      MoveSafe(p.policy, r, call, w.ran, SettledStatus(call.outcome), NoCall);
      ReportFold(p, r, o, call.outcome, a.artifact, a.ids);
      MovedCall(p, w, a.c, SettledStatus(call.outcome), NoCall);
      CommitSafe(p, w, a.c, ReportBatch(p.env, p.hekate, o, call.outcome, a.artifact, a.ids), NoCall);
    }
  }

  lemma ForeignNext(p: Party, w: World, events: seq<Event>, expected: Option<nat>)
    requires WorldSafe(p, w)
    ensures WorldSafe(p, Next(p, w, Foreign(events, expected)))
  {
    hide MovesAllowed, FoldRecords, SafeOperations, CallsOk, Consistent, Append;
    if forall e | e in events :: !TouchesOperations(e) {
      QuietFold(RecordsOf(w.store.state), events);
      AppendSafe(p, w, events, expected);
    }
  }

  /** A call clears: no other call is on the operation, since one that already ran
      it has recorded it as started. */
  lemma ExecuteNext(p: Party, w: World, a: Action)
    requires WorldSafe(p, w) && a.Execute? && !Overlaps(p, w, a)
    ensures WorldSafe(p, Next(p, w, a))
  {
    hide Consistent, MovesAllowed, RecordsOk, RunsOk, CheckExecute;
    var s, r := w.store.state, RecordsOf(w.store.state);
    if CallOf(w, a.c).NoCall? && CheckExecute(p.policy, s, a.executed).Ok? {
      ExecuteSafe(p, s, w.ran, a.executed);
      CheckedStatus(p.policy, s, a.executed);
      SafeKeys(p.policy, s, NoCall, w.ran);
      var o := CheckExecute(p.policy, s, a.executed).value;
      forall d | d in w.calls && d != a.c && !w.calls[d].NoCall? ensures w.calls[d].operation.id != o.id {
        assert CallOk(p.policy, r, w.calls[d], w.ran);
        assert !(BeforeRun(w.calls[d]) && w.calls[d].operation.id == a.executed);
      }
      forall d | d in w.calls ensures Keeps(w.calls[d], r, r, w.ran, w.ran) {}
      OthersKept(p.policy, r, r, w.calls, w.ran, w.ran, a.c, if o.status.Planned? then Cleared(o) else Call.Authorized(o));
    }
  }

  /** An operation passes the checks exactly when it has not been started, its policy
      allows its intent, and it is approved if the policy asks for that. One that ended
      is told apart from one whose outcome is in doubt. */
  lemma CheckedStatus(policy: Intent -> Policy, s: State, id: OperationId)
    ensures var r := CheckExecute(policy, s, id);
            && (r.Ok? <==> id in s.operations && MayStart(policy, s, s.operations[id]))
            && (r.Ok? ==> r.value == s.operations[id])
            && (r == Err(OperationNotFound) <==> id !in s.operations)
            && (r == Err(NeedsReconciliation) <==>
                  id in s.operations && (s.operations[id].status.Started? || s.operations[id].status.Unknown?))
            && (r == Err(AlreadyFinished) <==>
                  id in s.operations && !NotStarted(s.operations[id])
                  && !s.operations[id].status.Started? && !s.operations[id].status.Unknown?)
  {
  }

  ghost predicate MayStart(policy: Intent -> Policy, s: State, o: Operation) {
    && NotStarted(o)
    && o.intent in s.intents
    && var p := policy(s.intents[o.intent]);
    && p.allowed
    && (p.requiresApproval ==>
          && o.approval.Some? && o.approval.value in s.approvals
          && s.approvals[o.approval.value].status.Approved?)
  }

  lemma RunNext(p: Party, w: World, a: Action)
    requires WorldSafe(p, w) && a.Run?
    ensures WorldSafe(p, Next(p, w, a))
  {
    hide Consistent, MovesAllowed;
    var call := CallOf(w, a.c);
    if call.Launching? {
      var r, rans := RecordsOf(w.store.state), w.ran + [call.operation.id];
      WorldCall(p, w, a.c);
      RunSafe(p.policy, r, call, w.ran, a.outcome);
      hide SafeOperations, RecordsOk, RunsOk, CallOk;
      forall d | d in w.calls && d != a.c ensures Keeps(w.calls[d], r, r, w.ran, rans) {}
      OthersKept(p.policy, r, r, w.calls, w.ran, rans, a.c, Reporting(call.operation, a.outcome));
    }
  }

  lemma NextSafe(p: Party, w: World, a: Action)
    requires WorldSafe(p, w) && !Overlaps(p, w, a)
    ensures WorldSafe(p, Next(p, w, a))
  {
    match a
    case Plan(_, _, _, _) => PlanNext(p, w, a);
    case Resolve(_, _, _) => ResolveNext(p, w, a);
    case Execute(_, _) => ExecuteNext(p, w, a);
    case Authorize(c, event) => AuthorizeNext(p, w, c, event);
    case Start(c, event) => StartNext(p, w, c, event);
    case Run(_, _) => RunNext(p, w, a);
    case Report(_, _, _) => ReportNext(p, w, a);
    case Crash(c) => CrashNext(p, w, c);
    case Foreign(events, expected) => ForeignNext(p, w, events, expected);
  }

  lemma AuthorizeNext(p: Party, w: World, c: nat, event: EventId)
    requires WorldSafe(p, w)
    ensures WorldSafe(p, Next(p, w, Authorize(c, event)))
  {
    hide Consistent, MovesAllowed, Commit;
    if CallOf(w, c).Cleared? {
      WorldCall(p, w, c);
      AdvanceNext(p, w, c, event, OperationEventKind.Authorized, OperationStatus.Authorized,
                  Call.Authorized(CallOf(w, c).operation.(status := OperationStatus.Authorized)));
    }
  }

  lemma StartNext(p: Party, w: World, c: nat, event: EventId)
    requires WorldSafe(p, w)
    ensures WorldSafe(p, Next(p, w, Start(c, event)))
  {
    hide Consistent, MovesAllowed, Commit;
    if CallOf(w, c).Authorized? {
      WorldCall(p, w, c);
      AdvanceNext(p, w, c, event, OperationEventKind.Started, OperationStatus.Started,
                  Launching(CallOf(w, c).operation.(status := OperationStatus.Started)));
    }
  }

  lemma CrashNext(p: Party, w: World, c: nat)
    requires WorldSafe(p, w)
    ensures WorldSafe(p, Next(p, w, Crash(c)))
  {
    hide Consistent, MovesAllowed, SafeOperations, CallsOk;
    EndedCall(p.policy, RecordsOf(w.store.state), w.calls, w.ran, c);
  }

  lemma SerializedPrefix(p: Party, actions: seq<Action>, k: nat)
    requires Serialized(p, actions) && k <= |actions|
    ensures Serialized(p, actions[..k])
  {
    hide Overlaps, Exec;
    var front := actions[..k];
    forall i | 0 <= i < |front| ensures !Overlaps(p, Exec(p, EMPTY_WORLD, front[..i]), front[i]) {
      assert front[..i] == actions[..i] && front[i] == actions[i];
    }
  }

  lemma {:induction false} ExecSafe(p: Party, actions: seq<Action>)
    requires Serialized(p, actions)
    ensures WorldSafe(p, Exec(p, EMPTY_WORLD, actions))
  {
    hide Next, SafeOperations, Overlaps;
    if actions == [] {
      EmptySafe(p);
    } else {
      var n := |actions| - 1;
      SerializedPrefix(p, actions, n);
      ExecSafe(p, actions[..n]);
      NextSafe(p, Exec(p, EMPTY_WORLD, actions[..n]), actions[n]);
    }
  }

  lemma EmptySafe(p: Party)
    ensures WorldSafe(p, EMPTY_WORLD)
  {
    NoMoves(NO_RECORDS);
    hide MovesAllowed;
  }

  // ---------------------------------------------------------------- main results

  /** The operation has passed whatever its policy asks for. */
  ghost predicate Allowed(p: Party, s: State, id: OperationId) {
    && id in s.operations
    && var o := s.operations[id];
    && o.intent in s.intents
    && p.policy(s.intents[o.intent]).allowed
    && (p.policy(s.intents[o.intent]).requiresApproval ==>
          && o.approval.Some? && o.approval.value in s.approvals
          && s.approvals[o.approval.value].status.Approved?)
  }

  /** Whatever was planned, resolved and executed, and wherever calls crashed, as long
      as no call passes the checks of an operation another one is about to run: no
      capability runs twice, nothing that was denied or still awaits approval has run,
      and every event of the ledger moved each status by at most one allowed
      transition. */
  lemma RunsAtMostOnce(p: Party, actions: seq<Action>)
    requires Serialized(p, actions)
    ensures var w := Exec(p, EMPTY_WORLD, actions);
            && Distinct(w.ran)
            && MovesAllowed(NO_RECORDS, w.store.ledger)
            && forall id | id in w.ran :: Allowed(p, w.store.state, id)
  {
    hide Next, Consistent, MovesAllowed, Serialized;
    ExecSafe(p, actions);
    var w := Exec(p, EMPTY_WORLD, actions);
    var r := RecordsOf(w.store.state);
    forall id | id in w.ran ensures Allowed(p, w.store.state, id) {
      assert id in r.operations && ApprovalLinked(p.policy, r, id);
    }
  }

  predicate ByCall(a: Action, c: nat) {
    (a.Execute? || a.Authorize? || a.Start? || a.Run? || a.Report? || a.Crash?) ==> a.c == c
  }

  /** One engine that makes its calls one after another is serialized. */
  lemma OneCallSerialized(p: Party, actions: seq<Action>, c: nat)
    requires forall a | a in actions :: ByCall(a, c)
    ensures Serialized(p, actions)
  {
    hide Next, CheckExecute;
    forall k | 0 <= k < |actions| ensures !Overlaps(p, Exec(p, EMPTY_WORLD, actions[..k]), actions[k]) {
      OnlyCall(p, actions[..k], c);
      assert ByCall(actions[k], c);
    }
  }

  lemma {:induction false} OnlyCall(p: Party, actions: seq<Action>, c: nat)
    requires forall a | a in actions :: ByCall(a, c)
    ensures Exec(p, EMPTY_WORLD, actions).calls.Keys <= {c}
  {
    hide CheckExecute, RecordBatch, PlanBatch, ResolveBatch, ReportBatch;
    if actions != [] {
      OnlyCall(p, actions[..|actions| - 1], c);
      assert ByCall(actions[|actions| - 1], c);
    }
  }

  /** A capability runs only in the step that runs it, for an operation that never
      ran, is recorded as started, and was approved if its policy asks for that. */
  lemma RunIsCleared(p: Party, actions: seq<Action>, a: Action)
    requires Serialized(p, actions)
    requires var w := Exec(p, EMPTY_WORLD, actions); Next(p, w, a).ran != w.ran
    ensures var w := Exec(p, EMPTY_WORLD, actions);
            && a.Run? && CallOf(w, a.c).Launching?
            && var o := CallOf(w, a.c).operation;
            && Next(p, w, a).ran == w.ran + [o.id] && o.id !in w.ran
            && w.store.state.operations[o.id := o] == w.store.state.operations && o.status.Started?
            && Allowed(p, w.store.state, o.id)
  {
    hide Consistent, MovesAllowed, RecordBatch, Serialized;
    ExecSafe(p, actions);
    var w := Exec(p, EMPTY_WORLD, actions);
    WorldCall(p, w, a.c);
    assert ApprovalLinked(p.policy, RecordsOf(w.store.state), CallOf(w, a.c).operation.id);
  }
}
