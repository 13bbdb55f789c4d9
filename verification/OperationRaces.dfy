/** What happens when calls that execute operations race: exactly which schedules are
    safe, and a capability that runs twice. */
module OperationRaces {
  import opened Prelude
  import opened Model
  import opened Transition
  import opened Projector
  import opened Ledger
  import opened Operations

  ghost predicate NoNewCalls(actions: seq<Action>) {
    forall a | a in actions :: !a.Execute?
  }

  function FreshEvent(applied: seq<EventId>): (r: EventId)
    ensures r !in applied
    ensures forall id | id in applied :: id < r
  {
    if applied == [] then 0
    else
      assert applied == [applied[0]] + applied[1..];
      var n := FreshEvent(applied[1..]);
      if n <= applied[0] then applied[0] + 1 else n
  }

  // ---------------------------------------------------------------- records that are not guarded

  /** A batch without guards is applied exactly when its events are new and distinct. */
  lemma {:induction false} UnguardedApply(env: Env, s: State, events: seq<Event>)
    requires (forall e | e in events :: Unguarded(e.body)) && Distinct(s.applied)
    ensures ApplyAll(env, s, events).Some? <==> Distinct(s.applied + Ids(events))
    ensures ApplyAll(env, s, events).Some? ==> ApplyAll(env, s, events).value.applied == s.applied + Ids(events)
  {
    hide Step;
    if events == [] {
      assert s.applied + Ids(events) == s.applied;
    } else {
      var front, e := events[..|events| - 1], events[|events| - 1];
      UnguardedApply(env, s, front);
      var all := s.applied + Ids(front);
      assert s.applied + Ids(events) == all + [e.id];
      assert e in events;
      LastDistinct(all, e.id);
      if Distinct(all) { UnguardedAccepted(env, ApplyAll(env, s, front).value, e); }
    }
  }

  lemma LastDistinct(ids: seq<EventId>, id: EventId)
    ensures Distinct(ids + [id]) <==> Distinct(ids) && id !in ids
  {
    var all := ids + [id];
    if Distinct(all) {
      forall i, j | 0 <= i < j < |ids| ensures ids[i] != ids[j] { assert all[i] == ids[i] && all[j] == ids[j]; }
      forall i | 0 <= i < |ids| ensures ids[i] != id { assert all[i] == ids[i] && all[|ids|] == id; }
    }
  }

  /** Such a batch lands whatever was recorded before, exactly when its events are new
      and distinct, and its records are the fold of it. */
  lemma UnguardedLands(env: Env, st: Store, events: seq<Event>, expected: Option<nat>)
    requires Consistent(env, st) && events != [] && AllIntact(env, events)
    requires forall e | e in events :: Unguarded(e.body)
    requires expected.Some? ==> expected.value == st.state.revision
    ensures RecordBatch(env, st, events, expected).Ok? <==> Distinct(st.state.applied + Ids(events))
    ensures RecordBatch(env, st, events, expected).Ok? ==>
              var next := RecordBatch(env, st, events, expected).value;
              && Consistent(env, next) && next.ledger == st.ledger + events
              && next.state.applied == st.state.applied + Ids(events)
              && RecordsOf(next.state) == FoldRecords(RecordsOf(st.state), events)
  {
    hide Step, RecordBatch;
    ReplayCounts(env, st.ledger);
    UnguardedApply(env, st.state, events);
    RecordBatchLands(env, st, events, expected);
    if ApplyAll(env, st.state, events).Some? { FoldIsState(env, st.state, events); }
  }

  /** The record of an operation's status lands whatever was recorded before. */
  lemma RecordLands(p: Party, w: World, c: nat, id: EventId, kind: OperationEventKind, o: Operation, call: Call)
    requires Consistent(p.env, w.store) && id !in w.store.state.applied
    ensures var e := RecordOperation(p.env, p.hekate, id, kind, o);
            var t := Commit(p, w, c, [e], call);
            && Consistent(p.env, t.store) && t.calls == w.calls[c := call] && t.ran == w.ran
            && t.store.ledger == w.store.ledger + [e]
            && t.store.state.applied == w.store.state.applied + [id]
            && RecordsOf(t.store.state)
               == RecordsOf(w.store.state).(operations := w.store.state.operations[o.id := o])
  {
    hide Consistent, RecordBatch, FoldRecords;
    var e := RecordOperation(p.env, p.hekate, id, kind, o);
    assert Ids([e]) == [id];
    StoreDistinct(p.env, w.store);
    FreshDistinct(w.store.state.applied, [id]);
    UnguardedLands(p.env, w.store, [e], None);
    FoldNone(RecordsOf(w.store.state));
    FoldOne(RecordsOf(w.store.state), [], e);
    assert [] + [e] == [e];
  }

  lemma StoreDistinct(env: Env, st: Store)
    requires Consistent(env, st)
    ensures Distinct(st.state.applied)
  {
    ReplayCounts(env, st.ledger);
  }

  lemma FreshDistinct(applied: seq<EventId>, more: seq<EventId>)
    requires Distinct(applied) && Distinct(more) && forall id | id in more :: id !in applied
    ensures Distinct(applied + more)
  {
    var all := applied + more;
    forall i, j | 0 <= i < j < |all| ensures all[i] != all[j] {
      if j >= |applied| { assert all[j] == more[j - |applied|] && all[j] in more; }
    }
  }

  /** One step of a call, up to its run. */
  lemma AdvanceStep(p: Party, w: World, c: nat, id: EventId)
    requires Consistent(p.env, w.store) && id !in w.store.state.applied
    requires CallOf(w, c).Cleared? || CallOf(w, c).Authorized?
    ensures var call := CallOf(w, c);
            var to := if call.Cleared? then OperationStatus.Authorized else OperationStatus.Started;
            var o := call.operation.(status := to);
            var t := Next(p, w, if call.Cleared? then Authorize(c, id) else Start(c, id));
            && Consistent(p.env, t.store) && t.ran == w.ran
            && t.calls == w.calls[c := if call.Cleared? then Call.Authorized(o) else Launching(o)]
            && |t.store.ledger| == |w.store.ledger| + 1 && w.store.ledger <= t.store.ledger
            && t.store.state.applied == w.store.state.applied + [id]
            && t.store.state.operations == w.store.state.operations[o.id := o]
  {
    hide Consistent, Commit, RecordOperation;
    var call := CallOf(w, c);
    var o := call.operation.(status := if call.Cleared? then OperationStatus.Authorized else OperationStatus.Started);
    if call.Cleared? {
      RecordLands(p, w, c, id, OperationEventKind.Authorized, o, Call.Authorized(o));
    } else {
      RecordLands(p, w, c, id, OperationEventKind.Started, o, Launching(o));
    }
  }

  lemma RunStep(p: Party, w: World, c: nat)
    requires CallOf(w, c).Launching?
    ensures var o := CallOf(w, c).operation;
            Next(p, w, Action.Run(c, Confirmed)) == World(w.store, w.calls[c := Reporting(o, Confirmed)], w.ran + [o.id])
  {
  }

  // ---------------------------------------------------------------- two calls at once

  /** A call that passed the checks gets to run its capability, whatever has happened
      to the operation since. */
  lemma {:induction false} Drive(p: Party, w: World, c: nat) returns (rest: seq<Action>)
    requires Consistent(p.env, w.store) && BeforeRun(CallOf(w, c))
    ensures NoNewCalls(rest)
    ensures var t := Exec(p, w, rest);
            && Consistent(p.env, t.store)
            && t.ran == w.ran + [CallOf(w, c).operation.id]
            && forall d | d != c :: CallOf(t, d) == CallOf(w, d)
    decreases if CallOf(w, c).Cleared? then 2 else if CallOf(w, c).Authorized? then 1 else 0
  {
    hide Consistent, Next, Exec;
    var call := CallOf(w, c);
    if call.Launching? {
      RunStep(p, w, c);
      rest := [Action.Run(c, Confirmed)];
      ExecOne(p, w, rest[0]);
    } else {
      var id := FreshEvent(w.store.state.applied);
      var a := if call.Cleared? then Authorize(c, id) else Start(c, id);
      AdvanceStep(p, w, c, id);
      var more := Drive(p, Next(p, w, a), c);
      rest := [a] + more;
      ExecConcat(p, w, [a], more);
      ExecOne(p, w, a);
    }
  }

  /** If a call passes the checks while another one is about to run the operation, both
      can run it. */
  lemma OverlapRunsTwice(p: Party, w: World, a: Action) returns (rest: seq<Action>)
    requires WorldSafe(p, w) && Overlaps(p, w, a)
    ensures NoNewCalls(rest) && !Distinct(Exec(p, Next(p, w, a), rest).ran)
  {
    hide Consistent, MovesAllowed, RecordsOk, RunsOk, Exec, CheckExecute;
    var d :| d in w.calls && BeforeRun(w.calls[d]) && w.calls[d].operation.id == a.executed;
    CheckedStatus(p.policy, w.store.state, a.executed);
    SafeKeys(p.policy, w.store.state, NoCall, w.ran);
    var t := Next(p, w, a);
    var first := Drive(p, t, a.c);
    var second := Drive(p, Exec(p, t, first), d);
    rest := first + second;
    ExecConcat(p, t, first, second);
    var ran := Exec(p, t, rest).ran;
    assert ran == t.ran + [a.executed] + [a.executed];
    assert ran[|ran| - 2] == ran[|ran| - 1];
  }

  lemma {:induction false} UnserializedRunsTwice(p: Party, actions: seq<Action>) returns (k: nat, rest: seq<Action>)
    requires !Serialized(p, actions)
    ensures k <= |actions| && NoNewCalls(rest)
    ensures !Distinct(Exec(p, Exec(p, EMPTY_WORLD, actions[..k]), rest).ran)
  {
    hide Next, Overlaps, WorldSafe, Distinct;
    var n := |actions| - 1;
    var front := actions[..n];
    if Serialized(p, front) {
      SerializedBut(p, actions);
      ExecSafe(p, front);
      rest := OverlapRunsTwice(p, Exec(p, EMPTY_WORLD, front), actions[n]);
      k := |actions|;
      assert actions[..k] == actions;
    } else {
      k, rest := UnserializedRunsTwice(p, front);
      assert front[..k] == actions[..k];
    }
  }

  lemma SerializedBut(p: Party, actions: seq<Action>)
    requires !Serialized(p, actions)
    ensures actions != []
    ensures var n := |actions| - 1;
            Serialized(p, actions[..n]) ==> Overlaps(p, Exec(p, EMPTY_WORLD, actions[..n]), actions[n])
  {
    hide Overlaps, Exec;
    var k :| 0 <= k < |actions| && Overlaps(p, Exec(p, EMPTY_WORLD, actions[..k]), actions[k]);
    var n := |actions| - 1;
    if k < n {
      assert actions[..n][..k] == actions[..k] && actions[..n][k] == actions[k];
    }
  }

  lemma SerializedAndOn(p: Party, actions: seq<Action>, k: nat, rest: seq<Action>)
    requires Serialized(p, actions) && k <= |actions| && NoNewCalls(rest)
    ensures Serialized(p, actions[..k] + rest)
  {
    hide Exec, CheckExecute, InFlight;
    var all := actions[..k] + rest;
    forall i | 0 <= i < |all| ensures !Overlaps(p, Exec(p, EMPTY_WORLD, all[..i]), all[i]) {
      if i < k {
        assert all[..i] == actions[..i] && all[i] == actions[i];
      } else {
        assert all[i] == rest[i - k] && all[i] in rest;
      }
    }
  }

  /** Calls may race exactly as far as none passes the checks of an operation that
      another one is about to run: then, and only then, nothing the calls in progress
      may still do, at any point of the schedule, makes a capability run twice. (The
      second call may crash before it runs anything, so a schedule that overlaps need
      not itself run one twice.) */
  lemma SerializationExact(p: Party, actions: seq<Action>)
    ensures Serialized(p, actions) <==>
              forall k, rest | 0 <= k <= |actions| && NoNewCalls(rest) ::
                Distinct(Exec(p, Exec(p, EMPTY_WORLD, actions[..k]), rest).ran)
  {
    hide Exec, NoNewCalls, Distinct, Serialized;
    if Serialized(p, actions) {
      forall k, rest | 0 <= k <= |actions| && NoNewCalls(rest)
        ensures Distinct(Exec(p, Exec(p, EMPTY_WORLD, actions[..k]), rest).ran)
      {
        SerializedAndOn(p, actions, k, rest);
        RunsAtMostOnce(p, actions[..k] + rest);
        ExecConcat(p, EMPTY_WORLD, actions[..k], rest);
      }
    } else {
      var k, rest := UnserializedRunsTwice(p, actions);
    }
  }

  // ---------------------------------------------------------------- a capability that runs twice

  const REPORT_IDS: ReportIds := ReportIds(6, 7, 8, 9, 0, 0)

  /** Two calls pass the checks; one does all its work before the other goes on. */
  function TwoCalls(intent: Intent, id: OperationId): seq<Action> {
    [Plan(intent, id, 0, (1, 2, 3)), Execute(0, id), Execute(1, id),
     Authorize(0, 4), Start(0, 5), Action.Run(0, Confirmed), Report(0, None, REPORT_IDS),
     Authorize(1, 10), Start(1, 11), Action.Run(1, Confirmed)]
  }

  /** What is known of a world on the way. */
  ghost predicate On(p: Party, w: World, o: Operation, status: OperationStatus, calls: map<nat, Call>, ran: seq<OperationId>,
                     applied: seq<EventId>)
  {
    && Consistent(p.env, w.store) && w.store.state.applied == applied
    && o.id in w.store.state.operations && w.store.state.operations[o.id] == o.(status := status)
    && w.calls == calls && w.ran == ran
  }

  lemma PlannedWorld(p: Party, intent: Intent, id: OperationId)
    requires p.policy(intent).allowed && !p.policy(intent).requiresApproval
    ensures var o := Operation.Operation(id, intent.id, OperationStatus.Planned, None);
            var w := Next(p, EMPTY_WORLD, Plan(intent, id, 0, (1, 2, 3)));
            && On(p, w, o, OperationStatus.Planned, map[], [], [1, 2])
            && intent.id in w.store.state.intents && w.store.state.intents[intent.id] == intent
  {
    hide RecordBatch, Step, FoldRecords;
    var batch := PlanBatch(p.env, p.hekate, p.policy, intent, id, 0, (1, 2, 3));
    assert Ids(batch) == [1, 2];
    assert EMPTY_STORE.state.applied + Ids(batch) == [1, 2];
    assert Consistent(p.env, EMPTY_STORE);
    UnguardedLands(p.env, EMPTY_STORE, batch, Some(0));
    PlanFold(p, NO_RECORDS, intent, id, 0, (1, 2, 3));
  }

  lemma BothClear(p: Party, w: World, intent: Intent, id: OperationId)
    requires var o := Operation.Operation(id, intent.id, OperationStatus.Planned, None);
             On(p, w, o, OperationStatus.Planned, map[], [], [1, 2])
    requires intent.id in w.store.state.intents && w.store.state.intents[intent.id] == intent
    requires p.policy(intent).allowed && !p.policy(intent).requiresApproval
    ensures var o := Operation.Operation(id, intent.id, OperationStatus.Planned, None);
            On(p, Next(p, Next(p, w, Execute(0, id)), Execute(1, id)), o, OperationStatus.Planned,
               map[0 := Cleared(o), 1 := Cleared(o)], [], [1, 2])
  {
    hide Consistent;
  }

  /** Authorizing, starting and running, in one call. */
  lemma LaunchSteps(p: Party, w: World, c: nat, first: EventId, second: EventId)
    requires Consistent(p.env, w.store) && CallOf(w, c).Cleared?
    requires first !in w.store.state.applied && second !in w.store.state.applied && first != second
    ensures var o := CallOf(w, c).operation;
            var started := o.(status := OperationStatus.Started);
            var w1 := Next(p, w, Authorize(c, first));
            var t := Next(p, Next(p, w1, Start(c, second)), Action.Run(c, Confirmed));
            && Consistent(p.env, w1.store) && Consistent(p.env, t.store)
            && |w1.store.ledger| == |w.store.ledger| + 1 && w.store.ledger <= w1.store.ledger <= t.store.ledger
            && w1.store.state.operations == w.store.state.operations[o.id := o.(status := OperationStatus.Authorized)]
            && t.store.state.operations == w.store.state.operations[o.id := started]
            && t.store.state.applied == w.store.state.applied + [first] + [second]
            && t.calls == w.calls[c := Reporting(started, Confirmed)]
            && t.ran == w.ran + [o.id]
  {
    hide Consistent, Next;
    AdvanceStep(p, w, c, first);
    var w1 := Next(p, w, Authorize(c, first));
    AdvanceStep(p, w1, c, second);
    RunStep(p, Next(p, w1, Start(c, second)), c);
  }

  /** The first call does everything, and its effect is verified. */
  lemma FirstCall(p: Party, w: World, o: Operation)
    requires o.status.Planned?
    requires On(p, w, o, OperationStatus.Planned, map[0 := Cleared(o), 1 := Cleared(o)], [], [1, 2])
    ensures On(p, Exec(p, w, [Authorize(0, 4), Start(0, 5), Action.Run(0, Confirmed), Report(0, None, REPORT_IDS)]), o,
               OperationStatus.Verified, map[0 := NoCall, 1 := Cleared(o)], [o.id], [1, 2, 4, 5, 6, 7, 9])
  {
    hide Consistent, Next, Exec;
    var calls := w.calls;
    LaunchSteps(p, w, 0, 4, 5);
    assert calls[0 := Reporting(o.(status := OperationStatus.Started), Confirmed)][0 := NoCall]
        == map[0 := NoCall, 1 := Cleared(o)];
    var t := Next(p, Next(p, Next(p, w, Authorize(0, 4)), Start(0, 5)), Action.Run(0, Confirmed));
    assert [1, 2] + [4] + [5] == [1, 2, 4, 5];
    ReportLands(p, t, o.(status := OperationStatus.Started));
    ExecFour(p, w, Authorize(0, 4), Start(0, 5), Action.Run(0, Confirmed), Report(0, None, REPORT_IDS));
  }

  lemma ReportLands(p: Party, w: World, started: Operation)
    requires Consistent(p.env, w.store) && w.store.state.applied == [1, 2, 4, 5]
    requires started.id in w.store.state.operations && w.store.state.operations[started.id] == started
    requires started.status.Started?
    requires CallOf(w, 0) == Reporting(started, Confirmed)
    ensures var t := Next(p, w, Report(0, None, REPORT_IDS));
            && Consistent(p.env, t.store) && t.store.state.applied == [1, 2, 4, 5, 6, 7, 9]
            && t.store.state.operations
               == w.store.state.operations[started.id := started.(status := OperationStatus.Verified)]
            && t.calls == w.calls[0 := NoCall] && t.ran == w.ran
  {
    hide Consistent, RecordBatch, FoldRecords, MovesAllowed;
    var batch := ReportBatch(p.env, p.hekate, started, Confirmed, None, REPORT_IDS);
    assert Ids(batch) == [6, 7, 9];
    assert w.store.state.applied + Ids(batch) == [1, 2, 4, 5, 6, 7, 9];
    UnguardedLands(p.env, w.store, batch, None);
    ReportFold(p, RecordsOf(w.store.state), started, Confirmed, None, REPORT_IDS);
  }

  lemma ExecFour(p: Party, w: World, a: Action, b: Action, c: Action, d: Action)
    ensures Exec(p, w, [a, b, c, d]) == Next(p, Next(p, Next(p, Next(p, w, a), b), c), d)
  {
    hide Next, Exec;
    ExecThree(p, w, a, b, c);
    ExecOne(p, Next(p, Next(p, Next(p, w, a), b), c), d);
    ExecConcat(p, w, [a, b, c], [d]);
    assert [a, b, c] + [d] == [a, b, c, d];
  }

  /** The second call takes the verified operation back to authorized and runs it again. */
  lemma SecondCall(p: Party, w: World, o: Operation)
    requires On(p, w, o, OperationStatus.Verified, map[0 := NoCall, 1 := Cleared(o)], [o.id], [1, 2, 4, 5, 6, 7, 9])
    ensures var t := Next(p, Next(p, Next(p, w, Authorize(1, 10)), Start(1, 11)), Action.Run(1, Confirmed));
            && t.ran == [o.id, o.id]
            && !MovesAllowed(NO_RECORDS, t.store.ledger)
  {
    hide Consistent, Next, MovesAllowed;
    LaunchSteps(p, w, 1, 10, 11);
    var w1 := Next(p, w, Authorize(1, 10));
    MovedBack(p.env, w.store, w1.store, Next(p, Next(p, w1, Start(1, 11)), Action.Run(1, Confirmed)).store.ledger, o.id);
  }

  lemma MovedBack(env: Env, st: Store, next: Store, ledger: seq<Event>, id: OperationId)
    requires Consistent(env, st) && Consistent(env, next) && |next.ledger| == |st.ledger| + 1
    requires st.ledger <= ledger && next.ledger <= ledger
    requires id in st.state.operations && st.state.operations[id].status.Verified?
    requires id in next.state.operations && next.state.operations[id].status.Authorized?
    ensures !MovesAllowed(NO_RECORDS, ledger)
  {
    hide Step, FoldRecords;
    FoldIsState(env, EMPTY_STATE, st.ledger);
    FoldIsState(env, EMPTY_STATE, next.ledger);
    var k := |st.ledger|;
    assert ledger[..k] == st.ledger && ledger[..k + 1] == next.ledger;
    assert !StatusesMove(FoldRecords(NO_RECORDS, ledger[..k]), FoldRecords(NO_RECORDS, ledger[..k + 1]));
  }

  /** Whenever a policy lets an action go ahead without an approval, two calls at once
      run its capability twice, and the operation, already verified, is moved back. */
  lemma CapabilityRunsTwice(p: Party, intent: Intent, id: OperationId)
    requires p.policy(intent).allowed && !p.policy(intent).requiresApproval
    ensures var w := Exec(p, EMPTY_WORLD, TwoCalls(intent, id));
            w.ran == [id, id] && !MovesAllowed(NO_RECORDS, w.store.ledger)
  {
    hide Next, MovesAllowed, On, Exec;
    var o := Operation.Operation(id, intent.id, OperationStatus.Planned, None);
    var a, b, c := Plan(intent, id, 0, (1, 2, 3)), Execute(0, id), Execute(1, id);
    var w := Next(p, EMPTY_WORLD, a);
    PlannedWorld(p, intent, id);
    assert On(p, w, o, OperationStatus.Planned, map[], [], [1, 2]);
    BothClear(p, w, intent, id);
    var w3 := Next(p, Next(p, w, b), c);
    FirstCall(p, w3, o);
    var four := [Authorize(0, 4), Start(0, 5), Action.Run(0, Confirmed), Report(0, None, REPORT_IDS)];
    var w7 := Exec(p, w3, four);
    SecondCall(p, w7, o);
    var last := [Authorize(1, 10), Start(1, 11), Action.Run(1, Confirmed)];
    ExecThree(p, EMPTY_WORLD, a, b, c);
    ExecThree(p, w7, last[0], last[1], last[2]);
    ExecConcat(p, EMPTY_WORLD, [a, b, c], four);
    ExecConcat(p, EMPTY_WORLD, [a, b, c] + four, last);
    assert [a, b, c] + four + last == TwoCalls(intent, id);
  }

  lemma ExecThree(p: Party, w: World, a: Action, b: Action, c: Action)
    ensures Exec(p, w, [a, b, c]) == Next(p, Next(p, Next(p, w, a), b), c)
  {
    hide Next, Exec;
    ExecOne(p, w, a);
    ExecOne(p, Next(p, w, a), b);
    ExecConcat(p, w, [a], [b]);
    assert [a] + [b] == [a, b];
    ExecOne(p, Next(p, Next(p, w, a), b), c);
    ExecConcat(p, w, [a, b], [c]);
    assert [a, b] + [c] == [a, b, c];
  }
}
