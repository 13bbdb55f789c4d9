/** The stored ledger, its compare-and-swap commit, and the check made at recovery. */
module Ledger {
  import opened Prelude
  import opened Model
  import opened Projector

  datatype Store = Store(ledger: seq<Event>, state: State)

  datatype CommitError =
    | EmptyBatch
    | Integrity(event: EventId)
    | StaleContext(expected: nat, actual: nat)
    | RevisionConflict(wanted: nat, received: nat)
    | NotProjected
    | Refused

  const EMPTY_STORE: Store := Store([], EMPTY_STATE)

  ghost predicate AllIntact(env: Env, events: seq<Event>) {
    forall e | e in events :: IntegrityHolds(env, e)
  }

  /** The first event whose hash does not verify. */
  function FirstDamaged(env: Env, events: seq<Event>): (r: Option<EventId>)
    ensures r.None? <==> AllIntact(env, events)
  {
    if events == [] then None
    else if !IntegrityHolds(env, events[0]) then
      assert events[0] in events;
      Some(events[0].id)
    else FirstDamaged(env, events[1..])
  }

  /** One storage transaction: it appends the whole batch and replaces the
      projection, or it changes nothing. */
  function CommitBatch(env: Env, st: Store, events: seq<Event>, offered: State, expected: Option<nat>):
    Result<Store, CommitError>
  {
    var actual := |st.ledger|;
    var damaged := FirstDamaged(env, events);
    if events == [] then Err(EmptyBatch)
    else if damaged.Some? then Err(Integrity(damaged.value))
    else if expected.Some? && expected.value != actual then Err(StaleContext(expected.value, actual))
    else if offered.revision != actual + |events| then
      Err(RevisionConflict(actual + |events|, offered.revision))
    else if |offered.applied| < |events|
            || offered.applied[|offered.applied| - |events|..] != Ids(events) then Err(NotProjected)
    else Ok(Store(st.ledger + events, offered))
  }

  /** Load, project and commit with nothing in between. */
  function RecordBatch(env: Env, st: Store, events: seq<Event>, expected: Option<nat>): Result<Store, CommitError> {
    if expected.Some? && st.state.revision != expected.value then
      Err(StaleContext(expected.value, st.state.revision))
    else
      match ApplyAll(env, st.state, events)
      case None => Err(Refused)
      case Some(offered) => CommitBatch(env, st, events, offered, expected)
  }

  /** What lands is the batch, with the projection it makes of the stored one. */
  lemma Landed(env: Env, st: Store, events: seq<Event>, expected: Option<nat>)
    requires RecordBatch(env, st, events, expected).Ok?
    ensures var next := RecordBatch(env, st, events, expected).value;
            next.ledger == st.ledger + events && ApplyAll(env, st.state, events) == Some(next.state)
  {
    hide Step, FirstDamaged;
  }

  /** The stored projection is the replay of the ledger, whose hashes verify. */
  ghost predicate Consistent(env: Env, st: Store) {
    && Replay(env, st.ledger) == Some(st.state)
    && AllIntact(env, st.ledger)
  }

  /** A batch that the projector accepts and whose hashes verify is committed, and
      the store is consistent again. */
  lemma RecordBatchLands(env: Env, st: Store, events: seq<Event>, expected: Option<nat>)
    requires Consistent(env, st)
    ensures RecordBatch(env, st, events, expected).Ok? <==>
              && events != [] && AllIntact(env, events)
              && (expected.Some? ==> expected.value == |st.ledger|)
              && ApplyAll(env, st.state, events).Some?
    ensures RecordBatch(env, st, events, expected).Ok? ==>
              var next := RecordBatch(env, st, events, expected).value;
              && Consistent(env, next)
              && next.ledger == st.ledger + events
              && ApplyAll(env, st.state, events) == Some(next.state)
  {
    hide Step, FirstDamaged, CommitBatch;
    ReplayCounts(env, st.ledger);
    ApplyAllConcat(env, EMPTY_STATE, st.ledger, events);
    if ApplyAll(env, st.state, events).Some? {
      ApplyAllCounts(env, st.state, events);
      CommitCounts(env, st, events, ApplyAll(env, st.state, events).value, expected);
    }
  }

  /** The commit asks for what a projected batch always is. */
  lemma CommitCounts(env: Env, st: Store, events: seq<Event>, offered: State, expected: Option<nat>)
    requires st.state.revision == |st.ledger| && offered.revision == st.state.revision + |events|
    requires offered.applied == st.state.applied + Ids(events)
    ensures CommitBatch(env, st, events, offered, expected).Ok? <==>
              events != [] && AllIntact(env, events) && (expected.Some? ==> expected.value == |st.ledger|)
    ensures CommitBatch(env, st, events, offered, expected).Ok? ==>
              CommitBatch(env, st, events, offered, expected).value == Store(st.ledger + events, offered)
  {
    hide AllIntact;
    assert offered.applied[|offered.applied| - |events|..] == Ids(events);
  }

  /** The snapshot a caller loaded earlier: the replay of a prefix of the ledger. */
  ghost predicate Snapshot(env: Env, ledger: seq<Event>, s: State) {
    && s.revision <= |ledger|
    && Replay(env, ledger[..s.revision]) == Some(s)
  }

  lemma SnapshotGrows(env: Env, ledger: seq<Event>, more: seq<Event>, s: State)
    requires Snapshot(env, ledger, s)
    ensures Snapshot(env, ledger + more, s)
  {
    assert (ledger + more)[..s.revision] == ledger[..s.revision];
  }

  lemma CurrentIsSnapshot(env: Env, st: Store)
    requires Consistent(env, st)
    ensures Snapshot(env, st.ledger, st.state)
  {
    ReplayCounts(env, st.ledger);
    assert st.ledger[..|st.ledger|] == st.ledger;
  }

  /** Two snapshots of one ledger at one revision are the same state: a caller
      whose expected revision is still current planned on the current state. */
  lemma SameRevisionSameState(env: Env, st: Store, s: State)
    requires Consistent(env, st) && Snapshot(env, st.ledger, s) && s.revision == |st.ledger|
    ensures s == st.state
  {
    assert st.ledger[..|st.ledger|] == st.ledger;
  }

  /** A commit that lands was projected from the current state, even when the
      writer named no expected revision. */
  lemma CommitLandsOnCurrent(
    env: Env, st: Store, base: State, events: seq<Event>, offered: State, expected: Option<nat>)
    requires Consistent(env, st) && Snapshot(env, st.ledger, base)
    requires ApplyAll(env, base, events) == Some(offered)
    requires CommitBatch(env, st, events, offered, expected).Ok?
    ensures base == st.state
    ensures Consistent(env, CommitBatch(env, st, events, offered, expected).value)
  {
    ReplayCounts(env, st.ledger[..base.revision]);
    ApplyAllCounts(env, base, events);
    SameRevisionSameState(env, st, base);
    ApplyAllConcat(env, EMPTY_STATE, st.ledger, events);
  }

  // ---------------------------------------------------------------- recovery

  datatype RecoveryReport = RecoveryReport(
    revision: nat, pendingApprovals: set<ApprovalId>, unknownOperations: set<OperationId>)

  datatype RecoveryError = Unreplayable | RevisionMismatch(stored: nat, ledger: nat) | ProjectionMismatch

  function Recover(env: Env, st: Store): Result<RecoveryReport, RecoveryError> {
    match Replay(env, st.ledger)
    case None => Err(Unreplayable)
    case Some(replayed) =>
      if replayed.revision != st.state.revision then Err(RevisionMismatch(st.state.revision, replayed.revision))
      else if st.state != replayed then Err(ProjectionMismatch)
      else
        Ok(RecoveryReport(
          st.state.revision,
          set id | id in st.state.approvals && st.state.approvals[id].status.Pending?
            :: st.state.approvals[id].id,
          set id | id in st.state.operations
                   && (st.state.operations[id].status.Started? || st.state.operations[id].status.Unknown?)
            :: st.state.operations[id].id))
  }

  // ---------------------------------------------------------------- what recovery reports

  /** Operations and approvals are stored under their own identifiers. */
  ghost predicate OwnKeys(s: State) {
    && (forall id | id in s.approvals :: s.approvals[id].id == id)
    && (forall id | id in s.operations :: s.operations[id].id == id)
  }

  lemma {:induction false} KeysKept(env: Env, ledger: seq<Event>)
    requires Replay(env, ledger).Some?
    ensures OwnKeys(Replay(env, ledger).value)
  {
    hide Step;
    if ledger != [] {
      var front := ledger[..|ledger| - 1];
      KeysKept(env, front);
      StepOperationParts(env, Replay(env, front).value, ledger[|ledger| - 1]);
    }
  }

  /** Recovery succeeds exactly when the stored projection is the replay of the ledger;
      then it reports the revision, every approval that is pending and every operation
      whose effect is in doubt. Otherwise it says what is wrong. */
  lemma RecoverExactly(env: Env, st: Store)
    ensures var r := Recover(env, st);
            match Replay(env, st.ledger)
            case None => r == Err(Unreplayable)
            case Some(s) =>
              if s == st.state then
                && r.Ok? && r.value.revision == |st.ledger|
                && (forall id :: id in r.value.pendingApprovals <==> id in s.approvals && s.approvals[id].status.Pending?)
                && (forall id :: id in r.value.unknownOperations <==>
                      id in s.operations && (s.operations[id].status.Started? || s.operations[id].status.Unknown?))
              else if st.state.revision == |st.ledger| then r == Err(ProjectionMismatch)
              else r == Err(RevisionMismatch(st.state.revision, |st.ledger|))
  {
    hide Step, Replay;
    if Replay(env, st.ledger).Some? {
      ReplayCounts(env, st.ledger);
      KeysKept(env, st.ledger);
    }
  }

  // ---------------------------------------------------------------- what a commit asks for

  /** The first event of the batch whose hash does not verify. */
  ghost predicate DamagedAt(env: Env, events: seq<Event>, k: nat) {
    && k < |events| && !IntegrityHolds(env, events[k])
    && forall i | 0 <= i < k :: IntegrityHolds(env, events[i])
  }

  lemma {:induction false} FirstDamagedAt(env: Env, events: seq<Event>, k: nat)
    requires DamagedAt(env, events, k)
    ensures FirstDamaged(env, events) == Some(events[k].id)
  {
    hide IntegrityHolds;
    if k > 0 {
      assert DamagedAt(env, events[1..], k - 1) by {
        assert forall i | 0 <= i < k - 1 :: events[1..][i] == events[i + 1];
      }
      FirstDamagedAt(env, events[1..], k - 1);
      assert events[0] in events;
    }
  }

  /** A commit succeeds exactly when the batch is there and intact, the revision is the
      expected one, and the offered projection applied this batch last, at the next
      revision; it then appends the batch and stores the projection. What fails first
      in this order is the error. */
  lemma CommitExactly(env: Env, st: Store, events: seq<Event>, offered: State, expected: Option<nat>)
    ensures var r, n := CommitBatch(env, st, events, offered, expected), |st.ledger|;
            var next := n + |events|;
            if events == [] then r == Err(EmptyBatch)
            else if !AllIntact(env, events) then
              exists k: nat :: DamagedAt(env, events, k) && r == Err(Integrity(events[k].id))
            else if expected.Some? && expected.value != n then r == Err(StaleContext(expected.value, n))
            else if offered.revision != next then r == Err(RevisionConflict(next, offered.revision))
            else if !exists earlier :: offered.applied == earlier + Ids(events) then r == Err(NotProjected)
            else r == Ok(Store(st.ledger + events, offered))
  {
    if events != [] && !AllIntact(env, events) {
      var k := DamagedIndex(env, events);
      FirstDamagedAt(env, events, k);
    }
    var ids := Ids(events);
    if |offered.applied| >= |events| {
      var cut := |offered.applied| - |events|;
      assert offered.applied == offered.applied[..cut] + offered.applied[cut..];
    }
    forall earlier: seq<EventId> | offered.applied == earlier + ids
      ensures |offered.applied| >= |events| && offered.applied[|offered.applied| - |events|..] == ids {}
    hide FirstDamaged, AllIntact, Ids, IntegrityHolds;
  }

  lemma DamagedIndex(env: Env, events: seq<Event>) returns (k: nat)
    requires !AllIntact(env, events)
    ensures DamagedAt(env, events, k)
  {
    var e :| e in events && !IntegrityHolds(env, e);
    var j :| 0 <= j < |events| && events[j] == e;
    k := 0;
    while IntegrityHolds(env, events[k])
      invariant k <= j && forall i | 0 <= i < k :: IntegrityHolds(env, events[i])
      decreases j - k
    {
      k := k + 1;
    }
  }
}
