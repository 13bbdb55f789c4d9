/** Any number of Sleep coordinators and other writers racing for one ledger. */
module SleepProtocol {
  import opened Prelude
  import opened Model
  import opened Projector
  import opened Ledger
  import opened SleepSeeds

  // ---------------------------------------------------------------- events a coordinator builds

  function SleepEvent(env: Env, hekate: PrincipalId, id: EventId, kind: SleepEventKind, run: SleepRun): Event {
    Seal(env, Event(id, hekate, SleepRunEvent(kind, run), Some(EntityRef(EntityKind.SleepRun, run.id)),
                    SourceType.Sleep, Some(run.id), None, Some(run.id), ""))
  }

  function RunningRun(id: SleepRunId, base: State, seeds: seq<SleepSeed>): SleepRun {
    SleepRun.SleepRun(id, SleepRunStatus.Running, base.revision, base.sleepCursor, None, SeedIds(seeds))
  }

  function CompletedRun(run: SleepRun, cursorAfter: nat): SleepRun {
    run.(status := SleepRunStatus.Completed, cursorAfter := Some(cursorAfter))
  }

  function FailedRun(run: SleepRun): SleepRun {
    run.(status := SleepRunStatus.Failed, cursorAfter := None)
  }

  function InterruptedRun(run: SleepRun): SleepRun {
    run.(status := SleepRunStatus.Interrupted, cursorAfter := None)
  }

  predicate HasRunningRun(s: State) {
    exists id | id in s.sleepRuns :: s.sleepRuns[id].status.Running?
  }

  // ---------------------------------------------------------------- the race

  /** Where a coordinator stands: `base` is the state it last loaded or committed. */
  datatype Coordinator =
    | Idle
    | Observed(base: State)
    | Planned(base: State, run: SleepRun, cursorAfter: Option<nat>, doomed: bool)
    | Holding(base: State, run: SleepRun, cursorAfter: Option<nat>)
    | Failing(base: State, run: SleepRun)
    | Interrupting(base: State, run: SleepRun)

  datatype World = World(store: Store, coordinators: map<nat, Coordinator>)

  const EMPTY_WORLD: World := World(EMPTY_STORE, map[])

  /** `Plan` names the new run and the length of the batch; `doomed` is a run that
      is recorded only to fail, because no model is configured, the context cannot
      be built or nothing fits the model. `Resume` names the running run found. */
  datatype Action =
    | Observe(c: nat)
    | Plan(c: nat, run: SleepRunId, size: nat, doomed: bool)
    | Resume(c: nat, run: SleepRunId, doomed: bool)
    | CommitStart(c: nat, event: EventId)
    | Preempt(c: nat)
    | Abandon(c: nat)
    | CommitFinish(c: nat, candidates: seq<Event>, event: EventId)
    | CommitFail(c: nat, event: EventId)
    | CommitInterrupt(c: nat, event: EventId)
    | Crash(c: nat)
    | Foreign(events: seq<Event>, expected: Option<nat>)

  function CoordinatorOf(w: World, c: nat): Coordinator {
    if c in w.coordinators then w.coordinators[c] else Idle
  }

  function Put(w: World, c: nat, k: Coordinator): World {
    w.(coordinators := w.coordinators[c := k])
  }

  /** The observations a new run may consume, looked up in the ledger as it is now. */
  function Window(ledger: seq<Event>, base: State): seq<SleepSeed> {
    DecodedBetween(ledger, base.sleepCursor, Min(base.revision, |ledger|), base.revision)
  }

  /** A new run takes a prefix of its window; only a doomed run may take none. */
  function PlanRun(w: World, c: nat, base: State, run: SleepRunId, size: nat, doomed: bool): World {
    var all := Window(w.store.ledger, base);
    if HasRunningRun(base) then w
    else if all == [] then Put(w, c, Idle)
    else if size > |all| || (size == 0 && !doomed) then w
    else Put(w, c, Coordinator.Planned(base, RunningRun(run, base, all[..size]), LastSequence(all[..size]), doomed))
  }

  /** A recorded run is resumed with its own seeds and high-water revision. */
  function ResumeRun(w: World, c: nat, base: State, id: SleepRunId, doomed: bool): World {
    if id !in base.sleepRuns || !base.sleepRuns[id].status.Running? then w
    else
      var run := base.sleepRuns[id];
      var seeds := DecodeAll(w.store.ledger, run.seeds, run.highWater);
      if |seeds| < |run.seeds| || seeds == [] || doomed then Put(w, c, Failing(base, run))
      else Put(w, c, Holding(base, run, RunCursorAfter(w.store.ledger, run)))
  }

  function CommitRun(env: Env, w: World, c: nat, base: State, events: seq<Event>): Result<Store, CommitError> {
    RecordBatch(env, w.store, events, Some(base.revision))
  }

  function Next(env: Env, hekate: PrincipalId, w: World, a: Action): World {
    match a
    case Observe(c) =>
      if CoordinatorOf(w, c).Idle? then Put(w, c, Observed(w.store.state)) else w
    case Plan(c, run, size, doomed) =>
      var k := CoordinatorOf(w, c);
      if k.Observed? then PlanRun(w, c, k.base, run, size, doomed) else w
    case Resume(c, run, doomed) =>
      var k := CoordinatorOf(w, c);
      if k.Observed? then ResumeRun(w, c, k.base, run, doomed) else w
    case CommitStart(c, event) =>
      var k := CoordinatorOf(w, c);
      if !k.Planned? then w
      else
        (match CommitRun(env, w, c, k.base, [SleepEvent(env, hekate, event, SleepEventKind.Started, k.run)])
         case Err(_) => Put(w, c, Idle)
         case Ok(store) =>
           World(store, w.coordinators[c := if k.doomed then Failing(store.state, k.run)
                                            else Holding(store.state, k.run, k.cursorAfter)]))
    case Preempt(c) =>
      var k := CoordinatorOf(w, c);
      if k.Holding? then Put(w, c, Interrupting(w.store.state, k.run)) else w
    case Abandon(c) =>
      var k := CoordinatorOf(w, c);
      if k.Holding? then Put(w, c, Failing(k.base, k.run)) else w
    case CommitFinish(c, candidates, event) =>
      var k := CoordinatorOf(w, c);
      if !k.Holding? || exists e | e in candidates :: !e.body.CandidateCreated? then w
      else
        (match k.cursorAfter
         case None => Put(w, c, Idle)
         case Some(cursor) =>
           match CommitRun(env, w, c, k.base,
                           candidates + [SleepEvent(env, hekate, event, SleepEventKind.Completed,
                                                    CompletedRun(k.run, cursor))])
           case Ok(store) => World(store, w.coordinators[c := Idle])
           case Err(error) => Put(w, c, if error.StaleContext? then Interrupting(w.store.state, k.run) else Idle))
    case CommitFail(c, event) =>
      var k := CoordinatorOf(w, c);
      if !k.Failing? then w
      else
        (match CommitRun(env, w, c, k.base, [SleepEvent(env, hekate, event, SleepEventKind.Failed, FailedRun(k.run))])
         case Err(_) => Put(w, c, Idle)
         case Ok(store) => World(store, w.coordinators[c := Idle]))
    case CommitInterrupt(c, event) =>
      var k := CoordinatorOf(w, c);
      if !k.Interrupting? then w
      else
        (match CommitRun(env, w, c, k.base,
                         [SleepEvent(env, hekate, event, SleepEventKind.Interrupted, InterruptedRun(k.run))])
         case Err(_) => Put(w, c, Idle)
         case Ok(store) => World(store, w.coordinators[c := Idle]))
    case Crash(c) => Put(w, c, Idle)
    case Foreign(events, expected) =>
      if exists e | e in events :: e.body.SleepRunEvent? then w
      else
        (match RecordBatch(env, w.store, events, expected)
         case Err(_) => w
         case Ok(store) => w.(store := store))
  }

  function Exec(env: Env, hekate: PrincipalId, w: World, actions: seq<Action>): World {
    if actions == [] then w
    else Next(env, hekate, Exec(env, hekate, w, actions[..|actions| - 1]), actions[|actions| - 1])
  }

  // ---------------------------------------------------------------- what every step keeps

  /** Seed identifiers of the completed runs, in completion order. */
  function CompletedSeeds(ledger: seq<Event>): seq<EventId> {
    if ledger == [] then []
    else
      var e := ledger[|ledger| - 1];
      CompletedSeeds(ledger[..|ledger| - 1])
      + (if e.body.SleepRunEvent? && e.body.sleepKind.Completed? then e.body.run.seeds else [])
  }

  /** The run starts at the cursor, and its seeds are the first ones after it. */
  ghost predicate RunOk(ledger: seq<Event>, cursor: nat, run: SleepRun) {
    && run.cursorBefore == cursor
    && cursor <= run.highWater <= |ledger|
    && |run.seeds| <= |SeedsBetween(ledger, cursor, run.highWater)|
    && run.seeds == SeedIds(SeedsBetween(ledger, cursor, run.highWater)[..|run.seeds|])
  }

  ghost predicate SleepOk(ledger: seq<Event>, s: State) {
    && s.sleepCursor <= |ledger|
    && (forall id | id in s.sleepRuns :: s.sleepRuns[id].id == id)
    && (forall id | id in s.sleepRuns && s.sleepRuns[id].status.Running? ::
          RunOk(ledger, s.sleepCursor, s.sleepRuns[id]))
    && (forall i, j | i in s.sleepRuns && j in s.sleepRuns
                      && s.sleepRuns[i].status.Running? && s.sleepRuns[j].status.Running? :: i == j)
    && CompletedSeeds(ledger) == SeedIds(SeedsBetween(ledger, 0, s.sleepCursor))
  }

  lemma RunOkGrows(ledger: seq<Event>, more: seq<Event>, cursor: nat, run: SleepRun)
    requires RunOk(ledger, cursor, run)
    ensures RunOk(ledger + more, cursor, run)
  {
    assert (ledger + more)[..run.highWater] == ledger[..run.highWater];
    SeedsStable(ledger, ledger + more, cursor, run.highWater);
  }

  lemma SleepOkQuiet(ledger: seq<Event>, s: State, e: Event, t: State)
    requires SleepOk(ledger, s) && !e.body.SleepRunEvent?
    requires t.sleepRuns == s.sleepRuns && t.sleepCursor == s.sleepCursor
    ensures SleepOk(ledger + [e], t)
  {
    assert (ledger + [e])[..|ledger|] == ledger;
    assert (ledger + [e])[..s.sleepCursor] == ledger[..s.sleepCursor];
    SeedsStable(ledger, ledger + [e], 0, s.sleepCursor);
    forall id | id in s.sleepRuns && s.sleepRuns[id].status.Running?
      ensures RunOk(ledger + [e], s.sleepCursor, s.sleepRuns[id])
    {
      RunOkGrows(ledger, [e], s.sleepCursor, s.sleepRuns[id]);
    }
  }

  /** Events of every other kind leave the Sleep records alone. */
  lemma QuietStep(env: Env, s: State, e: Event)
    requires Step(env, s, e).Some? && !e.body.SleepRunEvent?
    ensures var t := Step(env, s, e).value; t.sleepRuns == s.sleepRuns && t.sleepCursor == s.sleepCursor
  {
  }

  lemma {:induction false} SleepOkForeign(env: Env, ledger: seq<Event>, s: State, events: seq<Event>)
    requires SleepOk(ledger, s) && ApplyAll(env, s, events).Some?
    requires forall e | e in events :: !e.body.SleepRunEvent?
    ensures SleepOk(ledger + events, ApplyAll(env, s, events).value)
    ensures ApplyAll(env, s, events).value.sleepRuns == s.sleepRuns
  {
    hide After, BodyAccepted;
    if events == [] {
      assert ledger + events == ledger;
    } else {
      var front, e := events[..|events| - 1], events[|events| - 1];
      SleepOkForeign(env, ledger, s, front);
      QuietStep(env, ApplyAll(env, s, front).value, e);
      SleepOkQuiet(ledger + front, ApplyAll(env, s, front).value, e, ApplyAll(env, s, events).value);
      assert ledger + front + [e] == ledger + events;
    }
  }

  /** A Sleep event's effect on the Sleep records. */
  lemma SleepStep(env: Env, s: State, e: Event)
    requires Step(env, s, e).Some? && e.body.SleepRunEvent?
    ensures var t, run := Step(env, s, e).value, e.body.run;
            && SleepRunAccepted(s, e.body.sleepKind, run)
            && t.sleepRuns == s.sleepRuns[run.id := run]
            && t.sleepCursor == if e.body.sleepKind.Completed? then run.cursorAfter.value else s.sleepCursor
  {
  }

  lemma LedgerStable(ledger: seq<Event>, e: Event, s: State)
    requires SleepOk(ledger, s)
    ensures (ledger + [e])[..|ledger|] == ledger
    ensures SeedsBetween(ledger + [e], 0, s.sleepCursor) == SeedsBetween(ledger, 0, s.sleepCursor)
    ensures forall id | id in s.sleepRuns && s.sleepRuns[id].status.Running? ::
              RunOk(ledger + [e], s.sleepCursor, s.sleepRuns[id])
  {
    assert (ledger + [e])[..s.sleepCursor] == ledger[..s.sleepCursor];
    SeedsStable(ledger, ledger + [e], 0, s.sleepCursor);
    forall id | id in s.sleepRuns && s.sleepRuns[id].status.Running?
      ensures RunOk(ledger + [e], s.sleepCursor, s.sleepRuns[id])
    {
      RunOkGrows(ledger, [e], s.sleepCursor, s.sleepRuns[id]);
    }
  }

  lemma SleepOkStarted(env: Env, ledger: seq<Event>, s: State, e: Event)
    requires SleepOk(ledger, s) && !HasRunningRun(s)
    requires e.body.SleepRunEvent? && e.body.sleepKind.Started? && Step(env, s, e).Some?
    requires RunOk(ledger, s.sleepCursor, e.body.run)
    ensures SleepOk(ledger + [e], Step(env, s, e).value)
  {
    hide After, BodyAccepted;
    SleepStep(env, s, e);
    LedgerStable(ledger, e, s);
    RunOkGrows(ledger, [e], s.sleepCursor, e.body.run);
  }

  lemma SleepOkStopped(env: Env, ledger: seq<Event>, s: State, e: Event)
    requires SleepOk(ledger, s)
    requires e.body.SleepRunEvent? && (e.body.sleepKind.Failed? || e.body.sleepKind.Interrupted?)
    requires Step(env, s, e).Some?
    ensures SleepOk(ledger + [e], Step(env, s, e).value)
  {
    hide After, BodyAccepted;
    SleepStep(env, s, e);
    LedgerStable(ledger, e, s);
  }

  /** The last recorded seed ends the part of the window the run consumes. */
  lemma RunConsumes(ledger: seq<Event>, cursor: nat, run: SleepRun)
    requires RunOk(ledger, cursor, run) && Distinct(Ids(ledger)) && run.seeds != []
    ensures var after := RunCursorAfter(ledger, run);
            && after.Some? && cursor < after.value <= run.highWater
            && run.seeds == SeedIds(SeedsBetween(ledger, cursor, after.value))
  {
    var k, hi := |run.seeds|, run.highWater;
    var all := SeedsBetween(ledger, cursor, hi);
    DecodeWindowSeed(ledger, cursor, hi, k - 1, hi);
    SeedsCut(ledger, cursor, hi, k);
    assert run.seeds[k - 1] == all[k - 1].event;
  }

  /** Completing a run at its last seed consumes exactly the observations between
      the old cursor and the new one. */
  lemma SleepOkCompleted(env: Env, ledger: seq<Event>, s: State, e: Event)
    requires SleepOk(ledger, s) && Distinct(Ids(ledger))
    requires e.body.SleepRunEvent? && e.body.sleepKind.Completed? && Step(env, s, e).Some?
    requires e.body.run.cursorAfter == RunCursorAfter(ledger, e.body.run)
    ensures SleepOk(ledger + [e], Step(env, s, e).value)
    ensures Step(env, s, e).value.sleepCursor > s.sleepCursor
  {
    hide After, BodyAccepted;
    var run, t := e.body.run, Step(env, s, e).value;
    SleepStep(env, s, e);
    assert RunOk(ledger, s.sleepCursor, s.sleepRuns[run.id]);
    RunConsumes(ledger, s.sleepCursor, run);
    var cursor := run.cursorAfter.value;
    SeedsSplit(ledger, 0, s.sleepCursor, cursor);
    SeedIdsConcat(SeedsBetween(ledger, 0, s.sleepCursor), SeedsBetween(ledger, s.sleepCursor, cursor));
    assert (ledger + [e])[..|ledger|] == ledger;
    assert (ledger + [e])[..cursor] == ledger[..cursor];
    SeedsStable(ledger, ledger + [e], 0, cursor);
  }

  // ---------------------------------------------------------------- the invariant of the race

  /** A state some coordinator loaded or committed, good for its own prefix. */
  ghost predicate Base(env: Env, ledger: seq<Event>, s: State) {
    && Snapshot(env, ledger, s)
    && SleepOk(ledger[..s.revision], s)
  }

  /** The cursor a coordinator will offer is the ledger position of its last seed. */
  ghost predicate CursorOk(ledger: seq<Event>, run: SleepRun, cursorAfter: Option<nat>) {
    && cursorAfter == RunCursorAfter(ledger, run)
    && (run.seeds != [] ==> cursorAfter.Some?)
  }

  ghost predicate CoordinatorOk(env: Env, ledger: seq<Event>, k: Coordinator) {
    match k
    case Idle => true
    case Observed(base) => Base(env, ledger, base)
    case Planned(base, run, cursorAfter, doomed) =>
      && Base(env, ledger, base)
      && !HasRunningRun(base)
      && RunOk(ledger[..base.revision], base.sleepCursor, run)
      && (!doomed ==> run.seeds != [])
      && CursorOk(ledger, run, cursorAfter)
    case Holding(base, run, cursorAfter) =>
      && Base(env, ledger, base)
      && run.id in base.sleepRuns && base.sleepRuns[run.id] == run && run.status.Running?
      && run.seeds != []
      && CursorOk(ledger, run, cursorAfter)
    case Failing(base, _) => Base(env, ledger, base)
    case Interrupting(base, _) => Base(env, ledger, base)
  }

  ghost predicate WorldOk(env: Env, w: World) {
    && Consistent(env, w.store)
    && SleepOk(w.store.ledger, w.store.state)
    && forall c | c in w.coordinators :: CoordinatorOk(env, w.store.ledger, w.coordinators[c])
  }

  lemma BaseGrows(env: Env, ledger: seq<Event>, more: seq<Event>, s: State)
    requires Base(env, ledger, s)
    ensures Base(env, ledger + more, s)
  {
    SnapshotGrows(env, ledger, more, s);
    assert (ledger + more)[..s.revision] == ledger[..s.revision];
  }

  lemma BaseWithin(env: Env, ledger: seq<Event>, s: State)
    requires Base(env, ledger, s)
    ensures s.revision <= |ledger|
  {
    hide Replay;
  }

  lemma CursorGrows(ledger: seq<Event>, more: seq<Event>, run: SleepRun)
    requires run.seeds != [] && RunCursorAfter(ledger, run).Some?
    ensures RunCursorAfter(ledger + more, run) == RunCursorAfter(ledger, run)
  {
    assert Ids(ledger + more) == Ids(ledger) + Ids(more);
    IndexOfPrefix(Ids(ledger), Ids(ledger + more), run.seeds[|run.seeds| - 1]);
  }

  lemma CursorOkGrows(ledger: seq<Event>, more: seq<Event>, run: SleepRun, after: Option<nat>)
    requires CursorOk(ledger, run, after)
    ensures CursorOk(ledger + more, run, after)
  {
    if run.seeds != [] { CursorGrows(ledger, more, run); }
  }

  lemma CoordinatorGrows(env: Env, ledger: seq<Event>, more: seq<Event>, k: Coordinator)
    requires CoordinatorOk(env, ledger, k)
    ensures CoordinatorOk(env, ledger + more, k)
  {
    hide Step, Base, CursorOk, RunOk;
    if !k.Idle? {
      BaseGrows(env, ledger, more, k.base);
      BaseWithin(env, ledger, k.base);
      assert (ledger + more)[..k.base.revision] == ledger[..k.base.revision];
      if k.Planned? || k.Holding? { CursorOkGrows(ledger, more, k.run, k.cursorAfter); }
    }
  }

  lemma CurrentIsBase(env: Env, w: World)
    requires WorldOk(env, w)
    ensures Base(env, w.store.ledger, w.store.state)
    ensures w.store.state.revision == |w.store.ledger| && Distinct(Ids(w.store.ledger))
  {
    CurrentIsSnapshot(env, w.store);
    ReplayCounts(env, w.store.ledger);
    assert w.store.ledger[..|w.store.ledger|] == w.store.ledger;
  }

  /** A commit against a base that is still current appends to the state the
      coordinator planned on. */
  lemma CommitIsCurrent(env: Env, w: World, base: State, events: seq<Event>)
    requires WorldOk(env, w) && Base(env, w.store.ledger, base)
    requires RecordBatch(env, w.store, events, Some(base.revision)).Ok?
    ensures base == w.store.state
    ensures var next := RecordBatch(env, w.store, events, Some(base.revision)).value;
            && Consistent(env, next)
            && next.ledger == w.store.ledger + events
            && ApplyAll(env, base, events) == Some(next.state)
  {
    RecordBatchLands(env, w.store, events, Some(base.revision));
    CurrentIsBase(env, w);
    SameRevisionSameState(env, w.store, base);
  }

  /** Replacing the store by a grown, good one keeps the other coordinators good. */
  lemma StoreGrows(env: Env, w: World, store: Store, more: seq<Event>, c: nat, k: Coordinator)
    requires WorldOk(env, w)
    requires Consistent(env, store) && store.ledger == w.store.ledger + more
    requires SleepOk(store.ledger, store.state)
    requires CoordinatorOk(env, store.ledger, k)
    ensures WorldOk(env, World(store, w.coordinators[c := k]))
  {
    forall d | d in w.coordinators && d != c ensures CoordinatorOk(env, store.ledger, w.coordinators[d]) {
      CoordinatorGrows(env, w.store.ledger, more, w.coordinators[d]);
    }
  }

  /** The window is read from a ledger that may have grown since the base was loaded. */
  lemma WindowOfBase(env: Env, w: World, base: State)
    requires WorldOk(env, w) && Base(env, w.store.ledger, base)
    ensures Window(w.store.ledger, base) == SeedsBetween(w.store.ledger, base.sleepCursor, base.revision)
    ensures Window(w.store.ledger, base) == SeedsBetween(w.store.ledger[..base.revision], base.sleepCursor, base.revision)
  {
    var ledger := w.store.ledger;
    CurrentIsBase(env, w);
    DecodedIsSeeds(ledger, base.sleepCursor, base.revision, base.revision);
    assert ledger[..base.revision][..base.revision] == ledger[..base.revision];
    SeedsStable(ledger, ledger[..base.revision], base.sleepCursor, base.revision);
  }

  /** The last sequence of a cut window is where the ledger holds its last seed. */
  lemma CutCursor(ledger: seq<Event>, run: SleepRun, lo: nat, hi: nat, size: nat)
    requires hi <= |ledger| && Distinct(Ids(ledger)) && size <= |SeedsBetween(ledger, lo, hi)|
    requires run.seeds == SeedIds(SeedsBetween(ledger, lo, hi)[..size])
    ensures CursorOk(ledger, run, LastSequence(SeedsBetween(ledger, lo, hi)[..size]))
  {
    hide SeedOf, DecodeSeed, SeedsBetween;
    if size > 0 {
      DecodeWindowSeed(ledger, lo, hi, size - 1, hi);
      assert run.seeds[size - 1] == SeedsBetween(ledger, lo, hi)[size - 1].event;
      SeedsOrdered(ledger, lo, hi);
    }
  }

  lemma PlannedCursor(env: Env, w: World, base: State, id: SleepRunId, size: nat)
    requires WorldOk(env, w) && Base(env, w.store.ledger, base)
    requires size <= |Window(w.store.ledger, base)|
    ensures var prefix := Window(w.store.ledger, base)[..size];
            CursorOk(w.store.ledger, RunningRun(id, base, prefix), LastSequence(prefix))
  {
    WindowOfBase(env, w, base);
    CurrentIsBase(env, w);
    CutCursor(w.store.ledger, RunningRun(id, base, Window(w.store.ledger, base)[..size]),
              base.sleepCursor, base.revision, size);
  }

  lemma PlanKeeps(env: Env, w: World, c: nat, base: State, run: SleepRunId, size: nat, doomed: bool)
    requires WorldOk(env, w) && Base(env, w.store.ledger, base)
    ensures WorldOk(env, PlanRun(w, c, base, run, size, doomed))
  {
    hide After, BodyAccepted;
    var ledger, all := w.store.ledger, Window(w.store.ledger, base);
    if !HasRunningRun(base) && size <= |all| && (size > 0 || doomed) {
      WindowOfBase(env, w, base);
      PlannedCursor(env, w, base, run, size);
      var planned := RunningRun(run, base, all[..size]);
      assert all[..|planned.seeds|] == all[..size];
      assert RunOk(ledger[..base.revision], base.sleepCursor, planned);
    }
  }

  /** A recorded run always decodes in full when it is resumed: the failure for
      damaged seeds is never taken for a run that recorded any. */
  lemma ResumeDecodes(env: Env, w: World, base: State, id: SleepRunId)
    requires WorldOk(env, w) && Base(env, w.store.ledger, base)
    requires id in base.sleepRuns && base.sleepRuns[id].status.Running?
    ensures var run := base.sleepRuns[id];
            && SeedIds(DecodeAll(w.store.ledger, run.seeds, run.highWater)) == run.seeds
            && (run.seeds != [] ==> RunCursorAfter(w.store.ledger, run).Some?)
  {
    hide After, BodyAccepted;
    var run, ledger := base.sleepRuns[id], w.store.ledger;
    var prefix := ledger[..base.revision];
    CurrentIsBase(env, w);
    assert RunOk(prefix, base.sleepCursor, run);
    assert prefix + ledger[base.revision..] == ledger;
    RunOkGrows(prefix, ledger[base.revision..], base.sleepCursor, run);
    DecodeAllRecovers(ledger, run.cursorBefore, run.highWater, |run.seeds|, run.highWater);
    if run.seeds != [] {
      DecodeWindowSeed(ledger, run.cursorBefore, run.highWater, |run.seeds| - 1, run.highWater);
    }
  }

  lemma ResumeKeeps(env: Env, w: World, c: nat, base: State, id: SleepRunId, doomed: bool)
    requires WorldOk(env, w) && Base(env, w.store.ledger, base)
    ensures WorldOk(env, ResumeRun(w, c, base, id, doomed))
  {
    hide After, BodyAccepted;
    if id in base.sleepRuns && base.sleepRuns[id].status.Running? {
      var run := base.sleepRuns[id];
      ResumeDecodes(env, w, base, id);
      assert run.seeds == [] ==> DecodeAll(w.store.ledger, run.seeds, run.highWater) == [];
    }
  }

  /** The base of a store that is good and consistent, after a commit. */
  lemma StoreIsBase(env: Env, store: Store)
    requires Consistent(env, store) && SleepOk(store.ledger, store.state)
    ensures Base(env, store.ledger, store.state)
  {
    ReplayCounts(env, store.ledger);
    CurrentIsSnapshot(env, store);
    assert store.ledger[..|store.ledger|] == store.ledger;
  }

  lemma StartKeeps(env: Env, hekate: PrincipalId, w: World, c: nat, event: EventId)
    requires WorldOk(env, w)
    ensures WorldOk(env, Next(env, hekate, w, CommitStart(c, event)))
  {
    hide After, BodyAccepted;
    var k := CoordinatorOf(w, c);
    if k.Planned? {
      var e := SleepEvent(env, hekate, event, SleepEventKind.Started, k.run);
      if CommitRun(env, w, c, k.base, [e]).Ok? {
        StartedKeeps(env, w, c, k.base, k.run, k.cursorAfter, k.doomed, e);
      }
    }
  }

  lemma StartedKeeps(env: Env, w: World, c: nat, base: State, run: SleepRun, cursorAfter: Option<nat>, doomed: bool, e: Event)
    requires WorldOk(env, w) && CoordinatorOk(env, w.store.ledger, Coordinator.Planned(base, run, cursorAfter, doomed))
    requires e.body == SleepRunEvent(SleepEventKind.Started, run)
    requires RecordBatch(env, w.store, [e], Some(base.revision)).Ok?
    ensures var store := RecordBatch(env, w.store, [e], Some(base.revision)).value;
            WorldOk(env, World(store, w.coordinators[c := if doomed then Failing(store.state, run)
                                                          else Holding(store.state, run, cursorAfter)]))
  {
    hide After, BodyAccepted;
    var store := RecordBatch(env, w.store, [e], Some(base.revision)).value;
    CommitIsCurrent(env, w, base, [e]);
    CurrentIsBase(env, w);
    ApplyOne(env, base, e);
    assert w.store.ledger[..base.revision] == w.store.ledger;
    SleepOkStarted(env, w.store.ledger, base, e);
    SleepStep(env, base, e);
    StoreIsBase(env, store);
    CoordinatorGrows(env, w.store.ledger, [e], Coordinator.Planned(base, run, cursorAfter, doomed));
    StoreGrows(env, w, store, [e], c,
               if doomed then Failing(store.state, run) else Holding(store.state, run, cursorAfter));
  }

  lemma StopKeeps(env: Env, w: World, c: nat, base: State, e: Event)
    requires WorldOk(env, w) && Base(env, w.store.ledger, base)
    requires e.body.SleepRunEvent? && (e.body.sleepKind.Failed? || e.body.sleepKind.Interrupted?)
    requires RecordBatch(env, w.store, [e], Some(base.revision)).Ok?
    ensures WorldOk(env, World(RecordBatch(env, w.store, [e], Some(base.revision)).value, w.coordinators[c := Idle]))
  {
    CommitIsCurrent(env, w, base, [e]);
    ApplyOne(env, base, e);
    SleepOkStopped(env, w.store.ledger, base, e);
    StoreGrows(env, w, RecordBatch(env, w.store, [e], Some(base.revision)).value, [e], c, Idle);
  }

  /** The run's own event, after the candidates of the batch. */
  lemma FinishLast(env: Env, ledger: seq<Event>, candidates: seq<Event>, mid: State, run: SleepRun, e: Event)
    requires SleepOk(ledger + candidates, mid) && Distinct(Ids(ledger + candidates))
    requires e.body.SleepRunEvent? && e.body.sleepKind.Completed?
    requires run.seeds != [] && RunCursorAfter(ledger, run).Some?
    requires e.body.run == CompletedRun(run, RunCursorAfter(ledger, run).value)
    requires Step(env, mid, e).Some?
    ensures SleepOk(ledger + candidates + [e], Step(env, mid, e).value)
    ensures Step(env, mid, e).value.sleepCursor > mid.sleepCursor
  {
    hide After, BodyAccepted;
    CursorGrows(ledger, candidates, run);
    assert RunCursorAfter(ledger + candidates, e.body.run) == RunCursorAfter(ledger + candidates, run);
    SleepOkCompleted(env, ledger + candidates, mid, e);
  }

  /** The completion batch: candidates of the run, then the run itself. */
  lemma FinishGood(env: Env, ledger: seq<Event>, base: State, run: SleepRun, candidates: seq<Event>, e: Event)
    requires SleepOk(ledger, base) && Distinct(Ids(ledger + candidates))
    requires forall x | x in candidates :: !x.body.SleepRunEvent?
    requires e.body.SleepRunEvent? && e.body.sleepKind.Completed?
    requires run.seeds != [] && RunCursorAfter(ledger, run).Some?
    requires e.body.run == CompletedRun(run, RunCursorAfter(ledger, run).value)
    requires ApplyAll(env, base, candidates + [e]).Some?
    ensures SleepOk(ledger + (candidates + [e]), ApplyAll(env, base, candidates + [e]).value)
    ensures ApplyAll(env, base, candidates + [e]).value.sleepCursor > base.sleepCursor
  {
    hide After, BodyAccepted;
    assert (candidates + [e])[..|candidates|] == candidates;
    var mid := ApplyAll(env, base, candidates).value;
    SleepOkForeign(env, ledger, base, candidates);
    QuietCursor(env, base, candidates);
    FinishLast(env, ledger, candidates, mid, run, e);
    assert ledger + candidates + [e] == ledger + (candidates + [e]);
  }

  lemma FinishKeeps(env: Env, w: World, c: nat, base: State, run: SleepRun, candidates: seq<Event>, e: Event)
    requires WorldOk(env, w) && Base(env, w.store.ledger, base)
    requires forall x | x in candidates :: x.body.CandidateCreated?
    requires e.body.SleepRunEvent? && e.body.sleepKind.Completed?
    requires run.seeds != [] && RunCursorAfter(w.store.ledger, run).Some?
    requires e.body.run == CompletedRun(run, RunCursorAfter(w.store.ledger, run).value)
    requires RecordBatch(env, w.store, candidates + [e], Some(base.revision)).Ok?
    ensures var store := RecordBatch(env, w.store, candidates + [e], Some(base.revision)).value;
            && WorldOk(env, World(store, w.coordinators[c := Idle]))
            && store.state.sleepCursor > w.store.state.sleepCursor
            && w.store.ledger <= store.ledger
  {
    hide After, BodyAccepted;
    var ledger := w.store.ledger;
    CommitIsCurrent(env, w, base, candidates + [e]);
    CurrentIsBase(env, w);
    var store := RecordBatch(env, w.store, candidates + [e], Some(base.revision)).value;
    ReplayCounts(env, store.ledger);
    assert Ids(ledger + candidates) == Ids(store.ledger)[..|ledger + candidates|];
    FinishGood(env, ledger, base, run, candidates, e);
    StoreGrows(env, w, store, candidates + [e], c, Idle);
  }

  lemma {:induction false} QuietCursor(env: Env, s: State, events: seq<Event>)
    requires ApplyAll(env, s, events).Some? && forall e | e in events :: !e.body.SleepRunEvent?
    ensures ApplyAll(env, s, events).value.sleepCursor == s.sleepCursor
  {
    if events != [] {
      var front, e := events[..|events| - 1], events[|events| - 1];
      QuietCursor(env, s, front);
      QuietStep(env, ApplyAll(env, s, front).value, e);
    }
  }

  lemma FinishStepKeeps(env: Env, hekate: PrincipalId, w: World, c: nat, candidates: seq<Event>, event: EventId)
    requires WorldOk(env, w)
    ensures var next := Next(env, hekate, w, CommitFinish(c, candidates, event));
            && WorldOk(env, next)
            && next.store.state.sleepCursor >= w.store.state.sleepCursor
            && w.store.ledger <= next.store.ledger
  {
    hide Step, RecordBatch, SleepRunAccepted;
    var k := CoordinatorOf(w, c);
    CurrentIsBase(env, w);
    if k.Holding? && k.cursorAfter.Some? && forall e | e in candidates :: e.body.CandidateCreated? {
      var e := SleepEvent(env, hekate, event, SleepEventKind.Completed, CompletedRun(k.run, k.cursorAfter.value));
      if CommitRun(env, w, c, k.base, candidates + [e]).Ok? {
        FinishKeeps(env, w, c, k.base, k.run, candidates, e);
      }
    }
  }

  lemma ForeignKeeps(env: Env, hekate: PrincipalId, w: World, events: seq<Event>, expected: Option<nat>)
    requires WorldOk(env, w)
    ensures WorldOk(env, Next(env, hekate, w, Foreign(events, expected)))
    ensures Next(env, hekate, w, Foreign(events, expected)).store.state.sleepCursor == w.store.state.sleepCursor
    ensures w.store.ledger <= Next(env, hekate, w, Foreign(events, expected)).store.ledger
  {
    hide After, BodyAccepted;
    if forall e | e in events :: !e.body.SleepRunEvent? {
      RecordBatchLands(env, w.store, events, expected);
      if RecordBatch(env, w.store, events, expected).Ok? {
        var store := RecordBatch(env, w.store, events, expected).value;
        SleepOkForeign(env, w.store.ledger, w.store.state, events);
        QuietCursor(env, w.store.state, events);
        forall d | d in w.coordinators ensures CoordinatorOk(env, store.ledger, w.coordinators[d]) {
          CoordinatorGrows(env, w.store.ledger, events, w.coordinators[d]);
        }
      }
    }
  }

  lemma NextKeeps(env: Env, hekate: PrincipalId, w: World, a: Action)
    requires WorldOk(env, w)
    ensures WorldOk(env, Next(env, hekate, w, a))
  {
    hide After, BodyAccepted;
    match a
    case Observe(c) => CurrentIsBase(env, w);
    case Plan(c, run, size, doomed) =>
      if CoordinatorOf(w, c).Observed? { PlanKeeps(env, w, c, CoordinatorOf(w, c).base, run, size, doomed); }
    case Resume(c, run, doomed) =>
      if CoordinatorOf(w, c).Observed? { ResumeKeeps(env, w, c, CoordinatorOf(w, c).base, run, doomed); }
    case CommitStart(c, event) => StartKeeps(env, hekate, w, c, event);
    case Preempt(c) => CurrentIsBase(env, w);
    case Abandon(c) =>
    case CommitFinish(c, candidates, event) => FinishStepKeeps(env, hekate, w, c, candidates, event);
    case CommitFail(c, event) =>
      var k := CoordinatorOf(w, c);
      if k.Failing? {
        var e := SleepEvent(env, hekate, event, SleepEventKind.Failed, FailedRun(k.run));
        if CommitRun(env, w, c, k.base, [e]).Ok? { StopKeeps(env, w, c, k.base, e); }
      }
    case CommitInterrupt(c, event) =>
      var k := CoordinatorOf(w, c);
      if k.Interrupting? {
        var e := SleepEvent(env, hekate, event, SleepEventKind.Interrupted, InterruptedRun(k.run));
        if CommitRun(env, w, c, k.base, [e]).Ok? { StopKeeps(env, w, c, k.base, e); }
      }
    case Crash(c) =>
    case Foreign(events, expected) => ForeignKeeps(env, hekate, w, events, expected);
  }

  lemma {:induction false} ExecKeeps(env: Env, hekate: PrincipalId, actions: seq<Action>)
    ensures WorldOk(env, Exec(env, hekate, EMPTY_WORLD, actions))
  {
    if actions != [] {
      var front := actions[..|actions| - 1];
      ExecKeeps(env, hekate, front);
      NextKeeps(env, hekate, Exec(env, hekate, EMPTY_WORLD, front), actions[|actions| - 1]);
    }
  }

  // ---------------------------------------------------------------- main results

  /** In every reachable ledger the completed runs, concatenated in completion
      order, consumed exactly the decodable observations up to the cursor, each
      once and in ledger order: those with a character that is not white space, whose
      event is about them. */
  lemma ExactlyOnceSleep(env: Env, hekate: PrincipalId, actions: seq<Action>)
    ensures var st := Exec(env, hekate, EMPTY_WORLD, actions).store;
            && st.state.sleepCursor <= |st.ledger|
            && CompletedSeeds(st.ledger) == SeedIds(SeedsBetween(st.ledger, 0, st.state.sleepCursor))
            && (forall i | 0 <= i < |st.ledger| ::
                  st.ledger[i].id in CompletedSeeds(st.ledger)
                  <==> i < st.state.sleepCursor && Decodable(st.ledger[i]))
            && Distinct(CompletedSeeds(st.ledger)) && InLedgerOrder(st.ledger, CompletedSeeds(st.ledger))
  {
    hide Exec, Decodable;
    ExecKeeps(env, hekate, actions);
    var w := Exec(env, hekate, EMPTY_WORLD, actions);
    CurrentIsBase(env, w);
    SeedIdsMeaning(w.store.ledger, 0, w.store.state.sleepCursor);
  }

  /** However the coordinators race, at most one run is running, it starts at the
      cursor, and the cursor stays within the ledger. */
  lemma OneRunningRun(env: Env, hekate: PrincipalId, actions: seq<Action>, i: SleepRunId, j: SleepRunId)
    requires var s := Exec(env, hekate, EMPTY_WORLD, actions).store.state;
             && i in s.sleepRuns && s.sleepRuns[i].status.Running?
             && j in s.sleepRuns && s.sleepRuns[j].status.Running?
    ensures var s := Exec(env, hekate, EMPTY_WORLD, actions).store.state;
            i == j && s.sleepRuns[i].cursorBefore == s.sleepCursor <= s.sleepRuns[i].highWater <= s.revision
  {
    ExecKeeps(env, hekate, actions);
    CurrentIsBase(env, Exec(env, hekate, EMPTY_WORLD, actions));
  }

  lemma SingleCommitCursor(env: Env, w: World, c: nat, base: State, e: Event)
    requires WorldOk(env, w) && Base(env, w.store.ledger, base)
    requires e.body.SleepRunEvent? && !e.body.sleepKind.Completed?
    ensures var result := CommitRun(env, w, c, base, [e]);
            result.Ok? ==> result.value.state.sleepCursor == w.store.state.sleepCursor
                           && w.store.ledger <= result.value.ledger
  {
    hide After, BodyAccepted;
    if CommitRun(env, w, c, base, [e]).Ok? {
      CommitIsCurrent(env, w, base, [e]);
      ApplyOne(env, base, e);
      SleepStep(env, base, e);
    }
  }

  /** Loading, planning, giving up and crashing leave the store alone. */
  lemma PlainStep(env: Env, hekate: PrincipalId, w: World, a: Action)
    requires a.Observe? || a.Plan? || a.Resume? || a.Preempt? || a.Abandon? || a.Crash?
    ensures Next(env, hekate, w, a).store == w.store
  {
    hide CommitRun, RecordBatch, Step;
  }

  /** Starting, failing and interrupting a run leave the cursor alone. */
  lemma SingleStepCursor(env: Env, hekate: PrincipalId, w: World, a: Action)
    requires WorldOk(env, w) && (a.CommitStart? || a.CommitFail? || a.CommitInterrupt?)
    ensures var next := Next(env, hekate, w, a);
            w.store.state.sleepCursor == next.store.state.sleepCursor && w.store.ledger <= next.store.ledger
  {
    hide Step, CommitRun, RecordBatch;
    var k := CoordinatorOf(w, a.c);
    if a.CommitStart? && k.Planned? {
      SingleCommitCursor(env, w, a.c, k.base, SleepEvent(env, hekate, a.event, SleepEventKind.Started, k.run));
    } else if a.CommitFail? && k.Failing? {
      SingleCommitCursor(env, w, a.c, k.base, SleepEvent(env, hekate, a.event, SleepEventKind.Failed, FailedRun(k.run)));
    } else if a.CommitInterrupt? && k.Interrupting? {
      SingleCommitCursor(env, w, a.c, k.base,
                         SleepEvent(env, hekate, a.event, SleepEventKind.Interrupted, InterruptedRun(k.run)));
    }
  }

  /** No step moves the cursor back or shortens the ledger, and only a completed
      run moves the cursor. */
  lemma CursorMonotone(env: Env, hekate: PrincipalId, w: World, a: Action)
    requires WorldOk(env, w)
    ensures var next := Next(env, hekate, w, a);
            && w.store.state.sleepCursor <= next.store.state.sleepCursor
            && (w.store.state.sleepCursor < next.store.state.sleepCursor ==> a.CommitFinish?)
            && w.store.ledger <= next.store.ledger
  {
    hide Next, WorldOk;
    match a
    case CommitFinish(c, candidates, event) => FinishStepKeeps(env, hekate, w, c, candidates, event);
    case Foreign(events, expected) => ForeignKeeps(env, hekate, w, events, expected);
    case CommitStart(_, _) => SingleStepCursor(env, hekate, w, a);
    case CommitFail(_, _) => SingleStepCursor(env, hekate, w, a);
    case CommitInterrupt(_, _) => SingleStepCursor(env, hekate, w, a);
    case _ => PlainStep(env, hekate, w, a);
  }

  // ---------------------------------------------------------------- progress of a coordinator left alone

  lemma WindowNow(env: Env, w: World)
    requires WorldOk(env, w)
    ensures Window(w.store.ledger, w.store.state)
            == SeedsBetween(w.store.ledger, w.store.state.sleepCursor, |w.store.ledger|)
  {
    hide Step, RunOk;
    CurrentIsBase(env, w);
    WindowOfBase(env, w, w.store.state);
  }

  /** The record of a new run lands. */
  lemma StartLands(env: Env, hekate: PrincipalId, st: Store, event: EventId, run: SleepRun)
    requires Consistent(env, st) && event !in st.state.applied && SleepStartAccepted(st.state, run)
    ensures var e := SleepEvent(env, hekate, event, SleepEventKind.Started, run);
            var r := RecordBatch(env, st, [e], Some(st.state.revision));
            && r.Ok? && r.value.ledger == st.ledger + [e]
            && r.value.state.sleepRuns == st.state.sleepRuns[run.id := run]
            && r.value.state.sleepCursor == st.state.sleepCursor
  {
    var e := SleepEvent(env, hekate, event, SleepEventKind.Started, run);
    SleepRecord(env, st.state, e);
    hide Step, SleepEvent, SleepStartAccepted;
    ReplayCounts(env, st.ledger);
    ApplyOne(env, st.state, e);
    RecordBatchLands(env, st, [e], Some(st.state.revision));
  }

  lemma SleepRecord(env: Env, s: State, e: Event)
    requires e.body.SleepRunEvent? && e.id !in s.applied && SleepRunAccepted(s, e.body.sleepKind, e.body.run)
    ensures Step(env, s, e).Some?
    ensures var t := Step(env, s, e).value;
            && t.sleepRuns == s.sleepRuns[e.body.run.id := e.body.run]
            && t.sleepCursor == if e.body.sleepKind.Completed? then e.body.run.cursorAfter.value else s.sleepCursor
  {
  }

  /** While no run is running, a coordinator that is left alone starts one on as many of
      the observations after the cursor as it likes, up to the whole ledger, and holds it. */
  lemma StartsAlone(env: Env, hekate: PrincipalId, w: World, c: nat, id: SleepRunId, size: nat, event: EventId)
    requires WorldOk(env, w) && CoordinatorOf(w, c).Idle? && !HasRunningRun(w.store.state)
    requires id !in w.store.state.sleepRuns && event !in w.store.state.applied
    requires 0 < size <= |SeedsBetween(w.store.ledger, w.store.state.sleepCursor, |w.store.ledger|)|
    ensures var ledger, cursor := w.store.ledger, w.store.state.sleepCursor;
            var all := SeedsBetween(ledger, cursor, |ledger|);
            var run := SleepRun.SleepRun(id, SleepRunStatus.Running, |ledger|, cursor, None, SeedIds(all[..size]));
            var next := Next(env, hekate, Next(env, hekate, Next(env, hekate, w, Observe(c)), Plan(c, id, size, false)),
                             CommitStart(c, event));
            && WorldOk(env, next)
            && CoordinatorOf(next, c) == Holding(next.store.state, run, Some(all[size - 1].sequence))
            && ledger <= next.store.ledger && |next.store.ledger| == |ledger| + 1
            && next.store.state.sleepRuns == w.store.state.sleepRuns[id := run]
            && next.store.state.sleepCursor == cursor
  {
    hide Step, RunOk, WorldOk, RecordBatch, SeedsBetween, SleepEvent, Window;
    var s := w.store.state;
    var w1 := Next(env, hekate, w, Observe(c));
    var w2 := Next(env, hekate, w1, Plan(c, id, size, false));
    CurrentIsBase(env, w);
    WindowNow(env, w);
    var all := Window(w.store.ledger, s);
    var run := RunningRun(id, s, all[..size]);
    assert all[..size][size - 1] == all[size - 1];
    assert CoordinatorOf(w2, c) == Coordinator.Planned(s, run, Some(all[size - 1].sequence), false);
    StartLands(env, hekate, w.store, event, run) by { WorldIsConsistent(env, w); }
    NextKeeps(env, hekate, w, Observe(c));
    NextKeeps(env, hekate, w1, Plan(c, id, size, false));
    NextKeeps(env, hekate, w2, CommitStart(c, event));
  }

  lemma WorldIsConsistent(env: Env, w: World)
    requires WorldOk(env, w)
    ensures Consistent(env, w.store)
    ensures forall id | id in w.store.state.sleepRuns :: w.store.state.sleepRuns[id].id == id
  {
    hide Step, RunOk;
  }

  /** A run that a crash left behind is taken up by any coordinator that is left alone,
      and is to end at the ledger's place of its last seed. */
  lemma ResumesAlone(env: Env, hekate: PrincipalId, w: World, c: nat, id: SleepRunId)
    requires WorldOk(env, w) && CoordinatorOf(w, c).Idle?
    requires id in w.store.state.sleepRuns && w.store.state.sleepRuns[id].status.Running?
    requires w.store.state.sleepRuns[id].seeds != []
    ensures var next := Next(env, hekate, Next(env, hekate, w, Observe(c)), Resume(c, id, false));
            var run := w.store.state.sleepRuns[id];
            && WorldOk(env, next) && next.store == w.store
            && exists n: nat ::
                 && CoordinatorOf(next, c) == Holding(w.store.state, run, Some(n))
                 && 0 < n <= |w.store.ledger| && w.store.ledger[n - 1].id == run.seeds[|run.seeds| - 1]
  {
    hide Step, RunOk, WorldOk, SeedOf, DecodeSeed;
    var w1 := Next(env, hekate, w, Observe(c));
    CurrentIsBase(env, w);
    NextKeeps(env, hekate, w, Observe(c));
    NextKeeps(env, hekate, w1, Resume(c, id, false));
    ResumeDecodes(env, w, w.store.state, id);
    var run := w.store.state.sleepRuns[id];
    var seeds := DecodeAll(w.store.ledger, run.seeds, run.highWater);
    assert |seeds| == |run.seeds|;
    CursorPlace(w.store.ledger, run);
  }

  lemma CursorPlace(ledger: seq<Event>, run: SleepRun)
    requires run.seeds != [] && RunCursorAfter(ledger, run).Some?
    ensures var n := RunCursorAfter(ledger, run).value;
            0 < n <= |ledger| && ledger[n - 1].id == run.seeds[|run.seeds| - 1]
  {
  }

  /** Any run that is still running can be ended as failed, and then none is running and
      the cursor is where it was: no crash stops Sleep for good. */
  lemma EndsAlone(env: Env, hekate: PrincipalId, w: World, c: nat, id: SleepRunId, event: EventId)
    requires WorldOk(env, w) && CoordinatorOf(w, c).Idle? && event !in w.store.state.applied
    requires id in w.store.state.sleepRuns && w.store.state.sleepRuns[id].status.Running?
    ensures var next := Next(env, hekate, Next(env, hekate, Next(env, hekate, w, Observe(c)), Resume(c, id, true)),
                             CommitFail(c, event));
            && WorldOk(env, next) && CoordinatorOf(next, c).Idle?
            && !HasRunningRun(next.store.state)
            && id in next.store.state.sleepRuns && next.store.state.sleepRuns[id].status.Failed?
            && next.store.state.sleepCursor == w.store.state.sleepCursor
  {
    hide Step, RunOk, RecordBatch, SleepEvent, DecodeAll;
    var s, run := w.store.state, w.store.state.sleepRuns[id];
    var w1 := Next(env, hekate, w, Observe(c));
    var w2 := Next(env, hekate, w1, Resume(c, id, true));
    CurrentIsBase(env, w);
    assert CoordinatorOf(w2, c) == Failing(s, run);
    FailLands(env, hekate, w.store, event, run);
    NextKeeps(env, hekate, w, Observe(c));
    NextKeeps(env, hekate, w1, Resume(c, id, true));
    NextKeeps(env, hekate, w2, CommitFail(c, event));
  }

  lemma FailLands(env: Env, hekate: PrincipalId, st: Store, event: EventId, run: SleepRun)
    requires Consistent(env, st) && event !in st.state.applied
    requires run.id in st.state.sleepRuns && st.state.sleepRuns[run.id] == run && run.status.Running?
    ensures var e := SleepEvent(env, hekate, event, SleepEventKind.Failed, FailedRun(run));
            var r := RecordBatch(env, st, [e], Some(st.state.revision));
            && r.Ok?
            && r.value.state.sleepRuns == st.state.sleepRuns[run.id := run.(status := SleepRunStatus.Failed, cursorAfter := None)]
            && r.value.state.sleepCursor == st.state.sleepCursor
  {
    var e := SleepEvent(env, hekate, event, SleepEventKind.Failed, FailedRun(run));
    SleepRecord(env, st.state, e);
    hide Step, SleepEvent;
    ReplayCounts(env, st.ledger);
    ApplyOne(env, st.state, e);
    RecordBatchLands(env, st, [e], Some(st.state.revision));
  }
}
