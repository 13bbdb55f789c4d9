/** Many writers racing for one ledger: each loads, projects and commits in
    separate steps. */
module WriterRace {
  import opened Prelude
  import opened Model
  import opened Projector
  import opened Ledger

  /** A writer between its load and its commit keeps the state it loaded, the
      state it projected, and the batch. */
  datatype Writer =
    | Idle
    | Projected(base: State, offered: State, events: seq<Event>, expected: Option<nat>)

  datatype World = World(store: Store, writers: map<nat, Writer>)

  datatype Action =
    | Load(writer: nat, events: seq<Event>, expected: Option<nat>)
    | Commit(writer: nat)
    | Crash(writer: nat)

  function WriterOf(w: World, id: nat): Writer {
    if id in w.writers then w.writers[id] else Idle
  }

  function Next(env: Env, w: World, a: Action): World {
    match a
    case Load(id, events, expected) =>
      var base := w.store.state;
      if expected.Some? && base.revision != expected.value then w.(writers := w.writers[id := Idle])
      else
        (match ApplyAll(env, base, events)
         case None => w.(writers := w.writers[id := Idle])
         case Some(offered) => w.(writers := w.writers[id := Projected(base, offered, events, expected)]))
    case Commit(id) =>
      (match WriterOf(w, id)
       case Idle => w
       case Projected(_, offered, events, expected) =>
         match CommitBatch(env, w.store, events, offered, expected)
         case Err(_) => w.(writers := w.writers[id := Idle])
         case Ok(store) => World(store, w.writers[id := Idle]))
    case Crash(id) => w.(writers := w.writers[id := Idle])
  }

  function Exec(env: Env, w: World, actions: seq<Action>): World {
    if actions == [] then w
    else Next(env, Exec(env, w, actions[..|actions| - 1]), actions[|actions| - 1])
  }

  ghost predicate WriterOk(env: Env, ledger: seq<Event>, writer: Writer) {
    writer.Projected? ==>
      && Snapshot(env, ledger, writer.base)
      && ApplyAll(env, writer.base, writer.events) == Some(writer.offered)
  }

  ghost predicate WorldOk(env: Env, w: World) {
    && Consistent(env, w.store)
    && forall id | id in w.writers :: WriterOk(env, w.store.ledger, w.writers[id])
  }

  lemma CommitExtends(env: Env, st: Store, events: seq<Event>, offered: State, expected: Option<nat>)
    requires CommitBatch(env, st, events, offered, expected).Ok?
    ensures CommitBatch(env, st, events, offered, expected).value == Store(st.ledger + events, offered)
  {
    hide FirstDamaged, Ids;
  }

  lemma NextKeepsWorld(env: Env, w: World, a: Action)
    requires WorldOk(env, w)
    ensures WorldOk(env, Next(env, w, a))
    ensures var next := Next(env, w, a).store;
            next == w.store ||
            (a.Commit? && WriterOf(w, a.writer).Projected?
             && WriterOf(w, a.writer).base == w.store.state
             && next.ledger == w.store.ledger + WriterOf(w, a.writer).events
             && ApplyAll(env, w.store.state, WriterOf(w, a.writer).events) == Some(next.state))
  {
    hide Step, Replay, CommitBatch, Ids;
    match a
    case Load(_, _, _) => CurrentIsSnapshot(env, w.store);
    case Crash(_) =>
    case Commit(id) =>
      var writer := WriterOf(w, id);
      if writer.Projected? && CommitBatch(env, w.store, writer.events, writer.offered, writer.expected).Ok? {
        CommitLandsOnCurrent(env, w.store, writer.base, writer.events, writer.offered, writer.expected);
        CommitExtends(env, w.store, writer.events, writer.offered, writer.expected);
        forall k | k in w.writers ensures WriterOk(env, w.store.ledger + writer.events, w.writers[k]) {
          if w.writers[k].Projected? {
            SnapshotGrows(env, w.store.ledger, writer.events, w.writers[k].base);
          }
        }
      }
  }

  /** A commit lands exactly when its batch is there and intact, nobody committed since
      its writer loaded, and the revision is the one it expects; else nothing changes. */
  lemma CommitLandsExactly(env: Env, w: World, id: nat)
    requires WorldOk(env, w) && WriterOf(w, id).Projected?
    ensures var k, next := WriterOf(w, id), Next(env, w, Commit(id)).store;
            if k.events != [] && AllIntact(env, k.events) && k.base == w.store.state
               && (k.expected.Some? ==> k.expected.value == |w.store.ledger|)
            then next == Store(w.store.ledger + k.events, k.offered)
            else next == w.store
  {
    hide Step, Replay, CommitBatch, AllIntact;
    var k := WriterOf(w, id);
    ReplayCounts(env, w.store.ledger);
    ReplayCounts(env, w.store.ledger[..k.base.revision]);
    ApplyAllCounts(env, k.base, k.events);
    CommitCounts(env, Store(w.store.ledger[..k.base.revision], k.base), k.events, k.offered, None);
    CommitExactly(env, w.store, k.events, k.offered, k.expected);
    if CommitBatch(env, w.store, k.events, k.offered, k.expected).Ok? {
      CommitLandsOnCurrent(env, w.store, k.base, k.events, k.offered, k.expected);
    }
  }

  /** Under any interleaving of loads, commits and crashes of any number of
      writers, the stored state is the replay of the ledger, the revision is its
      length and no event identifier is applied twice. */
  lemma {:induction false} RaceKeepsLedger(env: Env, actions: seq<Action>)
    ensures var w := Exec(env, World(EMPTY_STORE, map[]), actions);
            && WorldOk(env, w)
            && w.store.state.revision == |w.store.ledger|
            && w.store.state.applied == Ids(w.store.ledger)
            && Distinct(Ids(w.store.ledger))
  {
    if actions != [] {
      var front := actions[..|actions| - 1];
      RaceKeepsLedger(env, front);
      NextKeepsWorld(env, Exec(env, World(EMPTY_STORE, map[]), front), actions[|actions| - 1]);
    }
    ReplayCounts(env, Exec(env, World(EMPTY_STORE, map[]), actions).store.ledger);
  }

  /** No interleaving of writers makes recovery fail, and it reports what is open. */
  lemma RaceRecovers(env: Env, actions: seq<Action>)
    ensures var st := Exec(env, World(EMPTY_STORE, map[]), actions).store;
            var r := Recover(env, st);
            && r.Ok? && r.value.revision == |st.ledger|
            && (forall id :: id in r.value.pendingApprovals <==>
                  id in st.state.approvals && st.state.approvals[id].status.Pending?)
            && (forall id :: id in r.value.unknownOperations <==>
                  id in st.state.operations
                  && (st.state.operations[id].status.Started? || st.state.operations[id].status.Unknown?))
  {
    hide Recover, Next;
    RaceKeepsLedger(env, actions);
    RecoverExactly(env, Exec(env, World(EMPTY_STORE, map[]), actions).store);
  }
}
