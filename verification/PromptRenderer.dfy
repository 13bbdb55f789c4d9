/** Rendering a foreground thought: which evidence is required, which is optional,
    and what an accepted answer may cite. */
module PromptRenderer {
  import opened Prelude
  import opened Ordering
  import opened Model
  import opened PromptBudget
  import opened Selection

  // ---------------------------------------------------------------- the thought context

  datatype ItemKind =
    Identity | Policy | Focus | Relationship | Memory | Position | Conflict | Goal | Task | Run | WorkingState | Artifact
    | RecentObservation | RecentEvent | Recall
  datatype ContextItem = ContextItem(kind: ItemKind, text: string, sources: seq<EventId>, entity: Option<EntityRef>)
  datatype Recalled = Recalled(source: EventId, score: real, text: string, entity: EntityRef)
  datatype RelevantEvent = RelevantEvent(id: EventId, value: string, observation: Option<ObservationId>)
  datatype Snapshot = Snapshot(
    anchors: seq<ContextItem>, activeRecent: seq<ContextItem>, compressedMiddle: seq<ContextItem>,
    sourceRefs: seq<EventId>)

  /** The parts of the runtime state that are present beside Positions and conflicts. */
  datatype Presence = Presence(
    identity: bool, relationship: bool, goal: bool, task: bool, run: bool, workingState: bool, focus: bool)

  datatype ThoughtContext = ThoughtContext(
    observation: ObservationId, currentEvent: Option<EventId>, present: Presence, positions: seq<Position>,
    userPositions: seq<Position>, conflicts: seq<Conflict>, recall: seq<Recalled>, relevant: seq<RelevantEvent>,
    recentEvents: seq<EventId>, snapshot: Option<Snapshot>, sequence: nat, hash: string)

  /** JSON texts of the rendered values, about which nothing is assumed. */
  datatype Renderer = Renderer(
    system: string,
    item: ContextItem -> string,
    recall: Recalled -> string,
    event: RelevantEvent -> string,
    required: (ThoughtContext, seq<string>) -> string)

  // ---------------------------------------------------------------- optional items

  predicate HigherScore(a: Recalled, b: Recalled) {
    a.score >= b.score
  }

  function RecallItems(r: Renderer, items: seq<Recalled>): (out: seq<PromptItem>)
    ensures |out| == |items|
    ensures forall i | 0 <= i < |items| :: out[i].evidence == [items[i].source] && out[i].value == r.recall(items[i])
  {
    seq(|items|, i requires 0 <= i < |items| => PromptItem(r.recall(items[i]), [items[i].source]))
  }

  function Items(r: Renderer, items: seq<ContextItem>): (out: seq<PromptItem>)
    ensures |out| == |items|
    ensures forall i | 0 <= i < |items| :: out[i].evidence == items[i].sources && out[i].value == r.item(items[i])
  {
    seq(|items|, i requires 0 <= i < |items| => PromptItem(r.item(items[i]), items[i].sources))
  }

  function EventItems(r: Renderer, events: seq<RelevantEvent>): (out: seq<PromptItem>)
    ensures |out| == |events|
    ensures forall i | 0 <= i < |events| :: out[i].evidence == [events[i].id] && out[i].value == r.event(events[i])
  {
    seq(|events|, i requires 0 <= i < |events| => PromptItem(r.event(events[i]), [events[i].id]))
  }

  function Filter<T>(keep: T -> bool, s: seq<T>): seq<T> {
    if s == [] then [] else Filter(keep, s[..|s| - 1]) + (if keep(s[|s| - 1]) then [s[|s| - 1]] else [])
  }

  function Reverse<T>(s: seq<T>): seq<T> {
    if s == [] then [] else [s[|s| - 1]] + Reverse(s[..|s| - 1])
  }

  function SourcesOf(recalled: seq<Recalled>): set<EventId> {
    set i | i in recalled :: i.source
  }

  function RecallSources(items: seq<ContextItem>): set<EventId> {
    set i, e | i in items && i.kind.Recall? && e in i.sources :: e
  }

  predicate Disjoint(ids: seq<EventId>, chosen: set<EventId>) {
    forall e | e in ids :: e !in chosen
  }

  /** Recalls first, then recent items from the newest, then older context. */
  function OptionalItems(r: Renderer, c: ThoughtContext): seq<PromptItem> {
    match c.snapshot
    case Some(snapshot) =>
      var active := snapshot.activeRecent;
      var inSnapshot := RecallSources(active);
      var recalls := Sort(HigherScore, Filter((i: Recalled) => i.source in inSnapshot, c.recall));
      var chosen := SourcesOf(recalls);
      RecallItems(r, recalls)
      + Items(r, Filter((i: ContextItem) => !i.kind.Recall? && Disjoint(i.sources, chosen), Reverse(active)))
      + Items(r, Filter((i: ContextItem) => i.kind.Recall? && Disjoint(i.sources, chosen), active))
      + Items(r, snapshot.compressedMiddle)
    case None =>
      var recalls := Sort(HigherScore, c.recall);
      var chosen := SourcesOf(recalls);
      RecallItems(r, recalls)
      + EventItems(r, Filter((e: RelevantEvent) => e.observation != Some(c.observation) && e.id !in chosen,
                             Reverse(c.relevant)))
  }

  // ---------------------------------------------------------------- what the optional items are, in which order

  function LastMeets<T>(want: T -> bool): (nat, seq<T>) -> bool {
    (i: nat, list: seq<T>) => list != [] && want(list[|list| - 1])
  }

  /** The elements of a list that are wanted, in their order. */
  ghost predicate Picked<T>(want: T -> bool, s: seq<T>, out: seq<T>) {
    exists places :: TakenInTurn(LastMeets(want), s, out, places)
  }

  lemma {:induction false} FilterPicks<T(!new)>(keep: T -> bool, want: T -> bool, s: seq<T>)
    requires forall x :: keep(x) <==> want(x)
    ensures Picked(want, s, Filter(keep, s))
  {
    hide TakenInTurn;
    if s == [] {
      NothingTaken(LastMeets(want));
    } else {
      var front, last := s[..|s| - 1], s[|s| - 1];
      FilterPicks(keep, want, front);
      var kept := Filter(keep, front);
      var places :| TakenInTurn(LastMeets(want), front, kept, places);
      TakeNext(LastMeets(want), front, kept, places, last);
      assert front + [last] == s;
      assert (kept + [last])[|kept + [last]| - 1] == last;
      assert LastMeets(want)(|front|, kept + [last]) <==> keep(last);
      assert Filter(keep, s) == if keep(last) then kept + [last] else kept;
    }
  }

  ghost predicate Backwards<T>(s: seq<T>, out: seq<T>) {
    |out| == |s| && forall i | 0 <= i < |s| :: out[i] == s[|s| - 1 - i]
  }

  lemma {:induction false} ReverseIsBackwards<T>(s: seq<T>)
    ensures Backwards(s, Reverse(s))
  {
    if s != [] { ReverseIsBackwards(s[..|s| - 1]); }
  }

  lemma {:induction false} FilterConcat<T>(keep: T -> bool, a: seq<T>, b: seq<T>)
    ensures Filter(keep, a + b) == Filter(keep, a) + Filter(keep, b)
  {
    if b == [] {
      assert a + b == a;
    } else {
      FilterConcat(keep, a, b[..|b| - 1]);
      assert (a + b)[..|a + b| - 1] == a + b[..|b| - 1];
    }
  }

  function Scoring(score: real): Recalled -> bool {
    (i: Recalled) => i.score == score
  }

  /** The same recalls from the highest score down; equal scores keep their order. */
  ghost predicate ByScore(items: seq<Recalled>, out: seq<Recalled>) {
    && multiset(out) == multiset(items)
    && ScoresFall(out)
    && forall score :: Filter(Scoring(score), out) == Filter(Scoring(score), items)
  }

  ghost predicate ScoresFall(s: seq<Recalled>) {
    forall i, j | 0 <= i < j < |s| :: s[i].score >= s[j].score
  }

  ghost predicate Below(s: seq<Recalled>, bound: real) {
    forall i | 0 <= i < |s| :: s[i].score <= bound
  }

  lemma FirstFalls(x: Recalled, s: seq<Recalled>, bound: real)
    requires ScoresFall(s) && Below(s, x.score) && x.score <= bound
    ensures ScoresFall([x] + s) && Below([x] + s, bound)
  {
    var all := [x] + s;
    forall j | 0 < j < |all| ensures all[j].score <= x.score { assert all[j] == s[j - 1]; }
    forall i, j | 0 < i < j < |all| ensures all[i].score >= all[j].score {
      assert all[i] == s[i - 1] && all[j] == s[j - 1];
    }
  }

  lemma TailFalls(s: seq<Recalled>)
    requires ScoresFall(s) && s != []
    ensures ScoresFall(s[1..]) && Below(s[1..], s[0].score) && Below(s, s[0].score)
  {
    var rest := s[1..];
    forall i, j | 0 <= i < j < |rest| ensures rest[i].score >= rest[j].score {
      assert rest[i] == s[i + 1] && rest[j] == s[j + 1];
    }
    forall i | 0 <= i < |rest| ensures rest[i].score <= s[0].score { assert rest[i] == s[i + 1]; }
    forall i | 0 <= i < |s| ensures s[i].score <= s[0].score { assert i > 0 ==> s[0].score >= s[i].score; }
  }

  lemma {:induction false} InsertFalls(x: Recalled, s: seq<Recalled>, bound: real)
    requires ScoresFall(s) && Below(s, bound) && x.score <= bound
    ensures ScoresFall(Insert(HigherScore, x, s)) && Below(Insert(HigherScore, x, s), bound)
  {
    if s == [] {
      FirstFalls(x, s, bound);
      assert [x] + s == [x];
    } else {
      TailFalls(s);
      assert s[0].score <= bound;
      if HigherScore(x, s[0]) {
        assert Below(s, x.score);
        FirstFalls(x, s, bound);
      } else {
        InsertFalls(x, s[1..], s[0].score);
        FirstFalls(s[0], Insert(HigherScore, x, s[1..]), bound);
      }
    }
  }

  lemma FilterFirst<T>(keep: T -> bool, x: T, s: seq<T>)
    ensures Filter(keep, [x] + s) == (if keep(x) then [x] else []) + Filter(keep, s)
  {
    FilterConcat(keep, [x], s);
    FilterOne(keep, x);
  }

  /** Among equal scores the new one comes first. */
  lemma {:induction false} InsertStable(x: Recalled, s: seq<Recalled>, score: real)
    ensures Filter(Scoring(score), Insert(HigherScore, x, s)) == Filter(Scoring(score), [x] + s)
  {
    if s != [] && !HigherScore(x, s[0]) {
      InsertBehind(x, s[0], s[1..], score);
      assert s == [s[0]] + s[1..];
    }
  }

  lemma FilterSwaps<T>(keep: T -> bool, x: T, y: T, s: seq<T>, rest: seq<T>)
    requires !keep(x) || !keep(y)
    requires Filter(keep, rest) == Filter(keep, [x] + s)
    ensures Filter(keep, [y] + rest) == Filter(keep, [x] + ([y] + s))
  {
    hide Filter;
    FilterFirst(keep, y, rest);
    FilterFirst(keep, x, s);
    FilterFirst(keep, x, [y] + s);
    FilterFirst(keep, y, s);
  }

  lemma {:induction false} InsertBehind(x: Recalled, y: Recalled, s: seq<Recalled>, score: real)
    requires y.score > x.score
    ensures Filter(Scoring(score), [y] + Insert(HigherScore, x, s)) == Filter(Scoring(score), [x] + ([y] + s))
    decreases |s|
  {
    hide Filter;
    var rest := Insert(HigherScore, x, s);
    if s != [] && !HigherScore(x, s[0]) {
      InsertBehind(x, s[0], s[1..], score);
      assert s == [s[0]] + s[1..];
      assert rest == [s[0]] + Insert(HigherScore, x, s[1..]);
    } else {
      assert rest == [x] + s;
    }
    hide Insert;
    FilterSwaps(Scoring(score), x, y, s, rest);
  }

  /** A score no recall of the list exceeds. */
  ghost function Bound(s: seq<Recalled>): (bound: real)
    ensures Below(s, bound)
  {
    if s == [] then 0.0
    else
      var rest := Bound(s[1..]);
      assert forall i | 0 < i < |s| :: s[i] == s[1..][i - 1];
      if s[0].score <= rest then rest else s[0].score
  }

  lemma FilterOne<T>(keep: T -> bool, x: T)
    ensures Filter(keep, [x]) == if keep(x) then [x] else []
  {
    assert [x][..0] == [];
  }

  lemma {:induction false} SortByScore(items: seq<Recalled>)
    ensures ByScore(items, Sort(HigherScore, items))
  {
    if items != [] {
      var rest := Sort(HigherScore, items[1..]);
      SortByScore(items[1..]);
      SortMultiset(HigherScore, items);
      forall score
        ensures Filter(Scoring(score), Sort(HigherScore, items)) == Filter(Scoring(score), items)
      {
        InsertStable(items[0], rest, score);
        FilterConcat(Scoring(score), [items[0]], rest);
        FilterConcat(Scoring(score), [items[0]], items[1..]);
        assert items == [items[0]] + items[1..];
      }
      var bound := Bound([items[0]] + rest);
      InsertFalls(items[0], rest, bound);
    }
  }

  /** A recall the snapshot still shows. */
  predicate Shown(active: seq<ContextItem>, i: Recalled) {
    exists a | a in active :: a.kind.Recall? && i.source in a.sources
  }

  /** No recall rests on any of these events. */
  predicate Uncovered(ids: seq<EventId>, recalls: seq<Recalled>) {
    forall i | i in recalls :: i.source !in ids
  }

  /** The optional items of a snapshot: the recalls it shows by score, the other recent
      items from the newest, the recalls left over, and older context. */
  ghost predicate SnapshotItems(
    r: Renderer, c: ThoughtContext, snapshot: Snapshot, shown: seq<Recalled>, recalls: seq<Recalled>,
    newest: seq<ContextItem>, recent: seq<ContextItem>, others: seq<ContextItem>)
  {
    && Picked((i: Recalled) => Shown(snapshot.activeRecent, i), c.recall, shown) && ByScore(shown, recalls)
    && Backwards(snapshot.activeRecent, newest)
    && Picked((i: ContextItem) => !i.kind.Recall? && Uncovered(i.sources, recalls), newest, recent)
    && Picked((i: ContextItem) => i.kind.Recall? && Uncovered(i.sources, recalls), snapshot.activeRecent, others)
    && OptionalItems(r, c)
       == RecallItems(r, recalls) + Items(r, recent) + Items(r, others) + Items(r, snapshot.compressedMiddle)
  }

  /** The optional items without a snapshot: all recalls by score, then the relevant
      events from the newest, but for the observation itself and what was recalled. */
  ghost predicate EventsAndRecalls(
    r: Renderer, c: ThoughtContext, recalls: seq<Recalled>, newest: seq<RelevantEvent>, events: seq<RelevantEvent>)
  {
    && ByScore(c.recall, recalls) && Backwards(c.relevant, newest)
    && Picked((e: RelevantEvent) => e.observation != Some(c.observation) && Uncovered([e.id], recalls), newest, events)
    && OptionalItems(r, c) == RecallItems(r, recalls) + EventItems(r, events)
  }

  lemma SnapshotOrder(r: Renderer, c: ThoughtContext)
    requires c.snapshot.Some?
    ensures exists shown, recalls, newest, recent, others ::
              SnapshotItems(r, c, c.snapshot.value, shown, recalls, newest, recent, others)
  {
    hide Picked, ByScore, Backwards, Filter, Reverse, Sort;
    var snapshot := c.snapshot.value;
    var active := snapshot.activeRecent;
    var inSnapshot := RecallSources(active);
    var keep := (i: Recalled) => i.source in inSnapshot;
    var shown := Filter(keep, c.recall);
    FilterPicks(keep, (i: Recalled) => Shown(active, i), c.recall);
    SortByScore(shown);
    var recalls := Sort(HigherScore, shown);
    var chosen := SourcesOf(recalls);
    var recent := (i: ContextItem) => !i.kind.Recall? && Disjoint(i.sources, chosen);
    var left := (i: ContextItem) => i.kind.Recall? && Disjoint(i.sources, chosen);
    ReverseIsBackwards(active);
    FilterPicks(recent, (i: ContextItem) => !i.kind.Recall? && Uncovered(i.sources, recalls), Reverse(active));
    FilterPicks(left, (i: ContextItem) => i.kind.Recall? && Uncovered(i.sources, recalls), active);
    assert SnapshotItems(r, c, snapshot, shown, recalls, Reverse(active), Filter(recent, Reverse(active)), Filter(left, active));
  }

  lemma EventOrder(r: Renderer, c: ThoughtContext)
    requires c.snapshot.None?
    ensures exists recalls, newest, events :: EventsAndRecalls(r, c, recalls, newest, events)
  {
    hide Picked, ByScore, Backwards, Filter, Reverse, Sort;
    SortByScore(c.recall);
    var recalls := Sort(HigherScore, c.recall);
    var chosen := SourcesOf(recalls);
    var keep := (e: RelevantEvent) => e.observation != Some(c.observation) && e.id !in chosen;
    ReverseIsBackwards(c.relevant);
    FilterPicks(keep, (e: RelevantEvent) => e.observation != Some(c.observation) && Uncovered([e.id], recalls),
                Reverse(c.relevant));
    assert EventsAndRecalls(r, c, recalls, Reverse(c.relevant), Filter(keep, Reverse(c.relevant)));
  }

  // ---------------------------------------------------------------- required evidence

  predicate AnchorPresent(c: ThoughtContext, a: ContextItem) {
    match a.kind
    case Identity => c.present.identity
    case Policy => c.present.identity
    case Relationship => c.present.relationship
    case Goal => c.present.goal
    case Task => c.present.task
    case Run => c.present.run
    case WorkingState => c.present.workingState
    case Focus => c.present.focus
    case Position => a.entity.Some? && exists p | p in c.positions + c.userPositions :: p.id == a.entity.value.id
    case Conflict => a.entity.Some? && exists k | k in c.conflicts :: k.id == a.entity.value.id
    case _ => false
  }

  function AnchorIds(c: ThoughtContext, anchors: seq<ContextItem>): seq<EventId> {
    if anchors == [] then []
    else
      AnchorIds(c, anchors[..|anchors| - 1])
      + (if AnchorPresent(c, anchors[|anchors| - 1]) then anchors[|anchors| - 1].sources else [])
  }

  function InitialIds(c: ThoughtContext): seq<EventId> {
    (if c.snapshot.Some? then AnchorIds(c, c.snapshot.value.anchors) else [])
    + (if c.currentEvent.Some? then [c.currentEvent.value] else [])
  }

  function PositionEvidence(positions: seq<Position>): seq<EventId> {
    if positions == [] then [] else PositionEvidence(positions[..|positions| - 1]) + positions[|positions| - 1].evidence
  }

  function ConflictEvidence(conflicts: seq<Conflict>): seq<EventId> {
    if conflicts == [] then [] else ConflictEvidence(conflicts[..|conflicts| - 1]) + conflicts[|conflicts| - 1].evidence
  }

  /** Every event the rendered state records rest on. */
  function Dependencies(c: ThoughtContext): seq<EventId> {
    PositionEvidence(c.positions + c.userPositions) + ConflictEvidence(c.conflicts)
  }

  lemma {:induction false} PositionEvidenceHas(positions: seq<Position>, p: Position, e: EventId)
    requires p in positions && e in p.evidence
    ensures e in PositionEvidence(positions)
  {
    var front, last := positions[..|positions| - 1], positions[|positions| - 1];
    assert positions == front + [last];
    if p in front { PositionEvidenceHas(front, p, e); }
  }

  lemma {:induction false} ConflictEvidenceHas(conflicts: seq<Conflict>, k: Conflict, e: EventId)
    requires k in conflicts && e in k.evidence
    ensures e in ConflictEvidence(conflicts)
  {
    var front, last := conflicts[..|conflicts| - 1], conflicts[|conflicts| - 1];
    assert conflicts == front + [last];
    if k in front { ConflictEvidenceHas(front, k, e); }
  }

  // ---------------------------------------------------------------- moving support from optional to required

  /** What is required so far and what is still optional. */
  datatype Split = Split(ids: seq<EventId>, values: seq<string>, optional: seq<PromptItem>)

  function FirstSupport(optional: seq<PromptItem>, id: EventId): (r: Option<nat>)
    ensures r.Some? ==> r.value < |optional| && id in optional[r.value].evidence
    ensures r.None? ==> forall i | i in optional :: id !in i.evidence
  {
    if optional == [] then None
    else if id in optional[0].evidence then Some(0)
    else
      match FirstSupport(optional[1..], id)
      case None => None
      case Some(k) => Some(k + 1)
  }

  function FindRelevant(relevant: seq<RelevantEvent>, id: EventId): Option<RelevantEvent> {
    if relevant == [] then None
    else if relevant[0].id == id then Some(relevant[0])
    else FindRelevant(relevant[1..], id)
  }

  /** Makes one event's support required, taking the first optional item that
      carries it, whole, or the event itself. */
  function RequireOne(r: Renderer, c: ThoughtContext, s: Split, id: EventId): Option<Split> {
    if id in s.ids then Some(s)
    else
      match FirstSupport(s.optional, id)
      case Some(k) =>
        Some(Split(s.ids + s.optional[k].evidence, s.values + [s.optional[k].value],
                   s.optional[..k] + s.optional[k + 1..]))
      case None =>
        match FindRelevant(c.relevant, id)
        case Some(e) => Some(Split(s.ids + [id], s.values + [r.event(e)], s.optional))
        case None => None
  }

  function RequireAll(r: Renderer, c: ThoughtContext, s: Split, ids: seq<EventId>): Option<Split> {
    if ids == [] then Some(s)
    else
      match RequireAll(r, c, s, ids[..|ids| - 1])
      case None => None
      case Some(t) => RequireOne(r, c, t, ids[|ids| - 1])
  }

  lemma {:induction false} RequireFails(r: Renderer, c: ThoughtContext, s: Split, ids: seq<EventId>, k: nat)
    requires k <= |ids| && RequireAll(r, c, s, ids[..k]).None?
    ensures RequireAll(r, c, s, ids).None?
    decreases |ids|
  {
    if k == |ids| {
      assert ids[..k] == ids;
    } else {
      assert ids[..|ids| - 1][..k] == ids[..k];
      RequireFails(r, c, s, ids[..|ids| - 1], k);
    }
  }

  /** Moves the support of every dependency out of the optional items. */
  method RequireEvidence(r: Renderer, c: ThoughtContext, s: Split, dependencies: seq<EventId>)
    returns (out: Option<Split>)
    ensures out == RequireAll(r, c, s, dependencies)
  {
    var ids, values, optional := s.ids, s.values, s.optional;
    for i := 0 to |dependencies|
      invariant RequireAll(r, c, s, dependencies[..i]) == Some(Split(ids, values, optional))
    {
      assert dependencies[..i + 1][..i] == dependencies[..i];
      var id := dependencies[i];
      if id in ids {
        continue;
      }
      var index := FirstSupport(optional, id);
      if index.Some? {
        var support := optional[index.value];
        optional := optional[..index.value] + optional[index.value + 1..];
        ids := ids + support.evidence;
        values := values + [support.value];
      } else {
        var event := FindRelevant(c.relevant, id);
        if event.None? {
          RequireFails(r, c, s, dependencies, i + 1);
          return None;
        }
        values := values + [r.event(event.value)];
        ids := ids + [id];
      }
    }
    assert dependencies[..|dependencies|] == dependencies;
    return Some(Split(ids, values, optional));
  }

  /** What is required only grows, and what leaves the optional items becomes
      required with all its evidence. */
  ghost predicate Grows(s: Split, t: Split) {
    && (forall e | e in s.ids :: e in t.ids)
    && (forall i | i in t.optional :: i in s.optional)
    && (forall v | v in s.values :: v in t.values)
    && (forall i | i in s.optional :: i in t.optional || (i.value in t.values && forall e | e in i.evidence :: e in t.ids))
  }

  lemma RequireOneGrows(r: Renderer, c: ThoughtContext, s: Split, id: EventId)
    requires RequireOne(r, c, s, id).Some?
    ensures Grows(s, RequireOne(r, c, s, id).value) && id in RequireOne(r, c, s, id).value.ids
  {
    var k := FirstSupport(s.optional, id);
    if id !in s.ids && k.Some? {
      var o := s.optional;
      assert o == o[..k.value] + [o[k.value]] + o[k.value + 1..];
    }
  }

  lemma {:induction false} RequireAllGrows(r: Renderer, c: ThoughtContext, s: Split, ids: seq<EventId>)
    requires RequireAll(r, c, s, ids).Some?
    ensures Grows(s, RequireAll(r, c, s, ids).value)
    ensures forall id | id in ids :: id in RequireAll(r, c, s, ids).value.ids
  {
    hide RequireOne;
    if ids != [] {
      var front, last := ids[..|ids| - 1], ids[|ids| - 1];
      RequireAllGrows(r, c, s, front);
      RequireOneGrows(r, c, RequireAll(r, c, s, front).value, last);
      assert ids == front + [last];
    }
  }

  /** The event is required already, or an optional item or a relevant event carries it. */
  ghost predicate Available(c: ThoughtContext, s: Split, e: EventId) {
    || e in s.ids
    || (exists k | 0 <= k < |s.optional| :: e in s.optional[k].evidence)
    || (exists k | 0 <= k < |c.relevant| :: c.relevant[k].id == e)
  }

  lemma {:induction false} RelevantFound(relevant: seq<RelevantEvent>, id: EventId)
    ensures var found := FindRelevant(relevant, id);
            && (found.Some? <==> exists k | 0 <= k < |relevant| :: relevant[k].id == id)
            && (found.Some? ==> found.value.id == id && found.value in relevant)
  {
    if relevant != [] && relevant[0].id != id {
      RelevantFound(relevant[1..], id);
      if k :| 0 <= k < |relevant| && relevant[k].id == id { assert relevant[1..][k - 1].id == id; }
      if k :| 0 <= k < |relevant[1..]| && relevant[1..][k].id == id { assert relevant[k + 1].id == id; }
    }
  }

  /** Support is found exactly when there is some, and no event's support is lost. */
  lemma RequireOneAvailable(r: Renderer, c: ThoughtContext, s: Split, id: EventId)
    ensures RequireOne(r, c, s, id).Some? <==> Available(c, s, id)
    ensures RequireOne(r, c, s, id).Some? ==>
              forall e :: Available(c, RequireOne(r, c, s, id).value, e) <==> Available(c, s, e)
  {
    RelevantFound(c.relevant, id);
    var k := FirstSupport(s.optional, id);
    if id !in s.ids && k.Some? {
      var o, t := s.optional, RequireOne(r, c, s, id).value;
      assert t.ids == s.ids + o[k.value].evidence;
      forall e ensures Available(c, t, e) <==> Available(c, s, e) {
        if j :| 0 <= j < |o| && e in o[j].evidence {
          if j != k.value { assert t.optional[if j < k.value then j else j - 1] == o[j]; }
        }
        if j :| 0 <= j < |t.optional| && e in t.optional[j].evidence {
          assert t.optional[j] == o[if j < k.value then j else j + 1];
        }
      }
    }
  }

  lemma {:induction false} RequireAllAvailable(r: Renderer, c: ThoughtContext, s: Split, ids: seq<EventId>)
    ensures RequireAll(r, c, s, ids).Some? <==> forall id | id in ids :: Available(c, s, id)
    ensures RequireAll(r, c, s, ids).Some? ==>
              forall e :: Available(c, RequireAll(r, c, s, ids).value, e) <==> Available(c, s, e)
  {
    hide RequireOne, Available;
    if ids != [] {
      var front, last := ids[..|ids| - 1], ids[|ids| - 1];
      RequireAllAvailable(r, c, s, front);
      assert ids == front + [last];
      if RequireAll(r, c, s, front).Some? {
        RequireOneAvailable(r, c, RequireAll(r, c, s, front).value, last);
      }
    }
  }

  lemma OneMoves(r: Renderer, c: ThoughtContext, s: Split, id: EventId)
    requires RequireOne(r, c, s, id).Some?
    ensures forall i | i in s.optional && i !in RequireOne(r, c, s, id).value.optional :: id in i.evidence
  {
    var o, k := s.optional, FirstSupport(s.optional, id);
    if id !in s.ids && k.Some? { assert o == o[..k.value] + [o[k.value]] + o[k.value + 1..]; }
  }

  /** An item that is no longer optional was needed. */
  lemma {:induction false} OnlyNeededMoves(r: Renderer, c: ThoughtContext, s: Split, ids: seq<EventId>)
    requires RequireAll(r, c, s, ids).Some?
    ensures forall i | i in s.optional && i !in RequireAll(r, c, s, ids).value.optional ::
              exists id | id in ids :: id in i.evidence
  {
    hide RequireOne;
    if ids != [] {
      var front, last := ids[..|ids| - 1], ids[|ids| - 1];
      OnlyNeededMoves(r, c, s, front);
      OneMoves(r, c, RequireAll(r, c, s, front).value, last);
      assert ids == front + [last];
      assert last in ids;
    }
  }

  function PositionIds(positions: seq<Position>): (ids: seq<PositionId>)
    ensures |ids| == |positions|
    ensures forall i | 0 <= i < |positions| :: ids[i] == positions[i].id
  {
    seq(|positions|, i requires 0 <= i < |positions| => positions[i].id)
  }

  function ConflictIds(conflicts: seq<Conflict>): (ids: seq<ConflictId>)
    ensures |ids| == |conflicts|
    ensures forall i | 0 <= i < |conflicts| :: ids[i] == conflicts[i].id
  {
    seq(|conflicts|, i requires 0 <= i < |conflicts| => conflicts[i].id)
  }

  /** Renders the thought, or fails closed when the evidence of a state record is
      not to be had. */
  function Foreground(r: Renderer, c: ThoughtContext): Option<RenderedPrompt> {
    match RequireAll(r, c, Split(InitialIds(c), [], OptionalItems(r, c)), Dependencies(c))
    case None => None
    case Some(split) =>
      Some(RenderedPrompt(
        r.system, PromptItem(r.required(c, split.values), split.ids), split.optional,
        PositionIds(c.positions + c.userPositions), ConflictIds(c.conflicts), c.sequence, c.hash))
  }

  // ---------------------------------------------------------------- what an answer may cite

  function ScopedContext(c: ThoughtContext, prepared: PreparedRequest): ThoughtContext {
    c.(recentEvents := prepared.evidence, recall := [], snapshot := None,
       positions := Filter((p: Position) => p.id in prepared.positions, c.positions),
       userPositions := Filter((p: Position) => p.id in prepared.positions, c.userPositions),
       conflicts := Filter((k: Conflict) => k.id in prepared.conflicts, c.conflicts))
  }

  ghost predicate RecalledFrom(items: seq<Recalled>, e: EventId) {
    exists i | i in items :: i.source == e
  }

  lemma RecalledMore(items: seq<Recalled>, item: Recalled)
    ensures forall e :: RecalledFrom(items + [item], e) <==> RecalledFrom(items, e) || item.source == e
  {
    forall e ensures RecalledFrom(items + [item], e) <==> RecalledFrom(items, e) || item.source == e {
      assert item in items + [item];
      if k :| k in items && k.source == e { assert k in items + [item]; }
    }
  }

  /** Recent events, then recalled sources, then the snapshot's, each once. */
  method AllowedEvidenceIds(c: ThoughtContext) returns (ids: seq<EventId>)
    ensures c.recentEvents <= ids
    ensures forall e :: e in ids <==>
              || e in c.recentEvents
              || RecalledFrom(c.recall, e)
              || (c.snapshot.Some? && e in c.snapshot.value.sourceRefs)
    ensures Distinct(c.recentEvents) ==> Distinct(ids)
  {
    ids := c.recentEvents;
    for i := 0 to |c.recall|
      invariant c.recentEvents <= ids
      invariant forall e :: e in ids <==> e in c.recentEvents || RecalledFrom(c.recall[..i], e)
      invariant Distinct(c.recentEvents) ==> Distinct(ids)
    {
      RecalledMore(c.recall[..i], c.recall[i]);
      assert c.recall[..i + 1] == c.recall[..i] + [c.recall[i]];
      if c.recall[i].source !in ids {
        ids := ids + [c.recall[i].source];
      }
    }
    assert c.recall[..|c.recall|] == c.recall;
    if c.snapshot.Some? {
      var refs := DedupIds(c.snapshot.value.sourceRefs);
      DedupIdsSet(c.snapshot.value.sourceRefs);
      ghost var before := ids;
      for i := 0 to |refs|
        invariant c.recentEvents <= ids
        invariant forall e :: e in ids <==> e in before || e in refs[..i]
        invariant Distinct(c.recentEvents) ==> Distinct(ids)
      {
        assert refs[..i + 1] == refs[..i] + [refs[i]];
        if refs[i] !in ids {
          ids := ids + [refs[i]];
        }
      }
      assert refs[..|refs|] == refs;
    }
  }

  /** A parsed thought: what it cites, and the Position and conflict it proposes. */
  datatype Cycle = Cycle(evidence: seq<EventId>, position: Option<Position>, conflict: Option<Conflict>)

  function Citations(cycle: Cycle): seq<EventId> {
    cycle.evidence
    + (if cycle.position.Some? then cycle.position.value.evidence else [])
    + (if cycle.conflict.Some? then cycle.conflict.value.evidence else [])
  }

  /** The citation check on a parsed thought. */
  method FirstForeignCitation(cycle: Cycle, c: ThoughtContext) returns (r: Option<EventId>)
    ensures r.None? <==> forall e | e in Citations(cycle) ::
              e in c.recentEvents || RecalledFrom(c.recall, e)
              || (c.snapshot.Some? && e in c.snapshot.value.sourceRefs)
    ensures r.Some? ==> r.value in Citations(cycle)
  {
    var allowed := AllowedEvidenceIds(c);
    var cited := Citations(cycle);
    for i := 0 to |cited|
      invariant forall e | e in cited[..i] :: e in allowed
    {
      if cited[i] !in allowed {
        return Some(cited[i]);
      }
      assert cited[..i + 1] == cited[..i] + [cited[i]];
    }
    assert cited[..|cited|] == cited;
    return None;
  }

  /** The check as a predicate on the context the answer is parsed against. */
  ghost predicate CitesOnly(cycle: Cycle, c: ThoughtContext) {
    forall e | e in Citations(cycle) ::
      e in c.recentEvents || RecalledFrom(c.recall, e)
      || (c.snapshot.Some? && e in c.snapshot.value.sourceRefs)
  }

  // ---------------------------------------------------------------- what is required from the start

  /** The anchor is about something the thought shows. */
  ghost predicate OnDisplay(c: ThoughtContext, a: ContextItem) {
    || ((a.kind.Identity? || a.kind.Policy?) && c.present.identity)
    || (a.kind.Relationship? && c.present.relationship)
    || (a.kind.Goal? && c.present.goal)
    || (a.kind.Task? && c.present.task)
    || (a.kind.Run? && c.present.run)
    || (a.kind.WorkingState? && c.present.workingState)
    || (a.kind.Focus? && c.present.focus)
    || (a.kind.Position? && a.entity.Some?
        && ((exists i | 0 <= i < |c.positions| :: c.positions[i].id == a.entity.value.id)
            || exists i | 0 <= i < |c.userPositions| :: c.userPositions[i].id == a.entity.value.id))
    || (a.kind.Conflict? && a.entity.Some? && exists i | 0 <= i < |c.conflicts| :: c.conflicts[i].id == a.entity.value.id)
  }

  lemma AnchorMeaning(c: ThoughtContext, a: ContextItem)
    ensures AnchorPresent(c, a) <==> OnDisplay(c, a)
  {
    var all := c.positions + c.userPositions;
    if a.kind.Position? && a.entity.Some? {
      var id := a.entity.value.id;
      if p :| p in all && p.id == id {
        var k :| 0 <= k < |all| && all[k] == p;
        assert if k < |c.positions| then c.positions[k].id == id else c.userPositions[k - |c.positions|].id == id;
      }
      if i :| 0 <= i < |c.positions| && c.positions[i].id == id { assert c.positions[i] in all; }
      if i :| 0 <= i < |c.userPositions| && c.userPositions[i].id == id { assert c.userPositions[i] in all; }
    }
    if a.kind.Conflict? && a.entity.Some? {
      if k :| k in c.conflicts && k.id == a.entity.value.id { var i :| 0 <= i < |c.conflicts| && c.conflicts[i] == k; }
    }
  }

  /** What is required before any state record is: the current event, and what the
      snapshot's anchors rest on as far as the thought shows what they are about. */
  ghost predicate RequiredFirst(c: ThoughtContext, e: EventId) {
    || c.currentEvent == Some(e)
    || (c.snapshot.Some? && exists a | a in c.snapshot.value.anchors :: OnDisplay(c, a) && e in a.sources)
  }

  lemma {:induction false} AnchorIdsExactly(c: ThoughtContext, anchors: seq<ContextItem>, e: EventId)
    ensures e in AnchorIds(c, anchors) <==> exists a | a in anchors :: OnDisplay(c, a) && e in a.sources
  {
    hide AnchorPresent, OnDisplay;
    if anchors != [] {
      var front, last := anchors[..|anchors| - 1], anchors[|anchors| - 1];
      AnchorIdsExactly(c, front, e);
      AnchorMeaning(c, last);
      assert anchors == front + [last];
    }
  }

  lemma InitialExactly(c: ThoughtContext, e: EventId)
    ensures e in InitialIds(c) <==> RequiredFirst(c, e)
  {
    hide AnchorIds, OnDisplay;
    if c.snapshot.Some? { AnchorIdsExactly(c, c.snapshot.value.anchors, e); }
  }

  lemma {:induction false} PositionEvidenceFrom(positions: seq<Position>, e: EventId)
    ensures e in PositionEvidence(positions) <==> exists q | q in positions :: e in q.evidence
  {
    if positions != [] {
      var front, last := positions[..|positions| - 1], positions[|positions| - 1];
      PositionEvidenceFrom(front, e);
      assert positions == front + [last];
    }
  }

  lemma {:induction false} ConflictEvidenceFrom(conflicts: seq<Conflict>, e: EventId)
    ensures e in ConflictEvidence(conflicts) <==> exists k | k in conflicts :: e in k.evidence
  {
    if conflicts != [] {
      var front, last := conflicts[..|conflicts| - 1], conflicts[|conflicts| - 1];
      ConflictEvidenceFrom(front, e);
      assert conflicts == front + [last];
    }
  }

  /** An event a rendered Position or conflict rests on. */
  ghost predicate StateRestsOn(c: ThoughtContext, e: EventId) {
    || (exists q | q in c.positions + c.userPositions :: e in q.evidence)
    || (exists k | k in c.conflicts :: e in k.evidence)
  }

  lemma DependenciesExactly(c: ThoughtContext, e: EventId)
    ensures e in Dependencies(c) <==> StateRestsOn(c, e)
  {
    PositionEvidenceFrom(c.positions + c.userPositions, e);
    ConflictEvidenceFrom(c.conflicts, e);
  }

  // ---------------------------------------------------------------- main results

  /** A thought is rendered exactly when every event its state records rest on is
      required from the start or carried by an optional item or a relevant event. All of
      these are required then; an optional item moves only when a state record rests on
      an event it carries, and moves with all its evidence. */
  lemma RendersExactly(r: Renderer, c: ThoughtContext)
    ensures Foreground(r, c).Some? <==>
              forall e | StateRestsOn(c, e) ::
                || RequiredFirst(c, e)
                || (exists k | 0 <= k < |OptionalItems(r, c)| :: e in OptionalItems(r, c)[k].evidence)
                || (exists k | 0 <= k < |c.relevant| :: c.relevant[k].id == e)
    ensures Foreground(r, c).Some? ==>
              var p := Foreground(r, c).value;
              && (forall e | RequiredFirst(c, e) || StateRestsOn(c, e) :: e in p.required.evidence)
              && (forall i | i in p.optional :: i in OptionalItems(r, c))
              && (forall i | i in OptionalItems(r, c) && i !in p.optional ::
                    (exists e :: StateRestsOn(c, e) && e in i.evidence) && forall e | e in i.evidence :: e in p.required.evidence)
              && p.revision == c.sequence && p.hash == c.hash && p.system == r.system
  {
    var start := Split(InitialIds(c), [], OptionalItems(r, c));
    RequireAllAvailable(r, c, start, Dependencies(c));
    forall e ensures e in InitialIds(c) <==> RequiredFirst(c, e) { InitialExactly(c, e); }
    forall e ensures e in Dependencies(c) <==> StateRestsOn(c, e) { DependenciesExactly(c, e); }
    hide OptionalItems, RequireAll, InitialIds, Dependencies, RequiredFirst, StateRestsOn;
    if Foreground(r, c).Some? {
      RequireAllGrows(r, c, start, Dependencies(c));
      OnlyNeededMoves(r, c, start, Dependencies(c));
    }
  }

  /** The evidence of every rendered Position and conflict is required. */
  lemma StateEvidenceRequired(r: Renderer, c: ThoughtContext)
    requires Foreground(r, c).Some?
    ensures var p := Foreground(r, c).value;
            && (forall q, e | q in c.positions + c.userPositions && e in q.evidence :: e in p.required.evidence)
            && (forall k, e | k in c.conflicts && e in k.evidence :: e in p.required.evidence)
            && (c.currentEvent.Some? ==> c.currentEvent.value in p.required.evidence)
  {
    hide OptionalItems;
    var start := Split(InitialIds(c), [], OptionalItems(r, c));
    RequireAllGrows(r, c, start, Dependencies(c));
    var ids := RequireAll(r, c, start, Dependencies(c)).value.ids;
    forall q, e | q in c.positions + c.userPositions && e in q.evidence ensures e in ids {
      PositionEvidenceHas(c.positions + c.userPositions, q, e);
    }
    forall k, e | k in c.conflicts && e in k.evidence ensures e in ids {
      ConflictEvidenceHas(c.conflicts, k, e);
    }
    if c.currentEvent.Some? { assert c.currentEvent.value in InitialIds(c); }
  }

  /** However many optional items the budget drops, the prepared request still
      carries the evidence of every rendered Position and conflict; its evidence is
      exactly that of the required part and of the optional prefix kept; and an
      accepted thought cites nothing else. */
  lemma EvidenceClosed(
    r: Renderer, c: ThoughtContext, encode: Encoder, config: Config, correction: Option<string>, kept: nat, cycle: Cycle)
    requires Foreground(r, c).Some? && Configured(config) && kept <= |Foreground(r, c).value.optional|
    ensures var p := Foreground(r, c).value;
            var request := RequestFor(encode, config, p, correction, config.contextTokens.value, kept);
            && (forall q, e | q in c.positions + c.userPositions && e in q.evidence :: e in request.evidence)
            && (forall k, e | k in c.conflicts && e in k.evidence :: e in request.evidence)
            && (forall e :: e in request.evidence
                            <==> e in p.required.evidence || exists i | i in p.optional[..kept] :: e in i.evidence)
            && (CitesOnly(cycle, ScopedContext(c, request)) <==> forall e | e in Citations(cycle) :: e in request.evidence)
  {
    hide Foreground, Citations, EvidenceOf, MessagesFor, Filter;
    var p := Foreground(r, c).value;
    StateEvidenceRequired(r, c);
    RequestEvidence(encode, config, p, correction, config.contextTokens.value, kept);
  }

  lemma {:induction false} FilterAll<T(!new)>(keep: T -> bool, s: seq<T>)
    requires forall x | x in s :: keep(x)
    ensures Filter(keep, s) == s
  {
    if s != [] {
      assert s[|s| - 1] in s;
      FilterAll(keep, s[..|s| - 1]);
    }
  }

  /** Scoping keeps every Position and conflict that was rendered. */
  lemma ScopeKeepsState(
    r: Renderer, c: ThoughtContext, encode: Encoder, config: Config, correction: Option<string>, kept: nat)
    requires Foreground(r, c).Some? && Configured(config) && kept <= |Foreground(r, c).value.optional|
    ensures var request := RequestFor(encode, config, Foreground(r, c).value, correction, config.contextTokens.value, kept);
            var scoped := ScopedContext(c, request);
            && scoped.positions == c.positions && scoped.userPositions == c.userPositions
            && scoped.conflicts == c.conflicts && scoped.recentEvents == request.evidence
  {
    hide EvidenceOf, MessagesFor, RequireAll, OptionalItems, InitialIds, Dependencies;
    var request := RequestFor(encode, config, Foreground(r, c).value, correction, config.contextTokens.value, kept);
    var all := c.positions + c.userPositions;
    forall p | p in all ensures p.id in request.positions {
      var i :| 0 <= i < |all| && all[i] == p;
      assert PositionIds(all)[i] == p.id;
    }
    forall k | k in c.conflicts ensures k.id in request.conflicts {
      var i :| 0 <= i < |c.conflicts| && c.conflicts[i] == k;
      assert ConflictIds(c.conflicts)[i] == k.id;
    }
    FilterAll((p: Position) => p.id in request.positions, c.positions);
    FilterAll((p: Position) => p.id in request.positions, c.userPositions);
    FilterAll((k: Conflict) => k.id in request.conflicts, c.conflicts);
  }
}
