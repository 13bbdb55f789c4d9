/** Which observations a Sleep run consumes: decoding, windows, and how a
    window splits at a cursor. */
module SleepSeeds {
  import opened Prelude
  import opened Model
  import opened Projector

  datatype SleepSeed = SleepSeed(event: EventId, sequence: nat, observation: Observation)

  function SeedOf(e: Event, sequence: nat): Option<SleepSeed> {
    if e.body.ObservationRecorded? && !Blank(e.body.observation.content)
       && SubjectIs(e, EntityKind.Observation, e.body.observation.id)
    then Some(SleepSeed(e.id, sequence, e.body.observation))
    else None
  }

  /** An event whose observation a Sleep run consumes: its text has a character that is
      not white space, and the event is about that observation. */
  ghost predicate Decodable(e: Event) {
    && e.body.ObservationRecorded?
    && (exists i | 0 <= i < |e.body.observation.content| :: !IsWhitespace(e.body.observation.content[i]))
    && e.subject == Some(EntityRef(EntityKind.Observation, e.body.observation.id))
  }

  /** Decoding an event yields its observation, or nothing exactly when it is not such an event. */
  lemma SeedOfMeaning(e: Event, sequence: nat)
    ensures SeedOf(e, sequence)
            == if Decodable(e) then Some(SleepSeed(e.id, sequence, e.body.observation)) else None
  {
    if e.body.ObservationRecorded? { BlankMeaning(e.body.observation.content); }
    hide Blank;
  }

  /** Looks an event up by identifier and decodes it, up to the high-water revision. */
  function DecodeSeed(events: seq<Event>, id: EventId, highWater: nat): Option<SleepSeed> {
    match IndexOf(Ids(events), id)
    case None => None
    case Some(i) => if i + 1 > highWater then None else SeedOf(events[i], i + 1)
  }

  /** The decodable observations with a sequence above `lo` and at most `hi`, in ledger order. */
  function SeedsBetween(events: seq<Event>, lo: nat, hi: nat): seq<SleepSeed>
    requires hi <= |events|
  {
    if hi <= lo then []
    else
      var seed := SeedOf(events[hi - 1], hi);
      SeedsBetween(events, lo, hi - 1) + (if seed.Some? then [seed.value] else [])
  }

  function SeedIds(seeds: seq<SleepSeed>): (r: seq<EventId>)
    ensures |r| == |seeds|
  {
    seq(|seeds|, i requires 0 <= i < |seeds| => seeds[i].event)
  }

  function LastSequence(seeds: seq<SleepSeed>): Option<nat> {
    if seeds == [] then None else Some(seeds[|seeds| - 1].sequence)
  }

  lemma SeedIdsConcat(a: seq<SleepSeed>, b: seq<SleepSeed>)
    ensures SeedIds(a + b) == SeedIds(a) + SeedIds(b)
  {
  }

  lemma {:induction false} SeedsSplit(events: seq<Event>, lo: nat, mid: nat, hi: nat)
    requires lo <= mid <= hi <= |events|
    ensures SeedsBetween(events, lo, hi) == SeedsBetween(events, lo, mid) + SeedsBetween(events, mid, hi)
    decreases hi
  {
    if mid < hi {
      SeedsSplit(events, lo, mid, hi - 1);
    }
  }

  /** A window only depends on the ledger up to its end. */
  lemma {:induction false} SeedsStable(events: seq<Event>, longer: seq<Event>, lo: nat, hi: nat)
    requires hi <= |events| && hi <= |longer| && events[..hi] == longer[..hi]
    ensures SeedsBetween(events, lo, hi) == SeedsBetween(longer, lo, hi)
    decreases hi
  {
    if lo < hi {
      assert events[..hi - 1] == events[..hi][..hi - 1] == longer[..hi - 1];
      assert events[hi - 1] == events[..hi][hi - 1] == longer[hi - 1];
      SeedsStable(events, longer, lo, hi - 1);
    }
  }

  /** Each seed is the event at its sequence, inside the window, in ledger order. */
  ghost predicate OrderedSeeds(events: seq<Event>, lo: nat, hi: nat, all: seq<SleepSeed>)
    requires hi <= |events|
  {
    && (forall i | 0 <= i < |all| ::
          lo < all[i].sequence <= hi && SeedOf(events[all[i].sequence - 1], all[i].sequence) == Some(all[i]))
    && (forall i, j | 0 <= i < j < |all| :: all[i].sequence < all[j].sequence)
  }

  lemma OrderedMore(events: seq<Event>, lo: nat, hi: nat, front: seq<SleepSeed>, seed: SleepSeed)
    requires lo < hi <= |events| && OrderedSeeds(events, lo, hi - 1, front)
    requires SeedOf(events[hi - 1], hi) == Some(seed)
    ensures OrderedSeeds(events, lo, hi, front + [seed])
  {
    hide SeedOf;
    assert seed.sequence == hi by { SeedNumber(events[hi - 1], hi); }
  }

  lemma SeedNumber(e: Event, sequence: nat)
    ensures SeedOf(e, sequence).Some? ==>
              SeedOf(e, sequence).value.sequence == sequence && SeedOf(e, sequence).value.event == e.id
  {
  }

  lemma {:induction false} SeedsOrdered(events: seq<Event>, lo: nat, hi: nat)
    requires hi <= |events|
    ensures OrderedSeeds(events, lo, hi, SeedsBetween(events, lo, hi))
    decreases hi
  {
    hide SeedOf;
    if lo < hi {
      var front := SeedsBetween(events, lo, hi - 1);
      SeedsOrdered(events, lo, hi - 1);
      var seed := SeedOf(events[hi - 1], hi);
      if seed.Some? {
        OrderedMore(events, lo, hi, front, seed.value);
      }
    }
  }

  /** The places of the decodable events from `lo` to before `hi`. */
  ghost function DecodableAt(events: seq<Event>, lo: nat, hi: nat): set<nat>
    requires hi <= |events|
  {
    set i | lo <= i < hi && Decodable(events[i])
  }

  /** The seed is the observation recorded at its sequence. */
  ghost predicate IsSeed(events: seq<Event>, seed: SleepSeed) {
    && 1 <= seed.sequence <= |events|
    && var e := events[seed.sequence - 1];
    && e.body.ObservationRecorded?
    && seed == SleepSeed(e.id, seed.sequence, e.body.observation)
  }

  ghost predicate HasSequence(all: seq<SleepSeed>, sequence: nat) {
    exists j | 0 <= j < |all| :: all[j].sequence == sequence
  }

  /** These are the observations at exactly those places, in order. */
  ghost predicate SeedsAt(events: seq<Event>, all: seq<SleepSeed>, places: set<nat>) {
    && (forall j | 0 <= j < |all| :: IsSeed(events, all[j]) && all[j].sequence > 0 && all[j].sequence - 1 in places)
    && (forall j, k | 0 <= j < k < |all| :: all[j].sequence < all[k].sequence)
    && (forall i | i in places :: HasSequence(all, i + 1))
    && |all| == |places|
  }

  /** A window holds the decodable observations between its ends, each once and in order. */
  lemma {:induction false} SeedsBetweenMeaning(events: seq<Event>, lo: nat, hi: nat)
    requires hi <= |events|
    ensures SeedsAt(events, SeedsBetween(events, lo, hi), DecodableAt(events, lo, hi))
    decreases hi
  {
    hide SeedOf, Decodable, SeedsAt;
    if hi <= lo {
      assert DecodableAt(events, lo, hi) == {};
      NoSeeds(events);
    } else {
      var front, before := SeedsBetween(events, lo, hi - 1), DecodableAt(events, lo, hi - 1);
      SeedsBetweenMeaning(events, lo, hi - 1);
      SeedOfMeaning(events[hi - 1], hi);
      DecodableRecorded(events[hi - 1]);
      if Decodable(events[hi - 1]) {
        assert DecodableAt(events, lo, hi) == before + {hi - 1};
        var last := SleepSeed(events[hi - 1].id, hi, events[hi - 1].body.observation);
        SeedsAtMore(events, front, before, hi - 1, last);
      } else {
        assert DecodableAt(events, lo, hi) == before;
        assert SeedsBetween(events, lo, hi) == front;
      }
    }
  }

  lemma NoSeeds(events: seq<Event>)
    ensures SeedsAt(events, [], {})
  {
  }

  lemma DecodableRecorded(e: Event)
    ensures Decodable(e) ==> e.body.ObservationRecorded?
  {
  }

  lemma HasMore(front: seq<SleepSeed>, last: SleepSeed, sequence: nat)
    ensures HasSequence(front + [last], sequence) <==> HasSequence(front, sequence) || last.sequence == sequence
  {
    var all := front + [last];
    assert all[|front|] == last;
    if HasSequence(front, sequence) {
      var j :| 0 <= j < |front| && front[j].sequence == sequence;
      assert all[j].sequence == sequence;
    }
  }

  lemma SeedsAtMore(events: seq<Event>, front: seq<SleepSeed>, places: set<nat>, i: nat, last: SleepSeed)
    requires SeedsAt(events, front, places) && i < |events| && IsSeed(events, last) && last.sequence == i + 1
    requires forall k | k in places :: k < i
    ensures SeedsAt(events, front + [last], places + {i})
  {
    hide IsSeed, HasSequence;
    var all := front + [last];
    forall k | k in places + {i} ensures HasSequence(all, k + 1) {
      HasMore(front, last, k + 1);
    }
    forall j | 0 <= j < |all| ensures IsSeed(events, all[j]) && all[j].sequence > 0 && all[j].sequence - 1 in places + {i} {
      assert j < |front| ==> all[j] == front[j];
    }
    assert i !in places;
  }

  /** These identifiers stand in the ledger in the order in which they are listed. */
  ghost predicate InLedgerOrder(events: seq<Event>, ids: seq<EventId>) {
    forall j, k, m, n | 0 <= j < k < |ids| && 0 <= m < |events| && 0 <= n < |events|
                        && events[m].id == ids[j] && events[n].id == ids[k] :: m < n
  }

  /** The event of a seed is the one at its sequence, and no other. */
  lemma SeedPlace(events: seq<Event>, all: seq<SleepSeed>, places: set<nat>, j: nat, m: nat)
    requires SeedsAt(events, all, places) && Distinct(Ids(events)) && j < |all| && m < |events|
    ensures all[j].sequence > 0 && all[j].sequence - 1 in places
    ensures events[m].id == SeedIds(all)[j] <==> all[j].sequence == m + 1
  {
    assert IsSeed(events, all[j]);
    assert Ids(events)[all[j].sequence - 1] == SeedIds(all)[j];
    assert Ids(events)[m] == events[m].id;
  }

  lemma SeedIdsAt(events: seq<Event>, all: seq<SleepSeed>, places: set<nat>, i: nat)
    requires SeedsAt(events, all, places) && Distinct(Ids(events)) && i < |events|
    ensures events[i].id in SeedIds(all) <==> i in places
  {
    hide IsSeed, Distinct, Ids;
    var ids := SeedIds(all);
    if events[i].id in ids {
      var j :| 0 <= j < |ids| && ids[j] == events[i].id;
      SeedPlace(events, all, places, j, i);
    }
    if i in places {
      assert HasSequence(all, i + 1);
      var j :| 0 <= j < |all| && all[j].sequence == i + 1;
      SeedPlace(events, all, places, j, i);
    }
  }

  lemma SeedIdsInOrder(events: seq<Event>, all: seq<SleepSeed>, places: set<nat>)
    requires SeedsAt(events, all, places) && Distinct(Ids(events)) && forall i | i in places :: i < |events|
    ensures InLedgerOrder(events, SeedIds(all)) && Distinct(SeedIds(all))
  {
    var ids := SeedIds(all);
    forall j, k, m, n | 0 <= j < k < |ids| && 0 <= m < |events| && 0 <= n < |events|
                        && events[m].id == ids[j] && events[n].id == ids[k]
      ensures m < n
    {
      SeedPlace(events, all, places, j, m);
      SeedPlace(events, all, places, k, n);
    }
    forall j, k | 0 <= j < k < |ids| ensures ids[j] != ids[k] {
      SeedPlace(events, all, places, j, 0);
      SeedPlace(events, all, places, j, all[j].sequence - 1);
      SeedPlace(events, all, places, k, all[j].sequence - 1);
    }
  }

  /** The identifiers of a window are those of the decodable events between its ends. */
  lemma SeedIdsMeaning(events: seq<Event>, lo: nat, hi: nat)
    requires hi <= |events| && Distinct(Ids(events))
    ensures var ids := SeedIds(SeedsBetween(events, lo, hi));
            && (forall i | 0 <= i < |events| :: events[i].id in ids <==> lo <= i < hi && Decodable(events[i]))
            && InLedgerOrder(events, ids) && Distinct(ids)
  {
    hide SeedOf, SeedsBetween, Decodable, SeedsAt, Distinct, InLedgerOrder;
    var all, places := SeedsBetween(events, lo, hi), DecodableAt(events, lo, hi);
    SeedsBetweenMeaning(events, lo, hi);
    SeedIdsInOrder(events, all, places);
    forall i | 0 <= i < |events| ensures events[i].id in SeedIds(all) <==> lo <= i < hi && Decodable(events[i]) {
      SeedIdsAt(events, all, places, i);
    }
  }

  /** Cutting a window after its k-th seed is the window that ends at that seed. */
  lemma {:induction false} SeedsCut(events: seq<Event>, lo: nat, hi: nat, k: nat)
    requires hi <= |events| && 1 <= k <= |SeedsBetween(events, lo, hi)|
    ensures var all := SeedsBetween(events, lo, hi);
            var cut := all[k - 1].sequence;
            lo < cut <= hi && SeedsBetween(events, lo, cut) == all[..k]
    decreases hi
  {
    var all := SeedsBetween(events, lo, hi);
    var front := SeedsBetween(events, lo, hi - 1);
    if k == |all| && |front| < |all| {
      assert all[k - 1] == SeedOf(events[hi - 1], hi).value;
    } else {
      SeedsCut(events, lo, hi - 1, k);
      assert all[..k] == front[..k];
    }
  }

  /** With distinct event identifiers, looking a seed up finds the event itself. */
  lemma DecodeFindsSeed(events: seq<Event>, i: nat, highWater: nat)
    requires i < |events| && Distinct(Ids(events)) && i + 1 <= highWater
    ensures DecodeSeed(events, events[i].id, highWater) == SeedOf(events[i], i + 1)
  {
    IndexOfDistinct(Ids(events), i);
  }

  // ---------------------------------------------------------------- the seed window of a new run

  datatype SeedWindow = SeedWindow(
    eventIds: seq<EventId>, seeds: seq<SleepSeed>, cursorAfter: Option<nat>, invalid: nat, deferred: nat)

  /** What the window loop sees: every observation looked up by its identifier. */
  function DecodedBetween(events: seq<Event>, lo: nat, hi: nat, highWater: nat): seq<SleepSeed>
    requires hi <= |events|
  {
    if hi <= lo then []
    else
      var e := events[hi - 1];
      var seed := DecodeSeed(events, e.id, highWater);
      DecodedBetween(events, lo, hi - 1, highWater)
      + (if e.body.ObservationRecorded? && seed.Some? then [seed.value] else [])
  }

  lemma SeedIsObservation(e: Event, sequence: nat)
    ensures SeedOf(e, sequence).Some? ==> e.body.ObservationRecorded?
  {
  }

  lemma {:induction false} DecodedIsSeeds(events: seq<Event>, lo: nat, hi: nat, highWater: nat)
    requires hi <= |events| && hi <= highWater && Distinct(Ids(events))
    ensures DecodedBetween(events, lo, hi, highWater) == SeedsBetween(events, lo, hi)
    decreases hi
  {
    hide DecodeSeed, SeedOf;
    if lo < hi {
      DecodedIsSeeds(events, lo, hi - 1, highWater);
      DecodeFindsSeed(events, hi - 1, highWater);
      SeedIsObservation(events[hi - 1], hi);
    }
  }

  function Undecodable(events: seq<Event>, lo: nat, hi: nat, highWater: nat): nat
    requires hi <= |events|
  {
    if hi <= lo then 0
    else
      var e := events[hi - 1];
      Undecodable(events, lo, hi - 1, highWater)
      + (if e.body.ObservationRecorded? && DecodeSeed(events, e.id, highWater).None? then 1 else 0)
  }

  predicate SeedFits(seedBytes: seq<SleepSeed> -> nat, all: seq<SleepSeed>, k: nat)
    requires k < |all|
  {
    k < MAX_SLEEP_SEEDS && seedBytes(all[..k] + [all[k]]) <= SLEEP_SEED_BUDGET_BYTES
  }

  /** Length of the longest prefix every seed of which was accepted in turn. */
  function AcceptedCount(seedBytes: seq<SleepSeed> -> nat, all: seq<SleepSeed>, from: nat): nat
    requires from <= |all|
    decreases |all| - from
  {
    if from < |all| && SeedFits(seedBytes, all, from) then AcceptedCount(seedBytes, all, from + 1) else from
  }

  lemma {:induction false} AcceptedCountIs(seedBytes: seq<SleepSeed> -> nat, all: seq<SleepSeed>, from: nat, k: nat)
    requires from <= k <= |all|
    requires forall j | from <= j < k :: SeedFits(seedBytes, all, j)
    requires k < |all| ==> !SeedFits(seedBytes, all, k)
    ensures AcceptedCount(seedBytes, all, from) == k
    decreases k - from
  {
    if from < k {
      AcceptedCountIs(seedBytes, all, from + 1, k);
    }
  }

  lemma FitsGrow(seedBytes: seq<SleepSeed> -> nat, all: seq<SleepSeed>, seed: SleepSeed, k: nat)
    requires k < |all|
    ensures SeedFits(seedBytes, all + [seed], k) == SeedFits(seedBytes, all, k)
  {
    assert (all + [seed])[..k] == all[..k];
  }

  /** What the scan has so far: the accepted seeds are a prefix of those seen, and
      once one was not accepted it is the next one. */
  ghost predicate Scanned(
    seedBytes: seq<SleepSeed> -> nat, all: seq<SleepSeed>, seeds: seq<SleepSeed>, accepting: bool)
  {
    && |seeds| <= |all| && seeds == all[..|seeds|]
    && (forall j | 0 <= j < |seeds| :: SeedFits(seedBytes, all, j))
    && (if accepting then |seeds| == |all| else |seeds| < |all| && !SeedFits(seedBytes, all, |seeds|))
  }

  lemma ScannedMore(seedBytes: seq<SleepSeed> -> nat, all: seq<SleepSeed>, seeds: seq<SleepSeed>, accepting: bool, seed: SleepSeed)
    requires Scanned(seedBytes, all, seeds, accepting)
    ensures !accepting ==> Scanned(seedBytes, all + [seed], seeds, false)
    ensures accepting ==>
              if |seeds| < MAX_SLEEP_SEEDS && seedBytes(seeds + [seed]) <= SLEEP_SEED_BUDGET_BYTES
              then Scanned(seedBytes, all + [seed], seeds + [seed], true)
              else Scanned(seedBytes, all + [seed], seeds, false)
  {
    var more := all + [seed];
    forall j | 0 <= j < |all| ensures SeedFits(seedBytes, more, j) == SeedFits(seedBytes, all, j) {
      FitsGrow(seedBytes, all, seed, j);
    }
    assert more[..|seeds|] == seeds;
    if accepting {
      assert all == seeds && more[..|seeds|] + [more[|seeds|]] == seeds + [seed];
      assert more[..|seeds| + 1] == seeds + [seed];
    }
  }

  lemma ScannedCount(seedBytes: seq<SleepSeed> -> nat, all: seq<SleepSeed>, seeds: seq<SleepSeed>, accepting: bool)
    requires Scanned(seedBytes, all, seeds, accepting)
    ensures |seeds| <= |all| && AcceptedCount(seedBytes, all, 0) == |seeds| && seeds == all[..|seeds|]
  {
    AcceptedCountIs(seedBytes, all, 0, |seeds|);
  }

  lemma ScanStart(seedBytes: seq<SleepSeed> -> nat, events: seq<Event>, cursor: nat, highWater: nat)
    ensures DecodedBetween(events, cursor, 0, highWater) == [] && Undecodable(events, cursor, 0, highWater) == 0
    ensures Scanned(seedBytes, [], [], true)
  {
  }

  /** What looking at one more event adds to the two totals of the scan. */
  lemma ScanStep(events: seq<Event>, cursor: nat, highWater: nat, index: nat)
    requires index < |events|
    ensures var before, after := Min(highWater, index), Min(highWater, index + 1);
            var e := events[index];
            var seed := DecodeSeed(events, e.id, highWater);
            var seen := cursor < index + 1 <= highWater && e.body.ObservationRecorded?;
            && DecodedBetween(events, cursor, after, highWater)
               == DecodedBetween(events, cursor, before, highWater)
                  + (if seen && seed.Some? then [seed.value] else [])
            && Undecodable(events, cursor, after, highWater)
               == Undecodable(events, cursor, before, highWater) + (if seen && seed.None? then 1 else 0)
  {
  }

  /** The observations whose event does not decode. */
  ghost function UndecodableAt(events: seq<Event>, lo: nat, hi: nat): set<nat>
    requires hi <= |events|
  {
    set i | lo <= i < hi && events[i].body.ObservationRecorded? && !Decodable(events[i])
  }

  lemma {:induction false} UndecodableCount(events: seq<Event>, lo: nat, hi: nat, highWater: nat)
    requires hi <= |events| && hi <= highWater && Distinct(Ids(events))
    ensures Undecodable(events, lo, hi, highWater) == |UndecodableAt(events, lo, hi)|
    decreases hi
  {
    hide SeedOf, DecodeSeed, Decodable;
    if hi <= lo {
      assert UndecodableAt(events, lo, hi) == {};
    } else {
      var before := UndecodableAt(events, lo, hi - 1);
      UndecodableCount(events, lo, hi - 1, highWater);
      DecodeFindsSeed(events, hi - 1, highWater);
      SeedOfMeaning(events[hi - 1], hi);
      if events[hi - 1].body.ObservationRecorded? && !Decodable(events[hi - 1]) {
        assert UndecodableAt(events, lo, hi) == before + {hi - 1};
      } else {
        assert UndecodableAt(events, lo, hi) == before;
      }
    }
  }

  /** The end of a window: its last seed, or the cursor when it is empty. */
  function WindowEnd(w: SeedWindow, cursor: nat): nat {
    if w.cursorAfter.Some? then w.cursorAfter.value else cursor
  }

  /** What a window is in terms of the events: it takes the decodable observations after
      the cursor without a gap, each of which fitted behind the earlier ones, and the
      next one, if there is one, does not fit. The others are only counted. */
  ghost predicate WindowExact(
    seedBytes: seq<SleepSeed> -> nat, events: seq<Event>, cursor: nat, end: nat, w: SeedWindow)
    requires end <= |events|
  {
    && |w.eventIds| == |w.seeds| && (forall j | 0 <= j < |w.seeds| :: w.eventIds[j] == w.seeds[j].event)
    && w.cursorAfter == (if w.seeds == [] then None else Some(w.seeds[|w.seeds| - 1].sequence))
    && (w.cursorAfter.Some? ==> cursor < w.cursorAfter.value <= end)
    && SeedsAt(events, w.seeds, DecodableAt(events, cursor, if w.seeds == [] then 0 else WindowEnd(w, cursor)))
    && |w.seeds| <= MAX_SLEEP_SEEDS
    && (forall j | 0 < j <= |w.seeds| :: seedBytes(w.seeds[..j]) <= SLEEP_SEED_BUDGET_BYTES)
    && (forall i | i in DecodableAt(events, WindowEnd(w, cursor), end)
                   && DecodableAt(events, WindowEnd(w, cursor), i) == {} ::
          || |w.seeds| == MAX_SLEEP_SEEDS
          || seedBytes(w.seeds + [SleepSeed(events[i].id, i + 1, events[i].body.observation)])
             > SLEEP_SEED_BUDGET_BYTES)
    && w.deferred == |DecodableAt(events, WindowEnd(w, cursor), end)|
    && w.invalid == |UndecodableAt(events, cursor, end)|
  }

  lemma {:induction false} AcceptedCountFits(seedBytes: seq<SleepSeed> -> nat, all: seq<SleepSeed>, from: nat)
    requires from <= |all|
    ensures var k := AcceptedCount(seedBytes, all, from);
            && from <= k <= |all|
            && (forall j | from <= j < k :: SeedFits(seedBytes, all, j))
            && (k < |all| ==> !SeedFits(seedBytes, all, k))
    decreases |all| - from
  {
    if from < |all| && SeedFits(seedBytes, all, from) {
      AcceptedCountFits(seedBytes, all, from + 1);
    }
  }

  lemma PrefixFits(seedBytes: seq<SleepSeed> -> nat, all: seq<SleepSeed>, j: nat)
    requires 0 < j <= |all| && SeedFits(seedBytes, all, j - 1)
    ensures seedBytes(all[..j]) <= SLEEP_SEED_BUDGET_BYTES && j <= MAX_SLEEP_SEEDS
  {
    assert all[..j - 1] + [all[j - 1]] == all[..j];
  }

  lemma PrefixesFit(seedBytes: seq<SleepSeed> -> nat, all: seq<SleepSeed>)
    ensures var k := AcceptedCount(seedBytes, all, 0);
            && k <= |all| && k <= MAX_SLEEP_SEEDS
            && (k < |all| ==> !SeedFits(seedBytes, all, k))
            && forall j | 0 < j <= k :: seedBytes(all[..k][..j]) <= SLEEP_SEED_BUDGET_BYTES
  {
    hide SeedFits, AcceptedCount;
    AcceptedCountFits(seedBytes, all, 0);
    var k := AcceptedCount(seedBytes, all, 0);
    forall j | 0 < j <= k ensures seedBytes(all[..k][..j]) <= SLEEP_SEED_BUDGET_BYTES {
      PrefixFits(seedBytes, all, j);
      assert all[..k][..j] == all[..j];
    }
    if k > 0 { PrefixFits(seedBytes, all, k); }
  }

  /** The seeds accepted in turn make up an exact window. */
  lemma AcceptedIsExact(
    seedBytes: seq<SleepSeed> -> nat, events: seq<Event>, cursor: nat, highWater: nat, end: nat, w: SeedWindow)
    requires Distinct(Ids(events)) && end == Min(highWater, |events|)
    requires var all := SeedsBetween(events, cursor, end);
             var k := AcceptedCount(seedBytes, all, 0);
             && k <= |all|
             && w == SeedWindow(SeedIds(all[..k]), all[..k], LastSequence(all[..k]),
                                Undecodable(events, cursor, end, highWater), |all| - k)
    ensures WindowExact(seedBytes, events, cursor, end, w)
  {
    hide SeedOf, Undecodable, SeedsBetween, DecodableAt, UndecodableAt, Distinct, Ids, SeedFits, AcceptedCount,
         IsSeed, HasSequence;
    var all := SeedsBetween(events, cursor, end);
    var k := AcceptedCount(seedBytes, all, 0);
    PrefixesFit(seedBytes, all);
    UndecodableCount(events, cursor, end, highWater);
    WindowPrefix(events, cursor, end, k);
    WindowRest(events, cursor, end, k);
    var rest := all[k..];
    assert |rest| == |DecodableAt(events, WindowEnd(w, cursor), end)|;
    hide SeedsAt;
    RestDoesNotFit(seedBytes, events, cursor, end, k);
  }

  /** The next observation does not fit behind the seeds of the window. */
  lemma RestDoesNotFit(seedBytes: seq<SleepSeed> -> nat, events: seq<Event>, lo: nat, hi: nat, k: nat)
    requires hi <= |events|
    requires var all := SeedsBetween(events, lo, hi);
             k <= |all| && k <= MAX_SLEEP_SEEDS && (k < |all| ==> !SeedFits(seedBytes, all, k))
    ensures var all := SeedsBetween(events, lo, hi);
            var cut := if k == 0 then lo else all[k - 1].sequence;
            forall i | i in DecodableAt(events, cut, hi) && DecodableAt(events, cut, i) == {} ::
              || k == MAX_SLEEP_SEEDS
              || seedBytes(all[..k] + [SleepSeed(events[i].id, i + 1, events[i].body.observation)])
                 > SLEEP_SEED_BUDGET_BYTES
  {
    hide SeedOf, SeedsBetween;
    var all := SeedsBetween(events, lo, hi);
    var cut := if k == 0 then lo else all[k - 1].sequence;
    forall i | i in DecodableAt(events, cut, hi) && DecodableAt(events, cut, i) == {}
      ensures || k == MAX_SLEEP_SEEDS
              || seedBytes(all[..k] + [SleepSeed(events[i].id, i + 1, events[i].body.observation)])
                 > SLEEP_SEED_BUDGET_BYTES
    {
      FirstOfRest(events, lo, hi, k, i);
    }
  }

  /** The first `k` seeds of a window are those up to the last of them. */
  lemma WindowPrefix(events: seq<Event>, lo: nat, hi: nat, k: nat)
    requires hi <= |events| && k <= |SeedsBetween(events, lo, hi)|
    ensures var front := SeedsBetween(events, lo, hi)[..k];
            var cut := if k == 0 then 0 else front[k - 1].sequence;
            cut <= hi && SeedsAt(events, front, DecodableAt(events, lo, cut)) && (k > 0 ==> lo < cut)
  {
    hide SeedOf, Decodable, SeedsBetween;
    if k == 0 {
      assert DecodableAt(events, lo, 0) == {};
    } else {
      SeedsCut(events, lo, hi, k);
      SeedsBetweenMeaning(events, lo, SeedsBetween(events, lo, hi)[k - 1].sequence);
    }
  }

  /** The other seeds are those after it. */
  lemma WindowRest(events: seq<Event>, lo: nat, hi: nat, k: nat)
    requires hi <= |events| && k <= |SeedsBetween(events, lo, hi)|
    ensures var all := SeedsBetween(events, lo, hi);
            var cut := if k == 0 then lo else all[k - 1].sequence;
            (lo <= hi || all == []) && (cut <= hi || k == 0)
            && SeedsAt(events, all[k..], DecodableAt(events, cut, hi))
  {
    hide SeedOf, Decodable;
    var all := SeedsBetween(events, lo, hi);
    if k == 0 {
      SeedsBetweenMeaning(events, lo, hi);
      assert all[k..] == all;
    } else {
      SeedsCut(events, lo, hi, k);
      var cut := all[k - 1].sequence;
      SeedsSplit(events, lo, cut, hi);
      SeedsBetweenMeaning(events, cut, hi);
      assert all == all[..k] + all[k..];
    }
  }

  /** The first of the places is that of the first seed. */
  lemma FirstSeed(events: seq<Event>, all: seq<SleepSeed>, places: set<nat>, i: nat)
    requires SeedsAt(events, all, places) && i in places && forall k | k in places :: i <= k
    ensures all != [] && IsSeed(events, all[0]) && all[0].sequence == i + 1
  {
    hide IsSeed;
    assert HasSequence(all, i + 1);
    var j :| 0 <= j < |all| && all[j].sequence == i + 1;
    assert all[0].sequence - 1 in places;
    assert j == 0;
  }

  /** The first observation after the cut is the next seed. */
  lemma FirstOfRest(events: seq<Event>, lo: nat, hi: nat, k: nat, i: nat)
    requires hi <= |events| && k <= |SeedsBetween(events, lo, hi)|
    requires var cut := if k == 0 then lo else SeedsBetween(events, lo, hi)[k - 1].sequence;
             i in DecodableAt(events, cut, hi) && i <= |events| && DecodableAt(events, cut, i) == {}
    ensures var all := SeedsBetween(events, lo, hi);
            && k < |all| && events[i].body.ObservationRecorded?
            && all[k] == SleepSeed(events[i].id, i + 1, events[i].body.observation)
  {
    hide SeedOf, Decodable, SeedsBetween, SeedsAt;
    var all := SeedsBetween(events, lo, hi);
    var cut := if k == 0 then lo else all[k - 1].sequence;
    WindowRest(events, lo, hi, k);
    var places := DecodableAt(events, cut, hi);
    var early := DecodableAt(events, cut, i);
    assert forall n | n in places && n < i :: n in early;
    FirstSeed(events, all[k..], places, i);
    assert all[k..][0] == all[k];
  }

  /** Scans the ledger for the observations after the cursor; once one does not
      fit, later ones are only counted, so the window has no gap. */
  method ScanSeedWindow(seedBytes: seq<SleepSeed> -> nat, events: seq<Event>, cursor: nat, highWater: nat)
    returns (w: SeedWindow)
    ensures var all := DecodedBetween(events, cursor, Min(highWater, |events|), highWater);
            var k := AcceptedCount(seedBytes, all, 0);
            && k <= |all|
            && w == SeedWindow(SeedIds(all[..k]), all[..k], LastSequence(all[..k]),
                               Undecodable(events, cursor, Min(highWater, |events|), highWater), |all| - k)
    ensures Distinct(Ids(events)) ==> WindowExact(seedBytes, events, cursor, Min(highWater, |events|), w)
  {
    hide WindowExact;
    hide DecodeSeed, Undecodable, Scanned;
    var seeds: seq<SleepSeed> := [];
    var invalid, available, accepting := 0, 0, true;
    ghost var all := [];
    ScanStart(seedBytes, events, cursor, highWater);
    for index := 0 to |events|
      invariant all == DecodedBetween(events, cursor, Min(highWater, index), highWater)
      invariant invalid == Undecodable(events, cursor, Min(highWater, index), highWater)
      invariant available == |all| && Scanned(seedBytes, all, seeds, accepting)
    {
      ScanStep(events, cursor, highWater, index);
      var sequence := index + 1;
      if sequence <= cursor || sequence > highWater {
        continue;
      }
      if !events[index].body.ObservationRecorded? {
        continue;
      }
      var decoded := DecodeSeed(events, events[index].id, highWater);
      if decoded.None? {
        invalid := invalid + 1;
        continue;
      }
      available := available + 1;
      ScannedMore(seedBytes, all, seeds, accepting, decoded.value);
      all := all + [decoded.value];
      if !accepting {
        continue;
      }
      if |seeds| >= MAX_SLEEP_SEEDS || seedBytes(seeds + [decoded.value]) > SLEEP_SEED_BUDGET_BYTES {
        accepting := false;
        continue;
      }
      seeds := seeds + [decoded.value];
    }
    ScannedCount(seedBytes, all, seeds, accepting);
    w := SeedWindow(SeedIds(seeds), seeds, LastSequence(seeds), invalid, available - |seeds|);
    if Distinct(Ids(events)) {
      DecodedIsSeeds(events, cursor, Min(highWater, |events|), highWater);
      AcceptedIsExact(seedBytes, events, cursor, highWater, Min(highWater, |events|), w);
    }
  }

  // ---------------------------------------------------------------- the seed window of a resumed run

  function DecodeAll(events: seq<Event>, ids: seq<EventId>, highWater: nat): seq<SleepSeed> {
    if ids == [] then []
    else
      var seed := DecodeSeed(events, ids[|ids| - 1], highWater);
      DecodeAll(events, ids[..|ids| - 1], highWater) + (if seed.Some? then [seed.value] else [])
  }

  function RunCursorAfter(events: seq<Event>, run: SleepRun): Option<nat> {
    if run.seeds == [] then None
    else
      match IndexOf(Ids(events), run.seeds[|run.seeds| - 1])
      case None => None
      case Some(i) => Some(i + 1)
  }

  lemma DecodeWindowSeed(events: seq<Event>, lo: nat, hi: nat, k: nat, highWater: nat)
    requires hi <= |events| && hi <= highWater && Distinct(Ids(events))
    requires k < |SeedsBetween(events, lo, hi)|
    ensures var seed := SeedsBetween(events, lo, hi)[k];
            && DecodeSeed(events, seed.event, highWater) == Some(seed)
            && IndexOf(Ids(events), seed.event) == Some(seed.sequence - 1)
  {
    var seed := SeedsBetween(events, lo, hi)[k];
    SeedsOrdered(events, lo, hi);
    assert events[seed.sequence - 1].id == seed.event;
    DecodeFindsSeed(events, seed.sequence - 1, highWater);
    IndexOfDistinct(Ids(events), seed.sequence - 1);
  }

  /** Recorded seeds that are a prefix of a window decode back to that prefix. */
  lemma {:induction false} DecodeAllRecovers(events: seq<Event>, lo: nat, hi: nat, k: nat, highWater: nat)
    requires hi <= |events| && hi <= highWater && Distinct(Ids(events))
    requires k <= |SeedsBetween(events, lo, hi)|
    ensures DecodeAll(events, SeedIds(SeedsBetween(events, lo, hi)[..k]), highWater)
            == SeedsBetween(events, lo, hi)[..k]
  {
    if k > 0 {
      var all := SeedsBetween(events, lo, hi);
      var ids := SeedIds(all[..k]);
      DecodeAllRecovers(events, lo, hi, k - 1, highWater);
      DecodeWindowSeed(events, lo, hi, k - 1, highWater);
      assert ids[..k - 1] == SeedIds(all[..k - 1]);
      assert ids[k - 1] == all[k - 1].event;
      assert all[..k] == all[..k - 1] + [all[k - 1]];
    }
  }
}
