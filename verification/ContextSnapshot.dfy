/** Building a context snapshot that reports its own serialized size. */
module ContextSnapshot {
  import opened Prelude
  import opened Ordering
  import opened Selection

  type EventId = nat

  // ---------------------------------------------------------------- decimal digits

  function Digits(n: nat): nat {
    if n < 10 then 1 else 1 + Digits(n / 10)
  }

  function Pow10(k: nat): nat {
    if k == 0 then 1 else 10 * Pow10(k - 1)
  }

  lemma {:induction false} DigitsBound(n: nat, k: nat)
    requires k >= 1
    ensures Digits(n) <= k <==> n < Pow10(k)
  {
    if k == 1 {
      assert Pow10(1) == 10 * Pow10(0);
    } else if n >= 10 {
      DigitsBound(n / 10, k - 1);
    } else {
      PowAbove(k);
      PowAbove(k - 1);
    }
  }

  lemma {:induction false} PowAbove(k: nat)
    ensures Pow10(k) > k && (k >= 1 ==> Pow10(k) >= 10)
  {
    if k > 0 { PowAbove(k - 1); }
  }

  lemma DigitsMonotone(a: nat, b: nat)
    requires a <= b
    ensures 1 <= Digits(a) <= Digits(b)
  {
    DigitsBound(b, Digits(b));
    DigitsBound(a, Digits(b));
  }

  // ---------------------------------------------------------------- the size a snapshot reports

  /** The length in round `round`: everything but the reported total, plus the
      digits of the total that the round before measured. */
  function Size(rest: nat, round: nat): nat {
    if round == 0 then 0 else rest + Digits(Size(rest, round - 1))
  }

  /** The round in which the reported total is the length itself. */
  function SettleRound(rest: nat): nat {
    if Size(rest, 2) == Size(rest, 1) then 2 else if Size(rest, 3) == Size(rest, 2) then 3 else 4
  }

  lemma FirstSizes(rest: nat)
    ensures Size(rest, 1) == rest + 1
    ensures Size(rest, 2) == rest + Digits(rest + 1)
    ensures Size(rest, 3) == rest + Digits(rest + Digits(rest + 1))
    ensures Size(rest, 4) == rest + Digits(rest + Digits(rest + Digits(rest + 1)))
  {
    assert Size(rest, 0) == 0;
    assert Size(rest, 1) == rest + Digits(0);
    assert Size(rest, 2) == rest + Digits(Size(rest, 1));
    assert Size(rest, 3) == rest + Digits(Size(rest, 2));
    assert Size(rest, 4) == rest + Digits(Size(rest, 3));
  }

  /** Adding the digits of a number to what it was measured from can cross one power
      of ten, and not a second one. */
  lemma OneCrossing(rest: nat)
    ensures var a := rest + 1;
            var b := rest + Digits(a);
            var c := rest + Digits(b);
            a <= b <= c && rest + Digits(c) >= c && (b == a || c == b || rest + Digits(c) == c)
  {
    var d := Digits(rest + 1);
    assert Pow10(d + 1) == 10 * Pow10(d);
    hide Digits, Pow10;
    DigitsMonotone(0, rest + 1);
    DigitsMonotone(rest + 1, rest + d);
    DigitsBound(rest + 1, d);
    PowAbove(d);
    DigitsBound(rest + d, d + 1);
    DigitsBound(rest + d + 1, d + 1);
    DigitsMonotone(rest + d, rest + d + 1);
  }

  /** The size is stable after at most four rounds. */
  lemma Settles(rest: nat)
    ensures 2 <= SettleRound(rest) <= 4
    ensures Size(rest, SettleRound(rest)) == Size(rest, SettleRound(rest) - 1)
  {
    hide Digits;
    FirstSizes(rest);
    OneCrossing(rest);
  }

  /** Before that it grows from round to round. */
  lemma GrowsUntilSettled(rest: nat, j: nat)
    requires j < SettleRound(rest) - 1
    ensures Size(rest, j) < Size(rest, j + 1)
  {
    assert Size(rest, 0) == 0;
    hide Digits;
    Settles(rest);
    FirstSizes(rest);
    OneCrossing(rest);
    assert j == 0 || j == 1 || j == 2;
  }

  lemma {:induction false} SizesGrow(rest: nat, i: nat, j: nat)
    requires i <= j <= SettleRound(rest)
    ensures Size(rest, i) <= Size(rest, j)
    decreases j
  {
    hide Size;
    Settles(rest);
    if i < j {
      SizesGrow(rest, i, j - 1);
      if j < SettleRound(rest) { GrowsUntilSettled(rest, j - 1); }
    }
  }

  // ---------------------------------------------------------------- the sections

  datatype Item = Item(recall: bool, text: string, sources: seq<EventId>)

  /** What the snapshot still holds and how much was dropped so far. */
  datatype Sections = Sections(middle: seq<Item>, active: seq<Item>, droppedMiddle: nat, droppedActive: nat)

  /** Position of the last recalled item. */
  function LastRecall(items: seq<Item>): (r: Option<nat>)
    ensures r.Some? ==> r.value < |items| && items[r.value].recall
    ensures r.Some? ==> forall i | r.value < i < |items| :: !items[i].recall
    ensures r.None? ==> forall i | 0 <= i < |items| :: !items[i].recall
  {
    if items == [] then None
    else if items[|items| - 1].recall then Some(|items| - 1)
    else LastRecall(items[..|items| - 1])
  }

  function WithoutAt(items: seq<Item>, i: nat): (r: seq<Item>)
    requires i < |items|
    ensures |r| == |items| - 1
  {
    items[..i] + items[i + 1..]
  }

  /** Drops one item for the hard limit: the last recall, else the end of the
      middle, else the first of the active items. */
  function Dropped(s: Sections): Option<Sections> {
    var recall := LastRecall(s.active);
    if recall.Some? then Some(s.(active := WithoutAt(s.active, recall.value), droppedActive := s.droppedActive + 1))
    else if s.middle != [] then Some(s.(middle := s.middle[..|s.middle| - 1], droppedMiddle := s.droppedMiddle + 1))
    else if s.active != [] then Some(s.(active := s.active[1..], droppedActive := s.droppedActive + 1))
    else None
  }

  ghost predicate HasRecall(items: seq<Item>) {
    exists i | 0 <= i < |items| :: items[i].recall
  }

  /** One item less than `items`: its last recall. */
  ghost predicate LastRecallGone(items: seq<Item>, left: seq<Item>) {
    exists i | 0 <= i < |items| ::
      && items[i].recall && left == items[..i] + items[i + 1..]
      && forall k | i < k < |items| :: !items[k].recall
  }

  /** What dropping one item for the hard limit means. */
  ghost predicate DroppedOne(s: Sections, t: Sections, dropped: bool) {
    if HasRecall(s.active) then
      dropped && LastRecallGone(s.active, t.active) && t == s.(active := t.active, droppedActive := s.droppedActive + 1)
    else if s.middle != [] then
      && dropped && (exists x :: s.middle == t.middle + [x])
      && t == s.(middle := t.middle, droppedMiddle := s.droppedMiddle + 1)
    else if s.active != [] then
      && dropped && (exists x :: s.active == [x] + t.active)
      && t == s.(active := t.active, droppedActive := s.droppedActive + 1)
    else !dropped && t == s
  }

  lemma DroppedMeaning(s: Sections)
    ensures match Dropped(s)
            case Some(t) => DroppedOne(s, t, true)
            case None => DroppedOne(s, s, false)
  {
    var recall := LastRecall(s.active);
    if recall.Some? {
      var i := recall.value;
      assert s.active[i].recall;
      assert LastRecallGone(s.active, WithoutAt(s.active, i));
    } else if s.middle != [] {
      assert s.middle == s.middle[..|s.middle| - 1] + [s.middle[|s.middle| - 1]];
    } else if s.active != [] {
      assert s.active == [s.active[0]] + s.active[1..];
    }
  }

  function Held(s: Sections): nat {
    |s.middle| + |s.active|
  }

  /** The sections while they are built, changed in place. */
  class SectionState {
    var middle: seq<Item>
    var active: seq<Item>
    var droppedMiddle: nat
    var droppedActive: nat

    constructor (middle: seq<Item>, droppedMiddle: nat, active: seq<Item>, droppedActive: nat)
      ensures View() == Sections(middle, active, droppedMiddle, droppedActive)
    {
      this.middle, this.droppedMiddle, this.active, this.droppedActive := middle, droppedMiddle, active, droppedActive;
    }

    function View(): Sections
      reads this
    {
      Sections(middle, active, droppedMiddle, droppedActive)
    }

    /** Drops the last recall, else the end of the middle, else the first of the active
        items; when nothing is left it says so. */
    method DropForHardLimit() returns (dropped: bool)
      modifies this
      ensures dropped <==> Dropped(old(View())).Some?
      ensures View() == if dropped then Dropped(old(View())).value else old(View())
      ensures DroppedOne(old(View()), View(), dropped)
    {
      DroppedMeaning(View());
      var index := |active|;
      while index > 0 && !active[index - 1].recall
        invariant 0 <= index <= |active|
        invariant forall i | index <= i < |active| :: !active[i].recall
      {
        index := index - 1;
      }
      ghost var last := LastRecall(active);
      if index > 0 {
        assert last == Some(index - 1);
        active := active[..index - 1] + active[index..];
        droppedActive := droppedActive + 1;
        return true;
      }
      assert last.None?;
      if middle != [] {
        middle := middle[..|middle| - 1];
        droppedMiddle := droppedMiddle + 1;
        return true;
      }
      if active != [] {
        active := active[1..];
        droppedActive := droppedActive + 1;
        return true;
      }
      return false;
    }
  }

  /** The first `count` candidates, less those that did not fit when their turn came. */
  function Selected(bytes: seq<Item> -> nat, items: seq<Item>, budget: nat, count: nat): (r: seq<Item>)
    requires count <= |items|
    ensures |r| <= count
  {
    if count == 0 then []
    else
      var earlier := Selected(bytes, items, budget, count - 1);
      if bytes(earlier + [items[count - 1]]) > budget then earlier else earlier + [items[count - 1]]
  }

  lemma {:induction false} SelectedFits(bytes: seq<Item> -> nat, items: seq<Item>, budget: nat, count: nat)
    requires count <= |items|
    ensures var kept := Selected(bytes, items, budget, count);
            (kept == [] || bytes(kept) <= budget) && multiset(kept) <= multiset(items[..count])
  {
    if count > 0 {
      SelectedFits(bytes, items, budget, count - 1);
      assert items[..count] == items[..count - 1] + [items[count - 1]];
    }
  }

  function Within(bytes: seq<Item> -> nat, budget: nat): (nat, seq<Item>) -> bool {
    (i: nat, list: seq<Item>) => bytes(list) <= budget
  }

  /** A candidate is kept exactly when it fits behind those kept before it. */
  ghost predicate InTurn(bytes: seq<Item> -> nat, items: seq<Item>, budget: nat, kept: seq<Item>) {
    exists places :: TakenInTurn(Within(bytes, budget), items, kept, places)
  }

  lemma {:induction false} SelectedInTurn(bytes: seq<Item> -> nat, items: seq<Item>, budget: nat, count: nat)
    requires count <= |items|
    ensures InTurn(bytes, items[..count], budget, Selected(bytes, items, budget, count))
  {
    hide TakenInTurn;
    if count == 0 {
      NothingTaken(Within(bytes, budget));
      assert items[..0] == [];
    } else {
      SelectedInTurn(bytes, items, budget, count - 1);
      var kept := Selected(bytes, items, budget, count - 1);
      var places :| TakenInTurn(Within(bytes, budget), items[..count - 1], kept, places);
      TakeNext(Within(bytes, budget), items[..count - 1], kept, places, items[count - 1]);
      assert items[..count] == items[..count - 1] + [items[count - 1]];
    }
  }

  /** There is one such list; it is the whole offer when every part of the offer fits. */
  lemma InTurnOnce(bytes: seq<Item> -> nat, items: seq<Item>, budget: nat, kept: seq<Item>)
    requires InTurn(bytes, items, budget, kept)
    ensures kept == Selected(bytes, items, budget, |items|)
    ensures (forall k | 0 < k <= |items| :: bytes(items[..k]) <= budget) ==> kept == items
  {
    hide TakenInTurn;
    SelectedInTurn(bytes, items, budget, |items|);
    assert items[..|items|] == items;
    var fits, other := Within(bytes, budget), Selected(bytes, items, budget, |items|);
    var p :| TakenInTurn(fits, items, kept, p);
    var q :| TakenInTurn(fits, items, other, q);
    TakenOnce(fits, items, kept, p, other, q);
    if forall k | 0 < k <= |items| :: bytes(items[..k]) <= budget {
      forall k: nat | k < |items| ensures fits(k, items[..k] + [items[k]]) {
        assert items[..k + 1] == items[..k] + [items[k]];
      }
      AllTaken(fits, items, kept, p);
    }
  }

  /** Pushes each candidate and pops it again when the list no longer fits. */
  method SelectByBudget(bytes: seq<Item> -> nat, items: seq<Item>, budget: nat) returns (kept: seq<Item>, dropped: nat)
    ensures kept == Selected(bytes, items, budget, |items|)
    ensures |kept| + dropped == |items|
    ensures InTurn(bytes, items, budget, kept)
    ensures (forall k | 0 < k <= |items| :: bytes(items[..k]) <= budget) ==> kept == items && dropped == 0
  {
    hide InTurn;
    SelectedInTurn(bytes, items, budget, |items|);
    assert items[..|items|] == items;
    InTurnOnce(bytes, items, budget, Selected(bytes, items, budget, |items|));
    kept, dropped := [], 0;
    for i := 0 to |items|
      invariant kept == Selected(bytes, items, budget, i)
      invariant |kept| + dropped == i
    {
      kept := kept + [items[i]];
      if bytes(kept) > budget {
        kept := kept[..|kept| - 1];
        dropped := dropped + 1;
      }
    }
  }

  // ---------------------------------------------------------------- the size loop

  datatype BuildError = AnchorBudgetExceeded(bytes: nat) | DidNotStabilize

  /** A snapshot on the way: its sections and the total it would report. */
  datatype Draft = Draft(sections: Sections, totalBytes: nat)

  /** The serialized length of a snapshot apart from the digits of the total it reports.
      Anchors and profile stay the same in all rounds, and the sections decide the
      references and the rest of the report; the snapshot hash has a fixed length. */
  type Measure = Sections -> nat

  function DraftLength(rest: Measure, draft: Draft): nat {
    rest(draft.sections) + Digits(draft.totalBytes)
  }

  /** What the loop does with this many rounds left. */
  function Rounds(rest: Measure, limit: nat, s: Sections, hint: nat, left: nat): Result<Draft, BuildError>
    decreases left
  {
    if left == 0 then Err(DidNotStabilize)
    else
      var total := DraftLength(rest, Draft(s, hint));
      if total > limit then
        match Dropped(s)
        case Some(next) => Rounds(rest, limit, next, 0, left - 1)
        case None => Err(AnchorBudgetExceeded(total))
      else if hint == total then Ok(Draft(s, total))
      else Rounds(rest, limit, s, total, left - 1)
  }

  /** The events the items rest on, in order and without repetition. */
  function Cited(items: seq<Item>): seq<EventId> {
    if items == [] then [] else Cited(items[..|items| - 1]) + items[|items| - 1].sources
  }

  function SourceRefs(items: seq<Item>, profile: seq<EventId>): seq<EventId> {
    DedupIds(Cited(items) + profile)
  }

  method CollectSources(items: seq<Item>, profile: seq<EventId>) returns (refs: seq<EventId>)
    ensures refs == SourceRefs(items, profile)
  {
    var cited := [];
    for i := 0 to |items|
      invariant cited == Cited(items[..i])
    {
      cited := cited + items[i].sources;
      assert items[..i + 1][..i] == items[..i];
    }
    assert items[..|items|] == items;
    return DedupIds(cited + profile);
  }

  datatype Report = Report(
    anchorBytes: nat, middleBytes: nat, activeBytes: nat, totalBytes: nat, includedItems: nat, droppedMiddle: nat,
    droppedActive: nat, hardLimit: nat)
  datatype Snapshot = Snapshot(
    anchors: seq<Item>, middle: seq<Item>, active: seq<Item>, report: Report, sourceRefs: seq<EventId>)

  /** The snapshot a draft stands for. */
  function Assemble(
    bytes: seq<Item> -> nat, anchors: seq<Item>, profile: seq<EventId>, hardLimit: nat, d: Draft): Snapshot
  {
    var s := d.sections;
    Snapshot(
      anchors, s.middle, s.active,
      Report(bytes(anchors), bytes(s.middle), bytes(s.active), d.totalBytes,
             |anchors| + |s.middle| + |s.active|, s.droppedMiddle, s.droppedActive, hardLimit),
      SourceRefs(anchors + s.middle + s.active, profile))
  }

  function Outcome(
    bytes: seq<Item> -> nat, anchors: seq<Item>, profile: seq<EventId>, hardLimit: nat, r: Result<Draft, BuildError>):
    Result<Snapshot, BuildError>
  {
    match r
    case Ok(draft) => Ok(Assemble(bytes, anchors, profile, hardLimit, draft))
    case Err(error) => Err(error)
  }

  lemma RoundStep(rest: Measure, limit: nat, s: Sections, hint: nat, left: nat)
    ensures var total := DraftLength(rest, Draft(s, hint));
            Rounds(rest, limit, s, hint, left)
            == if left == 0 then Err(DidNotStabilize)
               else if total > limit then
                 if Dropped(s).None? then Err(AnchorBudgetExceeded(total))
                 else Rounds(rest, limit, Dropped(s).value, 0, left - 1)
               else if hint == total then Ok(Draft(s, total))
               else Rounds(rest, limit, s, total, left - 1)
  {
    hide Dropped, Digits;
  }

  /** At most eight rounds: each measures the snapshot with the total the round
      before reported, drops an item when it is over the hard limit, and stops
      when the reported total is the length. */
  method BuildSnapshot(
    bytes: seq<Item> -> nat, rest: Measure, anchors: seq<Item>, profile: seq<EventId>, middleCandidates: seq<Item>,
    activeCandidates: seq<Item>, anchorBudget: nat, middleBudget: nat, activeBudget: nat, hardLimit: nat)
    returns (r: Result<Snapshot, BuildError>)
    ensures bytes(anchors) > anchorBudget ==> r == Err(AnchorBudgetExceeded(bytes(anchors)))
    ensures bytes(anchors) <= anchorBudget ==>
              r == Outcome(bytes, anchors, profile, hardLimit,
                           Rounds(rest, hardLimit,
                                  Start(bytes, middleCandidates, activeCandidates, middleBudget, activeBudget), 0, 8))
    ensures exists s :: Offered(bytes, middleCandidates, activeCandidates, middleBudget, activeBudget, s)
    ensures forall s | Offered(bytes, middleCandidates, activeCandidates, middleBudget, activeBudget, s) ::
              && (r.Ok? ==> ShrunkInOrder(s, SectionsOf(r.value)))
              && (bytes(anchors) <= anchorBudget && Size(rest(s), SettleRound(rest(s))) <= hardLimit ==>
                    r.Ok? && SectionsOf(r.value) == s)
  {
    hide Dropped, Digits, Selected, SourceRefs, Rounds, InTurn, Size, SettleRound, DroppedOne, ShrunkInOrder, Offered;
    BuiltInOrder(bytes, rest, middleCandidates, activeCandidates, middleBudget, activeBudget, hardLimit);
    assert Offered(bytes, middleCandidates, activeCandidates, middleBudget, activeBudget,
                   Start(bytes, middleCandidates, activeCandidates, middleBudget, activeBudget));
    var anchorBytes := bytes(anchors);
    if anchorBytes > anchorBudget {
      return Err(AnchorBudgetExceeded(anchorBytes));
    }
    var middle, droppedMiddle := SelectByBudget(bytes, middleCandidates, middleBudget);
    var active, droppedActive := SelectByBudget(bytes, activeCandidates, activeBudget);
    var state := new SectionState(middle, droppedMiddle, active, droppedActive);
    ghost var start := state.View();
    var hint: nat := 0;
    for round := 0 to 8
      invariant Rounds(rest, hardLimit, start, 0, 8) == Rounds(rest, hardLimit, state.View(), hint, 8 - round)
    {
      RoundStep(rest, hardLimit, state.View(), hint, 8 - round);
      var refs := CollectSources(anchors + state.middle + state.active, profile);
      var report := Report(
        anchorBytes, bytes(state.middle), bytes(state.active), hint, |anchors| + |state.middle| + |state.active|,
        state.droppedMiddle, state.droppedActive, hardLimit);
      var snapshot := Snapshot(anchors, state.middle, state.active, report, refs);
      var total := DraftLength(rest, Draft(state.View(), hint));
      if total > hardLimit {
        var dropped := state.DropForHardLimit();
        if dropped {
          hint := 0;
          continue;
        }
        return Err(AnchorBudgetExceeded(total));
      }
      if snapshot.report.totalBytes == total {
        return Ok(snapshot);
      }
      hint := total;
    }
    RoundStep(rest, hardLimit, state.View(), hint, 0);
    return Err(DidNotStabilize);
  }

  /** The sections the loop starts from. */
  function Start(
    bytes: seq<Item> -> nat, middleCandidates: seq<Item>, activeCandidates: seq<Item>, middleBudget: nat,
    activeBudget: nat): Sections
  {
    var middle := Selected(bytes, middleCandidates, middleBudget, |middleCandidates|);
    var active := Selected(bytes, activeCandidates, activeBudget, |activeCandidates|);
    Sections(middle, active, |middleCandidates| - |middle|, |activeCandidates| - |active|)
  }

  /** The sections as the candidates fill them in turn, before anything is dropped for
      the hard limit. */
  ghost predicate Offered(
    bytes: seq<Item> -> nat, middleCandidates: seq<Item>, activeCandidates: seq<Item>, middleBudget: nat,
    activeBudget: nat, s: Sections)
  {
    && InTurn(bytes, middleCandidates, middleBudget, s.middle) && |s.middle| + s.droppedMiddle == |middleCandidates|
    && InTurn(bytes, activeCandidates, activeBudget, s.active) && |s.active| + s.droppedActive == |activeCandidates|
  }

  lemma OfferedIsStart(
    bytes: seq<Item> -> nat, middleCandidates: seq<Item>, activeCandidates: seq<Item>, middleBudget: nat,
    activeBudget: nat, s: Sections)
    ensures Offered(bytes, middleCandidates, activeCandidates, middleBudget, activeBudget, s)
            <==> s == Start(bytes, middleCandidates, activeCandidates, middleBudget, activeBudget)
  {
    hide InTurn, Selected;
    SelectedInTurn(bytes, middleCandidates, middleBudget, |middleCandidates|);
    SelectedInTurn(bytes, activeCandidates, activeBudget, |activeCandidates|);
    assert middleCandidates[..|middleCandidates|] == middleCandidates;
    assert activeCandidates[..|activeCandidates|] == activeCandidates;
    if Offered(bytes, middleCandidates, activeCandidates, middleBudget, activeBudget, s) {
      InTurnOnce(bytes, middleCandidates, middleBudget, s.middle);
      InTurnOnce(bytes, activeCandidates, activeBudget, s.active);
    }
  }

  function SectionsOf(snapshot: Snapshot): Sections {
    Sections(snapshot.middle, snapshot.active, snapshot.report.droppedMiddle, snapshot.report.droppedActive)
  }

  /** In terms of the candidates: a snapshot holds what they fill the sections with in
      turn, less what had to go for the hard limit. */
  lemma BuiltInOrder(
    bytes: seq<Item> -> nat, rest: Measure, middleCandidates: seq<Item>, activeCandidates: seq<Item>,
    middleBudget: nat, activeBudget: nat, limit: nat)
    ensures var start := Start(bytes, middleCandidates, activeCandidates, middleBudget, activeBudget);
            var r := Rounds(rest, limit, start, 0, 8);
            && (forall s :: Offered(bytes, middleCandidates, activeCandidates, middleBudget, activeBudget, s) <==> s == start)
            && (r.Ok? ==> ShrunkInOrder(start, r.value.sections))
            && (Size(rest(start), SettleRound(rest(start))) <= limit ==> r.Ok? && r.value.sections == start)
  {
    hide Offered, Start, ShrunkInOrder, Size, SettleRound, Digits, Rounds;
    var start := Start(bytes, middleCandidates, activeCandidates, middleBudget, activeBudget);
    forall s ensures Offered(bytes, middleCandidates, activeCandidates, middleBudget, activeBudget, s) <==> s == start {
      OfferedIsStart(bytes, middleCandidates, activeCandidates, middleBudget, activeBudget, s);
    }
    NothingShrunk(start);
    if Rounds(rest, limit, start, 0, 8).Ok? { GoneInOrder(rest, limit, start, start, 0, 8); }
    if Size(rest(start), SettleRound(rest(start))) <= limit {
      Settles(rest(start));
      NeverExceeds(rest(start), limit, 1);
      ZeroSize(rest(start));
      FromRound(rest, limit, start, 0, 8);
    }
  }

  lemma ZeroSize(rest: nat)
    ensures Size(rest, 0) == 0
  {
  }

  /** When every part of both offers fits, the sections start with all of it. */
  lemma AllOffered(
    bytes: seq<Item> -> nat, middleCandidates: seq<Item>, activeCandidates: seq<Item>, middleBudget: nat, activeBudget: nat)
    requires forall k | 0 < k <= |middleCandidates| :: bytes(middleCandidates[..k]) <= middleBudget
    requires forall k | 0 < k <= |activeCandidates| :: bytes(activeCandidates[..k]) <= activeBudget
    ensures Offered(bytes, middleCandidates, activeCandidates, middleBudget, activeBudget,
                    Sections(middleCandidates, activeCandidates, 0, 0))
  {
    hide InTurn, Selected;
    SelectedInTurn(bytes, middleCandidates, middleBudget, |middleCandidates|);
    SelectedInTurn(bytes, activeCandidates, activeBudget, |activeCandidates|);
    assert middleCandidates[..|middleCandidates|] == middleCandidates;
    assert activeCandidates[..|activeCandidates|] == activeCandidates;
    InTurnOnce(bytes, middleCandidates, middleBudget, Selected(bytes, middleCandidates, middleBudget, |middleCandidates|));
    InTurnOnce(bytes, activeCandidates, activeBudget, Selected(bytes, activeCandidates, activeBudget, |activeCandidates|));
  }

  // ---------------------------------------------------------------- what a success means

  /** The second holds a part of what the first holds and counts the difference as dropped. */
  ghost predicate Shrinks(s: Sections, t: Sections) {
    && t.middle <= s.middle
    && multiset(t.active) <= multiset(s.active)
    && |t.middle| + t.droppedMiddle == |s.middle| + s.droppedMiddle
    && |t.active| + t.droppedActive == |s.active| + s.droppedActive
  }

  lemma DroppedShrinks(s: Sections)
    requires Dropped(s).Some?
    ensures Shrinks(s, Dropped(s).value) && Held(Dropped(s).value) == Held(s) - 1
  {
    var recall := LastRecall(s.active);
    if recall.Some? {
      var i := recall.value;
      assert s.active == s.active[..i] + [s.active[i]] + s.active[i + 1..];
    } else if s.active != [] {
      assert s.active == [s.active[0]] + s.active[1..];
    }
  }

  /** The items left of a list are those at increasing places. */
  ghost predicate AtPlaces(items: seq<Item>, left: seq<Item>, places: seq<nat>) {
    && |places| == |left|
    && (forall j, k | 0 <= j < k < |places| :: places[j] < places[k])
    && (forall j | 0 <= j < |places| :: places[j] < |items| && left[j] == items[places[j]])
  }

  /** Recalls go from the last one on, other items from the first one on. */
  ghost predicate GoneInTurn(items: seq<Item>, places: seq<nat>) {
    && (forall i: nat, k: nat | i < k < |items| && items[i].recall && items[k].recall :: k in places ==> i in places)
    && (forall i: nat, k: nat | i < k < |items| && !items[i].recall && !items[k].recall :: i in places ==> k in places)
  }

  /** The places of the active items that are left, when items went in this order: the
      recalls from the last one, then the middle from its end, then the other active
      items from the first one. */
  ghost predicate LeftInOrder(s: Sections, t: Sections, places: seq<nat>) {
    && t.middle <= s.middle
    && AtPlaces(s.active, t.active, places)
    && GoneInTurn(s.active, places)
    && (t.middle != s.middle ==> !HasRecall(t.active))
    && ((exists i: nat | i < |s.active| :: !s.active[i].recall && i !in places) ==> !HasRecall(t.active) && t.middle == [])
  }

  /** The second holds what the first does after some items went in order, and counts them. */
  ghost predicate ShrunkInOrder(s: Sections, t: Sections) {
    && (exists places :: LeftInOrder(s, t, places))
    && |t.middle| + t.droppedMiddle == |s.middle| + s.droppedMiddle
    && |t.active| + t.droppedActive == |s.active| + s.droppedActive
  }

  lemma NothingShrunk(s: Sections)
    ensures ShrunkInOrder(s, s)
  {
    assert LeftInOrder(s, s, seq(|s.active|, i => i));
  }

  /** The places without one of them. */
  lemma PlaceGoes(items: seq<Item>, left: seq<Item>, places: seq<nat>, i: nat)
    requires AtPlaces(items, left, places) && i < |places|
    ensures AtPlaces(items, WithoutAt(left, i), places[..i] + places[i + 1..])
    ensures forall k: nat :: k in places[..i] + places[i + 1..] <==> k in places && k != places[i]
  {
    var fewer := places[..i] + places[i + 1..];
    forall k: nat ensures k in fewer <==> k in places && k != places[i] {
      if k in places && k != places[i] {
        var j :| 0 <= j < |places| && places[j] == k;
        assert k == fewer[if j < i then j else j - 1];
      }
    }
  }

  /** The last recall goes. */
  lemma RecallInTurn(items: seq<Item>, left: seq<Item>, places: seq<nat>, i: nat)
    requires AtPlaces(items, left, places) && GoneInTurn(items, places) && LastRecall(left) == Some(i)
    ensures GoneInTurn(items, places[..i] + places[i + 1..])
  {
    PlaceGoes(items, left, places, i);
    var fewer := places[..i] + places[i + 1..];
    assert items[places[i]].recall;
    forall a: nat, k: nat | a < k < |items| && items[a].recall && items[k].recall && k in fewer ensures a in fewer {
      var j :| 0 <= j < |places| && places[j] == k;
      assert left[j].recall;
      assert j <= i;
    }
    forall a: nat, k: nat | a < k < |items| && !items[a].recall && !items[k].recall && a in fewer ensures k in fewer {}
  }

  lemma RecallGoes(s: Sections, t: Sections, places: seq<nat>, i: nat)
    requires LeftInOrder(s, t, places) && LastRecall(t.active) == Some(i)
    ensures i < |places|
    ensures LeftInOrder(s, t.(active := WithoutAt(t.active, i), droppedActive := t.droppedActive + 1),
                        places[..i] + places[i + 1..])
  {
    PlaceGoes(s.active, t.active, places, i);
    RecallInTurn(s.active, t.active, places, i);
    assert s.active[places[i]].recall && t.active[i].recall;
    hide AtPlaces, GoneInTurn;
  }

  /** The places without the first one, which all come after it. */
  lemma FirstPlaceGoes(items: seq<Item>, left: seq<Item>, places: seq<nat>)
    requires AtPlaces(items, left, places) && left != []
    ensures places != [] && places[0] < |items| && items[places[0]] == left[0]
    ensures AtPlaces(items, left[1..], places[1..])
    ensures forall k: nat :: k in places[1..] <==> k in places && k != places[0]
    ensures forall k | k in places[1..] :: places[0] < k
  {
    var others := places[1..];
    assert places == [places[0]] + others;
    forall k | k in others ensures places[0] < k {
      var j :| 0 <= j < |others| && others[j] == k;
      assert places[j + 1] == k;
    }
  }

  /** The first item goes, which is no recall. */
  lemma FirstInTurn(items: seq<Item>, left: seq<Item>, places: seq<nat>)
    requires AtPlaces(items, left, places) && GoneInTurn(items, places) && left != [] && !HasRecall(left)
    ensures places != [] && AtPlaces(items, left[1..], places[1..]) && GoneInTurn(items, places[1..])
    ensures !HasRecall(left[1..])
  {
    FirstPlaceGoes(items, left, places);
    assert !left[0].recall;
    forall j | 0 <= j < |left| - 1 ensures !left[1..][j].recall { assert left[1..][j] == left[j + 1]; }
    hide AtPlaces, HasRecall;
    forall a: nat, k: nat | a < k < |items| && !items[a].recall && !items[k].recall && a in places[1..]
      ensures k in places[1..]
    {
      assert a in places;
    }
  }

  lemma FirstGoes(s: Sections, t: Sections, places: seq<nat>)
    requires LeftInOrder(s, t, places) && !HasRecall(t.active) && t.middle == [] && t.active != []
    ensures places != []
    ensures LeftInOrder(s, t.(active := t.active[1..], droppedActive := t.droppedActive + 1), places[1..])
  {
    FirstInTurn(s.active, t.active, places);
    hide AtPlaces, GoneInTurn, HasRecall;
  }

  /** The end of the middle goes. */
  lemma MiddleGoes(s: Sections, t: Sections, places: seq<nat>)
    requires LeftInOrder(s, t, places) && !HasRecall(t.active) && t.middle != []
    ensures LeftInOrder(s, t.(middle := t.middle[..|t.middle| - 1], droppedMiddle := t.droppedMiddle + 1), places)
  {
    hide AtPlaces, GoneInTurn, HasRecall;
  }

  lemma ShrinksOn(s: Sections, t: Sections)
    requires ShrunkInOrder(s, t) && Dropped(t).Some?
    ensures ShrunkInOrder(s, Dropped(t).value)
  {
    hide LeftInOrder, HasRecall;
    var places :| LeftInOrder(s, t, places);
    var recall := LastRecall(t.active);
    RecallOrNot(t.active);
    var next := Dropped(t).value;
    if recall.Some? {
      RecallGoes(s, t, places, recall.value);
      assert LeftInOrder(s, next, places[..recall.value] + places[recall.value + 1..]);
    } else if t.middle != [] {
      MiddleGoes(s, t, places);
      assert LeftInOrder(s, next, places);
    } else {
      FirstGoes(s, t, places);
      assert LeftInOrder(s, next, places[1..]);
    }
  }

  lemma RecallOrNot(items: seq<Item>)
    ensures LastRecall(items).Some? <==> HasRecall(items)
  {
  }

  /** What is left is a part of what was there. */
  lemma ShrunkIsPart(s: Sections, t: Sections)
    requires ShrunkInOrder(s, t)
    ensures t.middle <= s.middle && Held(t) <= Held(s) && (Held(t) == Held(s) ==> t == s)
    ensures forall x | x in t.active :: x in s.active
  {
    var places :| LeftInOrder(s, t, places);
    PlacesAbove(places, |s.active|);
  }

  /** Increasing places are no more than the numbers they are among, and are all of
      them when they are as many. */
  lemma {:induction false} PlacesAbove(places: seq<nat>, n: nat)
    requires forall j, k | 0 <= j < k < |places| :: places[j] < places[k]
    requires forall j | 0 <= j < |places| :: places[j] < n
    ensures |places| <= n
    ensures |places| == n ==> forall j | 0 <= j < n :: places[j] == j
  {
    if places != [] { PlacesAbove(places[..|places| - 1], places[|places| - 1]); }
  }

  /** A snapshot that is returned reports its own serialized length, which is within
      the hard limit, and everything not held is counted as dropped. */
  lemma {:induction false} SuccessIsFixedPoint(rest: Measure, limit: nat, s: Sections, hint: nat, left: nat)
    requires Rounds(rest, limit, s, hint, left).Ok?
    ensures var draft := Rounds(rest, limit, s, hint, left).value;
            && draft.totalBytes == DraftLength(rest, draft) <= limit
            && Shrinks(s, draft.sections)
    decreases left
  {
    var total := DraftLength(rest, Draft(s, hint));
    if total > limit {
      DroppedShrinks(s);
      SuccessIsFixedPoint(rest, limit, Dropped(s).value, 0, left - 1);
    } else if hint != total {
      SuccessIsFixedPoint(rest, limit, s, total, left - 1);
    }
  }

  lemma {:induction false} GoneInOrder(rest: Measure, limit: nat, from: Sections, s: Sections, hint: nat, left: nat)
    requires Rounds(rest, limit, s, hint, left).Ok? && ShrunkInOrder(from, s)
    ensures ShrunkInOrder(from, Rounds(rest, limit, s, hint, left).value.sections)
    decreases left
  {
    hide ShrunkInOrder, Dropped, Digits;
    var total := DraftLength(rest, Draft(s, hint));
    if total > limit {
      ShrinksOn(from, s);
      GoneInOrder(rest, limit, from, Dropped(s).value, 0, left - 1);
    } else if hint != total {
      GoneInOrder(rest, limit, from, s, total, left - 1);
    }
  }

  /** In terms of the candidates: in both sections, what is held and what was dropped
      add up to what was offered. */
  lemma NothingLost(
    bytes: seq<Item> -> nat, rest: Measure, limit: nat, middleCandidates: seq<Item>, activeCandidates: seq<Item>,
    middleBudget: nat, activeBudget: nat)
    requires Rounds(rest, limit, Start(bytes, middleCandidates, activeCandidates, middleBudget, activeBudget), 0, 8).Ok?
    ensures var s := Rounds(rest, limit, Start(bytes, middleCandidates, activeCandidates, middleBudget, activeBudget), 0,
                            8).value.sections;
            && |s.middle| + s.droppedMiddle == |middleCandidates|
            && |s.active| + s.droppedActive == |activeCandidates|
            && multiset(s.middle) <= multiset(middleCandidates) && multiset(s.active) <= multiset(activeCandidates)
  {
    var start := Start(bytes, middleCandidates, activeCandidates, middleBudget, activeBudget);
    SuccessIsFixedPoint(rest, limit, start, 0, 8);
    SelectedFits(bytes, middleCandidates, middleBudget, |middleCandidates|);
    SelectedFits(bytes, activeCandidates, activeBudget, |activeCandidates|);
    assert middleCandidates[..|middleCandidates|] == middleCandidates;
    assert activeCandidates[..|activeCandidates|] == activeCandidates;
    var s := Rounds(rest, limit, start, 0, 8).value.sections;
    assert start.middle == s.middle + start.middle[|s.middle|..];
  }

  lemma {:induction false} CitedAll(items: seq<Item>)
    ensures forall e :: e in Cited(items) <==> exists item | item in items :: e in item.sources
  {
    if items != [] {
      var front, last := items[..|items| - 1], items[|items| - 1];
      CitedAll(front);
      assert items == front + [last];
      forall e ensures e in Cited(items) <==> exists item | item in items :: e in item.sources {
        if item :| item in front && e in item.sources { assert item in items; }
        if e in last.sources { assert last in items; }
      }
    }
  }

  /** The snapshot a draft stands for keeps the anchors as they were built, and refers to
      exactly the events its anchors, its items and the profile rest on, in order. */
  lemma AnchorsAndSources(
    bytes: seq<Item> -> nat, anchors: seq<Item>, profile: seq<EventId>, hardLimit: nat, d: Draft)
    ensures var snapshot := Assemble(bytes, anchors, profile, hardLimit, d);
            && snapshot.anchors == anchors && snapshot.report.anchorBytes == bytes(anchors)
            && SectionsOf(snapshot) == d.sections && snapshot.report.totalBytes == d.totalBytes
            && snapshot.report.hardLimit == hardLimit
            && snapshot.report.middleBytes == bytes(snapshot.middle) && snapshot.report.activeBytes == bytes(snapshot.active)
            && snapshot.report.includedItems == |snapshot.anchors| + |snapshot.middle| + |snapshot.active|
            && Sorted(NatLt, snapshot.sourceRefs)
            && forall e :: e in snapshot.sourceRefs <==>
                 e in profile
                 || exists item | item in anchors + snapshot.middle + snapshot.active :: e in item.sources
  {
    var items := anchors + d.sections.middle + d.sections.active;
    CitedAll(items);
    DedupIdsSet(Cited(items) + profile);
    hide Sorted, DedupIds, Cited;
  }

  // ---------------------------------------------------------------- when the eight rounds are enough

  /** The first round from `from` on whose size is over the limit, if the size ever is. */
  function ExceedRound(size: nat, limit: nat, from: nat): (r: Option<nat>)
    requires from <= SettleRound(size)
    ensures r.Some? ==> from <= r.value <= SettleRound(size) && Size(size, r.value) > limit
    decreases SettleRound(size) - from
  {
    if Size(size, from) > limit then Some(from)
    else if from == SettleRound(size) then None
    else ExceedRound(size, limit, from + 1)
  }

  /** The rounds the loop needs from these sections, if it ends with a snapshot at all. */
  function RoundsNeeded(rest: Measure, limit: nat, s: Sections): Option<nat>
    decreases Held(s)
  {
    match ExceedRound(rest(s), limit, 1)
    case None => Some(SettleRound(rest(s)))
    case Some(e) =>
      if Dropped(s).None? then None
      else
        DroppedShrinks(s);
        match RoundsNeeded(rest, limit, Dropped(s).value)
        case None => None
        case Some(n) => Some(e + n)
  }

  /** One round, after the size of round `j` was reported. */
  lemma OneRound(rest: Measure, limit: nat, s: Sections, j: nat, left: nat)
    requires j < SettleRound(rest(s)) && left > 0
    ensures var size := rest(s);
            var outcome := Rounds(rest, limit, s, Size(size, j), left);
            if Size(size, j + 1) > limit then
              if Dropped(s).None? then outcome == Err(AnchorBudgetExceeded(Size(size, j + 1)))
              else outcome == Rounds(rest, limit, Dropped(s).value, 0, left - 1)
            else if j + 1 == SettleRound(size) then outcome == Ok(Draft(s, Size(size, SettleRound(size))))
            else outcome == Rounds(rest, limit, s, Size(size, j + 1), left - 1)
  {
    var size := rest(s);
    assert Size(size, j + 1) == DraftLength(rest, Draft(s, Size(size, j)));
    hide Size, SettleRound, Digits, Dropped;
    Settles(size);
    if j + 1 < SettleRound(size) { GrowsUntilSettled(size, j); }
  }

  /** One configuration, from the round after `j`: it settles, is cut down, or runs
      out of rounds. */
  lemma {:induction false} FromRound(rest: Measure, limit: nat, s: Sections, j: nat, left: nat)
    requires j < SettleRound(rest(s))
    ensures var size := rest(s);
            var outcome := Rounds(rest, limit, s, Size(size, j), left);
            match ExceedRound(size, limit, j + 1)
            case None => outcome == if left < SettleRound(size) - j then Err(DidNotStabilize)
                                    else Ok(Draft(s, Size(size, SettleRound(size))))
            case Some(e) =>
              && j < e <= SettleRound(size)
              && (left < e - j ==> outcome == Err(DidNotStabilize))
              && (left >= e - j ==>
                    if Dropped(s).None? then outcome == Err(AnchorBudgetExceeded(Size(size, e)))
                    else outcome == Rounds(rest, limit, Dropped(s).value, 0, left - (e - j)))
    decreases SettleRound(rest(s)) - j
  {
    hide Size, SettleRound, Digits, Dropped;
    var size := rest(s);
    if left > 0 {
      OneRound(rest, limit, s, j, left);
      if Size(size, j + 1) <= limit && j + 1 < SettleRound(size) {
        FromRound(rest, limit, s, j + 1, left - 1);
      }
    }
  }

  /** The loop ends with a snapshot exactly when the rounds it needs are at most
      those it has. */
  lemma {:induction false} EnoughRounds(rest: Measure, limit: nat, s: Sections, left: nat)
    ensures Rounds(rest, limit, s, 0, left).Ok?
            <==> RoundsNeeded(rest, limit, s).Some? && RoundsNeeded(rest, limit, s).value <= left
    decreases Held(s)
  {
    var size := rest(s);
    assert Size(size, 0) == 0;
    Settles(size);
    FromRound(rest, limit, s, 0, left);
    NeededStep(rest, limit, s);
    hide Rounds, RoundsNeeded, Size, SettleRound, Dropped, Digits;
    var e := ExceedRound(size, limit, 1);
    if e.Some? && Dropped(s).Some? {
      var next := Dropped(s).value;
      HeldLess(s);
      NeedsRounds(rest, limit, next);
      if left >= e.value {
        EnoughRounds(rest, limit, next, left - e.value);
      }
    }
  }

  /** A build fails for one of two reasons: the rounds run out, or nothing is left to
      drop from a snapshot over the limit. */
  lemma {:induction false} FailureReason(rest: Measure, limit: nat, s: Sections, hint: nat, left: nat)
    requires Rounds(rest, limit, s, hint, left).Err?
    ensures match Rounds(rest, limit, s, hint, left).error
            case DidNotStabilize => true
            case AnchorBudgetExceeded(total) =>
              total > limit && exists bare: Sections, h: nat ::
                bare.middle == [] && bare.active == [] && total == DraftLength(rest, Draft(bare, h))
    decreases left
  {
    hide Digits;
    var total := DraftLength(rest, Draft(s, hint));
    if left > 0 && total > limit && Dropped(s).Some? {
      FailureReason(rest, limit, Dropped(s).value, 0, left - 1);
    } else if left > 0 && total <= limit && hint != total {
      FailureReason(rest, limit, s, total, left - 1);
    }
  }

  lemma HeldLess(s: Sections)
    requires Dropped(s).Some?
    ensures Held(Dropped(s).value) < Held(s)
  {
    DroppedShrinks(s);
  }

  lemma NeededStep(rest: Measure, limit: nat, s: Sections)
    ensures 1 <= SettleRound(rest(s))
    ensures var e := ExceedRound(rest(s), limit, 1);
            RoundsNeeded(rest, limit, s)
            == if e.None? then Some(SettleRound(rest(s)))
               else if Dropped(s).None? then None
               else if RoundsNeeded(rest, limit, Dropped(s).value).None? then None
               else Some(e.value + RoundsNeeded(rest, limit, Dropped(s).value).value)
  {
    hide Size, Digits, Dropped;
  }

  lemma {:induction false} NeedsRounds(rest: Measure, limit: nat, s: Sections)
    ensures RoundsNeeded(rest, limit, s).Some? ==> RoundsNeeded(rest, limit, s).value > 0
    decreases Held(s)
  {
    Settles(rest(s));
    if ExceedRound(rest(s), limit, 1).Some? && Dropped(s).Some? {
      DroppedShrinks(s);
      NeedsRounds(rest, limit, Dropped(s).value);
    }
  }

  /** When nothing has to be dropped for the hard limit, the loop settles within
      four of its eight rounds and keeps all sections. */
  lemma SettlesInFour(rest: Measure, limit: nat, s: Sections)
    requires Size(rest(s), SettleRound(rest(s))) <= limit
    ensures Rounds(rest, limit, s, 0, 4) == Ok(Draft(s, Size(rest(s), SettleRound(rest(s)))))
    ensures RoundsNeeded(rest, limit, s) == Some(SettleRound(rest(s)))
  {
    Settles(rest(s));
    NeverExceeds(rest(s), limit, 1);
    FromRound(rest, limit, s, 0, 4);
  }

  lemma {:induction false} NeverExceeds(size: nat, limit: nat, from: nat)
    requires from <= SettleRound(size) && Size(size, SettleRound(size)) <= limit
    ensures ExceedRound(size, limit, from).None?
    decreases SettleRound(size) - from
  {
    SizesGrow(size, from, SettleRound(size));
    if from < SettleRound(size) { NeverExceeds(size, limit, from + 1); }
  }

  // ---------------------------------------------------------------- how many drops the rounds allow

  /** The sections after this many drops. */
  function DropMany(s: Sections, n: nat): Option<Sections>
    decreases n
  {
    if n == 0 then Some(s)
    else
      match Dropped(s)
      case None => None
      case Some(next) => DropMany(next, n - 1)
  }

  /** Dropping `n` items is what it takes to fit the hard limit. */
  ghost predicate DropsToFit(rest: Measure, limit: nat, s: Sections, n: nat) {
    && DropMany(s, n).Some?
    && var t := DropMany(s, n).value;
    && Size(rest(t), SettleRound(rest(t))) <= limit
    && forall i | 0 <= i < n :: DropMany(s, i).Some? && rest(DropMany(s, i).value) + 1 > limit
  }

  lemma OverAtOnce(size: nat, limit: nat)
    requires size + 1 > limit
    ensures 1 <= SettleRound(size) && ExceedRound(size, limit, 1) == Some(1)
  {
    FirstSizes(size);
  }

  /** One round for every item that has to go, and at most four to settle. */
  lemma {:induction false} RoundsForDrops(rest: Measure, limit: nat, s: Sections, n: nat)
    requires DropsToFit(rest, limit, s, n)
    ensures RoundsNeeded(rest, limit, s) == Some(n + SettleRound(rest(DropMany(s, n).value)))
    decreases n
  {
    if n == 0 {
      SettlesInFour(rest, limit, s);
    } else {
      hide Size, SettleRound, Dropped, ExceedRound, RoundsNeeded;
      assert DropMany(s, 0).Some? && rest(DropMany(s, 0).value) + 1 > limit;
      DropsOn(rest, limit, s, n);
      RoundsForDrops(rest, limit, Dropped(s).value, n - 1);
      OverAtOnce(rest(s), limit);
      NeededStep(rest, limit, s);
    }
  }

  lemma DropsOn(rest: Measure, limit: nat, s: Sections, n: nat)
    requires DropsToFit(rest, limit, s, n) && n > 0
    ensures Dropped(s).Some? && DropsToFit(rest, limit, Dropped(s).value, n - 1)
    ensures DropMany(s, n) == DropMany(Dropped(s).value, n - 1)
  {
    hide Dropped, Size, SettleRound;
    var next := Dropped(s).value;
    forall i | 0 <= i < n - 1 ensures DropMany(next, i).Some? && rest(DropMany(next, i).value) + 1 > limit {
      assert DropMany(s, i + 1) == DropMany(next, i);
    }
  }

  /** Up to four items can be dropped in eight rounds, whatever their size; from seven
      on the loop always fails. */
  lemma FewDropsSucceed(rest: Measure, limit: nat, s: Sections, n: nat)
    requires DropsToFit(rest, limit, s, n)
    ensures Rounds(rest, limit, s, 0, 8).Ok? <==> n + SettleRound(rest(DropMany(s, n).value)) <= 8
    ensures n <= 4 ==> Rounds(rest, limit, s, 0, 8).Ok?
    ensures n >= 7 ==> Rounds(rest, limit, s, 0, 8).Err?
  {
    RoundsForDrops(rest, limit, s, n);
    EnoughRounds(rest, limit, s, 8);
    Settles(rest(DropMany(s, n).value));
  }

  function Repeat(item: Item, n: nat): (r: seq<Item>)
    ensures |r| == n
  {
    seq(n, i => item)
  }

  /** The loop can fail although dropping more would help: here seven items of a
      hundred bytes each have to go, and the one round that is left cannot confirm
      the size. */
  lemma SevenDropsFail()
    ensures var rest: Measure := (s: Sections) => 100 + 100 * |s.middle|;
            var s := Sections(Repeat(Item(false, "x", []), 7), [], 0, 0);
            && Rounds(rest, 150, s, 0, 8) == Err(DidNotStabilize)
            && Rounds(rest, 150, s, 0, 10).Ok?
  {
    var item := Item(false, "x", []);
    var rest: Measure := (s: Sections) => 100 + 100 * |s.middle|;
    SevenDrops(rest, item, 7, 8);
    SevenDrops(rest, item, 7, 10);
    var bare := Sections([], [], 7, 0);
    FirstSizes(100);
    assert Digits(101) == 3 && Digits(103) == 3;
    Settles(100);
    NeverExceeds(100, 150, 1);
    FromRound(rest, 150, bare, 0, 1);
    FromRound(rest, 150, bare, 0, 3);
  }

  lemma {:induction false} SevenDrops(rest: Measure, item: Item, n: nat, left: nat)
    requires n <= left && n <= 7 && !item.recall
    requires forall s: Sections :: rest(s) == 100 + 100 * |s.middle|
    ensures Rounds(rest, 150, Sections(Repeat(item, n), [], 7 - n, 0), 0, left)
            == Rounds(rest, 150, Sections([], [], 7, 0), 0, left - n)
  {
    if n > 0 {
      var s := Sections(Repeat(item, n), [], 7 - n, 0);
      assert Repeat(item, n)[..n - 1] == Repeat(item, n - 1);
      assert Dropped(s) == Some(Sections(Repeat(item, n - 1), [], 7 - (n - 1), 0));
      SevenDrops(rest, item, n - 1, left - 1);
    }
  }
}
