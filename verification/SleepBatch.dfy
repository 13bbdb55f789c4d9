/** Choosing how many seeds a new Sleep run takes, and which recalled items its
    context keeps. */
module SleepBatch {
  import opened Prelude
  import opened Model
  import opened Selection

  // ---------------------------------------------------------------- the longest prefix that fits

  datatype Check = Fits | OverBudget | Misconfigured

  /** What building and checking the context for one prefix length comes to. */
  datatype Outcome<P> =
    | NotBuilt(message: string)
    | Usable(plan: P)
    | TooLarge(plan: P)
    | NoModel(plan: P)

  datatype BatchError<P> =
    | ContextBuild(message: string)
    | ModelConfiguration(attempt: P)
    | AnchorsExceed(attempt: P)
    | ObservationExceeds(attempt: P)
    | NoCandidates

  function OutcomeFor<P>(
    build: (nat, nat) -> Result<P, string>, check: P -> Check, total: nat, size: nat): Outcome<P>
    requires size <= total
  {
    match build(size, total - size)
    case Err(message) => NotBuilt(message)
    case Ok(plan) =>
      match check(plan)
      case Fits => Usable(plan)
      case OverBudget => TooLarge(plan)
      case Misconfigured => NoModel(plan)
  }

  /** Every prefix longer than `size` is too large. */
  ghost predicate LongerTooLarge<P>(
    build: (nat, nat) -> Result<P, string>, check: P -> Check, total: nat, count: nat, size: nat)
    requires count <= total
  {
    forall n | size < n <= count :: OutcomeFor(build, check, total, n).TooLarge?
  }

  ghost predicate Answers<P>(o: Outcome<P>, r: Result<P, BatchError<P>>) {
    match o
    case NotBuilt(message) => r == Err(ContextBuild(message))
    case Usable(plan) => r == Ok(plan)
    case TooLarge(_) => false
    case NoModel(plan) => r == Err(ModelConfiguration(plan))
  }

  /** The run takes the longest prefix that fits. It never skips an observation
      that is too large on its own: then the run is to fail with that one. */
  method PlanNew<P>(
    count: nat, deferred: nat, build: (nat, nat) -> Result<P, string>, check: P -> Check)
    returns (r: Result<P, BatchError<P>>, ghost size: nat)
    ensures count == 0 <==> r == Err(NoCandidates)
    ensures count > 0 ==>
              match OutcomeFor(build, check, count + deferred, 0)
              case NotBuilt(message) => r == Err(ContextBuild(message))
              case TooLarge(plan) => r == Err(AnchorsExceed(plan))
              case NoModel(plan) => r == Err(ModelConfiguration(plan))
              case Usable(_) =>
                && size <= count
                && LongerTooLarge(build, check, count + deferred, count, size)
                && (size > 0 ==> Answers(OutcomeFor(build, check, count + deferred, size), r))
                && (size == 0 ==> r == Err(ObservationExceeds(OutcomeFor(build, check, count + deferred, 1).plan)))
  {
    size := 0;
    if count == 0 {
      return Err(NoCandidates), size;
    }
    var total := count + deferred;
    var anchors := build(0, total);
    if anchors.Err? {
      return Err(ContextBuild(anchors.error)), size;
    }
    var verdict := check(anchors.value);
    if verdict.OverBudget? {
      return Err(AnchorsExceed(anchors.value)), size;
    }
    if verdict.Misconfigured? {
      return Err(ModelConfiguration(anchors.value)), size;
    }
    var firstSeedFailure: Option<P> := None;
    for shorter := count downto 0
      invariant LongerTooLarge(build, check, total, count, shorter)
      invariant shorter == 0 ==> firstSeedFailure == Some(OutcomeFor(build, check, total, 1).plan)
    {
      var prefix := shorter + 1;
      var plan := build(prefix, total - prefix);
      if plan.Err? {
        return Err(ContextBuild(plan.error)), prefix;
      }
      verdict := check(plan.value);
      if verdict.Fits? {
        return Ok(plan.value), prefix;
      }
      if verdict.Misconfigured? {
        return Err(ModelConfiguration(plan.value)), prefix;
      }
      if prefix == 1 {
        firstSeedFailure := Some(plan.value);
      }
    }
    return if firstSeedFailure.Some? then Err(ObservationExceeds(firstSeedFailure.value)) else Err(NoCandidates), 0;
  }

  // ---------------------------------------------------------------- recalled items

  datatype RecalledItem = RecalledItem(entity: EntityRef, source: EventId, sourceHash: string, asOf: nat)

  /** The first `count` items, less those that did not fit when their turn came. */
  function Recalled(bytes: seq<RecalledItem> -> nat, items: seq<RecalledItem>, count: nat): seq<RecalledItem>
    requires count <= |items|
  {
    if count == 0 then []
    else
      var earlier := Recalled(bytes, items, count - 1);
      var more := earlier + [items[count - 1]];
      if count > MAX_SLEEP_RECALL || bytes(more) > SLEEP_RECALL_BUDGET_BYTES then earlier else more
  }

  lemma {:induction false} RecalledBounds(bytes: seq<RecalledItem> -> nat, items: seq<RecalledItem>, count: nat)
    requires count <= |items|
    ensures var kept := Recalled(bytes, items, count);
            && |kept| <= MAX_SLEEP_RECALL && |kept| <= count
            && (kept == [] || bytes(kept) <= SLEEP_RECALL_BUDGET_BYTES)
            && multiset(kept) <= multiset(items[..count])
  {
    if count > 0 {
      RecalledBounds(bytes, items, count - 1);
      assert items[..count] == items[..count - 1] + [items[count - 1]];
    }
  }

  /** The items beyond the first twenty-four never fit; another one fits within the budget. */
  function RecallFits(bytes: seq<RecalledItem> -> nat): (nat, seq<RecalledItem>) -> bool {
    (i: nat, list: seq<RecalledItem>) => i < MAX_SLEEP_RECALL && bytes(list) <= SLEEP_RECALL_BUDGET_BYTES
  }

  /** An item is kept exactly when it fits behind those kept before it. */
  ghost predicate RecalledInTurn(bytes: seq<RecalledItem> -> nat, items: seq<RecalledItem>, kept: seq<RecalledItem>) {
    exists places :: TakenInTurn(RecallFits(bytes), items, kept, places)
  }

  lemma {:induction false} RecalledPlaces(bytes: seq<RecalledItem> -> nat, items: seq<RecalledItem>, count: nat)
    requires count <= |items|
    ensures RecalledInTurn(bytes, items[..count], Recalled(bytes, items, count))
  {
    hide TakenInTurn;
    if count == 0 {
      NothingTaken(RecallFits(bytes));
      assert items[..0] == [];
    } else {
      RecalledPlaces(bytes, items, count - 1);
      var kept := Recalled(bytes, items, count - 1);
      var places :| TakenInTurn(RecallFits(bytes), items[..count - 1], kept, places);
      TakeNext(RecallFits(bytes), items[..count - 1], kept, places, items[count - 1]);
      assert items[..count] == items[..count - 1] + [items[count - 1]];
    }
  }

  /** There is one such list. */
  lemma RecalledOnce(bytes: seq<RecalledItem> -> nat, items: seq<RecalledItem>, kept: seq<RecalledItem>)
    requires RecalledInTurn(bytes, items, kept)
    ensures kept == Recalled(bytes, items, |items|)
  {
    hide TakenInTurn, Recalled, RecallFits;
    RecalledPlaces(bytes, items, |items|);
    assert items[..|items|] == items;
    var fits, other := RecallFits(bytes), Recalled(bytes, items, |items|);
    var p :| TakenInTurn(fits, items, kept, p);
    var q :| TakenInTurn(fits, items, other, q);
    TakenOnce(fits, items, kept, p, other, q);
  }

  /** It is the whole recall when that is short and every part of it fits. */
  lemma AllRecalled(bytes: seq<RecalledItem> -> nat, items: seq<RecalledItem>, kept: seq<RecalledItem>)
    requires RecalledInTurn(bytes, items, kept) && |items| <= MAX_SLEEP_RECALL
    requires forall k | 0 < k <= |items| :: bytes(items[..k]) <= SLEEP_RECALL_BUDGET_BYTES
    ensures kept == items
  {
    hide TakenInTurn;
    var places :| TakenInTurn(RecallFits(bytes), items, kept, places);
    forall k: nat | k < |items| ensures RecallFits(bytes)(k, items[..k] + [items[k]]) {
      assert items[..k + 1] == items[..k] + [items[k]];
    }
    AllTaken(RecallFits(bytes), items, kept, places);
  }

  /** Pushes each item and pops it again when the list no longer fits. */
  method SelectRecall(bytes: seq<RecalledItem> -> nat, items: seq<RecalledItem>)
    returns (kept: seq<RecalledItem>, dropped: nat)
    ensures kept == Recalled(bytes, items, |items|)
    ensures |kept| + dropped == |items| && |kept| <= MAX_SLEEP_RECALL
    ensures kept == [] || bytes(kept) <= SLEEP_RECALL_BUDGET_BYTES
    ensures multiset(kept) <= multiset(items)
    ensures RecalledInTurn(bytes, items, kept)
  {
    hide RecalledInTurn;
    RecalledPlaces(bytes, items, |items|);
    RecalledBounds(bytes, items, |items|);
    assert items[..|items|] == items;
    kept, dropped := [], 0;
    for index := 0 to |items|
      invariant kept == Recalled(bytes, items, index)
      invariant |kept| + dropped == index
    {
      if index >= MAX_SLEEP_RECALL {
        dropped := dropped + 1;
        continue;
      }
      kept := kept + [items[index]];
      if bytes(kept) > SLEEP_RECALL_BUDGET_BYTES {
        kept := kept[..|kept| - 1];
        dropped := dropped + 1;
      }
    }
  }

  /** Pops recalled items until the whole context is within its hard limit: the
      longest prefix that fits, or a failure when even none fits. */
  method TrimContext(contextBytes: seq<RecalledItem> -> nat, recalled: seq<RecalledItem>)
    returns (r: Option<seq<RecalledItem>>)
    ensures r.None? <==> forall k | 0 <= k <= |recalled| :: contextBytes(recalled[..k]) > SLEEP_CONTEXT_HARD_LIMIT_BYTES
    ensures r.Some? ==>
              && r.value <= recalled && contextBytes(r.value) <= SLEEP_CONTEXT_HARD_LIMIT_BYTES
              && forall k | |r.value| < k <= |recalled| :: contextBytes(recalled[..k]) > SLEEP_CONTEXT_HARD_LIMIT_BYTES
  {
    var left := recalled;
    while true
      invariant left == recalled[..|left|] && |left| <= |recalled|
      invariant forall k | |left| < k <= |recalled| :: contextBytes(recalled[..k]) > SLEEP_CONTEXT_HARD_LIMIT_BYTES
      decreases |left|
    {
      if contextBytes(left) <= SLEEP_CONTEXT_HARD_LIMIT_BYTES {
        return Some(left);
      }
      if left == [] {
        return None;
      }
      left := left[..|left| - 1];
    }
  }
}
