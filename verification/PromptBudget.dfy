/** Fitting a rendered prompt into the model's context: a saturating estimate, and
    a loop that drops optional items until the request fits. */
module PromptBudget {
  import opened Prelude
  import opened Ordering
  import opened Model

  datatype Message = Message(role: string, content: string)

  /** A message's cost: the UTF-8 bytes of its role and content and a fixed overhead. */
  function MessageCost(m: Message): nat {
    Utf8Len(m.role) + Utf8Len(m.content) + 32
  }

  /** The same cost as it is computed, in saturating 64-bit arithmetic. */
  function SatMessageCost(m: Message): nat {
    SatAddU64(SatAddU64(Min(Utf8Len(m.role), U64_MAX), Min(Utf8Len(m.content), U64_MAX)), 32)
  }

  function SatTotal(messages: seq<Message>): nat {
    if messages == [] then 0 else SatAddU64(SatTotal(messages[..|messages| - 1]), SatMessageCost(messages[|messages| - 1]))
  }

  function Estimate(messages: seq<Message>): nat {
    SatAddU64(128, SatTotal(messages))
  }

  /** What the request costs in exact integers. */
  function ExactTotal(messages: seq<Message>): nat {
    if messages == [] then 0 else ExactTotal(messages[..|messages| - 1]) + MessageCost(messages[|messages| - 1])
  }

  function ExactCost(messages: seq<Message>): nat {
    128 + ExactTotal(messages)
  }

  lemma {:induction false} SatTotalExact(messages: seq<Message>)
    ensures SatTotal(messages) == Min(ExactTotal(messages), U64_MAX)
  {
    if messages != [] {
      SatTotalExact(messages[..|messages| - 1]);
    }
  }

  /** The estimate is the exact cost, cut off at the largest 64-bit value. */
  lemma EstimateExact(messages: seq<Message>)
    ensures Estimate(messages) == Min(ExactCost(messages), U64_MAX)
  {
    SatTotalExact(messages);
  }

  // ---------------------------------------------------------------- requests

  /** JSON is opaque text here; `encode` builds the user message. */
  datatype PromptItem = PromptItem(value: string, evidence: seq<EventId>)
  datatype RenderedPrompt = RenderedPrompt(
    system: string, required: PromptItem, optional: seq<PromptItem>, positions: seq<PositionId>,
    conflicts: seq<ConflictId>, revision: nat, hash: string)

  datatype Config = Config(contextTokens: Option<nat>, maxTokens: nat, safetyMargin: nat)

  /** The configured numbers are 32-bit. */
  ghost predicate ConfigWidth(config: Config) {
    && (config.contextTokens.Some? ==> config.contextTokens.value <= U32_MAX)
    && config.maxTokens <= U32_MAX && config.safetyMargin <= U32_MAX
  }

  datatype BudgetReport = BudgetReport(
    contextTokens: nat, estimatedInput: nat, reservedOutput: nat, safetyMargin: nat, excluded: nat)
  datatype PreparedRequest = PreparedRequest(
    messages: seq<Message>, budget: BudgetReport, evidence: seq<EventId>, positions: seq<PositionId>,
    conflicts: seq<ConflictId>, revision: nat, hash: string)
  datatype PreparationError = Configuration | Budget(report: BudgetReport)

  type Encoder = (string, seq<string>, seq<EventId>) -> string

  function Values(items: seq<PromptItem>): (r: seq<string>)
    ensures |r| == |items| && forall i | 0 <= i < |items| :: r[i] == items[i].value
  {
    seq(|items|, i requires 0 <= i < |items| => items[i].value)
  }

  function AllEvidence(ids: seq<EventId>, items: seq<PromptItem>): seq<EventId> {
    if items == [] then ids else AllEvidence(ids, items[..|items| - 1]) + items[|items| - 1].evidence
  }

  lemma {:induction false} AllEvidenceHas(ids: seq<EventId>, items: seq<PromptItem>)
    ensures forall e :: e in AllEvidence(ids, items) <==> e in ids || exists i | i in items :: e in i.evidence
  {
    if items != [] {
      var front, last := items[..|items| - 1], items[|items| - 1];
      AllEvidenceHas(ids, front);
      assert items == front + [last];
      forall e ensures e in AllEvidence(ids, items) <==> e in ids || exists i | i in items :: e in i.evidence {
        if e in last.evidence { assert last in items; }
        if i :| i in front && e in i.evidence { assert i in items; }
      }
    }
  }

  function EvidenceOf(p: RenderedPrompt, selected: seq<PromptItem>): seq<EventId> {
    DedupIds(AllEvidence(p.required.evidence, selected))
  }

  /** The request that keeps these optional items. */
  function MessagesFor(encode: Encoder, p: RenderedPrompt, correction: Option<string>, selected: seq<PromptItem>): seq<Message> {
    [Message("system", p.system),
     Message("user", encode(p.required.value, Values(selected), EvidenceOf(p, selected)))]
    + (match correction
       case None => []
       case Some(text) => [Message("system", text)])
  }

  function Total(messages: seq<Message>, config: Config): nat {
    SatAddU64(SatAddU64(Estimate(messages), config.maxTokens), config.safetyMargin)
  }

  /** Keeping the first `count` optional items fits the context, as it is computed. */
  predicate Fits(encode: Encoder, config: Config, p: RenderedPrompt, correction: Option<string>, context: nat, count: nat)
    requires count <= |p.optional|
  {
    Total(MessagesFor(encode, p, correction, p.optional[..count]), config) <= context
  }

  predicate Configured(config: Config) {
    && config.contextTokens.Some? && config.contextTokens.value > 0
    && config.maxTokens > 0
    && config.maxTokens + config.safetyMargin < config.contextTokens.value
  }

  predicate CheckPrepared(r: PreparedRequest) {
    && Estimate(r.messages) == r.budget.estimatedInput
    && SatAddU64(SatAddU64(Estimate(r.messages), r.budget.reservedOutput), r.budget.safetyMargin) <= r.budget.contextTokens
  }

  /** The request built from the first `count` optional items. */
  function RequestFor(
    encode: Encoder, config: Config, p: RenderedPrompt, correction: Option<string>, context: nat, count: nat): PreparedRequest
    requires count <= |p.optional|
  {
    var selected := p.optional[..count];
    var messages := MessagesFor(encode, p, correction, selected);
    PreparedRequest(
      messages,
      BudgetReport(context, Estimate(messages), config.maxTokens, config.safetyMargin, |p.optional| - count),
      EvidenceOf(p, selected), p.positions, p.conflicts, p.revision, p.hash)
  }

  /** A request that fits passes the check before sending. */
  lemma FittingRequest(
    encode: Encoder, config: Config, p: RenderedPrompt, correction: Option<string>, context: nat, count: nat)
    requires count <= |p.optional|
    ensures CheckPrepared(RequestFor(encode, config, p, correction, context, count))
            <==> Fits(encode, config, p, correction, context, count)
  {
    hide Estimate, MessagesFor;
  }

  /** No request that keeps at least `from` optional items fits. */
  ghost predicate NoneFits(
    encode: Encoder, config: Config, p: RenderedPrompt, correction: Option<string>, context: nat, from: nat)
  {
    forall n | from <= n <= |p.optional| :: !Fits(encode, config, p, correction, context, n)
  }

  lemma NoneFitsFrom(
    encode: Encoder, config: Config, p: RenderedPrompt, correction: Option<string>, context: nat, from: nat)
    requires from <= |p.optional|
    ensures NoneFits(encode, config, p, correction, context, |p.optional| + 1)
    ensures NoneFits(encode, config, p, correction, context, from)
            <==> NoneFits(encode, config, p, correction, context, from + 1) && !Fits(encode, config, p, correction, context, from)
  {
    hide Fits;
    if NoneFits(encode, config, p, correction, context, from + 1) && !Fits(encode, config, p, correction, context, from) {
      forall n | from <= n <= |p.optional| ensures !Fits(encode, config, p, correction, context, n) {}
    }
  }

  lemma OneShorter(items: seq<PromptItem>, n: nat)
    requires 0 < n <= |items|
    ensures |items[..n]| == n && items[..n][..n - 1] == items[..n - 1]
  {
  }

  /** Builds the request that keeps the selected items, and tries it. */
  method Attempt(
    encode: Encoder, config: Config, p: RenderedPrompt, correction: Option<string>, context: nat,
    selected: seq<PromptItem>, excluded: nat) returns (request: PreparedRequest, fits: bool)
    requires |selected| + excluded == |p.optional| && selected == p.optional[..|selected|]
    ensures request == RequestFor(encode, config, p, correction, context, |selected|)
    ensures request.budget.excluded == excluded
    ensures fits <==> Fits(encode, config, p, correction, context, |selected|)
  {
    hide Estimate, EvidenceOf;
    var evidence := EvidenceOf(p, selected);
    var messages := [Message("system", p.system), Message("user", encode(p.required.value, Values(selected), evidence))];
    if correction.Some? {
      messages := messages + [Message("system", correction.value)];
    }
    assert messages == MessagesFor(encode, p, correction, selected);
    hide MessagesFor;
    var report := BudgetReport(context, Estimate(messages), config.maxTokens, config.safetyMargin, excluded);
    fits := SatAddU64(SatAddU64(report.estimatedInput, config.maxTokens), config.safetyMargin) <= context;
    request := PreparedRequest(messages, report, evidence, p.positions, p.conflicts, p.revision, p.hash);
  }

  /** Pops optional items, least important last in, until the request fits. The
      result keeps the longest prefix of the optional items that fits. */
  method Prepare(encode: Encoder, config: Config, p: RenderedPrompt, correction: Option<string>)
    returns (r: Result<PreparedRequest, PreparationError>, ghost kept: nat)
    ensures r == Err(Configuration) <==> !Configured(config)
    ensures r.Ok? ==>
              && Configured(config) && kept <= |p.optional|
              && r.value == RequestFor(encode, config, p, correction, config.contextTokens.value, kept)
              && Fits(encode, config, p, correction, config.contextTokens.value, kept)
              && NoneFits(encode, config, p, correction, config.contextTokens.value, kept + 1)
    ensures r.Err? && r.error.Budget? ==>
              && NoneFits(encode, config, p, correction, config.contextTokens.value, 0)
              && r.error.report.excluded == |p.optional|
    ensures r.Ok? ==> CheckPrepared(r.value)
  {
    kept := 0;
    if !Configured(config) {
      return Err(Configuration), kept;
    }
    hide CheckPrepared, Fits, RequestFor, NoneFits;
    var context := config.contextTokens.value;
    var selected := p.optional;
    var excluded := 0;
    kept := |p.optional|;
    NoneFitsFrom(encode, config, p, correction, context, kept);
    while true
      invariant kept + excluded == |p.optional| && selected == p.optional[..kept]
      invariant NoneFits(encode, config, p, correction, context, kept + 1)
      decreases kept
    {
      FittingRequest(encode, config, p, correction, context, kept);
      NoneFitsFrom(encode, config, p, correction, context, kept);
      var request, fits := Attempt(encode, config, p, correction, context, selected, excluded);
      if fits {
        return Ok(request), kept;
      }
      if selected == [] {
        return Err(Budget(request.budget)), kept;
      }
      OneShorter(p.optional, kept);
      selected := selected[..|selected| - 1];
      excluded := excluded + 1;
      kept := kept - 1;
    }
  }

  /** Saturation never lets a request through: a prefix fits exactly when the true
      sum of bytes, overheads, reserved output and margin is within the context. */
  lemma FitsExactly(
    encode: Encoder, config: Config, p: RenderedPrompt, correction: Option<string>, context: nat, count: nat)
    requires ConfigWidth(config) && context <= U32_MAX && count <= |p.optional|
    ensures Fits(encode, config, p, correction, context, count)
            <==> ExactCost(MessagesFor(encode, p, correction, p.optional[..count])) + config.maxTokens
                 + config.safetyMargin <= context
  {
    EstimateExact(MessagesFor(encode, p, correction, p.optional[..count]));
  }

  /** The gate before sending accepts exactly the requests whose report states
      their estimate and whose true total is within the context. */
  lemma CheckPreparedExact(r: PreparedRequest)
    requires r.budget.contextTokens <= U32_MAX
    ensures CheckPrepared(r) <==>
              && r.budget.estimatedInput == ExactCost(r.messages)
              && ExactCost(r.messages) + r.budget.reservedOutput + r.budget.safetyMargin <= r.budget.contextTokens
  {
    EstimateExact(r.messages);
  }

  /** The evidence of a request is that of its required part and of the items kept. */
  lemma RequestEvidence(
    encode: Encoder, config: Config, p: RenderedPrompt, correction: Option<string>, context: nat, count: nat)
    requires count <= |p.optional|
    ensures var r := RequestFor(encode, config, p, correction, context, count);
            forall e :: e in r.evidence
                        <==> e in p.required.evidence || exists i | i in p.optional[..count] :: e in i.evidence
  {
    DedupIdsSet(AllEvidence(p.required.evidence, p.optional[..count]));
    AllEvidenceHas(p.required.evidence, p.optional[..count]);
  }
}
