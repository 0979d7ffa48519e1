/** Provider-reported usage, normalised pessimistically, and its price. */
module UsagePricing {
  import opened Contracts
  import opened ModelBudgets

  /** A field is present only when it parsed as an integer; booleans and other values count as absent. */
  datatype RawUsage = RawUsage(
    prompt: Option<int>,
    completion: Option<int>,
    cacheHit: Option<int>,
    cacheMiss: Option<int>,
    total: Option<int>)

  datatype Usage = Usage(prompt: nat, cacheHit: nat, cacheMiss: nat, completion: nat, total: nat)

  datatype Quality = AsReported | PessimisticFallback

  const NO_USAGE := RawUsage(None, None, None, None, None)

  predicate Usable(raw: Option<int>) {
    raw.Some? && raw.value >= 0
  }

  function ValueOr(raw: Option<int>, fallback: nat): nat {
    if Usable(raw) then raw.value else fallback
  }

  function Max(a: nat, b: nat): nat {
    if a > b then a else b
  }

  function Normalize(raw: RawUsage, fallbackInput: nat, fallbackOutput: nat): (Usage, Quality) {
    var prompt := ValueOr(raw.prompt, fallbackInput);
    var completion := ValueOr(raw.completion, fallbackOutput);
    var hit := ValueOr(raw.cacheHit, 0);
    var miss := ValueOr(raw.cacheMiss, if prompt > hit then prompt - hit else 0);
    var split := hit + miss == prompt;
    var charged := if split then prompt else Max(prompt, hit + miss);
    var total := ValueOr(raw.total, charged + completion);
    var usable := Usable(raw.prompt) && Usable(raw.completion) && Usable(raw.cacheHit) && Usable(raw.cacheMiss) && Usable(raw.total);
    ( Usage(charged, if split then hit else 0, if split then miss else charged, completion, Max(total, charged + completion)),
      if usable && split then AsReported else PessimisticFallback )
  }

  /** Every reported usage becomes a consistent one, never smaller than what was reported. */
  lemma NormalizedUsageIsConsistent(raw: RawUsage, fallbackInput: nat, fallbackOutput: nat)
    ensures var usage := Normalize(raw, fallbackInput, fallbackOutput).0;
      && usage.cacheHit + usage.cacheMiss == usage.prompt
      && usage.total >= usage.prompt + usage.completion
      && usage.prompt >= ValueOr(raw.prompt, fallbackInput)
      && usage.completion == ValueOr(raw.completion, fallbackOutput)
      && usage.total >= ValueOr(raw.total, 0)
  {}

  predicate AllUsable(raw: RawUsage) {
    Usable(raw.prompt) && Usable(raw.completion) && Usable(raw.cacheHit) && Usable(raw.cacheMiss) && Usable(raw.total)
  }

  /** A usage passes as reported exactly when every field is usable and the cache split adds up to the prompt. */
  lemma ReportedIff(raw: RawUsage, fallbackInput: nat, fallbackOutput: nat)
    ensures Normalize(raw, fallbackInput, fallbackOutput).1.AsReported? <==>
      AllUsable(raw) && raw.cacheHit.value + raw.cacheMiss.value == raw.prompt.value
  {}

  /**
    A usage that passes as reported keeps its prompt, completion and cache split; its total is kept exactly
    when it covers prompt and completion, and is raised to their sum otherwise, without any mark.
   */
  lemma ReportedUsageIsKept(raw: RawUsage, fallbackInput: nat, fallbackOutput: nat)
    requires AllUsable(raw) && raw.cacheHit.value + raw.cacheMiss.value == raw.prompt.value
    ensures var (usage, quality) := Normalize(raw, fallbackInput, fallbackOutput);
      && quality.AsReported?
      && usage.prompt == raw.prompt.value && usage.completion == raw.completion.value
      && usage.cacheHit == raw.cacheHit.value && usage.cacheMiss == raw.cacheMiss.value
      && (usage.total == raw.total.value <==> raw.total.value >= raw.prompt.value + raw.completion.value)
      && (usage.total != raw.total.value ==> usage.total == raw.prompt.value + raw.completion.value)
  {
    ReportedIff(raw, fallbackInput, fallbackOutput);
  }

  /** A total below its parts is raised and the usage still passes as reported. */
  lemma RaisedTotalPassesAsReported(fallbackInput: nat, fallbackOutput: nat)
    ensures var raw := RawUsage(Some(5), Some(1), Some(0), Some(5), Some(0));
      Normalize(raw, fallbackInput, fallbackOutput) == (Usage(5, 0, 5, 1, 6), AsReported)
  {}

  // ---- prices ----

  /** Prices in micro-dollars per million tokens. */
  datatype PriceCard = PriceCard(cacheHit: nat, cacheMiss: nat, output: nat)

  datatype Model = DeepSeekFlash | DeepSeekPro | OtherModel(name: Text)

  const MILLION := 1_000_000

  function PriceOf(model: Model): Option<PriceCard> {
    match model
    case DeepSeekFlash => Some(PriceCard(2_800, 140_000, 280_000))
    case DeepSeekPro => Some(PriceCard(3_625, 435_000, 870_000))
    case OtherModel(_) => None
  }

  /** Rounds millionths up to whole micro-dollars. */
  function CeilMicrousd(millionths: nat): (microusd: nat)
    ensures microusd * MILLION >= millionths
    ensures microusd > 0 ==> (microusd - 1) * MILLION < millionths
  {
    (millionths + MILLION - 1) / MILLION
  }

  function Estimate(card: PriceCard, inputTokens: nat, outputTokens: nat): nat {
    CeilMicrousd(inputTokens * card.cacheMiss + outputTokens * card.output)
  }

  function ActualCost(card: PriceCard, usage: Usage): nat {
    CeilMicrousd(usage.cacheHit * card.cacheHit + usage.cacheMiss * card.cacheMiss + usage.completion * card.output)
  }

  lemma CeilIsMonotone(a: nat, b: nat)
    requires a <= b
    ensures CeilMicrousd(a) <= CeilMicrousd(b)
  {}

  lemma ProductsAreOrdered(a: nat, b: nat, x: nat, y: nat)
    requires a <= b && x <= y
    ensures a * x <= b * y
  {
    assert a * x <= b * x;
    assert b * x <= b * y;
  }

  lemma BillIsWithin(card: PriceCard, hit: nat, miss: nat, completion: nat, input: nat, output: nat)
    requires card.cacheHit <= card.cacheMiss && hit + miss <= input && completion <= output
    ensures hit * card.cacheHit + miss * card.cacheMiss + completion * card.output
      <= input * card.cacheMiss + output * card.output
  {
    ProductsAreOrdered(hit, hit, card.cacheHit, card.cacheMiss);
    ProductsAreOrdered(hit + miss, input, card.cacheMiss, card.cacheMiss);
    ProductsAreOrdered(completion, output, card.output, card.output);
    assert (hit + miss) * card.cacheMiss == hit * card.cacheMiss + miss * card.cacheMiss;
  }

  lemma CostIsWithin(card: PriceCard, usage: Usage, input: nat, output: nat)
    requires card.cacheHit <= card.cacheMiss && usage.cacheHit + usage.cacheMiss <= input && usage.completion <= output
    ensures ActualCost(card, usage) <= Estimate(card, input, output)
  {
    hide CeilMicrousd;
    BillIsWithin(card, usage.cacheHit, usage.cacheMiss, usage.completion, input, output);
    CeilIsMonotone(usage.cacheHit * card.cacheHit + usage.cacheMiss * card.cacheMiss + usage.completion * card.output,
      input * card.cacheMiss + output * card.output);
  }

  /** Cached tokens cost no more than uncached ones, so the actual cost stays below the reserved one. */
  lemma ActualIsWithinEstimate(card: PriceCard, raw: RawUsage, fallbackInput: nat, fallbackOutput: nat)
    requires card.cacheHit <= card.cacheMiss
    ensures var usage := Normalize(raw, fallbackInput, fallbackOutput).0;
      usage.prompt <= fallbackInput && usage.completion <= fallbackOutput ==>
        ActualCost(card, usage) <= Estimate(card, fallbackInput, fallbackOutput)
  {
    hide CeilMicrousd, Normalize, ActualCost, Estimate;
    var usage := Normalize(raw, fallbackInput, fallbackOutput).0;
    NormalizedUsageIsConsistent(raw, fallbackInput, fallbackOutput);
    if usage.prompt <= fallbackInput && usage.completion <= fallbackOutput {
      CostIsWithin(card, usage, fallbackInput, fallbackOutput);
    }
  }

  lemma MissingUsageCostsTheReservation(card: PriceCard, fallbackInput: nat, fallbackOutput: nat)
    ensures var (usage, quality) := Normalize(NO_USAGE, fallbackInput, fallbackOutput);
      && ActualCost(card, usage) == Estimate(card, fallbackInput, fallbackOutput)
      && usage.total == fallbackInput + fallbackOutput
      && quality.PessimisticFallback?
  {}

  /** Splitting the prompt differently between hits and misses moves the cost only towards the misses. */
  lemma InconsistentSplitIsChargedInFull(raw: RawUsage, fallbackInput: nat, fallbackOutput: nat)
    requires Usable(raw.cacheHit) && Usable(raw.cacheMiss)
    requires raw.cacheHit.value + raw.cacheMiss.value != ValueOr(raw.prompt, fallbackInput)
    ensures var usage := Normalize(raw, fallbackInput, fallbackOutput).0;
      usage.cacheHit == 0 && usage.cacheMiss >= raw.cacheHit.value + raw.cacheMiss.value
  {}

  // ---- settlements ----

  function SettlementOf(card: PriceCard, row: CallRow, completion: nat, raw: RawUsage): Settlement {
    var usage := Normalize(raw, row.reservedInput, row.reservedOutput).0;
    Settlement(completion, usage.total, ActualCost(card, usage))
  }

  predicate ReservedAtPrice(card: PriceCard, row: CallRow) {
    row.reservedCost == Estimate(card, row.reservedInput, row.reservedOutput)
  }

  /** A usage that fits the reservation in tokens, reported or assumed, also fits it in cost. */
  lemma SettlementWithinReservation(model: Model, row: CallRow, completion: nat, raw: RawUsage)
    requires PriceOf(model).Some? && ReservedAtPrice(PriceOf(model).value, row)
    ensures var usage := Normalize(raw, row.reservedInput, row.reservedOutput).0;
      usage.prompt <= row.reservedInput && usage.completion <= row.reservedOutput
        && ValueOr(raw.total, 0) <= ReservedTokens(row) ==>
        WithinReservation(row, SettlementOf(PriceOf(model).value, row, completion, raw))
  {
    hide CeilMicrousd;
    ActualIsWithinEstimate(PriceOf(model).value, raw, row.reservedInput, row.reservedOutput);
  }

  lemma MissingUsageSettlesTheReservation(model: Model, row: CallRow, completion: nat)
    requires PriceOf(model).Some? && ReservedAtPrice(PriceOf(model).value, row)
    ensures SettlementOf(PriceOf(model).value, row, completion, NO_USAGE)
      == Settlement(completion, ReservedTokens(row), row.reservedCost)
  {
    MissingUsageCostsTheReservation(PriceOf(model).value, row.reservedInput, row.reservedOutput);
  }
}
