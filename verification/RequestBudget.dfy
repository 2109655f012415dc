/**
 Token budgets, from the request planner through the compaction policy to the pressure gate. Limits are
 JavaScript numbers: they may be fractional, and an absent or non-finite one is `None`.
 */
module RequestBudget {
  import opened Sequences

  type Amount = Option<real>

  const MIN_REQUEST_BUDGET := 256
  const COMPACT_SUMMARY_OUTPUT_RESERVE := 20_000
  const DEFAULT_TURN_OUTPUT_RESERVE := 8_192
  const BASE_BUFFER := 13_000
  const MEDIUM_CONTEXT_BUFFER := 30_000
  const LARGE_CONTEXT_BUFFER := 50_000
  const TOOL_RESULT_TURN_GROWTH := 15_000

  function Min(a: int, b: int): int {
    if a < b then a else b
  }

  function Max(a: int, b: int): int {
    if a < b then b else a
  }

  /** Floors a positive number; note that a fraction below one becomes zero, not `None`. */
  function NormalizePositiveInteger(v: Amount): Option<nat> {
    if v.None? || v.value <= 0.0 then None else Some(v.value.Floor)
  }

  /** JavaScript truth of an optional number: zero counts as absent. */
  predicate Truthy(v: Option<nat>) {
    v.Some? && v.value != 0
  }

  // ---- The policy ----

  datatype Backend = Codex | Other

  function OutputReserve(maxOutput: Amount): nat {
    var n := NormalizePositiveInteger(maxOutput);
    Min(if n.Some? then n.value else DEFAULT_TURN_OUTPUT_RESERVE, COMPACT_SUMMARY_OUTPUT_RESERVE)
  }

  function Buffer(maxTokens: nat): nat {
    if maxTokens >= 800_000 then LARGE_CONTEXT_BUFFER
    else if maxTokens >= 400_000 then MEDIUM_CONTEXT_BUFFER
    else BASE_BUFFER
  }

  function WithinWindow(limit: int, maxTokens: nat): Option<nat> {
    if limit <= 0 || limit >= maxTokens then None else Some(limit)
  }

  /** `configured` is the limit that a Codex model profile may carry. */
  function AutoCompactTokenLimit(
      backend: Backend, configured: Amount, maxTokens: Amount, maxOutput: Amount)
    : Option<nat>
  {
    var n := NormalizePositiveInteger(maxTokens);
    if !Truthy(n) then None
    else if backend.Codex? then
      var native := (n.value as real * 0.9).Floor;
      var profile := NormalizePositiveInteger(configured);
      Some(if profile.Some? then Min(profile.value, native) else native)
    else WithinWindow(n.value - OutputReserve(maxOutput) - Buffer(n.value), n.value)
  }

  function PredictiveCompactTokenLimit(backend: Backend, maxTokens: Amount, maxOutput: Amount): Option<nat> {
    var n := NormalizePositiveInteger(maxTokens);
    if !Truthy(n) || backend.Codex? then None
    else
      var reserve := OutputReserve(maxOutput);
      WithinWindow(n.value - reserve - (reserve + TOOL_RESULT_TURN_GROWTH), n.value)
  }

  // ---- The planner ----

  datatype BudgetInput = BudgetInput(
    backend: Backend,
    configured: Amount,
    protocolMaxTokens: Amount,
    defaultMaxTokens: Amount,
    backendMaxTokens: Amount,
    protectedTokens: nat,
    promptTokens: nat,
    toolTokens: nat,
    backendPromptTokens: Amount,
    fixedOverhead: Amount,
    maxOutputTokens: Amount)

  /** `maxTokens` is `None` where the source ends up with an undefined budget. */
  datatype Budget = Budget(
    maxTokens: Option<nat>,
    systemPromptTokens: nat,
    providerRequestOverheadTokens: nat,
    maxOutputTokens: nat,
    autoLimit: Option<nat>,
    predictiveLimit: Option<nat>)

  datatype BudgetError = NoPositiveBudget

  function OrZero(v: Option<nat>): nat {
    if v.Some? then v.value else 0
  }

  function AsAmount(v: Option<nat>): Amount {
    if v.Some? then Some(v.value as real) else None
  }

  /** The selection and the clamp by the backend's own window. */
  function SelectMaxTokens(protocol: Amount, fallback: Amount, backend: Amount): Result<Option<nat>, BudgetError> {
    var p, d, b := NormalizePositiveInteger(protocol), NormalizePositiveInteger(fallback), NormalizePositiveInteger(backend);
    if d.None? && p.None? then Err(NoPositiveBudget)
    else
      var selected := if Truthy(p) then p else d;
      Ok(if selected.Some? && Truthy(b) && selected.value > b.value then b else selected)
  }

  function ResolveBudget(input: BudgetInput): Result<Budget, BudgetError> {
    match SelectMaxTokens(input.protocolMaxTokens, input.defaultMaxTokens, input.backendMaxTokens)
    case Err(e) => Err(e)
    case Ok(maxTokens) =>
      var overhead := input.promptTokens + input.toolTokens + OrZero(NormalizePositiveInteger(input.backendPromptTokens))
                      + OrZero(NormalizePositiveInteger(input.fixedOverhead));
      var output := OrZero(NormalizePositiveInteger(input.maxOutputTokens));
      var window, reserve := AsAmount(maxTokens), AsAmount(Some(output));
      Ok(Budget(maxTokens, input.protectedTokens + overhead, overhead, output,
                AutoCompactTokenLimit(input.backend, input.configured, window, reserve),
                PredictiveCompactTokenLimit(input.backend, window, reserve)))
  }

  // ---- The gate ----

  function HardMaxTokens(maxTokens: int, system: int): nat {
    Max(maxTokens - system, MIN_REQUEST_BUDGET)
  }

  /** A limit as it presses on what may be projected, if it is below the hard window at all. */
  function Pressure(limit: Option<nat>, system: int, hard: nat): Option<nat> {
    var n := NormalizePositiveInteger(AsAmount(limit));
    if n.None? then None
    else
      var value := Max(Min(n.value - system, hard), MIN_REQUEST_BUDGET);
      if value < hard then Some(value) else None
  }

  function EffectiveMaxTokens(maxTokens: int, system: int, autoLimit: Option<nat>, predictiveLimit: Option<nat>): nat {
    var hard := HardMaxTokens(maxTokens, system);
    match (Pressure(autoLimit, system, hard), Pressure(predictiveLimit, system, hard))
    case (Some(a), Some(p)) => Min(a, p)
    case (Some(a), None) => a
    case (None, Some(p)) => p
    case (None, None) => hard
  }

  /** The compaction gate lets a request through uncompacted. */
  predicate Skips(projected: nat, force: bool, effective: nat) {
    !force && projected <= effective
  }

  /** The projection's own question whether it is under pressure. */
  predicate ShouldCompact(estimated: nat, hard: nat, target: nat) {
    estimated > hard || estimated >= target
  }

  // ---- Properties ----

  lemma {:induction false} FloorOfInteger(n: nat)
    requires n > 0
    ensures NormalizePositiveInteger(Some(n as real)) == Some(n)
  {
  }

  /** The planner has a positive budget exactly when the protocol or the default offers at least one whole token. */
  lemma {:induction false} SelectionIsPositiveIff(protocol: Amount, fallback: Amount, backend: Amount)
    ensures var r := SelectMaxTokens(protocol, fallback, backend);
            (r.Ok? && Truthy(r.value)) <==>
            (protocol.Some? && protocol.value >= 1.0) || (fallback.Some? && fallback.value >= 1.0)
    ensures SelectMaxTokens(protocol, fallback, backend).Err? <==>
            !(protocol.Some? && protocol.value > 0.0) && !(fallback.Some? && fallback.value > 0.0)
  {
  }

  /** The guard's promise fails for a fraction of a token: the budget it lets through is undefined. */
  lemma {:induction false} FractionalBudgetIsUndefined()
    ensures SelectMaxTokens(Some(0.5), None, None) == Ok(None)
  {
  }

  /** A whole number of tokens that an amount allows. */
  predicate Allows(amount: real, n: nat) {
    n as real <= amount
  }

  /** Whether an amount offers at least one whole token. */
  predicate OffersToken(v: Amount) {
    v.Some? && v.value >= 1.0
  }

  lemma {:induction false} FloorAllows(amount: real, n: nat)
    ensures n <= amount.Floor <==> Allows(amount, n)
  {
  }

  /**
   The selected budget is the greatest whole number of tokens within what was chosen, the protocol's limit if it
   offers a token and the default one otherwise, and within the backend's window if that offers a token.
   */
  lemma {:induction false} SelectionIsGreatest(protocol: Amount, fallback: Amount, backend: Amount, m: nat)
    requires SelectMaxTokens(protocol, fallback, backend).Ok? && Truthy(SelectMaxTokens(protocol, fallback, backend).value)
    ensures OffersToken(if OffersToken(protocol) then protocol else fallback)
    ensures m <= SelectMaxTokens(protocol, fallback, backend).value.value <==>
            && Allows((if OffersToken(protocol) then protocol else fallback).value, m)
            && (OffersToken(backend) ==> Allows(backend.value, m))
  {
    FloorAllows((if OffersToken(protocol) then protocol else fallback).value, m);
    if OffersToken(backend) {
      FloorAllows(backend.value, m);
    }
  }

  /** A selected budget comes from the protocol if that is whole, and never exceeds the backend's window. */
  lemma {:induction false} SelectionIsClamped(protocol: Amount, fallback: Amount, backend: Amount)
    requires SelectMaxTokens(protocol, fallback, backend).Ok? && Truthy(SelectMaxTokens(protocol, fallback, backend).value)
    ensures var n := SelectMaxTokens(protocol, fallback, backend).value.value;
            && (backend.Some? && backend.value >= 1.0 ==> n as real <= backend.value)
            && (protocol.Some? && protocol.value >= 1.0 ==> n as real <= protocol.value)
            && (exists limit: Amount | limit in {protocol, fallback, backend} :: NormalizePositiveInteger(limit) == Some(n))
  {
  }

  /** Whatever the limits, the effective budget lies between the minimum and the hard window. */
  lemma {:induction false} EffectiveWithinWindow(
      maxTokens: int, system: int, autoLimit: Option<nat>, predictiveLimit: Option<nat>)
    ensures MIN_REQUEST_BUDGET <= EffectiveMaxTokens(maxTokens, system, autoLimit, predictiveLimit)
            <= HardMaxTokens(maxTokens, system)
  {
  }

  /** The effective budget is the tightest of the hard window and the limits, each left at least the minimum. */
  lemma {:induction false} EffectiveIsTightest(
      maxTokens: int, system: int, autoLimit: Option<nat>, predictiveLimit: Option<nat>, m: nat)
    ensures m <= EffectiveMaxTokens(maxTokens, system, autoLimit, predictiveLimit) <==>
            || m <= 256
            || (m + system <= maxTokens
                && (autoLimit.Some? && autoLimit.value > 0 ==> m + system <= autoLimit.value)
                && (predictiveLimit.Some? && predictiveLimit.value > 0 ==> m + system <= predictiveLimit.value))
  {
    if autoLimit.Some? && autoLimit.value > 0 { FloorOfInteger(autoLimit.value); }
    if predictiveLimit.Some? && predictiveLimit.value > 0 { FloorOfInteger(predictiveLimit.value); }
  }

  lemma {:induction false} PressureOfLimit(maxTokens: nat, system: nat, limit: nat)
    requires 0 < limit < maxTokens
    ensures var hard := HardMaxTokens(maxTokens, system);
            limit - system >= MIN_REQUEST_BUDGET ==> Pressure(Some(limit), system, hard) == Some(limit - system)
  {
    FloorOfInteger(limit);
  }

  /**
   Skipping keeps the whole room that a limit reserves free if and only if the limit leaves at least the
   minimum budget beside the system prompt. `reserved` is what the limit keeps back from the window.
   */
  lemma {:induction false} SkipKeepsReserveIff(
      maxTokens: nat, system: nat, limit: nat, reserved: nat, autoLimit: Option<nat>, predictiveLimit: Option<nat>)
    requires 0 < limit == maxTokens - reserved && reserved > 0
    requires autoLimit == Some(limit) || predictiveLimit == Some(limit)
    ensures var effective := EffectiveMaxTokens(maxTokens, system, autoLimit, predictiveLimit);
            (forall projected: nat | Skips(projected, false, effective) :: projected + system + reserved <= maxTokens)
            <==> limit - system >= MIN_REQUEST_BUDGET
  {
    var effective := EffectiveMaxTokens(maxTokens, system, autoLimit, predictiveLimit);
    PressureOfLimit(maxTokens, system, limit);
    EffectiveWithinWindow(maxTokens, system, autoLimit, predictiveLimit);
    assert Skips(effective, false, effective);
  }

  // ---- From the request to its limits ----

  /** The whole tokens in an amount, none in an absent or negative one. */
  predicate IsWholePart(v: Amount, n: nat) {
    if v.None? || v.value <= 0.0 then n == 0 else n as real <= v.value < n as real + 1.0
  }

  lemma {:induction false} WholePartOf(v: Amount)
    ensures IsWholePart(v, OrZero(NormalizePositiveInteger(v)))
  {
  }

  /** The policy's reserve: 8,192 tokens if nothing is asked for, otherwise what is asked for up to 20,000. */
  lemma {:induction false} ReserveOf(maxOutput: Amount, m: nat)
    ensures maxOutput.None? || maxOutput.value <= 0.0 ==> OutputReserve(maxOutput) == 8_192
    ensures maxOutput.Some? && maxOutput.value > 0.0 ==>
              (m <= OutputReserve(maxOutput) <==> m as real <= maxOutput.value && m <= 20_000)
  {
    if maxOutput.Some? && maxOutput.value > 0.0 {
      FloorAllows(maxOutput.value, m);
    }
  }

  /**
   What a request reserves for its output, by way of the planner: the whole tokens it asks for up to 20,000. A
   fraction below one, which alone would reserve nothing, becomes zero in the planner and then the 8,192 of a
   request that asks for nothing.
   */
  predicate IsReserve(asked: Amount, reserve: nat) {
    if OffersToken(asked) then
      if asked.value >= 20_000.0 then reserve == 20_000 else reserve as real <= asked.value < reserve as real + 1.0
    else reserve == 8_192
  }

  predicate IsBuffer(n: nat, buffer: nat) {
    buffer == if n >= 800_000 then 50_000 else if n >= 400_000 then 30_000 else 13_000
  }

  lemma {:induction false} PlannedReserve(asked: Amount)
    ensures IsReserve(asked, OutputReserve(AsAmount(Some(OrZero(NormalizePositiveInteger(asked))))))
  {
    var output := OrZero(NormalizePositiveInteger(asked));
    WholePartOf(asked);
    if output > 0 {
      FloorOfInteger(output);
    }
  }

  /** What the planner takes over from the request, and the limits it derives. */
  lemma {:induction false} ResolvedBudget(input: BudgetInput)
    requires ResolveBudget(input).Ok? && Truthy(ResolveBudget(input).value.maxTokens)
    ensures var b := ResolveBudget(input).value;
            var reserve := OutputReserve(AsAmount(Some(b.maxOutputTokens)));
            && IsWholePart(input.maxOutputTokens, b.maxOutputTokens) && IsReserve(input.maxOutputTokens, reserve)
            && Ok(b.maxTokens) == SelectMaxTokens(input.protocolMaxTokens, input.defaultMaxTokens, input.backendMaxTokens)
  {
    WholePartOf(input.maxOutputTokens);
    PlannedReserve(input.maxOutputTokens);
  }

  /** The limits of a request to another backend than Codex, measured by what it asks for. */
  lemma {:induction false} ResolvedLimits(input: BudgetInput) returns (reserve: nat, buffer: nat)
    requires input.backend.Other? && ResolveBudget(input).Ok? && Truthy(ResolveBudget(input).value.maxTokens)
    ensures IsReserve(input.maxOutputTokens, reserve) && IsBuffer(ResolveBudget(input).value.maxTokens.value, buffer)
    ensures var b := ResolveBudget(input).value;
            var n := b.maxTokens.value;
            && (b.autoLimit.None? <==> reserve + buffer >= n)
            && (b.autoLimit.Some? ==> b.autoLimit.value + reserve + buffer == n)
            && (b.predictiveLimit.None? <==> reserve + (reserve + 15_000) >= n)
            && (b.predictiveLimit.Some? ==> b.predictiveLimit.value + reserve + (reserve + 15_000) == n)
  {
    var b := ResolveBudget(input).value;
    ResolvedBudget(input);
    reserve, buffer := OutputReserve(AsAmount(Some(b.maxOutputTokens))), Buffer(b.maxTokens.value);
    LimitsKeepReserves(b.maxTokens.value, AsAmount(Some(b.maxOutputTokens)));
  }

  /** The one limit of a request to Codex: the greatest whole number within 90% and the configured limit. */
  lemma {:induction false} ResolvedCodexLimit(input: BudgetInput, m: nat)
    requires input.backend.Codex? && ResolveBudget(input).Ok? && Truthy(ResolveBudget(input).value.maxTokens)
    ensures var b := ResolveBudget(input).value;
            && b.predictiveLimit.None? && b.autoLimit.Some?
            && (m <= b.autoLimit.value <==> CodexAllows(input.configured, b.maxTokens.value, m))
  {
    var b := ResolveBudget(input).value;
    CodexLimitIs(input.configured, b.maxTokens.value, AsAmount(Some(b.maxOutputTokens)));
    CodexLimitAllows(input.configured, b.maxTokens.value, m);
  }

  /**
   From the planner to the gate: what is left free when a request of a non-Codex backend goes out uncompacted, in
   terms of what the request asks for.
   */
  lemma {:induction false} UncompactedRequestFits(input: BudgetInput, projected: nat)
    returns (reserve: nat, buffer: nat)
    requires input.backend.Other? && ResolveBudget(input).Ok? && Truthy(ResolveBudget(input).value.maxTokens)
    ensures IsReserve(input.maxOutputTokens, reserve) && IsBuffer(ResolveBudget(input).value.maxTokens.value, buffer)
    ensures var b := ResolveBudget(input).value;
            var n, system := b.maxTokens.value, b.systemPromptTokens;
            Skips(projected, false, EffectiveMaxTokens(n, system, b.autoLimit, b.predictiveLimit)) ==>
              && (n >= system + reserve + buffer + 256 ==> projected + system + reserve + buffer <= n)
              && (n >= system + reserve + (reserve + 15_000) + 256 ==>
                    projected + system + reserve + (reserve + 15_000) <= n)
              && (n >= system + 256 ==> projected + system <= n)
  {
    var b := ResolveBudget(input).value;
    reserve, buffer := ResolvedLimits(input);
    EffectiveIsTightest(b.maxTokens.value, b.systemPromptTokens, b.autoLimit, b.predictiveLimit, projected);
  }

  /** The policy gives no limit exactly when its reserves would eat the window; otherwise it keeps them whole. */
  lemma {:induction false} LimitsKeepReserves(maxTokens: nat, maxOutput: Amount)
    requires maxTokens > 0
    ensures var reserve := OutputReserve(maxOutput);
            var auto := AutoCompactTokenLimit(Other, None, Some(maxTokens as real), maxOutput);
            var predictive := PredictiveCompactTokenLimit(Other, Some(maxTokens as real), maxOutput);
            && (auto.None? <==> reserve + Buffer(maxTokens) >= maxTokens)
            && (auto.Some? ==> auto.value + reserve + Buffer(maxTokens) == maxTokens)
            && (predictive.None? <==> reserve + reserve + TOOL_RESULT_TURN_GROWTH >= maxTokens)
            && (predictive.Some? ==> predictive.value + reserve + reserve + TOOL_RESULT_TURN_GROWTH == maxTokens)
            && (auto.Some? && predictive.Some? ==>
                  (predictive.value < auto.value <==> reserve + TOOL_RESULT_TURN_GROWTH > Buffer(maxTokens)))
  {
    FloorOfInteger(maxTokens);
  }

  /** The two pressure questions differ at one point only: a view that exactly meets the effective budget. */
  lemma {:induction false} GateAndProjectionDiffer(maxTokens: int, system: int, autoLimit: Option<nat>,
                                                   predictiveLimit: Option<nat>, projected: nat)
    ensures var hard := HardMaxTokens(maxTokens, system);
            var effective := EffectiveMaxTokens(maxTokens, system, autoLimit, predictiveLimit);
            && !Skips(projected, true, effective)
            && (ShouldCompact(projected, hard, effective) && Skips(projected, false, effective) <==>
                projected == effective)
    ensures var hard := HardMaxTokens(maxTokens, system);
            var effective := EffectiveMaxTokens(maxTokens, system, autoLimit, predictiveLimit);
            ShouldCompact(projected, hard, effective) || Skips(projected, false, effective)
  {
  }

  /** Within 90% of the window, and within the configured limit if there is a positive one. */
  predicate CodexAllows(configured: Amount, maxTokens: nat, n: nat) {
    && Allows(maxTokens as real * 0.9, n)
    && (configured.Some? && configured.value > 0.0 ==> Allows(configured.value, n))
  }

  /** The Codex trigger is the greatest whole number of tokens within 90% of the window and the configured limit. */
  lemma {:induction false} CodexLimitIsGreatest(configured: Amount, maxTokens: nat, maxOutput: Amount)
    requires maxTokens > 0
    ensures var limit := AutoCompactTokenLimit(Codex, configured, Some(maxTokens as real), maxOutput);
            && limit.Some?
            && forall n: nat :: n <= limit.value <==> CodexAllows(configured, maxTokens, n)
    ensures PredictiveCompactTokenLimit(Codex, Some(maxTokens as real), maxOutput) == None
  {
    CodexLimitIs(configured, maxTokens, maxOutput);
    var limit := CodexLimit(configured, maxTokens);
    forall n: nat
      ensures n <= limit <==> CodexAllows(configured, maxTokens, n)
    {
      CodexLimitAllows(configured, maxTokens, n);
    }
  }

  function CodexLimit(configured: Amount, maxTokens: nat): nat {
    var native := (maxTokens as real * 0.9).Floor;
    if configured.Some? && configured.value > 0.0 then Min(configured.value.Floor, native) else native
  }

  lemma {:induction false} CodexLimitIs(configured: Amount, maxTokens: nat, maxOutput: Amount)
    requires maxTokens > 0
    ensures AutoCompactTokenLimit(Codex, configured, Some(maxTokens as real), maxOutput) ==
            Some(CodexLimit(configured, maxTokens))
    ensures PredictiveCompactTokenLimit(Codex, Some(maxTokens as real), maxOutput) == None
  {
    FloorOfInteger(maxTokens);
  }

  lemma {:induction false} CodexLimitAllows(configured: Amount, maxTokens: nat, n: nat)
    ensures n <= CodexLimit(configured, maxTokens) <==> CodexAllows(configured, maxTokens, n)
  {
    FloorAllows(maxTokens as real * 0.9, n);
    if configured.Some? && configured.value > 0.0 {
      FloorAllows(configured.value, n);
    }
  }

  /**
   A wider window lowers the trigger exactly when it gains fewer tokens than the buffer takes more; one token more
   lowers it at 400,000 and 800,000 tokens only.
   */
  lemma {:induction false} WiderWindowLowersTriggerIff(n: nat, m: nat, maxOutput: Amount)
    requires 0 < n <= m
    requires AutoCompactTokenLimit(Other, None, Some(n as real), maxOutput).Some?
    requires AutoCompactTokenLimit(Other, None, Some(m as real), maxOutput).Some?
    ensures var narrow := AutoCompactTokenLimit(Other, None, Some(n as real), maxOutput).value;
            var wide := AutoCompactTokenLimit(Other, None, Some(m as real), maxOutput).value;
            && (wide < narrow <==> m - n < Buffer(m) - Buffer(n))
            && (m == n + 1 ==> (wide < narrow <==> m == 400_000 || m == 800_000))
  {
    LimitsKeepReserves(n, maxOutput);
    LimitsKeepReserves(m, maxOutput);
  }

  /** Everything the request carries beside the transcript is counted once, in whole tokens. */
  lemma {:induction false} OverheadIsCounted(input: BudgetInput) returns (backendPrompt: nat, fixed: nat)
    requires ResolveBudget(input).Ok?
    ensures IsWholePart(input.backendPromptTokens, backendPrompt) && IsWholePart(input.fixedOverhead, fixed)
    ensures var b := ResolveBudget(input).value;
            && b.systemPromptTokens == input.protectedTokens + b.providerRequestOverheadTokens
            && b.providerRequestOverheadTokens == input.promptTokens + input.toolTokens + backendPrompt + fixed
  {
    WholePartOf(input.backendPromptTokens);
    WholePartOf(input.fixedOverhead);
    backendPrompt, fixed :=
      OrZero(NormalizePositiveInteger(input.backendPromptTokens)), OrZero(NormalizePositiveInteger(input.fixedOverhead));
  }
}
