/** Scorecard import (scripts/token_efficiency_scorecard.py).

    A JSON object is a map from keys; the keys that the script names are
    constructors and every other key is `Other`.  The regular expressions that look
    for secrets and private paths are two predicates of a scanner. */
module Scorecard {
  import opened Text
  import opened Rounding

  datatype Key =
    | AdapterRunId | RuntimeKind | RuntimeVersion | ScenarioId | Mode | StateStrategy | Status
    | PassFailReason | QualityMethod | RawTraceArtifactId | RedactionStatus
    | InputTokenTotal | OutputTokenTotal | ContextTokenTotal | RepeatedContextTokenTotal | RetrievedRefTokenTotal
    | ToolCallCount | RedundantToolCallCount | RetryCount | StepCount | DurationMs
    | QualityScore | EstimatedCostUsd | SchemaVersion | ComparisonContract | EvidenceProvenance | Steps | DerivedMetrics
    | ScenarioDigest | TaskDigest | ProviderId | ModelId | TokenizerId | PricingId | EvaluatorVersion
    | RedactionPolicy | RetryPolicy | InputCostPer1k | OutputCostPer1k | QualityThreshold | Seed
    | AdapterStepId | NodeName | AgentRole | OperationKind | ErrorKind
    | StepIndex | InputTokens | OutputTokens | ContextTokens | RepeatedContextTokens
    | RetrievedRefsCount | RetrievedRefTokens | StateReadBytes | StateWriteBytes
    | ToolName | ToolCallId | StartedAt | FinishedAt
    | CaptureId | CapturedAt | SourceKind | SourceCaptureSha256 | ExternalModelCalls | SummaryLevel
    | TotalTokens | ContextShare | RepeatedContextRatio | ToolRedundancyRatio
    | TokensPerPassingRun | CostPerPassingRun | StepRetryRatio
    | ArtifactKind | Storage | ReadOnly | MetadataOnly | TargetRepositoryWrites | CreatedAt | ArtifactId
    | ContentSha256 | ScorecardSchemaVersion | ScorecardField
    | Other(name: string)

  datatype Json =
    | Null
    | Bool(b: bool)
    | Number(value: real, integral: bool)
    | Str(s: string)
    | Arr(items: seq<Json>)
    | Obj(fields: map<Key, Json>)

  type Fields = map<Key, Json>

  const SCHEMA := "token_efficiency_scorecard.v1"

  function RunStrings(): set<Key> {
    {
    AdapterRunId, RuntimeKind, RuntimeVersion, ScenarioId, Mode, StateStrategy, Status,
    PassFailReason, QualityMethod, RawTraceArtifactId, RedactionStatus}
  }
  function RunNumbers(): set<Key> {
    {
    InputTokenTotal, OutputTokenTotal, ContextTokenTotal, RepeatedContextTokenTotal, RetrievedRefTokenTotal,
    ToolCallCount, RedundantToolCallCount, RetryCount, StepCount, DurationMs}
  }
  function ContractStrings(): set<Key> {
    {
    ScenarioDigest, TaskDigest, RuntimeKind, RuntimeVersion, ProviderId, ModelId, TokenizerId, PricingId,
    QualityMethod, EvaluatorVersion, RedactionPolicy, RetryPolicy}
  }
  function ContractNumbers(): set<Key> {
    {InputCostPer1k, OutputCostPer1k, QualityThreshold, Seed}
  }
  function StepStrings(): set<Key> {
    {AdapterStepId, AdapterRunId, NodeName, AgentRole, OperationKind, Status, ErrorKind}
  }
  function StepNumbers(): set<Key> {
    {
    StepIndex, InputTokens, OutputTokens, ContextTokens, RepeatedContextTokens,
    RetrievedRefsCount, RetrievedRefTokens, StateReadBytes, StateWriteBytes}
  }
  function StepOptional(): set<Key> {
    {ToolName, ToolCallId, StartedAt, FinishedAt}
  }

  // ---- Bounds and scanning.

  datatype Scanner = Scanner(cleanKey: string -> bool, cleanText: string -> bool)

  const MAX_STRING: nat := 1024
  const MAX_ITEMS: nat := 1000
  const MAX_FIELDS: nat := 128
  const MAX_DEPTH: nat := 16

  predicate Bounded(v: Json, depth: nat)
    decreases v
  {
    depth <= MAX_DEPTH &&
    match v
    case Str(s) => |Utf8(s)| <= MAX_STRING
    case Arr(items) => |items| <= MAX_ITEMS && forall i :: 0 <= i < |items| ==> Bounded(items[i], depth + 1)
    case Obj(fields) =>
      && |fields| <= MAX_FIELDS
      && forall k :: k in fields ==> (k.Other? ==> |Utf8(k.name)| <= MAX_STRING) && Bounded(fields[k], depth + 1)
    case _ => true
  }

  predicate Clean(v: Json, scan: Scanner)
    decreases v
  {
    match v
    case Str(s) => scan.cleanText(s)
    case Arr(items) => forall i :: 0 <= i < |items| ==> Clean(items[i], scan)
    case Obj(fields) => forall k :: k in fields ==> (k.Other? ==> scan.cleanKey(k.name)) && Clean(fields[k], scan)
    case _ => true
  }

  // ---- Field checks.

  predicate HasText(f: Fields, k: Key) { k in f && f[k].Str? && Strip(f[k].s) != "" }

  predicate HasCount(f: Fields, k: Key) { k in f && f[k].Number? && f[k].value >= 0.0 }

  function TextOf(f: Fields, k: Key): string { if k in f && f[k].Str? then f[k].s else "" }

  function NumberOf(f: Fields, k: Key): real { if k in f && f[k].Number? then f[k].value else 0.0 }

  function Integral(f: Fields, k: Key): bool { k in f && f[k].Number? && f[k].integral }

  predicate Given(f: Fields, k: Key) { k in f && f[k] != Null }

  predicate HexDigit(c: char) { '0' <= c <= '9' || 'a' <= c <= 'f' || 'A' <= c <= 'F' }

  predicate Digest(s: string) { |s| == 64 && forall i :: 0 <= i < |s| ==> HexDigit(s[i]) }

  function Lower(c: char): char { if 'A' <= c <= 'Z' then (c as int + 32) as char else c }

  function LowerDigest(s: string): (r: string)
    ensures |r| == |s| && forall i :: 0 <= i < |s| ==> r[i] == Lower(s[i])
  {
    seq(|s|, i requires 0 <= i < |s| => Lower(s[i]))
  }

  predicate RunOk(f: Fields) {
    && (forall k :: k in RunStrings() ==> HasText(f, k))
    && (forall k :: k in RunNumbers() ==> HasCount(f, k))
    && RunRelations(f)
  }

  predicate RunRelations(f: Fields) {
    && (Given(f, EstimatedCostUsd) ==> HasCount(f, EstimatedCostUsd))
    && TextOf(f, RuntimeKind) in {"native_harness", "langgraph", "crewai", "microsoft_agent_framework", "other"}
    && TextOf(f, Mode) in {"native_control_plane", "stateless_reread", "stateful_store", "pruned_context", "external_runtime"}
    && TextOf(f, StateStrategy) in {"none", "full_history", "durable_state", "memory_digest", "retrieval_refs", "mixed"}
    && TextOf(f, Status) in {"pass", "fail", "error", "blocked"}
    && TextOf(f, QualityMethod) in {"rule", "test", "human_review", "model_judge", "mixed", "none"}
    && TextOf(f, RedactionStatus) in {"not_needed", "redacted", "rejected"}
    && NumberOf(f, RedundantToolCallCount) <= NumberOf(f, ToolCallCount)
    && NumberOf(f, RepeatedContextTokenTotal) <= NumberOf(f, ContextTokenTotal)
    && NumberOf(f, RetrievedRefTokenTotal) <= NumberOf(f, ContextTokenTotal)
    && (TextOf(f, Status) == "pass" ==> TextOf(f, QualityMethod) != "none")
    && (Given(f, QualityScore) ==> f[QualityScore].Number? && 0.0 <= f[QualityScore].value <= 1.0)
  }

  // ---- The comparison contract and the cost it implies.

  predicate ContractShape(c: Fields) {
    && (forall k :: k in ContractStrings() ==> HasText(c, k))
    && (forall k :: k in ContractNumbers() ==> HasCount(c, k))
    && Digest(TextOf(c, ScenarioDigest)) && Digest(TextOf(c, TaskDigest))
  }

  predicate ContractOk(f: Fields) {
    ComparisonContract in f && f[ComparisonContract].Obj? &&
    var c := f[ComparisonContract].fields;
    && ContractShape(c)
    && TextOf(c, RuntimeKind) == TextOf(f, RuntimeKind)
    && TextOf(c, RuntimeVersion) == TextOf(f, RuntimeVersion)
    && TextOf(c, QualityMethod) == TextOf(f, QualityMethod)
    && NumberOf(c, QualityThreshold) <= 1.0
    && Integral(c, Seed)
  }

  function Restricted(f: Fields, keys: set<Key>): Fields { map k | k in f && k in keys :: f[k] }

  function NormalContract(c: Fields): Fields {
    Restricted(c, ContractStrings() + ContractNumbers())
      [ScenarioDigest := Str(LowerDigest(TextOf(c, ScenarioDigest)))]
      [TaskDigest := Str(LowerDigest(TextOf(c, TaskDigest)))]
  }

  function CostOf(input: real, inputRate: real, output: real, outputRate: real): real {
    Round6(input * inputRate / 1000.0 + output * outputRate / 1000.0)
  }

  function DerivedCost(f: Fields, c: Fields): real {
    CostOf(NumberOf(f, InputTokenTotal), NumberOf(c, InputCostPer1k), NumberOf(f, OutputTokenTotal), NumberOf(c, OutputCostPer1k))
  }

  function Distance(x: real, y: real): real { if x < y then y - x else x - y }

  predicate CostOk(f: Fields) {
    ComparisonContract in f && f[ComparisonContract].Obj? && Given(f, EstimatedCostUsd) ==>
      Distance(NumberOf(f, EstimatedCostUsd), DerivedCost(f, f[ComparisonContract].fields)) <= 0.0000005
  }

  // ---- Evidence provenance.

  predicate ProvenanceOk(f: Fields) {
    EvidenceProvenance in f && f[EvidenceProvenance].Obj? &&
    var p := f[EvidenceProvenance].fields;
    && HasText(p, CaptureId) && HasText(p, CapturedAt) && HasText(p, SourceKind) && HasText(p, SourceCaptureSha256)
    && Digest(TextOf(p, SourceCaptureSha256))
    && HasCount(p, ExternalModelCalls) && Integral(p, ExternalModelCalls)
    && SummaryLevel in p && p[SummaryLevel] == Bool(true)
  }

  function NormalProvenance(p: Fields): Fields {
    Restricted(p, {CaptureId, CapturedAt, SourceKind, ExternalModelCalls, SummaryLevel})
      [SourceCaptureSha256 := Str(LowerDigest(TextOf(p, SourceCaptureSha256)))]
  }

  // ---- Steps.

  predicate StepOk(step: Json, runId: string, index: nat) {
    step.Obj? &&
    var f := step.fields;
    && (forall k :: k in StepStrings() ==> HasText(f, k))
    && (forall k :: k in StepNumbers() ==> HasCount(f, k))
    && StepRelations(f, runId, index)
  }

  predicate StepRelations(f: Fields, runId: string, index: nat) {
    && TextOf(f, AdapterRunId) == runId
    && NumberOf(f, StepIndex) == index as real
    && TextOf(f, AgentRole) in {"planner", "executor", "reviewer", "evaluator", "unknown"}
    && TextOf(f, OperationKind) in {"model_call", "tool_call", "state_read", "state_write", "retrieval", "evaluation", "control"}
    && TextOf(f, Status) in {"pass", "fail", "error", "blocked"}
    && NumberOf(f, RepeatedContextTokens) <= NumberOf(f, ContextTokens)
    && NumberOf(f, RetrievedRefTokens) <= NumberOf(f, ContextTokens)
  }

  function NormalStep(step: Json): Json {
    if step.Obj? then Obj(Restricted(step.fields, StepStrings() + StepNumbers() + StepOptional())) else step
  }

  function NormalSteps(items: seq<Json>): (r: seq<Json>)
    ensures |r| == |items| && forall i :: 0 <= i < |items| ==> r[i] == NormalStep(items[i])
  {
    seq(|items|, i requires 0 <= i < |items| => NormalStep(items[i]))
  }

  // `data.get("steps", [])`, with null as the empty list.
  function StepItems(f: Fields): seq<Json> { if Steps in f && f[Steps].Arr? then f[Steps].items else [] }

  predicate StepsOk(f: Fields) {
    && (Given(f, Steps) ==> f[Steps].Arr?)
    && (StepItems(f) != [] ==> NumberOf(f, StepCount) == |StepItems(f)| as real)
    && forall i :: 0 <= i < |StepItems(f)| ==> StepOk(StepItems(f)[i], TextOf(f, AdapterRunId), i)
  }

  // ---- Derived metrics.

  function Ratio(numerator: real, denominator: real): (r: Json)
    ensures r.Number?
  {
    Number(Round6(numerator / (if denominator < 1.0 then 1.0 else denominator)), false)
  }

  function Derived(f: Fields): Fields {
    var total := Number(NumberOf(f, InputTokenTotal) + NumberOf(f, OutputTokenTotal),
                        Integral(f, InputTokenTotal) && Integral(f, OutputTokenTotal));
    var pass := TextOf(f, Status) == "pass";
    map[
      TotalTokens := total,
      ContextShare := Ratio(NumberOf(f, ContextTokenTotal), total.value),
      RepeatedContextRatio := Ratio(NumberOf(f, RepeatedContextTokenTotal), NumberOf(f, ContextTokenTotal)),
      ToolRedundancyRatio := Ratio(NumberOf(f, RedundantToolCallCount), NumberOf(f, ToolCallCount)),
      TokensPerPassingRun := if pass then total else Null,
      CostPerPassingRun := if pass && EstimatedCostUsd in f then f[EstimatedCostUsd] else Null,
      StepRetryRatio := Ratio(NumberOf(f, RetryCount), NumberOf(f, StepCount))]
  }

  // A ratio is within half a millionth of its parts.
  predicate RatioOf(ratio: Json, numerator: real, denominator: real) {
    var d := if denominator < 1.0 then 1.0 else denominator;
    ratio.Number? && Distance(ratio.value * d, numerator) <= 0.0000005 * d
  }

  lemma RatioMeans(numerator: real, denominator: real)
    ensures RatioOf(Ratio(numerator, denominator), numerator, denominator)
  {
    hide Round6;
    var d := if denominator < 1.0 then 1.0 else denominator;
    var q := numerator / d;
    RoundError(q);
    RatioWithin(q, Round6(q), d, numerator);
  }

  lemma RatioAtMostOne(numerator: real, denominator: real)
    requires 0.0 <= numerator <= denominator
    ensures 0.0 <= Ratio(numerator, denominator).value <= 1.0
  {
    hide Round6;
    var d := if denominator < 1.0 then 1.0 else denominator;
    WithinOne(numerator, d);
    RoundMonotone(numerator / d, 1.0);
    RoundNonNegative(numerator / d);
    RoundOne();
  }

  lemma RatioWithin(q: real, r: real, d: real, n: real)
    requires d >= 1.0 && q == n / d && -0.0000005 <= r - q <= 0.0000005
    ensures Distance(r * d, n) <= 0.0000005 * d
  {
    Scaled(r - q, d);
    assert q * d == n;
    assert (r - q) * d == r * d - q * d;
  }

  lemma Scaled(e: real, d: real)
    requires -0.0000005 <= e <= 0.0000005 && d >= 1.0
    ensures -0.0000005 * d <= e * d <= 0.0000005 * d
  {
    assert (0.0000005 - e) * d >= 0.0 && (e + 0.0000005) * d >= 0.0;
  }

  lemma WithinOne(n: real, d: real)
    requires 0.0 <= n <= d && d >= 1.0
    ensures 0.0 <= n / d <= 1.0
  {
    assert n == n / d * d;
  }

  lemma RoundOne()
    ensures Round6(1.0) == 1.0
  {
  }

  /** The derived metrics of an accepted run: the total, and ratios that are at most one where the
      run's own checks bound them. */
  lemma DerivedMeans(f: Fields)
    requires RunOk(f)
    ensures var d := Derived(f);
            && d.Keys == {TotalTokens, ContextShare, RepeatedContextRatio, ToolRedundancyRatio, TokensPerPassingRun, CostPerPassingRun, StepRetryRatio}
            && NumberOf(d, TotalTokens) == NumberOf(f, InputTokenTotal) + NumberOf(f, OutputTokenTotal)
            && RatioOf(d[ContextShare], NumberOf(f, ContextTokenTotal), NumberOf(f, InputTokenTotal) + NumberOf(f, OutputTokenTotal))
            && RatioOf(d[RepeatedContextRatio], NumberOf(f, RepeatedContextTokenTotal), NumberOf(f, ContextTokenTotal))
            && RatioOf(d[ToolRedundancyRatio], NumberOf(f, RedundantToolCallCount), NumberOf(f, ToolCallCount))
            && RatioOf(d[StepRetryRatio], NumberOf(f, RetryCount), NumberOf(f, StepCount))
            && 0.0 <= NumberOf(d, RepeatedContextRatio) <= 1.0 && 0.0 <= NumberOf(d, ToolRedundancyRatio) <= 1.0
            && (d[TokensPerPassingRun] == (if TextOf(f, Status) == "pass" then d[TotalTokens] else Null))
  {
    hide Ratio, RatioOf, HasText, RunStrings;
    assert HasCount(f, RepeatedContextTokenTotal) && HasCount(f, RedundantToolCallCount);
    RatioMeans(NumberOf(f, ContextTokenTotal), NumberOf(f, InputTokenTotal) + NumberOf(f, OutputTokenTotal));
    RatioMeans(NumberOf(f, RepeatedContextTokenTotal), NumberOf(f, ContextTokenTotal));
    RatioAtMostOne(NumberOf(f, RepeatedContextTokenTotal), NumberOf(f, ContextTokenTotal));
    RatioMeans(NumberOf(f, RedundantToolCallCount), NumberOf(f, ToolCallCount));
    RatioAtMostOne(NumberOf(f, RedundantToolCallCount), NumberOf(f, ToolCallCount));
    RatioMeans(NumberOf(f, RetryCount), NumberOf(f, StepCount));
  }

  // Python's `==` on scalars: true is 1 and an integer equals the float of its value.
  predicate SameScalar(x: Json, y: Json) {
    if (x.Number? || x.Bool?) && (y.Number? || y.Bool?) then Numeric(x) == Numeric(y) else x == y
  }

  function Numeric(x: Json): real
    requires x.Number? || x.Bool?
  {
    if x.Number? then x.value else if x.b then 1.0 else 0.0
  }

  predicate SameMetrics(x: Fields, y: Fields) {
    x.Keys == y.Keys && forall k :: k in x ==> SameScalar(x[k], y[k])
  }

  // ---- Import.

  function CopiedKeys(): set<Key> {
    RunStrings() + RunNumbers() + {QualityScore, EstimatedCostUsd}
  }

  // The normalised fields, one group after the other.
  function Copied(f: Fields): Fields { Restricted(f, CopiedKeys())[SchemaVersion := Str(SCHEMA)] }

  function WithContract(f: Fields, n: Fields): Fields {
    if ComparisonContract in f && f[ComparisonContract].Obj? then
      var c := NormalContract(f[ComparisonContract].fields);
      n[ComparisonContract := Obj(c)][EstimatedCostUsd := Number(DerivedCost(n, c), false)]
    else n
  }

  function WithProvenance(f: Fields, n: Fields): Fields {
    if EvidenceProvenance in f && f[EvidenceProvenance].Obj? then
      n[EvidenceProvenance := Obj(NormalProvenance(f[EvidenceProvenance].fields))]
    else n
  }

  function WithSteps(f: Fields, n: Fields): Fields {
    if StepItems(f) != [] then n[Steps := Arr(NormalSteps(StepItems(f)))] else n
  }

  function BeforeDerived(f: Fields): Fields { WithSteps(f, WithProvenance(f, WithContract(f, Copied(f)))) }

  function Normalized(f: Fields): Fields {
    var n := BeforeDerived(f);
    n[DerivedMetrics := Obj(Derived(n))]
  }

  predicate DerivedOk(f: Fields) {
    Given(f, DerivedMetrics) ==> f[DerivedMetrics].Obj? && SameMetrics(f[DerivedMetrics].fields, Derived(BeforeDerived(f)))
  }

  predicate FieldsOk(f: Fields) {
    && RunOk(f) && (ComparisonContract in f ==> ContractOk(f)) && CostOk(f)
    && (EvidenceProvenance in f ==> ProvenanceOk(f)) && StepsOk(f) && DerivedOk(f)
  }

  predicate Acceptable(summary: Json, scan: Scanner) {
    summary.Obj? && Bounded(summary, 0) && Clean(summary, scan) && FieldsOk(summary.fields)
  }

  function Import(summary: Json, scan: Scanner): Result<Json> {
    if Acceptable(summary, scan) then Ok(Obj(Normalized(summary.fields))) else Err("scorecard import failed")
  }

  // ---- The loops.

  method RequireStrings(f: Fields, keys: set<Key>) returns (ok: bool)
    ensures ok <==> forall k :: k in keys ==> HasText(f, k)
  {
    var rest := keys;
    while rest != {}
      invariant rest <= keys && forall k :: k in keys && k !in rest ==> HasText(f, k)
      decreases |rest|
    {
      var k :| k in rest;
      if !HasText(f, k) { return false; }
      rest := rest - {k};
    }
    ok := true;
  }

  method RequireNumbers(f: Fields, keys: set<Key>) returns (ok: bool)
    ensures ok <==> forall k :: k in keys ==> HasCount(f, k)
  {
    var rest := keys;
    while rest != {}
      invariant rest <= keys && forall k :: k in keys && k !in rest ==> HasCount(f, k)
      decreases |rest|
    {
      var k :| k in rest;
      if !HasCount(f, k) { return false; }
      rest := rest - {k};
    }
    ok := true;
  }

  // `normalized[field] = data[field]` for the fields that are there.
  method CopyFields(f: Fields, keys: set<Key>, start: Fields) returns (n: Fields)
    ensures n == start + Restricted(f, keys)
  {
    hide Restricted;
    n := start;
    CopyNone(f, start);
    var rest := keys;
    assert keys - rest == {};
    while rest != {}
      invariant rest <= keys && n == start + Restricted(f, keys - rest)
      decreases |rest|
    {
      var k :| k in rest;
      CopyOne(f, keys - rest, start, k);
      assert keys - (rest - {k}) == (keys - rest) + {k};
      if k in f { n := n[k := f[k]]; }
      rest := rest - {k};
    }
    assert keys - {} == keys;
  }

  lemma CopyNone(f: Fields, start: Fields)
    ensures start + Restricted(f, {}) == start
  {
  }

  lemma CopyOne(f: Fields, done: set<Key>, start: Fields, k: Key)
    ensures start + Restricted(f, done + {k}) == (if k in f then (start + Restricted(f, done))[k := f[k]] else start + Restricted(f, done))
  {
  }

  method CheckRun(f: Fields) returns (ok: bool)
    ensures ok <==> RunOk(f)
  {
    var strings := RequireStrings(f, RunStrings());
    if !strings { return false; }
    var numbers := RequireNumbers(f, RunNumbers());
    if !numbers { return false; }
    ok := RunRelations(f);
  }

  method CheckContract(f: Fields) returns (ok: bool)
    ensures ok <==> ContractOk(f)
  {
    if ComparisonContract !in f || !f[ComparisonContract].Obj? { return false; }
    var c := f[ComparisonContract].fields;
    var strings := RequireStrings(c, ContractStrings());
    if !strings { return false; }
    var numbers := RequireNumbers(c, ContractNumbers());
    if !numbers { return false; }
    ok :=
      && Digest(TextOf(c, ScenarioDigest)) && Digest(TextOf(c, TaskDigest))
      && TextOf(c, RuntimeKind) == TextOf(f, RuntimeKind)
      && TextOf(c, RuntimeVersion) == TextOf(f, RuntimeVersion)
      && TextOf(c, QualityMethod) == TextOf(f, QualityMethod)
      && NumberOf(c, QualityThreshold) <= 1.0
      && Integral(c, Seed);
  }

  method ValidateStep(step: Json, runId: string, index: nat) returns (r: Result<Json>)
    ensures r == if StepOk(step, runId, index) then Ok(NormalStep(step)) else Err("scorecard import failed")
  {
    if !step.Obj? { return Err("scorecard import failed"); }
    var f := step.fields;
    var strings := RequireStrings(f, StepStrings());
    if !strings { return Err("scorecard import failed"); }
    var numbers := RequireNumbers(f, StepNumbers());
    if !numbers { return Err("scorecard import failed"); }
    if !StepRelations(f, runId, index) { return Err("scorecard import failed"); }
    var n := CopyFields(f, StepStrings() + StepNumbers() + StepOptional(), map[]);
    assert n == Restricted(f, StepStrings() + StepNumbers() + StepOptional());
    r := Ok(Obj(n));
  }

  method ValidateSteps(items: seq<Json>, runId: string) returns (r: Result<seq<Json>>)
    ensures r == if forall i :: 0 <= i < |items| ==> StepOk(items[i], runId, i) then Ok(NormalSteps(items))
                 else Err("scorecard import failed")
  {
    hide StepOk, NormalStep;
    var out := [];
    var index := 0;
    while index < |items|
      invariant 0 <= index <= |items| && out == NormalSteps(items[..index])
      invariant forall i :: 0 <= i < index ==> StepOk(items[i], runId, i)
    {
      var step := ValidateStep(items[index], runId, index);
      if step.Err? { return Err("scorecard import failed"); }
      out := out + [step.value];
      assert items[..index + 1] == items[..index] + [items[index]];
      index := index + 1;
    }
    assert items[..index] == items;
    r := Ok(out);
  }

  method CollectSteps(f: Fields) returns (r: Result<seq<Json>>)
    ensures r == if StepsOk(f) then Ok(NormalSteps(StepItems(f))) else Err("scorecard import failed")
  {
    hide StepOk, NormalSteps, TextOf, NumberOf;
    if Given(f, Steps) && !f[Steps].Arr? { return Err("scorecard import failed"); }
    var items := StepItems(f);
    if items != [] && NumberOf(f, StepCount) != |items| as real { return Err("scorecard import failed"); }
    r := ValidateSteps(items, TextOf(f, AdapterRunId));
  }

  method ImportScorecard(summary: Json, scan: Scanner) returns (r: Result<Json>)
    ensures r == Import(summary, scan)
  {
    hide Bounded, Clean, RunOk, ContractOk, CostOk, ProvenanceOk, StepsOk, DerivedOk, Copied, CopiedKeys, Restricted,
         WithContract, WithProvenance, Derived, StepItems, NormalStep;
    if !summary.Obj? || !Bounded(summary, 0) || !Clean(summary, scan) { return Err("scorecard import failed"); }
    var f := summary.fields;
    var run := CheckRun(f);
    if !run { return Err("scorecard import failed"); }
    if ComparisonContract in f {
      var contract := CheckContract(f);
      if !contract { return Err("scorecard import failed"); }
    }
    var n := CopyFields(f, CopiedKeys(), map[SchemaVersion := Str(SCHEMA)]);
    CopyIsCopied(f);
    if !CostOk(f) { return Err("scorecard import failed"); }
    n := WithContract(f, n);
    if EvidenceProvenance in f && !ProvenanceOk(f) { return Err("scorecard import failed"); }
    n := WithProvenance(f, n);
    var steps := CollectSteps(f);
    if steps.Err? { return Err("scorecard import failed"); }
    if steps.value != [] { n := n[Steps := Arr(steps.value)]; }
    if !DerivedOk(f) { return Err("scorecard import failed"); }
    r := Ok(Obj(n[DerivedMetrics := Obj(Derived(n))]));
  }

  lemma CopyIsCopied(f: Fields)
    ensures map[SchemaVersion := Str(SCHEMA)] + Restricted(f, CopiedKeys()) == Copied(f)
  {
    assert SchemaVersion !in CopiedKeys();
  }
}
