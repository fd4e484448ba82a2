/** Comparing scorecards (scripts/token_efficiency_regression.py). */
module Regression {
  import opened Text
  import opened Rounding
  import opened Scorecard
  import opened ScorecardNormal
  import opened ScorecardBounds
  import opened ScorecardArtifact
  import opened Sets

  // ---- One metric.

  datatype Metric = Cost | Duration | Quality | RepeatedContext | Retries | StateBytes | Tokens

  // `sorted(REQUIRED_METRICS)`
  const METRICS: seq<Metric> := [Duration, Cost, Quality, RepeatedContext, Retries, StateBytes, Tokens]

  predicate LowerIsBetter(m: Metric) { m != Quality }

  datatype Compared = Compared(current: real, reference: real, delta: real, normalized: real, allowed: real, regressed: bool)

  function Base(reference: real): real { var a := if reference < 0.0 then -reference else reference; if a < 1.0 then 1.0 else a }

  function Positive(x: real): real { if x < 0.0 then 0.0 else x }

  function Compare(m: Metric, current: real, reference: real, allowed: real): Compared {
    var delta := Round6(current - reference);
    var harmful := if LowerIsBetter(m) then delta else -delta;
    var normalized := Round6(Positive(harmful) / Base(reference));
    Compared(current, reference, delta, normalized, allowed, normalized > allowed)
  }

  /** How far the current value is worse than the reference, unrounded. */
  function Harm(m: Metric, current: real, reference: real): real {
    if LowerIsBetter(m) then current - reference else reference - current
  }

  lemma DivideBack(x: real, d: real, bound: real)
    requires d >= 1.0 && x / d <= bound
    ensures x <= bound * d
  {
  }

  lemma DivideAbove(x: real, d: real, bound: real)
    requires d >= 1.0 && x / d > bound
    ensures x > bound * d
  {
  }

  /** A metric that is not reported as regressed is worse by at most the allowance, up to the
      two roundings; one that is reported as regressed is worse by at least as much. */
  lemma ReportedExactly(m: Metric, current: real, reference: real, allowed: real)
    requires allowed >= 0.0
    ensures var c := Compare(m, current, reference, allowed); var d := Base(reference);
            if c.regressed then Harm(m, current, reference) > (allowed - 0.0000005) * d - 0.0000005
            else Harm(m, current, reference) <= (allowed + 0.0000005) * d + 0.0000005
  {
    hide Round6;
    var delta := Round6(current - reference);
    RoundError(current - reference);
    var harmful := if LowerIsBetter(m) then delta else -delta;
    var d, pos := Base(reference), Positive(if LowerIsBetter(m) then delta else -delta);
    RoundError(pos / d);
    RoundZero();
    var normalized := Round6(pos / d);
    if normalized > allowed {
      DivideAbove(pos, d, allowed - 0.0000005);
    } else {
      DivideBack(pos, d, allowed + 0.0000005);
    }
  }

  /** A worse value never has the smaller normalized regression. */
  lemma NormalizedMonotone(m: Metric, current: real, worse: real, reference: real, allowed: real)
    requires Harm(m, current, reference) <= Harm(m, worse, reference)
    ensures Compare(m, current, reference, allowed).normalized <= Compare(m, worse, reference, allowed).normalized
    ensures Compare(m, current, reference, allowed).regressed ==> Compare(m, worse, reference, allowed).regressed
  {
    hide Round6;
    var x, y := Round6(current - reference), Round6(worse - reference);
    if LowerIsBetter(m) { RoundMonotone(current - reference, worse - reference); }
    else { RoundMonotone(worse - reference, current - reference); }
    var d := Base(reference);
    var p, q := Positive(if LowerIsBetter(m) then x else -x), Positive(if LowerIsBetter(m) then y else -y);
    Quotient(p, q, d);
    RoundMonotone(p / d, q / d);
  }

  lemma Quotient(p: real, q: real, d: real)
    requires p <= q && d >= 1.0
    ensures p / d <= q / d
  {
  }

  /** Nothing regresses against itself. */
  lemma SelfComparison(m: Metric, value: real, allowed: real)
    requires allowed >= 0.0
    ensures var c := Compare(m, value, value, allowed); c.delta == 0.0 && c.normalized == 0.0 && !c.regressed
  {
  }

  // ---- The metrics of a scorecard.

  // `int(x)` of a value that is not negative.
  function Whole(x: real): real { x.Floor as real }

  function Bytes(step: Json): real {
    if step.Obj? then Whole(NumberOf(step.fields, StateReadBytes)) + Whole(NumberOf(step.fields, StateWriteBytes)) else 0.0
  }

  function SumBytes(items: seq<Json>): real { if items == [] then 0.0 else Bytes(items[0]) + SumBytes(items[1..]) }

  function DerivedOf(n: Fields): Fields { if DerivedMetrics in n && n[DerivedMetrics].Obj? then n[DerivedMetrics].fields else map[] }

  function MetricValue(n: Fields, m: Metric): real {
    match m
    case Tokens => Whole(NumberOf(DerivedOf(n), TotalTokens))
    case RepeatedContext => NumberOf(DerivedOf(n), RepeatedContextRatio)
    case StateBytes => SumBytes(StepItems(n))
    case Cost => NumberOf(n, EstimatedCostUsd)
    case Duration => Whole(NumberOf(n, DurationMs))
    case Retries => Whole(NumberOf(n, RetryCount))
    case Quality => NumberOf(n, QualityScore)
  }

  function CompareAt(current: Fields, reference: Fields, allowed: map<Metric, real>, m: Metric): Compared
    requires m in allowed
  {
    Compare(m, MetricValue(current, m), MetricValue(reference, m), allowed[m])
  }

  predicate AllMetrics(allowed: map<Metric, real>) { forall m: Metric :: m in allowed && 0.0 <= allowed[m] <= 1.0 }

  method Comparison(current: Fields, reference: Fields, allowed: map<Metric, real>) returns (metrics: map<Metric, Compared>)
    requires AllMetrics(allowed)
    ensures forall m: Metric :: m in metrics && metrics[m] == CompareAt(current, reference, allowed, m)
  {
    hide CompareAt;
    metrics := map[];
    var i := 0;
    while i < |METRICS|
      invariant 0 <= i <= |METRICS|
      invariant forall j :: 0 <= j < i ==> METRICS[j] in metrics
      invariant forall m :: m in metrics ==> metrics[m] == CompareAt(current, reference, allowed, m)
    {
      metrics := metrics[METRICS[i] := CompareAt(current, reference, allowed, METRICS[i])];
      i := i + 1;
    }
    forall m: Metric ensures m in metrics { EveryMetricListed(m); }
  }

  lemma EveryMetricListed(m: Metric)
    ensures exists j :: 0 <= j < |METRICS| && METRICS[j] == m
  {
    var j := match m case Duration => 0 case Cost => 1 case Quality => 2 case RepeatedContext => 3 case Retries => 4 case StateBytes => 5 case Tokens => 6;
    assert METRICS[j] == m;
  }

  // ---- Contracts and quality.

  datatype Scenario = Scenario(id: string, scenarioDigest: string, taskDigest: string, runtimeKind: string, runtimeVersion: string,
                               qualityMethod: string, threshold: real, allowed: map<Metric, real>)

  predicate FieldIs(n: Fields, k: Key, text: string) { k in n && n[k] == Str(text) }

  function ContractOf(n: Fields): Fields {
    if ComparisonContract in n && n[ComparisonContract].Obj? then n[ComparisonContract].fields else map[]
  }

  // What a registered scenario fixes of a scorecard; the last one compares whole contracts.
  datatype Aspect = OfScenario | OfRuntime | OfVersion | OfScenarioDigest | OfTaskDigest | OfMethod | OfThreshold | OfContract

  datatype Who = OfCurrent | OfBaseline | OfBestKnown

  datatype Reason = NoBaseline | NoBestKnown | Mismatch(who: Who, aspect: Aspect) | BelowThreshold(who: Who) | Worse(who: Who, metric: Metric)

  datatype Expectation = Expectation(aspect: Aspect, met: bool)

  function Expected(n: Fields, s: Scenario): seq<Expectation> {
    [Expectation(OfScenario, FieldIs(n, ScenarioId, s.id)),
     Expectation(OfRuntime, FieldIs(n, RuntimeKind, s.runtimeKind)),
     Expectation(OfVersion, FieldIs(n, RuntimeVersion, s.runtimeVersion)),
     Expectation(OfScenarioDigest, FieldIs(ContractOf(n), ScenarioDigest, s.scenarioDigest)),
     Expectation(OfTaskDigest, FieldIs(ContractOf(n), TaskDigest, s.taskDigest)),
     Expectation(OfMethod, FieldIs(ContractOf(n), QualityMethod, s.qualityMethod)),
     Expectation(OfThreshold, QualityThreshold in ContractOf(n) &&
                              SameScalar(ContractOf(n)[QualityThreshold], Number(s.threshold, false)))]
  }

  predicate Expectations(n: Fields, s: Scenario) { forall i :: 0 <= i < |Expected(n, s)| ==> Expected(n, s)[i].met }

  // Python's `!=` between the two contracts, where a missing one is `None`.
  predicate SameContract(x: Fields, y: Fields) {
    if ComparisonContract in x && ComparisonContract in y then SameMetrics(ContractOf(x), ContractOf(y))
    else ComparisonContract !in x && ComparisonContract !in y
  }

  predicate Matching(s: Scenario, current: Fields, baseline: Fields, best: Fields) {
    && Expectations(current, s) && Expectations(baseline, s) && Expectations(best, s)
    && SameContract(baseline, current) && SameContract(best, current)
  }

  function UnmetReasons(who: Who, expected: seq<Expectation>): set<Reason> {
    set i | 0 <= i < |expected| && !expected[i].met :: Mismatch(who, expected[i].aspect)
  }

  method Unmet(who: Who, expected: seq<Expectation>) returns (reasons: set<Reason>)
    ensures reasons == UnmetReasons(who, expected)
    ensures reasons == {} <==> forall i :: 0 <= i < |expected| ==> expected[i].met
  {
    reasons := {};
    var i := 0;
    while i < |expected|
      invariant 0 <= i <= |expected|
      invariant reasons == set j | 0 <= j < i && !expected[j].met :: Mismatch(who, expected[j].aspect)
      invariant reasons == {} <==> forall j :: 0 <= j < i ==> expected[j].met
    {
      if !expected[i].met { reasons := reasons + {Mismatch(who, expected[i].aspect)}; }
      i := i + 1;
    }
  }

  /** Every aspect in which one of the scorecards is not what the scenario fixes, and each
      reference whose whole contract differs from the current one. */
  function MismatchReasons(s: Scenario, current: Fields, baseline: Fields, best: Fields): set<Reason> {
    UnmetReasons(OfCurrent, Expected(current, s)) + UnmetReasons(OfBaseline, Expected(baseline, s)) + UnmetReasons(OfBestKnown, Expected(best, s)) +
    (if SameContract(baseline, current) then {} else {Mismatch(OfBaseline, OfContract)}) +
    (if SameContract(best, current) then {} else {Mismatch(OfBestKnown, OfContract)})
  }

  method ContractReasons(s: Scenario, current: Fields, baseline: Fields, best: Fields) returns (reasons: set<Reason>)
    ensures reasons == MismatchReasons(s, current, baseline, best)
    ensures reasons == {} <==> Matching(s, current, baseline, best)
  {
    hide Expected, SameContract, UnmetReasons;
    var a := Unmet(OfCurrent, Expected(current, s));
    var b := Unmet(OfBaseline, Expected(baseline, s));
    var c := Unmet(OfBestKnown, Expected(best, s));
    reasons := a + b + c;
    if !SameContract(baseline, current) { reasons := reasons + {Mismatch(OfBaseline, OfContract)}; }
    if !SameContract(best, current) { reasons := reasons + {Mismatch(OfBestKnown, OfContract)}; }
  }

  predicate Qualified(n: Fields, threshold: real) {
    TextOf(n, Status) == "pass" && QualityScore in n && n[QualityScore].Number? && n[QualityScore].value >= threshold
  }

  // ---- The report.

  datatype Outcome = Pass | Regressed | MissingBaseline | MissingBestKnown | Incomparable | QualityFailure

  /** The outcome, decided from the scorecards. */
  ghost function Decide(s: Scenario, current: Fields, baseline: Option<Fields>, best: Option<Fields>): Outcome
    requires AllMetrics(s.allowed)
  {
    if baseline.None? then MissingBaseline
    else if best.None? then MissingBestKnown
    else if !Matching(s, current, baseline.value, best.value) then Incomparable
    else if !Qualified(current, s.threshold) then QualityFailure
    else if !Qualified(baseline.value, s.threshold) || !Qualified(best.value, s.threshold) then Incomparable
    else if NoneRegressed(s, current, baseline.value) && NoneRegressed(s, current, best.value) then Pass
    else Regressed
  }

  ghost predicate NoneRegressed(s: Scenario, current: Fields, reference: Fields)
    requires AllMetrics(s.allowed)
  {
    forall m: Metric :: !CompareAt(current, reference, s.allowed, m).regressed
  }

  /** No metric is worse than the reference by more than its allowance and the roundings. */
  ghost predicate WithinAllowance(s: Scenario, current: Fields, reference: Fields)
    requires AllMetrics(s.allowed)
  {
    forall m: Metric ::
      var r := MetricValue(reference, m);
      Harm(m, MetricValue(current, m), r) <= (s.allowed[m] + 0.0000005) * Base(r) + 0.0000005
  }

  lemma NoneRegressedWithin(s: Scenario, current: Fields, reference: Fields)
    requires AllMetrics(s.allowed) && NoneRegressed(s, current, reference)
    ensures WithinAllowance(s, current, reference)
  {
    hide Compare, Harm, MetricValue, Base;
    forall m: Metric ensures
      var r := MetricValue(reference, m);
      Harm(m, MetricValue(current, m), r) <= (s.allowed[m] + 0.0000005) * Base(r) + 0.0000005
    {
      assert !CompareAt(current, reference, s.allowed, m).regressed;
      ReportedExactly(m, MetricValue(current, m), MetricValue(reference, m), s.allowed[m]);
    }
  }

  /** A pass means matching contracts, qualified runs and every metric within its allowance
      against both references. */
  lemma PassMeans(s: Scenario, current: Fields, baseline: Option<Fields>, best: Option<Fields>)
    requires AllMetrics(s.allowed) && Decide(s, current, baseline, best) == Pass
    ensures baseline.Some? && best.Some? && Matching(s, current, baseline.value, best.value)
    ensures Qualified(current, s.threshold) && Qualified(baseline.value, s.threshold) && Qualified(best.value, s.threshold)
    ensures WithinAllowance(s, current, baseline.value) && WithinAllowance(s, current, best.value)
  {
    hide Matching, Qualified, WithinAllowance, NoneRegressed;
    NoneRegressedWithin(s, current, baseline.value);
    NoneRegressedWithin(s, current, best.value);
  }

  /** A qualified, matching scorecard passes against itself as both references. */
  lemma SelfPasses(s: Scenario, n: Fields)
    requires AllMetrics(s.allowed) && Matching(s, n, n, n) && Qualified(n, s.threshold)
    ensures Decide(s, n, Some(n), Some(n)) == Pass
  {
  }

  /** The comparison never reads a missing or null cost or score. */
  lemma ComparedNumbersPresent(f: Fields, s: Scenario)
    requires FieldsOk(f) && Expectations(Normalized(f), s) && Qualified(Normalized(f), s.threshold)
    ensures var n := Normalized(f);
            && EstimatedCostUsd in n && n[EstimatedCostUsd].Number? && n[EstimatedCostUsd].value >= 0.0
            && QualityScore in n && n[QualityScore].Number?
  {
    hide FieldsOk, Normalized, DerivedCost, NormalContract;
    var n := Normalized(f);
    assert Expected(n, s)[3].met;
    ContractPresence(f);
    CostTwice(f);
  }

  // ---- The reasons and the tables of a report.

  function LowReasons(baseline: Fields, best: Fields, threshold: real): set<Reason> {
    (if Qualified(baseline, threshold) then {} else {BelowThreshold(OfBaseline)}) +
    (if Qualified(best, threshold) then {} else {BelowThreshold(OfBestKnown)})
  }

  ghost function WorseReasons(who: Who, current: Fields, reference: Fields, allowed: map<Metric, real>): set<Reason>
    requires AllMetrics(allowed)
  {
    set m: Metric | CompareAt(current, reference, allowed, m).regressed :: Worse(who, m)
  }

  /** The reasons that go with the outcome. */
  ghost function Reasons(s: Scenario, current: Fields, baseline: Option<Fields>, best: Option<Fields>): set<Reason>
    requires AllMetrics(s.allowed)
  {
    if baseline.None? then {NoBaseline}
    else if best.None? then {NoBestKnown}
    else if !Matching(s, current, baseline.value, best.value) then MismatchReasons(s, current, baseline.value, best.value)
    else if !Qualified(current, s.threshold) then {BelowThreshold(OfCurrent)}
    else if !Qualified(baseline.value, s.threshold) || !Qualified(best.value, s.threshold) then
      LowReasons(baseline.value, best.value, s.threshold)
    else WorseReasons(OfBaseline, current, baseline.value, s.allowed) + WorseReasons(OfBestKnown, current, best.value, s.allowed)
  }

  // All seven metrics compared with one reference.
  ghost predicate Compares(table: map<Metric, Compared>, current: Fields, reference: Fields, allowed: map<Metric, real>)
    requires AllMetrics(allowed)
  {
    forall m: Metric :: m in table && table[m] == CompareAt(current, reference, allowed, m)
  }

  /** A report has its two tables exactly when the outcome is a pass or a regression. */
  ghost predicate Tables(r: Report, s: Scenario, current: Fields, baseline: Option<Fields>, best: Option<Fields>)
    requires AllMetrics(s.allowed)
  {
    if r.outcome == Pass || r.outcome == Regressed then
      && baseline.Some? && Compares(r.baseline, current, baseline.value, s.allowed)
      && best.Some? && Compares(r.best, current, best.value, s.allowed)
    else r.baseline == map[] && r.best == map[]
  }

  /** The outcome, the reasons and the tables that the scorecards decide. */
  ghost predicate Judged(r: Report, s: Scenario, current: Fields, baseline: Option<Fields>, best: Option<Fields>)
    requires AllMetrics(s.allowed)
  {
    && r.outcome == Decide(s, current, baseline, best) && r.reasons == Reasons(s, current, baseline, best)
    && (r.reasons == {} <==> r.outcome == Pass) && Tables(r, s, current, baseline, best)
  }

  // What a report says of one piece of evidence.
  datatype Source = Source(runId: string, schema: string, hash: string)

  datatype Report = Report(schema: string, registryId: string, registryHash: string, scenarioId: string,
                           scenarioDigest: string, taskDigest: string,
                           readOnly: bool, reportOnly: bool, providerCalls: string, mutationAuthority: string,
                           outcome: Outcome, reasons: set<Reason>,
                           currentSource: Source, baselineSource: Option<Source>, bestSource: Option<Source>,
                           baseline: map<Metric, Compared>, best: map<Metric, Compared>, hash: string)

  const REPORT_SCHEMA := "token_efficiency_regression_report.v1"

  datatype Registry = Registry(id: string, hash: string, scenarios: seq<Scenario>)

  predicate IdChar(c: char) { 'a' <= c <= 'z' || '0' <= c <= '9' }

  predicate Identifier(s: string) {
    1 <= |s| <= 128 && IdChar(s[0]) && forall i :: 0 <= i < |s| ==> IdChar(s[i]) || s[i] == '_' || s[i] == '-'
  }

  // The registry and its texts have passed the scan.
  predicate ValidScenario(s: Scenario, scan: Scanner) {
    && Identifier(s.id) && scan.cleanText(s.id) && HexDigest(s.scenarioDigest) && HexDigest(s.taskDigest)
    && AllMetrics(s.allowed) && 0.0 <= s.threshold <= 1.0
  }

  predicate ValidHead(r: Registry, scan: Scanner) { Identifier(r.id) && scan.cleanText(r.id) && HexDigest(r.hash) }

  predicate ValidRegistry(r: Registry, scan: Scanner) {
    && ValidHead(r, scan) && 3 <= |r.scenarios| <= 100
    && (forall i :: 0 <= i < |r.scenarios| ==> ValidScenario(r.scenarios[i], scan))
    && (forall i, j :: 0 <= i < j < |r.scenarios| ==> r.scenarios[i].id != r.scenarios[j].id)
  }

  // ---- Bounds and scan.  The objects of a report have fixed names, at most seventeen fields and
  // five levels, so that only its texts and its list of reasons can be out of bounds.

  function WhoText(who: Who): string {
    match who
    case OfCurrent => "current"
    case OfBaseline => "baseline"
    case OfBestKnown => "best_known"
  }

  function AspectText(aspect: Aspect): string {
    match aspect
    case OfScenario => "scenario_id"
    case OfRuntime => "runtime_kind"
    case OfVersion => "runtime_version"
    case OfScenarioDigest => "scenario_digest"
    case OfTaskDigest => "task_digest"
    case OfMethod => "quality_method"
    case OfThreshold => "quality_threshold"
    case OfContract => "comparison_contract"
  }

  function MetricName(m: Metric): string {
    match m
    case Tokens => "total_tokens"
    case RepeatedContext => "repeated_context_ratio"
    case StateBytes => "state_bytes"
    case Cost => "estimated_cost_usd"
    case Duration => "duration_ms"
    case Retries => "retry_count"
    case Quality => "quality_score"
  }

  function ReasonCode(reason: Reason): string {
    match reason
    case NoBaseline => "missing_baseline"
    case NoBestKnown => "missing_best_known"
    case Mismatch(who, aspect) => WhoText(who) + "." + AspectText(aspect) + "_mismatch"
    case BelowThreshold(who) => WhoText(who) + "_quality_below_threshold"
    case Worse(who, metric) => WhoText(who) + "." + MetricName(metric)
  }

  function OutcomeText(o: Outcome): string {
    match o
    case Pass => "pass"
    case Regressed => "regression"
    case MissingBaseline => "missing_baseline"
    case MissingBestKnown => "missing_best_known"
    case Incomparable => "incomparable"
    case QualityFailure => "quality_failure"
  }

  predicate TextFits(s: string, scan: Scanner) { |Utf8(s)| <= MAX_STRING && scan.cleanText(s) }

  predicate SourceFits(s: Source, scan: Scanner) { TextFits(s.runId, scan) && TextFits(s.schema, scan) && TextFits(s.hash, scan) }

  predicate MaybeFits(s: Option<Source>, scan: Scanner) { s.Some? ==> SourceFits(s.value, scan) }

  predicate ReportFits(r: Report, scan: Scanner) {
    && TextFits(r.schema, scan) && TextFits(r.registryId, scan) && TextFits(r.registryHash, scan) && TextFits(r.scenarioId, scan)
    && TextFits(r.scenarioDigest, scan) && TextFits(r.taskDigest, scan) && TextFits(r.providerCalls, scan)
    && TextFits(r.mutationAuthority, scan) && TextFits(OutcomeText(r.outcome), scan) && TextFits(r.hash, scan)
    && |r.reasons| <= MAX_ITEMS && (forall reason :: reason in r.reasons ==> TextFits(ReasonCode(reason), scan))
    && SourceFits(r.currentSource, scan) && MaybeFits(r.baselineSource, scan) && MaybeFits(r.bestSource, scan)
  }

  /** The scan lets the fixed texts of a report through. */
  ghost predicate AdmitsReports(scan: Scanner) {
    && Admits(scan) && scan.cleanText(REPORT_SCHEMA) && scan.cleanText("disabled") && scan.cleanText("none")
    && (forall o :: scan.cleanText(OutcomeText(o))) && (forall reason :: scan.cleanText(ReasonCode(reason)))
  }

  lemma ShortFits(s: string, scan: Scanner)
    requires |s| <= 256 && scan.cleanText(s)
    ensures TextFits(s, scan)
  {
    hide Utf8;
    Utf8Short(s);
  }

  lemma HexFits(s: string, scan: Scanner)
    requires HexDigest(s) && Admits(scan)
    ensures TextFits(s, scan)
  {
    hide Utf8, Digest;
    HexIsDigest(s);
    Utf8Short(s);
  }

  lemma CodesShort(reason: Reason)
    ensures |ReasonCode(reason)| <= 64
  {
    hide WhoText, AspectText, MetricName;
    match reason
    case Mismatch(who, aspect) => WhoShort(who); AspectShort(aspect);
    case BelowThreshold(who) => WhoShort(who);
    case Worse(who, metric) => WhoShort(who); MetricShort(metric);
    case _ =>
  }

  lemma WhoShort(who: Who)
    ensures |WhoText(who)| <= 10
  {
  }

  lemma AspectShort(aspect: Aspect)
    ensures |AspectText(aspect)| <= 19
  {
  }

  lemma MetricShort(m: Metric)
    ensures |MetricName(m)| <= 22
  {
  }

  lemma OutcomeShort(o: Outcome)
    ensures |OutcomeText(o)| <= 18
  {
  }

  function Mismatches(who: Who): set<Reason> {
    {Mismatch(who, OfScenario), Mismatch(who, OfRuntime), Mismatch(who, OfVersion), Mismatch(who, OfScenarioDigest),
     Mismatch(who, OfTaskDigest), Mismatch(who, OfMethod), Mismatch(who, OfThreshold), Mismatch(who, OfContract)}
  }

  function Worsenings(who: Who): set<Reason> {
    {Worse(who, Cost), Worse(who, Duration), Worse(who, Quality), Worse(who, RepeatedContext), Worse(who, Retries),
     Worse(who, StateBytes), Worse(who, Tokens)}
  }

  function ReasonsWith(who: Who): set<Reason> { Mismatches(who) + Worsenings(who) + {BelowThreshold(who)} }

  lemma MismatchesSize(who: Who)
    ensures |Mismatches(who)| <= 8
  {
  }

  lemma WorseningsSize(who: Who)
    ensures |Worsenings(who)| <= 7
  {
  }

  lemma OneWhoSize(who: Who)
    ensures |ReasonsWith(who)| <= 16
  {
    MismatchesSize(who);
    WorseningsSize(who);
    hide Mismatches, Worsenings;
    UnionSize(Mismatches(who), Worsenings(who));
    UnionSize(Mismatches(who) + Worsenings(who), {BelowThreshold(who)});
  }

  // There are fifty reasons in all.
  lemma FewReasons(reasons: set<Reason>)
    ensures |reasons| <= 50
  {
    var few: set<Reason> := {NoBaseline, NoBestKnown};
    var a, b, c := ReasonsWith(OfCurrent), ReasonsWith(OfBaseline), ReasonsWith(OfBestKnown);
    OneWhoSize(OfCurrent);
    OneWhoSize(OfBaseline);
    OneWhoSize(OfBestKnown);
    UnionSize(few, a);
    UnionSize(few + a, b);
    UnionSize(few + a + b, c);
    forall x | x in reasons ensures x in few + a + b + c { ReasonListed(x); }
    SubsetSize(reasons, few + a + b + c);
  }

  lemma ReasonListed(x: Reason)
    ensures x in {NoBaseline, NoBestKnown} || x in ReasonsWith(OfCurrent) || x in ReasonsWith(OfBaseline) || x in ReasonsWith(OfBestKnown)
  {
    hide Mismatches, Worsenings;
    match x
    case Mismatch(who, aspect) => MismatchListed(who, aspect); ThreeWho(who);
    case Worse(who, metric) => WorseListed(who, metric); ThreeWho(who);
    case BelowThreshold(who) => ThreeWho(who);
    case _ =>
  }

  lemma ThreeWho(who: Who)
    ensures who == OfCurrent || who == OfBaseline || who == OfBestKnown
  {
  }

  lemma MismatchListed(who: Who, aspect: Aspect)
    ensures Mismatch(who, aspect) in Mismatches(who)
  {
    match aspect case _ =>
  }

  lemma WorseListed(who: Who, m: Metric)
    ensures Worse(who, m) in Worsenings(who)
  {
    match m case _ =>
  }

  // ---- The hash of a report, and the check of a report alone.

  // `seal` hashes a report without its hash field.
  function Stamped(r: Report, seal: Report -> string): Report { r.(hash := seal(r.(hash := ""))) }

  ghost predicate Seals(seal: Report -> string) { forall r :: HexDigest(seal(r)) }

  predicate ValidReport(r: Report, scan: Scanner, seal: Report -> string) {
    && ReportFits(r, scan) && r.schema == REPORT_SCHEMA && Identifier(r.registryId) && HexDigest(r.registryHash)
    && Identifier(r.scenarioId) && HexDigest(r.scenarioDigest) && HexDigest(r.taskDigest)
    && HexDigest(r.hash) && r.hash == seal(r.(hash := ""))
    && r.readOnly && r.reportOnly && r.providerCalls == "disabled" && r.mutationAuthority == "none"
  }

  // What every report takes from its registry and scenario.
  predicate Frames(r: Report, registry: Registry, s: Scenario) {
    && r.schema == REPORT_SCHEMA && r.registryId == registry.id && r.registryHash == registry.hash
    && r.scenarioId == s.id && r.scenarioDigest == s.scenarioDigest && r.taskDigest == s.taskDigest
    && r.readOnly && r.reportOnly && r.providerCalls == "disabled" && r.mutationAuthority == "none"
  }

  ghost predicate SourcesFit(r: Report, scan: Scanner) {
    SourceFits(r.currentSource, scan) && MaybeFits(r.baselineSource, scan) && MaybeFits(r.bestSource, scan)
  }

  lemma FramedFits(r: Report, registry: Registry, s: Scenario, scan: Scanner)
    requires AdmitsReports(scan) && ValidHead(registry, scan) && ValidScenario(s, scan) && Frames(r, registry, s)
    requires HexDigest(r.hash) && SourcesFit(r, scan)
    ensures ReportFits(r, scan)
  {
    hide Admits, HexDigest, TextFits, SourceFits, MaybeFits, AllMetrics, ReasonCode, OutcomeText;
    assert |REPORT_SCHEMA| <= 64;
    hide REPORT_SCHEMA;
    ShortFits(r.schema, scan);
    ShortFits(r.registryId, scan);
    ShortFits(r.scenarioId, scan);
    ShortFits(r.providerCalls, scan);
    ShortFits(r.mutationAuthority, scan);
    HexFits(r.registryHash, scan);
    HexFits(r.scenarioDigest, scan);
    HexFits(r.taskDigest, scan);
    HexFits(r.hash, scan);
    OutcomeShort(r.outcome);
    ShortFits(OutcomeText(r.outcome), scan);
    FewReasons(r.reasons);
    forall reason | reason in r.reasons ensures TextFits(ReasonCode(reason), scan) {
      CodesShort(reason);
      ShortFits(ReasonCode(reason), scan);
    }
  }

  /** A stamped report of a valid registry, with sources that have passed the scan, passes its own
      check, bounds and scan included. */
  lemma StampedValid(r: Report, registry: Registry, s: Scenario, scan: Scanner, seal: Report -> string)
    requires Seals(seal) && AdmitsReports(scan) && ValidHead(registry, scan) && ValidScenario(s, scan)
    requires Frames(r, registry, s) && SourcesFit(r, scan)
    ensures ValidReport(Stamped(r, seal), scan, seal)
  {
    hide Identifier, HexDigest, AllMetrics, ReportFits, AdmitsReports, REPORT_SCHEMA, SourceFits, MaybeFits;
    assert Stamped(r, seal).(hash := "") == r.(hash := "");
    assert HexDigest(seal(r.(hash := "")));
    FramedFits(Stamped(r, seal), registry, s, scan);
  }

  /** What is read from accepted evidence has passed bounds and scan. */
  lemma EvidenceFits(v: Json, scan: Scanner, h: Hashing)
    requires Hashes(h) && Admits(scan) && ScorecardEvidence(v, scan, h).Ok?
    ensures var e := ScorecardEvidence(v, scan, h).value;
            && e.scorecard.Obj? && SourceFits(Source(TextOf(e.scorecard.fields, AdapterRunId), e.schema, e.hash), scan)
  {
    hide TextFits, Bounded, Clean, FieldsOk, Normalized, HexDigest, TextOf, Utf8;
    var f := v.fields;
    var raw := if IsArtifact(f) then f[ScorecardField] else v;
    assert Import(raw, scan).Ok?;
    RunIdFits(raw, scan);
    HexFits(ScorecardEvidence(v, scan, h).value.hash, scan);
    if IsArtifact(f) { SchemaFits(f, scan); } else { OwnSchemaFits(scan); }
  }

  lemma RunIdFits(raw: Json, scan: Scanner)
    requires Import(raw, scan).Ok?
    ensures var n := Import(raw, scan).value; n.Obj? && TextFits(TextOf(n.fields, AdapterRunId), scan)
  {
    hide FieldsOk, Normalized, TextOf;
    RunIdListed();
    hide RunStrings, RunNumbers;
    TextKept(raw.fields, scan, AdapterRunId);
    RunField(raw.fields, AdapterRunId);
  }

  lemma RunIdListed()
    ensures AdapterRunId in RunStrings()
  {
  }

  lemma SchemaFits(f: Fields, scan: Scanner)
    requires IsArtifact(f) && Bounded(Obj(f), 0) && Clean(Obj(f), scan)
    ensures TextFits(TextOf(f, SchemaVersion), scan)
  {
    assert TextOf(f, SchemaVersion) != "";
    FieldBounded(f, 0, SchemaVersion);
    FieldClean(f, scan, SchemaVersion);
  }

  lemma OwnSchemaFits(scan: Scanner)
    requires Admits(scan)
    ensures TextFits(SCHEMA, scan)
  {
    assert |SCHEMA| <= 64;
    ShortFits(SCHEMA, scan);
  }

  // What one piece of evidence is read as: nothing, or the scorecard it holds.
  ghost predicate ReadAs(value: Option<Json>, scan: Scanner, h: Hashing, n: Option<Fields>, source: Option<Source>) {
    match value
    case None => n.None? && source.None?
    case Some(v) =>
      var e := ScorecardEvidence(v, scan, h);
      && e.Ok? && e.value.scorecard.Obj? && n == Some(e.value.scorecard.fields)
      && source == Some(Source(TextOf(e.value.scorecard.fields, AdapterRunId), e.value.schema, e.value.hash))
  }

  method ReasonsOf(who: Who, metrics: map<Metric, Compared>) returns (reasons: set<Reason>)
    requires forall m: Metric :: m in metrics
    ensures reasons == set m: Metric | metrics[m].regressed :: Worse(who, m)
    ensures reasons == {} <==> forall m: Metric :: !metrics[m].regressed
  {
    reasons := {};
    var i := 0;
    while i < |METRICS|
      invariant 0 <= i <= |METRICS|
      invariant reasons == set j | 0 <= j < i && metrics[METRICS[j]].regressed :: Worse(who, METRICS[j])
    {
      if metrics[METRICS[i]].regressed { reasons := reasons + {Worse(who, METRICS[i])}; }
      i := i + 1;
    }
    forall m: Metric | metrics[m].regressed ensures Worse(who, m) in reasons { EveryMetricListed(m); }
  }

  method UnqualifiedReferences(baseline: Fields, best: Fields, threshold: real) returns (reasons: set<Reason>)
    ensures reasons == LowReasons(baseline, best, threshold)
    ensures reasons == {} <==> Qualified(baseline, threshold) && Qualified(best, threshold)
  {
    hide Qualified;
    reasons := {};
    if !Qualified(baseline, threshold) { reasons := {BelowThreshold(OfBaseline)}; }
    if !Qualified(best, threshold) { reasons := reasons + {BelowThreshold(OfBestKnown)}; }
  }

  // The comparison with one reference, and the metrics in which the current run is worse.
  method Weigh(who: Who, s: Scenario, current: Fields, reference: Fields) returns (table: map<Metric, Compared>, worse: set<Reason>)
    requires AllMetrics(s.allowed)
    ensures Compares(table, current, reference, s.allowed) && worse == WorseReasons(who, current, reference, s.allowed)
    ensures worse == {} <==> NoneRegressed(s, current, reference)
  {
    hide CompareAt;
    table := Comparison(current, reference, s.allowed);
    worse := ReasonsOf(who, table);
  }

  method Judge(blank: Report, s: Scenario, current: Fields, baseline: Option<Fields>, best: Option<Fields>) returns (r: Report)
    requires AllMetrics(s.allowed)
    ensures r == blank.(outcome := r.outcome, reasons := r.reasons, baseline := r.baseline, best := r.best)
    ensures Judged(r, s, current, baseline, best)
  {
    hide Matching, Qualified, MismatchReasons, LowReasons, WorseReasons, NoneRegressed, Compares, AllMetrics;
    r := blank.(outcome := Pass, reasons := {}, baseline := map[], best := map[]);
    if baseline.None? { return r.(outcome := MissingBaseline, reasons := {NoBaseline}); }
    if best.None? { return r.(outcome := MissingBestKnown, reasons := {NoBestKnown}); }
    var reasons := ContractReasons(s, current, baseline.value, best.value);
    if reasons != {} { return r.(outcome := Incomparable, reasons := reasons); }
    if !Qualified(current, s.threshold) { return r.(outcome := QualityFailure, reasons := {BelowThreshold(OfCurrent)}); }
    var low := UnqualifiedReferences(baseline.value, best.value, s.threshold);
    if low != {} { return r.(outcome := Incomparable, reasons := low); }
    var a, worse := Weigh(OfBaseline, s, current, baseline.value);
    var b, worseBest := Weigh(OfBestKnown, s, current, best.value);
    r := r.(baseline := a, best := b);
    if worse + worseBest != {} { r := r.(outcome := Regressed, reasons := worse + worseBest); }
  }

  method ReadEvidence(value: Option<Json>, scan: Scanner, h: Hashing) returns (ok: bool, n: Option<Fields>, source: Option<Source>)
    requires Hashes(h) && Admits(scan)
    ensures ok <==> value.None? || ScorecardEvidence(value.value, scan, h).Ok?
    ensures ok ==> ReadAs(value, scan, h, n, source) && MaybeFits(source, scan)
  {
    hide ScorecardEvidence, SourceFits, Hashes, Admits;
    if value.None? { return true, None, None; }
    var e := ScorecardEvidence(value.value, scan, h);
    if e.Err? { return false, None, None; }
    EvidenceFits(value.value, scan, h);
    var f := e.value.scorecard.fields;
    ok, n, source := true, Some(f), Some(Source(TextOf(f, AdapterRunId), e.value.schema, e.value.hash));
  }

  /** Some piece of evidence that is read is refused; the best known one is read only when there
      is a baseline. */
  predicate EvidenceRefused(current: Json, baseline: Option<Json>, best: Option<Json>, scan: Scanner, h: Hashing) {
    || ScorecardEvidence(current, scan, h).Err?
    || (baseline.Some? && (ScorecardEvidence(baseline.value, scan, h).Err? || (best.Some? && ScorecardEvidence(best.value, scan, h).Err?)))
  }

  /** A report bound to its registry and scenario, with its sources and the outcome, reasons and
      tables they decide. */
  ghost predicate ReportOf(registry: Registry, s: Scenario, current: Json, baseline: Option<Json>, best: Option<Json>,
                           scan: Scanner, h: Hashing, r: Report)
    requires AllMetrics(s.allowed)
  {
    && Frames(r, registry, s)
    && exists c, b, k ::
         && ReadAs(Some(current), scan, h, Some(c), Some(r.currentSource)) && ReadAs(baseline, scan, h, b, r.baselineSource)
         && (if b.Some? then ReadAs(best, scan, h, k, r.bestSource) else k.None? && r.bestSource.None?)
         && Judged(r, s, c, b, k)
  }

  /** The report of one scenario, stamped; an error exactly when evidence that is read is refused. */
  method BuildReport(registry: Registry, s: Scenario, current: Json, baseline: Option<Json>, best: Option<Json>, scan: Scanner, h: Hashing,
                     seal: Report -> string)
    returns (r: Result<Report>)
    requires ValidScenario(s, scan) && ValidHead(registry, scan) && Seals(seal) && Hashes(h) && AdmitsReports(scan)
    ensures r.Err? <==> EvidenceRefused(current, baseline, best, scan, h)
    ensures r.Ok? ==> ReportOf(registry, s, current, baseline, best, scan, h, r.value) && ValidReport(r.value, scan, seal)
  {
    hide Admits, ScorecardEvidence, AllMetrics, Seals, Hashes, AdmitsReports, SourceFits, ValidReport, ValidHead, ValidScenario, Blank, Frames,
         Judged, Stamped, ReportOf;
    Assumed(s, scan);
    var okC, c, sc := ReadEvidence(Some(current), scan, h);
    if !okC { return Err("current refused"); }
    var okB, b, sb := ReadEvidence(baseline, scan, h);
    if !okB { return Err("baseline refused"); }
    var k: Option<Fields>, sk: Option<Source> := None, None;
    if b.Some? {
      var okK;
      okK, k, sk := ReadEvidence(best, scan, h);
      if !okK { return Err("best refused"); }
    }
    var report := Judge(Blank(registry, s, sc.value, sb, sk), s, c.value, b, k);
    JudgedReport(registry, s, report, sc.value, sb, sk, c.value, b, k, scan, seal);
    r := Ok(Stamped(report, seal));
    assert ReportOf(registry, s, current, baseline, best, scan, h, r.value) by {
      Assembled(registry, s, current, baseline, best, scan, h, r.value, c.value, b, k);
    }
  }

  lemma Assumed(s: Scenario, scan: Scanner)
    requires AdmitsReports(scan) && ValidScenario(s, scan)
    ensures Admits(scan) && AllMetrics(s.allowed)
  {
    hide Admits, AllMetrics, Identifier, HexDigest, ReasonCode, OutcomeText, REPORT_SCHEMA;
  }

  // `_report_payload`, with the hash still to come.
  function Blank(registry: Registry, s: Scenario, current: Source, baseline: Option<Source>, best: Option<Source>): Report {
    Report(REPORT_SCHEMA, registry.id, registry.hash, s.id, s.scenarioDigest, s.taskDigest, true, true, "disabled", "none",
           Pass, {}, current, baseline, best, map[], map[], "")
  }

  lemma JudgedReport(registry: Registry, s: Scenario, r: Report, sc: Source, sb: Option<Source>, sk: Option<Source>,
                     current: Fields, baseline: Option<Fields>, best: Option<Fields>, scan: Scanner, seal: Report -> string)
    requires ValidScenario(s, scan) && ValidHead(registry, scan) && Seals(seal) && AdmitsReports(scan)
    requires SourceFits(sc, scan) && MaybeFits(sb, scan) && MaybeFits(sk, scan)
    requires r == Blank(registry, s, sc, sb, sk).(outcome := r.outcome, reasons := r.reasons, baseline := r.baseline, best := r.best)
    requires Judged(r, s, current, baseline, best)
    ensures var t := Stamped(r, seal);
            && Frames(t, registry, s) && ValidReport(t, scan, seal) && Judged(t, s, current, baseline, best)
            && t.currentSource == sc && t.baselineSource == sb && t.bestSource == sk
  {
    hide Seals, AdmitsReports, SourceFits, MaybeFits, ValidReport, ValidHead, Judged, REPORT_SCHEMA, HexDigest, Identifier, AllMetrics;
    StampedValid(r, registry, s, scan, seal);
    StampKeeps(r, seal, s, current, baseline, best);
  }

  lemma Assembled(registry: Registry, s: Scenario, current: Json, baseline: Option<Json>, best: Option<Json>, scan: Scanner, h: Hashing,
                  r: Report, c: Fields, b: Option<Fields>, k: Option<Fields>)
    requires AllMetrics(s.allowed) && Frames(r, registry, s) && Judged(r, s, c, b, k)
    requires ReadAs(Some(current), scan, h, Some(c), Some(r.currentSource)) && ReadAs(baseline, scan, h, b, r.baselineSource)
    requires if b.Some? then ReadAs(best, scan, h, k, r.bestSource) else k.None? && r.bestSource.None?
    ensures ReportOf(registry, s, current, baseline, best, scan, h, r)
  {
    hide Frames, Judged, ReadAs, AllMetrics;
  }

  lemma StampKeeps(r: Report, seal: Report -> string, s: Scenario, current: Fields, baseline: Option<Fields>, best: Option<Fields>)
    requires AllMetrics(s.allowed) && Judged(r, s, current, baseline, best)
    ensures Judged(Stamped(r, seal), s, current, baseline, best)
  {
    hide Decide, Reasons, Compares;
  }
}
