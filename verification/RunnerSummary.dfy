/** The summary of a gated run, and its import as a scorecard
    (scripts/provider_gated_real_runner.py, scripts/token_efficiency_scorecard.py). */
module RunnerSummary {
  import opened Sets
  import opened Text
  import opened Rounding
  import opened Scorecard
  import opened ScorecardNormal
  import opened ScorecardBounds
  import opened ScorecardArtifact
  import R = RealRunner

  const SCENARIO := "provider_gated_remember_dont_reread_runner"

  // The rates read from the environment, used for the live provider only.
  datatype Rates = Rates(input: real, output: real)

  datatype Job = Job(mode: R.Mode, config: R.Config, env: Rates, show: R.Show, h: Hashing)

  function KindText(kind: R.Kind): string {
    match kind
    case Stub => "stub"
    case Fake => "fake"
    case Live => "live"
  }

  function ModelText(kind: R.Kind): string {
    match kind
    case Stub => "stub-deterministic"
    case Fake => "fake-deterministic"
    case Live => "live-provider"
  }

  function RunId(job: Job): string { "real-runner-" + R.ModeText(job.mode) }

  function RunText(k: Key, job: Job, passed: bool): string {
    match k
    case AdapterRunId => RunId(job)
    case RuntimeKind => "native_harness"
    case RuntimeVersion => "provider-gated-real-runner.v1"
    case ScenarioId => SCENARIO
    case Mode => R.ModeText(job.mode)
    case StateStrategy => if job.mode == R.StatefulStore then "durable_state" else "full_history"
    case Status => if passed then "pass" else "fail"
    case PassFailReason => if passed then "same score threshold met" else "score threshold not met" + " within bounded iterations"
    case QualityMethod => "rule"
    case RawTraceArtifactId => "bounded-provider-gated-runner-" + R.ModeText(job.mode)
    case RedactionStatus => if job.config.live then "redacted" else "not_needed"
    case _ => "none"
  }

  function Sum(xs: seq<nat>): nat { if xs == [] then 0 else xs[0] + Sum(xs[1..]) }

  function Retrieved(step: R.Step, mode: R.Mode, i: nat): (r: nat)
    ensures r <= step.context
  {
    if mode == R.StatefulStore && i > 0 then R.Min(step.context, R.Max(0, step.context / 5)) else 0
  }

  function Inputs(steps: seq<R.Step>): seq<nat> { seq(|steps|, i requires 0 <= i < |steps| => steps[i].reply.inputTokens) }
  function Outputs(steps: seq<R.Step>): seq<nat> { seq(|steps|, i requires 0 <= i < |steps| => steps[i].reply.outputTokens) }
  function Contexts(steps: seq<R.Step>): seq<nat> { seq(|steps|, i requires 0 <= i < |steps| => steps[i].context) }
  function Repeats(steps: seq<R.Step>): seq<nat> { seq(|steps|, i requires 0 <= i < |steps| => steps[i].repeated) }
  function References(steps: seq<R.Step>, mode: R.Mode): seq<nat> {
    seq(|steps|, i requires 0 <= i < |steps| => Retrieved(steps[i], mode, i))
  }

  function RunCount(k: Key, job: Job, steps: seq<R.Step>): nat {
    match k
    case InputTokenTotal => Sum(Inputs(steps))
    case OutputTokenTotal => Sum(Outputs(steps))
    case ContextTokenTotal => Sum(Contexts(steps))
    case RepeatedContextTokenTotal => Sum(Repeats(steps))
    case RetrievedRefTokenTotal => Sum(References(steps, job.mode))
    case ToolCallCount => |steps|
    case StepCount => |steps|
    case DurationMs => R.Max(1, |steps| * 5)
    case _ => 0
  }

  // `{n:02d}`
  function TwoDigits(n: nat): string
    requires n < 100
  {
    [(48 + n / 10) as char, (48 + n % 10) as char]
  }

  function StepText(k: Key, job: Job, i: nat): string
    requires i < 100
  {
    match k
    case AdapterStepId => RunId(job) + "-iter-" + TwoDigits(i)
    case AdapterRunId => RunId(job)
    case NodeName => "real_experiment_iteration_" + TwoDigits(i)
    case AgentRole => "executor"
    case OperationKind => "model_call"
    case Status => "pass"
    case ErrorKind => "none"
    case _ => "none"
  }

  function StepCountOf(k: Key, job: Job, step: R.Step, i: nat): nat {
    var stateful := job.mode == R.StatefulStore;
    match k
    case StepIndex => i
    case InputTokens => step.reply.inputTokens
    case OutputTokens => step.reply.outputTokens
    case ContextTokens => step.context
    case RepeatedContextTokens => step.repeated
    case RetrievedRefsCount => if stateful && i > 0 then 1 else 0
    case RetrievedRefTokens => Retrieved(step, job.mode, i)
    case StateReadBytes => if stateful then |job.show.number(step.candidate)| + |job.show.score(step.score)| else 0
    case StateWriteBytes => if stateful then 96 else 0
    case _ => 0
  }

  function StepFields(job: Job, step: R.Step, i: nat): Fields
    requires i < 100
  {
    (map k | k in StepStrings() + StepNumbers() ::
       if k in StepNumbers() then Number(StepCountOf(k, job, step, i) as real, true) else Str(StepText(k, job, i)))
      [ToolName := Null][ToolCallId := Null]
  }

  function StepList(job: Job, steps: seq<R.Step>): (r: seq<Json>)
    requires |steps| <= 100
    ensures |r| == |steps| && forall i :: 0 <= i < |steps| ==> r[i] == Obj(StepFields(job, steps[i], i))
  {
    seq(|steps|, i requires 0 <= i < |steps| => Obj(StepFields(job, steps[i], i)))
  }

  // ---- The comparison contract.

  function RatesOf(job: Job): Rates { if job.config.kind == R.Live then job.env else Rates(0.0, 0.0) }

  function TaskBasis(job: Job): string {
    SCENARIO + ":" + KindText(job.config.kind) + ":" + ModelText(job.config.kind) + ":iterations=" +
    job.show.number(job.config.limits.iterations) + ":threshold=" + job.show.score(job.config.limits.passThreshold)
  }

  function ContractText(k: Key, job: Job): string {
    match k
    case ScenarioDigest => job.h.sha(SCENARIO)
    case TaskDigest => job.h.sha(TaskBasis(job))
    case RuntimeKind => "native_harness"
    case RuntimeVersion => "provider-gated-real-runner.v1"
    case ProviderId => "local-runner-" + KindText(job.config.kind)
    case ModelId => ModelText(job.config.kind)
    case TokenizerId => if job.config.kind == R.Live then "provider-reported" else "deterministic-estimator.v1"
    case PricingId => "local-runner-" + KindText(job.config.kind) + "-pricing.v1"
    case QualityMethod => "rule"
    case EvaluatorVersion => "hidden-score-rule.v1"
    case RedactionPolicy => if job.config.live then "summary-redacted.v1" else "not-needed-generated-summary.v1"
    case RetryPolicy => "provider-boundary.v1"
    case _ => "none"
  }

  function ContractNumber(k: Key, job: Job): Json {
    match k
    case InputCostPer1k => Number(RatesOf(job).input, false)
    case OutputCostPer1k => Number(RatesOf(job).output, false)
    case QualityThreshold => Number(job.config.limits.passThreshold, false)
    case _ => Number(0.0, true)
  }

  function Contract(job: Job): Fields {
    map k | k in ContractStrings() + ContractNumbers() :: if k in ContractNumbers() then ContractNumber(k, job) else Str(ContractText(k, job))
  }

  // ---- The summary.

  function Metadata(job: Job, run: R.Run): Fields {
    map[
      Other("live") := Bool(job.config.live),
      Other("provider_kind") := Str(KindText(job.config.kind)),
      Other("model") := Str(ModelText(job.config.kind)),
      Other("external_calls") := Number(|run.steps| as real, true),
      Other("final_best_score") := Number(run.best, false),
      Other("context_protocol") := Str(ProtocolText(job))]
  }

  function ProtocolText(job: Job): string {
    if job.mode == R.StatelessReread then "full_history_reread" else "compact_summary_plus_recent_window"
  }

  function Base(job: Job, run: R.Run): Fields {
    map k | k in RunStrings() + RunNumbers() ::
      if k in RunNumbers() then Number(RunCount(k, job, run.steps) as real, true) else Str(RunText(k, job, run.passed))
  }

  function Summary(job: Job, run: R.Run): Fields
    requires |run.steps| <= 100
  {
    Base(job, run)
      [ComparisonContract := Obj(Contract(job))]
      [EstimatedCostUsd := Number(Round6(R.Cost(run.steps)), false)]
      [Other("runner_metadata") := Obj(Metadata(job, run))]
      [Steps := Arr(StepList(job, run.steps))]
      [QualityScore := Number(run.best, false)]
  }

  /** The scanner lets the runner's own texts and keys through. */
  ghost predicate AdmitsRun(scan: Scanner, job: Job) {
    && Admits(scan)
    && (forall k, passed :: scan.cleanText(RunText(k, job, passed)))
    && (forall k, i :: 0 <= i < 100 ==> scan.cleanText(StepText(k, job, i)))
    && (forall k :: k in ContractStrings() ==> scan.cleanText(ContractText(k, job)))
    && scan.cleanText(KindText(job.config.kind)) && scan.cleanText(ModelText(job.config.kind)) && scan.cleanText(ProtocolText(job))
    && scan.cleanKey("runner_metadata") && scan.cleanKey("live") && scan.cleanKey("provider_kind") && scan.cleanKey("model")
    && scan.cleanKey("external_calls") && scan.cleanKey("final_best_score") && scan.cleanKey("context_protocol")
  }

  // ---- Sums.

  lemma {:induction false} SumLeq(xs: seq<nat>, ys: seq<nat>)
    requires |xs| == |ys| && forall i :: 0 <= i < |xs| ==> xs[i] <= ys[i]
    ensures Sum(xs) <= Sum(ys)
  {
    if xs != [] { SumLeq(xs[1..], ys[1..]); }
  }

  lemma {:induction false} RepeatsWithin(w: R.World, mode: R.Mode, k: nat, i: nat)
    requires i < k
    ensures R.Steps(w, mode, k)[i].repeated <= R.Steps(w, mode, k)[i].context
  {
    hide R.NextStep;
    if i < k - 1 { RepeatsWithin(w, mode, k - 1, i); }
  }

  /** Repeated and retrieved tokens never exceed the context, step by step and in total. */
  lemma TokensWithin(w: R.World, mode: R.Mode, k: nat)
    ensures var steps := R.Steps(w, mode, k);
            && (forall i :: 0 <= i < k ==> steps[i].repeated <= steps[i].context && Retrieved(steps[i], mode, i) <= steps[i].context)
            && Sum(Repeats(steps)) <= Sum(Contexts(steps)) && Sum(References(steps, mode)) <= Sum(Contexts(steps))
  {
    var steps := R.Steps(w, mode, k);
    forall i | 0 <= i < k ensures steps[i].repeated <= steps[i].context { RepeatsWithin(w, mode, k, i); }
    SumLeq(Repeats(steps), Contexts(steps));
    SumLeq(References(steps, mode), Contexts(steps));
  }

  lemma {:induction false} SumAppend(xs: seq<nat>, x: nat)
    ensures Sum(xs + [x]) == Sum(xs) + x
  {
    if xs == [] {
      assert [] + [x] == [x];
    } else {
      assert (xs + [x])[0] == xs[0] && (xs + [x])[1..] == xs[1..] + [x];
      SumAppend(xs[1..], x);
    }
  }

  lemma {:induction false} TotalsAreTokens(steps: seq<R.Step>)
    ensures Sum(Inputs(steps)) + Sum(Outputs(steps)) == R.Tokens(steps)
  {
    if steps != [] {
      var before, last := steps[..|steps| - 1], steps[|steps| - 1];
      TotalsAreTokens(before);
      assert Inputs(steps) == Inputs(before) + [last.reply.inputTokens] && Outputs(steps) == Outputs(before) + [last.reply.outputTokens];
      SumAppend(Inputs(before), last.reply.inputTokens);
      SumAppend(Outputs(before), last.reply.outputTokens);
    }
  }

  // ---- Every text is short and starts with a letter.

  predicate Starts(s: string) { s != "" && !IsSpace(s[0]) && |s| <= 256 }

  lemma StartsText(s: string, d: nat)
    requires Starts(s) && d <= MAX_DEPTH
    ensures Strip(s) != "" && Bounded(Str(s), d)
  {
    hide Utf8;
    StripKeeps(s);
    Utf8Short(s);
  }

  lemma RunTextStarts(k: Key, job: Job, passed: bool)
    ensures Starts(RunText(k, job, passed))
  {
    hide Starts, SCENARIO;
    IdStarts(job);
    WordStarts();
    PolicyStarts();
  }

  lemma IdStarts(job: Job)
    ensures Starts(RunId(job)) && Starts("bounded-provider-gated-runner-" + R.ModeText(job.mode)) && Starts(SCENARIO)
  {
  }

  lemma WordStarts()
    ensures Starts("stateless_reread") && Starts("stateful_store") && Starts("durable_state") && Starts("full_history")
    ensures Starts("pass") && Starts("fail") && Starts("redacted") && Starts("not_needed") && Starts("same score threshold met")
    ensures Starts("score threshold not met" + " within bounded iterations")
  {
  }

  lemma StepTextStarts(k: Key, job: Job, i: nat)
    requires i < 100
    ensures Starts(StepText(k, job, i))
  {
  }

  lemma HexStarts(s: string)
    requires HexDigest(s)
    ensures Starts(s) && Digest(s)
  {
  }

  lemma ContractTextStarts(k: Key, job: Job)
    requires Hashes(job.h)
    ensures Starts(ContractText(k, job))
  {
    hide Starts, HexDigest;
    if k == ScenarioDigest || k == TaskDigest {
      HexStarts(job.h.sha(SCENARIO));
      HexStarts(job.h.sha(TaskBasis(job)));
    } else {
      FixedContractText(k, job);
    }
  }

  lemma FixedContractText(k: Key, job: Job)
    requires k != ScenarioDigest && k != TaskDigest
    ensures Starts(ContractText(k, job))
  {
    hide Starts, KindText, ModelText;
    ProviderStarts(job.config.kind);
    ModelStarts(job.config.kind);
    PolicyStarts();
  }

  lemma ProviderStarts(kind: R.Kind)
    ensures Starts("local-runner-" + KindText(kind)) && Starts("local-runner-" + KindText(kind) + "-pricing.v1")
  {
  }

  lemma ModelStarts(kind: R.Kind)
    ensures Starts(ModelText(kind))
  {
  }

  lemma PolicyStarts()
    ensures Starts("summary-redacted.v1") && Starts("not-needed-generated-summary.v1")
    ensures Starts("provider-reported") && Starts("deterministic-estimator.v1")
    ensures Starts("native_harness") && Starts("provider-gated-real-runner.v1") && Starts("rule")
    ensures Starts("hidden-score-rule.v1") && Starts("provider-boundary.v1") && Starts("none")
  {
  }

  // ---- The run's own fields.

  lemma BaseAt(job: Job, run: R.Run, k: Key)
    ensures k in RunStrings() ==> HasText(Base(job, run), k) && Base(job, run)[k] == Str(RunText(k, job, run.passed))
    ensures k in RunNumbers() ==> HasCount(Base(job, run), k) && Base(job, run)[k] == Number(RunCount(k, job, run.steps) as real, true)
    ensures k in Base(job, run) ==> !k.Other? && (k in RunStrings() || k in RunNumbers())
  {
    hide Strip, RunStrings, RunNumbers, RunText, RunCount, Starts;
    KeysApart(k);
    if k in RunStrings() {
      RunTextStarts(k, job, run.passed);
      StartsText(RunText(k, job, run.passed), 0);
    }
  }

  function Added(): set<Key> { {ComparisonContract, EstimatedCostUsd, Other("runner_metadata"), Steps, QualityScore} }

  lemma AddedApart(k: Key)
    requires k in RunStrings() || k in RunNumbers()
    ensures k !in Added()
  {
  }

  // A run field of the summary is the base field.
  lemma SummaryAt(job: Job, run: R.Run, k: Key)
    requires |run.steps| <= 100 && (k in RunStrings() || k in RunNumbers())
    ensures k in Summary(job, run)
    ensures k in RunStrings() ==> HasText(Summary(job, run), k) && Summary(job, run)[k] == Str(RunText(k, job, run.passed))
    ensures k in RunNumbers() ==> HasCount(Summary(job, run), k) && Summary(job, run)[k] == Number(RunCount(k, job, run.steps) as real, true)
  {
    hide Base, Strip, RunStrings, RunNumbers, RunText, RunCount, Contract, Metadata, StepList, Round6;
    BaseAt(job, run, k);
    AddedApart(k);
  }

  lemma SummaryText(job: Job, run: R.Run, k: Key)
    requires |run.steps| <= 100 && k in RunStrings()
    ensures TextOf(Summary(job, run), k) == RunText(k, job, run.passed)
  {
    hide Summary, RunText, RunStrings, HasText;
    SummaryAt(job, run, k);
  }

  lemma SummaryNumber(job: Job, run: R.Run, k: Key)
    requires |run.steps| <= 100 && k in RunNumbers()
    ensures NumberOf(Summary(job, run), k) == RunCount(k, job, run.steps) as real
  {
    hide Summary, RunCount, RunNumbers, HasCount;
    SummaryAt(job, run, k);
  }

  predicate TextsAllowed(f: Fields) {
    && TextOf(f, RuntimeKind) == "native_harness"
    && (TextOf(f, Mode) == "stateless_reread" || TextOf(f, Mode) == "stateful_store")
    && (TextOf(f, StateStrategy) == "durable_state" || TextOf(f, StateStrategy) == "full_history")
    && (TextOf(f, Status) == "pass" || TextOf(f, Status) == "fail")
    && TextOf(f, QualityMethod) == "rule"
    && (TextOf(f, RedactionStatus) == "redacted" || TextOf(f, RedactionStatus) == "not_needed")
  }

  lemma SummaryTexts(job: Job, run: R.Run)
    requires |run.steps| <= 100
    ensures TextsAllowed(Summary(job, run))
  {
    hide Summary, RunStrings, TextOf;
    RunNames();
    SummaryText(job, run, RuntimeKind);
    SummaryText(job, run, Mode);
    SummaryText(job, run, StateStrategy);
    SummaryText(job, run, Status);
    SummaryText(job, run, QualityMethod);
    SummaryText(job, run, RedactionStatus);
  }

  predicate NumbersAllowed(f: Fields) {
    && NumberOf(f, RedundantToolCallCount) <= NumberOf(f, ToolCallCount)
    && NumberOf(f, RepeatedContextTokenTotal) <= NumberOf(f, ContextTokenTotal)
    && NumberOf(f, RetrievedRefTokenTotal) <= NumberOf(f, ContextTokenTotal)
  }

  lemma SummaryNumbers(job: Job, run: R.Run, w: R.World)
    requires |run.steps| <= 100 && run.steps == R.Steps(w, job.mode, |run.steps|)
    ensures NumbersAllowed(Summary(job, run))
  {
    hide Summary, RunNumbers, NumberOf, R.Steps, Sum;
    RunNames();
    SummaryNumber(job, run, RedundantToolCallCount);
    SummaryNumber(job, run, ToolCallCount);
    SummaryNumber(job, run, RepeatedContextTokenTotal);
    SummaryNumber(job, run, ContextTokenTotal);
    SummaryNumber(job, run, RetrievedRefTokenTotal);
    TokensWithin(w, job.mode, |run.steps|);
  }

  lemma Related(f: Fields)
    requires TextsAllowed(f) && NumbersAllowed(f)
    requires Given(f, EstimatedCostUsd) ==> HasCount(f, EstimatedCostUsd)
    requires Given(f, QualityScore) ==> f[QualityScore].Number? && 0.0 <= f[QualityScore].value <= 1.0
    ensures RunRelations(f)
  {
  }

  lemma SummaryRelations(job: Job, run: R.Run, w: R.World)
    requires |run.steps| <= 100 && run.steps == R.Steps(w, job.mode, |run.steps|) && 0.0 <= run.best <= 1.0 && R.Cost(run.steps) == 0.0
    ensures RunRelations(Summary(job, run))
  {
    hide Summary, RunRelations, TextsAllowed, NumbersAllowed, R.Steps, R.Cost, Round6, Contract, Metadata, StepList;
    SummaryTexts(job, run);
    SummaryNumbers(job, run, w);
    SummaryAdded(job, run);
    RoundZero();
    Related(Summary(job, run));
  }

  lemma SummaryAdded(job: Job, run: R.Run)
    requires |run.steps| <= 100
    ensures var f := Summary(job, run);
            && ComparisonContract in f && f[ComparisonContract] == Obj(Contract(job))
            && EstimatedCostUsd in f && f[EstimatedCostUsd] == Number(Round6(R.Cost(run.steps)), false)
            && Other("runner_metadata") in f && f[Other("runner_metadata")] == Obj(Metadata(job, run))
            && Steps in f && f[Steps] == Arr(StepList(job, run.steps))
            && QualityScore in f && f[QualityScore] == Number(run.best, false)
  {
    hide Base, Contract, Metadata, StepList, Round6;
  }

  lemma SummaryRunOk(job: Job, run: R.Run, w: R.World)
    requires |run.steps| <= 100 && run.steps == R.Steps(w, job.mode, |run.steps|) && 0.0 <= run.best <= 1.0 && R.Cost(run.steps) == 0.0
    ensures RunOk(Summary(job, run))
  {
    hide Summary, RunStrings, RunNumbers, HasText, HasCount, RunRelations, R.Steps, R.Cost;
    forall k | k in RunStrings() ensures HasText(Summary(job, run), k) { SummaryAt(job, run, k); }
    forall k | k in RunNumbers() ensures HasCount(Summary(job, run), k) { SummaryAt(job, run, k); }
    SummaryRelations(job, run, w);
  }

  // ---- The contract's fields.

  lemma ContractAt(job: Job, k: Key)
    requires Hashes(job.h)
    ensures k in ContractStrings() ==> k in Contract(job) && HasText(Contract(job), k) && Contract(job)[k] == Str(ContractText(k, job))
    ensures k in ContractNumbers() ==> k in Contract(job) && Contract(job)[k] == ContractNumber(k, job)
    ensures k in Contract(job) ==> k in ContractStrings() || k in ContractNumbers()
  {
    hide Strip, ContractStrings, ContractNumbers, ContractText, ContractNumber, Starts, HexDigest;
    ContractKeys();
    if k in ContractStrings() {
      ContractTextStarts(k, job);
      StartsText(ContractText(k, job), 0);
    }
  }

  predicate RatesFit(job: Job) { RatesOf(job).input >= 0.0 && RatesOf(job).output >= 0.0 }

  lemma ContractCounts(job: Job)
    requires Hashes(job.h) && R.LimitsOk(job.config.limits)
    ensures (forall k :: k in ContractNumbers() ==> HasCount(Contract(job), k)) <==> RatesFit(job)
  {
    hide Contract, ContractStrings, RatesOf, HasText, HexDigest;
    ContractAt(job, InputCostPer1k);
    ContractAt(job, OutputCostPer1k);
    ContractAt(job, QualityThreshold);
    ContractAt(job, Seed);
    var c := Contract(job);
    if forall k :: k in ContractNumbers() ==> HasCount(c, k) {
      assert HasCount(c, InputCostPer1k) && HasCount(c, OutputCostPer1k);
    }
  }

  lemma ContractShapeExactly(job: Job)
    requires Hashes(job.h) && R.LimitsOk(job.config.limits)
    ensures ContractShape(Contract(job)) <==> RatesFit(job)
  {
    hide Contract, ContractStrings, ContractNumbers, HasText, HasCount, RatesFit, HexDigest, Digest;
    ContractCounts(job);
    ContractKeys();
    forall k | k in ContractStrings() ensures HasText(Contract(job), k) { ContractAt(job, k); }
    ContractAt(job, ScenarioDigest);
    ContractAt(job, TaskDigest);
    HexStarts(job.h.sha(SCENARIO));
    HexStarts(job.h.sha(TaskBasis(job)));
  }

  lemma SummaryContractOk(job: Job, run: R.Run)
    requires Hashes(job.h) && R.LimitsOk(job.config.limits) && |run.steps| <= 100
    ensures ContractOk(Summary(job, run)) <==> RatesFit(job)
  {
    hide Summary, Contract, ContractShape, RatesFit, TextOf, NumberOf, Integral, Hashes, Metadata, StepList, Round6;
    SummaryAdded(job, run);
    ContractShapeExactly(job);
    ContractAgrees(job, run);
  }

  lemma ContractTextAt(job: Job, k: Key)
    requires Hashes(job.h) && k in ContractStrings()
    ensures TextOf(Contract(job), k) == ContractText(k, job)
  {
    hide Contract, ContractStrings, ContractText, HasText, Hashes;
    ContractAt(job, k);
  }

  lemma ContractAgrees(job: Job, run: R.Run)
    requires Hashes(job.h) && R.LimitsOk(job.config.limits) && |run.steps| <= 100
    ensures var c := Contract(job); var f := Summary(job, run);
            && TextOf(c, RuntimeKind) == TextOf(f, RuntimeKind)
            && TextOf(c, RuntimeVersion) == TextOf(f, RuntimeVersion)
            && TextOf(c, QualityMethod) == TextOf(f, QualityMethod)
            && NumberOf(c, QualityThreshold) <= 1.0
            && Integral(c, Seed)
  {
    hide Summary, Contract, ContractStrings, RunStrings, HasText, Hashes, TextOf;
    RunNames();
    ContractKeys();
    ContractTextAt(job, RuntimeKind);
    ContractTextAt(job, RuntimeVersion);
    ContractTextAt(job, QualityMethod);
    SummaryText(job, run, RuntimeKind);
    SummaryText(job, run, RuntimeVersion);
    SummaryText(job, run, QualityMethod);
    ContractAt(job, QualityThreshold);
    ContractAt(job, Seed);
  }

  // ---- The steps.

  lemma StepKeysApart(k: Key)
    ensures k in StepStrings() ==> k !in StepNumbers() && k != ToolName && k != ToolCallId && !k.Other?
    ensures k in StepNumbers() ==> k != ToolName && k != ToolCallId && !k.Other?
  {
  }

  lemma StepAt(job: Job, step: R.Step, i: nat, k: Key)
    requires i < 100
    ensures var f := StepFields(job, step, i);
            && (k in StepStrings() ==> k in f && HasText(f, k) && f[k] == Str(StepText(k, job, i)))
            && (k in StepNumbers() ==> k in f && HasCount(f, k) && f[k] == Number(StepCountOf(k, job, step, i) as real, true))
            && (k in f ==> k in StepStrings() || k in StepNumbers() || ((k == ToolName || k == ToolCallId) && f[k] == Null))
  {
    hide Strip, StepStrings, StepNumbers, StepText, StepCountOf, Starts;
    StepKeysApart(k);
    if k in StepStrings() {
      StepTextStarts(k, job, i);
      StartsText(StepText(k, job, i), 0);
    }
  }

  lemma StepTextAt(job: Job, step: R.Step, i: nat, k: Key)
    requires i < 100 && k in StepStrings()
    ensures TextOf(StepFields(job, step, i), k) == StepText(k, job, i)
  {
    hide StepFields, StepStrings, StepText, HasText;
    StepAt(job, step, i, k);
  }

  lemma StepNumberAt(job: Job, step: R.Step, i: nat, k: Key)
    requires i < 100 && k in StepNumbers()
    ensures NumberOf(StepFields(job, step, i), k) == StepCountOf(k, job, step, i) as real
  {
  }

  lemma StepAccepted(job: Job, step: R.Step, i: nat)
    requires i < 100 && step.repeated <= step.context
    ensures StepOk(Obj(StepFields(job, step, i)), RunId(job), i)
  {
    hide StepFields, StepStrings, StepNumbers, HasText, HasCount, TextOf, NumberOf, RunId;
    var f := StepFields(job, step, i);
    forall k | k in StepStrings() ensures HasText(f, k) { StepAt(job, step, i, k); }
    forall k | k in StepNumbers() ensures HasCount(f, k) { StepAt(job, step, i, k); }
    StepKeys();
    StepTextAt(job, step, i, AdapterRunId);
    StepTextAt(job, step, i, AgentRole);
    StepTextAt(job, step, i, OperationKind);
    StepTextAt(job, step, i, Status);
    StepNumberAt(job, step, i, StepIndex);
    StepNumberAt(job, step, i, ContextTokens);
    StepNumberAt(job, step, i, RepeatedContextTokens);
    StepNumberAt(job, step, i, RetrievedRefTokens);
  }

  lemma SummaryStepsOk(job: Job, run: R.Run, w: R.World)
    requires |run.steps| <= 100 && run.steps == R.Steps(w, job.mode, |run.steps|)
    ensures StepsOk(Summary(job, run)) && StepItems(Summary(job, run)) == StepList(job, run.steps)
  {
    hide Summary, StepFields, StepOk, RunStrings, RunNumbers, TextOf, NumberOf, R.Steps, Contract, Metadata, Round6, Sum;
    SummaryAdded(job, run);
    RunNames();
    SummaryText(job, run, AdapterRunId);
    SummaryNumber(job, run, StepCount);
    TokensWithin(w, job.mode, |run.steps|);
    var items := StepList(job, run.steps);
    forall i | 0 <= i < |items| ensures StepOk(items[i], RunId(job), i) { StepAccepted(job, run.steps[i], i); }
  }

  // ---- The cost.

  /** The cost that the contract's rates imply, against the stub's cost of nothing. */
  predicate CostFits(job: Job, run: R.Run) {
    Distance(0.0, CostOf(Sum(Inputs(run.steps)) as real, RatesOf(job).input, Sum(Outputs(run.steps)) as real, RatesOf(job).output)) <= 0.0000005
  }

  lemma SummaryCostOk(job: Job, run: R.Run)
    requires |run.steps| <= 100 && R.Cost(run.steps) == 0.0 && Hashes(job.h)
    ensures CostOk(Summary(job, run)) <==> CostFits(job, run)
  {
    hide Summary, Contract, DerivedCost, Hashes, Metadata, StepList, R.Cost, Sum, CostOf, Round6, Inputs, Outputs, RatesOf;
    SummaryAdded(job, run);
    SummaryCost(job, run);
    RoundZero();
  }

  lemma SummaryCost(job: Job, run: R.Run)
    requires |run.steps| <= 100 && Hashes(job.h)
    ensures DerivedCost(Summary(job, run), Contract(job)) ==
            CostOf(Sum(Inputs(run.steps)) as real, RatesOf(job).input, Sum(Outputs(run.steps)) as real, RatesOf(job).output)
  {
    hide Summary, Contract, Hashes, Sum, CostOf, NumberOf, Inputs, Outputs, RatesOf;
    SummaryNumber(job, run, InputTokenTotal);
    SummaryNumber(job, run, OutputTokenTotal);
    RateAt(job);
  }

  lemma RateAt(job: Job)
    requires Hashes(job.h)
    ensures NumberOf(Contract(job), InputCostPer1k) == RatesOf(job).input && NumberOf(Contract(job), OutputCostPer1k) == RatesOf(job).output
  {
  }

  lemma {:induction false} NothingOwed(x: real, y: real)
    ensures CostOf(x, 0.0, y, 0.0) == 0.0
  {
  }

  lemma SummaryFieldsOk(job: Job, run: R.Run, w: R.World)
    requires Hashes(job.h) && R.LimitsOk(job.config.limits)
    requires |run.steps| <= 100 && run.steps == R.Steps(w, job.mode, |run.steps|) && 0.0 <= run.best <= 1.0 && R.Cost(run.steps) == 0.0
    ensures FieldsOk(Summary(job, run)) <==> RatesFit(job) && CostFits(job, run)
  {
    hide Summary, RunOk, ContractOk, CostOk, ProvenanceOk, StepsOk, RatesFit, CostFits, Contract, Metadata, StepList, Round6, R.Steps, R.Cost, Hashes;
    SummaryRunOk(job, run, w);
    SummaryContractOk(job, run);
    SummaryCostOk(job, run);
    SummaryStepsOk(job, run, w);
    SummaryAdded(job, run);
    SummaryLacks(job, run);
  }

  lemma SummaryLacks(job: Job, run: R.Run)
    requires |run.steps| <= 100
    ensures EvidenceProvenance !in Summary(job, run) && DerivedMetrics !in Summary(job, run)
  {
    hide Base, RunStrings, RunNumbers, Contract, Metadata, StepList, Round6, HasText, HasCount;
    BaseAt(job, run, EvidenceProvenance);
    BaseAt(job, run, DerivedMetrics);
    GroupsApart();
  }

  lemma GroupsApart()
    ensures EvidenceProvenance !in RunStrings() && EvidenceProvenance !in RunNumbers()
    ensures DerivedMetrics !in RunStrings() && DerivedMetrics !in RunNumbers()
  {
  }

  // ---- Bounds.

  predicate Flat(m: Fields, d: nat) {
    |m| <= MAX_FIELDS && d <= MAX_DEPTH && forall k :: k in m ==> (k.Other? ==> |Utf8(k.name)| <= MAX_STRING) && Bounded(m[k], d)
  }

  lemma FlatBounded(m: Fields, d: nat)
    requires Flat(m, d + 1)
    ensures Bounded(Obj(m), d)
  {
  }

  lemma ContractFlat(job: Job, d: nat)
    requires Hashes(job.h) && d <= MAX_DEPTH
    ensures Flat(Contract(job), d)
  {
    hide Contract, ContractStrings, ContractNumbers, HasText, Hashes, Utf8, Bounded, ContractText, ContractNumber, Starts;
    var c := Contract(job);
    ContractSize(job);
    forall k | k in c ensures !k.Other? && Bounded(c[k], d) {
      ContractAt(job, k);
      ContractNamed(k);
      if k in ContractStrings() {
        ContractTextStarts(k, job);
        StartsText(ContractText(k, job), d);
      } else {
        ContractIsNumber(k, job);
        NumberBounded(c[k], d);
      }
    }
  }

  lemma ContractIsNumber(k: Key, job: Job)
    ensures ContractNumber(k, job).Number?
  {
  }

  lemma ContractNamed(k: Key)
    ensures k in ContractStrings() || k in ContractNumbers() ==> !k.Other?
  {
  }

  lemma ContractSize(job: Job)
    ensures |Contract(job)| <= 16
  {
    var m := Contract(job);
    ContractKeyCount();
    hide ContractStrings, ContractNumbers;
    SubsetSize(m.Keys, ContractStrings() + ContractNumbers());
    assert |m| == |m.Keys|;
  }

  lemma ContractKeyCount()
    ensures |ContractStrings() + ContractNumbers()| <= 16
  {
  }

  lemma StepFlat(job: Job, step: R.Step, i: nat, d: nat)
    requires i < 100 && d <= MAX_DEPTH
    ensures Flat(StepFields(job, step, i), d)
  {
    hide StepFields, StepStrings, StepNumbers, HasText, HasCount, Utf8, Bounded, StepText, StepCountOf, Starts;
    var f := StepFields(job, step, i);
    StepSize(job, step, i);
    forall k | k in f ensures !k.Other? && Bounded(f[k], d) {
      StepAt(job, step, i, k);
      StepKeysApart(k);
      if k in StepStrings() {
        StepTextStarts(k, job, i);
        StartsText(StepText(k, job, i), d);
      } else {
        NumberBounded(f[k], d);
      }
    }
  }

  lemma StepKeyCount()
    ensures |StepStrings() + StepNumbers() + {ToolName, ToolCallId}| <= 18
  {
  }

  lemma StepSize(job: Job, step: R.Step, i: nat)
    requires i < 100
    ensures |StepFields(job, step, i)| <= 18
  {
    hide StepStrings, StepNumbers, StepText, StepCountOf;
    var m := StepFields(job, step, i);
    StepKeyCount();
    SubsetSize(m.Keys, StepStrings() + StepNumbers() + {ToolName, ToolCallId});
    assert |m| == |m.Keys|;
  }

  lemma MetadataFlat(job: Job, run: R.Run, d: nat)
    requires d <= MAX_DEPTH
    ensures Flat(Metadata(job, run), d)
  {
    hide Bounded, Utf8;
    MetadataSize(job, run);
    forall k | k in Metadata(job, run) ensures k.Other? && |Utf8(k.name)| <= MAX_STRING && Bounded(Metadata(job, run)[k], d) {
      MetadataAt(job, run, k);
      Utf8Short(k.name);
      if Metadata(job, run)[k].Str? {
        DigestBounded(Metadata(job, run)[k].s, d);
      } else {
        NumberBounded(Metadata(job, run)[k], d);
      }
    }
  }

  lemma MetadataAt(job: Job, run: R.Run, k: Key)
    requires k in Metadata(job, run)
    ensures k.Other? && |k.name| <= 20
    ensures var v := Metadata(job, run)[k]; Scalar(v) && (v.Str? ==> |v.s| <= 40)
  {
    MetadataNames(job, run, k);
  }

  lemma MetadataNames(job: Job, run: R.Run, k: Key)
    requires k in Metadata(job, run)
    ensures k.Other?
    ensures k.name == "live" || k.name == "provider_kind" || k.name == "model" || k.name == "external_calls" ||
            k.name == "final_best_score" || k.name == "context_protocol"
    ensures var v := Metadata(job, run)[k];
            Scalar(v) && (v.Str? ==> v.s == KindText(job.config.kind) || v.s == ModelText(job.config.kind) || v.s == ProtocolText(job))
  {
    hide KindText, ModelText, ProtocolText;
  }

  lemma MetadataSize(job: Job, run: R.Run)
    ensures |Metadata(job, run)| <= 6
  {
  }

  lemma StepsFlat(job: Job, steps: seq<R.Step>)
    requires |steps| <= 100
    ensures Bounded(Arr(StepList(job, steps)), 1)
  {
    hide StepFields, Flat;
    var items := StepList(job, steps);
    forall i | 0 <= i < |items| ensures Bounded(items[i], 2) {
      StepFlat(job, steps[i], i, 3);
      FlatBounded(StepFields(job, steps[i], i), 2);
    }
  }

  lemma BaseBounded(job: Job, run: R.Run, k: Key)
    requires k in Base(job, run)
    ensures !k.Other? && Bounded(Base(job, run)[k], 1)
  {
    hide Base, RunStrings, RunNumbers, RunText, RunCount, Bounded, HasText, HasCount, Starts;
    BaseAt(job, run, k);
    if k in RunStrings() {
      RunTextStarts(k, job, run.passed);
      StartsText(RunText(k, job, run.passed), 1);
    } else {
      NumberBounded(Base(job, run)[k], 1);
    }
  }

  lemma BaseSize(job: Job, run: R.Run)
    ensures |Base(job, run)| <= 21
  {
    hide RunStrings, RunNumbers, RunText, RunCount;
    var m := Base(job, run);
    RunKeyCount();
    SubsetSize(m.Keys, RunStrings() + RunNumbers());
    assert |m| == |m.Keys|;
  }

  lemma UpdateBounded(m: Fields, k: Key, v: Json)
    requires Bounded(Obj(m), 0) && |m| < MAX_FIELDS && Bounded(v, 1) && (k.Other? ==> |Utf8(k.name)| <= MAX_STRING)
    ensures Bounded(Obj(m[k := v]), 0) && |m[k := v]| <= |m| + 1
  {
  }

  lemma FiveMore(m: Fields, a: Json, b: Json, c: Json, d: Json, e: Json)
    requires Bounded(Obj(m), 0) && |m| <= 21
    requires Bounded(a, 1) && Bounded(b, 1) && Bounded(c, 1) && Bounded(d, 1) && Bounded(e, 1)
    ensures Bounded(Obj(m[ComparisonContract := a][EstimatedCostUsd := b][Other("runner_metadata") := c][Steps := d][QualityScore := e]), 0)
  {
    hide Bounded, Utf8;
    Utf8Short("runner_metadata");
    UpdateBounded(m, ComparisonContract, a);
    var m1 := m[ComparisonContract := a];
    UpdateBounded(m1, EstimatedCostUsd, b);
    var m2 := m1[EstimatedCostUsd := b];
    UpdateBounded(m2, Other("runner_metadata"), c);
    var m3 := m2[Other("runner_metadata") := c];
    UpdateBounded(m3, Steps, d);
    UpdateBounded(m3[Steps := d], QualityScore, e);
  }

  lemma SummaryBounded(job: Job, run: R.Run)
    requires |run.steps| <= 100 && Hashes(job.h)
    ensures Bounded(Obj(Summary(job, run)), 0)
  {
    hide Base, Contract, Metadata, StepList, Round6, Hashes, Bounded, Flat, R.Cost;
    BaseHeld(job, run);
    ContractFlat(job, 2);
    FlatBounded(Contract(job), 1);
    MetadataFlat(job, run, 2);
    FlatBounded(Metadata(job, run), 1);
    StepsFlat(job, run.steps);
    var cost, best := Number(Round6(R.Cost(run.steps)), false), Number(run.best, false);
    NumberBounded(cost, 1);
    NumberBounded(best, 1);
    FiveMore(Base(job, run), Obj(Contract(job)), cost, Obj(Metadata(job, run)), Arr(StepList(job, run.steps)), best);
  }

  lemma BaseHeld(job: Job, run: R.Run)
    ensures Bounded(Obj(Base(job, run)), 0) && |Base(job, run)| <= 21
  {
    hide Base, Bounded;
    var m := Base(job, run);
    BaseSize(job, run);
    forall k | k in m ensures !k.Other? && Bounded(m[k], 1) { BaseBounded(job, run, k); }
    FlatBounded(m, 0);
  }

  // ---- The scan.

  lemma UpdateClean(m: Fields, k: Key, v: Json, scan: Scanner)
    requires Clean(Obj(m), scan) && Clean(v, scan) && (k.Other? ==> scan.cleanKey(k.name))
    ensures Clean(Obj(m[k := v]), scan)
  {
  }

  lemma BaseClean(job: Job, run: R.Run, scan: Scanner)
    requires AdmitsRun(scan, job)
    ensures Clean(Obj(Base(job, run)), scan)
  {
    hide Base, RunStrings, RunNumbers, RunText, RunCount, HasText, HasCount, StepText, ContractText;
    var m := Base(job, run);
    forall k | k in m ensures !k.Other? && Clean(m[k], scan) {
      BaseAt(job, run, k);
      if k in RunStrings() { assert scan.cleanText(RunText(k, job, run.passed)); }
    }
  }

  lemma ContractCleaned(job: Job, scan: Scanner)
    requires AdmitsRun(scan, job) && Hashes(job.h)
    ensures Clean(Obj(Contract(job)), scan)
  {
    hide Contract, ContractStrings, ContractNumbers, HasText, Hashes, ContractText, ContractNumber, RunText, StepText;
    var c := Contract(job);
    forall k | k in c ensures !k.Other? && Clean(c[k], scan) {
      ContractAt(job, k);
      ContractNamed(k);
      ContractIsNumber(k, job);
      if k in ContractStrings() { assert scan.cleanText(ContractText(k, job)); }
    }
  }

  lemma StepCleaned(job: Job, step: R.Step, i: nat, scan: Scanner)
    requires AdmitsRun(scan, job) && i < 100
    ensures Clean(Obj(StepFields(job, step, i)), scan)
  {
    hide StepFields, StepStrings, StepNumbers, HasText, HasCount, StepText, StepCountOf, RunText, ContractText;
    var f := StepFields(job, step, i);
    forall k | k in f ensures !k.Other? && Clean(f[k], scan) {
      StepAt(job, step, i, k);
      StepKeysApart(k);
      if k in StepStrings() { assert scan.cleanText(StepText(k, job, i)); }
    }
  }

  lemma StepsCleaned(job: Job, steps: seq<R.Step>, scan: Scanner)
    requires AdmitsRun(scan, job) && |steps| <= 100
    ensures Clean(Arr(StepList(job, steps)), scan)
  {
    hide StepFields, AdmitsRun;
    var items := StepList(job, steps);
    forall i | 0 <= i < |items| ensures Clean(items[i], scan) { StepCleaned(job, steps[i], i, scan); }
  }

  lemma MetadataCleaned(job: Job, run: R.Run, scan: Scanner)
    requires AdmitsRun(scan, job)
    ensures Clean(Obj(Metadata(job, run)), scan)
  {
    hide Metadata, KindText, ModelText, ProtocolText, RunText, StepText, ContractText;
    var m := Metadata(job, run);
    forall k | k in m ensures k.Other? && scan.cleanKey(k.name) && Clean(m[k], scan) {
      MetadataNames(job, run, k);
      if m[k].Str? { TextIsClean(m[k].s, scan); } else { NumberIsClean(m[k], scan); }
    }
  }

  lemma SummaryClean(job: Job, run: R.Run, scan: Scanner)
    requires |run.steps| <= 100 && Hashes(job.h) && AdmitsRun(scan, job)
    ensures Clean(Obj(Summary(job, run)), scan)
  {
    hide Base, Contract, Metadata, StepList, Round6, Hashes, Clean, R.Cost;
    var m := Base(job, run);
    BaseClean(job, run, scan);
    ContractCleaned(job, scan);
    MetadataCleaned(job, run, scan);
    StepsCleaned(job, run.steps, scan);
    var cost, best := Number(Round6(R.Cost(run.steps)), false), Number(run.best, false);
    NumberIsClean(cost, scan);
    NumberIsClean(best, scan);
    UpdateClean(m, ComparisonContract, Obj(Contract(job)), scan);
    var m1 := m[ComparisonContract := Obj(Contract(job))];
    UpdateClean(m1, EstimatedCostUsd, cost, scan);
    var m2 := m1[EstimatedCostUsd := cost];
    UpdateClean(m2, Other("runner_metadata"), Obj(Metadata(job, run)), scan);
    var m3 := m2[Other("runner_metadata") := Obj(Metadata(job, run))];
    UpdateClean(m3, Steps, Arr(StepList(job, run.steps)), scan);
    var m4 := m3[Steps := Arr(StepList(job, run.steps))];
    UpdateClean(m4, QualityScore, best, scan);
  }

  // ---- The main result.

  lemma {:induction false} BestRange(w: R.World, mode: R.Mode, k: nat)
    requires R.IsStub(w) && k >= 1
    ensures 0.0 <= R.Best(R.Steps(w, mode, k)) <= 1.0 && R.Cost(R.Steps(w, mode, k)) == 0.0
  {
    hide R.Best, R.Steps, R.Cost, R.IsStub, R.Score;
    R.StubBest(w, mode, k);
    R.ScoreRange(R.Fallback(k - 1));
  }

  /** A finished stub run is imported exactly when the rates in its contract are not negative
      and imply no cost. */
  lemma StubRunImportedExactly(job: Job, w: R.World, run: R.Run, scan: Scanner)
    requires Hashes(job.h) && AdmitsRun(scan, job) && R.LimitsOk(job.config.limits)
    requires R.IsStub(w) && R.Finished(w, job.mode, job.config.limits, run)
    ensures Import(Obj(Summary(job, run)), scan).Ok? <==> RatesFit(job) && CostFits(job, run)
  {
    hide Summary, FieldsOk, Bounded, Clean, RatesFit, CostFits, Hashes, AdmitsRun, R.Steps, R.Best, R.Cost, R.IsStub, R.GoesOn, R.WithinCaps, Normalized;
    BestRange(w, job.mode, |run.steps|);
    SummaryFieldsOk(job, run, w);
    SummaryBounded(job, run);
    SummaryClean(job, run, scan);
  }

  /** With the stub or fake provider kind, every finished stub run is imported. */
  lemma StubRunImported(job: Job, w: R.World, run: R.Run, scan: Scanner)
    requires Hashes(job.h) && AdmitsRun(scan, job) && R.LimitsOk(job.config.limits)
    requires R.IsStub(w) && R.Finished(w, job.mode, job.config.limits, run) && job.config.kind != R.Live
    ensures Import(Obj(Summary(job, run)), scan).Ok?
  {
    hide Summary, Import, Hashes, AdmitsRun, R.Finished, R.IsStub, Sum, CostOf;
    StubRunImportedExactly(job, w, run, scan);
    NothingOwed(Sum(Inputs(run.steps)) as real, Sum(Outputs(run.steps)) as real);
  }

  /** The totals of a summary are the tokens the loop counted, within the caps, for any provider. */
  lemma SummaryWithinCaps(job: Job, w: R.World, run: R.Run)
    requires R.LimitsOk(job.config.limits) && R.Finished(w, job.mode, job.config.limits, run)
    ensures var f := Summary(job, run);
            && NumberOf(f, InputTokenTotal) + NumberOf(f, OutputTokenTotal) == R.Tokens(run.steps) as real <= job.config.limits.maxTokens as real
            && NumberOf(f, StepCount) == |run.steps| as real <= job.config.limits.iterations as real
            && NumberOf(f, EstimatedCostUsd) <= job.config.limits.runCap + 0.0000005
  {
    hide Summary, R.Steps, R.Tokens, R.Cost, R.GoesOn, Sum, NumberOf, Round6, Contract, Metadata, StepList;
    SummaryNumber(job, run, InputTokenTotal);
    SummaryNumber(job, run, OutputTokenTotal);
    SummaryNumber(job, run, StepCount);
    TotalsAreTokens(run.steps);
    CostRounded(job, run);
  }

  lemma CostRounded(job: Job, run: R.Run)
    requires |run.steps| <= 100
    ensures NumberOf(Summary(job, run), EstimatedCostUsd) <= R.Cost(run.steps) + 0.0000005
  {
    hide Summary, R.Cost, Contract, Metadata, StepList, Round6;
    SummaryAdded(job, run);
    RoundError(R.Cost(run.steps));
  }

  // ---- A live configuration around the stub.

  lemma {:induction false} FirstInput(w: R.World, mode: R.Mode, k: nat)
    requires R.IsStub(w) && k >= 1
    ensures R.Steps(w, mode, k)[0].reply.inputTokens >= 1
  {
    hide R.NextStep, R.IsStub;
    if k == 1 {
      assert R.Steps(w, mode, 0) == [];
      StubInput(w, mode);
    } else {
      FirstInput(w, mode, k - 1);
    }
  }

  lemma StubInput(w: R.World, mode: R.Mode)
    requires R.IsStub(w)
    ensures R.NextStep(w, mode, []).reply.inputTokens >= 1
  {
  }

  lemma CostAtLeast(x: real, a: real, y: real, b: real)
    requires x >= 1.0 && a >= 1.0 && y >= 0.0 && b >= 0.0
    ensures CostOf(x, a, y, b) >= 0.001
  {
  }

  /** The stub's cost of nothing contradicts any live input rate of at least one dollar: the
      summary is refused. */
  lemma PricedStubRunRefused(job: Job, w: R.World, run: R.Run, scan: Scanner)
    requires Hashes(job.h) && AdmitsRun(scan, job) && R.LimitsOk(job.config.limits)
    requires R.IsStub(w) && R.Finished(w, job.mode, job.config.limits, run)
    requires job.config.kind == R.Live && job.env.input >= 1.0 && job.env.output >= 0.0
    ensures Import(Obj(Summary(job, run)), scan).Err?
  {
    hide Summary, Import, Hashes, AdmitsRun, R.IsStub, R.Steps, R.GoesOn, R.WithinCaps, R.Best, CostOf;
    StubRunImportedExactly(job, w, run, scan);
    FirstInput(w, job.mode, |run.steps|);
    assert Sum(Inputs(run.steps)) >= Inputs(run.steps)[0];
    CostAtLeast(Sum(Inputs(run.steps)) as real, job.env.input, Sum(Outputs(run.steps)) as real, job.env.output);
  }

  const ZEROS: string := seq(64, i => '0')

  /** There is such a run: the stub's first iteration under a live kind with an input rate of
      one dollar. */
  lemma PricedStubRun(mode: R.Mode) returns (job: Job, run: R.Run, scan: Scanner)
    ensures Hashes(job.h) && AdmitsRun(scan, job) && R.LimitsOk(job.config.limits) && job.mode == mode
    ensures R.IsStub(R.STUB_WORLD) && R.Finished(R.STUB_WORLD, mode, job.config.limits, run)
    ensures job.config.kind == R.Live && job.config.live && job.env == Rates(1.0, 0.0) && run.passed && |run.steps| == 1
    ensures Import(Obj(Summary(job, run)), scan).Err?
  {
    hide Summary, Import, R.Steps, R.Tokens, R.Finished, R.IsStub;
    var steps := R.Steps(R.STUB_WORLD, mode, 1);
    var limits := R.Limits(2, 4, R.Tokens(steps) + 1, 1.0, 1.0, 1.0, 0.5);
    job := Job(mode, R.Config(true, R.Live, limits), Rates(1.0, 0.0), R.PLAIN, Hashing(t => ZEROS, v => ""));
    scan := Scanner(k => true, t => true);
    run := R.Run(steps, 0.6, true);
    R.StubWorldIsStub();
    R.FirstPasses(R.STUB_WORLD, mode, limits);
    PricedStubRunRefused(job, R.STUB_WORLD, run, scan);
  }
}
