/** The provider-gated runner (scripts/provider_gated_real_runner.py).

    A provider is a function of the prompt, the iteration and the mode; the kill switch is
    read once per iteration; the rendering of integers and floats and the search for
    `candidate=` in a reply are parameters. */
module RealRunner {
  import opened Text
  import opened Rounding

  // ---- Configuration.

  datatype Kind = Stub | Fake | Live

  datatype Limits = Limits(iterations: int, maxCalls: int, maxTokens: int, timeoutSeconds: real,
                           runCap: real, dailyCap: real, passThreshold: real)

  datatype Config = Config(live: bool, kind: Kind, limits: Limits)

  predicate LimitsOk(l: Limits) {
    && 2 <= l.iterations <= 50 && l.iterations * 2 <= l.maxCalls && l.maxTokens > 0 && l.timeoutSeconds > 0.0
    && 0.0 < l.passThreshold <= 1.0 && 0.0 < l.runCap <= l.dailyCap
  }

  method BuildConfig(live: bool, kind: Kind, l: Limits) returns (r: Result<Config>)
    ensures r.Ok? <==> LimitsOk(l)
    ensures r.Ok? ==> r.value.limits == l && r.value.kind == kind && (r.value.live <==> live || kind == Live)
  {
    if !(2 <= l.iterations <= 50) { return Err("iterations must be between 2 and 50"); }
    if l.maxCalls < l.iterations * 2 { return Err("max calls must cover both modes"); }
    if l.maxTokens <= 0 { return Err("max tokens must be positive"); }
    if l.timeoutSeconds <= 0.0 { return Err("timeout must be positive"); }
    if !(0.0 < l.passThreshold <= 1.0) { return Err("pass threshold must be in (0, 1]"); }
    if l.runCap <= 0.0 || l.dailyCap <= 0.0 { return Err("cost caps must be positive"); }
    if l.runCap > l.dailyCap { return Err("run cost cap cannot exceed daily cost cap"); }
    r := Ok(Config(live || kind == Live, kind, l));
  }

  // ---- Token estimation.

  // `len(text.split())`: a word starts at a character that follows a space or the beginning.
  function WordsAfter(s: string, spaced: bool): nat {
    if s == "" then 0
    else (if spaced && !IsSpace(s[0]) then 1 else 0) + WordsAfter(s[1..], IsSpace(s[0]))
  }

  function Words(s: string): nat { WordsAfter(s, true) }

  function Max(x: int, y: int): int { if x < y then y else x }

  function Min(x: int, y: int): int { if x < y then x else y }

  function EstimateTokens(s: string): (r: nat)
    ensures r >= 1
  {
    Max(1, Words(s) * 135 / 100 + Max(1, |s| / 18))
  }

  function EndsSpaced(s: string, spaced: bool): bool { if s == "" then spaced else IsSpace(s[|s| - 1]) }

  lemma {:induction false} WordsConcat(a: string, b: string, spaced: bool)
    ensures WordsAfter(a + b, spaced) == WordsAfter(a, spaced) + WordsAfter(b, EndsSpaced(a, spaced))
  {
    if a == "" {
      assert a + b == b;
    } else {
      assert (a + b)[0] == a[0] && (a + b)[1..] == a[1..] + b;
      WordsConcat(a[1..], b, IsSpace(a[0]));
    }
  }

  lemma WordsLess(b: string)
    ensures WordsAfter(b, true) <= WordsAfter(b, false) + 1
  {
  }

  lemma {:induction false} EndsInWord(a: string, spaced: bool)
    requires a != "" && !IsSpace(a[|a| - 1])
    ensures WordsAfter(a, spaced) >= if spaced then 1 else 0
  {
    if |a| > 1 { EndsInWord(a[1..], IsSpace(a[0])); }
  }

  lemma WordsEmbedded(a: string, b: string, c: string)
    ensures Words(b) <= Words(a + b + c)
  {
    WordsConcat(a + b, c, true);
    WordsConcat(a, b, true);
    if !EndsSpaced(a, true) {
      EndsInWord(a, true);
      WordsLess(b);
    }
  }

  lemma Scaled(x: nat, y: nat)
    requires x <= y
    ensures x * 135 / 100 <= y * 135 / 100 && x / 18 <= y / 18
  {
  }

  /** A text embedded in another never has the larger estimate. */
  lemma EstimateEmbedded(a: string, b: string, c: string)
    ensures EstimateTokens(b) <= EstimateTokens(a + b + c)
  {
    WordsEmbedded(a, b, c);
    Scaled(Words(b), Words(a + b + c));
    Scaled(|b|, |a + b + c|);
  }

  // ---- Prompts.

  datatype Mode = StatelessReread | StatefulStore

  function ModeText(mode: Mode): string { if mode == StatelessReread then "stateless_reread" else "stateful_store" }

  datatype Show = Show(number: int -> string, score: real -> string)

  datatype Trial = Trial(iteration: nat, candidate: int, score: real)

  function TrialText(e: Trial, show: Show): string {
    "{\"candidate\": " + show.number(e.candidate) + ", \"iteration\": " + show.number(e.iteration) +
    ", \"score\": " + show.score(e.score) + "}"
  }

  function HistoryText(history: seq<Trial>, show: Show): string {
    "[" + Join(seq(|history|, i requires 0 <= i < |history| => TrialText(history[i], show)), ", ") + "]"
  }

  // `max(history, key=score)`: the first entry with the highest score.
  function BestTrial(history: seq<Trial>): (e: Trial)
    requires history != []
    ensures e in history && forall x :: x in history ==> x.score <= e.score
  {
    if |history| == 1 then history[0]
    else
      var rest := BestTrial(history[1..]);
      if history[0].score >= rest.score then history[0] else rest
  }

  function RecentText(e: Trial, show: Show): string {
    show.number(e.iteration) + ":" + show.number(e.candidate) + ":" + show.score(e.score)
  }

  function SummarizeState(history: seq<Trial>, show: Show): string {
    if history == [] then "none"
    else
      var best := BestTrial(history);
      var recent := if |history| <= 2 then history else history[|history| - 2..];
      "best=" + show.number(best.candidate) + ":" + show.score(best.score) + ";recent=" +
      Join(seq(|recent|, i requires 0 <= i < |recent| => RecentText(recent[i], show)), ";")
  }

  const TASK := "Find an integer candidate from 0 to 25 that maximizes a hidden deterministic score."

  datatype Prompt = Prompt(text: string, context: nat, repeated: nat)

  // The text around the history, and the history itself.
  function Before(mode: Mode, iteration: nat, show: Show): string {
    if mode == StatelessReread then "Task: " + TASK + "\nIteration: " + show.number(iteration) + "\nFull prior compact history: "
    else "Task: " + TASK + "\nI:" + show.number(iteration) + "\nMemory:"
  }

  function Carried(mode: Mode, history: seq<Trial>, show: Show): string {
    if mode == StatelessReread then HistoryText(history, show) else SummarizeState(history, show)
  }

  function MakePrompt(mode: Mode, iteration: nat, history: seq<Trial>, show: Show): (p: Prompt)
    ensures 0 <= p.repeated <= p.context
  {
    var carried := Carried(mode, history, show);
    var text := Before(mode, iteration, show) + carried + "\nReturn candidate=<number>.";
    EstimateEmbedded(Before(mode, iteration, show), carried, "\nReturn candidate=<number>.");
    Prompt(text, EstimateTokens(text), if history != [] then EstimateTokens(carried) else 0)
  }

  // ---- Scores.

  function Abs(x: int): int { if x < 0 then -x else x }

  function Score(candidate: int): real {
    var raw := 1.0 - Abs(candidate - 17) as real / 25.0;
    Nearest((if raw < 0.0 then 0.0 else raw) * 1000.0) as real / 1000.0
  }

  lemma ScoreExact(candidate: int)
    requires -8 <= candidate <= 42
    ensures Score(candidate) == 1.0 - Abs(candidate - 17) as real / 25.0
  {
    var k := Abs(candidate - 17);
    var raw := 1.0 - k as real / 25.0;
    assert raw * 1000.0 == (1000 - 40 * k) as real;
  }

  lemma ScoreRange(candidate: int)
    ensures 0.0 <= Score(candidate) <= 1.0
  {
    var raw := 1.0 - Abs(candidate - 17) as real / 25.0;
    var x := if raw < 0.0 then 0.0 else raw;
    NearestMonotone(0.0, x * 1000.0);
    NearestMonotone(x * 1000.0, 1000.0);
  }

  // ---- The loop.

  datatype Reply = Reply(text: string, inputTokens: nat, outputTokens: nat, cost: real)

  datatype World = World(provider: (string, nat, Mode) -> Reply, killed: nat -> bool, show: Show, parse: string -> Option<int>)

  datatype Step = Step(reply: Reply, context: nat, repeated: nat, candidate: int, score: real)

  function Fallback(iteration: nat): int { Min(17, 7 + iteration * 2) }

  function Candidate(w: World, text: string, iteration: nat): int {
    match w.parse(text)
    case None => Fallback(iteration)
    case Some(n) => Max(0, Min(25, n))
  }

  function HistoryOf(steps: seq<Step>): (h: seq<Trial>)
    ensures |h| == |steps|
  {
    seq(|steps|, i requires 0 <= i < |steps| => Trial(i, steps[i].candidate, steps[i].score))
  }

  // The step that follows the given ones.
  function NextStep(w: World, mode: Mode, steps: seq<Step>): (s: Step)
    ensures s.repeated <= s.context
  {
    var p := MakePrompt(mode, |steps|, HistoryOf(steps), w.show);
    var reply := w.provider(p.text, |steps|, mode);
    var candidate := Candidate(w, reply.text, |steps|);
    Step(reply, p.context, p.repeated, candidate, Score(candidate))
  }

  /** The first `k` steps of a run that nothing stops. */
  function Steps(w: World, mode: Mode, k: nat): (r: seq<Step>)
    ensures |r| == k
  {
    if k == 0 then [] else var before := Steps(w, mode, k - 1); before + [NextStep(w, mode, before)]
  }

  function Tokens(steps: seq<Step>): nat {
    if steps == [] then 0
    else Tokens(steps[..|steps| - 1]) + steps[|steps| - 1].reply.inputTokens + steps[|steps| - 1].reply.outputTokens
  }

  function Cost(steps: seq<Step>): real {
    if steps == [] then 0.0 else Cost(steps[..|steps| - 1]) + steps[|steps| - 1].reply.cost
  }

  function Best(steps: seq<Step>): real {
    if steps == [] then 0.0
    else var b := Best(steps[..|steps| - 1]); if b < steps[|steps| - 1].score then steps[|steps| - 1].score else b
  }

  predicate WithinCaps(steps: seq<Step>, l: Limits) {
    Tokens(steps) <= l.maxTokens && Cost(steps) <= l.runCap && Cost(steps) <= l.dailyCap
  }

  /** The first `k` iterations go on: none is killed, over a cap, or already passing. */
  predicate GoesOn(w: World, mode: Mode, l: Limits, k: nat) { forall j :: 0 <= j < k ==> Continues(w, mode, l, j) }

  predicate Continues(w: World, mode: Mode, l: Limits, j: nat) {
    !w.killed(j) && WithinCaps(Steps(w, mode, j + 1), l) && Best(Steps(w, mode, j + 1)) < l.passThreshold
  }

  datatype Run = Run(steps: seq<Step>, best: real, passed: bool)

  // How a run that stops after `k` steps ended well, or in iteration `k` with an error.
  predicate Finished(w: World, mode: Mode, l: Limits, run: Run) {
    var k := |run.steps|;
    && 1 <= k <= l.iterations && run.steps == Steps(w, mode, k)
    && GoesOn(w, mode, l, k - 1) && !w.killed(k - 1) && WithinCaps(run.steps, l)
    && run.best == Best(run.steps) && (run.passed <==> run.best >= l.passThreshold)
    && (!run.passed ==> k == l.iterations)
  }

  predicate Stopped(w: World, mode: Mode, l: Limits, k: nat, error: string) {
    k < l.iterations && GoesOn(w, mode, l, k) &&
    if w.killed(k) then error == "kill switch is active"
    else !WithinCaps(Steps(w, mode, k + 1), l) &&
         error == if Tokens(Steps(w, mode, k + 1)) > l.maxTokens then "token limit exceeded" else "cost cap exceeded"
  }

  /** The run stops at the first iteration that meets the threshold, within the caps, or with
      the error of the first iteration that is killed or over a cap.  The call limit is never met. */
  method RunMode(w: World, mode: Mode, l: Limits) returns (r: Result<Run>)
    requires LimitsOk(l)
    ensures r.Ok? ==> Finished(w, mode, l, r.value)
    ensures r.Err? ==> r.error != "call limit exceeded" && exists k :: 0 <= k < l.iterations && Stopped(w, mode, l, k, r.error)
  {
    hide NextStep, WithinCaps, Steps, Tokens, Cost, Best, GoesOn;
    var steps: seq<Step> := [];
    var calls, tokens, cost, best, passed := 0, 0, 0.0, 0.0, false;
    var i := 0;
    NothingYet(w, mode, l);
    while i < l.iterations && !passed
      invariant 0 <= i <= l.iterations && calls == i
      invariant steps == Steps(w, mode, i) && tokens == Tokens(steps) && cost == Cost(steps) && best == Best(steps)
      invariant passed ==> i >= 1 && best >= l.passThreshold
      invariant !passed ==> best < l.passThreshold && GoesOn(w, mode, l, i)
      invariant i >= 1 ==> WithinCaps(steps, l) && !w.killed(i - 1) && GoesOn(w, mode, l, i - 1)
    {
      if w.killed(i) {
        assert Stopped(w, mode, l, i, "kill switch is active");
        return Err("kill switch is active");
      }
      if calls >= l.maxCalls { return Err("call limit exceeded"); }
      var step := NextStep(w, mode, steps);
      OneMore(w, mode, l, i);
      calls := calls + 1;
      tokens := tokens + step.reply.inputTokens + step.reply.outputTokens;
      cost := cost + step.reply.cost;
      if tokens > l.maxTokens {
        assert Stopped(w, mode, l, i, "token limit exceeded");
        return Err("token limit exceeded");
      }
      if cost > l.runCap || cost > l.dailyCap {
        assert Stopped(w, mode, l, i, "cost cap exceeded");
        return Err("cost cap exceeded");
      }
      best := if best < step.score then step.score else best;
      steps := steps + [step];
      passed := best >= l.passThreshold;
      i := i + 1;
    }
    r := Ok(Run(steps, best, passed));
  }

  lemma NothingYet(w: World, mode: Mode, l: Limits)
    ensures Steps(w, mode, 0) == [] && Tokens([]) == 0 && Cost([]) == 0.0 && Best([]) == 0.0 && GoesOn(w, mode, l, 0)
  {
  }

  // What one iteration adds.
  lemma OneMore(w: World, mode: Mode, l: Limits, i: nat)
    ensures var before := Steps(w, mode, i); var step := NextStep(w, mode, before); var after := Steps(w, mode, i + 1);
            && after == before + [step]
            && Tokens(after) == Tokens(before) + step.reply.inputTokens + step.reply.outputTokens
            && Cost(after) == Cost(before) + step.reply.cost
            && Best(after) == (if Best(before) < step.score then step.score else Best(before))
            && (WithinCaps(after, l) <==> Tokens(after) <= l.maxTokens && Cost(after) <= l.runCap && Cost(after) <= l.dailyCap)
            && (GoesOn(w, mode, l, i) && !w.killed(i) && WithinCaps(after, l) && Best(after) < l.passThreshold ==> GoesOn(w, mode, l, i + 1))
  {
    hide NextStep;
    var before := Steps(w, mode, i);
    var after := Steps(w, mode, i + 1);
    assert after[..i] == before;
  }

  // ---- The stub provider.

  function StubText(iteration: nat, show: Show): string {
    "candidate=" + show.number(Fallback(iteration)) + "; rationale=bounded deterministic stub"
  }

  function StubReply(prompt: string, iteration: nat, show: Show): Reply {
    Reply(StubText(iteration, show), EstimateTokens(prompt), EstimateTokens(StubText(iteration, show)), 0.0)
  }

  /** The provider is the stub, and its candidates are read back from its replies. */
  ghost predicate IsStub(w: World) {
    && (forall prompt, i, mode :: w.provider(prompt, i, mode) == StubReply(prompt, i, w.show))
    && (forall i :: w.parse(StubText(i, w.show)) == Some(Fallback(i)))
  }

  lemma StubStep(w: World, mode: Mode, steps: seq<Step>)
    requires IsStub(w)
    ensures var s := NextStep(w, mode, steps); s.candidate == Fallback(|steps|) && s.score == Score(Fallback(|steps|)) && s.reply.cost == 0.0
    ensures NextStep(w, mode, steps).reply.inputTokens == NextStep(w, mode, steps).context
  {
    hide EstimateTokens, MakePrompt, Score;
    var p := MakePrompt(mode, |steps|, HistoryOf(steps), w.show);
    assert w.provider(p.text, |steps|, mode) == StubReply(p.text, |steps|, w.show);
    PromptContext(mode, |steps|, HistoryOf(steps), w.show);
  }

  lemma PromptContext(mode: Mode, iteration: nat, history: seq<Trial>, show: Show)
    ensures var p := MakePrompt(mode, iteration, history, show); p.context == EstimateTokens(p.text)
  {
  }

  lemma FallbackGrows(i: nat)
    ensures 7 <= Fallback(i) <= Fallback(i + 1) <= 17 && 0.0 < Score(Fallback(i)) <= Score(Fallback(i + 1)) <= 1.0
  {
    ScoreExact(Fallback(i));
    ScoreExact(Fallback(i + 1));
  }

  lemma {:induction false} StubBest(w: World, mode: Mode, k: nat)
    requires IsStub(w) && k >= 1
    ensures Best(Steps(w, mode, k)) == Score(Fallback(k - 1)) && Cost(Steps(w, mode, k)) == 0.0
  {
    hide Score, NextStep, Fallback, IsStub, Best, Cost, Steps;
    var l := Limits(0, 0, 0, 0.0, 0.0, 0.0, 0.0);
    OneMore(w, mode, l, k - 1);
    StubStep(w, mode, Steps(w, mode, k - 1));
    NothingYet(w, mode, l);
    if k > 1 {
      StubBest(w, mode, k - 1);
      FallbackGrows(k - 2);
    } else {
      FallbackGrows(0);
    }
  }

  /** A stub run never costs anything, and passes exactly when its last candidate could. */
  lemma StubRun(w: World, mode: Mode, l: Limits, run: Run)
    requires LimitsOk(l) && IsStub(w) && Finished(w, mode, l, run)
    ensures Cost(run.steps) == 0.0 && run.best == Score(Fallback(|run.steps| - 1))
    ensures run.passed <==> l.passThreshold <= Score(Fallback(l.iterations - 1))
  {
    hide Score, NextStep, Fallback, IsStub, Best, Cost, Steps, WithinCaps, GoesOn;
    StubBest(w, mode, |run.steps|);
    GrowsTo(|run.steps| - 1, l.iterations - 1);
  }

  lemma {:induction false} GrowsTo(i: nat, j: nat)
    requires i <= j
    ensures Score(Fallback(i)) <= Score(Fallback(j))
    decreases j
  {
    hide Score, Fallback;
    if i < j {
      GrowsTo(i, j - 1);
      FallbackGrows(j - 1);
    }
  }

  // ---- A stub with decimal candidates.

  const PLAIN: Show := Show(n => if n < 0 then "-" + Decimal(-n) else Decimal(n), x => "0.0")

  function StubCandidate(n: nat): string { "candidate=" + Decimal(n) + "; rationale=bounded deterministic stub" }

  // The largest candidate up to `n` whose reply this is.
  function ReadCandidate(text: string, n: nat): Option<int> {
    if text == StubCandidate(n) then Some(n) else if n == 0 then None else ReadCandidate(text, n - 1)
  }

  const STUB_WORLD: World := World((prompt, i: nat, mode) => StubReply(prompt, i, PLAIN), i => false, PLAIN, text => ReadCandidate(text, 17))

  lemma CandidateInjective(a: nat, b: nat)
    requires StubCandidate(a) == StubCandidate(b)
    ensures a == b
  {
    var p, q, x, y := "candidate=", "; rationale=bounded deterministic stub", Decimal(a), Decimal(b);
    assert |x| == |y|;
    assert (p + x + q)[|p|..|p| + |x|] == x && (p + y + q)[|p|..|p| + |y|] == y;
    DecimalInjective(a, b);
  }

  lemma {:induction false} CandidateBack(a: nat, n: nat)
    requires a <= n
    ensures ReadCandidate(StubCandidate(a), n) == Some(a)
    decreases n
  {
    hide StubCandidate;
    if StubCandidate(a) == StubCandidate(n) { CandidateInjective(a, n); } else { CandidateBack(a, n - 1); }
  }

  lemma StubWorldIsStub()
    ensures IsStub(STUB_WORLD)
  {
    hide StubCandidate, ReadCandidate;
    forall i ensures STUB_WORLD.parse(StubText(i, PLAIN)) == Some(Fallback(i)) { FallbackBack(i); }
  }

  lemma FallbackBack(i: nat)
    ensures ReadCandidate(StubText(i, PLAIN), 17) == Some(Fallback(i))
  {
    hide ReadCandidate;
    CandidateBack(Fallback(i), 17);
    assert StubText(i, PLAIN) == StubCandidate(Fallback(i));
  }

  /** Below a threshold of 0.6 and with enough tokens, a stub run passes in its first iteration. */
  lemma FirstPasses(w: World, mode: Mode, l: Limits)
    requires LimitsOk(l) && IsStub(w) && !w.killed(0) && l.passThreshold <= 0.6 && Tokens(Steps(w, mode, 1)) <= l.maxTokens
    ensures Finished(w, mode, l, Run(Steps(w, mode, 1), 0.6, true))
  {
    hide IsStub, Steps, Score, Best, Cost, Tokens, Continues;
    StubBest(w, mode, 1);
    ScoreExact(7);
  }
}
