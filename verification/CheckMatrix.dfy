/** The required-check matrix (scripts/project_context.py). */
module CheckMatrix {
  import opened Sets
  import opened Text

  // ---- Names.

  datatype Required =
    | PythonTests | RustTests | PgIntegrationTests | TypescriptTests | NativeRuntime | DockerBuild | Cutover | ExactHead | ContextCapsule

  const ALL: set<Required> :=
    {PythonTests, RustTests, PgIntegrationTests, TypescriptTests, NativeRuntime, DockerBuild, Cutover, ExactHead, ContextCapsule}

  // The checks that the matrix lists, in order.
  const SOURCE: seq<Required> :=
    [PythonTests, RustTests, PgIntegrationTests, TypescriptTests, NativeRuntime, DockerBuild, Cutover, ExactHead]

  function NameOf(r: Required): string {
    match r
    case PythonTests => "python-tests"
    case RustTests => "rust-tests"
    case PgIntegrationTests => "pg-integration-tests"
    case TypescriptTests => "typescript-tests"
    case NativeRuntime => "native-runtime"
    case DockerBuild => "docker-build"
    case Cutover => "rust-typescript-cutover"
    case ExactHead => "exact-head-check"
    case ContextCapsule => "context-capsule"
  }

  function Lookup(name: string): Option<Required> {
    if name in {"exact-head-check", "exact-head", "exact-head-check / exact-head", "exact-head / exact-head-check"} then Some(ExactHead)
    else if name == "python-tests" then Some(PythonTests)
    else if name == "rust-tests" then Some(RustTests)
    else if name == "pg-integration-tests" then Some(PgIntegrationTests)
    else if name == "typescript-tests" then Some(TypescriptTests)
    else if name == "native-runtime" then Some(NativeRuntime)
    else if name == "docker-build" then Some(DockerBuild)
    else if name == "rust-typescript-cutover" then Some(Cutover)
    else if name == "context-capsule" then Some(ContextCapsule)
    else None
  }

  function Canonical(name: string): Option<Required> { Lookup(Strip(name)) }

  lemma LookupName(r: Required)
    ensures Lookup(NameOf(r)) == Some(r)
  {
    var n := NameOf(r);
    assert n[0] == (match r case PythonTests => 'p' case RustTests => 'r' case PgIntegrationTests => 'p' case TypescriptTests => 't'
                            case NativeRuntime => 'n' case DockerBuild => 'd' case Cutover => 'r' case ExactHead => 'e' case ContextCapsule => 'c');
  }

  lemma NameStripped(r: Required)
    ensures Strip(NameOf(r)) == NameOf(r)
  {
  }

  /** A required name is its own canonical name; so a name without one is no required name. */
  lemma CanonicalName(r: Required)
    ensures Canonical(NameOf(r)) == Some(r)
  {
    hide Lookup, Strip, NameOf;
    NameStripped(r);
    LookupName(r);
  }

  // ---- Checks.

  // The fields that are read; an empty text stands for a missing one.
  datatype Check = Check(name: string, context: string, workflow: string, conclusion: string)

  function Upper(c: char): char { if 'a' <= c <= 'z' then (c as int - 32) as char else c }

  function UpperText(s: string): string { seq(|s|, i requires 0 <= i < |s| => Upper(s[i])) }

  function Label(c: Check): string {
    if c.name != "" then c.name else if c.context != "" then c.context else if c.workflow != "" then c.workflow else "unnamed-check"
  }

  predicate FailedText(s: string) {
    s in {"ACTION_REQUIRED", "CANCELLED", "FAILURE", "SKIPPED", "STALE", "STARTUP_FAILURE", "TIMED_OUT"}
  }

  datatype Outcome = Success | Failed | Pending

  function OutcomeOf(c: Check): Outcome {
    if UpperText(c.conclusion) == "SUCCESS" then Success else if FailedText(UpperText(c.conclusion)) then Failed else Pending
  }

  function RequiredOf(c: Check): Option<Required> { Canonical(Label(c)) }

  // ---- The summary.

  datatype State = StateFailed | StatePending | Incomplete | StateSuccess | Unavailable

  datatype Summary = Summary(state: State, successful: set<string>, failed: set<string>, pending: set<string>,
                             missing: set<Required>, incomplete: set<Required>, raw: map<Required, set<string>>)

  function Labels(checks: seq<Check>, o: Outcome): set<string> { set i | 0 <= i < |checks| && OutcomeOf(checks[i]) == o :: Label(checks[i]) }

  function RawNames(checks: seq<Check>, r: Required): set<string> {
    set i | 0 <= i < |checks| && RequiredOf(checks[i]) == Some(r) :: Label(checks[i])
  }

  predicate Observed(checks: seq<Check>, r: Required) { exists i :: 0 <= i < |checks| && RequiredOf(checks[i]) == Some(r) }

  predicate ObservedAs(checks: seq<Check>, r: Required, o: Outcome) {
    exists i :: 0 <= i < |checks| && RequiredOf(checks[i]) == Some(r) && OutcomeOf(checks[i]) == o
  }

  function StateOf(failed: set<string>, pending: set<string>, missing: set<Required>, incomplete: set<Required>, succeeded: set<Required>): State {
    if failed != {} then StateFailed
    else if pending != {} || incomplete != {} then StatePending
    else if missing != {} then Incomplete
    else if ALL <= succeeded then StateSuccess
    else Unavailable
  }

  /** The state as a function of the four sets that are reported; it is never unavailable. */
  function ReportedState(failed: set<string>, pending: set<string>, missing: set<Required>, incomplete: set<Required>): State {
    if failed != {} then StateFailed
    else if pending != {} || incomplete != {} then StatePending
    else if missing != {} then Incomplete
    else StateSuccess
  }

  /** What the summary says of the checks, whatever their order. */
  ghost predicate Summarizes(s: Summary, checks: seq<Check>) {
    && s.successful == Labels(checks, Success) && s.failed == Labels(checks, Failed) && s.pending == Labels(checks, Pending)
    && s.raw.Keys == ALL && (forall r :: r in s.raw ==> s.raw[r] == RawNames(checks, r))
    && (forall r: Required :: r in s.missing <==> !Observed(checks, r))
    && (forall r: Required :: r in s.incomplete <==> Observed(checks, r) && !ObservedAs(checks, r, Success))
    && (s.state == StateSuccess <==> (forall i :: 0 <= i < |checks| ==> OutcomeOf(checks[i]) == Success) &&
                                     forall r: Required :: Observed(checks, r))
    && s.state == ReportedState(s.failed, s.pending, s.missing, s.incomplete)
  }

  // What the loop has gathered from some checks.
  ghost predicate Gathered(checks: seq<Check>, successful: set<string>, failed: set<string>, pending: set<string>,
                           observed: set<Required>, succeeded: set<Required>, raw: map<Required, set<string>>) {
    && successful == Labels(checks, Success) && failed == Labels(checks, Failed) && pending == Labels(checks, Pending)
    && raw.Keys == ALL && (forall r :: r in raw ==> raw[r] == RawNames(checks, r))
    && (forall r :: r in observed <==> Observed(checks, r))
    && (forall r :: r in succeeded <==> ObservedAs(checks, r, Success))
  }

  method SummarizeChecks(checks: seq<Check>) returns (s: Summary)
    ensures Summarizes(s, checks)
  {
    hide OutcomeOf, RequiredOf, Label, ALL, Labels, RawNames, Observed, ObservedAs, StateOf, Summarizes;
    var successful, failed, pending: set<string> := {}, {}, {};
    var observed, succeeded: set<Required> := {}, {};
    var raw: map<Required, set<string>> := map r: Required | r in ALL :: {};
    NoneGathered();
    var i := 0;
    while i < |checks|
      invariant 0 <= i <= |checks| && Gathered(checks[..i], successful, failed, pending, observed, succeeded, raw)
    {
      var check := checks[i];
      var name, required, outcome := Label(check), RequiredOf(check), OutcomeOf(check);
      OneMoreCheck(checks, i);
      if required.Some? {
        EveryRequired(required.value);
        observed := observed + {required.value};
        raw := raw[required.value := raw[required.value] + {name}];
      }
      if outcome == Success {
        successful := successful + {name};
        if required.Some? { succeeded := succeeded + {required.value}; }
      } else if outcome == Failed {
        failed := failed + {name};
      } else {
        pending := pending + {name};
      }
      i := i + 1;
    }
    assert checks[..i] == checks;
    var missing, incomplete := ALL - observed, observed - succeeded;
    s := Summary(StateOf(failed, pending, missing, incomplete, succeeded), successful, failed, pending, missing, incomplete, raw);
    GatheredSummarizes(checks, successful, failed, pending, observed, succeeded, raw);
  }

  lemma NoneGathered()
    ensures (forall o: Outcome :: Labels([], o) == {}) && (forall r: Required :: RawNames([], r) == {} && !Observed([], r))
    ensures forall r: Required, o: Outcome :: !ObservedAs([], r, o)
  {
  }

  lemma GatheredSummarizes(checks: seq<Check>, successful: set<string>, failed: set<string>, pending: set<string>,
                           observed: set<Required>, succeeded: set<Required>, raw: map<Required, set<string>>)
    requires Gathered(checks, successful, failed, pending, observed, succeeded, raw)
    ensures Summarizes(Summary(StateOf(failed, pending, ALL - observed, observed - succeeded, succeeded), successful, failed, pending,
                               ALL - observed, observed - succeeded, raw), checks)
  {
    hide OutcomeOf, RequiredOf, ALL, Labels, RawNames, Observed, ObservedAs, StateOf, ReportedState;
    StateMeans(checks, observed, succeeded);
    forall r: Required ensures r in ALL { EveryRequired(r); }
  }

  lemma EveryRequired(r: Required)
    ensures r in ALL
  {
  }

  lemma OneMoreCheck(checks: seq<Check>, i: nat)
    requires i < |checks|
    ensures var c := checks[i]; var a, b := checks[..i], checks[..i + 1];
            && (forall o: Outcome :: Labels(b, o) == Labels(a, o) + (if OutcomeOf(c) == o then {Label(c)} else {}))
            && (forall r: Required :: RawNames(b, r) == RawNames(a, r) + (if RequiredOf(c) == Some(r) then {Label(c)} else {}))
            && (forall r: Required :: Observed(b, r) <==> Observed(a, r) || RequiredOf(c) == Some(r))
            && (forall r: Required, o: Outcome :: ObservedAs(b, r, o) <==> ObservedAs(a, r, o) || (RequiredOf(c) == Some(r) && OutcomeOf(c) == o))
  {
    hide OutcomeOf, RequiredOf, Label;
    var a, b := checks[..i], checks[..i + 1];
    assert forall j :: 0 <= j < i ==> a[j] == b[j];
    assert b[i] == checks[i];
  }

  lemma StateMeans(checks: seq<Check>, observed: set<Required>, succeeded: set<Required>)
    requires forall r :: r in observed <==> Observed(checks, r)
    requires forall r :: r in succeeded <==> ObservedAs(checks, r, Success)
    ensures var s := StateOf(Labels(checks, Failed), Labels(checks, Pending), ALL - observed, observed - succeeded, succeeded);
            && s == ReportedState(Labels(checks, Failed), Labels(checks, Pending), ALL - observed, observed - succeeded)
            && (s == StateSuccess <==> (forall i :: 0 <= i < |checks| ==> OutcomeOf(checks[i]) == Success) && forall r: Required :: Observed(checks, r))
  {
    hide OutcomeOf, RequiredOf, Label;
    forall r: Required ensures r in ALL { EveryRequired(r); }
    forall i | 0 <= i < |checks| ensures Label(checks[i]) in Labels(checks, OutcomeOf(checks[i])) {}
    if forall i :: 0 <= i < |checks| ==> OutcomeOf(checks[i]) == Success {
      assert Labels(checks, Failed) == {} && Labels(checks, Pending) == {};
      forall r | r in observed ensures r in succeeded {
        var i :| 0 <= i < |checks| && RequiredOf(checks[i]) == Some(r);
        assert OutcomeOf(checks[i]) == Success;
      }
    }
    Differences(observed, succeeded);
  }

  lemma Differences(observed: set<Required>, succeeded: set<Required>)
    ensures ALL - observed == {} <==> forall r: Required :: r in observed
    ensures observed - succeeded == {} <==> observed <= succeeded
    ensures ALL <= succeeded <==> forall r: Required :: r in succeeded
  {
    forall r: Required ensures r in ALL { EveryRequired(r); }
    hide ALL;
    forall r: Required | r !in observed ensures r in ALL - observed {}
    forall r | r in observed && r !in succeeded ensures r in observed - succeeded {}
  }

  // ---- The matrix.

  datatype Conclusion = ConcludedFailed | ConcludedPending | ConcludedSuccess | Missing | NotApplicable

  datatype Row = Row(required: Required, observed: bool, conclusion: Conclusion, raw: set<string>)

  // The canonical names among the labels; a label without one is no required name.
  function Canonicals(labels: set<string>): set<Required> { set l | l in labels && Canonical(l).Some? :: Canonical(l).value }

  predicate Detached(event: string) { event == "push" || event == "workflow_dispatch" }

  function RowOf(s: Summary, r: Required, event: string): Row {
    var raw := if r in s.raw then s.raw[r] else {};
    var c := if r in Canonicals(s.failed) then ConcludedFailed
             else if r in Canonicals(s.pending) then ConcludedPending
             else if r in Canonicals(s.successful) then ConcludedSuccess
             else if raw != {} then ConcludedPending
             else Missing;
    Row(r, raw != {}, if r == ExactHead && c == Missing && Detached(event) then NotApplicable else c, raw)
  }

  function Matrix(s: Summary, event: string): (m: seq<Row>)
    ensures |m| == |SOURCE| && forall i :: 0 <= i < |SOURCE| ==> m[i] == RowOf(s, SOURCE[i], event)
  {
    seq(|SOURCE|, i requires 0 <= i < |SOURCE| => RowOf(s, SOURCE[i], event))
  }

  method BuildMatrix(s: Summary, event: string) returns (m: seq<Row>)
    ensures m == Matrix(s, event)
  {
    hide RowOf;
    m := [];
    var i := 0;
    while i < |SOURCE|
      invariant 0 <= i <= |SOURCE| && |m| == i && forall j :: 0 <= j < i ==> m[j] == RowOf(s, SOURCE[j], event)
    {
      m := m + [RowOf(s, SOURCE[i], event)];
      i := i + 1;
    }
  }

  predicate RowOk(e: Row, event: string) {
    && e.required in SOURCE
    && (e.conclusion == ConcludedSuccess || e.conclusion == NotApplicable)
    && (e.conclusion == ConcludedSuccess ==> e.observed && e.raw != {})
    && (e.conclusion == NotApplicable ==> e.required == ExactHead && Detached(event) && !e.observed && e.raw == {})
  }

  predicate MatrixOk(m: seq<Row>, event: string) {
    && |m| == |SOURCE| && (forall i :: 0 <= i < |m| ==> RowOk(m[i], event))
    && (forall i, j :: 0 <= i < j < |m| ==> m[i].required != m[j].required)
  }

  function Names(m: seq<Row>): set<Required> { set j | 0 <= j < |m| :: m[j].required }

  method IsMatrixSuccessful(m: seq<Row>, event: string) returns (ok: bool)
    ensures ok <==> MatrixOk(m, event)
  {
    hide RowOk, SOURCE;
    if |m| != |SOURCE| { return false; }
    var observed: set<Required> := {};
    var i := 0;
    while i < |m|
      invariant 0 <= i <= |m| && observed == Names(m[..i])
      invariant forall j :: 0 <= j < i ==> RowOk(m[j], event)
      invariant forall j, k :: 0 <= j < k < i ==> m[j].required != m[k].required
    {
      if !RowOk(m[i], event) || m[i].required in observed { return false; }
      assert Names(m[..i + 1]) == Names(m[..i]) + {m[i].required};
      observed := observed + {m[i].required};
      i := i + 1;
    }
    assert m[..i] == m;
    DistinctSize(m);
    AllObserved(m, observed, event);
    ok := observed == (set r | r in SOURCE);
  }

  lemma {:induction false} DistinctSize(m: seq<Row>)
    requires forall i, j :: 0 <= i < j < |m| ==> m[i].required != m[j].required
    ensures |Names(m)| == |m|
  {
    if m != [] {
      var before := m[..|m| - 1];
      DistinctSize(before);
      assert Names(m) == Names(before) + {m[|m| - 1].required};
    }
  }

  // Eight different required checks are all of them, so the last comparison never fails.
  lemma AllObserved(m: seq<Row>, observed: set<Required>, event: string)
    requires |m| == |SOURCE| == |observed| && observed == Names(m)
    requires forall j :: 0 <= j < |m| ==> RowOk(m[j], event)
    ensures observed == set r | r in SOURCE
  {
    var all := set r | r in SOURCE;
    assert all == {PythonTests, RustTests, PgIntegrationTests, TypescriptTests, NativeRuntime, DockerBuild, Cutover, ExactHead};
    assert |all| <= 8;
    assert observed <= all;
    SameSize(observed, all);
  }

  // ---- When the built matrix is successful.

  /** One required source check is satisfied by the observed checks. */
  predicate Satisfied(checks: seq<Check>, r: Required, event: string) {
    || (ObservedAs(checks, r, Success) && !ObservedAs(checks, r, Failed) && !ObservedAs(checks, r, Pending))
    || (r == ExactHead && !Observed(checks, r) && Detached(event))
  }

  lemma CanonicalsAre(checks: seq<Check>, o: Outcome, r: Required)
    ensures r in Canonicals(Labels(checks, o)) <==> ObservedAs(checks, r, o)
  {
  }

  lemma RawAre(checks: seq<Check>, r: Required)
    ensures RawNames(checks, r) != {} <==> Observed(checks, r)
  {
    hide RequiredOf, Label;
    if i :| 0 <= i < |checks| && RequiredOf(checks[i]) == Some(r) { assert Label(checks[i]) in RawNames(checks, r); }
  }

  lemma RowExactly(checks: seq<Check>, s: Summary, r: Required, event: string)
    requires Summarizes(s, checks) && r in SOURCE
    ensures RowOk(RowOf(s, r, event), event) <==> Satisfied(checks, r, event)
  {
    hide OutcomeOf, RequiredOf, Label, Labels, Canonicals, RawNames, Observed, ObservedAs, Detached;
    CanonicalsAre(checks, Success, r);
    CanonicalsAre(checks, Failed, r);
    CanonicalsAre(checks, Pending, r);
    RawAre(checks, r);
    SuccessIsObserved(checks, r);
  }

  lemma SuccessIsObserved(checks: seq<Check>, r: Required)
    ensures (exists o: Outcome :: ObservedAs(checks, r, o)) <==> Observed(checks, r)
  {
    hide OutcomeOf, RequiredOf;
    if i :| 0 <= i < |checks| && RequiredOf(checks[i]) == Some(r) {
      assert ObservedAs(checks, r, OutcomeOf(checks[i]));
    }
  }

  /** The matrix built from any checks is successful exactly when each required source check has
      a success and no other outcome, or is the exact-head check, unobserved, on a push or a
      dispatch. */
  lemma MatrixExactly(checks: seq<Check>, s: Summary, event: string)
    requires Summarizes(s, checks)
    ensures MatrixOk(Matrix(s, event), event) <==> forall r :: r in SOURCE ==> Satisfied(checks, r, event)
  {
    hide RowOf, RowOk, Satisfied, Summarizes;
    var m := Matrix(s, event);
    forall i | 0 <= i < |SOURCE| ensures RowOk(m[i], event) <==> Satisfied(checks, SOURCE[i], event) {
      RowExactly(checks, s, SOURCE[i], event);
    }
    forall i, j | 0 <= i < j < |m| ensures m[i].required != m[j].required {
      RowNamed(s, SOURCE[i], event);
      RowNamed(s, SOURCE[j], event);
    }
  }

  lemma RowNamed(s: Summary, r: Required, event: string)
    ensures RowOf(s, r, event).required == r
  {
  }

  /** The summary depends only on which checks there are: two summaries of the same checks, in
      any order and with any repetition, are equal, and so are their matrices. */
  lemma OrderFree(a: seq<Check>, b: seq<Check>, s: Summary, t: Summary, event: string)
    requires forall c :: c in a <==> c in b
    requires Summarizes(s, a) && Summarizes(t, b)
    ensures s == t && Matrix(s, event) == Matrix(t, event)
  {
    hide OutcomeOf, RequiredOf, Label, Matrix, ALL, ReportedState, Labels, RawNames, Observed, ObservedAs;
    forall o: Outcome ensures Labels(a, o) == Labels(b, o) { SameLabels(a, b, o); SameLabels(b, a, o); }
    forall r: Required ensures RawNames(a, r) == RawNames(b, r) { SameRaw(a, b, r); SameRaw(b, a, r); }
    forall r: Required ensures (r in s.missing <==> r in t.missing) && (r in s.incomplete <==> r in t.incomplete) {
      if Observed(a, r) { SameObserved(a, b, r); }
      if Observed(b, r) { SameObserved(b, a, r); }
      if ObservedAs(a, r, Success) { SameObservedAs(a, b, r, Success); }
      if ObservedAs(b, r, Success) { SameObservedAs(b, a, r, Success); }
    }
    assert s.missing == t.missing && s.incomplete == t.incomplete;
    assert s.raw == t.raw;
  }

  lemma SameRaw(a: seq<Check>, b: seq<Check>, r: Required)
    requires forall c :: c in a ==> c in b
    ensures RawNames(a, r) <= RawNames(b, r)
  {
    hide RequiredOf, Label;
    forall i | 0 <= i < |a| && RequiredOf(a[i]) == Some(r) ensures Label(a[i]) in RawNames(b, r) {
      assert a[i] in b;
      var j :| 0 <= j < |b| && b[j] == a[i];
    }
  }

  lemma SameLabels(a: seq<Check>, b: seq<Check>, o: Outcome)
    requires forall c :: c in a ==> c in b
    ensures Labels(a, o) <= Labels(b, o)
  {
    hide OutcomeOf, Label;
    forall i | 0 <= i < |a| && OutcomeOf(a[i]) == o ensures Label(a[i]) in Labels(b, o) {
      assert a[i] in b;
      var j :| 0 <= j < |b| && b[j] == a[i];
    }
  }

  lemma SameObserved(a: seq<Check>, b: seq<Check>, r: Required)
    requires (forall c :: c in a ==> c in b) && Observed(a, r)
    ensures Observed(b, r)
  {
    hide RequiredOf;
    var i :| 0 <= i < |a| && RequiredOf(a[i]) == Some(r);
    assert a[i] in b;
  }

  lemma SameObservedAs(a: seq<Check>, b: seq<Check>, r: Required, o: Outcome)
    requires (forall c :: c in a ==> c in b) && ObservedAs(a, r, o)
    ensures ObservedAs(b, r, o)
  {
    hide RequiredOf, OutcomeOf;
    var i :| 0 <= i < |a| && RequiredOf(a[i]) == Some(r) && OutcomeOf(a[i]) == o;
    assert a[i] in b;
  }
}
