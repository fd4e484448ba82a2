/** Owner evidence, results and reports of fault drills (scripts/fault_drill_contract.py).

    Hashes are functions of the value they cover; the byte bounds and the search for
    forbidden text are predicates of it. */
module Drill {
  import opened Text
  import O = Ordering

  datatype Verdict = Passed | Failed | Unsupported

  datatype Category = Recovery | Rollback | Integrity | Audit | Restart | Cleanup

  datatype Status = StatusPassed | FailedRecovery | FailedRollback | CleanupFailed | StatusUnsupported | InvalidScenario | Aborted

  datatype Scenario = Scenario(id: string, head: string, owner: string, resources: seq<string>, faultId: string, injection: string,
                               timeoutMs: int)

  datatype Check = Check(name: string, category: Category, outcome: Verdict, observation: string)

  datatype Evidence = Evidence(scenarioId: string, scenarioHash: string, head: string, faultId: string, injection: string,
                               identity: string, resources: seq<string>, before: string, fault: string, recovery: string,
                               checks: seq<Check>, cleanup: Verdict, cleanupNote: string)

  datatype Outcomes = Outcomes(recovery: Verdict, rollback: Verdict, integrity: Verdict, audit: Verdict, restart: Verdict, cleanup: Verdict)

  datatype DrillResult = DrillResult(scenarioId: string, scenarioHash: string, head: string, owner: string, resources: seq<string>,
                                     faultId: string, injection: string, timeoutMs: int, durationMs: int, exit: Option<int>,
                                     evidenceHash: Option<string>, evidence: Option<Evidence>, categories: Outcomes,
                                     cleanup: Verdict, status: Status, reasons: seq<string>)

  datatype Report = Report(suite: string, head: string, results: seq<DrillResult>, counts: map<Status, nat>, total: nat)

  // A report and the hash stored in it.
  datatype Sealed = Sealed(report: Report, hash: string)

  datatype Rules = Rules(scenarioHash: Scenario -> string, evidenceHash: Evidence -> string, reportHash: Report -> string,
                         evidenceFits: Evidence -> bool, resultFits: DrillResult -> bool, reportFits: Report -> bool)

  // ---- Scenarios.

  predicate CommitHash(s: string) { |s| == 40 && forall i :: 0 <= i < |s| ==> '0' <= s[i] <= '9' || 'a' <= s[i] <= 'f' }

  predicate Distinct(s: seq<string>) { forall i, j :: 0 <= i < j < |s| ==> s[i] != s[j] }

  predicate ValidScenario(s: Scenario) {
    CommitHash(s.head) && 1 <= |s.resources| <= 256 && Distinct(s.resources) && 1 <= s.timeoutMs <= 120000
  }

  // ---- Owner evidence.

  function AllParts(segments: seq<string>): set<string> {
    if segments == [] then {}
    else {segments[0]} + (set p | p in Split(segments[0], '_') && p != "") + AllParts(segments[1..])
  }

  // The segments of the scenario id between the first and the last, and their parts.
  function Markers(id: string): set<string> {
    var segments := Split(id, '.');
    if |segments| <= 2 then {} else AllParts(segments[1..|segments| - 1])
  }

  predicate Specific(name: string, markers: set<string>) { exists m :: m in markers && m != "" && m in Split(name, '.') }

  predicate NameOk(name: string, markers: set<string>) {
    name != "" && "pe6." <= name && !(|name| >= 10 && name[|name| - 10..] == "_invariant") && Specific(name, markers)
  }

  predicate Has(checks: seq<Check>, c: Category, v: Verdict) {
    exists i :: 0 <= i < |checks| && checks[i].category == c && checks[i].outcome == v
  }

  /** What the loop over the checks decides, whatever their order. */
  predicate ChecksOk(checks: seq<Check>, markers: set<string>) {
    && (forall i :: 0 <= i < |checks| ==> NameOk(checks[i].name, markers) && checks[i].observation != "")
    && (forall i, j :: 0 <= i < j < |checks| ==> checks[i].name != checks[j].name)
    && (forall c: Category :: !(Has(checks, c, Passed) && Has(checks, c, Unsupported)))
  }

  predicate Canned(s: string) {
    s in {"fixed owner test completed successfully", "existing recovery owner was observed through the fixed test seam",
          "previous known-good state remained bounded by the owner test"}
  }

  predicate Bound(e: Evidence, s: Scenario, rules: Rules) {
    && e.scenarioId == s.id && e.head == s.head && e.scenarioHash == rules.scenarioHash(s)
    && e.faultId == s.faultId && e.injection == s.injection && e.identity == s.owner
    && multiset(e.resources) == multiset(s.resources) && Distinct(e.resources)
  }

  predicate ValidEvidence(e: Evidence, s: Scenario, rules: Rules) {
    && ValidScenario(s) && Bound(e, s, rules)
    && (forall i :: 0 <= i < |e.resources| ==> e.resources[i] != "")
    && e.before != "" && e.fault != "" && e.recovery != "" && !Canned(e.before) && !Canned(e.fault) && !Canned(e.recovery)
    && 1 <= |e.checks| <= 512 && ChecksOk(e.checks, Markers(s.id))
    && e.cleanup != Unsupported && e.cleanupNote != "" && rules.evidenceFits(e)
  }

  function Seen(checks: seq<Check>, c: Category): set<Verdict> { set i | 0 <= i < |checks| && checks[i].category == c :: checks[i].outcome }

  method ValidateChecks(checks: seq<Check>, markers: set<string>) returns (ok: bool)
    ensures ok <==> ChecksOk(checks, markers)
  {
    hide NameOk, Has, Seen;
    var names: set<string> := {};
    var seen: map<Category, set<Verdict>> :=
      map[Recovery := {}, Rollback := {}, Integrity := {}, Audit := {}, Restart := {}, Cleanup := {}];
    NothingSeen(checks);
    forall c: Category ensures c in seen && seen[c] == Seen(checks[..0], c) { EveryCategory(c); }
    var i := 0;
    while i < |checks|
      invariant 0 <= i <= |checks|
      invariant names == set j | 0 <= j < i :: checks[j].name
      invariant forall c: Category :: c in seen && seen[c] == Seen(checks[..i], c)
      invariant forall j :: 0 <= j < i ==> NameOk(checks[j].name, markers) && checks[j].observation != ""
      invariant forall j, k :: 0 <= j < k < i ==> checks[j].name != checks[k].name
    {
      var check := checks[i];
      if check.name in names || !NameOk(check.name, markers) || check.observation == "" { return false; }
      names := names + {check.name};
      SeenOneMore(checks, i);
      seen := seen[check.category := seen[check.category] + {check.outcome}];
      i := i + 1;
    }
    assert checks[..i] == checks;
    ok := AllConsistent(seen);
    forall c: Category ensures Consistent(seen, c) <==> !(Has(checks, c, Passed) && Has(checks, c, Unsupported)) {
      SeenHas(checks, c, Passed);
      SeenHas(checks, c, Unsupported);
    }
  }

  method AllConsistent(seen: map<Category, set<Verdict>>) returns (ok: bool)
    ensures ok <==> forall c: Category :: Consistent(seen, c)
  {
    hide Consistent;
    ok := Consistent(seen, Recovery) && Consistent(seen, Rollback) && Consistent(seen, Integrity) && Consistent(seen, Audit) &&
          Consistent(seen, Restart) && Consistent(seen, Cleanup);
    if ok { forall c: Category ensures Consistent(seen, c) { EveryCategory(c); } }
  }

  method ValidateOwnerEvidence(e: Evidence, s: Scenario, rules: Rules) returns (ok: bool)
    ensures ok <==> ValidEvidence(e, s, rules)
  {
    hide ChecksOk, Canned;
    if !ValidScenario(s) || !Bound(e, s, rules) { return false; }
    var i := 0;
    while i < |e.resources|
      invariant 0 <= i <= |e.resources| && forall j :: 0 <= j < i ==> e.resources[j] != ""
    {
      if e.resources[i] == "" { return false; }
      i := i + 1;
    }
    if e.before == "" || e.fault == "" || e.recovery == "" || Canned(e.before) || Canned(e.fault) || Canned(e.recovery) { return false; }
    if !(1 <= |e.checks| <= 512) { return false; }
    var checks := ValidateChecks(e.checks, Markers(s.id));
    ok := checks && e.cleanup != Unsupported && e.cleanupNote != "" && rules.evidenceFits(e);
  }

  predicate Consistent(seen: map<Category, set<Verdict>>, c: Category) { c in seen ==> !(Passed in seen[c] && Unsupported in seen[c]) }

  lemma EveryCategory(c: Category)
    ensures c == Recovery || c == Rollback || c == Integrity || c == Audit || c == Restart || c == Cleanup
  {
  }

  lemma NothingSeen(checks: seq<Check>)
    ensures forall c: Category :: Seen(checks[..0], c) == {}
  {
  }

  lemma SeenOneMore(checks: seq<Check>, i: nat)
    requires i < |checks|
    ensures forall c: Category :: Seen(checks[..i + 1], c) == Seen(checks[..i], c) + (if c == checks[i].category then {checks[i].outcome} else {})
  {
  }

  lemma SeenHas(checks: seq<Check>, c: Category, v: Verdict)
    ensures Has(checks, c, v) <==> v in Seen(checks, c)
  {
  }

  // ---- Category outcomes.

  function OutcomeOf(checks: seq<Check>, c: Category): Verdict {
    if Has(checks, c, Failed) then Failed else if Has(checks, c, Passed) then Passed else Unsupported
  }

  function CategoryOutcomes(checks: seq<Check>): Outcomes {
    Outcomes(OutcomeOf(checks, Recovery), OutcomeOf(checks, Rollback), OutcomeOf(checks, Integrity), OutcomeOf(checks, Audit),
             OutcomeOf(checks, Restart), OutcomeOf(checks, Cleanup))
  }

  predicate AnyFailed(o: Outcomes) {
    o.recovery == Failed || o.rollback == Failed || o.integrity == Failed || o.audit == Failed || o.restart == Failed || o.cleanup == Failed
  }

  predicate NoFailedCheck(checks: seq<Check>) { forall i :: 0 <= i < |checks| ==> checks[i].outcome != Failed }

  lemma AnyFailedExactly(checks: seq<Check>)
    ensures AnyFailed(CategoryOutcomes(checks)) <==> !NoFailedCheck(checks)
  {
  }

  lemma HasAt(checks: seq<Check>, i: nat)
    requires i < |checks|
    ensures Has(checks, checks[i].category, checks[i].outcome)
  {
  }

  // ---- Results.

  // `list(dict.fromkeys(reasons))`
  function Dedup(s: seq<string>): (r: seq<string>)
    ensures Distinct(r) && forall x :: x in r <==> x in s
  {
    if s == [] then []
    else
      var before := Dedup(s[..|s| - 1]);
      var last := s[|s| - 1];
      assert s == s[..|s| - 1] + [last];
      if last in before then before else before + [last]
  }

  predicate PassSupported(r: DrillResult) {
    && r.evidence.Some? && r.exit == Some(0)
    && r.cleanup == Passed && r.categories.cleanup == Passed && r.categories.recovery == Passed && !AnyFailed(r.categories)
  }

  predicate CleanupFailureBound(r: DrillResult) { r.cleanup == Failed || (r.evidence.Some? && r.evidence.value.cleanup == Failed) }

  // Embedded evidence against the result alone, when the scenario is not at hand.
  predicate BoundToResult(e: Evidence, r: DrillResult) {
    && e.scenarioId == r.scenarioId && e.scenarioHash == r.scenarioHash && e.head == r.head && e.identity == r.owner
    && multiset(e.resources) == multiset(r.resources) && e.faultId == r.faultId && e.injection == r.injection
  }

  predicate BoundToScenario(r: DrillResult, s: Scenario, rules: Rules) {
    && ValidScenario(s)
    && r.scenarioId == s.id && r.head == s.head && r.owner == s.owner && r.resources == s.resources && r.faultId == s.faultId
    && r.injection == s.injection && r.scenarioHash == rules.scenarioHash(s) && r.timeoutMs == s.timeoutMs
  }

  predicate ValidResult(r: DrillResult, scenario: Option<Scenario>, rules: Rules) {
    && CommitHash(r.head) && 1 <= r.timeoutMs <= 120000 && 0 <= r.durationMs <= 150000
    && (r.evidence.None? ==> r.evidenceHash.None?)
    && (r.evidence.Some? ==>
          && (if scenario.Some? then ValidEvidence(r.evidence.value, scenario.value, rules) else BoundToResult(r.evidence.value, r))
          && r.evidenceHash == Some(rules.evidenceHash(r.evidence.value))
          && r.categories == CategoryOutcomes(r.evidence.value.checks))
    && r.cleanup != Unsupported
    && |r.reasons| <= 256 && Distinct(r.reasons) && (forall i :: 0 <= i < |r.reasons| ==> r.reasons[i] != "")
    && (r.status == StatusPassed ==> PassSupported(r))
    && (r.status == CleanupFailed ==> CleanupFailureBound(r))
    && (scenario.Some? ==> BoundToScenario(r, scenario.value, rules))
    && rules.resultFits(r)
  }

  function ResultFor(s: Scenario, durationMs: int, exit: Option<int>, evidence: Option<Evidence>, evidenceHash: Option<string>,
                     status: Status, reasons: seq<string>, cleanup: Verdict, rules: Rules): DrillResult
  {
    DrillResult(s.id, rules.scenarioHash(s), s.head, s.owner, s.resources, s.faultId, s.injection, s.timeoutMs, durationMs, exit,
                evidenceHash, evidence,
                if evidence.Some? then CategoryOutcomes(evidence.value.checks)
                else Outcomes(Unsupported, Unsupported, Unsupported, Unsupported, Unsupported, Unsupported),
                cleanup, status, Dedup(reasons))
  }

  /** A result that is valid for its scenario is valid on its own. */
  lemma ValidAlone(r: DrillResult, s: Scenario, rules: Rules)
    requires ValidResult(r, Some(s), rules)
    ensures ValidResult(r, None, rules)
  {
  }

  // ---- Reports.

  function Get(counts: map<Status, nat>, s: Status): nat { if s in counts then counts[s] else 0 }

  function NoCounts(): map<Status, nat> {
    map[StatusPassed := 0, FailedRecovery := 0, FailedRollback := 0, CleanupFailed := 0, StatusUnsupported := 0, InvalidScenario := 0, Aborted := 0]
  }

  function Counted(results: seq<DrillResult>): map<Status, nat> {
    if results == [] then NoCounts()
    else
      var before := Counted(results[..|results| - 1]);
      var s := results[|results| - 1].status;
      before[s := Get(before, s) + 1]
  }

  function Total(c: map<Status, nat>): nat {
    Get(c, StatusPassed) + Get(c, FailedRecovery) + Get(c, FailedRollback) + Get(c, CleanupFailed) + Get(c, StatusUnsupported) +
    Get(c, InvalidScenario) + Get(c, Aborted)
  }

  lemma NoTotal()
    ensures Total(NoCounts()) == 0
  {
  }

  lemma TotalBump(c: map<Status, nat>, s: Status)
    ensures Total(c[s := Get(c, s) + 1]) == Total(c) + 1
  {
  }

  /** The counts of the seven statuses add up to the number of results. */
  lemma {:induction false} CountsTotal(results: seq<DrillResult>)
    ensures Total(Counted(results)) == |results|
  {
    hide Total, NoCounts;
    if results == [] {
      NoTotal();
    } else {
      CountsTotal(results[..|results| - 1]);
      TotalBump(Counted(results[..|results| - 1]), results[|results| - 1].status);
    }
  }

  function Name(r: DrillResult): O.Key { [r.scenarioId] }

  function ReportFor(suite: string, head: string, results: seq<DrillResult>): Report {
    var sorted := O.SortBy(results, Name);
    Report(suite, head, sorted, Counted(sorted), |sorted|)
  }

  predicate Reportable(suite: string, head: string, results: seq<DrillResult>, rules: Rules) {
    && suite != "" && CommitHash(head) && results != []
    && (forall i :: 0 <= i < |results| ==> ValidResult(results[i], None, rules) && results[i].head == head)
    && rules.reportFits(ReportFor(suite, head, results))
  }

  method BuildReport(suite: string, head: string, results: seq<DrillResult>, rules: Rules) returns (r: Result<Sealed>)
    ensures r.Ok? <==> Reportable(suite, head, results, rules)
    ensures r.Ok? ==> var report := ReportFor(suite, head, results); r.value == Sealed(report, rules.reportHash(report))
  {
    hide ValidResult, CommitHash, O.SortBy, O.SortedBy;
    if suite == "" || !CommitHash(head) || results == [] { return Err("invalid report"); }
    var sorted := O.SortBy(results, Name);
    O.SortKeepsElements(results, Name);
    var counts := NoCounts();
    var i := 0;
    while i < |sorted|
      invariant 0 <= i <= |sorted| && counts == Counted(sorted[..i])
      invariant forall j :: 0 <= j < i ==> ValidResult(sorted[j], None, rules) && sorted[j].head == head
    {
      if !ValidResult(sorted[i], None, rules) || sorted[i].head != head {
        assert sorted[i] in results;
        return Err("result mismatch");
      }
      assert sorted[..i + 1][..i] == sorted[..i];
      counts := counts[sorted[i].status := Get(counts, sorted[i].status) + 1];
      i := i + 1;
    }
    assert sorted[..i] == sorted;
    forall j | 0 <= j < |results| ensures ValidResult(results[j], None, rules) && results[j].head == head {
      assert results[j] in sorted;
    }
    var report := Report(suite, head, sorted, counts, |sorted|);
    if !rules.reportFits(report) { return Err("out of bounds"); }
    r := Ok(Sealed(report, rules.reportHash(report)));
  }

  method ValidateReport(s: Sealed, rules: Rules) returns (ok: bool)
    ensures ok <==> Reportable(s.report.suite, s.report.head, s.report.results, rules) && s.hash == rules.reportHash(s.report) &&
                    s.report == ReportFor(s.report.suite, s.report.head, s.report.results)
  {
    hide Reportable, ReportFor;
    if s.hash != rules.reportHash(s.report) { return false; }
    var rebuilt := BuildReport(s.report.suite, s.report.head, s.report.results, rules);
    ok := rebuilt.Ok? && rebuilt.value == s;
  }

  /** Sorting again changes nothing, so a built report rebuilds to itself; its counts add up
      to its total. */
  lemma RebuiltReport(suite: string, head: string, results: seq<DrillResult>, rules: Rules)
    requires Reportable(suite, head, results, rules)
    ensures var report := ReportFor(suite, head, results);
            && Reportable(suite, head, report.results, rules)
            && ReportFor(suite, head, report.results) == report
            && Total(report.counts) == report.total == |results|
  {
    hide ValidResult, CommitHash, O.SortBy, Total;
    var sorted := O.SortBy(results, Name);
    O.SortOfSorted(sorted, Name);
    O.SortKeepsElements(results, Name);
    CountsTotal(sorted);
    forall j | 0 <= j < |sorted| ensures ValidResult(sorted[j], None, rules) && sorted[j].head == head {
      assert sorted[j] in results;
    }
  }

  /** Every report that is built is accepted, and its counts add up to the number of results. */
  method BuildAndValidate(suite: string, head: string, results: seq<DrillResult>, rules: Rules) returns (r: Result<Sealed>, ok: bool)
    ensures r.Ok? <==> Reportable(suite, head, results, rules)
    ensures r.Ok? ==> ok && Total(r.value.report.counts) == r.value.report.total == |results|
  {
    hide Reportable, ReportFor, Total;
    ok := false;
    r := BuildReport(suite, head, results, rules);
    if r.Ok? {
      RebuiltReport(suite, head, results, rules);
      SameIdentity(suite, head, results);
      ok := ValidateReport(r.value, rules);
    }
  }

  lemma SameIdentity(suite: string, head: string, results: seq<DrillResult>)
    ensures ReportFor(suite, head, results).suite == suite && ReportFor(suite, head, results).head == head
  {
  }
}
