/** One fault drill (scripts/fault_drill_harness.py).

    The environment check, the owner command, the evidence file and the removal of the
    disposable directory are values of the world. */
module DrillHarness {
  import opened Text
  import opened Drill
  import P = DrillProtocol

  // What the command did, or that running it raised.
  datatype Command = Raised | Outcome(exit: Option<int>, timedOut: bool, outputExceeded: bool)

  // What the evidence file holds: nothing readable, or a value in canonical form or not; or
  // that reading it raised an error of the system.
  datatype File = Unreadable | Broken | Holds(evidence: Evidence, canonical: bool)

  datatype World = World(supported: bool, command: Command, durationMs: int, file: File, cleanupOk: bool)

  predicate Readable(f: File, s: Scenario, rules: Rules) { f.Holds? && f.canonical && ValidEvidence(f.evidence, s, rules) }

  predicate Succeeded(w: World) { w.supported && w.command.Outcome? && !w.command.timedOut && !w.command.outputExceeded && w.command.exit == Some(0) }

  function EvidenceOf(w: World, s: Scenario, rules: Rules): Option<Evidence> {
    if Succeeded(w) && Readable(w.file, s, rules) then Some(w.file.evidence) else None
  }

  /** The status before the harness cleans up. */
  function StatusOf(w: World, s: Scenario, rules: Rules): Status {
    if !w.supported then StatusUnsupported
    else if w.command.Raised? || w.command.timedOut || w.command.outputExceeded then Aborted
    else if w.command.exit != Some(0) then FailedRecovery
    else if w.file.Broken? then Aborted
    else if !Readable(w.file, s, rules) then FailedRecovery
    else
      var e := w.file.evidence;
      if e.cleanup != Passed then CleanupFailed
      else if !NoFailedCheck(e.checks) then (if Has(e.checks, Rollback, Failed) then FailedRollback else FailedRecovery)
      else StatusPassed
  }

  function FinalStatus(w: World, s: Scenario, rules: Rules): Status { if w.cleanupOk then StatusOf(w, s, rules) else CleanupFailed }

  function DurationOf(w: World): int { if w.supported && w.command.Outcome? then w.durationMs else 0 }

  function ExitOf(w: World): Option<int> { if w.supported && w.command.Outcome? then w.command.exit else None }

  /** The reasons, in order. */
  function ReasonsOf(w: World, s: Scenario, rules: Rules): seq<string> {
    if !w.supported then ["UNSUPPORTED_ENVIRONMENT"]
    else if w.command.Raised? then ["DRILL_ABORTED"]
    else if w.command.timedOut then ["DRILL_TIMEOUT"]
    else if w.command.outputExceeded then ["OWNER_OUTPUT_BOUNDS_EXCEEDED"]
    else if w.command.exit != Some(0) then ["OWNER_TEST_FAILED"]
    else if w.file.Broken? then ["DRILL_ABORTED"]
    else if !Readable(w.file, s, rules) then ["OWNER_EVIDENCE_INVALID"]
    else if w.file.evidence.cleanup != Passed then ["OWNER_CLEANUP_FAILED"]
    else if !NoFailedCheck(w.file.evidence.checks) then ["OWNER_CHECK_FAILED"]
    else ["DRILL_PASSED", "OWNER_EVIDENCE_VERIFIED"]
  }

  function FinalReasons(w: World, s: Scenario, rules: Rules): seq<string> {
    if w.cleanupOk then ReasonsOf(w, s, rules) else ReasonsOf(w, s, rules) + ["HARNESS_CLEANUP_FAILED"]
  }

  /** The result the drill builds once it has its reservation. */
  function ResultOf(w: World, s: Scenario, rules: Rules): DrillResult {
    var e := EvidenceOf(w, s, rules);
    ResultFor(s, DurationOf(w), ExitOf(w), e, if e.Some? then Some(rules.evidenceHash(e.value)) else None,
              FinalStatus(w, s, rules), FinalReasons(w, s, rules), if w.cleanupOk then Passed else Failed, rules)
  }

  function RefusedResult(s: Scenario, rules: Rules): DrillResult {
    ResultFor(s, 0, None, None, None, InvalidScenario, ["RESOURCE_ID_CONFLICT"], Passed, rules)
  }

  method FindFailed(checks: seq<Check>) returns (failed: set<Category>)
    ensures forall c :: c in failed <==> Has(checks, c, Failed)
  {
    failed := {};
    var i := 0;
    while i < |checks|
      invariant 0 <= i <= |checks|
      invariant forall c :: c in failed <==> exists j :: 0 <= j < i && checks[j].category == c && checks[j].outcome == Failed
    {
      if checks[i].outcome == Failed { failed := failed + {checks[i].category}; }
      i := i + 1;
    }
  }

  lemma NoneFailed(checks: seq<Check>, failed: set<Category>)
    requires forall c :: c in failed <==> Has(checks, c, Failed)
    ensures failed == {} <==> NoFailedCheck(checks)
  {
    if NoFailedCheck(checks) {
      forall c ensures c !in failed {}
    } else {
      var i :| 0 <= i < |checks| && checks[i].outcome == Failed;
      HasAt(checks, i);
    }
  }

  /** Runs one drill against the shared reservations.  On every path that returns, the
      reservations are as before; an error stands for a result that its own check refuses. */
  method RunScenario(shared: P.Reservations, s: Scenario, w: World, rules: Rules) returns (r: Result<DrillResult>)
    modifies shared
    ensures shared.active == old(shared.active)
    ensures var free := forall i :: 0 <= i < |s.resources| ==> s.resources[i] !in old(shared.active);
            var result := if free then ResultOf(w, s, rules) else RefusedResult(s, rules);
            r == if ValidResult(result, Some(s), rules) then Ok(result) else Err("invalid result")
  {
    hide ValidResult, ValidEvidence, Has, NoFailedCheck, ResultFor;
    var ok := shared.TryReserve(s.resources);
    if !ok {
      var refused := RefusedResult(s, rules);
      return if ValidResult(refused, Some(s), rules) then Ok(refused) else Err("invalid result");
    }
    var evidence: Option<Evidence> := None;
    var hash: Option<string> := None;
    var exit: Option<int> := None;
    var duration := 0;
    var status, reasons := FailedRecovery, ["OWNER_EVIDENCE_INVALID"];
    if !w.supported {
      status, reasons := StatusUnsupported, ["UNSUPPORTED_ENVIRONMENT"];
    } else if w.command.Raised? {
      status, reasons := Aborted, ["DRILL_ABORTED"];
    } else {
      exit, duration := w.command.exit, w.durationMs;
      if w.command.timedOut {
        status, reasons := Aborted, ["DRILL_TIMEOUT"];
      } else if w.command.outputExceeded {
        status, reasons := Aborted, ["OWNER_OUTPUT_BOUNDS_EXCEEDED"];
      } else if exit != Some(0) {
        status, reasons := FailedRecovery, ["OWNER_TEST_FAILED"];
      } else if w.file.Broken? {
        status, reasons := Aborted, ["DRILL_ABORTED"];
      } else if w.file.Unreadable? || !w.file.canonical {
        status, reasons := FailedRecovery, ["OWNER_EVIDENCE_INVALID"];
      } else {
        var valid := ValidateOwnerEvidence(w.file.evidence, s, rules);
        if !valid {
          status, reasons := FailedRecovery, ["OWNER_EVIDENCE_INVALID"];
        } else {
          var e := w.file.evidence;
          evidence, hash := Some(e), Some(rules.evidenceHash(e));
          var failed := FindFailed(e.checks);
          NoneFailed(e.checks, failed);
          if e.cleanup != Passed {
            status, reasons := CleanupFailed, ["OWNER_CLEANUP_FAILED"];
          } else if failed != {} {
            status, reasons := if Rollback in failed then FailedRollback else FailedRecovery, ["OWNER_CHECK_FAILED"];
          } else {
            status, reasons := StatusPassed, ["DRILL_PASSED", "OWNER_EVIDENCE_VERIFIED"];
          }
        }
      }
    }
    shared.Release(s.resources);
    Restored(old(shared.active), s.resources);
    if !w.cleanupOk {
      status, reasons := CleanupFailed, reasons + ["HARNESS_CLEANUP_FAILED"];
    }
    var result := ResultFor(s, duration, exit, evidence, hash, status, reasons, if w.cleanupOk then Passed else Failed, rules);
    r := if ValidResult(result, Some(s), rules) then Ok(result) else Err("invalid result");
  }

  lemma Restored(active: set<string>, ids: seq<string>)
    requires forall i :: 0 <= i < |ids| ==> ids[i] !in active
    ensures active + P.Elements(ids) - P.Elements(ids) == active
  {
  }

  // ---- What a returned result means.

  lemma ReasonsFit(w: World, s: Scenario, rules: Rules)
    ensures var r := Dedup(FinalReasons(w, s, rules)); |r| <= 256 && Distinct(r) && forall i :: 0 <= i < |r| ==> r[i] != ""
  {
    hide Readable, NoFailedCheck, Dedup;
    var s0 := FinalReasons(w, s, rules);
    var r := Dedup(s0);
    DedupShorter(s0);
    forall x | x in s0 ensures x != "" {}
    forall i | 0 <= i < |r| ensures r[i] != "" { assert r[i] in r; }
  }

  lemma {:induction false} DedupShorter(s: seq<string>)
    ensures |Dedup(s)| <= |s|
  {
    if s != [] { DedupShorter(s[..|s| - 1]); }
  }

  /** The result is returned exactly when the scenario is valid, the duration is in range, the
      result fits, and a pass has its recovery and cleanup categories passed. */
  lemma ReturnsExactly(w: World, s: Scenario, rules: Rules)
    ensures var r := ResultOf(w, s, rules);
            ValidResult(r, Some(s), rules) <==>
            && ValidScenario(s) && 0 <= r.durationMs <= 150000 && rules.resultFits(r)
            && (r.status == StatusPassed ==> r.categories.recovery == Passed && r.categories.cleanup == Passed)
  {
    hide CommitHash, ChecksOk, Canned, CategoryOutcomes, FinalReasons, Dedup, Distinct;
    ReasonsFit(w, s, rules);
    if EvidenceOf(w, s, rules).Some? { AnyFailedExactly(w.file.evidence.checks); }
  }

  /** A drill that is returned as passed ran its owner to exit 0, has evidence bound to its
      scenario without a failed check, proves recovery and cleanup, and was cleaned up. */
  lemma PassedMeans(w: World, s: Scenario, rules: Rules)
    requires var r := ResultOf(w, s, rules); ValidResult(r, Some(s), rules) && r.status == StatusPassed
    ensures var r := ResultOf(w, s, rules);
            && r.exit == Some(0) && r.evidence.Some? && ValidEvidence(r.evidence.value, s, rules)
            && r.evidenceHash == Some(rules.evidenceHash(r.evidence.value))
            && NoFailedCheck(r.evidence.value.checks) && r.evidence.value.cleanup == Passed
            && Has(r.evidence.value.checks, Recovery, Passed) && Has(r.evidence.value.checks, Cleanup, Passed)
            && r.cleanup == Passed && w.cleanupOk
  {
    hide ValidEvidence, CommitHash, Dedup, FinalReasons, Distinct, Has, NoFailedCheck;
  }

  /** A failed harness cleanup overrides every other status, and is always returned when the
      duration and the size are in range. */
  lemma FailedCleanupOverrides(w: World, s: Scenario, rules: Rules)
    requires !w.cleanupOk
    ensures ResultOf(w, s, rules).status == CleanupFailed
    ensures ValidScenario(s) && 0 <= DurationOf(w) <= 150000 && rules.resultFits(ResultOf(w, s, rules)) ==>
              ValidResult(ResultOf(w, s, rules), Some(s), rules)
  {
    hide ValidResult, ValidScenario, EvidenceOf, FinalReasons, Dedup, CategoryOutcomes, StatusOf;
    ReturnsExactly(w, s, rules);
  }

  /** A refused drill never passes, and its result is always returned. */
  lemma RefusedMeans(s: Scenario, rules: Rules)
    ensures RefusedResult(s, rules).status == InvalidScenario && RefusedResult(s, rules).evidence.None?
    ensures ValidResult(RefusedResult(s, rules), Some(s), rules) <==> ValidScenario(s) && rules.resultFits(RefusedResult(s, rules))
  {
  }

  /** Every result a drill returns can be reported. */
  lemma ReturnedIsReportable(w: World, s: Scenario, rules: Rules, r: DrillResult)
    requires r == ResultOf(w, s, rules) || r == RefusedResult(s, rules)
    requires ValidResult(r, Some(s), rules)
    ensures ValidResult(r, None, rules) && r.head == s.head
  {
  }
}
