/** Batches of regression reports (scripts/token_efficiency_regression.py). */
module RegressionBatch {
  import opened Text
  import opened Scorecard
  import opened ScorecardBounds
  import opened ScorecardArtifact
  import opened Regression
  import O = Ordering

  datatype Batch = Batch(schema: string, registryId: string, registryHash: string, count: int, counts: map<Outcome, nat>,
                         readOnly: bool, reportOnly: bool, providerCalls: string, mutationAuthority: string, reports: seq<Report>)

  const BATCH_SCHEMA := "token_efficiency_regression_batch.v1"

  // A batch and the hash stored beside it; `digest` hashes everything but that field.
  datatype Sealed = Sealed(batch: Batch, hash: string)

  // ---- Outcome counts.

  function Get(counts: map<Outcome, nat>, o: Outcome): nat { if o in counts then counts[o] else 0 }

  function Tally(reports: seq<Report>): map<Outcome, nat> {
    if reports == [] then map[]
    else
      var before := Tally(reports[..|reports| - 1]);
      var o := reports[|reports| - 1].outcome;
      before[o := Get(before, o) + 1]
  }

  function Total(counts: map<Outcome, nat>): nat {
    Get(counts, Pass) + Get(counts, Regressed) + Get(counts, MissingBaseline) + Get(counts, MissingBestKnown) +
    Get(counts, Incomparable) + Get(counts, QualityFailure)
  }

  /** The counts of the six outcomes add up to the number of reports. */
  lemma {:induction false} TallyTotal(reports: seq<Report>)
    ensures Total(Tally(reports)) == |reports|
  {
    hide Total;
    if reports == [] {
      NoneCounted();
    } else {
      var before := reports[..|reports| - 1];
      TallyTotal(before);
      TotalBump(Tally(before), reports[|reports| - 1].outcome);
    }
  }

  lemma NoneCounted()
    ensures Total(map[]) == 0
  {
  }

  lemma TotalBump(counts: map<Outcome, nat>, o: Outcome)
    ensures Total(counts[o := Get(counts, o) + 1]) == Total(counts) + 1
  {
  }

  lemma {:induction false} TallyPositive(reports: seq<Report>)
    ensures forall o :: o in Tally(reports) <==> exists i :: 0 <= i < |reports| && reports[i].outcome == o
    ensures forall o :: o in Tally(reports) ==> Tally(reports)[o] >= 1
  {
    if reports != [] {
      var n := |reports| - 1;
      TallyPositive(reports[..n]);
      forall o ensures o in Tally(reports) <==> exists i :: 0 <= i < |reports| && reports[i].outcome == o {
        if o in Tally(reports[..n]) {
          var i :| 0 <= i < n && reports[..n][i].outcome == o;
          assert reports[i].outcome == o;
        }
        if i :| 0 <= i < |reports| && reports[i].outcome == o {
          if i < n { assert reports[..n][i].outcome == o; }
        }
      }
    }
  }

  method CountOutcomes(reports: seq<Report>) returns (counts: map<Outcome, nat>)
    ensures counts == Tally(reports)
  {
    counts := map[];
    var i := 0;
    while i < |reports|
      invariant 0 <= i <= |reports| && counts == Tally(reports[..i])
    {
      assert reports[..i + 1][..i] == reports[..i];
      counts := counts[reports[i].outcome := Get(counts, reports[i].outcome) + 1];
      i := i + 1;
    }
    assert reports[..i] == reports;
  }

  // ---- The validator.

  function Name(r: Report): O.Key { [r.scenarioId] }

  // The texts of the batch itself; its reports have their own check.
  predicate BatchFits(b: Batch, scan: Scanner) {
    && TextFits(b.schema, scan) && TextFits(b.registryId, scan) && TextFits(b.registryHash, scan) && TextFits(b.providerCalls, scan)
    && TextFits(b.mutationAuthority, scan) && |b.reports| <= MAX_ITEMS
  }

  predicate HeaderOk(b: Batch, scan: Scanner) {
    && BatchFits(b, scan) && b.schema == BATCH_SCHEMA && Identifier(b.registryId) && HexDigest(b.registryHash)
    && b.readOnly && b.reportOnly && b.providerCalls == "disabled" && b.mutationAuthority == "none"
    && 3 <= b.count <= 100 && |b.reports| == b.count
  }

  // Valid reports of one registry, in the order of their different scenarios.
  ghost predicate ReportsOk(reports: seq<Report>, registryId: string, registryHash: string, scan: Scanner, seal: Report -> string) {
    && (forall i :: 0 <= i < |reports| ==> ValidReport(reports[i], scan, seal))
    && O.SortedBy(reports, Name) && O.DistinctBy(reports, Name)
    && (forall i :: 0 <= i < |reports| ==> reports[i].registryId == registryId && reports[i].registryHash == registryHash)
  }

  ghost predicate ValidBatch(b: Batch, scan: Scanner, seal: Report -> string) {
    HeaderOk(b, scan) && ReportsOk(b.reports, b.registryId, b.registryHash, scan, seal) && b.counts == Tally(b.reports)
  }

  lemma SortedStrictly(s: seq<Report>)
    requires forall i :: 0 <= i < |s| - 1 ==> O.KeyLeq(Name(s[i]), Name(s[i + 1])) && s[i].scenarioId != s[i + 1].scenarioId
    ensures O.SortedBy(s, Name) && O.DistinctBy(s, Name)
  {
    hide O.KeyLeq;
    forall i, j | 0 <= i < j < |s| ensures O.KeyLeq(Name(s[i]), Name(s[j])) && Name(s[i]) != Name(s[j]) { StrictSteps(s, i, j); }
  }

  lemma {:induction false} StrictSteps(s: seq<Report>, i: nat, j: nat)
    requires forall i :: 0 <= i < |s| - 1 ==> O.KeyLeq(Name(s[i]), Name(s[i + 1])) && s[i].scenarioId != s[i + 1].scenarioId
    requires i < j < |s|
    ensures O.KeyLeq(Name(s[i]), Name(s[j])) && Name(s[i]) != Name(s[j])
    decreases j
  {
    hide O.KeyLeq;
    assert O.KeyLeq(Name(s[j - 1]), Name(s[j])) && s[j - 1].scenarioId != s[j].scenarioId;
    if i < j - 1 {
      StrictSteps(s, i, j - 1);
      O.KeyLeqTransitive(Name(s[i]), Name(s[j - 1]), Name(s[j]));
      if s[i].scenarioId == s[j].scenarioId {
        O.KeyLeqTotal(Name(s[i]), Name(s[j - 1]));
      }
    }
  }

  method SortedUnique(reports: seq<Report>) returns (ok: bool)
    ensures ok <==> O.SortedBy(reports, Name) && O.DistinctBy(reports, Name)
  {
    hide O.KeyLeq;
    var i := 0;
    while i + 1 < |reports|
      invariant i == 0 || 0 < i < |reports|
      invariant forall j :: 0 <= j < i ==> O.KeyLeq(Name(reports[j]), Name(reports[j + 1])) && reports[j].scenarioId != reports[j + 1].scenarioId
      decreases |reports| - i
    {
      if !O.KeyLeq(Name(reports[i]), Name(reports[i + 1])) || reports[i].scenarioId == reports[i + 1].scenarioId { return false; }
      i := i + 1;
    }
    SortedStrictly(reports);
    ok := true;
  }

  ghost predicate ValidSealed(s: Sealed, scan: Scanner, digest: Batch -> string, seal: Report -> string) {
    ValidBatch(s.batch, scan, seal) && TextFits(s.hash, scan) && HexDigest(s.hash) && s.hash == digest(s.batch)
  }

  method Validate(s: Sealed, scan: Scanner, digest: Batch -> string, seal: Report -> string) returns (ok: bool)
    ensures ok <==> ValidSealed(s, scan, digest, seal)
  {
    hide O.KeyLeq, Identifier, HexDigest, ValidReport, BATCH_SCHEMA, Tally, BatchFits, TextFits;
    var b := s.batch;
    if !BatchFits(b, scan) || !TextFits(s.hash, scan) { return false; }
    if b.schema != BATCH_SCHEMA || !Identifier(b.registryId) || !HexDigest(b.registryHash) { return false; }
    if !HexDigest(s.hash) || s.hash != digest(b) { return false; }
    if !b.readOnly || !b.reportOnly || b.providerCalls != "disabled" || b.mutationAuthority != "none" { return false; }
    if !(3 <= b.count <= 100) || |b.reports| != b.count { return false; }
    var i := 0;
    while i < |b.reports|
      invariant 0 <= i <= |b.reports|
      invariant forall j :: 0 <= j < i ==> ValidReport(b.reports[j], scan, seal)
    {
      if !ValidReport(b.reports[i], scan, seal) { return false; }
      i := i + 1;
    }
    var sorted := SortedUnique(b.reports);
    if !sorted { return false; }
    i := 0;
    while i < |b.reports|
      invariant 0 <= i <= |b.reports|
      invariant forall j :: 0 <= j < i ==> b.reports[j].registryId == b.registryId && b.reports[j].registryHash == b.registryHash
    {
      if b.reports[i].registryId != b.registryId || b.reports[i].registryHash != b.registryHash { return false; }
      i := i + 1;
    }
    var counts := CountOutcomes(b.reports);
    ok := b.counts == counts;
  }

  // ---- The builder.

  datatype Given = Given(current: Json, baseline: Option<Json>, best: Option<Json>)

  function IdOf(s: Scenario): O.Key { [s.id] }

  predicate Refused(g: Given, scan: Scanner, h: Hashing) { EvidenceRefused(g.current, g.baseline, g.best, scan, h) }

  // The reports of the scenarios, in order, each from its own evidence and valid alone.
  ghost predicate BuiltFrom(registry: Registry, sorted: seq<Scenario>, evidence: map<string, Given>, scan: Scanner, h: Hashing,
                            seal: Report -> string, reports: seq<Report>)
    requires Covered(sorted, evidence, scan)
  {
    |reports| == |sorted| && forall i :: 0 <= i < |reports| ==>
      var g := evidence[sorted[i].id];
      ReportOf(registry, sorted[i], g.current, g.baseline, g.best, scan, h, reports[i]) && ValidReport(reports[i], scan, seal)
  }

  ghost predicate Covered(sorted: seq<Scenario>, evidence: map<string, Given>, scan: Scanner) {
    forall i :: 0 <= i < |sorted| ==> sorted[i].id in evidence && ValidScenario(sorted[i], scan)
  }

  lemma SortedIds(registry: Registry, sorted: seq<Scenario>, evidence: map<string, Given>, scan: Scanner, h: Hashing,
                  seal: Report -> string, reports: seq<Report>)
    requires O.SortedBy(sorted, IdOf) && O.DistinctBy(sorted, IdOf)
    requires Covered(sorted, evidence, scan) && BuiltFrom(registry, sorted, evidence, scan, h, seal, reports)
    ensures |reports| == |sorted| && ReportsOk(reports, registry.id, registry.hash, scan, seal)
  {
    hide O.KeyLeq, ReadAs, Decide, ValidReport, ValidScenario, REPORT_SCHEMA;
    forall i | 0 <= i < |reports| ensures Name(reports[i]) == IdOf(sorted[i]) {}
    forall i, j | 0 <= i < j < |reports| ensures O.KeyLeq(Name(reports[i]), Name(reports[j])) && Name(reports[i]) != Name(reports[j]) {
      assert Name(reports[i]) == IdOf(sorted[i]) && Name(reports[j]) == IdOf(sorted[j]);
    }
  }

  lemma HeadFits(b: Batch, registry: Registry, hash: string, scan: Scanner)
    requires AdmitsReports(scan) && scan.cleanText(BATCH_SCHEMA) && ValidHead(registry, scan) && HexDigest(hash) && |b.reports| <= 100
    requires b.schema == BATCH_SCHEMA && b.registryId == registry.id && b.registryHash == registry.hash
    requires b.providerCalls == "disabled" && b.mutationAuthority == "none"
    ensures BatchFits(b, scan) && TextFits(hash, scan)
  {
    hide Admits, HexDigest, TextFits, ReasonCode, OutcomeText, REPORT_SCHEMA;
    assert |BATCH_SCHEMA| <= 64;
    hide BATCH_SCHEMA;
    ShortFits(b.schema, scan);
    ShortFits(b.registryId, scan);
    ShortFits(b.providerCalls, scan);
    ShortFits(b.mutationAuthority, scan);
    HexFits(b.registryHash, scan);
    HexFits(hash, scan);
  }

  /** The evidence names exactly the registered scenarios. */
  ghost predicate Covers(registry: Registry, evidence: map<string, Given>) {
    evidence.Keys == set i | 0 <= i < |registry.scenarios| :: registry.scenarios[i].id
  }

  /** One report for each registered scenario, in order, and the counts of their outcomes. */
  ghost predicate BatchOf(registry: Registry, evidence: map<string, Given>, scan: Scanner, h: Hashing, seal: Report -> string, b: Batch) {
    var sorted := O.SortBy(registry.scenarios, IdOf);
    && Total(b.counts) == b.count == |registry.scenarios|
    && Covered(sorted, evidence, scan) && BuiltFrom(registry, sorted, evidence, scan, h, seal, b.reports)
  }

  /** A batch is refused exactly when its evidence does not cover the registry, or some piece that
      is read is refused.  Every batch that is built passes its own validation, holds one report for
      each registered scenario, and its outcome counts add up to the number of scenarios. */
  method BuildBatch(registry: Registry, evidence: map<string, Given>, scan: Scanner, h: Hashing, digest: Batch -> string, seal: Report -> string)
    returns (r: Result<Sealed>)
    requires ValidRegistry(registry, scan) && Seals(seal) && Hashes(h) && AdmitsReports(scan) && scan.cleanText(BATCH_SCHEMA)
    requires forall b :: HexDigest(digest(b))
    ensures r.Err? <==> !Covers(registry, evidence) ||
                        exists s :: s in registry.scenarios && s.id in evidence && Refused(evidence[s.id], scan, h)
    ensures r.Ok? ==> ValidSealed(r.value, scan, digest, seal) && BatchOf(registry, evidence, scan, h, seal, r.value.batch)
  {
    hide O.SortBy, O.KeyLeq, O.SortedBy, O.DistinctBy, ValidScenario, Total, Tally, BuiltFrom, Refused, Seals, HexDigest, Identifier,
         BATCH_SCHEMA, ValidReport, AdmitsReports, Hashes, BatchFits, TextFits;
    var ids := set i | 0 <= i < |registry.scenarios| :: registry.scenarios[i].id;
    if evidence.Keys != ids { return Err("batch evidence coverage must exactly match registry scenarios"); }
    var sorted := O.SortBy(registry.scenarios, IdOf);
    SortedScenarios(registry, scan);
    var built := BuildReports(registry, sorted, evidence, scan, h, seal);
    if built.Err? { return Err("evidence is refused"); }
    var reports := built.value;
    var counts := CountOutcomes(reports);
    var b := Batch(BATCH_SCHEMA, registry.id, registry.hash, |reports|, counts, true, true, "disabled", "none", reports);
    TallyTotal(reports);
    SortedIds(registry, sorted, evidence, scan, h, seal, reports);
    var whole := Sealed(b, digest(b));
    HeadFits(b, registry, digest(b), scan);
    var ok := Validate(whole, scan, digest, seal);
    r := if ok then Ok(whole) else Err("batch is invalid");
  }

  method BuildReports(registry: Registry, sorted: seq<Scenario>, evidence: map<string, Given>, scan: Scanner, h: Hashing, seal: Report -> string)
    returns (r: Result<seq<Report>>)
    requires Covered(sorted, evidence, scan) && ValidHead(registry, scan) && Seals(seal) && Hashes(h) && AdmitsReports(scan)
    ensures r.Err? <==> exists i :: 0 <= i < |sorted| && Refused(evidence[sorted[i].id], scan, h)
    ensures r.Ok? ==> BuiltFrom(registry, sorted, evidence, scan, h, seal, r.value)
  {
    hide ReportOf, EvidenceRefused, ValidReport, ValidHead, Seals, Hashes, AdmitsReports, AllMetrics, Identifier, HexDigest;
    var reports: seq<Report> := [];
    var i := 0;
    while i < |sorted|
      invariant 0 <= i <= |sorted| && BuiltFrom(registry, sorted[..i], evidence, scan, h, seal, reports)
      invariant forall j :: 0 <= j < i ==> !Refused(evidence[sorted[j].id], scan, h)
    {
      var given := evidence[sorted[i].id];
      var report := BuildReport(registry, sorted[i], given.current, given.baseline, given.best, scan, h, seal);
      if report.Err? { return Err("evidence is refused"); }
      reports := reports + [report.value];
      i := i + 1;
    }
    assert sorted[..i] == sorted;
    r := Ok(reports);
  }

  lemma SortedScenarios(registry: Registry, scan: Scanner)
    requires ValidRegistry(registry, scan)
    ensures var sorted := O.SortBy(registry.scenarios, IdOf);
            && O.SortedBy(sorted, IdOf) && O.DistinctBy(sorted, IdOf) && |sorted| == |registry.scenarios|
            && (forall i :: 0 <= i < |sorted| ==> sorted[i] in registry.scenarios && ValidScenario(sorted[i], scan))
            && (forall s :: s in registry.scenarios ==> s in sorted)
  {
    hide O.SortBy, O.KeyLeq, ValidScenario;
    assert O.DistinctBy(registry.scenarios, IdOf);
    O.SortKeepsDistinct(registry.scenarios, IdOf);
    O.SortKeepsElements(registry.scenarios, IdOf);
  }
}
