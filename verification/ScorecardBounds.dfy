/** What import keeps is bounded and clean wherever its input is
    (scripts/token_efficiency_scorecard.py). */
module ScorecardBounds {
  import opened Sets
  import opened Text
  import opened Scorecard
  import opened ScorecardNormal

  // ---- Bounds of a normalised scorecard.

  lemma FewKeys()
    ensures |CopiedKeys() + GroupNames()| <= MAX_FIELDS
  {
    var a, b, c := RunStrings(), RunNumbers(), {QualityScore, EstimatedCostUsd};
    assert |a| <= 11 && |b| <= 10 && |c| <= 2 && |GroupNames()| <= 5;
    UnionSize(a, b);
    UnionSize(a + b, c);
    UnionSize(CopiedKeys(), GroupNames());
  }

  predicate Scalar(v: Json) { !v.Arr? && !v.Obj? }

  lemma ScalarBounded(v: Json, d: nat, e: nat)
    requires Scalar(v) && Bounded(v, d) && e <= MAX_DEPTH
    ensures Bounded(v, e)
  {
  }

  lemma FieldBounded(f: Fields, d: nat, k: Key)
    requires Bounded(Obj(f), d) && k in f
    ensures Bounded(f[k], d + 1)
  {
  }

  // The nested values that import keeps are those of a step's optional fields.
  predicate StepFits(step: Json, d: nat) {
    step.Obj? ==> forall k :: k in StepOptional() && k in step.fields ==> Bounded(step.fields[k], d + 3)
  }

  predicate StepsFit(f: Fields, d: nat) { forall i :: 0 <= i < |StepItems(f)| ==> StepFits(StepItems(f)[i], d) }

  lemma DigestBounded(s: string, d: nat)
    requires |s| <= 256 && d <= MAX_DEPTH
    ensures Bounded(Str(s), d)
  {
    Utf8Short(s);
  }

  lemma SubmapBounded(f: Fields, n: Fields, d: nat)
    requires n.Keys <= f.Keys && |f| <= MAX_FIELDS && d <= MAX_DEPTH
    requires forall k :: k in n ==> (k.Other? ==> |Utf8(k.name)| <= MAX_STRING) && Bounded(n[k], d + 1)
    ensures Bounded(Obj(n), d)
  {
    SubsetSize(n.Keys, f.Keys);
    assert |n.Keys| == |n| && |f.Keys| == |f|;
  }

  lemma ContractBounded(c: Fields, d: nat, e: nat)
    requires ContractShape(c) && Bounded(Obj(c), d) && e < MAX_DEPTH
    ensures Bounded(Obj(NormalContract(c)), e)
  {
    hide ContractStrings, ContractNumbers, NormalContract, Strip, Bounded;
    var n := NormalContract(c);
    forall k | k in n ensures !k.Other? && k in c && Bounded(n[k], e + 1) {
      ContractOnly(c, k);
      NormalContractAt(c, k);
      FieldBounded(c, d, k);
      if k == ScenarioDigest || k == TaskDigest {
        DigestBounded(LowerDigest(TextOf(c, k)), e + 1);
      } else {
        if k in ContractStrings() { assert HasText(c, k); } else { assert HasCount(c, k); }
        ScalarBounded(c[k], d + 1, e + 1);
      }
    }
    FewFields(c, d);
    SubmapBounded(c, n, e);
  }

  lemma FewFields(c: Fields, d: nat)
    requires Bounded(Obj(c), d)
    ensures |c| <= MAX_FIELDS
  {
  }

  lemma ContractOnly(c: Fields, k: Key)
    requires ContractShape(c) && k in NormalContract(c)
    ensures k in ContractStrings() + ContractNumbers() && !k.Other?
  {
    hide ContractShape;
  }

  lemma ProvenanceBounded(p: Fields, d: nat, e: nat)
    requires ProvenanceOk(map[EvidenceProvenance := Obj(p)]) && Bounded(Obj(p), d) && e < MAX_DEPTH
    ensures Bounded(Obj(NormalProvenance(p)), e)
  {
    hide Strip, Bounded, Digest;
    var n := NormalProvenance(p);
    forall k | k in n ensures !k.Other? && k in p && Bounded(n[k], e + 1) {
      FieldBounded(p, d, k);
      if k == SourceCaptureSha256 {
        DigestLength(TextOf(p, k));
        DigestBounded(LowerDigest(TextOf(p, k)), e + 1);
      } else {
        ScalarBounded(p[k], d + 1, e + 1);
      }
    }
    FewFields(p, d);
    SubmapBounded(p, n, e);
  }

  lemma DigestLength(s: string)
    requires Digest(s)
    ensures |s| == 64
  {
  }

  lemma StepOnly(step: Json, k: Key)
    requires step.Obj? && k in NormalStep(step).fields
    ensures k in step.fields && !k.Other? && NormalStep(step).fields[k] == step.fields[k]
    ensures k in StepStrings() + StepNumbers() || k in StepOptional()
  {
  }

  lemma StepScalar(step: Json, runId: string, index: nat, k: Key)
    requires StepOk(step, runId, index) && k in StepStrings() + StepNumbers()
    ensures k in step.fields && Scalar(step.fields[k])
  {
  }

  lemma StepBounded(step: Json, runId: string, index: nat, b: nat, d: nat)
    requires StepOk(step, runId, index) && Bounded(step, b) && d + 3 <= MAX_DEPTH
    ensures Bounded(NormalStep(step), d + 2) <==> StepFits(step, d)
  {
    hide StepStrings, StepNumbers, StepOptional, StepOk, NormalStep, Bounded;
    StepIsObject(step, runId, index);
    var f := step.fields;
    var n := NormalStep(step).fields;
    if StepFits(step, d) {
      forall k | k in n ensures !k.Other? && Bounded(n[k], d + 3) {
        StepOnly(step, k);
        if k !in StepOptional() {
          StepScalar(step, runId, index, k);
          FieldBounded(f, b, k);
          ScalarBounded(f[k], b + 1, d + 3);
        }
      }
      StepSubset(step);
      FewFields(f, b);
      SubmapBounded(f, n, d + 2);
    }
    if Bounded(NormalStep(step), d + 2) {
      forall k | k in StepOptional() && k in f ensures Bounded(f[k], d + 3) {
        OptionalKept(step, k);
        FieldBounded(n, d + 2, k);
      }
    }
  }

  lemma StepIsObject(step: Json, runId: string, index: nat)
    requires StepOk(step, runId, index)
    ensures step.Obj? && NormalStep(step).Obj?
  {
  }

  lemma StepSubset(step: Json)
    requires step.Obj?
    ensures NormalStep(step).fields.Keys <= step.fields.Keys
  {
  }

  lemma OptionalKept(step: Json, k: Key)
    requires step.Obj? && k in StepOptional() && k in step.fields
    ensures k in NormalStep(step).fields && NormalStep(step).fields[k] == step.fields[k]
  {
  }

  lemma StepsBounded(f: Fields, d: nat)
    requires FieldsOk(f) && Bounded(Obj(f), 0) && d + 3 <= MAX_DEPTH && Steps in Normalized(f)
    ensures Bounded(Normalized(f)[Steps], d + 1) <==> StepsFit(f, d)
  {
    hide Normalized, NormalStep, StepOk, StepFits, RunOk, ContractOk, CostOk, ProvenanceOk, DerivedOk;
    Groups(f);
    var items := StepItems(f);
    var out := NormalSteps(items);
    FieldBounded(f, 0, Steps);
    assert |items| <= MAX_ITEMS;
    forall i | 0 <= i < |items| ensures Bounded(out[i], d + 2) <==> StepFits(items[i], d) {
      StepBounded(items[i], TextOf(f, AdapterRunId), i, 2, d);
    }
    assert Bounded(Arr(out), d + 1) <==> forall i :: 0 <= i < |out| ==> Bounded(out[i], d + 2);
  }

  lemma RunScalar(f: Fields, k: Key)
    requires FieldsOk(f) && k in CopiedKeys() && k in f
    ensures Scalar(f[k])
  {
    hide RunStrings, RunNumbers, Strip, ContractOk, CostOk, ProvenanceOk, StepsOk, DerivedOk;
    if k in RunStrings() { assert HasText(f, k); }
    else if k in RunNumbers() { assert HasCount(f, k); }
  }

  lemma NumbersBounded(n: Fields, d: nat)
    requires d < MAX_DEPTH && (EstimatedCostUsd in n ==> Scalar(n[EstimatedCostUsd]) && !n[EstimatedCostUsd].Str?)
    ensures Bounded(Obj(Derived(n)), d)
  {
    hide Derived;
    DerivedCount(n);
    forall k | k in Derived(n) ensures !k.Other? && Bounded(Derived(n)[k], d + 1) {
      MetricIsNumber(n, k);
      NumberBounded(Derived(n)[k], d + 1);
    }
  }

  lemma DerivedCount(n: Fields)
    ensures |Derived(n)| <= 7
  {
  }

  lemma MetricIsNumber(n: Fields, k: Key)
    requires (EstimatedCostUsd in n ==> Scalar(n[EstimatedCostUsd]) && !n[EstimatedCostUsd].Str?) && k in Derived(n)
    ensures !k.Other? && Scalar(Derived(n)[k]) && !Derived(n)[k].Str?
  {
    hide Ratio;
  }

  lemma CostScalar(f: Fields)
    requires FieldsOk(f)
    ensures var b := BeforeDerived(f); EstimatedCostUsd in b ==> Scalar(b[EstimatedCostUsd]) && !b[EstimatedCostUsd].Str?
  {
    hide FieldsOk, Normalized, BeforeDerived;
    CostField(f);
    CostTwice(f);
  }

  lemma ContractGroup(f: Fields, d: nat)
    requires FieldsOk(f) && Bounded(Obj(f), 0) && d + 3 <= MAX_DEPTH && ComparisonContract in f
    ensures f[ComparisonContract].Obj? && Bounded(Obj(NormalContract(f[ComparisonContract].fields)), d + 1)
  {
    hide *;
    ContractHeld(f);
    FieldBounded(f, 0, ComparisonContract);
    ContractBounded(f[ComparisonContract].fields, 1, d + 1);
  }

  lemma ProvenanceGroup(f: Fields, d: nat)
    requires FieldsOk(f) && Bounded(Obj(f), 0) && d + 3 <= MAX_DEPTH && EvidenceProvenance in f
    ensures f[EvidenceProvenance].Obj? && Bounded(Obj(NormalProvenance(f[EvidenceProvenance].fields)), d + 1)
  {
    hide *;
    ProvenanceHeld(f);
    FieldBounded(f, 0, EvidenceProvenance);
    ProvenanceBounded(f[EvidenceProvenance].fields, 1, d + 1);
  }

  lemma SchemaBounded(d: nat)
    requires d <= MAX_DEPTH
    ensures Bounded(Str(SCHEMA), d)
  {
    DigestBounded(SCHEMA, d);
  }

  lemma DerivedGroup(f: Fields, d: nat)
    requires FieldsOk(f) && d + 3 <= MAX_DEPTH
    ensures Bounded(Obj(Derived(BeforeDerived(f))), d + 1)
  {
    hide *;
    CostScalar(f);
    NumbersBounded(BeforeDerived(f), d + 1);
  }

  lemma GroupBounded(f: Fields, k: Key, d: nat)
    requires FieldsOk(f) && Bounded(Obj(f), 0) && d + 3 <= MAX_DEPTH
    requires k in GroupNames() && k != Steps && k in Normalized(f)
    ensures Bounded(Normalized(f)[k], d + 1)
  {
    hide *;
    GroupCases(k);
    if k == SchemaVersion {
      SchemaField(f);
      SchemaBounded(d + 1);
    } else if k == ComparisonContract {
      ContractAt(f);
      ContractGroup(f, d);
    } else if k == EvidenceProvenance {
      ProvenanceAt(f);
      ProvenanceGroup(f, d);
    } else {
      DerivedAt(f);
      DerivedGroup(f, d);
    }
  }

  lemma CopiedBounded(f: Fields, k: Key, d: nat)
    requires FieldsOk(f) && Bounded(Obj(f), 0) && d + 3 <= MAX_DEPTH
    requires k in CopiedKeys() && k in Normalized(f)
    ensures Bounded(Normalized(f)[k], d + 1)
  {
    hide Normalized, BeforeDerived, Bounded, FieldsOk, CopiedKeys;
    if k == EstimatedCostUsd {
      CostScalar(f);
      CostField(f);
      NumberBounded(Normalized(f)[k], d + 1);
    } else {
      CopiedSame(f, k);
      RunScalar(f, k);
      FieldBounded(f, 0, k);
      ScalarBounded(f[k], 1, d + 1);
    }
  }

  lemma NumberBounded(v: Json, d: nat)
    requires Scalar(v) && !v.Str? && d <= MAX_DEPTH
    ensures Bounded(v, d)
  {
  }

  /** A normalised scorecard is bounded at depth `d` exactly when the optional step fields it kept are. */
  lemma NormalizedBounded(f: Fields, d: nat)
    requires FieldsOk(f) && Bounded(Obj(f), 0) && d + 3 <= MAX_DEPTH
    ensures Bounded(Obj(Normalized(f)), d) <==> StepsFit(f, d)
  {
    hide Normalized, FieldsOk, CopiedKeys, GroupNames, StepFits;
    var n := Normalized(f);
    OnlyKnown(f);
    FewKeys();
    SubsetSize(n.Keys, CopiedKeys() + GroupNames());
    assert |n| == |n.Keys|;
    forall k | k in n && k != Steps ensures Bounded(n[k], d + 1) {
      if k in CopiedKeys() { CopiedBounded(f, k, d); } else { GroupBounded(f, k, d); }
    }
    NoOther(f);
    if Steps in n {
      StepsBounded(f, d);
    } else {
      StepsAbsent(f);
    }
  }

  lemma StepsAbsent(f: Fields)
    requires FieldsOk(f) && Steps !in Normalized(f)
    ensures StepItems(f) == []
  {
    hide Normalized, FieldsOk;
    Groups(f);
  }

  lemma NoOther(f: Fields)
    ensures forall k :: k in Normalized(f) ==> !k.Other?
  {
    hide Normalized, CopiedKeys, GroupNames;
    OnlyKnown(f);
    forall k | k in Normalized(f) ensures !k.Other? { KnownKey(k); }
  }

  lemma KnownKey(k: Key)
    requires k in CopiedKeys() + GroupNames()
    ensures !k.Other?
  {
  }

  lemma ItemBounded(items: seq<Json>, d: nat, i: nat)
    requires Bounded(Arr(items), d) && i < |items|
    ensures Bounded(items[i], d + 1)
  {
  }

  lemma AtTheTop(f: Fields)
    requires Bounded(Obj(f), 0)
    ensures StepsFit(f, 0)
  {
    hide Bounded, StepOptional;
    forall i | 0 <= i < |StepItems(f)| ensures StepFits(StepItems(f)[i], 0) {
      var step := StepItems(f)[i];
      FieldBounded(f, 0, Steps);
      ItemBounded(StepItems(f), 1, i);
      if step.Obj? {
        forall k | k in StepOptional() && k in step.fields ensures Bounded(step.fields[k], 3) { FieldBounded(step.fields, 2, k); }
      }
    }
  }

  // ---- The scan.

  /** What the scanner is known to let through: the fixed texts and every digest. */
  ghost predicate Admits(scan: Scanner) {
    scan.cleanText(SCHEMA) && forall s :: Digest(s) ==> scan.cleanText(s)
  }

  lemma FieldClean(f: Fields, scan: Scanner, k: Key)
    requires Clean(Obj(f), scan) && k in f
    ensures Clean(f[k], scan)
  {
  }

  lemma ContractClean(c: Fields, scan: Scanner)
    requires ContractShape(c) && Clean(Obj(c), scan) && Admits(scan)
    ensures Clean(Obj(NormalContract(c)), scan)
  {
    hide ContractStrings, ContractNumbers, NormalContract, Strip, Digest;
    var n := NormalContract(c);
    forall k | k in n ensures !k.Other? && Clean(n[k], scan) {
      ContractOnly(c, k);
      NormalContractAt(c, k);
      FieldClean(c, scan, k);
      if k == ScenarioDigest || k == TaskDigest { LowerDigestOk(TextOf(c, k)); }
    }
  }

  lemma ProvenanceClean(p: Fields, scan: Scanner)
    requires ProvenanceOk(map[EvidenceProvenance := Obj(p)]) && Clean(Obj(p), scan) && Admits(scan)
    ensures Clean(Obj(NormalProvenance(p)), scan)
  {
    hide Strip, Digest;
    LowerDigestOk(TextOf(p, SourceCaptureSha256));
  }

  lemma StepClean(step: Json, scan: Scanner)
    requires Clean(step, scan)
    ensures Clean(NormalStep(step), scan)
  {
  }

  lemma DerivedClean(f: Fields, scan: Scanner)
    requires FieldsOk(f)
    ensures Clean(Obj(Derived(BeforeDerived(f))), scan)
  {
    hide Derived, BeforeDerived, FieldsOk;
    CostScalar(f);
    var m := Derived(BeforeDerived(f));
    forall k | k in m ensures !k.Other? && Clean(m[k], scan) { MetricIsNumber(BeforeDerived(f), k); }
  }

  lemma ContractCleanGroup(f: Fields, scan: Scanner)
    requires FieldsOk(f) && Clean(Obj(f), scan) && Admits(scan) && ComparisonContract in f
    ensures f[ComparisonContract].Obj? && Clean(Obj(NormalContract(f[ComparisonContract].fields)), scan)
  {
    hide FieldsOk, NormalContract, Clean, Admits, ContractShape;
    ContractHeld(f);
    FieldClean(f, scan, ComparisonContract);
    ContractClean(f[ComparisonContract].fields, scan);
  }

  lemma ProvenanceCleanGroup(f: Fields, scan: Scanner)
    requires FieldsOk(f) && Clean(Obj(f), scan) && Admits(scan) && EvidenceProvenance in f
    ensures f[EvidenceProvenance].Obj? && Clean(Obj(NormalProvenance(f[EvidenceProvenance].fields)), scan)
  {
    hide FieldsOk, NormalProvenance, ProvenanceOk, Clean, Admits;
    ProvenanceHeld(f);
    FieldClean(f, scan, EvidenceProvenance);
    ProvenanceClean(f[EvidenceProvenance].fields, scan);
  }

  lemma ItemClean(items: seq<Json>, scan: Scanner, i: nat)
    requires Clean(Arr(items), scan) && i < |items|
    ensures Clean(items[i], scan)
  {
  }

  lemma StepsClean(f: Fields, scan: Scanner)
    requires Clean(Obj(f), scan)
    ensures Clean(Arr(NormalSteps(StepItems(f))), scan)
  {
    hide NormalStep;
    var out := NormalSteps(StepItems(f));
    forall i | 0 <= i < |out| ensures Clean(out[i], scan) {
      FieldClean(f, scan, Steps);
      ItemClean(StepItems(f), scan, i);
      StepClean(StepItems(f)[i], scan);
    }
  }

  lemma KeyClean(f: Fields, scan: Scanner, k: Key)
    requires FieldsOk(f) && Clean(Obj(f), scan) && Admits(scan) && k in Normalized(f)
    ensures Clean(Normalized(f)[k], scan)
  {
    hide Normalized, BeforeDerived, Derived, NormalContract, NormalProvenance, NormalSteps, Clean, FieldsOk, CopiedKeys, Digest, StepItems;
    OnlyKnown(f);
    if k in GroupNames() {
      Groups(f);
      if k == SchemaVersion { SchemaField(f); TextIsClean(SCHEMA, scan); }
      else if k == ComparisonContract { ContractCleanGroup(f, scan); }
      else if k == EvidenceProvenance { ProvenanceCleanGroup(f, scan); }
      else if k == Steps { StepsClean(f, scan); }
      else { DerivedClean(f, scan); }
    } else if k == EstimatedCostUsd {
      CostScalar(f);
      CostField(f);
      NumberIsClean(Normalized(f)[k], scan);
    } else {
      CopiedSame(f, k);
      FieldClean(f, scan, k);
    }
  }

  lemma TextIsClean(s: string, scan: Scanner)
    requires scan.cleanText(s)
    ensures Clean(Str(s), scan)
  {
  }

  lemma NumberIsClean(v: Json, scan: Scanner)
    requires Scalar(v) && !v.Str?
    ensures Clean(v, scan)
  {
  }

  lemma NormalizedClean(f: Fields, scan: Scanner)
    requires FieldsOk(f) && Clean(Obj(f), scan) && Admits(scan)
    ensures Clean(Obj(Normalized(f)), scan)
  {
    hide Normalized, FieldsOk, Admits;
    NoOther(f);
    forall k | k in Normalized(f) ensures Clean(Normalized(f)[k], scan) { KeyClean(f, scan, k); }
  }

  /** Import is idempotent on every summary it accepts. */
  lemma ImportIdempotent(summary: Json, scan: Scanner)
    requires Admits(scan) && Import(summary, scan).Ok?
    ensures Import(Import(summary, scan).value, scan) == Import(summary, scan)
  {
    hide Normalized, FieldsOk, Bounded, Clean, Admits, StepsFit;
    var f := summary.fields;
    AtTheTop(f);
    NormalizedBounded(f, 0);
    NormalizedClean(f, scan);
    FieldsOkTwice(f);
    NormalizedTwice(f);
  }
}
