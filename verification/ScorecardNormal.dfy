/** Importing a scorecard that import has already normalised changes nothing
    (scripts/token_efficiency_scorecard.py). */
module ScorecardNormal {
  import opened Text
  import opened Rounding
  import opened Scorecard

  // ---- Normalising twice.

  predicate Same(f: Fields, g: Fields, k: Key) { (k in f <==> k in g) && (k in f ==> f[k] == g[k]) }

  lemma GroupKeys()
    ensures {SchemaVersion, ComparisonContract, EvidenceProvenance, Steps, DerivedMetrics} !! CopiedKeys()
  {
  }

  lemma RunKeys()
    ensures RunStrings() + RunNumbers() + {QualityScore} <= CopiedKeys() - {EstimatedCostUsd} && EstimatedCostUsd in CopiedKeys()
  {
  }

  // Every copied field stands unchanged; the cost does when there is no contract.
  lemma CopiedSame(f: Fields, k: Key)
    requires k in CopiedKeys()
    requires k == EstimatedCostUsd ==> !(ComparisonContract in f && f[ComparisonContract].Obj?)
    ensures Same(Normalized(f), f, k) && Same(BeforeDerived(f), f, k)
  {
    hide CopiedKeys, NormalContract, DerivedCost, NormalProvenance, NormalSteps, Derived;
    GroupKeys();
  }

  lemma LowerDigestOk(s: string)
    requires Digest(s)
    ensures Digest(LowerDigest(s)) && LowerDigest(LowerDigest(s)) == LowerDigest(s) && Strip(LowerDigest(s)) != ""
  {
  }

  lemma ContractKeys()
    ensures {ScenarioDigest, TaskDigest, RuntimeKind, RuntimeVersion, QualityMethod} <= ContractStrings()
    ensures {QualityThreshold, Seed, InputCostPer1k, OutputCostPer1k} == ContractNumbers()
    ensures ContractStrings() !! ContractNumbers()
  {
  }

  lemma NormalContractAt(c: Fields, k: Key)
    requires ContractShape(c) && k in ContractStrings() + ContractNumbers()
    ensures k in c && k in NormalContract(c)
    ensures k != ScenarioDigest && k != TaskDigest ==> NormalContract(c)[k] == c[k]
    ensures k == ScenarioDigest || k == TaskDigest ==> NormalContract(c)[k] == Str(LowerDigest(TextOf(c, k)))
  {
    hide ContractStrings, ContractNumbers, Strip, Digest, LowerDigest;
    if k in ContractStrings() { assert HasText(c, k); } else { assert HasCount(c, k); }
  }

  lemma ContractTwice(c: Fields)
    requires ContractShape(c)
    ensures var n := NormalContract(c); NormalContract(n) == n && ContractShape(n)
    ensures forall k :: k in ContractStrings() + ContractNumbers() && k != ScenarioDigest && k != TaskDigest ==> Same(NormalContract(c), c, k)
  {
    hide ContractStrings, ContractNumbers, NormalContract, Strip, Digest, LowerDigest;
    LowerDigestOk(TextOf(c, ScenarioDigest));
    LowerDigestOk(TextOf(c, TaskDigest));
    ContractKeys();
    var n := NormalContract(c);
    forall k | k in ContractStrings() ensures HasText(n, k) { assert HasText(c, k); NormalContractAt(c, k); }
    forall k | k in ContractNumbers() ensures HasCount(n, k) { assert HasCount(c, k); NormalContractAt(c, k); }
    NormalContractAt(c, ScenarioDigest);
    NormalContractAt(c, TaskDigest);
    forall k | k in ContractStrings() + ContractNumbers() && k != ScenarioDigest && k != TaskDigest ensures Same(n, c, k) { NormalContractAt(c, k); }
    ContractFixed(c);
  }

  lemma ContractFixed(c: Fields)
    requires ContractShape(c)
    ensures NormalContract(NormalContract(c)) == NormalContract(c)
  {
    hide ContractStrings, ContractNumbers, Strip, Digest, LowerDigest;
    LowerDigestOk(TextOf(c, ScenarioDigest));
    LowerDigestOk(TextOf(c, TaskDigest));
    ContractKeys();
    assert ScenarioDigest in ContractStrings() && TaskDigest in ContractStrings();
    var n := NormalContract(c);
    assert Restricted(n, ContractStrings() + ContractNumbers()) == n;
  }

  lemma ProvenanceTwice(p: Fields)
    requires ProvenanceOk(map[EvidenceProvenance := Obj(p)])
    ensures var n := NormalProvenance(p); NormalProvenance(n) == n && ProvenanceOk(map[EvidenceProvenance := Obj(n)])
  {
    hide Strip, Digest, LowerDigest;
    LowerDigestOk(TextOf(p, SourceCaptureSha256));
  }

  lemma StepKeys()
    ensures {AdapterRunId, AgentRole, OperationKind, Status} <= StepStrings()
    ensures {StepIndex, ContextTokens, RepeatedContextTokens, RetrievedRefTokens} <= StepNumbers()
  {
  }

  lemma StepTwice(step: Json, runId: string, index: nat)
    requires StepOk(step, runId, index)
    ensures NormalStep(NormalStep(step)) == NormalStep(step) && StepOk(NormalStep(step), runId, index)
  {
    hide StepStrings, StepNumbers, StepOptional, Strip;
    StepKeys();
    var f, n := step.fields, NormalStep(step).fields;
    forall k | k in StepStrings() ensures HasText(n, k) && n[k] == f[k] { assert HasText(f, k); }
    forall k | k in StepNumbers() ensures HasCount(n, k) && n[k] == f[k] { assert HasCount(f, k); }
    assert Restricted(n, StepStrings() + StepNumbers() + StepOptional()) == n;
  }

  lemma StepsTwice(items: seq<Json>, runId: string)
    requires forall i :: 0 <= i < |items| ==> StepOk(items[i], runId, i)
    ensures NormalSteps(NormalSteps(items)) == NormalSteps(items)
    ensures forall i :: 0 <= i < |items| ==> StepOk(NormalSteps(items)[i], runId, i)
  {
    hide StepOk, NormalStep;
    forall i | 0 <= i < |items|
      ensures StepOk(NormalStep(items[i]), runId, i) && NormalStep(NormalStep(items[i])) == NormalStep(items[i])
    {
      StepTwice(items[i], runId, i);
    }
  }

  // Where each group of a normalised scorecard stands.
  lemma Groups(f: Fields)
    requires FieldsOk(f)
    ensures var n := Normalized(f);
            && Same(n, Copied(f), SchemaVersion)
            && (ComparisonContract in n <==> ComparisonContract in f)
            && (ComparisonContract in f ==>
                  && f[ComparisonContract].Obj?
                  && n[ComparisonContract] == Obj(NormalContract(f[ComparisonContract].fields))
                  && EstimatedCostUsd in n
                  && n[EstimatedCostUsd] == Number(DerivedCost(Copied(f), NormalContract(f[ComparisonContract].fields)), false))
            && (EvidenceProvenance in n <==> EvidenceProvenance in f)
            && (EvidenceProvenance in f ==>
                  && f[EvidenceProvenance].Obj?
                  && n[EvidenceProvenance] == Obj(NormalProvenance(f[EvidenceProvenance].fields)))
            && (Steps in n <==> StepItems(f) != []) && (Steps in n ==> n[Steps] == Arr(NormalSteps(StepItems(f))))
            && DerivedMetrics in n && n[DerivedMetrics] == Obj(Derived(BeforeDerived(f)))
  {
    hide CopiedKeys, NormalContract, DerivedCost, NormalProvenance, Derived, RunOk, DerivedOk, CostOk, StepOk;
    GroupKeys();
  }

  // ---- A normalised scorecard passes every check.

  lemma RunNames()
    ensures {AdapterRunId, RuntimeKind, RuntimeVersion, Mode, StateStrategy, Status, QualityMethod, RedactionStatus} <= RunStrings()
    ensures {RedundantToolCallCount, ToolCallCount, RepeatedContextTokenTotal, ContextTokenTotal, RetrievedRefTokenTotal,
             InputTokenTotal, OutputTokenTotal, RetryCount, StepCount} <= RunNumbers()
  {
  }

  lemma RunSame(f: Fields, n: Fields)
    requires RunOk(f)
    requires forall k :: k in RunStrings() + RunNumbers() + {QualityScore} ==> Same(n, f, k)
    requires Given(n, EstimatedCostUsd) ==> HasCount(n, EstimatedCostUsd)
    ensures RunOk(n)
  {
    hide RunStrings, RunNumbers, Strip;
    RunNames();
    forall k | k in RunStrings() ensures HasText(n, k) { assert HasText(f, k); assert Same(n, f, k); }
    forall k | k in RunNumbers() ensures HasCount(n, k) { assert HasCount(f, k); assert Same(n, f, k); }
    assert Same(n, f, QualityScore);
  }

  lemma CostSame(f: Fields, g: Fields, c: Fields, d: Fields)
    requires Same(f, g, InputTokenTotal) && Same(f, g, OutputTokenTotal)
    requires Same(c, d, InputCostPer1k) && Same(c, d, OutputCostPer1k)
    ensures DerivedCost(f, c) == DerivedCost(g, d)
  {
  }

  lemma CostNonNegative(f: Fields, c: Fields)
    requires HasCount(f, InputTokenTotal) && HasCount(f, OutputTokenTotal)
    requires HasCount(c, InputCostPer1k) && HasCount(c, OutputCostPer1k)
    ensures DerivedCost(f, c) >= 0.0
  {
  }

  lemma ContractNumbersSame(f: Fields)
    requires FieldsOk(f) && ComparisonContract in f
    ensures var c := f[ComparisonContract].fields; var n := NormalContract(c);
            && ContractShape(c) && ContractShape(n)
            && Same(n, c, InputCostPer1k) && Same(n, c, OutputCostPer1k) && HasCount(c, InputCostPer1k) && HasCount(c, OutputCostPer1k)
  {
    hide ContractStrings, ContractNumbers, Strip, Digest, NormalContract, StepsOk, DerivedOk, CostOk, ProvenanceOk, RunOk;
    ContractKeys();
    ContractTwice(f[ComparisonContract].fields);
  }

  lemma TokensSame(f: Fields)
    requires FieldsOk(f)
    ensures Same(Copied(f), f, InputTokenTotal) && Same(Copied(f), f, OutputTokenTotal)
    ensures Same(Normalized(f), f, InputTokenTotal) && Same(Normalized(f), f, OutputTokenTotal)
    ensures HasCount(f, InputTokenTotal) && HasCount(f, OutputTokenTotal)
  {
    hide RunStrings, RunNumbers, CopiedKeys, Normalized, BeforeDerived, StepsOk, DerivedOk, CostOk, ProvenanceOk, ContractOk, HasText, TextOf;
    RunKeys();
    RunNames();
    CopiedSame(f, InputTokenTotal);
    CopiedSame(f, OutputTokenTotal);
  }

  // The cost of a normalised scorecard is the cost its contract implies.
  lemma CostTwice(f: Fields)
    requires FieldsOk(f)
    ensures var n := Normalized(f);
            && (Given(n, EstimatedCostUsd) ==> HasCount(n, EstimatedCostUsd))
            && CostOk(n)
            && (ComparisonContract in f ==>
                  EstimatedCostUsd in n && ComparisonContract in n && n[ComparisonContract].Obj? &&
                  n[EstimatedCostUsd] == Number(DerivedCost(Copied(n), NormalContract(n[ComparisonContract].fields)), false))
  {
    Groups(f);
    TokensSame(f);
    var n := Normalized(f);
    if ComparisonContract in f {
      ContractNumbersSame(f);
      var c := f[ComparisonContract].fields;
      ContractTwice(c);
      CopiedTokens(n);
      assert n[EstimatedCostUsd] == Number(DerivedCost(Copied(f), NormalContract(c)), false);
      CostSame(Copied(f), f, NormalContract(c), c);
      CostSame(n, f, NormalContract(c), c);
      CostSame(Copied(n), f, NormalContract(c), c);
      CostNonNegative(f, c);
      assert NumberOf(n, EstimatedCostUsd) == DerivedCost(n, n[ComparisonContract].fields);
    } else {
      RunKeys();
      CopiedSame(f, EstimatedCostUsd);
    }
  }

  lemma CopiedTokens(n: Fields)
    ensures Same(Copied(n), n, InputTokenTotal) && Same(Copied(n), n, OutputTokenTotal)
  {
  }

  lemma ContractOkTwice(f: Fields)
    requires FieldsOk(f) && ComparisonContract in f
    ensures ContractOk(Normalized(f))
  {
    hide Normalized, NormalContract, ContractShape, Same, RunOk, StepsOk, DerivedOk, CostOk, ProvenanceOk;
    Groups(f);
    ContractTwice(f[ComparisonContract].fields);
    ContractLinks(f);
  }

  // The contract fields that are compared with the run or read as numbers.
  lemma ContractLinks(f: Fields)
    requires ComparisonContract in f && f[ComparisonContract].Obj? && ContractShape(f[ComparisonContract].fields)
    ensures var c := f[ComparisonContract].fields; var n := NormalContract(c); var m := Normalized(f);
            && TextOf(n, RuntimeKind) == TextOf(c, RuntimeKind) && TextOf(m, RuntimeKind) == TextOf(f, RuntimeKind)
            && TextOf(n, RuntimeVersion) == TextOf(c, RuntimeVersion) && TextOf(m, RuntimeVersion) == TextOf(f, RuntimeVersion)
            && TextOf(n, QualityMethod) == TextOf(c, QualityMethod) && TextOf(m, QualityMethod) == TextOf(f, QualityMethod)
            && NumberOf(n, QualityThreshold) == NumberOf(c, QualityThreshold) && Integral(n, Seed) == Integral(c, Seed)
  {
    hide Normalized, NormalContract, ContractShape, TextOf, NumberOf, Integral;
    RunField(f, RuntimeKind);
    RunField(f, RuntimeVersion);
    RunField(f, QualityMethod);
    var c := f[ComparisonContract].fields;
    ContractField(c, RuntimeKind);
    ContractField(c, RuntimeVersion);
    ContractField(c, QualityMethod);
    ContractField(c, QualityThreshold);
    ContractField(c, Seed);
  }

  lemma RunField(f: Fields, k: Key)
    requires k in RunStrings() || k in RunNumbers()
    ensures TextOf(Normalized(f), k) == TextOf(f, k) && NumberOf(Normalized(f), k) == NumberOf(f, k)
  {
    hide CopiedKeys, Normalized, Same, TextOf, NumberOf;
    RunKey(k);
    CopiedSame(f, k);
    SameRead(Normalized(f), f, k);
  }

  lemma RunKey(k: Key)
    requires k in RunStrings() || k in RunNumbers()
    ensures k in CopiedKeys() && k != EstimatedCostUsd
  {
  }

  lemma SameRead(f: Fields, g: Fields, k: Key)
    requires Same(f, g, k)
    ensures TextOf(f, k) == TextOf(g, k) && NumberOf(f, k) == NumberOf(g, k) && Integral(f, k) == Integral(g, k)
  {
  }

  lemma ContractField(c: Fields, k: Key)
    requires ContractShape(c) && (k in ContractStrings() || k in ContractNumbers()) && k != ScenarioDigest && k != TaskDigest
    ensures TextOf(NormalContract(c), k) == TextOf(c, k) && NumberOf(NormalContract(c), k) == NumberOf(c, k)
    ensures Integral(NormalContract(c), k) == Integral(c, k)
  {
    hide ContractStrings, ContractNumbers, ContractShape, NormalContract, Same, TextOf, NumberOf, Integral;
    ContractTwice(c);
    SameRead(NormalContract(c), c, k);
  }

  lemma ProvenanceOkTwice(f: Fields)
    requires FieldsOk(f) && EvidenceProvenance in f
    ensures ProvenanceOk(Normalized(f))
  {
    hide Normalized, NormalProvenance, HasText, HasCount, Digest, StepsOk, DerivedOk, CostOk, ContractOk, RunOk;
    Groups(f);
    ProvenanceTwice(f[EvidenceProvenance].fields);
  }

  lemma StepsOkTwice(f: Fields)
    requires FieldsOk(f)
    ensures StepsOk(Normalized(f)) && StepItems(Normalized(f)) == NormalSteps(StepItems(f))
    ensures NormalSteps(StepItems(Normalized(f))) == StepItems(Normalized(f))
  {
    hide Normalized, StepOk, RunOk, DerivedOk, CostOk, ContractOk, ProvenanceOk, TextOf, NumberOf;
    Groups(f);
    RunField(f, StepCount);
    RunField(f, AdapterRunId);
    StepsTwice(StepItems(f), TextOf(f, AdapterRunId));
  }

  function DerivedFrom(): set<Key> {
    {InputTokenTotal, OutputTokenTotal, ContextTokenTotal, RepeatedContextTokenTotal, RedundantToolCallCount,
     ToolCallCount, RetryCount, StepCount, Status}
  }

  lemma DerivedSame(f: Fields, g: Fields)
    requires forall k :: k in DerivedFrom() ==> Same(f, g, k)
    requires Same(f, g, EstimatedCostUsd)
    ensures Derived(f) == Derived(g)
  {
    hide Ratio, DerivedFrom;
    DerivedNames(f, g);
  }

  lemma DerivedNames(f: Fields, g: Fields)
    requires forall k :: k in DerivedFrom() ==> Same(f, g, k)
    ensures NumberOf(f, InputTokenTotal) == NumberOf(g, InputTokenTotal)
    ensures NumberOf(f, OutputTokenTotal) == NumberOf(g, OutputTokenTotal)
    ensures Integral(f, InputTokenTotal) == Integral(g, InputTokenTotal)
    ensures Integral(f, OutputTokenTotal) == Integral(g, OutputTokenTotal)
    ensures NumberOf(f, ContextTokenTotal) == NumberOf(g, ContextTokenTotal)
    ensures NumberOf(f, RepeatedContextTokenTotal) == NumberOf(g, RepeatedContextTokenTotal)
    ensures NumberOf(f, RedundantToolCallCount) == NumberOf(g, RedundantToolCallCount)
    ensures NumberOf(f, ToolCallCount) == NumberOf(g, ToolCallCount)
    ensures NumberOf(f, RetryCount) == NumberOf(g, RetryCount)
    ensures NumberOf(f, StepCount) == NumberOf(g, StepCount)
    ensures TextOf(f, Status) == TextOf(g, Status)
  {
    assert Same(f, g, InputTokenTotal) && Same(f, g, OutputTokenTotal) && Same(f, g, ContextTokenTotal);
    assert Same(f, g, RepeatedContextTokenTotal) && Same(f, g, RedundantToolCallCount) && Same(f, g, ToolCallCount);
    assert Same(f, g, RetryCount) && Same(f, g, StepCount) && Same(f, g, Status);
  }

  lemma DerivedKeys()
    ensures DerivedFrom() <= CopiedKeys() - {EstimatedCostUsd}
  {
  }

  // The cost field of the second pass.
  lemma CostField(f: Fields)
    requires FieldsOk(f)
    ensures var n := Normalized(f); Same(BeforeDerived(n), n, EstimatedCostUsd) && Same(BeforeDerived(f), n, EstimatedCostUsd)
  {
    hide CopiedKeys, NormalContract, DerivedCost, NormalProvenance, NormalSteps, Derived, FieldsOk;
    var n := Normalized(f);
    CostTwice(f);
    RunKeys();
    ContractPresence(f);
    if ComparisonContract !in f {
      CopiedSame(n, EstimatedCostUsd);
    }
  }

  lemma ContractPresence(f: Fields)
    requires FieldsOk(f)
    ensures ComparisonContract in Normalized(f) <==> ComparisonContract in f
  {
    hide Normalized, ContractOk;
    Groups(f);
  }

  lemma DerivedTwice(f: Fields)
    requires FieldsOk(f)
    ensures var n := Normalized(f);
            && DerivedMetrics in n && n[DerivedMetrics] == Obj(Derived(BeforeDerived(n))) && DerivedOk(n)
  {
    hide DerivedFrom, CopiedKeys, Normalized, BeforeDerived, Derived, RunOk, ContractOk, CostOk, ProvenanceOk, StepsOk, Same;
    var n := Normalized(f);
    Groups(f);
    DerivedKeys();
    CostField(f);
    forall k | k in DerivedFrom() ensures Same(BeforeDerived(f), BeforeDerived(n), k) {
      CopiedSame(f, k);
      CopiedSame(n, k);
      SameChain(BeforeDerived(f), f, n, BeforeDerived(n), k);
    }
    SameChain(BeforeDerived(f), n, n, BeforeDerived(n), EstimatedCostUsd);
    DerivedSame(BeforeDerived(f), BeforeDerived(n));
  }

  lemma SameChain(a: Fields, f: Fields, n: Fields, b: Fields, k: Key)
    requires Same(a, f, k) && Same(n, f, k) && Same(b, n, k)
    ensures Same(a, b, k)
  {
  }

  lemma FieldsOkTwice(f: Fields)
    requires FieldsOk(f)
    ensures FieldsOk(Normalized(f))
  {
    hide RunStrings, RunNumbers, CopiedKeys, Normalized, RunOk, ContractOk, CostOk, ProvenanceOk, StepsOk, DerivedOk, Same;
    RunKeys();
    forall k | k in RunStrings() + RunNumbers() + {QualityScore} ensures Same(Normalized(f), f, k) { CopiedSame(f, k); }
    CostTwice(f);
    RunSame(f, Normalized(f));
    ContractPresence(f);
    Groups(f);
    if ComparisonContract in f { ContractOkTwice(f); }
    if EvidenceProvenance in f { ProvenanceOkTwice(f); }
    StepsOkTwice(f);
    DerivedTwice(f);
  }

  // ---- Normalising a normalised scorecard changes no field.

  function GroupNames(): set<Key> { {SchemaVersion, ComparisonContract, EvidenceProvenance, Steps, DerivedMetrics} }

  lemma OnlyKnown(f: Fields)
    ensures Normalized(f).Keys <= CopiedKeys() + GroupNames()
  {
  }

  lemma ContractAt(f: Fields)
    requires FieldsOk(f) && ComparisonContract in Normalized(f)
    ensures ComparisonContract in f && f[ComparisonContract].Obj?
    ensures Normalized(f)[ComparisonContract] == Obj(NormalContract(f[ComparisonContract].fields))
  {
    hide FieldsOk, Normalized, NormalContract, DerivedCost, Derived;
    Groups(f);
  }

  lemma ProvenanceAt(f: Fields)
    requires FieldsOk(f) && EvidenceProvenance in Normalized(f)
    ensures EvidenceProvenance in f && f[EvidenceProvenance].Obj?
    ensures Normalized(f)[EvidenceProvenance] == Obj(NormalProvenance(f[EvidenceProvenance].fields))
  {
    hide FieldsOk, Normalized, NormalProvenance, DerivedCost, Derived;
    Groups(f);
  }

  lemma DerivedAt(f: Fields)
    requires FieldsOk(f)
    ensures DerivedMetrics in Normalized(f) && Normalized(f)[DerivedMetrics] == Obj(Derived(BeforeDerived(f)))
  {
  }

  lemma ContractHeld(f: Fields)
    requires FieldsOk(f) && ComparisonContract in f
    ensures f[ComparisonContract].Obj? && ContractShape(f[ComparisonContract].fields)
  {
  }

  lemma ContractGroupSame(f: Fields)
    requires FieldsOk(f)
    ensures Same(Normalized(Normalized(f)), Normalized(f), ComparisonContract)
  {
    hide Normalized, NormalContract, FieldsOk, ContractShape;
    var n := Normalized(f);
    FieldsOkTwice(f);
    ContractPresence(f);
    ContractPresence(n);
    if ComparisonContract in n {
      ContractAt(f);
      ContractAt(n);
      ContractHeld(f);
      ContractTwice(f[ComparisonContract].fields);
    }
  }

  lemma ProvenancePresence(f: Fields)
    requires FieldsOk(f)
    ensures EvidenceProvenance in Normalized(f) <==> EvidenceProvenance in f
  {
    hide Normalized, FieldsOk;
    Groups(f);
  }

  lemma ProvenanceGroupSame(f: Fields)
    requires FieldsOk(f)
    ensures Same(Normalized(Normalized(f)), Normalized(f), EvidenceProvenance)
  {
    hide Normalized, NormalProvenance, FieldsOk, ProvenanceOk;
    var n := Normalized(f);
    FieldsOkTwice(f);
    ProvenancePresence(f);
    ProvenancePresence(n);
    if EvidenceProvenance in n {
      ProvenanceAt(f);
      ProvenanceAt(n);
      ProvenanceHeld(f);
      ProvenanceTwice(f[EvidenceProvenance].fields);
    }
  }

  lemma StepsAt(f: Fields)
    requires FieldsOk(f)
    ensures Steps in Normalized(f) <==> StepItems(f) != []
    ensures Steps in Normalized(f) ==> Normalized(f)[Steps] == Arr(NormalSteps(StepItems(f)))
  {
    hide Normalized, FieldsOk, NormalSteps;
    Groups(f);
  }

  lemma StepsGroupSame(f: Fields)
    requires FieldsOk(f)
    ensures Same(Normalized(Normalized(f)), Normalized(f), Steps)
  {
    hide Normalized, FieldsOk, StepsOk, NormalStep;
    FieldsOkTwice(f);
    StepsAt(f);
    StepsAt(Normalized(f));
    StepsOkTwice(f);
  }

  lemma SchemaGroupSame(f: Fields)
    ensures Same(Normalized(Normalized(f)), Normalized(f), SchemaVersion)
  {
    hide Normalized, SCHEMA;
    SchemaField(f);
    SchemaField(Normalized(f));
  }

  lemma DerivedGroupSame(f: Fields)
    requires FieldsOk(f)
    ensures Same(Normalized(Normalized(f)), Normalized(f), DerivedMetrics)
  {
    hide Normalized, BeforeDerived, Derived, FieldsOk;
    FieldsOkTwice(f);
    DerivedAt(Normalized(f));
    DerivedTwice(f);
  }

  lemma GroupCases(k: Key)
    requires k in GroupNames()
    ensures k == SchemaVersion || k == ComparisonContract || k == EvidenceProvenance || k == Steps || k == DerivedMetrics
  {
  }

  lemma GroupsSame(f: Fields, k: Key)
    requires FieldsOk(f) && k in GroupNames()
    ensures Same(Normalized(Normalized(f)), Normalized(f), k)
  {
    hide *;
    GroupCases(k);
    if k == SchemaVersion {
      SchemaGroupSame(f);
    } else if k == ComparisonContract {
      ContractGroupSame(f);
    } else if k == EvidenceProvenance {
      ProvenanceGroupSame(f);
    } else if k == Steps {
      StepsGroupSame(f);
    } else {
      DerivedGroupSame(f);
    }
  }

  lemma ProvenanceHeld(f: Fields)
    requires FieldsOk(f) && EvidenceProvenance in f
    ensures f[EvidenceProvenance].Obj? && ProvenanceOk(map[EvidenceProvenance := Obj(f[EvidenceProvenance].fields)])
  {
  }

  lemma SchemaField(f: Fields)
    ensures SchemaVersion in Normalized(f) && Normalized(f)[SchemaVersion] == Str(SCHEMA)
  {
  }

  lemma NormalizedTwice(f: Fields)
    requires FieldsOk(f)
    ensures Normalized(Normalized(f)) == Normalized(f)
  {
    hide CopiedKeys, GroupNames, Normalized, BeforeDerived, FieldsOk;
    var n := Normalized(f);
    var m := Normalized(n);
    OnlyKnown(f);
    OnlyKnown(n);
    forall k | k in CopiedKeys() + GroupNames() ensures Same(m, n, k) {
      if k in GroupNames() {
        GroupsSame(f, k);
      } else if k == EstimatedCostUsd {
        CostOfSecond(f);
      } else {
        CopiedSame(n, k);
      }
    }
  }

  lemma CostOfSecond(f: Fields)
    requires FieldsOk(f)
    ensures Same(Normalized(Normalized(f)), Normalized(f), EstimatedCostUsd)
  {
    hide BeforeDerived, Derived, FieldsOk;
    CostField(f);
  }
}
