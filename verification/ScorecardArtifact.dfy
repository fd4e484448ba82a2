/** The artifact around a scorecard and the evidence check that reads it back
    (scripts/token_efficiency_scorecard.py, scripts/token_efficiency_regression.py).

    `sha` stands for the hexadecimal SHA-256 of a text and `dumps` for the compact JSON
    rendering with sorted keys. */
module ScorecardArtifact {
  import opened Sets
  import opened Text
  import opened Scorecard
  import opened ScorecardNormal
  import opened ScorecardBounds

  const ARTIFACT_SCHEMA := "scorecard_artifact.v2"
  const KIND := "token_efficiency_scorecard"
  const STORAGE := "app_owned_artifact_json_export"
  const DISABLED := "disabled"

  datatype Hashing = Hashing(sha: string -> string, dumps: Json -> string)

  predicate LowerHex(c: char) { '0' <= c <= '9' || 'a' <= c <= 'f' }

  predicate HexDigest(s: string) { |s| == 64 && forall i :: 0 <= i < |s| ==> LowerHex(s[i]) }

  ghost predicate Hashes(h: Hashing) { forall t :: HexDigest(h.sha(t)) }

  function ContentHash(n: Fields, h: Hashing): string { h.sha(h.dumps(Obj(n))) }

  // A slice stops at the end of the text.
  function Front(s: string, n: nat): string { if |s| <= n then s else s[..n] }

  function IdOf(runId: string, hash: string): string { "scorecard-" + runId + "-" + Front(hash, 12) }

  function EnvelopeMap(a: Json, b: Json, c: Json, d: Json, e: Json, g: Json, h: Json): Fields {
    map[SchemaVersion := a, ArtifactKind := b, RuntimeKind := c, Storage := d, ReadOnly := Bool(true), MetadataOnly := Bool(true),
        TargetRepositoryWrites := e, ContentSha256 := g, ScorecardSchemaVersion := h]
  }

  function Envelope(runtimeKind: string, schema: string, hash: string): Fields {
    EnvelopeMap(Str(ARTIFACT_SCHEMA), Str(KIND), Str(runtimeKind), Str(STORAGE), Str(DISABLED), Str(hash), Str(schema))
  }

  function Artifact(n: Fields, createdAt: string, hash: string): Fields {
    Envelope(TextOf(n, RuntimeKind), TextOf(n, SchemaVersion), hash)
      [CreatedAt := Str(createdAt)]
      [ArtifactId := Str(IdOf(TextOf(n, AdapterRunId), hash))]
      [ScorecardField := Obj(n)]
  }

  function BuildArtifact(summary: Json, createdAt: string, scan: Scanner, h: Hashing): Result<Json> {
    match Import(summary, scan)
    case Err(e) => Err(e)
    case Ok(n) => Ok(Obj(Artifact(n.fields, createdAt, ContentHash(n.fields, h))))
  }

  // ---- The evidence check.

  datatype Evidence = Evidence(scorecard: Json, schema: string, hash: string)

  predicate IsArtifact(f: Fields) { TextOf(f, SchemaVersion) in {"native_scorecard_artifact.v1", ARTIFACT_SCHEMA} }

  // The scorecard is imported, and imported again to render it.
  function Reimported(raw: Json, scan: Scanner, h: Hashing): Result<(Json, string)> {
    match Import(raw, scan)
    case Err(e) => Err(e)
    case Ok(n) =>
      match Import(n, scan)
      case Err(e) => Err(e)
      case Ok(m) => Ok((n, h.sha(h.dumps(m))))
  }

  function ScorecardEvidence(value: Json, scan: Scanner, h: Hashing): Result<Evidence> {
    if !value.Obj? || !Bounded(value, 0) || !Clean(value, scan) then Err("evidence rejected")
    else
      var f := value.fields;
      if SchemaVersion in f && (f[SchemaVersion].Arr? || f[SchemaVersion].Obj?) then Err("schema_version is not hashable")
      else if IsArtifact(f) then
        if ScorecardField !in f || !f[ScorecardField].Obj? then Err("scorecard must be an object")
        else if !HexDigest(TextOf(f, ContentSha256)) then Err("content_sha256 must be 64 lowercase hex chars")
        else
          match Reimported(f[ScorecardField], scan, h)
          case Err(e) => Err(e)
          case Ok(p) =>
            if p.1 != TextOf(f, ContentSha256) then Err("content_sha256 does not match canonical scorecard")
            else Ok(Evidence(p.0, TextOf(f, SchemaVersion), p.1))
      else
        match Reimported(value, scan, h)
        case Err(e) => Err(e)
        case Ok(p) => Ok(Evidence(p.0, SCHEMA, p.1))
  }

  // ---- When an artifact is read back.

  ghost predicate AdmitsArtifacts(scan: Scanner) {
    Admits(scan) && scan.cleanText(ARTIFACT_SCHEMA) && scan.cleanText(KIND) && scan.cleanText(STORAGE) && scan.cleanText(DISABLED)
  }

  /** The summaries whose artifacts are read back. */
  predicate Readable(f: Fields, createdAt: string, hash: string, scan: Scanner) {
    && |Utf8(TextOf(f, AdapterRunId))| <= 1001
    && |Utf8(createdAt)| <= MAX_STRING
    && StepsFit(f, 1)
    && scan.cleanText(createdAt)
    && scan.cleanText(IdOf(TextOf(f, AdapterRunId), hash))
  }

  lemma IdLength(runId: string, hash: string)
    requires HexDigest(hash)
    ensures |Utf8(IdOf(runId, hash))| == |Utf8(runId)| + 23
  {
    var tail := "-" + hash[..12];
    forall i | 0 <= i < |tail| ensures tail[i] as int < 128 { if i > 0 { assert LowerHex(hash[i - 1]); } }
    AsciiLength(tail);
    AsciiLength("scorecard-");
    Utf8Parts("scorecard-", runId, "-", hash[..12]);
  }

  lemma Utf8Parts(a: string, b: string, c: string, d: string)
    ensures |Utf8(a + b + c + d)| == |Utf8(a)| + |Utf8(b)| + |Utf8(c + d)|
  {
    hide Utf8;
    assert a + b + c + d == (a + b) + (c + d);
    Utf8Concat(a + b, c + d);
    Utf8Concat(a, b);
  }

  // ---- The artifact's own bounds and scan.

  predicate Passes(v: Json, scan: Scanner) { Bounded(v, 1) && Clean(v, scan) }

  lemma TextPasses(s: string, scan: Scanner)
    requires |s| <= 256 && scan.cleanText(s)
    ensures Passes(Str(s), scan)
  {
    hide Utf8;
    Utf8Short(s);
  }

  lemma EnvelopePasses(runtimeKind: string, schema: string, hash: string, scan: Scanner)
    requires AdmitsArtifacts(scan) && HexDigest(hash) && schema == SCHEMA && Passes(Str(runtimeKind), scan)
    ensures var e := Envelope(runtimeKind, schema, hash);
            && Bounded(Obj(e), 0) && Clean(Obj(e), scan) && |e| <= 9
            && CreatedAt !in e && ArtifactId !in e && ScorecardField !in e
  {
    hide Passes, Digest, EnvelopeMap;
    HexIsDigest(hash);
    TextPasses(hash, scan);
    TextPasses(SCHEMA, scan);
    TextPasses(ARTIFACT_SCHEMA, scan);
    TextPasses(KIND, scan);
    TextPasses(STORAGE, scan);
    TextPasses(DISABLED, scan);
    EnvelopeOf(Str(ARTIFACT_SCHEMA), Str(KIND), Str(runtimeKind), Str(STORAGE), Str(DISABLED), Str(hash), Str(schema), scan);
  }

  lemma EnvelopeOf(a: Json, b: Json, c: Json, d: Json, e: Json, g: Json, h: Json, scan: Scanner)
    requires Passes(a, scan) && Passes(b, scan) && Passes(c, scan) && Passes(d, scan) && Passes(e, scan) && Passes(g, scan) && Passes(h, scan)
    ensures var m := EnvelopeMap(a, b, c, d, e, g, h);
            && Bounded(Obj(m), 0) && Clean(Obj(m), scan) && |m| <= 9
            && CreatedAt !in m && ArtifactId !in m && ScorecardField !in m
  {
    hide Bounded, Clean, Passes, EnvelopeMap;
    var m := EnvelopeMap(a, b, c, d, e, g, h);
    EnvelopeSize(a, b, c, d, e, g, h);
    forall k | k in m ensures !k.Other? && Passes(m[k], scan) {
      TruePasses(scan);
      EnvelopeField(a, b, c, d, e, g, h, k);
    }
    PassingFields(m, scan);
  }

  function EnvelopeNames(): set<Key> {
    {SchemaVersion, ArtifactKind, RuntimeKind, Storage, ReadOnly, MetadataOnly, TargetRepositoryWrites, ContentSha256, ScorecardSchemaVersion}
  }

  lemma NamesSize()
    ensures |EnvelopeNames()| <= 9
    ensures CreatedAt !in EnvelopeNames() && ArtifactId !in EnvelopeNames() && ScorecardField !in EnvelopeNames()
  {
  }

  lemma EnvelopeSize(a: Json, b: Json, c: Json, d: Json, e: Json, g: Json, h: Json)
    ensures var m := EnvelopeMap(a, b, c, d, e, g, h); |m| <= 9 && CreatedAt !in m && ArtifactId !in m && ScorecardField !in m
  {
    hide EnvelopeMap, EnvelopeNames;
    var m := EnvelopeMap(a, b, c, d, e, g, h);
    forall k | k in m ensures k in EnvelopeNames() { EnvelopeKey(a, b, c, d, e, g, h, k); }
    NamesSize();
    SubsetSize(m.Keys, EnvelopeNames());
    assert |m| == |m.Keys|;
  }

  lemma EnvelopeKey(a: Json, b: Json, c: Json, d: Json, e: Json, g: Json, h: Json, k: Key)
    requires k in EnvelopeMap(a, b, c, d, e, g, h)
    ensures k in EnvelopeNames()
  {
  }

  lemma EnvelopeField(a: Json, b: Json, c: Json, d: Json, e: Json, g: Json, h: Json, k: Key)
    requires k in EnvelopeMap(a, b, c, d, e, g, h)
    ensures !k.Other?
    ensures var v := EnvelopeMap(a, b, c, d, e, g, h)[k];
            v == a || v == b || v == c || v == d || v == e || v == g || v == h || v == Bool(true)
  {
  }

  lemma TruePasses(scan: Scanner)
    ensures Passes(Bool(true), scan)
  {
  }

  lemma PassingFields(m: Fields, scan: Scanner)
    requires |m| <= MAX_FIELDS && forall k :: k in m ==> !k.Other? && Passes(m[k], scan)
    ensures Bounded(Obj(m), 0) && Clean(Obj(m), scan)
  {
  }

  lemma HexIsDigest(hash: string)
    requires HexDigest(hash)
    ensures Digest(hash)
  {
    forall i | 0 <= i < |hash| ensures HexDigit(hash[i]) { assert LowerHex(hash[i]); }
  }

  lemma TextKept(f: Fields, scan: Scanner, k: Key)
    requires FieldsOk(f) && Bounded(Obj(f), 0) && Clean(Obj(f), scan) && k in RunStrings()
    ensures Passes(Str(TextOf(f, k)), scan)
  {
    hide RunStrings, Strip, ContractOk, CostOk, ProvenanceOk, StepsOk, DerivedOk;
    assert HasText(f, k);
    FieldBounded(f, 0, k);
    FieldClean(f, scan, k);
  }

  // One more field.
  lemma Extended(e: Fields, k: Key, v: Json, scan: Scanner)
    requires |e| < MAX_FIELDS && k !in e && !k.Other? && Bounded(Obj(e), 0) && Clean(Obj(e), scan)
    ensures var m := e[k := v]; |m| == |e| + 1 && (Bounded(Obj(m), 0) <==> Bounded(v, 1)) && (Clean(Obj(m), scan) <==> Clean(v, scan))
  {
    hide Bounded, Clean;
    ExtendedBounds(e, k, v);
    ExtendedScan(e, k, v, scan);
  }

  lemma ExtendedBounds(e: Fields, k: Key, v: Json)
    requires |e| < MAX_FIELDS && k !in e && !k.Other? && Bounded(Obj(e), 0)
    ensures var m := e[k := v]; |m| == |e| + 1 && (Bounded(Obj(m), 0) <==> Bounded(v, 1))
  {
    hide Utf8;
    var m := e[k := v];
    if Bounded(Obj(m), 0) { FieldBounded(m, 0, k); }
  }

  lemma ExtendedScan(e: Fields, k: Key, v: Json, scan: Scanner)
    requires k !in e && !k.Other? && Clean(Obj(e), scan)
    ensures Clean(Obj(e[k := v]), scan) <==> Clean(v, scan)
  {
    var m := e[k := v];
    if Clean(Obj(m), scan) { FieldClean(m, scan, k); }
  }

  lemma Kept(e: Fields, k: Key, v: Json, scan: Scanner)
    requires k !in e && |e| < MAX_FIELDS && Bounded(Obj(e[k := v]), 0) && Clean(Obj(e[k := v]), scan)
    ensures Bounded(Obj(e), 0) && Clean(Obj(e), scan)
  {
    hide Utf8;
    var m := e[k := v];
    forall j | j in e ensures (j.Other? ==> |Utf8(j.name)| <= MAX_STRING && scan.cleanKey(j.name)) && Bounded(e[j], 1) && Clean(e[j], scan) {
      assert j in m && m[j] == e[j];
    }
  }

  lemma Spoiled(e: Fields, k: Key, v: Json, scan: Scanner)
    requires k !in e && !(Bounded(Obj(e), 0) && Clean(Obj(e), scan)) && |e| < MAX_FIELDS
    ensures !(Bounded(Obj(e[k := v]), 0) && Clean(Obj(e[k := v]), scan))
  {
    hide Bounded, Clean;
    if Bounded(Obj(e[k := v]), 0) && Clean(Obj(e[k := v]), scan) { Kept(e, k, v, scan); }
  }

  /** The artifact passes the bounds and the scan exactly when its three variable fields do. */
  lemma ArtifactPasses(f: Fields, createdAt: string, hash: string, scan: Scanner)
    requires FieldsOk(f) && Bounded(Obj(f), 0) && Clean(Obj(f), scan) && AdmitsArtifacts(scan) && HexDigest(hash)
    ensures var a := Obj(Artifact(Normalized(f), createdAt, hash));
            Bounded(a, 0) && Clean(a, scan) <==> Readable(f, createdAt, hash, scan)
  {
    hide FieldsOk, Normalized, Envelope, Bounded, Clean, AdmitsArtifacts, StepsFit, IdOf, HexDigest;
    var n := Normalized(f);
    EnvelopeHeld(f, hash, scan);
    NormalizedBounded(f, 1);
    NormalizedClean(f, scan);
    IdLength(TextOf(f, AdapterRunId), hash);
    RunField(f, AdapterRunId);
    var e := Envelope(TextOf(n, RuntimeKind), TextOf(n, SchemaVersion), hash);
    var id := Str(IdOf(TextOf(f, AdapterRunId), hash));
    ThreeMore(e, Str(createdAt), id, Obj(n), scan);
    StrPasses(createdAt, scan);
    StrPasses(IdOf(TextOf(f, AdapterRunId), hash), scan);
  }

  lemma EnvelopeHeld(f: Fields, hash: string, scan: Scanner)
    requires FieldsOk(f) && Bounded(Obj(f), 0) && Clean(Obj(f), scan) && AdmitsArtifacts(scan) && HexDigest(hash)
    ensures var n := Normalized(f);
            var e := Envelope(TextOf(n, RuntimeKind), TextOf(n, SchemaVersion), hash);
            && Bounded(Obj(e), 0) && Clean(Obj(e), scan) && |e| <= 9
            && CreatedAt !in e && ArtifactId !in e && ScorecardField !in e
    ensures Admits(scan)
  {
    hide FieldsOk, Normalized, Envelope, Bounded, Clean, HexDigest, Passes, Digest;
    RunField(f, RuntimeKind);
    SchemaField(f);
    TextKept(f, scan, RuntimeKind);
    EnvelopePasses(TextOf(f, RuntimeKind), SCHEMA, hash, scan);
  }

  lemma StrPasses(s: string, scan: Scanner)
    ensures Bounded(Str(s), 1) <==> |Utf8(s)| <= MAX_STRING
    ensures Clean(Str(s), scan) <==> scan.cleanText(s)
  {
  }

  predicate Held(e: Fields, scan: Scanner) { Bounded(Obj(e), 0) && Clean(Obj(e), scan) }

  lemma HeldExtended(e: Fields, k: Key, v: Json, scan: Scanner)
    requires k !in e && |e| < MAX_FIELDS && !k.Other?
    ensures |e[k := v]| == |e| + 1 && (Held(e[k := v], scan) <==> Held(e, scan) && Passes(v, scan))
  {
    hide Bounded, Clean;
    Grown(e, k, v);
    if Held(e, scan) { Extended(e, k, v, scan); } else { Spoiled(e, k, v, scan); }
  }

  lemma ThreeMore(e: Fields, x: Json, y: Json, z: Json, scan: Scanner)
    requires Held(e, scan) && |e| <= 9
    requires CreatedAt !in e && ArtifactId !in e && ScorecardField !in e
    ensures Held(e[CreatedAt := x][ArtifactId := y][ScorecardField := z], scan) <==> Passes(x, scan) && Passes(y, scan) && Passes(z, scan)
  {
    hide Held, Passes;
    HeldExtended(e, CreatedAt, x, scan);
    HeldExtended(e[CreatedAt := x], ArtifactId, y, scan);
    HeldExtended(e[CreatedAt := x][ArtifactId := y], ScorecardField, z, scan);
  }

  lemma Grown(e: Fields, k: Key, v: Json)
    requires k !in e
    ensures |e[k := v]| == |e| + 1
  {
  }

  lemma ArtifactFields(n: Fields, createdAt: string, hash: string)
    ensures var a := Artifact(n, createdAt, hash);
            && ScorecardField in a && a[ScorecardField] == Obj(n)
            && TextOf(a, ContentSha256) == hash && TextOf(a, SchemaVersion) == ARTIFACT_SCHEMA
            && SchemaVersion in a && a[SchemaVersion].Str?
  {
    hide IdOf;
  }

  /** The evidence check returns the scorecard of a built artifact, with the same hash,
      exactly when the artifact is readable. */
  lemma ArtifactReadBackExactly(summary: Json, createdAt: string, scan: Scanner, h: Hashing)
    requires AdmitsArtifacts(scan) && Hashes(h) && Import(summary, scan).Ok?
    ensures var n := Import(summary, scan).value;
            var hash := ContentHash(n.fields, h);
            var read := ScorecardEvidence(BuildArtifact(summary, createdAt, scan, h).value, scan, h);
            if Readable(summary.fields, createdAt, hash, scan) then read == Ok(Evidence(n, ARTIFACT_SCHEMA, hash)) else read.Err?
  {
    hide FieldsOk, Normalized, Artifact, Bounded, Clean, HexDigest, IdOf, StepsFit;
    var f := summary.fields;
    var n := Normalized(f);
    var hash := ContentHash(n, h);
    assert HexDigest(hash);
    ArtifactPasses(f, createdAt, hash, scan);
    ArtifactFields(n, createdAt, hash);
    ImportIdempotent(summary, scan);
  }

  // ---- An accepted summary whose artifact is refused.

  function SampleText(k: Key, runId: string): string {
    match k
    case AdapterRunId => runId
    case RuntimeKind => "other"
    case Mode => "external_runtime"
    case StateStrategy => "none"
    case Status => "fail"
    case QualityMethod => "none"
    case RedactionStatus => "redacted"
    case _ => "x"
  }

  function Sample(runId: string): Fields {
    map k | k in RunStrings() + RunNumbers() :: if k in RunNumbers() then Number(0.0, true) else Str(SampleText(k, runId))
  }

  function OpenScanner(): Scanner { Scanner(_ => true, _ => true) }

  lemma TextStarts(k: Key, runId: string)
    requires runId != "" && !IsSpace(runId[0])
    ensures SampleText(k, runId) != "" && !IsSpace(SampleText(k, runId)[0])
    ensures k != AdapterRunId ==> |SampleText(k, runId)| <= 20
  {
  }

  lemma KeysApart(k: Key)
    ensures k in RunStrings() ==> k !in RunNumbers() && !k.Other?
    ensures k in RunNumbers() ==> !k.Other?
  {
  }

  lemma SampleAt(runId: string, k: Key)
    requires runId != "" && !IsSpace(runId[0])
    ensures k in RunStrings() ==> HasText(Sample(runId), k) && Sample(runId)[k] == Str(SampleText(k, runId))
    ensures k in RunNumbers() ==> HasCount(Sample(runId), k) && Sample(runId)[k] == Number(0.0, true)
    ensures k in Sample(runId) ==> k in RunStrings() || k in RunNumbers()
  {
    hide Strip, RunStrings, RunNumbers, SampleText;
    KeysApart(k);
    TextStarts(k, runId);
    StripKeeps(SampleText(k, runId));
  }

  lemma SampleRun(runId: string)
    requires runId != "" && !IsSpace(runId[0])
    ensures RunOk(Sample(runId))
  {
    hide RunStrings, RunNumbers, Sample, HasText, HasCount, RunRelations;
    forall k | k in RunStrings() ensures HasText(Sample(runId), k) { SampleAt(runId, k); }
    forall k | k in RunNumbers() ensures HasCount(Sample(runId), k) { SampleAt(runId, k); }
    SampleRelations(runId);
  }

  lemma SampleRelations(runId: string)
    requires runId != "" && !IsSpace(runId[0])
    ensures RunRelations(Sample(runId))
  {
    hide RunStrings, RunNumbers, Sample, Strip;
    RunNames();
    SampleAt(runId, RuntimeKind);
    SampleAt(runId, Mode);
    SampleAt(runId, StateStrategy);
    SampleAt(runId, Status);
    SampleAt(runId, QualityMethod);
    SampleAt(runId, RedactionStatus);
    SampleAt(runId, RedundantToolCallCount);
    SampleAt(runId, ToolCallCount);
    SampleAt(runId, RepeatedContextTokenTotal);
    SampleAt(runId, ContextTokenTotal);
    SampleAt(runId, RetrievedRefTokenTotal);
    NotRequired();
    SampleAt(runId, EstimatedCostUsd);
    SampleAt(runId, QualityScore);
  }

  lemma NotRequired()
    ensures EstimatedCostUsd !in RunStrings() && EstimatedCostUsd !in RunNumbers()
    ensures QualityScore !in RunStrings() && QualityScore !in RunNumbers()
  {
  }

  lemma SampleHasNoMore(runId: string, k: Key)
    requires k !in RunStrings() + RunNumbers()
    ensures k !in Sample(runId)
  {
  }

  lemma SampleFieldsOk(runId: string)
    requires runId != "" && !IsSpace(runId[0])
    ensures FieldsOk(Sample(runId)) && StepItems(Sample(runId)) == []
  {
    hide Sample, RunOk;
    SampleRun(runId);
    SampleHasNoMore(runId, ComparisonContract);
    SampleHasNoMore(runId, EvidenceProvenance);
    SampleHasNoMore(runId, Steps);
    SampleHasNoMore(runId, DerivedMetrics);
  }

  lemma RunKeyCount()
    ensures |RunStrings() + RunNumbers()| <= 21
  {
    assert |RunStrings()| <= 11 && |RunNumbers()| <= 10;
    UnionSize(RunStrings(), RunNumbers());
  }

  lemma SampleSize(runId: string)
    ensures |Sample(runId)| <= 21
  {
    hide RunStrings, RunNumbers, SampleText;
    var m := Sample(runId);
    RunKeyCount();
    SubsetSize(m.Keys, RunStrings() + RunNumbers());
    assert |m| == |m.Keys|;
  }

  lemma SampleBounded(runId: string)
    requires runId != "" && |runId| <= 1024 && forall i :: 0 <= i < |runId| ==> runId[i] == 'a'
    ensures Bounded(Obj(Sample(runId)), 0)
  {
    hide Sample, SampleText, RunStrings, RunNumbers, Utf8;
    var m := Sample(runId);
    SampleSize(runId);
    forall k | k in m ensures !k.Other? && Bounded(m[k], 1) {
      SampleAt(runId, k);
      KeysApart(k);
      if k == AdapterRunId {
        AsciiLength(runId);
        RunIdText(runId);
      } else {
        TextStarts(k, runId);
        Utf8Short(SampleText(k, runId));
      }
    }
  }

  lemma RunIdText(runId: string)
    ensures SampleText(AdapterRunId, runId) == runId && AdapterRunId in RunStrings()
  {
  }

  /** A run id of 1002 letters is accepted on import, and its artifact is refused on reading. */
  lemma LongRunIdRefused(h: Hashing, createdAt: string)
    requires Hashes(h)
    ensures var summary := Obj(Sample(seq(1002, _ => 'a')));
            && Import(summary, OpenScanner()).Ok?
            && ScorecardEvidence(BuildArtifact(summary, createdAt, OpenScanner(), h).value, OpenScanner(), h).Err?
  {
    hide Sample, FieldsOk, Bounded, BuildArtifact, ScorecardEvidence, Digest, HexDigest;
    var runId := seq(1002, _ => 'a');
    var summary := Obj(Sample(runId));
    SampleFieldsOk(runId);
    SampleBounded(runId);
    SampleAt(runId, AdapterRunId);
    RunIdText(runId);
    AsciiLength(runId);
    EverythingClean(summary);
    ArtifactReadBackExactly(summary, createdAt, OpenScanner(), h);
  }

  lemma {:induction false} EverythingClean(v: Json)
    ensures Clean(v, OpenScanner())
    decreases v
  {
    match v
    case Arr(items) => forall i | 0 <= i < |items| ensures Clean(items[i], OpenScanner()) { EverythingClean(items[i]); }
    case Obj(fields) => forall k | k in fields ensures Clean(fields[k], OpenScanner()) { EverythingClean(fields[k]); }
    case _ =>
  }
}
