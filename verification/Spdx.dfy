/** The SPDX document: the builder and the independent verifier of
    scripts/release_provenance.py.  `shortHash` stands for the first 16 hex digits
    of the SHA-256 of a component's canonical JSON; nothing is assumed of it. */
module Spdx {
  import opened Text
  import opened Ordering
  import opened Inventory
  import PackageUrl

  datatype Reference = Reference(kind: string, locator: string)

  datatype SpdxPackage = SpdxPackage(
    id: string, name: string, version: string, checksums: seq<string>, refs: seq<Reference>)

  datatype Relationship = Relationship(element: string, kind: string, related: string)

  datatype Sbom = Sbom(packages: seq<SpdxPackage>, relationships: seq<Relationship>)

  datatype Metadata = Metadata(
    repository: string, sourceCommit: string, target: string, artifactName: string, packageKind: string, ref: string)

  const DOCUMENT := "SPDXRef-DOCUMENT"
  const PURL := "purl"
  const LOCKFILE_SOURCE := "acp:lockfile-source"
  const REQUIRED_LOCKFILES: set<string> := {"Cargo.lock", "dashboard/bun.lock", "sdk/typescript/bun.lock"}

  // ---- The builder.

  predicate Hex(s: string, n: nat) {
    |s| == n && forall i :: 0 <= i < n ==> '0' <= s[i] <= '9' || 'a' <= s[i] <= 'f'
  }

  predicate MetadataOk(m: Metadata, sha: string, size: int) {
    && Hex(sha, 64) && size >= 0 && m.repository != "" && Hex(m.sourceCommit, 40)
    && m.target != "" && m.artifactName != "" && (m.packageKind == "package" || m.packageKind == "container")
  }

  predicate ComponentOk(p: Package) {
    p.ecosystem != "" && p.name != "" && p.version != "" && p.source != "" && p.lockfile != "" && p.purl != ""
  }

  function SubjectId(sha: string): string { "SPDXRef-Subject-" + if |sha| < 16 then sha else sha[..16] }

  function ComponentId(p: Package, shortHash: Package -> string): string { "SPDXRef-Package-" + shortHash(p) }

  function Subject(m: Metadata, sha: string): SpdxPackage {
    SpdxPackage(SubjectId(sha), m.artifactName, if m.ref == "" then "unknown" else m.ref, [sha], [])
  }

  function Component(p: Package, shortHash: Package -> string): SpdxPackage {
    SpdxPackage(ComponentId(p, shortHash), p.name, p.version, [],
                [Reference(PURL, p.purl), Reference(LOCKFILE_SOURCE, p.lockfile)])
  }

  function Components(ps: seq<Package>, shortHash: Package -> string): (r: seq<SpdxPackage>)
    ensures |r| == |ps| && forall i :: 0 <= i < |ps| ==> r[i] == Component(ps[i], shortHash)
  {
    seq(|ps|, i requires 0 <= i < |ps| => Component(ps[i], shortHash))
  }

  function Dependencies(ps: seq<Package>, subject: string, shortHash: Package -> string): (r: seq<Relationship>)
    ensures |r| == |ps|
    ensures forall i :: 0 <= i < |ps| ==> r[i] == Relationship(subject, "DEPENDS_ON", ComponentId(ps[i], shortHash))
  {
    seq(|ps|, i requires 0 <= i < |ps| => Relationship(subject, "DEPENDS_ON", ComponentId(ps[i], shortHash)))
  }

  // The ids of the components at one lockfile and package URL, in order.
  function IdsOf(ps: seq<Package>, lockfile: string, purl: string, shortHash: Package -> string): seq<string> {
    if ps == [] then []
    else
      var n := |ps| - 1;
      IdsOf(ps[..n], lockfile, purl, shortHash) +
      if ps[n].lockfile == lockfile && ps[n].purl == purl then [ComponentId(ps[n], shortHash)] else []
  }

  predicate EdgeResolves(ps: seq<Package>, e: Edge, shortHash: Package -> string) {
    |IdsOf(ps, e.lockfile, e.from, shortHash)| == 1 && |IdsOf(ps, e.lockfile, e.to, shortHash)| == 1
  }

  function EdgeRelationship(ps: seq<Package>, e: Edge, shortHash: Package -> string): Relationship
    requires EdgeResolves(ps, e, shortHash)
  {
    Relationship(IdsOf(ps, e.lockfile, e.from, shortHash)[0], "DEPENDS_ON", IdsOf(ps, e.lockfile, e.to, shortHash)[0])
  }

  ghost predicate AllResolve(ps: seq<Package>, es: seq<Edge>, shortHash: Package -> string) {
    forall i :: 0 <= i < |es| ==> EdgeResolves(ps, es[i], shortHash)
  }

  ghost function EdgeRelationships(ps: seq<Package>, es: seq<Edge>, shortHash: Package -> string): (r: seq<Relationship>)
    requires AllResolve(ps, es, shortHash)
    ensures |r| == |es| && forall i :: 0 <= i < |es| ==> r[i] == EdgeRelationship(ps, es[i], shortHash)
  {
    seq(|es|, i requires 0 <= i < |es| => EdgeRelationship(ps, es[i], shortHash))
  }

  /** The document of an inventory whose edges resolve. */
  ghost function Document(m: Metadata, sha: string, inv: Inventory, shortHash: Package -> string): Sbom
    requires AllResolve(SortBy(inv.packages, Identity), inv.relationships, shortHash)
  {
    var ps := SortBy(inv.packages, Identity);
    Sbom([Subject(m, sha)] + Components(ps, shortHash),
         [Relationship(DOCUMENT, "DESCRIBES", SubjectId(sha))] +
         (Dependencies(ps, SubjectId(sha), shortHash) + EdgeRelationships(ps, inv.relationships, shortHash)))
  }

  type PackageIds = map<(string, string), seq<string>>

  function IdsAt(ids: PackageIds, lockfile: string, purl: string): seq<string> {
    if (lockfile, purl) in ids then ids[(lockfile, purl)] else []
  }

  ghost predicate IdsIndexed(ids: PackageIds, ps: seq<Package>, shortHash: Package -> string) {
    forall lockfile, purl :: IdsAt(ids, lockfile, purl) == IdsOf(ps, lockfile, purl, shortHash)
  }

  lemma IdsOneMore(ids: PackageIds, ps: seq<Package>, p: Package, shortHash: Package -> string)
    requires IdsIndexed(ids, ps, shortHash)
    ensures IdsIndexed(ids[(p.lockfile, p.purl) := IdsAt(ids, p.lockfile, p.purl) + [ComponentId(p, shortHash)]],
                       ps + [p], shortHash)
  {
    hide ComponentId;
    var more := ps + [p];
    assert more[..|ps|] == ps;
    var after := ids[(p.lockfile, p.purl) := IdsAt(ids, p.lockfile, p.purl) + [ComponentId(p, shortHash)]];
    forall lockfile, purl ensures IdsAt(after, lockfile, purl) == IdsOf(more, lockfile, purl, shortHash) {
      assert IdsAt(ids, lockfile, purl) == IdsOf(ps, lockfile, purl, shortHash);
    }
  }

  method BuildComponents(ps: seq<Package>, subject: string, shortHash: Package -> string)
    returns (ok: bool, packages: seq<SpdxPackage>, relationships: seq<Relationship>, ids: PackageIds)
    ensures ok <==> DistinctBy(ps, Identity)
    ensures ok ==> packages == Components(ps, shortHash) && relationships == Dependencies(ps, subject, shortHash)
    ensures ok ==> IdsIndexed(ids, ps, shortHash)
  {
    hide Component, ComponentId, IdsOf, IdsAt, IdsIndexed, Identity;
    packages, relationships, ids := [], [], map[];
    var seen: set<Key> := {};
    NothingIndexedYet(shortHash);
    assert ps[..0] == [];
    for i := 0 to |ps|
      invariant |packages| == |relationships| == i
      invariant forall k :: 0 <= k < i ==> packages[k] == Component(ps[k], shortHash)
      invariant forall k :: 0 <= k < i ==> relationships[k] == Relationship(subject, "DEPENDS_ON", ComponentId(ps[k], shortHash))
      invariant forall key :: key in seen <==> exists k :: 0 <= k < i && Identity(ps[k]) == key
      invariant forall k, l :: 0 <= k < l < i ==> Identity(ps[k]) != Identity(ps[l])
      invariant IdsIndexed(ids, ps[..i], shortHash)
    {
      var component := ps[i];
      if Identity(component) in seen { return false, packages, relationships, ids; }
      seen := seen + {Identity(component)};
      packages := packages + [Component(component, shortHash)];
      relationships := relationships + [Relationship(subject, "DEPENDS_ON", ComponentId(component, shortHash))];
      IdsOneMore(ids, ps[..i], component, shortHash);
      assert ps[..i + 1] == ps[..i] + [component];
      ids := ids[(component.lockfile, component.purl) :=
        IdsAt(ids, component.lockfile, component.purl) + [ComponentId(component, shortHash)]];
    }
    assert ps[..|ps|] == ps;
    ok := true;
  }

  /** What the builder asks for. */
  ghost predicate Buildable(m: Metadata, sha: string, size: int, inv: Inventory, shortHash: Package -> string) {
    var ps := SortBy(inv.packages, Identity);
    && MetadataOk(m, sha, size) && (forall i :: 0 <= i < |ps| ==> ComponentOk(ps[i]))
    && DistinctBy(ps, Identity) && AllResolve(ps, inv.relationships, shortHash)
  }

  /** Refuses exactly bad metadata, an incomplete component, a repeated identity or
      an edge whose ends do not each name one component; otherwise builds the document. */
  method BuildSpdxSbom(m: Metadata, sha: string, size: int, inv: Inventory, shortHash: Package -> string)
    returns (r: Result<Sbom>)
    ensures r.Ok? <==> Buildable(m, sha, size, inv, shortHash)
    ensures r.Ok? ==> r.value == Document(m, sha, inv, shortHash)
  {
    hide SortBy, IdsIndexed, Identity, Subject, SubjectId, ComponentOk, MetadataOk, DistinctBy, AllResolve;
    var normalized := SortBy(inv.packages, Identity);
    if !MetadataOk(m, sha, size) { return Err("invalid release metadata"); }
    for i := 0 to |normalized|
      invariant forall k :: 0 <= k < i ==> ComponentOk(normalized[k])
    {
      if !ComponentOk(normalized[i]) { return Err("required string field missing"); }
    }
    var ok, packages, relationships, ids := BuildComponents(normalized, SubjectId(sha), shortHash);
    if !ok { return Err("duplicate SPDX package identity"); }
    var edges := ResolveEdges(inv.relationships, ids, normalized, shortHash);
    if edges.Err? { return Err(edges.error); }
    r := Ok(Sbom([Subject(m, sha)] + packages,
                 [Relationship(DOCUMENT, "DESCRIBES", SubjectId(sha))] + (relationships + edges.value)));
  }

  lemma NothingIndexedYet(shortHash: Package -> string)
    ensures IdsIndexed(map[], [], shortHash)
  {
  }

  method ResolveEdges(es: seq<Edge>, ids: PackageIds, ghost ps: seq<Package>, ghost shortHash: Package -> string)
    returns (r: Result<seq<Relationship>>)
    requires IdsIndexed(ids, ps, shortHash)
    ensures r.Ok? <==> AllResolve(ps, es, shortHash)
    ensures r.Ok? ==> r.value == EdgeRelationships(ps, es, shortHash)
  {
    hide IdsOf, IdsAt;
    var out: seq<Relationship> := [];
    for i := 0 to |es|
      invariant |out| == i
      invariant forall k :: 0 <= k < i ==> EdgeResolves(ps, es[k], shortHash) && out[k] == EdgeRelationship(ps, es[k], shortHash)
    {
      var e := es[i];
      var sourceIds, targetIds := IdsAt(ids, e.lockfile, e.from), IdsAt(ids, e.lockfile, e.to);
      if |sourceIds| != 1 || |targetIds| != 1 {
        assert !EdgeResolves(ps, e, shortHash);
        return Err("dependency relationship package identity is ambiguous");
      }
      out := out + [Relationship(sourceIds[0], "DEPENDS_ON", targetIds[0])];
    }
    r := Ok(out);
  }

  // ---- Edges of a loaded inventory always resolve.

  lemma {:induction false} IdsOfNone(ps: seq<Package>, lockfile: string, purl: string, shortHash: Package -> string)
    requires forall i :: 0 <= i < |ps| ==> !(ps[i].lockfile == lockfile && ps[i].purl == purl)
    ensures IdsOf(ps, lockfile, purl, shortHash) == []
  {
    if ps != [] { IdsOfNone(ps[..|ps| - 1], lockfile, purl, shortHash); }
  }

  lemma {:induction false} IdsOfOne(ps: seq<Package>, k: nat, lockfile: string, purl: string, shortHash: Package -> string)
    requires k < |ps| && ps[k].lockfile == lockfile && ps[k].purl == purl
    requires forall i :: 0 <= i < |ps| && i != k ==> !(ps[i].lockfile == lockfile && ps[i].purl == purl)
    ensures IdsOf(ps, lockfile, purl, shortHash) == [ComponentId(ps[k], shortHash)]
  {
    hide ComponentId;
    var n := |ps| - 1;
    if k == n { IdsOfNone(ps[..n], lockfile, purl, shortHash); } else { IdsOfOne(ps[..n], k, lockfile, purl, shortHash); }
  }

  ghost predicate Sorted(inv: Inventory) { SortedBy(inv.packages, Identity) }

  lemma EndpointResolves(inv: Inventory, lockfile: string, purl: string, shortHash: Package -> string)
    requires Sound(inv) && Endpoint(inv.packages, lockfile, purl)
    ensures exists k :: 0 <= k < |inv.packages| && inv.packages[k].lockfile == lockfile && inv.packages[k].purl == purl &&
                        IdsOf(inv.packages, lockfile, purl, shortHash) == [ComponentId(inv.packages[k], shortHash)]
  {
    hide Sound, ComponentId, IdsOf;
    var k :| 0 <= k < |inv.packages| && inv.packages[k].lockfile == lockfile && inv.packages[k].purl == purl;
    forall i | 0 <= i < |inv.packages| && i != k
      ensures !(inv.packages[i].lockfile == lockfile && inv.packages[i].purl == purl)
    {
      if inv.packages[i].lockfile == lockfile && inv.packages[i].purl == purl { EndpointUnique(inv, i, k); }
    }
    IdsOfOne(inv.packages, k, lockfile, purl, shortHash);
  }

  /** The builder's "ambiguous" error cannot arise from a loaded inventory, whose
      packages are sorted by identity. */
  lemma LoadedEdgesResolve(inv: Inventory, shortHash: Package -> string)
    requires Sound(inv) && Sorted(inv)
    ensures SortBy(inv.packages, Identity) == inv.packages
    ensures AllResolve(inv.packages, inv.relationships, shortHash)
  {
    hide SortBy, IdsOf, Endpoint, ComponentId;
    SortOfSorted(inv.packages, Identity);
    forall i | 0 <= i < |inv.relationships| ensures EdgeResolves(inv.packages, inv.relationships[i], shortHash) {
      var e := inv.relationships[i];
      assert e in inv.relationships;
      EndpointResolves(inv, e.lockfile, e.from, shortHash);
      EndpointResolves(inv, e.lockfile, e.to, shortHash);
    }
  }

  // ---- The verifier.

  function Locators(refs: seq<Reference>, kind: string): seq<string> {
    if refs == [] then []
    else
      var n := |refs| - 1;
      Locators(refs[..n], kind) + if refs[n].kind == kind then [refs[n].locator] else []
  }

  predicate DependencyOk(p: SpdxPackage) {
    var purls, sources := Locators(p.refs, PURL), Locators(p.refs, LOCKFILE_SOURCE);
    && p.id != "" && p.version != "" && p.version != "locked"
    && |purls| == 1 && ("pkg:cargo/" <= purls[0] || "pkg:npm/" <= purls[0])
    && |sources| == 1 && sources[0] in REQUIRED_LOCKFILES
  }

  function DependencyIdentity(p: SpdxPackage): (string, string)
    requires DependencyOk(p)
  {
    (Locators(p.refs, PURL)[0], Locators(p.refs, LOCKFILE_SOURCE)[0])
  }

  ghost predicate SoleSubject(ps: seq<SpdxPackage>, s: nat, name: string) {
    s < |ps| && forall i :: 0 <= i < |ps| ==> (ps[i].name == name <==> i == s)
  }

  ghost predicate DependenciesDistinct(ps: seq<SpdxPackage>, s: nat) {
    && (forall i :: 0 <= i < |ps| && i != s ==> DependencyOk(ps[i]))
    && forall i, j :: 0 <= i < j < |ps| && i != s && j != s ==>
         ps[i].id != ps[j].id && DependencyIdentity(ps[i]) != DependencyIdentity(ps[j])
  }

  ghost function DependencyIds(ps: seq<SpdxPackage>, s: nat): set<string> {
    set i | 0 <= i < |ps| && i != s :: ps[i].id
  }

  ghost function DescribedIds(rs: seq<Relationship>, subject: string): set<string> {
    set k | 0 <= k < |rs| && rs[k].element == subject && rs[k].kind == "DEPENDS_ON" :: rs[k].related
  }

  ghost predicate Verified(sbom: Sbom, s: nat, name: string, sha: string) {
    var ps := sbom.packages;
    && SoleSubject(ps, s, name)
    && ps[s].checksums == [sha]
    && Relationship(DOCUMENT, "DESCRIBES", ps[s].id) in sbom.relationships
    && |ps| > 1
    && DependenciesDistinct(ps, s)
    && DescribedIds(sbom.relationships, ps[s].id) == DependencyIds(ps, s)
  }

  /** The verifier accepts exactly the documents with one subject of the artifact's
      name and digest, described by the document, whose other packages are distinct
      locked dependencies and are exactly what the subject depends on. */
  method VerifySpdx(sbom: Sbom, name: string, sha: string) returns (ok: bool)
    ensures ok <==> exists s :: Verified(sbom, s, name, sha)
  {
    hide DependencyOk, DependencyIdentity;
    var packages, relationships := sbom.packages, sbom.relationships;
    var found, s := FindSubject(packages, name);
    if !found { return false; }
    forall t: nat | SoleSubject(packages, t, name) ensures t == s { assert packages[t].name == name; }
    if packages[s].checksums != [sha] { return false; }
    var subjectId := packages[s].id;
    if Relationship(DOCUMENT, "DESCRIBES", subjectId) !in relationships { return false; }
    if |packages| == 1 { return false; }
    var distinct, dependencyIds := CheckDependencies(packages, s);
    if !distinct { return false; }
    var described: set<string> := {};
    for k := 0 to |relationships|
      invariant described == DescribedIds(relationships[..k], subjectId)
    {
      DescribedOneMore(relationships, k, subjectId);
      if relationships[k].element == subjectId && relationships[k].kind == "DEPENDS_ON" {
        described := described + {relationships[k].related};
      }
    }
    assert relationships[..|relationships|] == relationships;
    ok := described == dependencyIds;
    assert ok ==> Verified(sbom, s, name, sha);
  }

  lemma DescribedOneMore(rs: seq<Relationship>, k: nat, subject: string)
    requires k < |rs|
    ensures DescribedIds(rs[..k + 1], subject) ==
            DescribedIds(rs[..k], subject) +
            if rs[k].element == subject && rs[k].kind == "DEPENDS_ON" then {rs[k].related} else {}
  {
  }

  method FindSubject(packages: seq<SpdxPackage>, name: string) returns (found: bool, s: nat)
    ensures found ==> SoleSubject(packages, s, name)
    ensures !found ==> forall t: nat :: !SoleSubject(packages, t, name)
  {
    var subjects: seq<nat> := [];
    for i := 0 to |packages|
      invariant forall k :: 0 <= k < |subjects| ==> subjects[k] < i && packages[subjects[k]].name == name
      invariant forall j :: 0 <= j < i && packages[j].name == name ==> j in subjects
      invariant forall k, l :: 0 <= k < l < |subjects| ==> subjects[k] < subjects[l]
    {
      if packages[i].name == name { subjects := subjects + [i]; }
    }
    if |subjects| != 1 {
      forall t: nat ensures !SoleSubject(packages, t, name) {
        if t < |packages| && packages[t].name == name {
          var other := if subjects[0] == t then subjects[1] else subjects[0];
          assert packages[other].name == name && other != t;
        }
      }
      return false, 0;
    }
    return true, subjects[0];
  }

  method CheckDependencies(ps: seq<SpdxPackage>, s: nat) returns (ok: bool, ids: set<string>)
    requires s < |ps|
    ensures ok <==> DependenciesDistinct(ps, s)
    ensures ok ==> ids == DependencyIds(ps, s)
  {
    hide DependencyOk, DependencyIdentity;
    ids := {};
    var identities: set<(string, string)> := {};
    for i := 0 to |ps|
      invariant forall k :: 0 <= k < i && k != s ==> DependencyOk(ps[k])
      invariant forall k, l :: 0 <= k < l < i && k != s && l != s ==>
                  ps[k].id != ps[l].id && DependencyIdentity(ps[k]) != DependencyIdentity(ps[l])
      invariant forall x :: x in ids <==> exists k :: 0 <= k < i && k != s && ps[k].id == x
      invariant forall x :: x in identities <==> exists k :: 0 <= k < i && k != s && DependencyIdentity(ps[k]) == x
    {
      if i == s { continue; }
      var package := ps[i];
      if !DependencyOk(package) || package.id in ids { return false, ids; }
      ids := ids + {package.id};
      var identity := DependencyIdentity(package);
      if identity in identities { return false, ids; }
      identities := identities + {identity};
    }
    ok := true;
  }

  // ---- The builder and the verifier agree.

  lemma ComponentLocators(p: Package, shortHash: Package -> string)
    ensures var refs := Component(p, shortHash).refs;
            Locators(refs, PURL) == [p.purl] && Locators(refs, LOCKFILE_SOURCE) == [p.lockfile]
  {
    var refs := Component(p, shortHash).refs;
    assert refs[..1] == [Reference(PURL, p.purl)];
    assert refs[..1][..0] == [];
    assert Locators(refs[..1], PURL) == [p.purl] && Locators(refs[..1], LOCKFILE_SOURCE) == [];
  }

  lemma ComponentDependencyOk(p: Package, shortHash: Package -> string)
    requires PackageSound(p) && Complete(p)
    ensures DependencyOk(Component(p, shortHash)) <==> p.version != "locked" && p.lockfile in REQUIRED_LOCKFILES
    ensures DependencyOk(Component(p, shortHash)) ==> DependencyIdentity(Component(p, shortHash)) == (p.purl, p.lockfile)
  {
    hide Locators;
    ComponentLocators(p, shortHash);
    PurlPrefix(p);
  }

  lemma PurlPrefix(p: Package)
    requires PackageSound(p)
    ensures "pkg:cargo/" <= p.purl || "pkg:npm/" <= p.purl
  {
  }

  lemma IdsApart(sha: string, p: Package, shortHash: Package -> string)
    ensures SubjectId(sha) != ComponentId(p, shortHash) && SubjectId(sha) != DOCUMENT
  {
    assert SubjectId(sha)[8] == 'S' && ComponentId(p, shortHash)[8] == 'P' && DOCUMENT[8] == 'D';
  }

  /** What a caller must know before the call for the verifier to accept. */
  ghost predicate Releasable(m: Metadata, inv: Inventory, shortHash: Package -> string) {
    var ps := inv.packages;
    && (forall i :: 0 <= i < |ps| ==>
          ps[i].name != m.artifactName && ps[i].version != "locked" && ps[i].lockfile in REQUIRED_LOCKFILES)
    && forall i, j :: 0 <= i < j < |ps| ==> shortHash(ps[i]) != shortHash(ps[j])
  }

  // The parts of a built document, for a sorted inventory.
  lemma DocumentParts(m: Metadata, sha: string, inv: Inventory, shortHash: Package -> string)
    requires Sound(inv) && Sorted(inv) && AllResolve(SortBy(inv.packages, Identity), inv.relationships, shortHash)
    ensures var d, ps := Document(m, sha, inv, shortHash), inv.packages;
            && |d.packages| == |ps| + 1 && d.packages[0] == Subject(m, sha)
            && (forall i :: 0 <= i < |ps| ==> d.packages[i + 1] == Component(ps[i], shortHash))
            && Relationship(DOCUMENT, "DESCRIBES", SubjectId(sha)) in d.relationships
            && DescribedIds(d.relationships, SubjectId(sha)) == (set i | 0 <= i < |ps| :: ComponentId(ps[i], shortHash))
  {
    hide SortBy, Component, ComponentId, SubjectId, Subject, IdsOf, Sound;
    LoadedEdgesResolve(inv, shortHash);
    var d, ps, subject := Document(m, sha, inv, shortHash), inv.packages, SubjectId(sha);
    var dependencies := Dependencies(ps, subject, shortHash);
    var edges := EdgeRelationships(ps, inv.relationships, shortHash);
    assert d.relationships[0] == Relationship(DOCUMENT, "DESCRIBES", subject);
    forall k | 0 <= k < |edges| ensures edges[k].element != subject {
      EdgeElement(inv, k, sha, shortHash);
    }
    forall i | 0 <= i < |ps| ensures d.relationships[i + 1] == dependencies[i] {}
    forall k | |ps| < k < |d.relationships| ensures d.relationships[k] == edges[k - 1 - |ps|] {}
    DescribedBySubject(d.relationships, ps, sha, shortHash);
  }

  lemma EdgeElement(inv: Inventory, k: nat, sha: string, shortHash: Package -> string)
    requires Sound(inv) && k < |inv.relationships| && AllResolve(inv.packages, inv.relationships, shortHash)
    ensures EdgeRelationship(inv.packages, inv.relationships[k], shortHash).element != SubjectId(sha)
  {
    hide ComponentId, SubjectId, IdsOf, Endpoint;
    var e := inv.relationships[k];
    assert e in inv.relationships;
    EndpointResolves(inv, e.lockfile, e.from, shortHash);
    var i :| 0 <= i < |inv.packages| && IdsOf(inv.packages, e.lockfile, e.from, shortHash) == [ComponentId(inv.packages[i], shortHash)];
    IdsApart(sha, inv.packages[i], shortHash);
  }

  lemma DescribedBySubject(rs: seq<Relationship>, ps: seq<Package>, sha: string, shortHash: Package -> string)
    requires |rs| > |ps| && rs[0] == Relationship(DOCUMENT, "DESCRIBES", SubjectId(sha))
    requires forall i :: 0 <= i < |ps| ==> rs[i + 1] == Relationship(SubjectId(sha), "DEPENDS_ON", ComponentId(ps[i], shortHash))
    requires forall k :: |ps| < k < |rs| ==> rs[k].element != SubjectId(sha)
    ensures DescribedIds(rs, SubjectId(sha)) == (set i | 0 <= i < |ps| :: ComponentId(ps[i], shortHash))
  {
    hide ComponentId, SubjectId;
    var wanted := set i | 0 <= i < |ps| :: ComponentId(ps[i], shortHash);
    forall x | x in wanted ensures x in DescribedIds(rs, SubjectId(sha)) {
      var i :| 0 <= i < |ps| && ComponentId(ps[i], shortHash) == x;
      assert rs[i + 1].related == x;
    }
    forall x | x in DescribedIds(rs, SubjectId(sha)) ensures x in wanted {
      var k :| 0 <= k < |rs| && rs[k].element == SubjectId(sha) && rs[k].kind == "DEPENDS_ON" && rs[k].related == x;
      assert |"DESCRIBES"| != |"DEPENDS_ON"|;
      var i := k - 1;
      assert 0 <= i < |ps| && rs[i + 1].related == ComponentId(ps[i], shortHash);
    }
  }

  lemma OnlyFirstNamed(m: Metadata, sha: string, d: Sbom, ps: seq<Package>, shortHash: Package -> string)
    requires |d.packages| == |ps| + 1 && d.packages[0] == Subject(m, sha)
    requires forall i :: 0 <= i < |ps| ==> d.packages[i + 1] == Component(ps[i], shortHash)
    ensures SoleSubject(d.packages, 0, m.artifactName) <==> forall i :: 0 <= i < |ps| ==> ps[i].name != m.artifactName
    ensures forall s: nat :: SoleSubject(d.packages, s, m.artifactName) ==> s == 0
  {
    hide ComponentId, SubjectId;
    assert d.packages[0].name == m.artifactName;
    if SoleSubject(d.packages, 0, m.artifactName) {
      forall i | 0 <= i < |ps| ensures ps[i].name != m.artifactName { assert d.packages[i + 1].name == ps[i].name; }
    }
    if forall i :: 0 <= i < |ps| ==> ps[i].name != m.artifactName {
      forall k | 0 <= k < |d.packages| ensures d.packages[k].name == m.artifactName <==> k == 0 {
        if k > 0 { assert d.packages[k] == d.packages[(k - 1) + 1] == Component(ps[k - 1], shortHash); }
      }
    }
  }

  lemma DistinctIffReleasable(d: Sbom, inv: Inventory, shortHash: Package -> string)
    requires Sound(inv) && |d.packages| == |inv.packages| + 1
    requires forall i :: 0 <= i < |inv.packages| ==> d.packages[i + 1] == Component(inv.packages[i], shortHash)
    ensures DependenciesDistinct(d.packages, 0) <==>
            && (forall i :: 0 <= i < |inv.packages| ==> inv.packages[i].version != "locked" && inv.packages[i].lockfile in REQUIRED_LOCKFILES)
            && (forall i, j :: 0 <= i < j < |inv.packages| ==> shortHash(inv.packages[i]) != shortHash(inv.packages[j]))
  {
    hide DependencyOk, DependencyIdentity, PackageSound, Complete, EdgesSound, FromLockfile;
    var ps := inv.packages;
    forall i | 0 <= i < |ps|
      ensures DependencyOk(d.packages[i + 1]) <==> ps[i].version != "locked" && ps[i].lockfile in REQUIRED_LOCKFILES
      ensures DependencyOk(d.packages[i + 1]) ==> DependencyIdentity(d.packages[i + 1]) == (ps[i].purl, ps[i].lockfile)
    {
      assert ps[i] in ps;
      ComponentDependencyOk(ps[i], shortHash);
    }
    if DependenciesDistinct(d.packages, 0) {
      forall i, j | 0 <= i < j < |ps| ensures shortHash(ps[i]) != shortHash(ps[j]) {
        assert d.packages[i + 1].id != d.packages[j + 1].id;
      }
    }
    if && (forall i :: 0 <= i < |ps| ==> ps[i].version != "locked" && ps[i].lockfile in REQUIRED_LOCKFILES)
       && (forall i, j :: 0 <= i < j < |ps| ==> shortHash(ps[i]) != shortHash(ps[j])) {
      forall k | 0 <= k < |d.packages| && k != 0 ensures DependencyOk(d.packages[k]) {
        var i := k - 1;
        assert ps[i].version != "locked" && d.packages[k] == d.packages[i + 1];
      }
      forall k, l | 0 <= k < l < |d.packages| && k != 0
        ensures d.packages[k].id != d.packages[l].id && DependencyIdentity(d.packages[k]) != DependencyIdentity(d.packages[l])
      {
        var i, j := k - 1, l - 1;
        assert d.packages[k] == d.packages[i + 1] && d.packages[l] == d.packages[j + 1];
        SameIdSameHash(ps[i], ps[j], shortHash);
        if ps[i].purl == ps[j].purl && ps[i].lockfile == ps[j].lockfile { EndpointUnique(inv, i, j); }
      }
    }
  }

  lemma SameIdSameHash(p: Package, q: Package, shortHash: Package -> string)
    ensures ComponentId(p, shortHash) == ComponentId(q, shortHash) ==> shortHash(p) == shortHash(q)
  {
    assert ComponentId(p, shortHash)[16..] == shortHash(p) && ComponentId(q, shortHash)[16..] == shortHash(q);
  }

  /** A document built from a loaded inventory is accepted exactly when no
      dependency has the artifact's name or the version "locked", every dependency
      comes from a required lockfile and the shortened hashes do not collide. */
  lemma BuiltVerifiedExactly(m: Metadata, sha: string, inv: Inventory, shortHash: Package -> string)
    requires Sound(inv) && Sorted(inv) && AllResolve(SortBy(inv.packages, Identity), inv.relationships, shortHash)
    ensures (exists s :: Verified(Document(m, sha, inv, shortHash), s, m.artifactName, sha)) <==>
            Releasable(m, inv, shortHash)
  {
    hide SortBy, Component, ComponentId, IdsOf, DependencyOk, DependencyIdentity, SoleSubject, DependenciesDistinct, AllResolve;
    var d, ps := Document(m, sha, inv, shortHash), inv.packages;
    DocumentParts(m, sha, inv, shortHash);
    OnlyFirstNamed(m, sha, d, ps, shortHash);
    DistinctIffReleasable(d, inv, shortHash);
    assert DependencyIds(d.packages, 0) == (set i | 0 <= i < |ps| :: ComponentId(ps[i], shortHash)) by {
      IdsOfDocument(d, ps, shortHash);
    }
    if s :| Verified(d, s, m.artifactName, sha) { assert s == 0; }
    if Releasable(m, inv, shortHash) { assert Verified(d, 0, m.artifactName, sha); }
  }

  lemma IdsOfDocument(d: Sbom, ps: seq<Package>, shortHash: Package -> string)
    requires |d.packages| == |ps| + 1
    requires forall i :: 0 <= i < |ps| ==> d.packages[i + 1] == Component(ps[i], shortHash)
    ensures DependencyIds(d.packages, 0) == (set i | 0 <= i < |ps| :: ComponentId(ps[i], shortHash))
  {
    hide ComponentId;
    var wanted := set i | 0 <= i < |ps| :: ComponentId(ps[i], shortHash);
    forall x | x in wanted ensures x in DependencyIds(d.packages, 0) {
      var i :| 0 <= i < |ps| && ComponentId(ps[i], shortHash) == x;
      assert d.packages[i + 1].id == x;
    }
    forall x | x in DependencyIds(d.packages, 0) ensures x in wanted {
      var k :| 0 <= k < |d.packages| && k != 0 && d.packages[k].id == x;
      var i := k - 1;
      assert d.packages[i + 1].id == ComponentId(ps[i], shortHash);
    }
  }

  /** A loaded inventory is built exactly when the metadata is in order and no Cargo record gives
      an empty source, which the loader accepts. */
  lemma LoadedBuiltExactly(
    lockfiles: seq<string>, contents: map<string, Content>, inv: Inventory, m: Metadata, sha: string, size: int, shortHash: Package -> string)
    requires IsLoaded(inv, lockfiles, contents)
    ensures Buildable(m, sha, size, inv, shortHash) <==>
            MetadataOk(m, sha, size) && forall path :: path in lockfiles ==> GivesSources(path, contents)
  {
    hide IsLoaded, Sound, AllResolve, SortBy, MetadataOk, GivesSources, ComponentOk, DistinctBy, SortedBy, Identity;
    LoadedInventorySound(lockfiles, contents, inv);
    LoadedEdgesResolve(inv, shortHash);
    LoadedSources(lockfiles, contents, inv);
    SoundComponents(inv);
  }

  lemma SoundComponents(inv: Inventory)
    requires Sound(inv)
    ensures DistinctBy(inv.packages, Identity)
    ensures (forall i :: 0 <= i < |inv.packages| ==> ComponentOk(inv.packages[i])) <==> HaveSources(inv.packages)
  {
    hide EdgesSound, FromLockfile, Identity, PackageUrl.Purl;
    var ps := inv.packages;
    forall i | 0 <= i < |ps| ensures ComponentOk(ps[i]) <==> ps[i].source != "" {
      assert ps[i] in ps && Complete(ps[i]) && PackageSound(ps[i]);
      PurlGiven(ps[i]);
    }
  }

  lemma PurlGiven(p: Package)
    requires PackageSound(p)
    ensures p.purl != ""
  {
  }

  /** Such an inventory: a lockfile whose one record has an empty source loads and is not built. */
  lemma EmptySourceNotBuilt(m: Metadata, sha: string, size: int, shortHash: Package -> string) returns (inv: Inventory)
    ensures IsLoaded(inv, ["Cargo.lock"], EMPTY_SOURCE) && !Buildable(m, sha, size, inv, shortHash)
  {
    hide IsLoaded, Buildable, GivesSources, EMPTY_SOURCE, MetadataOk;
    inv := EmptySourceLoads();
    LoadedBuiltExactly(["Cargo.lock"], EMPTY_SOURCE, inv, m, sha, size, shortHash);
  }

  /** From lockfiles to verified document: whatever lockfiles were loaded, building meets no
      ambiguous edge, it succeeds exactly when the metadata is in order and no Cargo record gives
      an empty source, and the verifier accepts exactly the releasable. */
  lemma LoadedBuiltVerified(
    lockfiles: seq<string>, contents: map<string, Content>, inv: Inventory, m: Metadata, sha: string, size: int, shortHash: Package -> string)
    requires IsLoaded(inv, lockfiles, contents)
    ensures AllResolve(SortBy(inv.packages, Identity), inv.relationships, shortHash)
    ensures Buildable(m, sha, size, inv, shortHash) <==>
            MetadataOk(m, sha, size) && forall path :: path in lockfiles ==> GivesSources(path, contents)
    ensures (exists s :: Verified(Document(m, sha, inv, shortHash), s, m.artifactName, sha)) <==>
            Releasable(m, inv, shortHash)
  {
    hide IsLoaded, Sound, AllResolve, Releasable, Verified, Document, Buildable, MetadataOk, GivesSources;
    LoadedInventorySound(lockfiles, contents, inv);
    LoadedEdgesResolve(inv, shortHash);
    LoadedBuiltExactly(lockfiles, contents, inv, m, sha, size, shortHash);
    BuiltVerifiedExactly(m, sha, inv, shortHash);
  }
}
