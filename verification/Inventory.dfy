/** The dependency graph read from Cargo and Bun lockfiles
    (scripts/release_provenance.py).  The lockfiles are already decoded: a missing
    string is the empty one, as the script refuses both. */
module Inventory {
  import opened Text
  import opened Ordering
  import PackageUrl

  datatype Package = Package(
    ecosystem: string, name: string, version: string, purl: string,
    source: string, lockfile: string, integrity: string)

  datatype Edge = Edge(from: string, to: string, lockfile: string)

  datatype Loaded = Loaded(packages: seq<Package>, edges: seq<Edge>)

  datatype CargoRecord = CargoRecord(
    name: string, version: string, dependencies: seq<string>,
    source: Option<string>, checksum: Option<string>)

  datatype BunRecord = BunRecord(
    resolution: string, integrity: string,
    dependencies: seq<Entry>, optionalDependencies: seq<Entry>, peerDependencies: seq<Entry>,
    optionalPeers: set<string>)

  // ---- Resolving a dependency to a package.

  datatype Target = To(package: Package) | Skipped | Unresolved

  function Named(packages: seq<Package>, name: string): seq<Package> {
    if packages == [] then []
    else
      var n := |packages| - 1;
      Named(packages[..n], name) + (if packages[n].name == name then [packages[n]] else [])
  }

  function Versioned(packages: seq<Package>, version: string): seq<Package> {
    if packages == [] then []
    else
      var n := |packages| - 1;
      Versioned(packages[..n], version) + (if packages[n].version == version then [packages[n]] else [])
  }

  // `text.rsplit(c, 1)` as the index of the last `c`, or -1.
  function LastIndex(text: string, c: char): (i: int)
    ensures -1 <= i < |text| && (i >= 0 ==> text[i] == c)
  {
    if text == "" then -1
    else if text[|text| - 1] == c then |text| - 1
    else LastIndex(text[..|text| - 1], c)
  }

  function Sole(candidates: seq<Package>): Target {
    if |candidates| == 1 then To(candidates[0]) else Unresolved
  }

  // `named` looks up the packages of a name.
  function CargoTarget(named: string -> seq<Package>, dependency: string): Target {
    var i := LastIndex(dependency, ' ');
    if i < 0 then Sole(named(dependency))
    else
      var candidates := named(dependency[..i]);
      var exact := Versioned(candidates, dependency[i + 1..]);
      Sole(if exact != [] then exact else candidates)
  }

  function BunTarget(named: string -> seq<Package>, dependency: Entry, optionalPeers: set<string>): Target {
    var candidates := named(dependency.key);
    var exact := Versioned(candidates, dependency.value);
    if exact != [] then To(exact[0])
    else if candidates == [] && dependency.key in optionalPeers then Skipped
    else Sole(candidates)
  }

  // ---- Edges.

  function EdgesOf(source: Package, targets: seq<Target>): Result<seq<Edge>> {
    if targets == [] then Ok([])
    else
      var n := |targets| - 1;
      var before := EdgesOf(source, targets[..n]);
      if before.Err? then before
      else
        match targets[n]
        case To(p) => Ok(before.value + [Edge(source.purl, p.purl, source.lockfile)])
        case Skipped => before
        case Unresolved => Err("dependency cannot be resolved exactly")
  }

  // The edges of the first `n` packages.
  function AllEdges(packages: seq<Package>, targets: seq<seq<Target>>, n: nat): Result<seq<Edge>>
    requires n <= |packages| == |targets|
  {
    if n == 0 then Ok([])
    else
      var before := AllEdges(packages, targets, n - 1);
      var more := EdgesOf(packages[n - 1], targets[n - 1]);
      if before.Err? then before else if more.Err? then more else Ok(before.value + more.value)
  }

  lemma {:induction false} EdgesErr(source: Package, targets: seq<Target>, n: nat)
    requires n <= |targets| && EdgesOf(source, targets[..n]).Err?
    ensures EdgesOf(source, targets).Err?
    decreases |targets| - n
  {
    if n < |targets| {
      assert targets[..n + 1][..n] == targets[..n];
      EdgesErr(source, targets, n + 1);
    } else {
      assert targets[..n] == targets;
    }
  }

  lemma {:induction false} AllEdgesErr(packages: seq<Package>, targets: seq<seq<Target>>, n: nat, m: nat)
    requires n <= m <= |packages| == |targets| && AllEdges(packages, targets, n).Err?
    ensures AllEdges(packages, targets, m).Err?
    decreases m - n
  {
    if n < m { AllEdgesErr(packages, targets, n + 1, m); }
  }

  method CollectEdges(packages: seq<Package>, targets: seq<seq<Target>>) returns (r: Result<seq<Edge>>)
    requires |packages| == |targets|
    ensures var spec := AllEdges(packages, targets, |packages|);
            if r.Ok? then spec == r else spec.Err?
  {
    var relationships: seq<Edge> := [];
    for i := 0 to |packages|
      invariant AllEdges(packages, targets, i) == Ok(relationships)
    {
      var source, resolved := packages[i], targets[i];
      ghost var base := relationships;
      for k := 0 to |resolved|
        invariant EdgesOf(source, resolved[..k]).Ok?
        invariant relationships == base + EdgesOf(source, resolved[..k]).value
      {
        assert resolved[..k + 1][..k] == resolved[..k];
        match resolved[k] {
          case To(p) => relationships := relationships + [Edge(source.purl, p.purl, source.lockfile)];
          case Skipped =>
          case Unresolved =>
            EdgesErr(source, resolved, k + 1);
            AllEdgesErr(packages, targets, i + 1, |packages|);
            return Err("dependency cannot be resolved exactly");
        }
      }
      assert resolved[..|resolved|] == resolved;
    }
    r := Ok(relationships);
  }

  // A dictionary from name to the packages of that name, in order.
  ghost predicate Indexes(byName: map<string, seq<Package>>, packages: seq<Package>) {
    forall name :: Lookup(byName, name) == Named(packages, name)
  }

  function Lookup(byName: map<string, seq<Package>>, name: string): seq<Package> {
    if name in byName then byName[name] else []
  }

  lemma IndexOneMore(byName: map<string, seq<Package>>, packages: seq<Package>, p: Package)
    requires Indexes(byName, packages)
    ensures Indexes(byName[p.name := Lookup(byName, p.name) + [p]], packages + [p])
  {
    var longer, after := packages + [p], byName[p.name := Lookup(byName, p.name) + [p]];
    assert longer[..|packages|] == packages;
    forall name ensures Lookup(after, name) == Named(longer, name) {
      assert Lookup(byName, name) == Named(packages, name);
      assert Named(longer, name) == Named(packages, name) + if p.name == name then [p] else [];
    }
  }

  // ---- Cargo.

  function CargoPackage(path: string, r: CargoRecord): Package {
    Package("cargo", r.name, r.version, PackageUrl.Purl("cargo", r.name, r.version),
            if r.source.None? then "workspace" else r.source.value, path, if r.checksum.Some? then r.checksum.value else "")
  }

  predicate CargoRecordOk(r: CargoRecord) {
    r.name != "" && r.version != "" && r.checksum != Some("") &&
    forall i :: 0 <= i < |r.dependencies| ==> r.dependencies[i] != ""
  }

  function CargoPackages(path: string, records: seq<CargoRecord>): (r: seq<Package>)
    ensures |r| == |records|
  {
    seq(|records|, i requires 0 <= i < |records| => CargoPackage(path, records[i]))
  }

  ghost function CargoTargets(packages: seq<Package>, records: seq<CargoRecord>): (r: seq<seq<Target>>)
    ensures |r| == |records|
  {
    seq(|records|, i requires 0 <= i < |records| => CargoRow(packages, records[i]))
  }

  ghost function CargoRow(packages: seq<Package>, r: CargoRecord): (row: seq<Target>)
    ensures |row| == |r.dependencies|
  {
    seq(|r.dependencies|, k requires 0 <= k < |r.dependencies| => CargoTarget(name => Named(packages, name), r.dependencies[k]))
  }

  ghost function CargoInventory(path: string, records: seq<CargoRecord>): Result<Loaded> {
    if records == [] || exists i :: 0 <= i < |records| && !CargoRecordOk(records[i]) then Err("malformed Cargo lockfile")
    else
      var packages := CargoPackages(path, records);
      var edges := AllEdges(packages, CargoTargets(packages, records), |packages|);
      if edges.Err? then Err(edges.error) else Ok(Loaded(packages, edges.value))
  }

  method LoadCargoInventory(path: string, records: seq<CargoRecord>) returns (r: Result<Loaded>)
    ensures var spec := CargoInventory(path, records); if r.Ok? then spec == r else spec.Err?
  {
    hide CargoPackage, CargoRecordOk, Indexes, CargoRow;
    if records == [] { return Err("Cargo lockfile has no packages"); }
    var packages: seq<Package> := [];
    var byName: map<string, seq<Package>> := map[];
    NothingIndexed();
    for i := 0 to |records|
      invariant |packages| == i
      invariant forall k :: 0 <= k < i ==> CargoRecordOk(records[k]) && packages[k] == CargoPackage(path, records[k])
      invariant Indexes(byName, packages)
    {
      if !CargoRecordOk(records[i]) { return Err("malformed Cargo package"); }
      var package := CargoPackage(path, records[i]);
      IndexOneMore(byName, packages, package);
      packages := packages + [package];
      byName := byName[package.name := Lookup(byName, package.name) + [package]];
    }
    assert packages == CargoPackages(path, records);
    var targets := ResolveCargo(byName, packages, records);
    var edges := CollectEdges(packages, targets);
    if edges.Err? { return Err(edges.error); }
    r := Ok(Loaded(packages, edges.value));
  }

  method ResolveCargo(byName: map<string, seq<Package>>, ghost packages: seq<Package>, records: seq<CargoRecord>)
    returns (targets: seq<seq<Target>>)
    requires Indexes(byName, packages)
    ensures targets == CargoTargets(packages, records)
  {
    hide Indexes, CargoTarget;
    targets := [];
    for i := 0 to |records|
      invariant |targets| == i
      invariant forall k :: 0 <= k < i ==> targets[k] == CargoRow(packages, records[k])
    {
      var row: seq<Target> := [];
      var dependencies := records[i].dependencies;
      for k := 0 to |dependencies|
        invariant |row| == k
        invariant forall l :: 0 <= l < k ==> row[l] == CargoTarget(name => Named(packages, name), dependencies[l])
      {
        SameCargoTarget(byName, packages, dependencies[k]);
        row := row + [CargoTarget(name => Lookup(byName, name), dependencies[k])];
      }
      assert row == CargoRow(packages, records[i]);
      targets := targets + [row];
    }
  }

  lemma NothingIndexed()
    ensures Indexes(map[], [])
  {
  }

  lemma SameCargoTarget(byName: map<string, seq<Package>>, packages: seq<Package>, dependency: string)
    requires Indexes(byName, packages)
    ensures CargoTarget(name => Lookup(byName, name), dependency) == CargoTarget(name => Named(packages, name), dependency)
  {
  }

  // ---- Bun.

  // The name and version of a resolution such as "@scope/name@1.2.3".
  function SplitResolution(resolution: string): Result<Entry> {
    var i := LastIndex(resolution, '@');
    if i <= 0 || i + 1 == |resolution| then Err("malformed Bun package resolution")
    else Ok(Entry(resolution[..i], resolution[i + 1..]))
  }

  function MergeDict(a: seq<Entry>, b: seq<Entry>): seq<Entry>
    decreases |b|
  {
    if b == [] then a else MergeDict(Put(a, b[0].key, b[0].value), b[1..])
  }

  function BunDependencies(r: BunRecord): seq<Entry> {
    MergeDict(MergeDict(MergeDict([], r.dependencies), r.optionalDependencies), r.peerDependencies)
  }

  predicate BunRecordOk(r: BunRecord) { r.integrity != "" && SplitResolution(r.resolution).Ok? }

  function BunPackage(path: string, r: BunRecord): Package
    requires BunRecordOk(r)
  {
    var id := SplitResolution(r.resolution).value;
    Package("npm", id.key, id.value, PackageUrl.Purl("npm", id.key, id.value), "bun-resolved", path, r.integrity)
  }

  ghost predicate BunRecordsOk(records: seq<BunRecord>) {
    && records != []
    && (forall i :: 0 <= i < |records| ==> BunRecordOk(records[i]))
    && forall i, j :: 0 <= i < j < |records| ==>
         SplitResolution(records[i].resolution) != SplitResolution(records[j].resolution)
  }

  ghost function BunPackages(path: string, records: seq<BunRecord>): (r: seq<Package>)
    requires BunRecordsOk(records)
    ensures |r| == |records|
  {
    seq(|records|, i requires 0 <= i < |records| => BunPackage(path, records[i]))
  }

  ghost function BunRow(packages: seq<Package>, r: BunRecord): (row: seq<Target>)
    ensures |row| == |BunDependencies(r)|
  {
    var dependencies := BunDependencies(r);
    seq(|dependencies|, k requires 0 <= k < |dependencies| =>
      BunTarget(name => Named(packages, name), dependencies[k], r.optionalPeers))
  }

  ghost function BunTargets(packages: seq<Package>, records: seq<BunRecord>): (r: seq<seq<Target>>)
    ensures |r| == |records|
  {
    seq(|records|, i requires 0 <= i < |records| => BunRow(packages, records[i]))
  }

  ghost function BunInventory(path: string, records: seq<BunRecord>): Result<Loaded> {
    if !BunRecordsOk(records) then Err("malformed Bun lockfile")
    else
      var packages := BunPackages(path, records);
      var edges := AllEdges(packages, BunTargets(packages, records), |packages|);
      if edges.Err? then Err(edges.error) else Ok(Loaded(packages, edges.value))
  }

  method LoadBunInventory(path: string, records: seq<BunRecord>) returns (r: Result<Loaded>)
    ensures var spec := BunInventory(path, records); if r.Ok? then spec == r else spec.Err?
  {
    hide SplitResolution, Indexes, BunRow;
    if records == [] { return Err("Bun lockfile has no packages"); }
    var packages: seq<Package> := [];
    var byName: map<string, seq<Package>> := map[];
    var identities: set<Entry> := {};
    NothingIndexed();
    for i := 0 to |records|
      invariant |packages| == i
      invariant forall k :: 0 <= k < i ==> BunRecordOk(records[k]) && packages[k] == BunPackage(path, records[k])
      invariant forall k, l :: 0 <= k < l < i ==> SplitResolution(records[k].resolution) != SplitResolution(records[l].resolution)
      invariant forall e :: e in identities <==> exists k :: 0 <= k < i && SplitResolution(records[k].resolution) == Ok(e)
      invariant Indexes(byName, packages)
    {
      if !BunRecordOk(records[i]) { return Err("malformed Bun package record"); }
      var package := BunPackage(path, records[i]);
      var identity := Entry(package.name, package.version);
      if identity in identities { return Err("duplicate/conflicting Bun package identity"); }
      identities := identities + {identity};
      IndexOneMore(byName, packages, package);
      packages := packages + [package];
      byName := byName[package.name := Lookup(byName, package.name) + [package]];
    }
    assert packages == BunPackages(path, records);
    var targets := ResolveBun(byName, packages, records);
    var edges := CollectEdges(packages, targets);
    if edges.Err? { return Err(edges.error); }
    r := Ok(Loaded(packages, edges.value));
  }

  method ResolveBun(byName: map<string, seq<Package>>, ghost packages: seq<Package>, records: seq<BunRecord>)
    returns (targets: seq<seq<Target>>)
    requires Indexes(byName, packages)
    ensures targets == BunTargets(packages, records)
  {
    hide Indexes, BunTarget, BunDependencies;
    targets := [];
    for i := 0 to |records|
      invariant |targets| == i
      invariant forall k :: 0 <= k < i ==> targets[k] == BunRow(packages, records[k])
    {
      var row: seq<Target> := [];
      var dependencies := BunDependencies(records[i]);
      for k := 0 to |dependencies|
        invariant |row| == k
        invariant forall l :: 0 <= l < k ==>
                    row[l] == BunTarget(name => Named(packages, name), dependencies[l], records[i].optionalPeers)
      {
        SameBunTarget(byName, packages, dependencies[k], records[i].optionalPeers);
        row := row + [BunTarget(name => Lookup(byName, name), dependencies[k], records[i].optionalPeers)];
      }
      assert row == BunRow(packages, records[i]);
      targets := targets + [row];
    }
  }

  lemma SameBunTarget(byName: map<string, seq<Package>>, packages: seq<Package>, dependency: Entry, peers: set<string>)
    requires Indexes(byName, packages)
    ensures BunTarget(name => Lookup(byName, name), dependency, peers) == BunTarget(name => Named(packages, name), dependency, peers)
  {
  }

  // ---- What a resolved dependency is.

  lemma {:induction false} VersionedExactly(packages: seq<Package>, version: string, p: Package)
    ensures p in Versioned(packages, version) <==> p in packages && p.version == version
  {
    if packages != [] {
      var n := |packages| - 1;
      VersionedExactly(packages[..n], version, p);
      assert packages == packages[..n] + [packages[n]];
    }
  }

  // The packages that satisfy a condition, in order.
  ghost function Filter(packages: seq<Package>, keep: Package -> bool): seq<Package> {
    if packages == [] then []
    else
      var n := |packages| - 1;
      Filter(packages[..n], keep) + (if keep(packages[n]) then [packages[n]] else [])
  }

  ghost predicate NoneIs(packages: seq<Package>, keep: Package -> bool) {
    forall k :: 0 <= k < |packages| ==> !keep(packages[k])
  }

  // One record satisfies the condition, and it is `p`.
  ghost predicate IsSole(packages: seq<Package>, p: Package, keep: Package -> bool) {
    exists k :: 0 <= k < |packages| && packages[k] == p && OnlyAt(packages, k, keep)
  }

  ghost predicate OnlyAt(packages: seq<Package>, k: int, keep: Package -> bool) {
    0 <= k < |packages| && keep(packages[k]) && forall j :: 0 <= j < |packages| && j != k ==> !keep(packages[j])
  }

  // The first record that satisfies the condition is `p`.
  ghost predicate IsFirst(packages: seq<Package>, p: Package, keep: Package -> bool) {
    exists k :: 0 <= k < |packages| && packages[k] == p && keep(p) && NoneIs(packages[..k], keep)
  }

  lemma {:induction false} FilterEmpty(packages: seq<Package>, keep: Package -> bool)
    ensures Filter(packages, keep) == [] <==> NoneIs(packages, keep)
  {
    if packages != [] {
      var n := |packages| - 1;
      FilterEmpty(packages[..n], keep);
      assert forall k :: 0 <= k < n ==> packages[..n][k] == packages[k];
    }
  }

  lemma {:induction false} FilterSole(packages: seq<Package>, p: Package, keep: Package -> bool)
    ensures Filter(packages, keep) == [p] <==> IsSole(packages, p, keep)
  {
    hide IsSole, NoneIs;
    if packages == [] {
      NoneSole(p, keep);
    } else {
      var n := |packages| - 1;
      var before, last := packages[..n], packages[n];
      var head := Filter(before, keep);
      FilterSole(before, p, keep);
      FilterEmpty(before, keep);
      assert packages == before + [last];
      SoleOneMore(before, last, p, keep);
      OneAtEnd(head, last, p);
      assert head + [] == head;
    }
  }

  lemma NoneSole(p: Package, keep: Package -> bool)
    ensures !IsSole([], p, keep)
  {
  }

  lemma OneAtEnd(head: seq<Package>, last: Package, p: Package)
    ensures head + [last] == [p] <==> head == [] && last == p
  {
    if head + [last] == [p] { assert |head| + 1 == |head + [last]| == 1 && (head + [last])[|head|] == last; }
  }

  lemma SoleOneMore(before: seq<Package>, last: Package, p: Package, keep: Package -> bool)
    ensures IsSole(before + [last], p, keep) <==>
            if keep(last) then NoneIs(before, keep) && last == p else IsSole(before, p, keep)
  {
    var n, all := |before|, before + [last];
    assert all[n] == last && forall k :: 0 <= k < n ==> all[k] == before[k];
    if k :| 0 <= k < |all| && all[k] == p && OnlyAt(all, k, keep) {
      if k < n { assert OnlyAt(before, k, keep); }
    }
    if keep(last) && NoneIs(before, keep) && last == p { assert OnlyAt(all, n, keep); }
    if !keep(last) && IsSole(before, p, keep) {
      var k :| 0 <= k < |before| && before[k] == p && OnlyAt(before, k, keep);
      assert OnlyAt(all, k, keep);
    }
  }

  lemma {:induction false} FilterFirst(packages: seq<Package>, p: Package, keep: Package -> bool)
    ensures Filter(packages, keep) != [] && Filter(packages, keep)[0] == p <==> IsFirst(packages, p, keep)
  {
    if packages != [] {
      var n := |packages| - 1;
      var before := packages[..n];
      assert forall k :: 0 <= k <= n ==> before[..k] == packages[..k];
      FilterFirst(before, p, keep);
      FilterEmpty(before, keep);
      if Filter(before, keep) == [] {
        forall k | 0 <= k < n ensures !keep(packages[k]) { assert before[k] == packages[k]; }
      } else {
        FirstBefore(packages, p, keep);
      }
    }
  }

  // A first match among the earlier records is the first match.
  lemma FirstBefore(packages: seq<Package>, p: Package, keep: Package -> bool)
    requires packages != [] && !NoneIs(packages[..|packages| - 1], keep)
    ensures IsFirst(packages, p, keep) <==> IsFirst(packages[..|packages| - 1], p, keep)
  {
    var n := |packages| - 1;
    var before := packages[..n];
    assert forall k :: 0 <= k <= n ==> before[..k] == packages[..k];
    if k :| 0 <= k < |packages| && packages[k] == p && keep(p) && NoneIs(packages[..k], keep) {
      assert k < n;
      assert before[k] == p && NoneIs(before[..k], keep);
    }
    if k :| 0 <= k < |before| && before[k] == p && keep(p) && NoneIs(before[..k], keep) {
      assert packages[k] == p && NoneIs(packages[..k], keep);
    }
  }

  ghost function IsNamed(name: string): Package -> bool { (p: Package) => p.name == name }

  ghost function IsVersion(name: string, version: string): Package -> bool { (p: Package) => p.name == name && p.version == version }

  lemma {:induction false} NamedFilter(packages: seq<Package>, name: string, version: string)
    ensures Named(packages, name) == Filter(packages, IsNamed(name))
    ensures Versioned(Named(packages, name), version) == Filter(packages, IsVersion(name, version))
  {
    if packages != [] {
      var n := |packages| - 1;
      NamedFilter(packages[..n], name, version);
      var before := Named(packages[..n], name);
      if packages[n].name == name { assert (before + [packages[n]])[..|before|] == before; }
      else { assert before + [] == before; }
    }
  }

  // The package that a Cargo dependency names.
  ghost predicate CargoNames(packages: seq<Package>, dependency: string, p: Package) {
    var i := LastIndex(dependency, ' ');
    if i < 0 then IsSole(packages, p, IsNamed(dependency))
    else
      var name, wanted := dependency[..i], dependency[i + 1..];
      || IsSole(packages, p, IsVersion(name, wanted))
      || (NoneIs(packages, IsVersion(name, wanted)) && IsSole(packages, p, IsNamed(name)))
  }

  lemma SoleIs(candidates: seq<Package>, p: Package)
    ensures Sole(candidates) == To(p) <==> candidates == [p]
    ensures !Sole(candidates).Skipped?
  {
    if |candidates| == 1 { assert candidates == [candidates[0]]; }
  }

  /** A Cargo dependency "name" is the one package of that name.  A dependency
      "name version" is the one package of that name and version, or, when there
      is none, the one package of that name.  Every other dependency is refused. */
  lemma CargoTargetMeaning(packages: seq<Package>, dependency: string, p: Package)
    ensures var t := CargoTarget(name => Named(packages, name), dependency);
            && (t == To(p) <==> CargoNames(packages, dependency, p))
            && !t.Skipped?
  {
    hide Named, Versioned, LastIndex, Sole, IsSole, NoneIs, Filter;
    var i := LastIndex(dependency, ' ');
    var name := if i < 0 then dependency else dependency[..i];
    var wanted := if i < 0 then "" else dependency[i + 1..];
    var named, exact := Named(packages, name), Versioned(Named(packages, name), wanted);
    NamedFilter(packages, name, wanted);
    FilterSole(packages, p, IsNamed(name));
    FilterSole(packages, p, IsVersion(name, wanted));
    FilterEmpty(packages, IsVersion(name, wanted));
    SoleIs(named, p);
    SoleIs(exact, p);
  }

  /** A versioned dependency is refused exactly when several packages have its name and version,
      or none has and not exactly one has its name. */
  lemma CargoRefusedExactly(packages: seq<Package>, dependency: string)
    ensures CargoTarget(name => Named(packages, name), dependency) == Unresolved <==>
            forall p :: !CargoNames(packages, dependency, p)
  {
    hide Named, CargoTarget, CargoNames;
    var t := CargoTarget(name => Named(packages, name), dependency);
    forall p ensures t == To(p) <==> CargoNames(packages, dependency, p) { CargoTargetMeaning(packages, dependency, p); }
    match t
    case To(p) => assert CargoNames(packages, dependency, p);
    case Skipped => CargoTargetMeaning(packages, dependency, Package("", "", "", "", "", "", ""));
    case Unresolved =>
  }

  /** The fallback: a dependency resolves to another version than it names exactly when one
      package has its name, and that one has another version. */
  lemma CargoFallbackExactly(packages: seq<Package>, dependency: string)
    requires LastIndex(dependency, ' ') >= 0
    ensures var i := LastIndex(dependency, ' ');
            var named, wanted := Named(packages, dependency[..i]), dependency[i + 1..];
            (exists p :: CargoTarget(name => Named(packages, name), dependency) == To(p) && p.version != wanted) <==>
            |named| == 1 && named[0].version != wanted
  {
    hide Named, Versioned, LastIndex;
    var i := LastIndex(dependency, ' ');
    var named, wanted := Named(packages, dependency[..i]), dependency[i + 1..];
    var exact := Versioned(named, wanted);
    forall q ensures q in exact <==> q in named && q.version == wanted { VersionedExactly(named, wanted, q); }
    if exact != [] { assert exact[0] in exact; }
    if |named| == 1 && named[0].version != wanted {
      assert named == [named[0]];
      assert CargoTarget(name => Named(packages, name), dependency) == To(named[0]);
    }
  }

  // The package that a Bun dependency names.
  ghost predicate BunNames(packages: seq<Package>, dependency: Entry, p: Package) {
    || IsFirst(packages, p, IsVersion(dependency.key, dependency.value))
    || (NoneIs(packages, IsVersion(dependency.key, dependency.value)) && IsSole(packages, p, IsNamed(dependency.key)))
  }

  /** A Bun dependency is the package of its name with the wanted version, or, when there is
      none, the one package of its name.  It is skipped exactly when nothing has its name and it
      is an optional peer, and refused exactly in every other case. */
  lemma BunTargetMeaning(packages: seq<Package>, dependency: Entry, peers: set<string>, p: Package)
    ensures var t := BunTarget(name => Named(packages, name), dependency, peers);
            && (t == To(p) <==> BunNames(packages, dependency, p))
            && (t == Skipped <==> NoneIs(packages, IsNamed(dependency.key)) && dependency.key in peers)
  {
    hide Named, Versioned, Sole, IsSole, IsFirst, NoneIs, Filter;
    var name, wanted := dependency.key, dependency.value;
    var named, exact := Named(packages, name), Versioned(Named(packages, name), wanted);
    NamedFilter(packages, name, wanted);
    FilterSole(packages, p, IsNamed(name));
    FilterFirst(packages, p, IsVersion(name, wanted));
    FilterEmpty(packages, IsVersion(name, wanted));
    FilterEmpty(packages, IsNamed(name));
    SoleIs(named, p);
    if NoneIs(packages, IsNamed(name)) { VersionNeedsName(packages, name, wanted); }
  }

  lemma VersionNeedsName(packages: seq<Package>, name: string, version: string)
    requires NoneIs(packages, IsNamed(name))
    ensures NoneIs(packages, IsVersion(name, version)) && forall p :: !IsSole(packages, p, IsNamed(name))
  {
  }

  lemma BunRefusedExactly(packages: seq<Package>, dependency: Entry, peers: set<string>)
    ensures BunTarget(name => Named(packages, name), dependency, peers) == Unresolved <==>
            && (forall p :: !BunNames(packages, dependency, p))
            && !(NoneIs(packages, IsNamed(dependency.key)) && dependency.key in peers)
  {
    hide Named, BunTarget, BunNames, NoneIs;
    var t := BunTarget(name => Named(packages, name), dependency, peers);
    forall p ensures t == To(p) <==> BunNames(packages, dependency, p) { BunTargetMeaning(packages, dependency, peers, p); }
    BunTargetMeaning(packages, dependency, peers, Package("", "", "", "", "", "", ""));
    if t.To? { assert BunNames(packages, dependency, t.package); }
  }

  /** The same fallback for Bun. */
  lemma BunFallbackExactly(packages: seq<Package>, dependency: Entry, peers: set<string>)
    ensures var named := Named(packages, dependency.key);
            (exists p :: BunTarget(name => Named(packages, name), dependency, peers) == To(p) && p.version != dependency.value) <==>
            |named| == 1 && named[0].version != dependency.value
  {
    hide Named, Versioned;
    var named, wanted := Named(packages, dependency.key), dependency.value;
    var exact := Versioned(named, wanted);
    forall q ensures q in exact <==> q in named && q.version == wanted { VersionedExactly(named, wanted, q); }
    if exact != [] { assert exact[0] in exact; }
    if |named| == 1 && named[0].version != wanted {
      assert named == [named[0]];
      assert BunTarget(name => Named(packages, name), dependency, peers) == To(named[0]);
    }
  }

  /** A lockfile in which "a" wants "b 2.0" and only b 1.0 is locked loads, with an edge to it. */
  lemma CargoFallsBack()
    ensures var records := [CargoRecord("a", "1.0", ["b 2.0"], None, None), CargoRecord("b", "1.0", [], None, None)];
            var packages := CargoPackages("Cargo.lock", records);
            CargoInventory("Cargo.lock", records) == Ok(Loaded(packages, [Edge(packages[0].purl, packages[1].purl, "Cargo.lock")]))
  {
    hide PackageUrl.Purl, CargoTarget, Named, LastIndex, AllEdges, EdgesOf;
    var records := [CargoRecord("a", "1.0", ["b 2.0"], None, None), CargoRecord("b", "1.0", [], None, None)];
    var packages := CargoPackages("Cargo.lock", records);
    var a, b := packages[0], packages[1];
    assert packages == [a, b];
    OnlyB(a, b);
    assert CargoRow(packages, records[0]) == [To(b)];
    assert CargoRow(packages, records[1]) == [];
    assert CargoTargets(packages, records) == [[To(b)], []];
    OneEdge(a, b);
  }

  lemma SpaceIn()
    ensures LastIndex("b 2.0", ' ') == 1 && "b 2.0"[..1] == "b" && "b 2.0"[2..] == "2.0"
  {
    LastIndexOf("b", "2.0", ' ');
    assert "b" + [' '] + "2.0" == "b 2.0";
  }

  lemma OnlyB(a: Package, b: Package)
    requires a.name == "a" && b.name == "b" && b.version == "1.0"
    ensures CargoTarget(name => Named([a, b], name), "b 2.0") == To(b)
  {
    SpaceIn();
    assert [a, b][..1] == [a] && [a][..0] == [];
    assert Named([a], "b") == [];
    assert Named([a, b], "b") == [b];
    assert [b][..0] == [];
    assert Versioned([b], "2.0") == [];
  }

  lemma OneEdge(a: Package, b: Package)
    ensures AllEdges([a, b], [[To(b)], []], 2) == Ok([Edge(a.purl, b.purl, a.lockfile)])
  {
    var e := Edge(a.purl, b.purl, a.lockfile);
    assert [To(b)][..0] == [] && EdgesOf(a, []) == Ok([]);
    assert [] + [e] == [e] && [e] + [] == [e];
    assert EdgesOf(a, [To(b)]) == Ok([Edge(a.purl, b.purl, a.lockfile)]);
    assert AllEdges([a, b], [[To(b)], []], 0) == Ok([]);
    assert AllEdges([a, b], [[To(b)], []], 1) == Ok([Edge(a.purl, b.purl, a.lockfile)]);
  }

  function BunPair(wanted: string): seq<BunRecord> {
    [BunRecord("a@1.0.0", "sha512-a", [Entry("b", wanted)], [], [], {}), BunRecord("b@1.0.0", "sha512-b", [], [], [], {})]
  }

  /** A Bun lockfile in which "a" wants any other text than 1.0.0 of "b", a range or another
      version, and only b 1.0.0 is locked loads, with an edge to it. */
  lemma BunFallsBack(wanted: string)
    requires wanted != "1.0.0"
    ensures BunRecordsOk(BunPair(wanted))
    ensures var packages := BunPackages("bun.lock", BunPair(wanted));
            && packages[1].name == "b" && packages[1].version == "1.0.0"
            && BunInventory("bun.lock", BunPair(wanted)) == Ok(Loaded(packages, [Edge(packages[0].purl, packages[1].purl, "bun.lock")]))
  {
    hide PackageUrl.Purl, BunTarget, Named, LastIndex, AllEdges, EdgesOf, MergeDict, SplitResolution;
    var records := BunPair(wanted);
    TwoResolutions();
    var packages := BunPackages("bun.lock", records);
    var a, b := packages[0], packages[1];
    assert packages == [a, b];
    OnlyBunB(a, b, wanted);
    OneDependency(Entry("b", wanted));
    assert BunRow(packages, records[0]) == [To(b)];
    assert BunRow(packages, records[1]) == [];
    assert BunTargets(packages, records) == [[To(b)], []];
    OneEdge(a, b);
  }

  lemma {:induction false} LastIndexOf(name: string, version: string, c: char)
    requires c !in version
    ensures LastIndex(name + [c] + version, c) == |name|
  {
    var t := name + [c] + version;
    if version == "" {
      assert t == name + [c];
    } else {
      var shorter := version[..|version| - 1];
      LastIndexOf(name, shorter, c);
      assert t[|t| - 1] == version[|version| - 1] && t[..|t| - 1] == name + [c] + shorter;
    }
  }

  /** A resolution is split at its last at-sign. */
  lemma Resolution(name: string, version: string)
    requires name != "" && version != "" && '@' !in version
    ensures SplitResolution(name + "@" + version) == Ok(Entry(name, version))
  {
    hide LastIndex;
    LastIndexOf(name, version, '@');
    var t := name + ['@'] + version;
    assert t == name + "@" + version && t[..|name|] == name && t[|name| + 1..] == version;
  }

  lemma TwoResolutions()
    ensures SplitResolution("a@1.0.0") == Ok(Entry("a", "1.0.0")) && SplitResolution("b@1.0.0") == Ok(Entry("b", "1.0.0"))
  {
    hide SplitResolution;
    Resolution("a", "1.0.0");
    Resolution("b", "1.0.0");
    assert "a" + "@" + "1.0.0" == "a@1.0.0" && "b" + "@" + "1.0.0" == "b@1.0.0";
  }

  lemma OnlyBunB(a: Package, b: Package, wanted: string)
    requires a.name == "a" && b.name == "b" && b.version != wanted
    ensures BunTarget(name => Named([a, b], name), Entry("b", wanted), {}) == To(b)
  {
    assert [a, b][..1] == [a] && [a][..0] == [];
    assert Named([a], "b") == [];
    assert Named([a, b], "b") == [b];
    assert [b][..0] == [] && Versioned([b], wanted) == [];
  }

  lemma OneDependency(e: Entry)
    ensures MergeDict(MergeDict(MergeDict([], [e]), []), []) == [e] && MergeDict(MergeDict(MergeDict([], []), []), []) == []
  {
    assert [e][1..] == [];
  }

  // ---- Edges join packages of the same lockfile.

  ghost predicate Endpoint(packages: seq<Package>, lockfile: string, purl: string) {
    exists i :: 0 <= i < |packages| && packages[i].lockfile == lockfile && packages[i].purl == purl
  }

  ghost predicate TargetsWithin(packages: seq<Package>, targets: seq<Target>) {
    forall k :: 0 <= k < |targets| && targets[k].To? ==> targets[k].package in packages
  }

  lemma {:induction false} EdgesOfEndpoints(packages: seq<Package>, source: Package, targets: seq<Target>, e: Edge)
    requires source in packages && TargetsWithin(packages, targets)
    requires forall p :: p in packages ==> p.lockfile == source.lockfile
    requires EdgesOf(source, targets).Ok? && e in EdgesOf(source, targets).value
    ensures e.lockfile == source.lockfile && e.from == source.purl
    ensures Endpoint(packages, e.lockfile, e.from) && Endpoint(packages, e.lockfile, e.to)
  {
    var n := |targets| - 1;
    if e in EdgesOf(source, targets[..n]).value {
      EdgesOfEndpoints(packages, source, targets[..n], e);
    } else {
      assert targets[n].package in packages;
      var i :| 0 <= i < |packages| && packages[i] == source;
      var j :| 0 <= j < |packages| && packages[j] == targets[n].package;
    }
  }

  lemma {:induction false} AllEdgesEndpoints(packages: seq<Package>, targets: seq<seq<Target>>, n: nat, lockfile: string, e: Edge)
    requires n <= |packages| == |targets|
    requires forall p :: p in packages ==> p.lockfile == lockfile
    requires forall i :: 0 <= i < |targets| ==> TargetsWithin(packages, targets[i])
    requires AllEdges(packages, targets, n).Ok? && e in AllEdges(packages, targets, n).value
    ensures e.lockfile == lockfile && Endpoint(packages, lockfile, e.from) && Endpoint(packages, lockfile, e.to)
  {
    if e in AllEdges(packages, targets, n - 1).value {
      AllEdgesEndpoints(packages, targets, n - 1, lockfile, e);
    } else {
      EdgesOfEndpoints(packages, packages[n - 1], targets[n - 1], e);
    }
  }

  /** What one lockfile contributes. */
  ghost predicate LoadedSound(l: Loaded, path: string) {
    && l.packages != []
    && (forall p :: p in l.packages ==> PackageSound(p) && p.lockfile == path)
    && forall e :: e in l.edges ==>
         e.lockfile == path && Endpoint(l.packages, path, e.from) && Endpoint(l.packages, path, e.to)
  }

  ghost predicate PackageSound(p: Package) {
    (p.ecosystem == "cargo" || p.ecosystem == "npm") && p.purl == PackageUrl.Purl(p.ecosystem, p.name, p.version)
  }

  lemma CargoSound(path: string, records: seq<CargoRecord>)
    requires CargoInventory(path, records).Ok?
    ensures LoadedSound(CargoInventory(path, records).value, path)
  {
    hide CargoTarget, PackageUrl.Purl;
    var packages := CargoPackages(path, records);
    var targets: seq<seq<Target>> := CargoTargets(packages, records);
    forall i, k | 0 <= i < |targets| && 0 <= k < |targets[i]| && targets[i][k].To?
      ensures targets[i][k].package in packages
    {
      CargoTargetMeaning(packages, records[i].dependencies[k], targets[i][k].package);
      assert CargoNames(packages, records[i].dependencies[k], targets[i][k].package);
    }
    forall e | e in CargoInventory(path, records).value.edges
      ensures e.lockfile == path && Endpoint(packages, path, e.from) && Endpoint(packages, path, e.to)
    {
      AllEdgesEndpoints(packages, targets, |packages|, path, e);
    }
  }

  lemma BunSound(path: string, records: seq<BunRecord>)
    requires BunInventory(path, records).Ok?
    ensures LoadedSound(BunInventory(path, records).value, path)
  {
    hide BunTarget, BunDependencies, PackageUrl.Purl, SplitResolution;
    var packages := BunPackages(path, records);
    var targets: seq<seq<Target>> := BunTargets(packages, records);
    forall i, k | 0 <= i < |targets| && 0 <= k < |targets[i]| && targets[i][k].To?
      ensures targets[i][k].package in packages
    {
      BunTargetMeaning(packages, BunDependencies(records[i])[k], records[i].optionalPeers, targets[i][k].package);
      assert BunNames(packages, BunDependencies(records[i])[k], targets[i][k].package);
    }
    forall e | e in BunInventory(path, records).value.edges
      ensures e.lockfile == path && Endpoint(packages, path, e.from) && Endpoint(packages, path, e.to)
    {
      AllEdgesEndpoints(packages, targets, |packages|, path, e);
    }
  }

  // ---- All lockfiles together.

  datatype Content = CargoLock(cargo: seq<CargoRecord>) | BunLock(bun: seq<BunRecord>) | Unreadable

  datatype Inventory = Inventory(lockfiles: seq<string>, packages: seq<Package>, relationships: seq<Edge>)

  const MAX_ARRAY_ITEMS: nat := 4096

  function Identity(p: Package): Key { [p.ecosystem, p.name, p.version, p.lockfile] }

  function EdgeKey(e: Edge): Key { [e.lockfile, e.from, e.to] }

  function PathKey(path: string): Key { [path] }

  predicate Complete(p: Package) { p.ecosystem != "" && p.name != "" && p.version != "" && p.lockfile != "" }

  ghost function LoadOne(path: string, contents: map<string, Content>): Result<Loaded> {
    if path !in contents then Err("lockfile missing")
    else
      match contents[path]
      case CargoLock(records) => CargoInventory(path, records)
      case BunLock(records) => BunInventory(path, records)
      case Unreadable => Err("malformed lockfile")
  }

  // The lockfiles at `paths` put together, if each of them loads.
  ghost function LoadAll(paths: seq<string>, contents: map<string, Content>): Result<Loaded> {
    if paths == [] then Ok(Loaded([], []))
    else
      var n := |paths| - 1;
      var before, last := LoadAll(paths[..n], contents), LoadOne(paths[n], contents);
      if before.Err? then before
      else if last.Err? then last
      else Ok(Loaded(before.value.packages + last.value.packages, before.value.edges + last.value.edges))
  }

  lemma {:induction false} LoadAllErr(paths: seq<string>, contents: map<string, Content>, n: nat)
    requires n <= |paths| && LoadAll(paths[..n], contents).Err?
    ensures LoadAll(paths, contents).Err?
    decreases |paths| - n
  {
    if n < |paths| {
      assert paths[..n + 1][..n] == paths[..n];
      LoadAllErr(paths, contents, n + 1);
    } else {
      assert paths[..n] == paths;
    }
  }

  method LoadLockfile(path: string, contents: map<string, Content>) returns (r: Result<Loaded>)
    ensures var spec := LoadOne(path, contents); if r.Ok? then spec == r else spec.Err?
  {
    if path !in contents { return Err("lockfile missing"); }
    match contents[path] {
      case CargoLock(records) => r := LoadCargoInventory(path, records);
      case BunLock(records) => r := LoadBunInventory(path, records);
      case Unreadable => r := Err("malformed lockfile");
    }
  }

  ghost predicate Admissible(packages: seq<Package>) {
    DistinctBy(packages, Identity) && forall i :: 0 <= i < |packages| ==> Complete(packages[i])
  }

  lemma AdmissiblePrefix(a: seq<Package>, b: seq<Package>)
    requires Admissible(a + b)
    ensures Admissible(a)
  {
    forall i, j | 0 <= i < j < |a| ensures Identity(a[i]) != Identity(a[j]) {
      assert (a + b)[i] == a[i] && (a + b)[j] == a[j];
    }
    forall i | 0 <= i < |a| ensures Complete(a[i]) { assert (a + b)[i] == a[i]; }
  }

  lemma AdmissibleOneMore(a: seq<Package>, p: Package)
    requires Admissible(a)
    ensures Admissible(a + [p]) <==> Complete(p) && forall i :: 0 <= i < |a| ==> Identity(a[i]) != Identity(p)
  {
    var b := a + [p];
    if Admissible(b) {
      assert b[|a|] == p;
      forall i | 0 <= i < |a| ensures Identity(a[i]) != Identity(p) { assert b[i] == a[i]; }
    }
  }

  /** Adds the packages of one lockfile to the dictionary of identities. */
  method AddPackages(packages: seq<Package>, seen: set<Key>, loaded: seq<Package>) returns (ok: bool, seen': set<Key>)
    requires Admissible(packages)
    requires seen == set i | 0 <= i < |packages| :: Identity(packages[i])
    ensures ok <==> Admissible(packages + loaded)
    ensures ok ==> seen' == set i | 0 <= i < |packages + loaded| :: Identity((packages + loaded)[i])
  {
    hide Complete, Identity, Admissible;
    seen' := seen;
    assert packages + loaded[..0] == packages;
    for k := 0 to |loaded|
      invariant Admissible(packages + loaded[..k])
      invariant seen' == set i | 0 <= i < |packages + loaded[..k]| :: Identity((packages + loaded[..k])[i])
    {
      var now, p := packages + loaded[..k], loaded[k];
      assert packages + loaded[..k + 1] == now + [p];
      AdmissibleOneMore(now, p);
      if !Complete(p) || Identity(p) in seen' {
        assert packages + loaded == now + [p] + loaded[k + 1..];
        if Admissible(packages + loaded) { AdmissiblePrefix(now + [p], loaded[k + 1..]); }
        return false, seen';
      }
      seen' := seen' + {Identity(p)};
      SeenOneMore(now, p);
    }
    assert loaded[..|loaded|] == loaded;
    ok := true;
  }

  lemma SeenOneMore(a: seq<Package>, p: Package)
    ensures (set i | 0 <= i < |a + [p]| :: Identity((a + [p])[i])) == (set i | 0 <= i < |a| :: Identity(a[i])) + {Identity(p)}
  {
    hide Identity;
    var b := a + [p];
    assert b[|a|] == p;
    forall i | 0 <= i < |a| ensures Identity(a[i]) in (set k | 0 <= k < |b| :: Identity(b[k])) { assert b[i] == a[i]; }
  }

  // `sorted(set(lockfiles))`
  function Dedupe(s: seq<string>): (r: seq<string>)
    ensures forall x :: x in r <==> x in s
    ensures DistinctBy(r, PathKey)
  {
    if s == [] then []
    else
      var rest := Dedupe(s[1..]);
      assert s == [s[0]] + s[1..];
      if s[0] in rest then rest else [s[0]] + rest
  }

  ghost predicate Loadable(paths: seq<string>, contents: map<string, Content>) {
    var all := LoadAll(paths, contents);
    && paths != [] && all.Ok? && Admissible(all.value.packages)
    && |all.value.packages| <= MAX_ARRAY_ITEMS && |all.value.edges| <= MAX_ARRAY_ITEMS
  }

  lemma AdmissibleOfPrefix(paths: seq<string>, contents: map<string, Content>, n: nat)
    requires n <= |paths| && LoadAll(paths, contents).Ok? && Admissible(LoadAll(paths, contents).value.packages)
    ensures LoadAll(paths[..n], contents).Ok? && Admissible(LoadAll(paths[..n], contents).value.packages)
    decreases |paths| - n
  {
    hide Admissible, LoadOne, LoadAll;
    if n < |paths| {
      var m := |paths| - 1;
      WithoutLast(paths, contents);
      AdmissibleOfPrefix(paths[..m], contents, n);
      assert paths[..m][..n] == paths[..n];
    } else {
      assert paths[..n] == paths;
    }
  }

  lemma WithoutLast(paths: seq<string>, contents: map<string, Content>)
    requires paths != [] && LoadAll(paths, contents).Ok? && Admissible(LoadAll(paths, contents).value.packages)
    ensures var before := LoadAll(paths[..|paths| - 1], contents); before.Ok? && Admissible(before.value.packages)
  {
    hide Admissible, LoadOne;
    var m := |paths| - 1;
    AdmissiblePrefix(LoadAll(paths[..m], contents).value.packages, LoadOne(paths[m], contents).value.packages);
  }

  /** Loads the requested lockfiles; refuses exactly when one does not load, an
      identity is incomplete or repeated, or a bound is exceeded. */
  method LoadDependencyInventory(lockfiles: seq<string>, contents: map<string, Content>) returns (r: Result<Inventory>)
    ensures r.Ok? <==> Loadable(SortBy(Dedupe(lockfiles), PathKey), contents)
    ensures r.Ok? ==> IsLoaded(r.value, lockfiles, contents)
  {
    hide LoadOne, LoadAll, Admissible, SortBy, Dedupe, Identity;
    var requested := SortBy(Dedupe(lockfiles), PathKey);
    if requested == [] { return Err("at least one lockfile is required"); }
    var packages: seq<Package>, relationships: seq<Edge>, seen: set<Key> := [], [], {};
    NothingLoaded(contents);
    assert requested[..0] == [];
    for i := 0 to |requested|
      invariant LoadAll(requested[..i], contents) == Ok(Loaded(packages, relationships))
      invariant Admissible(packages)
      invariant seen == set k | 0 <= k < |packages| :: Identity(packages[k])
    {
      var relative := requested[i];
      LoadAllOneMore(requested, contents, i);
      var loaded := LoadLockfile(relative, contents);
      if loaded.Err? {
        LoadAllErr(requested, contents, i + 1);
        return Err(loaded.error);
      }
      var ok, seen' := AddPackages(packages, seen, loaded.value.packages);
      if !ok {
        if Loadable(requested, contents) { AdmissibleOfPrefix(requested, contents, i + 1); }
        return Err("duplicate or incomplete dependency package identity");
      }
      packages, seen := packages + loaded.value.packages, seen';
      relationships := relationships + loaded.value.edges;
    }
    assert requested[..|requested|] == requested;
    if |packages| > MAX_ARRAY_ITEMS || |relationships| > MAX_ARRAY_ITEMS {
      return Err("dependency inventory exceeds contract bound");
    }
    r := Ok(Inventory(requested, SortBy(packages, Identity), SortBy(relationships, EdgeKey)));
  }

  lemma NothingLoaded(contents: map<string, Content>)
    ensures Admissible([]) && LoadAll([], contents) == Ok(Loaded([], []))
  {
  }

  lemma LoadAllOneMore(paths: seq<string>, contents: map<string, Content>, i: nat)
    requires i < |paths| && LoadAll(paths[..i], contents).Ok?
    ensures var before, last := LoadAll(paths[..i], contents).value, LoadOne(paths[i], contents);
            LoadAll(paths[..i + 1], contents) ==
            if last.Err? then last
            else Ok(Loaded(before.packages + last.value.packages, before.edges + last.value.edges))
  {
    hide LoadOne;
    var s := paths[..i + 1];
    assert s[..i] == paths[..i] && s[i] == paths[i];
  }

  // ---- The sources of loaded packages.

  /** No record of a Cargo lockfile gives an empty source; a missing one is read as "workspace". */
  predicate SourcesGiven(c: Content) {
    match c
    case CargoLock(records) => forall i :: 0 <= i < |records| ==> records[i].source != Some("")
    case _ => true
  }

  predicate GivesSources(path: string, contents: map<string, Content>) { path in contents && SourcesGiven(contents[path]) }

  ghost predicate HaveSources(packages: seq<Package>) { forall p :: p in packages ==> p.source != "" }

  lemma CargoSources(path: string, records: seq<CargoRecord>)
    ensures HaveSources(CargoPackages(path, records)) <==> SourcesGiven(CargoLock(records))
  {
    hide PackageUrl.Purl;
    var packages := CargoPackages(path, records);
    forall i | 0 <= i < |records| ensures packages[i] in packages && (packages[i].source == "" <==> records[i].source == Some("")) {}
  }

  lemma BunSources(path: string, records: seq<BunRecord>)
    requires BunRecordsOk(records)
    ensures HaveSources(BunPackages(path, records))
  {
    hide PackageUrl.Purl, SplitResolution, BunRecordOk;
  }

  lemma LoadOneSources(path: string, contents: map<string, Content>)
    requires LoadOne(path, contents).Ok?
    ensures HaveSources(LoadOne(path, contents).value.packages) <==> GivesSources(path, contents)
  {
    hide HaveSources, CargoPackages, BunPackages, BunRecordsOk, CargoRecordOk, AllEdges;
    match contents[path] {
      case CargoLock(records) => CargoSources(path, records);
      case BunLock(records) => BunSources(path, records);
      case Unreadable =>
    }
  }

  lemma {:induction false} LoadAllSources(paths: seq<string>, contents: map<string, Content>)
    requires LoadAll(paths, contents).Ok?
    ensures HaveSources(LoadAll(paths, contents).value.packages) <==> forall path :: path in paths ==> GivesSources(path, contents)
  {
    hide GivesSources, LoadOne;
    if paths != [] {
      var n := |paths| - 1;
      LoadAllSources(paths[..n], contents);
      LoadOneSources(paths[n], contents);
      SourcesConcat(LoadAll(paths[..n], contents).value.packages, LoadOne(paths[n], contents).value.packages);
      assert paths == paths[..n] + [paths[n]];
    }
  }

  lemma SourcesConcat(a: seq<Package>, b: seq<Package>)
    ensures HaveSources(a + b) <==> HaveSources(a) && HaveSources(b)
  {
    forall p | p in a || p in b ensures p in a + b {}
  }

  /** The packages of a loaded inventory all have a source exactly when the lockfiles give it. */
  lemma LoadedSources(lockfiles: seq<string>, contents: map<string, Content>, inv: Inventory)
    requires IsLoaded(inv, lockfiles, contents)
    ensures HaveSources(inv.packages) <==> forall path :: path in lockfiles ==> GivesSources(path, contents)
  {
    hide SortBy, LoadAll, GivesSources, Dedupe, Admissible;
    var paths := SortBy(Dedupe(lockfiles), PathKey);
    LoadAllSources(paths, contents);
    SortKeepsElements(Dedupe(lockfiles), PathKey);
    DedupeElements(lockfiles);
    SortKeepsElements(LoadAll(paths, contents).value.packages, Identity);
  }

  const EMPTY_SOURCE: map<string, Content> := map["Cargo.lock" := CargoLock([CargoRecord("a", "1.0", [], Some(""), None)])]

  /** Such a lockfile: its only record has an empty source, and it loads. */
  lemma EmptySourceLoads() returns (inv: Inventory)
    ensures IsLoaded(inv, ["Cargo.lock"], EMPTY_SOURCE) && !GivesSources("Cargo.lock", EMPTY_SOURCE)
  {
    hide SortBy, PackageUrl.Purl, LoadAll, Dedupe, GivesSources;
    var paths := ["Cargo.lock"];
    OnePath("Cargo.lock");
    OneRecordLoads();
    var all := LoadAll(paths, EMPTY_SOURCE).value;
    inv := Inventory(paths, SortBy(all.packages, Identity), SortBy(all.edges, EdgeKey));
  }

  lemma OnePath(path: string)
    ensures SortBy(Dedupe([path]), PathKey) == [path]
  {
    assert Dedupe([path][1..]) == [] && Dedupe([path]) == [path];
    SortOfSorted([path], PathKey);
  }

  lemma OneRecordLoads()
    ensures var all := LoadAll(["Cargo.lock"], EMPTY_SOURCE);
            all.Ok? && Admissible(all.value.packages) && |all.value.packages| == 1 && all.value.edges == []
    ensures !GivesSources("Cargo.lock", EMPTY_SOURCE)
  {
    hide PackageUrl.Purl;
    var records := [CargoRecord("a", "1.0", [], Some(""), None)];
    var packages := CargoPackages("Cargo.lock", records);
    assert CargoTargets(packages, records) == [CargoRow(packages, records[0])] && CargoRow(packages, records[0]) == [];
    assert AllEdges(packages, CargoTargets(packages, records), 0) == Ok([]);
    assert EdgesOf(packages[0], []) == Ok([]);
    var none: seq<Edge> := [];
    assert none + none == none;
    assert AllEdges(packages, CargoTargets(packages, records), 1) == Ok(none);
    assert CargoRecordOk(records[0]);
    assert CargoInventory("Cargo.lock", records) == Ok(Loaded(packages, []));
    assert LoadOne("Cargo.lock", EMPTY_SOURCE) == Ok(Loaded(packages, []));
    assert ["Cargo.lock"][..0] == [];
  }

  // ---- Every edge of a loaded inventory resolves.

  ghost predicate EdgesSound(packages: seq<Package>, edges: seq<Edge>) {
    forall e :: e in edges ==> Endpoint(packages, e.lockfile, e.from) && Endpoint(packages, e.lockfile, e.to)
  }

  ghost predicate FromLockfile(packages: seq<Package>, path: string) {
    exists p :: p in packages && p.lockfile == path
  }

  /** What every loaded inventory is. */
  ghost predicate Sound(inv: Inventory) {
    && inv.packages != [] && Admissible(inv.packages)
    && (forall p :: p in inv.packages ==> PackageSound(p))
    && EdgesSound(inv.packages, inv.relationships)
    && forall path :: path in inv.lockfiles <==> FromLockfile(inv.packages, path)
  }

  lemma LoadOneSound(path: string, contents: map<string, Content>)
    requires LoadOne(path, contents).Ok?
    ensures LoadedSound(LoadOne(path, contents).value, path)
  {
    hide CargoInventory, BunInventory, LoadedSound;
    match contents[path] {
      case CargoLock(records) => CargoSound(path, records);
      case BunLock(records) => BunSound(path, records);
      case Unreadable =>
    }
  }

  lemma EndpointInLarger(small: seq<Package>, large: seq<Package>, lockfile: string, purl: string)
    requires Endpoint(small, lockfile, purl) && forall p :: p in small ==> p in large
    ensures Endpoint(large, lockfile, purl)
  {
    var i :| 0 <= i < |small| && small[i].lockfile == lockfile && small[i].purl == purl;
    assert small[i] in large;
  }

  lemma EdgesInLarger(small: seq<Package>, large: seq<Package>, edges: seq<Edge>)
    requires EdgesSound(small, edges) && forall p :: p in small ==> p in large
    ensures EdgesSound(large, edges)
  {
    hide Endpoint;
    forall e | e in edges ensures Endpoint(large, e.lockfile, e.from) && Endpoint(large, e.lockfile, e.to) {
      EndpointInLarger(small, large, e.lockfile, e.from);
      EndpointInLarger(small, large, e.lockfile, e.to);
    }
  }

  lemma {:induction false} LoadAllSound(paths: seq<string>, contents: map<string, Content>)
    requires LoadAll(paths, contents).Ok?
    ensures var all := LoadAll(paths, contents).value;
            && (forall p :: p in all.packages ==> PackageSound(p))
            && EdgesSound(all.packages, all.edges)
            && (forall path :: path in paths <==> FromLockfile(all.packages, path))
  {
    if paths != [] {
      var n := |paths| - 1;
      LoadAllSound(paths[..n], contents);
      LoadOneSound(paths[n], contents);
      var before, last := LoadAll(paths[..n], contents).value, LoadOne(paths[n], contents).value;
      var packages := before.packages + last.packages;
      EdgesInLarger(before.packages, packages, before.edges);
      LoadedEdges(last, paths[n]);
      EdgesInLarger(last.packages, packages, last.edges);
      LockfilesOneMore(paths, before.packages, last.packages);
    }
  }

  lemma LoadedEdges(l: Loaded, path: string)
    requires LoadedSound(l, path)
    ensures EdgesSound(l.packages, l.edges)
  {
  }

  lemma LockfilesOneMore(paths: seq<string>, a: seq<Package>, b: seq<Package>)
    requires paths != [] && b != [] && forall p :: p in b ==> p.lockfile == paths[|paths| - 1]
    requires forall path :: FromLockfile(a, path) <==> path in paths[..|paths| - 1]
    ensures forall path :: path in paths <==> FromLockfile(a + b, path)
  {
    var n := |paths| - 1;
    assert paths == paths[..n] + [paths[n]];
    forall path ensures path in paths <==> FromLockfile(a + b, path) {
      if path == paths[n] {
        assert b[0] in a + b;
      } else if FromLockfile(a, path) {
        var p :| p in a && p.lockfile == path;
        assert p in a + b;
      } else {
        forall p | p in a + b ensures p.lockfile != path { assert p in a || p in b; }
      }
    }
  }

  /** What the loader returns for these lockfiles. */
  ghost predicate IsLoaded(inv: Inventory, lockfiles: seq<string>, contents: map<string, Content>) {
    var paths := SortBy(Dedupe(lockfiles), PathKey);
    && Loadable(paths, contents)
    && var all := LoadAll(paths, contents).value;
       inv == Inventory(paths, SortBy(all.packages, Identity), SortBy(all.edges, EdgeKey))
  }

  lemma LoadedInventorySound(lockfiles: seq<string>, contents: map<string, Content>, inv: Inventory)
    requires IsLoaded(inv, lockfiles, contents)
    ensures Sound(inv) && SortedBy(inv.packages, Identity)
    ensures forall path :: path in inv.lockfiles <==> path in lockfiles
  {
    hide SortBy, LoadAll, PackageSound, Admissible, EdgesSound, FromLockfile, Dedupe, LoadOne;
    var paths := SortBy(Dedupe(lockfiles), PathKey);
    var all := LoadAll(paths, contents).value;
    LoadAllSound(paths, contents);
    SortKeepsElements(Dedupe(lockfiles), PathKey);
    SortKeepsElements(all.packages, Identity);
    SortKeepsElements(all.edges, EdgeKey);
    AdmissibleSorted(all.packages);
    EdgesInLarger(all.packages, inv.packages, all.edges);
    EdgesReordered(inv.packages, all.edges, inv.relationships);
    forall path ensures FromLockfile(inv.packages, path) <==> FromLockfile(all.packages, path) {
      SameLockfiles(inv.packages, all.packages, path);
    }
    assert paths[0] in paths;
    NonEmpty(inv.packages, paths[0]);
    DedupeElements(lockfiles);
  }

  lemma DedupeElements(lockfiles: seq<string>)
    ensures forall x :: x in Dedupe(lockfiles) <==> x in lockfiles
  {
  }

  lemma NonEmpty(packages: seq<Package>, path: string)
    requires FromLockfile(packages, path)
    ensures packages != []
  {
  }

  lemma SameLockfiles(a: seq<Package>, b: seq<Package>, path: string)
    requires forall p :: p in a <==> p in b
    ensures FromLockfile(a, path) <==> FromLockfile(b, path)
  {
  }

  lemma EdgesReordered(packages: seq<Package>, a: seq<Edge>, b: seq<Edge>)
    requires EdgesSound(packages, a) && forall e :: e in a <==> e in b
    ensures EdgesSound(packages, b)
  {
  }

  lemma AdmissibleSorted(packages: seq<Package>)
    requires Admissible(packages)
    ensures Admissible(SortBy(packages, Identity))
  {
    hide SortBy, Complete;
    SortKeepsDistinct(packages, Identity);
    var sorted := SortBy(packages, Identity);
    forall i | 0 <= i < |sorted| ensures Complete(sorted[i]) {
      assert sorted[i] in multiset(sorted);
      assert sorted[i] in packages;
    }
  }

  /** In a loaded inventory a lockfile and a package URL name at most one package;
      so each end of each edge names exactly one. */
  lemma EndpointUnique(inv: Inventory, i: nat, j: nat)
    requires Sound(inv) && i < |inv.packages| && j < |inv.packages|
    requires inv.packages[i].lockfile == inv.packages[j].lockfile && inv.packages[i].purl == inv.packages[j].purl
    ensures i == j
  {
    var p, q := inv.packages[i], inv.packages[j];
    assert p in inv.packages && q in inv.packages;
    assert PackageSound(p) && PackageSound(q);
    NoSlash(p);
    NoSlash(q);
    PackageUrl.PurlInjective(p.ecosystem, p.name, p.version, q.ecosystem, q.name, q.version);
    assert Identity(p) == Identity(q);
  }

  lemma NoSlash(p: Package)
    requires PackageSound(p)
    ensures '/' !in p.ecosystem
  {
  }
}
