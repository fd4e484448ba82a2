/** The release archive: header validation and extraction of
    scripts/release_provenance.py.  Tar decoding is done; a member's content is
    what the tar reader yields for it, whatever size its header declares. */
module Archive {
  import opened Text

  type Path = seq<string>

  datatype Kind = File | Directory | Symlink | HardLink | Device | Fifo | Other

  datatype Member = Member(
    name: string, kind: Kind, sparse: bool, size: int, executable: bool, content: seq<Byte>)

  datatype Limits = Limits(
    maxArchiveBytes: int, maxMembers: int, maxMemberBytes: int, maxTotalBytes: int, maxPathBytes: int)

  datatype Summary = Summary(memberCount: nat, totalBytes: int, topLevel: string, requiredFiles: nat)

  // ---- Member names.

  function TrimSlashes(s: string): string {
    if s != "" && s[|s| - 1] == '/' then TrimSlashes(s[..|s| - 1]) else s
  }

  predicate NormalPart(part: string) { part != "" && part != "." && part != ".." }

  function NormalizedPath(name: string, limits: Limits): Result<Path> {
    if name == "" || '\\' in name || name[0] == '/' || '\0' in name then Err("unsafe path")
    else if |Utf8(name)| > limits.maxPathBytes then Err("long path")
    else
      var parts := Split(TrimSlashes(name), '/');
      if forall i :: 0 <= i < |parts| ==> NormalPart(parts[i]) then Ok(parts)
      else Err("odd path")
  }

  function Slashes(k: nat): string { seq(k, _ => '/') }

  /** A path whose every part names one directory level. */
  ghost predicate CleanPath(path: Path) {
    path != [] && forall i :: 0 <= i < |path| ==> NormalPart(path[i]) && '/' !in path[i]
  }

  lemma {:induction false} TrimExact(s: string)
    ensures exists k: nat :: s == TrimSlashes(s) + Slashes(k)
    ensures TrimSlashes(s) != "" ==> TrimSlashes(s)[|TrimSlashes(s)| - 1] != '/'
  {
    hide Slashes;
    if s != "" && s[|s| - 1] == '/' {
      var t := s[..|s| - 1];
      TrimExact(t);
      var k: nat :| t == TrimSlashes(t) + Slashes(k);
      assert s == t + "/";
      OneMoreSlash(k);
      Associative(TrimSlashes(t), Slashes(k), "/");
      assert s == TrimSlashes(s) + Slashes(k + 1);
    } else {
      NoSlashes();
      assert s == TrimSlashes(s) + Slashes(0);
    }
  }

  lemma OneMoreSlash(k: nat)
    ensures Slashes(k + 1) == Slashes(k) + "/"
  {
  }

  lemma NoSlashes()
    ensures Slashes(0) == ""
  {
  }

  lemma {:induction false} TrimOfSlashes(s: string, k: nat)
    requires s == "" || s[|s| - 1] != '/'
    ensures TrimSlashes(s + Slashes(k)) == s
  {
    if k > 0 {
      TrimOfSlashes(s, k - 1);
      assert (s + Slashes(k))[..|s| + k - 1] == s + Slashes(k - 1);
    } else {
      assert s + Slashes(0) == s;
    }
  }

  lemma {:induction false} JoinEnds(path: Path)
    requires CleanPath(path)
    ensures var s := Join(path, "/"); s != "" && s[0] != '/' && s[|s| - 1] != '/'
  {
    assert path[0][0] in path[0] && path[|path| - 1][|path[|path| - 1]| - 1] in path[|path| - 1];
    if |path| > 1 {
      assert CleanPath(path[1..]);
      JoinEnds(path[1..]);
    }
  }

  /** Exactly the names that spell a clean path, followed by any number of
      slashes, are accepted, and the path is the one spelled. */
  lemma NormalizedPathExact(name: string, limits: Limits, path: Path)
    ensures NormalizedPath(name, limits) == Ok(path) <==>
            && CleanPath(path) && (exists k: nat :: name == Join(path, "/") + Slashes(k))
            && '\\' !in name && '\0' !in name && |Utf8(name)| <= limits.maxPathBytes
  {
    var trimmed := TrimSlashes(name);
    TrimExact(name);
    if NormalizedPath(name, limits) == Ok(path) {
      JoinSplit(trimmed, '/');
    }
    if CleanPath(path) && exists k: nat :: name == Join(path, "/") + Slashes(k) {
      var k: nat :| name == Join(path, "/") + Slashes(k);
      JoinEnds(path);
      TrimOfSlashes(Join(path, "/"), k);
      SplitJoin(path, '/');
    }
  }

  // ---- What is accepted, with no reference to the order of the members.

  ghost function PathOf(m: Member, limits: Limits): Path {
    var r := NormalizedPath(m.name, limits);
    if r.Ok? then r.value else []
  }

  predicate SafeArtifactName(name: string) {
    name != "" && name != "." && '/' !in name && '\\' !in name
  }

  ghost predicate HeaderAcceptable(m: Member, top: string, limits: Limits) {
    var r := NormalizedPath(m.name, limits);
    && r.Ok? && r.value[0] == top
    && (m.kind.File? || m.kind.Directory?) && !m.sparse
  }

  ghost predicate MemberAcceptable(m: Member, top: string, limits: Limits) {
    && HeaderAcceptable(m, top, limits)
    && (m.kind.File? ==> 0 <= m.size <= limits.maxMemberBytes)
  }

  predicate ProperPrefix(a: Path, b: Path) { |a| < |b| && a == b[..|a|] }

  /** Two members can both be written: their paths differ and neither is a file
      where the other needs a directory. */
  ghost predicate Compatible(m: Member, n: Member, limits: Limits) {
    var p, q := PathOf(m, limits), PathOf(n, limits);
    p != q && !(m.kind.File? && ProperPrefix(p, q)) && !(n.kind.File? && ProperPrefix(q, p))
  }

  ghost function TotalSize(members: seq<Member>): int {
    if members == [] then 0
    else TotalSize(members[..|members| - 1]) + FileSize(members[|members| - 1])
  }

  ghost function FileSize(m: Member): int { if m.kind.File? then m.size else 0 }

  function RequiredPaths(top: string): set<Path> {
    {[top, "engine"], [top, "release_provenance.py"], [top, "install.sh"], [top, "upgrade.sh"]}
  }

  ghost predicate HasFile(members: seq<Member>, path: Path, limits: Limits) {
    exists i :: 0 <= i < |members| && members[i].kind.File? && PathOf(members[i], limits) == path
  }

  ghost predicate PairwiseCompatible(members: seq<Member>, limits: Limits) {
    forall i, j :: 0 <= i < j < |members| ==> Compatible(members[i], members[j], limits)
  }

  ghost predicate EachAcceptable(members: seq<Member>, top: string, limits: Limits) {
    forall i :: 0 <= i < |members| ==> MemberAcceptable(members[i], top, limits)
  }

  ghost predicate Acceptable(archiveBytes: int, members: seq<Member>, top: string, limits: Limits) {
    && archiveBytes <= limits.maxArchiveBytes
    && SafeArtifactName(top)
    && |members| <= limits.maxMembers
    && EachAcceptable(members, top, limits)
    && PairwiseCompatible(members, limits)
    && TotalSize(members) <= limits.maxTotalBytes
    && forall path :: path in RequiredPaths(top) ==> HasFile(members, path, limits)
  }

  // ---- The incremental validator.

  lemma {:induction false} TotalSizeGrows(members: seq<Member>, i: nat, top: string, limits: Limits)
    requires i <= |members| && EachAcceptable(members, top, limits)
    ensures TotalSize(members[..i]) <= TotalSize(members)
    decreases |members| - i
  {
    if i < |members| {
      assert members[..i + 1][..i] == members[..i];
      TotalSizeGrows(members, i + 1, top, limits);
    } else {
      assert members[..i] == members;
    }
  }

  method ConflictsWithSeen(path: Path, kind: Kind, seen: map<Path, Kind>) returns (conflict: bool)
    ensures conflict <==>
            exists p :: p in seen && ((seen[p].File? && ProperPrefix(p, path)) || (kind.File? && ProperPrefix(path, p)))
  {
    var rest := seen.Keys;
    while rest != {}
      invariant rest <= seen.Keys
      invariant forall p :: p in seen && p !in rest ==>
                  !(seen[p].File? && ProperPrefix(p, path)) && !(kind.File? && ProperPrefix(path, p))
    {
      var p :| p in rest;
      if (seen[p].File? && ProperPrefix(p, path)) || (kind.File? && ProperPrefix(path, p)) {
        return true;
      }
      rest := rest - {p};
    }
    return false;
  }

  // The dictionary of paths seen so far describes the members read so far.
  ghost predicate Describes(seen: map<Path, Kind>, members: seq<Member>, limits: Limits) {
    && (forall i :: 0 <= i < |members| ==>
          PathOf(members[i], limits) in seen && seen[PathOf(members[i], limits)] == members[i].kind)
    && (forall p :: p in seen ==> exists i :: 0 <= i < |members| && PathOf(members[i], limits) == p)
  }

  lemma CompatibleWithSeen(seen: map<Path, Kind>, members: seq<Member>, m: Member, limits: Limits)
    requires Describes(seen, members, limits)
    ensures (forall i :: 0 <= i < |members| ==> Compatible(members[i], m, limits)) <==>
            && PathOf(m, limits) !in seen
            && !exists p :: p in seen && ((seen[p].File? && ProperPrefix(p, PathOf(m, limits))) ||
                                          (m.kind.File? && ProperPrefix(PathOf(m, limits), p)))
  {
  }

  lemma ExtendAcceptable(members: seq<Member>, i: nat, top: string, limits: Limits)
    requires i < |members|
    requires EachAcceptable(members[..i], top, limits) && PairwiseCompatible(members[..i], limits)
    ensures EachAcceptable(members[..i + 1], top, limits) <==> MemberAcceptable(members[i], top, limits)
    ensures PairwiseCompatible(members[..i + 1], limits) <==>
            forall j :: 0 <= j < i ==> Compatible(members[..i][j], members[i], limits)
    ensures TotalSize(members[..i + 1]) == TotalSize(members[..i]) + FileSize(members[i])
  {
    hide MemberAcceptable, Compatible;
    var s := members[..i + 1];
    assert s[..i] == members[..i] && s[i] == members[i];
    if PairwiseCompatible(s, limits) {
      forall j | 0 <= j < i ensures Compatible(members[..i][j], members[i], limits) {
        assert Compatible(s[j], s[i], limits);
      }
    }
    if forall j :: 0 <= j < i ==> Compatible(members[..i][j], members[i], limits) {
      forall j, k | 0 <= j < k < |s| ensures Compatible(s[j], s[k], limits) {
        if k < i { assert s[k] == members[..i][k]; }
        assert s[j] == members[..i][j];
      }
    }
  }

  lemma NothingRead(members: seq<Member>, top: string, limits: Limits)
    ensures EachAcceptable(members[..0], top, limits) && PairwiseCompatible(members[..0], limits)
    ensures TotalSize(members[..0]) == 0 && Describes(map[], members[..0], limits)
    ensures forall path :: !HasFile(members[..0], path, limits)
  {
  }

  // A refused prefix refuses the whole archive.
  lemma PrefixDecides(members: seq<Member>, i: nat, top: string, limits: Limits)
    requires i <= |members|
    ensures EachAcceptable(members, top, limits) ==> EachAcceptable(members[..i], top, limits)
    ensures PairwiseCompatible(members, limits) ==> PairwiseCompatible(members[..i], limits)
  {
  }

  lemma DescribesExtended(seen: map<Path, Kind>, members: seq<Member>, i: nat, limits: Limits)
    requires i < |members| && Describes(seen, members[..i], limits)
    requires PathOf(members[i], limits) !in seen
    ensures Describes(seen[PathOf(members[i], limits) := members[i].kind], members[..i + 1], limits)
  {
    hide PathOf;
    var path := PathOf(members[i], limits);
    var s, after := members[..i + 1], seen[path := members[i].kind];
    forall p | p in after ensures exists k :: 0 <= k < |s| && PathOf(s[k], limits) == p {
      if p == path {
        assert s[i] == members[i];
      } else {
        var k :| 0 <= k < i && PathOf(members[..i][k], limits) == p;
        assert s[k] == members[..i][k];
      }
    }
    forall k | 0 <= k < |s| ensures PathOf(s[k], limits) in after && after[PathOf(s[k], limits)] == s[k].kind {
      if k < i { assert s[k] == members[..i][k]; }
    }
  }

  lemma HasFileExtended(members: seq<Member>, i: nat, path: Path, limits: Limits)
    requires i < |members|
    ensures HasFile(members[..i + 1], path, limits) <==>
            HasFile(members[..i], path, limits) || (members[i].kind.File? && PathOf(members[i], limits) == path)
  {
  }

  /** The checks of one header against what was read before, in the order of the script. */
  method CheckMember(m: Member, top: string, limits: Limits, seen: map<Path, Kind>, ghost before: seq<Member>)
    returns (r: Result<Path>)
    requires Describes(seen, before, limits)
    ensures r.Ok? <==> && HeaderAcceptable(m, top, limits)
                       && forall i :: 0 <= i < |before| ==> Compatible(before[i], m, limits)
    ensures r.Ok? ==> r.value == PathOf(m, limits) && r.value !in seen
  {
    hide Compatible, Describes, ProperPrefix;
    CompatibleWithSeen(seen, before, m, limits);
    var path := NormalizedPath(m.name, limits);
    if path.Err? { return path; }
    if path.value[0] != top { return Err("unexpected top"); }
    if path.value in seen { return Err("duplicate path"); }
    if m.kind.Symlink? || m.kind.HardLink? || m.kind.Device? || m.kind.Fifo? {
      return Err("link or device");
    }
    if m.sparse { return Err("sparse member"); }
    if !(m.kind.File? || m.kind.Directory?) { return Err("member type"); }
    var conflict := ConflictsWithSeen(path.value, m.kind, seen);
    if conflict { return Err("path conflict"); }
    return path;
  }

  lemma RequiredNotEmpty(top: string)
    ensures RequiredPaths(top) != {}
  {
  }

  method ValidateReleaseArchive(archiveBytes: int, members: seq<Member>, top: string, limits: Limits)
    returns (r: Result<Summary>)
    ensures r.Ok? <==> Acceptable(archiveBytes, members, top, limits)
    ensures r.Ok? ==> r.value == Summary(|members|, TotalSize(members), top, |RequiredPaths(top)|)
  {
    hide HeaderAcceptable, Compatible, PathOf, Describes, HasFile, EachAcceptable, PairwiseCompatible, TotalSize,
         RequiredPaths, SafeArtifactName;
    NothingRead(members, top, limits);
    RequiredNotEmpty(top);
    if archiveBytes > limits.maxArchiveBytes { return Err("archive bytes"); }
    if !SafeArtifactName(top) { return Err("invalid top"); }
    var seen: map<Path, Kind> := map[];
    var totalSize := 0;
    var required := RequiredPaths(top);
    var presentRequired: set<Path> := {};
    for i := 0 to |members|
      invariant i > 0 ==> i <= limits.maxMembers
      invariant EachAcceptable(members[..i], top, limits) && PairwiseCompatible(members[..i], limits)
      invariant Describes(seen, members[..i], limits)
      invariant totalSize == TotalSize(members[..i])
      invariant presentRequired != {} ==> totalSize <= limits.maxTotalBytes
      invariant presentRequired <= required
      invariant forall p :: p in required ==> (p in presentRequired <==> HasFile(members[..i], p, limits))
    {
      var m := members[i];
      PrefixDecides(members, i + 1, top, limits);
      ExtendAcceptable(members, i, top, limits);
      if i + 1 > limits.maxMembers { return Err("member count"); }
      var path := CheckMember(m, top, limits, seen, members[..i]);
      if path.Err? { return Err(path.error); }
      DescribesExtended(seen, members, i, limits);
      seen := seen[path.value := m.kind];
      forall p { HasFileExtended(members, i, p, limits); }
      if m.kind.File? {
        if m.size < 0 || m.size > limits.maxMemberBytes {
          return Err("member bytes");
        }
        totalSize := totalSize + m.size;
        if totalSize > limits.maxTotalBytes {
          if EachAcceptable(members, top, limits) { TotalSizeGrows(members, i + 1, top, limits); }
          return Err("total bytes");
        }
        if path.value in required { presentRequired := presentRequired + {path.value}; }
      }
    }
    assert members[..|members|] == members;
    if presentRequired != required {
      assert exists p :: p in required && p !in presentRequired;
      return Err("files missing");
    }
    r := Ok(Summary(|members|, totalSize, top, |presentRequired|));
  }

  // ---- The order of the members does not matter.

  lemma {:induction false} RepeatedMember(s: seq<Member>, i: nat, j: nat)
    requires i < j < |s| && s[i] == s[j]
    ensures multiset(s)[s[i]] >= 2
  {
    var a, b := s[..j], s[j..];
    assert s == a + b;
    assert a[i] in a && b[0] in b;
  }

  lemma {:induction false} NoRepeats(s: seq<Member>, limits: Limits, m: Member)
    requires PairwiseCompatible(s, limits)
    ensures multiset(s)[m] <= 1
  {
    if s != [] {
      var n := |s| - 1;
      assert s == s[..n] + [s[n]];
      NoRepeats(s[..n], limits, m);
      forall i | 0 <= i < n ensures s[..n][i] != s[n] {
        assert Compatible(s[i], s[n], limits);
      }
    }
  }

  lemma {:induction false} TotalSizeWithout(s: seq<Member>, k: nat)
    requires k < |s|
    ensures TotalSize(s) == TotalSize(s[..k] + s[k + 1..]) + FileSize(s[k])
  {
    var n := |s| - 1;
    var t := s[..k] + s[k + 1..];
    if k < n {
      TotalSizeWithout(s[..n], k);
      assert t[..n - 1] == s[..n][..k] + s[..n][k + 1..];
    } else {
      assert t == s[..n];
    }
  }

  lemma {:induction false} TotalSizePermuted(a: seq<Member>, b: seq<Member>)
    requires multiset(a) == multiset(b)
    ensures TotalSize(a) == TotalSize(b)
  {
    if a == [] {
      assert |multiset(b)| == 0;
    } else {
      var n := |a| - 1;
      assert a == a[..n] + [a[n]];
      assert a[n] in multiset(b);
      var k :| 0 <= k < |b| && b[k] == a[n];
      WithoutMultiset(b, k);
      TotalSizePermuted(a[..n], b[..k] + b[k + 1..]);
      TotalSizeWithout(b, k);
    }
  }

  lemma WithoutMultiset(s: seq<Member>, k: nat)
    requires k < |s|
    ensures multiset(s[..k] + s[k + 1..]) == multiset(s) - multiset{s[k]}
  {
    assert s == s[..k] + [s[k]] + s[k + 1..];
  }

  lemma PairwisePermuted(a: seq<Member>, b: seq<Member>, limits: Limits)
    requires multiset(a) == multiset(b) && PairwiseCompatible(a, limits)
    ensures PairwiseCompatible(b, limits)
  {
    forall i, j | 0 <= i < j < |b| ensures Compatible(b[i], b[j], limits) {
      assert b[i] in multiset(a) && b[j] in multiset(a);
      var k :| 0 <= k < |a| && a[k] == b[i];
      var l :| 0 <= l < |a| && a[l] == b[j];
      if k == l {
        RepeatedMember(b, i, j);
        NoRepeats(a, limits, b[i]);
        assert false;
      }
      assert if k < l then Compatible(a[k], a[l], limits) else Compatible(a[l], a[k], limits);
    }
  }

  lemma AcceptablePermuted(archiveBytes: int, a: seq<Member>, b: seq<Member>, top: string, limits: Limits)
    requires multiset(a) == multiset(b) && Acceptable(archiveBytes, a, top, limits)
    ensures Acceptable(archiveBytes, b, top, limits)
  {
    hide MemberAcceptable, Compatible, PathOf, NormalizedPath, TotalSize;
    assert |multiset(a)| == |multiset(b)|;
    forall i | 0 <= i < |b| ensures MemberAcceptable(b[i], top, limits) {
      assert b[i] in multiset(a);
    }
    PairwisePermuted(a, b, limits);
    TotalSizePermuted(a, b);
    forall path | path in RequiredPaths(top) ensures HasFile(b, path, limits) {
      var i :| 0 <= i < |a| && a[i].kind.File? && PathOf(a[i], limits) == path by { assert HasFile(a, path, limits); }
      assert a[i] in multiset(b);
    }
  }

  /** Acceptance is a property of the collection of members. */
  lemma OrderFree(archiveBytes: int, a: seq<Member>, b: seq<Member>, top: string, limits: Limits)
    requires multiset(a) == multiset(b)
    ensures Acceptable(archiveBytes, a, top, limits) <==> Acceptable(archiveBytes, b, top, limits)
  {
    if Acceptable(archiveBytes, a, top, limits) { AcceptablePermuted(archiveBytes, a, b, top, limits); }
    if Acceptable(archiveBytes, b, top, limits) { AcceptablePermuted(archiveBytes, b, a, top, limits); }
  }

  // ---- A file system without links.

  datatype FileNode = FileNode(content: seq<Byte>, executable: bool)

  ghost predicate Within(dir: Path, path: Path) { |dir| <= |path| && dir == path[..|dir|] }

  // The directory at `path` and its ancestors.
  ghost function Chain(path: Path): set<Path> { set k | 0 <= k <= |path| :: path[..k] }

  // The path with its `.` and `..` components worked off.
  function Resolve(path: Path): Path {
    if path == [] then []
    else
      var before := Resolve(path[..|path| - 1]);
      var last := path[|path| - 1];
      if last == "." then before
      else if last == ".." then (if before == [] then [] else before[..|before| - 1])
      else before + [last]
  }

  lemma {:induction false} ResolveNormal(path: Path)
    requires forall i :: 0 <= i < |path| ==> NormalPart(path[i])
    ensures Resolve(path) == path
  {
    if path != [] { ResolveNormal(path[..|path| - 1]); }
  }

  class FileSystem {
    var files: map<Path, FileNode>
    var dirs: set<Path>

    /** `mkdir(parents=True, exist_ok=True)`; it fails on a file in the way. */
    method MakeDirs(path: Path) returns (ok: bool)
      modifies this
      ensures files == old(files)
      ensures ok <==> forall p :: p in Chain(path) ==> p !in files
      ensures old(dirs) <= dirs <= old(dirs) + Chain(path)
      ensures ok ==> dirs == old(dirs) + Chain(path)
    {
      var k := 0;
      while k <= |path|
        invariant 0 <= k <= |path| + 1
        invariant files == old(files)
        invariant dirs == old(dirs) + set j | 0 <= j < k :: path[..j]
        invariant forall j :: 0 <= j < k ==> path[..j] !in files
      {
        if path[..k] in files {
          assert path[..k] in Chain(path);
          return false;
        }
        dirs := dirs + {path[..k]};
        k := k + 1;
      }
      return true;
    }

    /** `open("xb")`: a new empty file, in an existing directory, at a free name. */
    method CreateExclusive(path: Path) returns (ok: bool)
      modifies this
      ensures dirs == old(dirs)
      ensures ok <==> path != [] && path[..|path| - 1] in dirs && path !in old(files) && path !in dirs
      ensures files == if ok then old(files)[path := FileNode([], false)] else old(files)
    {
      ok := path != [] && path[..|path| - 1] in dirs && path !in files && path !in dirs;
      if ok { files := files[path := FileNode([], false)]; }
    }

    method Append(path: Path, chunk: seq<Byte>)
      requires path in files
      modifies this
      ensures dirs == old(dirs)
      ensures files == old(files)[path := FileNode(old(files[path].content) + chunk, old(files[path].executable))]
    {
      files := files[path := FileNode(files[path].content + chunk, files[path].executable)];
    }

    method SetMode(path: Path, executable: bool)
      requires path in files
      modifies this
      ensures dirs == old(dirs)
      ensures files == old(files)[path := FileNode(old(files[path].content), executable)]
    {
      files := files[path := FileNode(files[path].content, executable)];
    }
  }

  // ---- Extraction.

  const CHUNK: nat := 1024 * 1024

  /** `source.read(limit)`: any non-empty part of what remains, and the empty
      chunk only at the end. */
  method ReadSome(content: seq<Byte>, position: nat, limit: nat) returns (chunk: seq<Byte>)
    requires position <= |content|
    ensures |chunk| <= limit && position + |chunk| <= |content|
    ensures chunk == content[position..position + |chunk|]
    ensures chunk == [] <==> position == |content| || limit == 0
  {
    var available := if limit < |content| - position then limit else |content| - position;
    if available == 0 { return []; }
    var k :| 1 <= k <= available;
    return content[position..position + k];
  }

  /** The copy loop: it succeeds, for any pattern of short reads, exactly when the
      content is as long as the header declares, and then writes all of it. */
  method CopyContent(fs: FileSystem, target: Path, content: seq<Byte>, size: nat) returns (ok: bool)
    requires target in fs.files && fs.files[target].content == []
    modifies fs
    ensures ok <==> |content| == size
    ensures fs.dirs == old(fs.dirs)
    ensures exists written :: fs.files == old(fs.files)[target := FileNode(written, old(fs.files[target].executable))]
    ensures ok ==> fs.files == old(fs.files)[target := FileNode(content, old(fs.files[target].executable))]
  {
    var remaining: nat, position: nat := size, 0;
    while remaining != 0
      invariant position + remaining == size && position <= |content|
      invariant target in fs.files && fs.dirs == old(fs.dirs)
      invariant fs.files == old(fs.files)[target := FileNode(content[..position], old(fs.files[target].executable))]
    {
      var chunk := ReadSome(content, position, if CHUNK < remaining then CHUNK else remaining);
      if chunk == [] { return false; }
      fs.Append(target, chunk);
      assert content[..position] + chunk == content[..position + |chunk|];
      remaining, position := remaining - |chunk|, position + |chunk|;
    }
    var extra := ReadSome(content, position, 1);
    if extra != [] { return false; }
    assert content[..position] == content;
    return true;
  }

  // The files and directories that members leave below the destination.
  ghost function FilesOf(dest: Path, members: seq<Member>, limits: Limits): map<Path, FileNode> {
    if members == [] then map[]
    else
      var m := members[|members| - 1];
      var before := FilesOf(dest, members[..|members| - 1], limits);
      if m.kind.File? then before[dest + PathOf(m, limits) := FileNode(m.content, m.executable)] else before
  }

  ghost function DirectoryOf(dest: Path, m: Member, limits: Limits): Path {
    var path := PathOf(m, limits);
    if m.kind.File? && path != [] then dest + path[..|path| - 1] else dest + path
  }

  ghost function DirsOf(dest: Path, members: seq<Member>, limits: Limits): set<Path> {
    if members == [] then Chain(dest)
    else DirsOf(dest, members[..|members| - 1], limits) + Chain(DirectoryOf(dest, members[|members| - 1], limits))
  }

  /** The destination is resolved, and it is missing or empty and can be made. */
  ghost predicate Fresh(files: map<Path, FileNode>, dirs: set<Path>, dest: Path) {
    && (forall p :: p in files ==> !Within(dest, p) && !Within(p, dest))
    && (forall p :: p in dirs && Within(dest, p) ==> p == dest)
  }

  ghost predicate SizesTrue(members: seq<Member>) {
    forall i :: 0 <= i < |members| && members[i].kind.File? ==> |members[i].content| == members[i].size
  }

  // The member that writes a path.
  ghost predicate Writes(dest: Path, m: Member, limits: Limits, p: Path) { m.kind.File? && p == dest + PathOf(m, limits) }

  lemma WritesApart(dest: Path, m: Member, n: Member, limits: Limits, p: Path)
    requires Compatible(m, n, limits) && Writes(dest, m, limits, p)
    ensures !Writes(dest, n, limits, p)
  {
    hide PathOf;
    assert (dest + PathOf(m, limits))[|dest|..] == PathOf(m, limits);
    assert (dest + PathOf(n, limits))[|dest|..] == PathOf(n, limits);
  }

  lemma FilesOneMore(dest: Path, members: seq<Member>, limits: Limits, p: Path)
    requires members != []
    ensures var n := |members| - 1; var m, files := members[n], FilesOf(dest, members, limits); var before := FilesOf(dest, members[..n], limits);
            && (p in files <==> p in before || Writes(dest, m, limits, p))
            && (p in files ==> files[p] == if Writes(dest, m, limits, p) then FileNode(m.content, m.executable) else before[p])
  {
    hide PathOf;
  }

  lemma {:induction false} FilesOfExact(dest: Path, members: seq<Member>, limits: Limits, p: Path)
    requires PairwiseCompatible(members, limits)
    ensures p in FilesOf(dest, members, limits) <==> exists i :: 0 <= i < |members| && Writes(dest, members[i], limits, p)
    ensures forall i :: 0 <= i < |members| && Writes(dest, members[i], limits, p) ==>
              p in FilesOf(dest, members, limits) &&
              FilesOf(dest, members, limits)[p] == FileNode(members[i].content, members[i].executable)
  {
    hide FilesOf, Writes, Compatible;
    if members == [] {
      NoFiles(dest, limits);
    } else {
      var n := |members| - 1;
      FilesOfExact(dest, members[..n], limits, p);
      FilesOneMore(dest, members, limits, p);
      forall i | 0 <= i < n ensures members[..n][i] == members[i] && Compatible(members[i], members[n], limits) {}
      forall i | 0 <= i < n && Writes(dest, members[i], limits, p) ensures !Writes(dest, members[n], limits, p) {
        WritesApart(dest, members[i], members[n], limits, p);
      }
    }
  }

  lemma NoFiles(dest: Path, limits: Limits)
    ensures FilesOf(dest, [], limits) == map[]
  {
  }

  lemma {:induction false} DirsOfExact(dest: Path, members: seq<Member>, limits: Limits, p: Path)
    ensures p in DirsOf(dest, members, limits) <==>
            p in Chain(dest) || exists i :: 0 <= i < |members| && p in Chain(DirectoryOf(dest, members[i], limits))
  {
    hide PathOf, DirectoryOf, Chain;
    if members != [] {
      var n := |members| - 1;
      DirsOfExact(dest, members[..n], limits, p);
      assert forall i :: 0 <= i < n ==> members[..n][i] == members[i];
    }
  }

  // A directory that a member needs never lies on a file.
  lemma DirectoryClear(files: map<Path, FileNode>, dirs: set<Path>, dest: Path, members: seq<Member>, i: nat, limits: Limits)
    requires i < |members| && PairwiseCompatible(members, limits) && Fresh(files, dirs, dest)
    requires PathOf(members[i], limits) != []
    ensures forall p :: p in Chain(DirectoryOf(dest, members[i], limits)) ==>
              p !in files && p !in FilesOf(dest, members[..i], limits)
  {
    hide PathOf, FilesOf;
    var before, directory := members[..i], DirectoryOf(dest, members[i], limits);
    PrefixCompatible(members, i, limits);
    forall p | p in Chain(directory) ensures p !in files && p !in FilesOf(dest, before, limits) {
      assert |p| <= |dest| ==> Within(p, dest) by { if |p| <= |dest| { assert p == directory[..|p|] == dest[..|p|]; } }
      assert |p| >= |dest| ==> Within(dest, p) by { if |p| >= |dest| { assert p[..|dest|] == dest; } }
      FilesOfExact(dest, before, limits, p);
      forall j | 0 <= j < i && before[j].kind.File? ensures p != dest + PathOf(before[j], limits) {
        assert Compatible(members[j], members[i], limits);
        var path, inner := PathOf(members[j], limits), DirectoryOf([], members[i], limits);
        if p == dest + path { UnderDestination(dest, path, inner, directory); }
      }
    }
  }

  // A file never falls on something that was there or was written before it.
  lemma TargetClear(files: map<Path, FileNode>, dirs: set<Path>, dest: Path, members: seq<Member>, i: nat, limits: Limits)
    requires i < |members| && PairwiseCompatible(members, limits) && Fresh(files, dirs, dest)
    requires PathOf(members[i], limits) != [] && members[i].kind.File?
    ensures var target := dest + PathOf(members[i], limits);
            target !in files && target !in FilesOf(dest, members[..i], limits) &&
            target !in dirs && target !in DirsOf(dest, members[..i], limits)
  {
    hide PathOf, FilesOf, DirsOf;
    var path, before := PathOf(members[i], limits), members[..i];
    var target := dest + path;
    PrefixCompatible(members, i, limits);
    assert Within(dest, target) && target != dest;
    FilesOfExact(dest, before, limits, target);
    DirsOfExact(dest, before, limits, target);
    assert target[|dest|..] == path;
    forall j | 0 <= j < i
      ensures target != dest + PathOf(before[j], limits) && target !in Chain(DirectoryOf(dest, before[j], limits))
    {
      assert Compatible(members[j], members[i], limits);
      assert (dest + PathOf(before[j], limits))[|dest|..] == PathOf(before[j], limits);
      var inner, outer := DirectoryOf([], members[j], limits), DirectoryOf(dest, members[j], limits);
      if target in Chain(outer) { UnderDestination(dest, path, inner, outer); }
    }
    assert target !in Chain(dest);
  }

  lemma UnderDestination(dest: Path, path: Path, inner: Path, outer: Path)
    requires outer == dest + inner
    requires dest + path in Chain(outer)
    ensures |path| <= |inner| && path == inner[..|path|]
  {
    var k :| 0 <= k <= |outer| && outer[..k] == dest + path;
    assert outer[..k][|dest|..] == path;
    assert outer[..k][|dest|..] == inner[..k - |dest|];
  }

  lemma PrefixCompatible(members: seq<Member>, i: nat, limits: Limits)
    requires i < |members| && PairwiseCompatible(members, limits)
    ensures PairwiseCompatible(members[..i], limits)
    ensures forall j :: 0 <= j < i ==> members[..i][j] == members[j] && Compatible(members[j], members[i], limits)
  {
  }

  /** One member; the file system is as it was plus what the members before it wrote. */
  method ExtractMember(fs: FileSystem, m: Member, dest: Path, path: Path) returns (ok: bool)
    requires path != [] && (forall k :: 0 <= k < |path| ==> NormalPart(path[k]))
    requires (forall k :: 0 <= k < |dest| ==> NormalPart(dest[k]))
    requires !m.kind.Directory? ==> m.size >= 0
    modifies fs
    ensures var directory := if m.kind.Directory? then dest + path else dest + path[..|path| - 1];
            var target := dest + path;
            && (ok <==>
                  && (forall p :: p in Chain(directory) ==> p !in old(fs.files))
                  && (!m.kind.Directory? ==> target !in old(fs.files) && target !in old(fs.dirs) && |m.content| == m.size))
            && (ok ==> fs.dirs == old(fs.dirs) + Chain(directory))
            && (ok ==> fs.files == if m.kind.Directory? then old(fs.files)
                                   else old(fs.files)[target := FileNode(m.content, m.executable)])
    ensures forall p :: !Within(dest, p) ==> (p in fs.files <==> p in old(fs.files))
    ensures forall p :: p in old(fs.files) && !Within(dest, p) ==> fs.files[p] == old(fs.files)[p]
  {
    var target := dest + path;
    var parent := target[..|target| - 1];
    assert parent == dest + path[..|path| - 1];
    ResolveNormal(parent);
    if !(|dest| <= |Resolve(parent)| && Resolve(parent)[..|dest|] == dest) { return false; }
    if m.kind.Directory? {
      ok := fs.MakeDirs(target);
      return;
    }
    ok := fs.MakeDirs(parent);
    if !ok { return; }
    assert target !in Chain(parent);
    assert parent in Chain(parent) by { assert parent[..|parent|] == parent; }
    ok := fs.CreateExclusive(target);
    if !ok { return; }
    ok := CopyContent(fs, target, m.content, m.size);
    if ok { fs.SetMode(target, m.executable); }
  }

  lemma ExtractedOneMore(dest: Path, members: seq<Member>, i: nat, limits: Limits)
    requires i < |members|
    ensures members[..i + 1][..i] == members[..i]
    ensures DirsOf(dest, members[..i + 1], limits) ==
            DirsOf(dest, members[..i], limits) + Chain(DirectoryOf(dest, members[i], limits))
    ensures FilesOf(dest, members[..i + 1], limits) ==
            if members[i].kind.File?
            then FilesOf(dest, members[..i], limits)[dest + PathOf(members[i], limits) :=
                                                     FileNode(members[i].content, members[i].executable)]
            else FilesOf(dest, members[..i], limits)
    ensures SizesTrue(members[..i + 1]) <==>
            SizesTrue(members[..i]) && (members[i].kind.File? ==> |members[i].content| == members[i].size)
  {
    hide PathOf, Chain;
    var s := members[..i + 1];
    assert s[..i] == members[..i] && s[i] == members[i];
    if SizesTrue(s) {
      forall k | 0 <= k < i && members[..i][k].kind.File? ensures |members[..i][k].content| == members[..i][k].size {
        assert s[k] == members[..i][k];
      }
    }
  }

  // What validation tells the extractor about one member.
  lemma MemberReady(archiveBytes: int, members: seq<Member>, i: nat, top: string, limits: Limits)
    requires Acceptable(archiveBytes, members, top, limits) && i < |members|
    ensures var m, path := members[i], PathOf(members[i], limits);
            && NormalizedPath(m.name, limits) == Ok(path) && (m.kind.File? || m.kind.Directory?)
            && path != [] && (forall k :: 0 <= k < |path| ==> NormalPart(path[k]))
            && (m.kind.File? ==> m.size >= 0)
    ensures PairwiseCompatible(members, limits)
  {
  }

  lemma SizesOfPrefix(members: seq<Member>, i: nat)
    requires i <= |members| && SizesTrue(members)
    ensures SizesTrue(members[..i])
  {
  }

  lemma NothingExtracted(files: map<Path, FileNode>, dirs: set<Path>, dest: Path, members: seq<Member>, limits: Limits)
    ensures FilesOf(dest, members[..0], limits) == map[] && DirsOf(dest, members[..0], limits) == Chain(dest)
    ensures SizesTrue(members[..0])
    ensures Fresh(files, dirs, dest) ==> forall p :: p in Chain(dest) ==> p !in files
  {
  }

  /** An archive that is not acceptable writes nothing.  An acceptable one, into
      a fresh destination, is extracted without any conflict, exactly when its
      contents have their declared sizes.  Nothing outside the destination changes. */
  method ExtractReleaseArchive(
    fs: FileSystem, archiveBytes: int, members: seq<Member>, dest: Path, top: string, limits: Limits)
    returns (r: Result<Summary>)
    requires forall k :: 0 <= k < |dest| ==> NormalPart(dest[k])
    modifies fs
    ensures !Acceptable(archiveBytes, members, top, limits) ==>
              r.Err? && fs.files == old(fs.files) && fs.dirs == old(fs.dirs)
    ensures Acceptable(archiveBytes, members, top, limits) && Fresh(old(fs.files), old(fs.dirs), dest) ==>
              (r.Ok? <==> SizesTrue(members))
    ensures r.Ok? && Fresh(old(fs.files), old(fs.dirs), dest) ==>
              && fs.files == old(fs.files) + FilesOf(dest, members, limits)
              && fs.dirs == old(fs.dirs) + DirsOf(dest, members, limits)
    ensures forall p :: !Within(dest, p) ==> (p in fs.files <==> p in old(fs.files))
    ensures forall p :: p in old(fs.files) && !Within(dest, p) ==> fs.files[p] == old(fs.files)[p]
  {
    hide NormalizedPath, PathOf, Acceptable, PairwiseCompatible, FilesOf, DirsOf, SizesTrue, Chain, Fresh, Within;
    r := ValidateReleaseArchive(archiveBytes, members, top, limits);
    if r.Err? { return; }
    ghost var files0, dirs0 := fs.files, fs.dirs;
    ghost var empty := Fresh(files0, dirs0, dest);
    var made := fs.MakeDirs(dest);
    NothingExtracted(files0, dirs0, dest, members, limits);
    if !made { return Err("not extracted"); }
    for i := 0 to |members|
      invariant empty ==> fs.files == files0 + FilesOf(dest, members[..i], limits)
      invariant empty ==> fs.dirs == dirs0 + DirsOf(dest, members[..i], limits)
      invariant empty ==> SizesTrue(members[..i])
      invariant forall p :: !Within(dest, p) ==> (p in fs.files <==> p in files0)
      invariant forall p :: p in files0 && !Within(dest, p) ==> fs.files[p] == files0[p]
    {
      MemberReady(archiveBytes, members, i, top, limits);
      ExtractedOneMore(dest, members, i, limits);
      if empty {
        DirectoryClear(files0, dirs0, dest, members, i, limits);
        if members[i].kind.File? { TargetClear(files0, dirs0, dest, members, i, limits); }
      }
      var path := NormalizedPath(members[i].name, limits);
      var ok := ExtractMember(fs, members[i], dest, path.value);
      if !ok {
        if SizesTrue(members) { SizesOfPrefix(members, i + 1); }
        return Err("not extracted");
      }
    }
    assert members[..|members|] == members;
  }
}
