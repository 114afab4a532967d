/** Which files may be cleaned up: the path guard and the classifier of the API. */
module CleanupRules {
  import opened Wrappers
  import opened Text
  import opened Json
  import opened JsonProofs
  import opened JsonDicts
  import opened Utf8
  import opened Tokens
  import opened Paths

  datatype Metadata = Metadata(size: int, mtimeNs: int, inode: int, device: int)

  datatype EntryType = RegularFile | Directory | Symlink | Special

  datatype Kind = Missing | Found(entry: EntryType, meta: Metadata)

  /**
   The state of the file system that both checks look at; `lower` is `str.lower`, and `follow` tells where `resolve`
   leads when it need not be strict, through symbolic links and past missing names.
   */
  datatype World = World(kind: Path -> Kind, follow: seq<string> -> Path, cwd: Path, lower: string -> string, sha: Sha)

  predicate IsSymlink(world: World, path: Path) {
    world.kind(path).Found? && world.kind(path).entry == Symlink
  }

  predicate IsRegular(world: World, path: Path) {
    world.kind(path).Found? && world.kind(path).entry == RegularFile
  }

  // ---------- the path guard ----------

  ghost predicate SymlinkPassed(world: World, parts: seq<string>) {
    exists n :: 0 < n <= |parts| && IsSymlink(world, Normalize(parts[..n]))
  }

  ghost predicate MissingPassed(world: World, parts: seq<string>) {
    exists n :: 0 < n <= |parts| && world.kind(Normalize(parts[..n])).Missing?
  }

  function PartsOf(world: World, raw: string): seq<string> {
    if Absolute(raw) then Split(raw) else world.cwd + Split(raw)
  }

  /** `target == root or root in target.parents`, for one of the roots. */
  predicate UnderAny(roots: seq<Path>, target: Path) {
    exists i :: 0 <= i < |roots| && roots[i] <= target
  }

  function TargetOf(world: World, raw: string): Path {
    Normalize(PartsOf(world, raw))
  }

  /** What the guard demands of every path, also of one that need not exist. */
  ghost predicate PathAllowed(world: World, roots: seq<Path>, protectedPaths: seq<Path>, raw: string) {
    && (0 as char) !in raw && !SymlinkPassed(world, PartsOf(world, raw))
    && !UnderAny(protectedPaths, TargetOf(world, raw)) && UnderAny(roots, TargetOf(world, raw))
  }

  ghost predicate Guarded(world: World, roots: seq<Path>, protectedPaths: seq<Path>, raw: string) {
    PathAllowed(world, roots, protectedPaths, raw) && !MissingPassed(world, PartsOf(world, raw))
  }

  /** `strict` resolution raises when something on the way is missing. */
  method Resolve(world: World, parts: seq<string>) returns (r: Result<Path>)
    ensures r.Ok? <==> !MissingPassed(world, parts)
    ensures r.Ok? ==> r.value == Normalize(parts)
  {
    var n := 0;
    while n < |parts|
      invariant n <= |parts|
      invariant forall m :: 0 < m <= n ==> !world.kind(Normalize(parts[..m])).Missing?
    {
      n := n + 1;
      if world.kind(Normalize(parts[..n])).Missing? {
        return Err("FileNotFoundError");
      }
    }
    return Ok(Normalize(parts));
  }

  class PathGuard {
    const roots: seq<Path>
    const protectedPaths: seq<Path>

    constructor (roots: seq<Path>, protectedPaths: seq<Path>)
      ensures this.roots == roots && this.protectedPaths == protectedPaths
    {
      this.roots, this.protectedPaths := roots, protectedPaths;
    }

    method Validate(world: World, raw: string, mustExist: bool) returns (r: Result<Path>)
      ensures r.Ok? <==> (if mustExist then Guarded(world, roots, protectedPaths, raw)
                          else PathAllowed(world, roots, protectedPaths, raw))
      ensures r.Ok? ==> r.value == TargetOf(world, raw)
      ensures r == Err("SYMLINK_REJECTED") <==> (0 as char) !in raw && SymlinkPassed(world, PartsOf(world, raw))
    {
      if (0 as char) in raw {
        return Err("PATH_REJECTED");
      }
      var parts := PartsOf(world, raw);
      var n := |parts|;
      while n > 0
        invariant 0 <= n <= |parts|
        invariant forall m :: n < m <= |parts| ==> !IsSymlink(world, Normalize(parts[..m]))
      {
        if IsSymlink(world, Normalize(parts[..n])) {
          return Err("SYMLINK_REJECTED");
        }
        n := n - 1;
      }
      if mustExist {
        var resolved := Resolve(world, parts);
        if resolved.Err? {
          return Err("FileNotFoundError");
        }
      }
      var target := Normalize(parts);
      if UnderAny(protectedPaths, target) {
        return Err("PROTECTED_PATH");
      }
      if !UnderAny(roots, target) {
        return Err("PATH_REJECTED");
      }
      return Ok(target);
    }
  }

  // ---------- the classifier ----------

  const SUFFIXES := [
    ".log", ".gz", ".old", ".tmp", ".cache", ".msi", ".iso", ".zip", ".tar", ".tgz", ".tar.gz", ".7z", ".rar", ".rpm",
    ".deb", ".apk", ".dmg", ".pkg", ".exe"]
  const DISPOSABLE_SUFFIXES := [
    ".tmp", ".cache", ".msi", ".iso", ".zip", ".tar", ".tgz", ".tar.gz", ".7z", ".rar", ".rpm", ".deb", ".apk",
    ".dmg", ".pkg", ".exe"]
  const FORBIDDEN_TERMS := [
    "audit", "journal", "mysql-bin", "binlog", "postgresql", "transaction", "redo", "wal", "secret", "token",
    "password", "credential", "private-key", "id_rsa"]

  predicate EndsWithAny(s: string, suffixes: seq<string>) {
    suffixes != [] && (EndsWith(s, suffixes[0]) || EndsWithAny(s, suffixes[1..]))
  }

  predicate ContainsAny(s: string, terms: seq<string>) {
    terms != [] && (Contains(s, terms[0]) || ContainsAny(s, terms[1..]))
  }

  /** `path.name` */
  function LastName(path: Path): string {
    if path == [] then "" else path[|path| - 1]
  }

  datatype UseState = NOT_OPEN | OPEN | UNKNOWN

  datatype Policy = Policy(
    roots: seq<Path>, protectedPaths: seq<Path>, minimumAgeDays: int, minimumSize: int, suffixes: seq<string>,
    lowRiskNames: seq<string>, forbiddenTerms: seq<string>)

  /**
   The suffixes and terms that a policy has when nothing else is said; the names of low-risk directories may be any.
   */
  predicate DefaultLists(policy: Policy) {
    policy.suffixes == SUFFIXES && policy.forbiddenTerms == FORBIDDEN_TERMS
  }

  /** The names of the parents, the root having none. */
  predicate LowRiskParent(world: World, policy: Policy, target: Path) {
    || world.lower("") in policy.lowRiskNames
    || exists i :: 0 <= i < |target| - 1 && world.lower(target[i]) in policy.lowRiskNames
  }

  predicate LowRiskDisposable(world: World, policy: Policy, target: Path) {
    EndsWithAny(world.lower(LastName(target)), DISPOSABLE_SUFFIXES) && LowRiskParent(world, policy, target)
  }

  const DAY_NS := 86_400_000_000_000

  /** Every condition that makes a file eligible. */
  ghost predicate Eligible(world: World, policy: Policy, target: Path, meta: Metadata, use: UseState, nowNs: int) {
    var lowered, disposable := world.lower(LastName(target)), LowRiskDisposable(world, policy, target);
    && IsRegular(world, target) && world.kind(target).meta == meta
    && EndsWithAny(lowered, policy.suffixes) && !ContainsAny(lowered, policy.forbiddenTerms)
    && meta.size >= policy.minimumSize
    && (disposable || nowNs - meta.mtimeNs >= policy.minimumAgeDays * DAY_NS)
    && use != OPEN && (use == UNKNOWN ==> disposable)
  }

  function SnapshotFields(path: string, meta: Metadata): seq<Field> {
    [Field("path", Str(path)), Field("size", Num(meta.size)), Field("mtime_ns", Num(meta.mtimeNs)),
     Field("inode", Num(meta.inode)), Field("device", Num(meta.device))]
  }

  function SnapshotHash(sha: Sha, path: string, meta: Metadata): string {
    ArgumentsHash(sha, Obj(SnapshotFields(path, meta)))
  }

  datatype Candidate = Candidate(candidateId: string, path: string, size: int, inode: int, device: int,
      snapshotHash: string)

  datatype Decision = Decision(reasons: seq<string>, candidate: Option<Candidate>)

  function CandidateOf(sha: Sha, target: Path, meta: Metadata): Candidate {
    var hash := SnapshotHash(sha, Join(target), meta);
    Candidate("cleanup-" + First(hash, 24), Join(target), meta.size, meta.inode, meta.device, hash)
  }

  class CleanupCandidateClassifier {
    const policy: Policy
    const guard: PathGuard

    constructor (policy: Policy)
      ensures this.policy == policy && guard.roots == policy.roots && guard.protectedPaths == policy.protectedPaths
    {
      this.policy := policy;
      guard := new PathGuard(policy.roots, policy.protectedPaths);
    }

    method Reasons(world: World, target: Path, use: UseState, nowNs: int) returns (reasons: seq<string>)
      requires world.kind(target).Found?
      ensures reasons == [] <==> Eligible(world, policy, target, world.kind(target).meta, use, nowNs)
      ensures use == OPEN ==> "FILE_IS_OPEN" in reasons
      ensures world.kind(target).entry != RegularFile ==> "NOT_REGULAR_FILE" in reasons
      ensures world.kind(target).meta.size < policy.minimumSize ==> "BELOW_SIZE_THRESHOLD" in reasons
    {
      hide EndsWithAny, ContainsAny, LowRiskParent;
      var meta := world.kind(target).meta;
      var disposable := LowRiskDisposable(world, policy, target);
      var lowered := world.lower(LastName(target));
      reasons := [];
      if world.kind(target).entry != RegularFile {
        reasons := reasons + ["NOT_REGULAR_FILE"];
      }
      if !EndsWithAny(lowered, policy.suffixes) {
        reasons := reasons + ["FILE_TYPE_NOT_ALLOWED"];
      }
      if ContainsAny(lowered, policy.forbiddenTerms) {
        reasons := reasons + ["CRITICAL_OR_DATABASE_LOG"];
      }
      if meta.size < policy.minimumSize {
        reasons := reasons + ["BELOW_SIZE_THRESHOLD"];
      }
      if !disposable && nowNs - meta.mtimeNs < policy.minimumAgeDays * DAY_NS {
        reasons := reasons + ["RETENTION_PERIOD_NOT_MET"];
      }
      if use == OPEN {
        reasons := reasons + ["FILE_IS_OPEN"];
      } else if use == UNKNOWN && !disposable {
        reasons := reasons + ["OPEN_FILE_STATE_UNKNOWN"];
      }
    }

    method Classify(world: World, raw: string, use: UseState, nowNs: int) returns (d: Decision)
      requires guard.roots == policy.roots && guard.protectedPaths == policy.protectedPaths
      ensures d.candidate.Some? <==> Classified(world, policy, raw, use, nowNs)
      ensures use == OPEN ==> d.candidate.None?
      ensures d.candidate.Some? ==>
        && d.reasons == ["SAFE_CANDIDATE"]
        && d.candidate.value == CandidateOf(world.sha, TargetOf(world, raw), world.kind(TargetOf(world, raw)).meta)
    {
      hide Eligible, Guarded, CandidateOf, TargetOf;
      var target := guard.Validate(world, raw, true);
      if target.Err? {
        return Decision([target.error], None);
      }
      if world.kind(target.value).Missing? {
        return Decision(["STAT_FAILED"], None);
      }
      var reasons := Reasons(world, target.value, use, nowNs);
      if reasons != [] {
        return Decision(reasons, None);
      }
      return Decision(["SAFE_CANDIDATE"], Some(CandidateOf(world.sha, target.value, world.kind(target.value).meta)));
    }

    method Revalidate(world: World, candidate: Candidate, use: UseState, nowNs: int) returns (current: bool)
      requires guard.roots == policy.roots && guard.protectedPaths == policy.protectedPaths
      ensures current <==> Classified(world, policy, candidate.path, use, nowNs) && StillFrozen(world, candidate)
      ensures use == OPEN ==> !current
    {
      hide Eligible, Guarded, SnapshotHash, TargetOf;
      var d := Classify(world, candidate.path, use, nowNs);
      current := d.candidate.Some? && d.candidate.value.snapshotHash == candidate.snapshotHash;
    }
  }

  /** The path still leads to a file with the frozen snapshot. */
  predicate StillFrozen(world: World, candidate: Candidate) {
    var target := TargetOf(world, candidate.path);
    && world.kind(target).Found?
    && candidate.snapshotHash == SnapshotHash(world.sha, Join(target), world.kind(target).meta)
  }

  ghost predicate Classified(world: World, policy: Policy, raw: string, use: UseState, nowNs: int) {
    var target := TargetOf(world, raw);
    && Guarded(world, policy.roots, policy.protectedPaths, raw)
    && world.kind(target).Found? && Eligible(world, policy, target, world.kind(target).meta, use, nowNs)
  }

  // ---------- what a candidate freezes ----------

  lemma {:induction false} SnapshotUnique(path: string, meta: Metadata)
    ensures Unique(Obj(SnapshotFields(path, meta)))
  {
    var fs := SnapshotFields(path, meta);
    assert |fs[0].key| == 4 && |fs[1].key| == 4 && fs[0].key[0] == 'p' && fs[1].key[0] == 's';
    assert |fs[2].key| == 8 && |fs[3].key| == 5 && |fs[4].key| == 6;
  }

  /**
   Equal snapshot hashes mean the same path, size, modification time, inode and device, or the two snapshots collide.
   */
  lemma {:induction false} SnapshotBinds(sha: Sha, path: string, meta: Metadata, other: string, now: Metadata)
    requires SnapshotHash(sha, path, meta) == SnapshotHash(sha, other, now)
    ensures (path == other && meta == now)
            || Collision(sha, ArgumentsBytes(Obj(SnapshotFields(path, meta))),
              ArgumentsBytes(Obj(SnapshotFields(other, now))))
  {
    var f, g := SnapshotFields(path, meta), SnapshotFields(other, now);
    SnapshotUnique(path, meta);
    SnapshotUnique(other, now);
    hide Unique, SameValue, ArgumentsBytes;
    SameHashSameArguments(sha, Obj(f), Obj(g));
    if SameValue(Obj(f), Obj(g)) {
      ValuesAgree(f, g, 0);
      ValuesAgree(f, g, 1);
      ValuesAgree(f, g, 2);
      ValuesAgree(f, g, 3);
      ValuesAgree(f, g, 4);
    }
  }

  /** A candidate that is still current is the file it was when it was frozen, or two snapshots collide. */
  lemma {:induction false} CurrentMeansUnchanged(
      early: World, late: World, policy: Policy, raw: string, use: UseState, nowNs: int, useLate: UseState, lateNs: int)
    requires early.sha == late.sha && CleanWorld(early) && Classified(early, policy, raw, use, nowNs)
    requires var target := TargetOf(early, raw);
             var c := CandidateOf(early.sha, target, early.kind(target).meta);
             Classified(late, policy, c.path, useLate, lateNs) && StillFrozen(late, c)
    ensures var target := TargetOf(early, raw);
            && late.kind(target).Found?
            && (late.kind(target).meta == early.kind(target).meta
                || Collision(early.sha, ArgumentsBytes(Obj(SnapshotFields(Join(target), early.kind(target).meta))),
                             ArgumentsBytes(Obj(SnapshotFields(Join(target), late.kind(target).meta)))))
  {
    var target := TargetOf(early, raw);
    TargetClean(early, raw);
    TargetReread(late, target);
    hide Eligible, Guarded, TargetOf, ArgumentsBytes, SnapshotHash;
    SnapshotBinds(early.sha, Join(target), early.kind(target).meta, Join(target), late.kind(target).meta);
  }

  /** The working directory is a resolved path. */
  ghost predicate CleanWorld(world: World) {
    Clean(world.cwd)
  }

  lemma {:induction false} TargetClean(world: World, raw: string)
    requires CleanWorld(world)
    ensures Clean(TargetOf(world, raw))
  {
    SplitFromClean(raw, "");
    NormalizeClean(PartsOf(world, raw));
  }

  /** The text of a resolved path names that path again. */
  lemma {:induction false} TargetReread(world: World, target: Path)
    requires Clean(target)
    ensures PartsOf(world, Join(target)) == target && TargetOf(world, Join(target)) == target
  {
    SplitJoin(target);
    NormalizeIdle(target);
  }
}
