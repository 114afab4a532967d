/** The helper that runs as root. It trusts nothing it is given and repeats every check in its own words. */
module PrivilegedHelper {
  import opened Wrappers
  import opened Text
  import opened Json
  import opened JsonProofs
  import opened Utf8
  import opened Tokens
  import opened Paths
  import opened CleanupRules
  import opened FaultyDisk
  import opened CleanupExecutor
  import ApprovalProtocol

  const HELPER_SUFFIXES := [
    ".log", ".gz", ".old", ".tmp", ".cache", ".msi", ".iso", ".zip", ".tar", ".tgz", ".tar.gz", ".7z", ".rar", ".rpm",
    ".deb", ".apk", ".dmg", ".pkg", ".exe"]
  const HELPER_TERMS := [
    "audit", "journal", "mysql-bin", "binlog", "postgresql", "transaction", "redo", "wal", "secret", "token",
    "password", "credential", "private-key", "id_rsa"]
  const PROTECTED_PREFIXES: seq<Path> := [["etc"], ["root"], ["boot"], ["proc"], ["sys"], ["dev"], ["run"],
    ["var", "lib"]]
  const FIXED_ROOTS: seq<Path> := [["tmp"], ["var", "tmp"], ["var", "log"], ["var", "log", "kylin-guard-managed"]]
  const HOME_LOW_RISK := [".cache", "Downloads", "Download", "downloads", "downlaods", "Desktop", "Documents", "tmp"]
  const BACKUP_ROOT: Path := ["var", "lib", "kylin-guard", "backups"]
  const ACTION := "safe_log_cleanup"

  // ---------- the checks ----------

  /** `_is_allowed_cleanup_path`; the parts of the source count the root as the first. */
  predicate AllowedPath(target: Path) {
    UnderAny(FIXED_ROOTS, target)
    || (|target| >= 3 && target[0] == "home" && exists i :: 2 <= i < |target| - 1 && target[i] in HOME_LOW_RISK)
  }

  /** Every condition of `_validate_cleanup_target` for a file that must exist. */
  ghost predicate TargetAccepted(world: World, raw: string) {
    var target := Normalize(Split(raw));
    var lowered := world.lower(LastName(target));
    && Absolute(raw)
    && !SymlinkPassed(world, Split(raw)) && !MissingPassed(world, Split(raw))
    && IsRegular(world, target)
    && !UnderAny(PROTECTED_PREFIXES, target) && AllowedPath(target)
    && EndsWithAny(lowered, HELPER_SUFFIXES) && !ContainsAny(lowered, HELPER_TERMS)
  }

  method ValidateCleanupTarget(world: World, raw: string) returns (r: Result<Path>)
    ensures r.Ok? <==> TargetAccepted(world, raw)
    ensures r.Ok? ==> r.value == Normalize(Split(raw))
  {
    hide EndsWithAny, ContainsAny, AllowedPath, UnderAny;
    if !Absolute(raw) {
      return Err("PATH_REJECTED");
    }
    var parts := Split(raw);
    var n := |parts|;
    while n > 0
      invariant 0 <= n <= |parts|
      invariant forall m :: n < m <= |parts| ==> !IsSymlink(world, Normalize(parts[..m]))
    {
      if IsSymlink(world, Normalize(parts[..n])) {
        return Err("SYMLINK_REJECTED");
      }
      n := n - 1;
    }
    var resolved := Resolve(world, parts);
    if resolved.Err? {
      return resolved;
    }
    var target := resolved.value;
    if !IsRegular(world, target) {
      return Err("NOT_REGULAR_FILE");
    }
    if UnderAny(PROTECTED_PREFIXES, target) {
      return Err("PROTECTED_PATH");
    }
    if !AllowedPath(target) {
      return Err("PATH_REJECTED");
    }
    var lowered := world.lower(LastName(target));
    if !EndsWithAny(lowered, HELPER_SUFFIXES) {
      return Err("FILE_TYPE_NOT_ALLOWED");
    }
    if ContainsAny(lowered, HELPER_TERMS) {
      return Err("CRITICAL_OR_DATABASE_LOG");
    }
    return Ok(target);
  }

  /** `int(text)` on the texts that `str` makes of an int. */
  function ReadInt(text: string): Option<int> {
    match ScanNumber(text)
    case Some((n, "")) => Some(n)
    case _ => None
  }

  lemma {:induction false} ReadIntText(n: int)
    ensures ReadInt(IntText(n)) == Some(n)
  {
    ScanIntText(n, "");
    assert IntText(n) + "" == IntText(n);
  }

  /** The backup root must be the expected directory once every link is followed. */
  predicate BackupRootAccepted(world: World, raw: string) {
    world.follow(PartsOf(world, raw)) == BACKUP_ROOT
  }

  /** Without a link on the way `resolve` only reads the text. */
  ghost predicate FollowsPlainly(world: World) {
    forall parts :: !SymlinkPassed(world, parts) ==> world.follow(parts) == Normalize(parts)
  }

  /** The link leads to something; the source does not see a dangling one. */
  predicate LiveLink(world: World, parts: seq<string>) {
    IsSymlink(world, Normalize(parts)) && world.kind(world.follow(parts)).Found?
  }

  /** Every condition of `_validate_cleanup_target` for a file that need not exist. */
  ghost predicate RestoreTargetAccepted(world: World, raw: string) {
    var target := world.follow(Split(raw));
    && Absolute(raw)
    && (forall n :: 0 < n <= |Split(raw)| ==> !LiveLink(world, Split(raw)[..n]))
    && !UnderAny(PROTECTED_PREFIXES, target) && AllowedPath(target)
    && !ContainsAny(world.lower(LastName(target)), HELPER_TERMS)
  }

  /**
   The same checks for a file that is not there yet: only dangling links are followed, and the suffix is not looked at.
   */
  method ValidateRestoreTarget(world: World, raw: string) returns (r: Result<Path>)
    ensures r.Ok? <==> RestoreTargetAccepted(world, raw)
    ensures r.Ok? ==> r.value == world.follow(Split(raw))
  {
    hide ContainsAny, AllowedPath, UnderAny, LiveLink;
    if !Absolute(raw) {
      return Err("PATH_REJECTED");
    }
    var parts := Split(raw);
    var n := |parts|;
    while n > 0
      invariant 0 <= n <= |parts|
      invariant forall m :: n < m <= |parts| ==> !LiveLink(world, parts[..m])
    {
      if LiveLink(world, parts[..n]) {
        return Err("SYMLINK_REJECTED");
      }
      n := n - 1;
    }
    var target := world.follow(parts);
    if UnderAny(PROTECTED_PREFIXES, target) {
      return Err("PROTECTED_PATH");
    }
    if !AllowedPath(target) {
      return Err("PATH_REJECTED");
    }
    if ContainsAny(world.lower(LastName(target)), HELPER_TERMS) {
      return Err("CRITICAL_OR_DATABASE_LOG");
    }
    return Ok(target);
  }

  /**
   Everything `_safe_log_cleanup` checks before it writes: candidate id, path, size, inode, device, snapshot, backup
   root.
   */
  ghost predicate RequestAccepted(world: World, argv: seq<string>, meta: Metadata) {
    && |argv| == 8
    && "cleanup-" <= argv[1]
    && TargetAccepted(world, argv[2])
    && world.kind(Normalize(Split(argv[2]))) == Found(RegularFile, meta)
    && ReadInt(argv[3]) == Some(meta.size) && ReadInt(argv[4]) == Some(meta.inode)
    && ReadInt(argv[5]) == Some(meta.device)
    && argv[6] == SnapshotHash(world.sha, Join(Normalize(Split(argv[2]))), meta)
    && BackupRootAccepted(world, argv[7])
  }

  /** The request is accepted for the file as it is now. */
  ghost predicate Accepts(world: World, argv: seq<string>) {
    exists meta :: RequestAccepted(world, argv, meta)
  }

  // ---------- the helper accepts what the classifier froze ----------

  /** The default policy: every root is a fixed one or a low-risk directory of some user's home. */
  ghost predicate HomeRoot(root: Path) {
    |root| == 3 && root[0] == "home" && root[2] in HOME_LOW_RISK
  }

  ghost predicate DefaultRoots(roots: seq<Path>) {
    forall i :: 0 <= i < |roots| ==> roots[i] in FIXED_ROOTS || HomeRoot(roots[i])
  }

  function HelperArguments(candidateId: string, c: Candidate, backupRoot: string): seq<string> {
    [ACTION, candidateId, c.path, IntText(c.size), IntText(c.inode), IntText(c.device), c.snapshotHash, backupRoot]
  }

  lemma {:induction false} SameLists()
    ensures HELPER_SUFFIXES == SUFFIXES && HELPER_TERMS == FORBIDDEN_TERMS
  {
  }

  lemma {:induction false} FixedIsUnprotected(root: Path, target: Path)
    requires root in FIXED_ROOTS && root <= target
    ensures !UnderAny(PROTECTED_PREFIXES, target) && UnderAny(FIXED_ROOTS, target)
  {
    var i :| 0 <= i < |FIXED_ROOTS| && FIXED_ROOTS[i] == root;
    assert target[0] == "tmp" || (target[0] == "var" && (target[1] == "tmp" || target[1] == "log"));
    forall j | 0 <= j < |PROTECTED_PREFIXES|
      ensures !(PROTECTED_PREFIXES[j] <= target)
    {
      assert j < 7 ==> PROTECTED_PREFIXES[j][0] != target[0];
      assert j == 7 ==> PROTECTED_PREFIXES[j][1] == "lib" && (target[0] == "tmp" || target[1] != "lib");
    }
  }

  lemma {:induction false} HomeIsUnprotected(target: Path)
    requires |target| >= 3 && target[0] == "home"
    ensures !UnderAny(PROTECTED_PREFIXES, target) && !UnderAny(FIXED_ROOTS, target)
  {
    forall j | 0 <= j < |PROTECTED_PREFIXES|
      ensures !(PROTECTED_PREFIXES[j] <= target)
    {
      assert PROTECTED_PREFIXES[j][0] != "home";
    }
    forall j | 0 <= j < |FIXED_ROOTS|
      ensures !(FIXED_ROOTS[j] <= target)
    {
      assert FIXED_ROOTS[j][0] != "home";
    }
  }

  lemma {:induction false} ScopedIdKeepsPrefix(id: string, taskId: string)
    requires "cleanup-" <= id
    ensures "cleanup-" <= ApprovalProtocol.ScopedCandidateId(id, taskId)
  {
    assert |"cleanup-"| == 8;
  }

  lemma {:induction false} BackupRootIsAccepted(world: World)
    requires FollowsPlainly(world) && !SymlinkPassed(world, BACKUP_ROOT)
    ensures BackupRootAccepted(world, Join(BACKUP_ROOT))
  {
    assert Clean(BACKUP_ROOT);
    SplitJoin(BACKUP_ROOT);
    NormalizeIdle(BACKUP_ROOT);
  }

  /** What the guard found on the way through the raw path also holds on the way through the resolved one. */
  lemma {:induction false} ResolvedWayIsClear(world: World, parts: seq<string>)
    requires !SymlinkPassed(world, parts) && !MissingPassed(world, parts) && Clean(Normalize(parts))
    ensures !SymlinkPassed(world, Normalize(parts)) && !MissingPassed(world, Normalize(parts))
  {
    var target := Normalize(parts);
    forall k | 0 < k <= |target|
      ensures !IsSymlink(world, Normalize(target[..k])) && !world.kind(Normalize(target[..k])).Missing?
    {
      NormalizeIdle(target[..k]);
      var n := AncestorPassed(parts, k);
    }
  }

  lemma {:induction false} AllowedUnderRoots(roots: seq<Path>, target: Path)
    requires DefaultRoots(roots) && UnderAny(roots, target)
    ensures !UnderAny(PROTECTED_PREFIXES, target)
    ensures AllowedPath(target) <==> !(|target| == 3 && target[0] == "home")
  {
    var i :| 0 <= i < |roots| && roots[i] <= target;
    if roots[i] in FIXED_ROOTS {
      FixedIsUnprotected(roots[i], target);
      FixedIsNotHome(target);
    } else {
      HomeIsUnprotected(target);
      hide UnderAny;
      if |target| > 3 {
        assert target[2] == roots[i][2];
      }
    }
  }

  lemma {:induction false} FixedIsNotHome(target: Path)
    requires UnderAny(FIXED_ROOTS, target)
    ensures target[0] != "home"
  {
    if target[0] == "home" && |target| >= 3 {
      HomeIsUnprotected(target);
    }
  }

  /**
   With the default policy a file the classifier finds eligible is below an allowed root, outside every protected
   path, and accepted by the helper in the same state of the file system; with one exception: the helper refuses a
   regular file that takes the place of a low-risk directory directly below somebody's home.
   */
  lemma {:induction false} EligibleIsAccepted(
      world: World, policy: Policy, raw: string, use: UseState, nowNs: int, taskId: string, backupRoot: string)
    requires CleanWorld(world) && DefaultRoots(policy.roots) && DefaultLists(policy)
    requires BackupRootAccepted(world, backupRoot)
    requires Classified(world, policy, raw, use, nowNs)
    ensures var target := TargetOf(world, raw);
            var c := CandidateOf(world.sha, target, world.kind(target).meta);
            && UnderAny(policy.roots, target) && !UnderAny(policy.protectedPaths, target)
            && !UnderAny(PROTECTED_PREFIXES, target)
            && (Accepts(
                  world, HelperArguments(ApprovalProtocol.ScopedCandidateId(c.candidateId, taskId), c, backupRoot))
                <==> !(|target| == 3 && target[0] == "home"))
  {
    hide EndsWithAny, ContainsAny, LowRiskDisposable, UnderAny, AllowedPath, SymlinkPassed, MissingPassed, DefaultRoots;
    hide Normalize, Split, Join;
    hide IntText, ReadInt, SnapshotHash, BackupRootAccepted, ApprovalProtocol.ScopedCandidateId;
    var target := TargetOf(world, raw);
    var meta := world.kind(target).meta;
    var c := CandidateOf(world.sha, target, meta);
    TargetClean(world, raw);
    ResolvedWayIsClear(world, PartsOf(world, raw));
    SplitJoin(target);
    NormalizeIdle(target);
    AllowedUnderRoots(policy.roots, target);
    SameLists();
    ReadIntText(c.size);
    ReadIntText(c.inode);
    ReadIntText(c.device);
    ScopedIdKeepsPrefix(c.candidateId, taskId);
    var argv := HelperArguments(ApprovalProtocol.ScopedCandidateId(c.candidateId, taskId), c, backupRoot);
    assert RequestAccepted(world, argv, meta) <==> AllowedPath(target);
  }

  // ---------- the exception ----------

  function CacheFile(user: string): Path {
    ["home", user, ".cache"]
  }

  /** A file system with nothing but a regular file `.cache` in the home of one user. */
  function HomeWorld(user: string, meta: Metadata, sha: Sha): World {
    World(
      (path: Path) =>
        if path == CacheFile(user) then Found(RegularFile, meta)
        else if path <= CacheFile(user) then Found(Directory, meta) else Missing,
      Normalize, [], (s: string) => s, sha)
  }

  lemma {:induction false} Occurs(text: string, part: string, i: nat, j: nat)
    requires j < |part| && OccursAt(text, part, i)
    ensures part[j] in text
  {
    assert text[i + j] == text[i..i + |part|][j];
  }

  lemma {:induction false} NotContained(text: string, part: string, j: nat)
    requires j < |part| && part[j] !in text
    ensures !Contains(text, part)
  {
    if Contains(text, part) {
      var i :| 0 <= i <= |text| && OccursAt(text, part, i);
      Occurs(text, part, i, j);
    }
  }

  lemma {:induction false} NoneContained(text: string, terms: seq<string>)
    requires forall i :: 0 <= i < |terms| ==> !Contains(text, terms[i])
    ensures !ContainsAny(text, terms)
  {
    hide Contains;
    if terms != [] {
      NoneContained(text, terms[1..]);
    }
  }

  lemma {:induction false} OneEnds(s: string, suffixes: seq<string>, i: nat)
    requires i < |suffixes| && EndsWith(s, suffixes[i])
    ensures EndsWithAny(s, suffixes)
  {
    if i > 0 {
      OneEnds(s, suffixes[1..], i - 1);
    }
  }

  /** Each term has a letter that `.cache` has not. */
  lemma {:induction false} TermHasOther(i: nat)
    requires i < |FORBIDDEN_TERMS|
    ensures |FORBIDDEN_TERMS[i]| > 1
    ensures FORBIDDEN_TERMS[i][if i == 0 || i == 11 then 1 else 0] !in ".cache"
  {
    var c := FORBIDDEN_TERMS[i][if i == 0 || i == 11 then 1 else 0];
    assert c == ['u', 'j', 'm', 'b', 'p', 't', 'r', 'w', 's', 't', 'p', 'r', 'p', 'i'][i];
  }

  lemma {:induction false} CacheNameAllowed()
    ensures EndsWithAny(".cache", SUFFIXES) && !ContainsAny(".cache", FORBIDDEN_TERMS)
  {
    hide EndsWithAny, ContainsAny, Contains;
    OneEnds(".cache", SUFFIXES, 4);
    forall i | 0 <= i < |FORBIDDEN_TERMS|
      ensures !Contains(".cache", FORBIDDEN_TERMS[i])
    {
      TermHasOther(i);
      NotContained(".cache", FORBIDDEN_TERMS[i], if i == 0 || i == 11 then 1 else 0);
    }
    NoneContained(".cache", FORBIDDEN_TERMS);
  }

  lemma {:induction false} CacheFileGuarded(user: string, meta: Metadata, sha: Sha, roots: seq<Path>,
      protectedPaths: seq<Path>)
    requires CleanName(user) && (0 as char) !in user
    requires UnderAny(roots, CacheFile(user)) && !UnderAny(protectedPaths, CacheFile(user))
    ensures TargetOf(HomeWorld(user, meta, sha), Join(CacheFile(user))) == CacheFile(user)
    ensures Guarded(HomeWorld(user, meta, sha), roots, protectedPaths, Join(CacheFile(user)))
  {
    hide UnderAny, Split, Join, HomeWorld, Normalize, CacheFile;
    var world, target := HomeWorld(user, meta, sha), CacheFile(user);
    CacheFileClean(user);
    TargetReread(world, target);
    CacheText(user);
    forall n | 0 < n <= |target|
      ensures !IsSymlink(world, Normalize(target[..n])) && !world.kind(Normalize(target[..n])).Missing?
    {
      NormalizeIdle(target[..n]);
      HomeKinds(user, meta, sha, n);
    }
  }

  lemma {:induction false} CacheFileClean(user: string)
    requires CleanName(user)
    ensures Clean(CacheFile(user))
  {
  }

  lemma {:induction false} HomeKinds(user: string, meta: Metadata, sha: Sha, n: nat)
    requires n <= |CacheFile(user)|
    ensures HomeWorld(user, meta, sha).kind(CacheFile(user)[..n])
            == Found(if n == 3 then RegularFile else Directory, meta)
  {
  }

  lemma {:induction false} CacheText(user: string)
    requires (0 as char) !in user
    ensures (0 as char) !in Join(CacheFile(user))
  {
    assert JoinNames([".cache"]) == "/.cache";
    assert CacheFile(user)[1..][1..] == [".cache"];
    assert JoinNames(CacheFile(user)[1..]) == "/" + user + "/.cache";
  }

  /**
   Whoever keeps a regular file `.cache` in place of the directory of that name has an eligible file that the helper
   refuses.
   */
  lemma {:induction false} EligibleButRefused(user: string, meta: Metadata, policy: Policy, nowNs: int, taskId: string,
      sha: Sha)
    requires CleanName(user) && (0 as char) !in user
    requires DefaultRoots(policy.roots) && DefaultLists(policy) && CacheFile(user) in policy.roots
    requires !UnderAny(policy.protectedPaths, CacheFile(user))
    requires meta.size >= policy.minimumSize && nowNs - meta.mtimeNs >= policy.minimumAgeDays * DAY_NS
    ensures var world := HomeWorld(user, meta, sha);
            var c := CandidateOf(sha, CacheFile(user), meta);
            && Classified(world, policy, Join(CacheFile(user)), NOT_OPEN, nowNs)
            && BackupRootAccepted(world, Join(BACKUP_ROOT))
            && !Accepts(
                  world,
                  HelperArguments(ApprovalProtocol.ScopedCandidateId(c.candidateId, taskId), c, Join(BACKUP_ROOT)))
  {
    hide EndsWithAny, ContainsAny, Guarded, Accepts, SnapshotHash, Split, Join, Normalize, UnderAny, DefaultRoots;
    var world := HomeWorld(user, meta, sha);
    assert UnderAny(policy.roots, CacheFile(user)) by {
      InRoots(policy.roots, CacheFile(user));
    }
    CacheFileGuarded(user, meta, sha, policy.roots, policy.protectedPaths);
    CacheNameAllowed();
    HomeIsPlain(user, meta, sha);
    EligibleIsAccepted(world, policy, Join(CacheFile(user)), NOT_OPEN, nowNs, taskId, Join(BACKUP_ROOT));
  }

  lemma {:induction false} InRoots(roots: seq<Path>, target: Path)
    requires target in roots
    ensures UnderAny(roots, target)
  {
    var i :| 0 <= i < |roots| && roots[i] == target;
    assert roots[i] <= target;
  }

  lemma {:induction false} HomeIsPlain(user: string, meta: Metadata, sha: Sha)
    ensures CleanWorld(HomeWorld(user, meta, sha)) && BackupRootAccepted(HomeWorld(user, meta, sha), Join(BACKUP_ROOT))
  {
    BackupRootIsAccepted(HomeWorld(user, meta, sha));
  }

  /**
   When the helper accepts the path and the snapshot hash of a candidate, the file is the one that was frozen: same
   path, size, modification time, inode and device, or a collision.
   */
  lemma {:induction false} AcceptedIsFrozen(early: World, late: World, target: Path, frozen: Metadata,
      argv: seq<string>, meta: Metadata)
    requires early.sha == late.sha && Clean(target) && early.kind(target) == Found(RegularFile, frozen)
    requires RequestAccepted(late, argv, meta)
    requires argv[2] == Join(target) && argv[6] == SnapshotHash(early.sha, Join(target), frozen)
    ensures late.kind(target) == Found(RegularFile, meta)
    ensures meta == frozen
            || Collision(early.sha, ArgumentsBytes(Obj(SnapshotFields(Join(target), frozen))),
                         ArgumentsBytes(Obj(SnapshotFields(Join(target), meta))))
  {
    hide IntText, ReadInt, SnapshotHash, BackupRootAccepted, ArgumentsBytes, AllowedPath, UnderAny, EndsWithAny;
    hide ContainsAny, Split, Join, Normalize;
    SplitJoin(target);
    NormalizeIdle(target);
    SnapshotBinds(early.sha, Join(target), frozen, Join(target), meta);
  }

  // ---------- the two file actions ----------

  method CheckRequest(world: World, argv: seq<string>) returns (r: Result<Path>)
    requires |argv| == 8
    ensures r.Ok? <==> Accepts(world, argv)
    ensures r.Ok? ==> r.value == Normalize(Split(argv[2]))
  {
    hide TargetAccepted, SnapshotHash, ReadInt, Normalize, Split, Join;
    if !("cleanup-" <= argv[1]) {
      return Err("CANDIDATE_ID_REJECTED");
    }
    var target := ValidateCleanupTarget(world, argv[2]);
    if target.Err? {
      return target;
    }
    AcceptedIsFound(world, argv[2]);
    var meta := world.kind(target.value).meta;
    assert RequestAccepted(world, argv, meta) <==> Accepts(world, argv);
    if ReadInt(argv[3]) != Some(meta.size) || ReadInt(argv[4]) != Some(meta.inode)
       || ReadInt(argv[5]) != Some(meta.device) {
      return Err("CANDIDATE_STALE_OR_UNSAFE");
    }
    if SnapshotHash(world.sha, Join(target.value), meta) != argv[6] {
      return Err("SNAPSHOT_HASH_MISMATCH");
    }
    if !BackupRootAccepted(world, argv[7]) {
      return Err("BACKUP_ROOT_REJECTED");
    }
    return target;
  }

  lemma {:induction false} AcceptedIsFound(world: World, raw: string)
    requires TargetAccepted(world, raw)
    ensures world.kind(Normalize(Split(raw))).Found? && world.kind(Normalize(Split(raw))).entry == RegularFile
  {
  }

  /** With nothing but names on the way, the text of the backup root is the only one that is accepted, up to dots. */
  lemma {:induction false} BackupRootExact(world: World, raw: string)
    requires FollowsPlainly(world) && Absolute(raw) && !SymlinkPassed(world, Split(raw))
    ensures BackupRootAccepted(world, raw) <==> Normalize(Split(raw)) == BACKUP_ROOT
  {
    hide SymlinkPassed, Normalize, Split;
    assert PartsOf(world, raw) == Split(raw);
  }

  /**
   `_safe_log_cleanup`. There is no recovery: when the last steps fail, the exit code is 73 although the file is gone,
   but then its archive was verified.
   */
  method SafeLogCleanup(world: World, disk: Disk, argv: seq<string>, changeId: string,
      printed: bool)
    returns (code: int)
    requires |argv| == 8 ==> ArchivePath(Join(BACKUP_ROOT), changeId, Join(Normalize(Split(argv[2])))) !in disk.files
    modifies disk
    ensures |old(disk.history)| <= |disk.history| && disk.history[..|old(disk.history)|] == old(disk.history)
    ensures code == 64 <==> |argv| != 8
    ensures code != 0 ==> code == 64 || code == 73
    ensures |argv| == 8 && !Accepts(world, argv) ==> code == 73
    ensures !Accepts(world, argv) ==> disk.files == old(disk.files)
    ensures Accepts(world, argv) ==>
      var target := Join(Normalize(Split(argv[2])));
      var backup := ArchivePath(Join(BACKUP_ROOT), changeId, target);
      && SameOutside(old(disk.files), disk.files, {target, backup})
      && (target in old(disk.files) ==>
          var digest := disk.sha(old(disk.files)[target]);
          && NeverLost(disk.sha, disk.gzip, disk.history, |old(disk.history)|, target, backup, true, digest)
          && (code == 0 ==>
              target !in disk.files && Archives(disk.sha, disk.gzip, disk.files, backup, digest) && printed)
          && (target in disk.files ==> disk.files[target] == old(disk.files)[target])
          && (WorksBetween(disk.schedule, old(disk.operations), disk.operations) && RoundTrips(disk.gzip) ==>
              target !in disk.files && (code == 0 <==> printed)))
  {
    if |argv| != 8 {
      return 64;
    }
    hide Accepts, Normalize, Split, Join, ArchivePath;
    var checked := CheckRequest(world, argv);
    if checked.Err? {
      return 73;
    }
    var target := Join(checked.value);
    var backup := ArchivePath(Join(BACKUP_ROOT), changeId, target);
    hide NeverLost, SameOutside, Archives, WorksBetween, RoundTrips;
    var archived := CleanUp(disk, target, backup);
    code := if archived && printed then 0 else 73;
  }

  method ArchiveAndRemove(disk: Disk, target: string, backup: string, digest: string) returns (ok: bool)
    requires HasDigest(disk.sha, disk.files, target, digest) && backup !in disk.files
    modifies disk
    ensures |old(disk.history)| <= |disk.history| && disk.history[..|old(disk.history)|] == old(disk.history)
    ensures SameOutside(old(disk.files), disk.files, {target, backup})
    ensures target in disk.files ==> disk.files[target] == old(disk.files)[target]
    ensures NeverLost(disk.sha, disk.gzip, disk.history, |old(disk.history)|, target, backup, true, digest)
    ensures ok ==> target !in disk.files && Archives(disk.sha, disk.gzip, disk.files, backup, digest)
    ensures WorksBetween(disk.schedule, old(disk.operations), disk.operations) && RoundTrips(disk.gzip) ==> ok
  {
    var archived := disk.Write(backup, disk.gzip.pack(disk.files[target]));
    if !archived {
      return false;
    }
    var closed := disk.Chmod(backup);
    if !closed {
      return false;
    }
    var check := disk.ArchiveDigest(backup);
    if check != Some(digest) {
      return false;
    }
    var removed := disk.Unlink(target, false);
    if !removed {
      return false;
    }
    var present := disk.Exists(target);
    ok := present == Some(false);
  }

  method CleanUp(disk: Disk, target: string, backup: string) returns (ok: bool)
    requires backup !in disk.files
    modifies disk
    ensures |old(disk.history)| <= |disk.history| && disk.history[..|old(disk.history)|] == old(disk.history)
    ensures SameOutside(old(disk.files), disk.files, {target, backup})
    ensures target in old(disk.files) ==>
      var digest := disk.sha(old(disk.files)[target]);
      && NeverLost(disk.sha, disk.gzip, disk.history, |old(disk.history)|, target, backup, true, digest)
      && (target in disk.files ==> disk.files[target] == old(disk.files)[target])
      && (ok ==> target !in disk.files && Archives(disk.sha, disk.gzip, disk.files, backup, digest))
      && (WorksBetween(disk.schedule, old(disk.operations), disk.operations) && RoundTrips(disk.gzip) ==> ok)
    ensures target !in old(disk.files) ==> !ok
  {
    var digest := disk.Digest(target);
    if digest.None? {
      return false;
    }
    ok := ArchiveAndRemove(disk, target, backup, digest.value);
  }

  /** Where a rollback reads from and writes to. */
  function BackupFile(world: World, argv: seq<string>): string
    requires |argv| == 5
  {
    Join(world.follow(PartsOf(world, argv[2])))
  }

  function RestoreTarget(world: World, argv: seq<string>): string
    requires |argv| == 5
  {
    Join(world.follow(Split(argv[3])))
  }

  /** Everything `_cleanup_rollback` checks before it looks at the target. */
  ghost predicate RollbackAccepted(world: World, files: Files, argv: seq<string>) {
    && |argv| == 5
    && BackupRootAccepted(world, argv[4])
    && BackupFile(world, argv) in files && NamesBackup(BackupFile(world, argv), Join(BACKUP_ROOT), argv[1])
    && RestoreTargetAccepted(world, argv[3])
  }

  /**
   `_cleanup_rollback` unpacks straight onto the target. Unlike the restore of the API it is not all or nothing: a
   rollback that fails leaves something at the target exactly when it got as far as opening it, and from then on every
   further attempt is refused because the target exists.
   */
  method CleanupRollback(world: World, disk: Disk, argv: seq<string>, printed: bool) returns (code: int)
    modifies disk
    ensures |argv| != 5 ==> code == 64 && disk.files == old(disk.files)
    ensures |argv| == 5 ==>
      var backup, target := BackupFile(world, argv), RestoreTarget(world, argv);
      var begun :=
        && RollbackAccepted(world, old(disk.files), argv) && target !in old(disk.files)
        && disk.schedule(old(disk.operations)).Works? && !disk.schedule(old(disk.operations) + 1).Fails?;
      && SameOutside(old(disk.files), disk.files, {target})
      && (!begun ==> code == 74 && disk.files == old(disk.files))
      && (target !in old(disk.files) ==> (target in disk.files <==> begun))
      && (code == 0 ==> begun && disk.gzip.unpack(old(disk.files)[backup]).Some? && printed)
      && (code == 0 && !disk.schedule(old(disk.operations) + 1).Corrupts? ==>
          disk.gzip.unpack(old(disk.files)[backup]) == Some(disk.files[target]))
      && (begun && WorksBetween(disk.schedule, old(disk.operations), disk.operations) && printed ==>
          (code == 0 <==> disk.gzip.unpack(old(disk.files)[backup]).Some?))
      && (code == 0 || code == 74)
  {
    hide NamesBackup, BackupRootAccepted, RestoreTargetAccepted, BackupFile, RestoreTarget, WorksBetween;
    if |argv| != 5 {
      return 64;
    }
    var backup := BackupFile(world, argv);
    if !BackupRootAccepted(world, argv[4]) || backup !in disk.files {
      return 74;
    }
    if !NamesBackup(backup, Join(BACKUP_ROOT), argv[1]) {
      return 74;
    }
    var valid := ValidateRestoreTarget(world, argv[3]);
    if valid.Err? {
      return 74;
    }
    var target := Join(valid.value);
    TargetKnown(world, argv);
    code := UnpackOnto(disk, backup, target, printed);
  }

  method UnpackOnto(disk: Disk, backup: string, target: string, printed: bool) returns (code: int)
    requires backup in disk.files
    modifies disk
    ensures var begun :=
              && target !in old(disk.files) && disk.schedule(old(disk.operations)).Works?
              && !disk.schedule(old(disk.operations) + 1).Fails?;
            && SameOutside(old(disk.files), disk.files, {target})
            && (!begun ==> code == 74 && disk.files == old(disk.files))
            && (target !in old(disk.files) ==> (target in disk.files <==> begun))
            && (code == 0 ==> begun && disk.gzip.unpack(old(disk.files)[backup]).Some? && printed)
            && (code == 0 && !disk.schedule(old(disk.operations) + 1).Corrupts? ==>
                disk.gzip.unpack(old(disk.files)[backup]) == Some(disk.files[target]))
            && (begun && WorksBetween(disk.schedule, old(disk.operations), disk.operations) && printed ==>
                (code == 0 <==> disk.gzip.unpack(old(disk.files)[backup]).Some?))
            && (code == 0 || code == 74)
  {
    var present := disk.Exists(target);
    if present != Some(false) {
      return 74;
    }
    var content := disk.gzip.unpack(disk.files[backup]);
    var written := disk.Write(target, if content.Some? then content.value else []);
    if !written || content.None? {
      return 74;
    }
    var restored := disk.Exists(target);
    code := if restored == Some(true) && printed then 0 else 74;
  }

  lemma {:induction false} TargetKnown(world: World, argv: seq<string>)
    requires |argv| == 5
    ensures RestoreTarget(world, argv) == Join(world.follow(Split(argv[3])))
  {
  }

  /** Wherever dangling links lead, a rollback does not write to a protected path. */
  lemma {:induction false} ProtectedIsNotRestored(world: World, files: Files, argv: seq<string>, path: Path)
    requires RollbackAccepted(world, files, argv) && Clean(world.follow(Split(argv[3])))
    requires Clean(path) && UnderAny(PROTECTED_PREFIXES, path)
    ensures RestoreTarget(world, argv) != Join(path)
  {
    hide NamesBackup, BackupRootAccepted, BackupFile, LiveLink, UnderAny, AllowedPath, ContainsAny, Join, Split;
    SplitJoin(path);
    SplitJoin(world.follow(Split(argv[3])));
  }
}
