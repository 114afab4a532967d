/** Which files the root helper takes, condition by condition and in its own words. */
module HelperRefusals {
  import opened Wrappers
  import opened Text
  import opened Paths
  import opened CleanupRules
  import opened CleanupRefusals
  import opened PrivilegedHelper

  /** One of the directories that the helper keeps its hands off. */
  predicate Protected(target: Path) {
    || ["etc"] <= target || ["root"] <= target || ["boot"] <= target || ["proc"] <= target || ["sys"] <= target
    || ["dev"] <= target || ["run"] <= target || ["var", "lib"] <= target
  }

  const OF_LOW_RISK := {".cache", "Downloads", "Download", "downloads", "downlaods", "Desktop", "Documents", "tmp"}

  /** Below a directory for temporary files or logs, or below one of low risk in somebody's home. */
  predicate Cleanable(target: Path) {
    || ["tmp"] <= target || ["var", "tmp"] <= target || ["var", "log"] <= target
    || (["home"] <= target && exists i :: 2 <= i < |target| - 1 && target[i] in OF_LOW_RISK)
  }

  const CLEANUP_SUFFIXES := {
    ".log", ".gz", ".old", ".tmp", ".cache", ".msi", ".iso", ".zip", ".tar", ".tgz", ".tar.gz", ".7z", ".rar", ".rpm",
    ".deb", ".apk", ".dmg", ".pkg", ".exe"}
  const CRITICAL_TERMS := {
    "audit", "journal", "mysql-bin", "binlog", "postgresql", "transaction", "redo", "wal", "secret", "token",
    "password", "credential", "private-key", "id_rsa"}

  ghost predicate ContainsOne(s: string, terms: set<string>) {
    exists term :: term in terms && Contains(s, term)
  }

  lemma {:induction false} ProtectedIs(target: Path)
    ensures UnderAny(PROTECTED_PREFIXES, target) <==> Protected(target)
  {
    assert PROTECTED_PREFIXES[0] == ["etc"] && PROTECTED_PREFIXES[1] == ["root"] && PROTECTED_PREFIXES[2] == ["boot"];
    assert PROTECTED_PREFIXES[3] == ["proc"] && PROTECTED_PREFIXES[4] == ["sys"] && PROTECTED_PREFIXES[5] == ["dev"];
    assert PROTECTED_PREFIXES[6] == ["run"] && PROTECTED_PREFIXES[7] == ["var", "lib"];
  }

  lemma {:induction false} CleanableIs(target: Path)
    ensures AllowedPath(target) <==> Cleanable(target)
  {
    assert FIXED_ROOTS[0] == ["tmp"] && FIXED_ROOTS[1] == ["var", "tmp"] && FIXED_ROOTS[2] == ["var", "log"];
    assert FIXED_ROOTS[3] == ["var", "log", "kylin-guard-managed"];
    assert ["var", "log"] <= FIXED_ROOTS[3];
    LowRiskNames();
    hide Clean;
    assert ["home"] <= target <==> target != [] && target[0] == "home";
    if UnderAny(FIXED_ROOTS, target) {
      var i :| 0 <= i < |FIXED_ROOTS| && FIXED_ROOTS[i] <= target;
      assert i == 3 ==> ["var", "log"] <= target;
    }
  }

  lemma {:induction false} LowRiskNames()
    ensures forall name :: name in HOME_LOW_RISK <==> name in OF_LOW_RISK
  {
  }

  lemma {:induction false} ListsAre()
    ensures Elements(HELPER_SUFFIXES) == CLEANUP_SUFFIXES && Elements(HELPER_TERMS) == CRITICAL_TERMS
  {
  }

  lemma {:induction false} ContainsOneIs(s: string, terms: seq<string>)
    ensures ContainsAny(s, terms) <==> ContainsOne(s, Elements(terms))
  {
    hide Contains, ContainsAny;
    ContainsAnyIs(s, terms);
    if ContainsAny(s, terms) {
      var i :| 0 <= i < |terms| && Contains(s, terms[i]);
      assert terms[i] in Elements(terms);
    }
    if ContainsOne(s, Elements(terms)) {
      var term :| term in Elements(terms) && Contains(s, term);
      var i :| 0 <= i < |terms| && terms[i] == term;
    }
  }

  /** Nothing on the way is a link or missing. */
  ghost predicate ClearWay(world: World, parts: seq<string>) {
    forall n :: 0 < n <= |parts| ==>
      world.kind(Normalize(parts[..n])).Found? && world.kind(Normalize(parts[..n])).entry != Symlink
  }

  /** The way is clear, and at its end is a regular file. */
  ghost predicate LeadsToFile(world: World, raw: string) {
    && raw != "" && raw[0] == '/' && ClearWay(world, Split(raw))
    && world.kind(Normalize(Split(raw))).Found? && world.kind(Normalize(Split(raw))).entry == RegularFile
  }

  lemma {:induction false} WayIsClear(world: World, parts: seq<string>)
    ensures !SymlinkPassed(world, parts) && !MissingPassed(world, parts) <==> ClearWay(world, parts)
  {
    hide Normalize;
  }

  lemma {:induction false} LeadsIs(world: World, raw: string)
    ensures LeadsToFile(world, raw) <==>
            && Absolute(raw) && !SymlinkPassed(world, Split(raw)) && !MissingPassed(world, Split(raw))
            && IsRegular(world, Normalize(Split(raw)))
  {
    hide ClearWay, SymlinkPassed, MissingPassed, Normalize, Split;
    WayIsClear(world, Split(raw));
  }

  /**
   The helper takes a path if and only if it leads, over no link, to a regular file below a cleanable directory and no
   protected one, with a suffix of files that can go and without a term of files that must stay.
   */
  lemma {:induction false} TargetAcceptedExactly(world: World, raw: string)
    ensures TargetAccepted(world, raw) <==>
            var target := Normalize(Split(raw));
            && LeadsToFile(world, raw) && !Protected(target) && Cleanable(target)
            && EndsWithOne(world.lower(LastName(target)), CLEANUP_SUFFIXES)
            && !ContainsOne(world.lower(LastName(target)), CRITICAL_TERMS)
  {
    hide Normalize, Split, UnderAny, Protected, Cleanable, AllowedPath, EndsWithAny, EndsWithOne, ContainsAny;
    hide ContainsOne, LeadsToFile, SymlinkPassed, MissingPassed;
    LeadsIs(world, raw);
    var target := Normalize(Split(raw));
    ProtectedIs(target);
    CleanableIs(target);
    ListsAre();
    EndsWithAnyIs(world.lower(LastName(target)), HELPER_SUFFIXES);
    ContainsOneIs(world.lower(LastName(target)), HELPER_TERMS);
  }

  /** No link on the way leads to anything. */
  ghost predicate NoLiveLink(world: World, parts: seq<string>) {
    forall n :: 0 < n <= |parts| ==>
      !(&& world.kind(Normalize(parts[..n])).Found? && world.kind(Normalize(parts[..n])).entry == Symlink
        && world.kind(world.follow(parts[..n])).Found?)
  }

  lemma {:induction false} NoLiveLinkIs(world: World, parts: seq<string>)
    ensures NoLiveLink(world, parts) <==> forall n :: 0 < n <= |parts| ==> !LiveLink(world, parts[..n])
  {
    hide Normalize;
  }

  /**
   A rollback may write to a path if and only if no link on its way leads to anything, and where it leads is below a
   cleanable directory and no protected one, with a name free of critical terms; its suffix does not matter.
   */
  lemma {:induction false} RestoreTargetAcceptedExactly(world: World, raw: string)
    ensures RestoreTargetAccepted(world, raw) <==>
            var target := world.follow(Split(raw));
            && raw != "" && raw[0] == '/' && NoLiveLink(world, Split(raw)) && !Protected(target) && Cleanable(target)
            && !ContainsOne(world.lower(LastName(target)), CRITICAL_TERMS)
  {
    hide Normalize, Split, UnderAny, Protected, Cleanable, AllowedPath, ContainsAny, ContainsOne, NoLiveLink, LiveLink;
    var target := world.follow(Split(raw));
    NoLiveLinkIs(world, Split(raw));
    ProtectedIs(target);
    CleanableIs(target);
    ListsAre();
    ContainsOneIs(world.lower(LastName(target)), HELPER_TERMS);
  }

  /**
   A request that would be accepted is refused when any one of its arguments is another one: the prefix of the
   candidate, size, inode, device or snapshot of the file, or the backup directory.
   */
  lemma {:induction false} ChangedArgumentIsRefused(world: World, argv: seq<string>, i: nat, text: string)
    requires Accepts(world, argv) && 0 < i < 8 && i != 2
    requires i == 1 ==> !("cleanup-" <= text)
    requires i in {3, 4, 5} ==> ReadInt(text) != ReadInt(argv[i])
    requires i == 6 ==> text != argv[6]
    requires i == 7 ==> world.follow(PartsOf(world, text)) != ["var", "lib", "kylin-guard", "backups"]
    ensures !Accepts(world, argv[i := text])
  {
    hide TargetAccepted, ReadInt, SnapshotHash, Normalize, Split, Join;
  }
}
