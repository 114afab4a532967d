/** Which files the classifier takes and which it refuses, condition by condition. */
module CleanupRefusals {
  import opened Wrappers
  import opened Text
  import opened Utf8
  import opened Paths
  import opened CleanupRules

  const TEMPORARY_SUFFIXES := {
    ".tmp", ".cache", ".msi", ".iso", ".zip", ".tar", ".tgz", ".tar.gz", ".7z", ".rar", ".rpm", ".deb", ".apk",
    ".dmg", ".pkg", ".exe"}

  ghost predicate EndsWithOne(s: string, suffixes: set<string>) {
    exists suffix :: suffix in suffixes && EndsWith(s, suffix)
  }

  function Elements(texts: seq<string>): set<string> {
    set t | t in texts
  }

  lemma {:induction false} EndsWithAnyIs(s: string, suffixes: seq<string>)
    ensures EndsWithAny(s, suffixes) <==> EndsWithOne(s, Elements(suffixes))
  {
    hide EndsWith;
    if suffixes != [] {
      EndsWithAnyIs(s, suffixes[1..]);
      assert suffixes == [suffixes[0]] + suffixes[1..];
      if EndsWithOne(s, Elements(suffixes)) && !EndsWith(s, suffixes[0]) {
        var suffix :| suffix in Elements(suffixes) && EndsWith(s, suffix);
        assert suffix in suffixes[1..];
        assert suffix in Elements(suffixes[1..]);
      }
      if EndsWithOne(s, Elements(suffixes[1..])) {
        var suffix :| suffix in Elements(suffixes[1..]) && EndsWith(s, suffix);
        assert suffix in Elements(suffixes);
      }
      if EndsWith(s, suffixes[0]) {
        assert suffixes[0] in Elements(suffixes);
      }
    }
  }

  lemma {:induction false} ContainsAnyIs(s: string, terms: seq<string>)
    ensures ContainsAny(s, terms) <==> exists i :: 0 <= i < |terms| && Contains(s, terms[i])
  {
    hide Contains;
    if terms != [] {
      ContainsAnyIs(s, terms[1..]);
      assert forall i :: 0 <= i < |terms[1..]| ==> terms[1..][i] == terms[i + 1];
      if exists i :: 0 <= i < |terms| && Contains(s, terms[i]) {
        var i :| 0 <= i < |terms| && Contains(s, terms[i]);
        assert i > 0 ==> Contains(s, terms[1..][i - 1]);
      }
      if exists i :: 0 <= i < |terms[1..]| && Contains(s, terms[1..][i]) {
        var i :| 0 <= i < |terms[1..]| && Contains(s, terms[1..][i]);
        assert Contains(s, terms[i + 1]);
      }
    }
  }

  lemma {:induction false} TemporarySuffixes()
    ensures Elements(DISPOSABLE_SUFFIXES) == TEMPORARY_SUFFIXES
  {
    assert DISPOSABLE_SUFFIXES == [
      ".tmp", ".cache", ".msi", ".iso", ".zip", ".tar", ".tgz", ".tar.gz", ".7z", ".rar", ".rpm", ".deb", ".apk",
      ".dmg", ".pkg", ".exe"];
  }

  /** A temporary file somewhere below a directory whose name says that nothing in it is of value. */
  ghost predicate Disposable(world: World, policy: Policy, target: Path) {
    && EndsWithOne(world.lower(LastName(target)), TEMPORARY_SUFFIXES)
    && (world.lower("") in policy.lowRiskNames
        || exists i :: 0 <= i < |target| - 1 && world.lower(target[i]) in policy.lowRiskNames)
  }

  /** Younger than the days of retention, of 24 hours each, in nanoseconds. */
  predicate WithinRetention(policy: Policy, meta: Metadata, nowNs: int) {
    nowNs - meta.mtimeNs < policy.minimumAgeDays * (24 * 60 * 60 * 1_000_000_000)
  }

  /** A large file of an allowed type that nobody uses and nobody has to keep. */
  ghost predicate Dispensable(world: World, policy: Policy, target: Path, use: UseState, nowNs: int) {
    && world.kind(target).Found? && world.kind(target).entry == RegularFile
    && (var name, meta := world.lower(LastName(target)), world.kind(target).meta;
        && EndsWithOne(name, Elements(policy.suffixes))
        && (forall i :: 0 <= i < |policy.forbiddenTerms| ==> !Contains(name, policy.forbiddenTerms[i]))
        && meta.size >= policy.minimumSize
        && (WithinRetention(policy, meta, nowNs) ==> Disposable(world, policy, target))
        && use != OPEN
        && (use == UNKNOWN ==> Disposable(world, policy, target)))
  }

  lemma {:induction false} DisposableIs(world: World, policy: Policy, target: Path)
    ensures LowRiskDisposable(world, policy, target) <==> Disposable(world, policy, target)
  {
    hide EndsWithAny, EndsWithOne;
    TemporarySuffixes();
    EndsWithAnyIs(world.lower(LastName(target)), DISPOSABLE_SUFFIXES);
  }

  /**
   A path yields a candidate if and only if it is guarded and the file is dispensable. So an open file never does; a
   file of unknown use or within the retention period only as a temporary file below a directory of low risk; a small
   one, one with a forbidden term in its name and one that is not regular never.
   */
  lemma {:induction false} ClassifiedExactly(world: World, policy: Policy, raw: string, use: UseState, nowNs: int)
    ensures Classified(world, policy, raw, use, nowNs) <==>
            && Guarded(world, policy.roots, policy.protectedPaths, raw)
            && Dispensable(world, policy, TargetOf(world, raw), use, nowNs)
  {
    hide Guarded, TargetOf, EndsWithAny, EndsWithOne, ContainsAny, Contains, LowRiskDisposable, Disposable;
    var target := TargetOf(world, raw);
    DisposableIs(world, policy, target);
    EndsWithAnyIs(world.lower(LastName(target)), policy.suffixes);
    ContainsAnyIs(world.lower(LastName(target)), policy.forbiddenTerms);
  }

  /** An open file is refused, whatever the policy says and wherever it is. */
  lemma {:induction false} OpenIsRefused(world: World, policy: Policy, raw: string, nowNs: int)
    ensures !Classified(world, policy, raw, OPEN, nowNs)
  {
    hide Guarded, TargetOf, EndsWithAny, ContainsAny, LowRiskDisposable;
  }

  // ---------- what the guard demands ----------

  /** No link and nothing missing on the way, below an allowed root and below no protected path. */
  ghost predicate OnSafeGround(world: World, roots: seq<Path>, protectedPaths: seq<Path>, raw: string) {
    var parts := PartsOf(world, raw);
    && (forall i :: 0 <= i < |raw| ==> raw[i] as int != 0)
    && (forall n :: 0 < n <= |parts| ==>
          world.kind(Normalize(parts[..n])).Found? && world.kind(Normalize(parts[..n])).entry != Symlink)
    && (exists i :: 0 <= i < |roots| && roots[i] <= TargetOf(world, raw))
    && (forall i :: 0 <= i < |protectedPaths| ==> !(protectedPaths[i] <= TargetOf(world, raw)))
  }

  lemma {:induction false} GuardedExactly(world: World, roots: seq<Path>, protectedPaths: seq<Path>, raw: string)
    ensures Guarded(world, roots, protectedPaths, raw) <==> OnSafeGround(world, roots, protectedPaths, raw)
  {
    hide Normalize, PartsOf;
  }

  // ---------- the name of a candidate ----------

  /** Two candidates have one name if and only if their snapshot hashes agree in the first 24 of 64 digits. */
  lemma {:induction false} OneNameFor(sha: Sha, target: Path, meta: Metadata, other: Path, otherMeta: Metadata)
    requires |SnapshotHash(sha, Join(target), meta)| == 64 && |SnapshotHash(sha, Join(other), otherMeta)| == 64
    ensures CandidateOf(sha, target, meta).candidateId == CandidateOf(sha, other, otherMeta).candidateId
            <==> SnapshotHash(sha, Join(target), meta)[..24] == SnapshotHash(sha, Join(other), otherMeta)[..24]
  {
    hide SnapshotHash, Join;
    var h, g := SnapshotHash(sha, Join(target), meta), SnapshotHash(sha, Join(other), otherMeta);
    assert ("cleanup-" + First(h, 24))[8..] == First(h, 24) && ("cleanup-" + First(g, 24))[8..] == First(g, 24);
  }
}
