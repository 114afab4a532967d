/** Cleanup of one file: archive it, check the archive, and only then remove the file. */
module CleanupExecutor {
  import opened Wrappers
  import opened Json
  import opened Tokens
  import opened Paths
  import opened CleanupRules
  import opened FaultyDisk

  datatype ExecutionResult = ExecutionResult(changeId: string, status: string, backupRef: string, digest: string)

  /** `path.name` */
  function Name(path: string): (name: string)
    ensures |name| <= |path|
  {
    if path == "" || path[|path| - 1] == '/' then "" else Name(path[..|path| - 1]) + [path[|path| - 1]]
  }

  /** `path.with_name(name)` */
  function Sibling(path: string, name: string): string {
    path[..|path| - |Name(path)|] + name
  }

  predicate NoSlash(s: string) {
    '/' !in s
  }

  lemma {:induction false} NameAfterSlash(directory: string, name: string)
    requires NoSlash(name)
    ensures Name(directory + ("/" + name)) == name
  {
    var path := directory + ("/" + name);
    if name != "" {
      var init := name[..|name| - 1];
      assert path[..|path| - 1] == directory + ("/" + init);
      NameAfterSlash(directory, init);
    }
  }

  lemma {:induction false} NameHasNoSlash(path: string)
    ensures NoSlash(Name(path))
  {
    if path != "" && path[|path| - 1] != '/' {
      NameHasNoSlash(path[..|path| - 1]);
    }
  }

  /** `path.parent == root and path.name.startswith(f"{change_id}-")` */
  predicate NamesBackup(path: string, root: string, changeId: string) {
    path == root + ("/" + Name(path)) && changeId + "-" <= Name(path)
  }

  /** A backup that was written is one that a rollback of the same change accepts. */
  lemma {:induction false} ArchiveIsNamed(root: string, changeId: string, target: string)
    requires NoSlash(changeId)
    ensures NamesBackup(ArchivePath(root, changeId, target), root, changeId)
  {
    var name := changeId + "-" + Name(target) + ".gz";
    NameHasNoSlash(target);
    assert ArchivePath(root, changeId, target) == root + ("/" + name);
    NameAfterSlash(root, name);
  }

  /** The path is that of a file directly in the directory, whose name begins with the change and a dash. */
  ghost predicate InBackups(path: string, root: string, changeId: string) {
    exists rest :: NoSlash(rest) && path == root + ("/" + (changeId + "-" + rest))
  }

  /** A rollback takes exactly the files of its change in the backup directory itself. */
  lemma {:induction false} NamesBackupExactly(path: string, root: string, changeId: string)
    requires NoSlash(changeId)
    ensures NamesBackup(path, root, changeId) <==> InBackups(path, root, changeId)
  {
    if NamesBackup(path, root, changeId) {
      var rest := Name(path)[|changeId| + 1..];
      NameHasNoSlash(path);
      assert changeId + "-" + rest == Name(path);
      assert NoSlash(rest);
    }
    if InBackups(path, root, changeId) {
      var rest :| NoSlash(rest) && path == root + ("/" + (changeId + "-" + rest));
      NameAfterSlash(root, changeId + "-" + rest);
    }
  }

  function ArchivePath(root: string, changeId: string, target: string): string {
    root + "/" + changeId + "-" + Name(target) + ".gz"
  }

  /** The temporary name under which an archive is unpacked. */
  function RestorePath(target: string, unique: string): string {
    Sibling(target, "." + Name(target) + ".restore-" + unique)
  }

  predicate SameAt(before: Files, files: Files, path: string) {
    (path in files <==> path in before) && (path in files && path in before ==> files[path] == before[path])
  }

  /** The archive stays, and the target is as it was until it is as it will be. */
  ghost predicate RestoresInOneStep(history: seq<Files>, n: nat, before: Files, after: Files, target: string,
      backup: string) {
    forall k :: n <= k < |history| ==>
      SameAt(before, history[k], backup) && (SameAt(before, history[k], target) || history[k] == after)
  }

  ghost predicate OnlyAt(history: seq<Files>, n: nat, before: Files, path: string) {
    forall k :: n <= k < |history| ==> SameOutside(before, history[k], {path})
  }

  class ControlledCleanupExecutor {
    const disk: Disk
    const backupRoot: string
    const classifier: CleanupCandidateClassifier
    const approvals: ApprovalTokenManager

    constructor (disk: Disk, backupRoot: string, classifier: CleanupCandidateClassifier,
        approvals: ApprovalTokenManager)
      ensures this.disk == disk && this.backupRoot == backupRoot && this.classifier == classifier
      ensures this.approvals == approvals
    {
      this.disk, this.backupRoot, this.classifier, this.approvals := disk, backupRoot, classifier, approvals;
    }

    /** Nothing of the file is gone before its archive was read back. */
    method MoveToArchive(target: string, backup: string, digest: string,
        simulateFailure: bool)
      returns (error: Option<string>)
      requires target in disk.files && disk.sha(disk.files[target]) == digest && backup !in disk.files
      modifies disk
      ensures |old(disk.history)| <= |disk.history| && disk.history[..|old(disk.history)|] == old(disk.history)
      ensures old(disk.operations) <= disk.operations
      ensures NeverLost(disk.sha, disk.gzip, disk.history, |old(disk.history)|, target, backup, true, digest)
      ensures SameOutside(old(disk.files), disk.files, {target, backup})
      ensures target in disk.files ==> disk.files[target] == old(disk.files)[target]
      ensures target !in disk.files ==> Archives(disk.sha, disk.gzip, disk.files, backup, digest)
      ensures error.None? ==> target !in disk.files && !simulateFailure
      ensures WorksBetween(disk.schedule, old(disk.operations), disk.operations) && RoundTrips(disk.gzip) ==>
        (error.None? <==> !simulateFailure)
    {
      var archived := disk.Write(backup, disk.gzip.pack(disk.files[target]));
      if !archived {
        return Some(OS_ERROR);
      }
      var check := disk.ArchiveDigest(backup);
      if check != Some(digest) {
        return Some(if check.Some? then "BACKUP_VERIFICATION_FAILED" else OS_ERROR);
      }
      var removed := disk.Unlink(target, false);
      if !removed {
        return Some(OS_ERROR);
      }
      if simulateFailure {
        return Some("POSTCONDITION_FAILED");
      }
      var present := disk.Exists(target);
      if present != Some(false) {
        return Some(if present.Some? then "POSTCONDITION_FAILED" else OS_ERROR);
      }
      var saved := disk.Exists(backup);
      error := if saved == Some(true) then None else Some(if saved.Some? then "POSTCONDITION_FAILED" else OS_ERROR);
    }

    method UnpackTo(backup: string, temporary: string) returns (ok: bool)
      requires backup in disk.files && temporary !in disk.files
      modifies disk
      ensures |old(disk.history)| <= |disk.history| && disk.history[..|old(disk.history)|] == old(disk.history)
      ensures old(disk.operations) <= disk.operations
      ensures OnlyAt(disk.history, |old(disk.history)|, old(disk.files), temporary)
      ensures SameOutside(old(disk.files), disk.files, {temporary})
      ensures ok ==> disk.gzip.unpack(old(disk.files)[backup]).Some? && temporary in disk.files
      ensures ok && !disk.schedule(old(disk.operations)).Corrupts? ==>
        disk.files[temporary] == disk.gzip.unpack(old(disk.files)[backup]).value
      ensures disk.schedule(old(disk.operations)).Works? && disk.gzip.unpack(old(disk.files)[backup]).Some? ==> ok
      ensures disk.operations == old(disk.operations) + 1
    {
      var content := disk.gzip.unpack(disk.files[backup]);
      var created := disk.Create(temporary, if content.Some? then content.value else []);
      ok := created && content.Some?;
    }

    /** The archive is unpacked beside the target, which appears in one step or not at all. */
    method Restore(backup: string, target: string, unique: string) returns (ok: bool)
      requires backup in disk.files && target != backup
      requires RestorePath(target, unique) !in disk.files + map[target := []]
      modifies disk
      ensures |old(disk.history)| <= |disk.history| && disk.history[..|old(disk.history)|] == old(disk.history)
      ensures old(disk.operations) < disk.operations <= old(disk.operations) + 2
      ensures RestoresInOneStep(disk.history, |old(disk.history)|, old(disk.files), disk.files, target, backup)
      ensures SameOutside(old(disk.files), disk.files,
        {target, RestorePath(target, unique)})
      ensures ok ==> disk.gzip.unpack(old(disk.files)[backup]).Some? && target in disk.files
      ensures ok ==> RestorePath(target, unique) !in disk.files
      ensures target in disk.files && target !in old(disk.files) && !disk.schedule(old(disk.operations)).Corrupts? ==>
        disk.gzip.unpack(old(disk.files)[backup]) == Some(disk.files[target])
      ensures ok && !disk.schedule(old(disk.operations)).Corrupts? ==>
        disk.files[target] == disk.gzip.unpack(old(disk.files)[backup]).value
      ensures WorksBetween(disk.schedule, old(disk.operations), disk.operations) ==>
        (ok <==> disk.gzip.unpack(old(disk.files)[backup]).Some?)
    {
      var temporary := RestorePath(target, unique);
      ok := UnpackTo(backup, temporary);
      if ok {
        ok := disk.Replace(temporary, target);
      }
    }

    /**
     What follows the token. The handler begins at the operation `handler`, at most four before the end; before it
     something failed, and if nothing fails from there on, the file has its digest. One fault alone never loses the
     file.
     */
    method Execute(target: string, current: bool, changeId: string, unique: string, simulateFailure: bool)
      returns (r: Result<ExecutionResult>, ghost handler: nat)
      requires ArchivePath(backupRoot, changeId, target) !in disk.files
      requires RestorePath(target, unique) !in disk.files
      requires RestorePath(target, unique) != ArchivePath(backupRoot, changeId, target)
      modifies disk
      ensures |old(disk.history)| <= |disk.history| && disk.history[..|old(disk.history)|] == old(disk.history)
      ensures old(disk.operations) <= handler <= disk.operations <= handler + 4
      ensures target in old(disk.files) ==>
        NeverLost(
          disk.sha, disk.gzip, disk.history, |old(disk.history)|, target, ArchivePath(backupRoot, changeId, target),
          true, disk.sha(old(disk.files)[target]))
      ensures !current || target !in old(disk.files) ==> r.Err? && disk.files == old(disk.files)
      ensures SameOutside(old(disk.files), disk.files,
        {target, ArchivePath(backupRoot, changeId, target), RestorePath(target, unique)})
      ensures r.Ok? ==>
        && target in old(disk.files) && target !in disk.files
        && SameOutside(old(disk.files), disk.files, {target, ArchivePath(backupRoot, changeId, target)})
        && Archives(disk.sha, disk.gzip, disk.files, ArchivePath(backupRoot, changeId, target),
          disk.sha(old(disk.files)[target]))
        && r.value == ExecutionResult(changeId, "SUCCEEDED", ArchivePath(backupRoot, changeId, target),
          disk.sha(old(disk.files)[target]))
      ensures r.Err? && current && target in old(disk.files) && RoundTrips(disk.gzip) && !simulateFailure ==>
        !WorksBetween(disk.schedule, old(disk.operations), handler)
      ensures r.Err? && target in old(disk.files) && WorksBetween(disk.schedule, handler, disk.operations) ==>
        && HasDigest(disk.sha, disk.files, target, disk.sha(old(disk.files)[target]))
        && SameOutside(old(disk.files), disk.files, {target, ArchivePath(backupRoot, changeId, target)})
      ensures
        (r.Err? && target in old(disk.files) && RoundTrips(disk.gzip) && !simulateFailure
         && OneFault(disk.schedule, old(disk.operations), disk.operations))
        ==> && HasDigest(disk.sha, disk.files, target, disk.sha(old(disk.files)[target]))
            && SameOutside(old(disk.files), disk.files, {target, ArchivePath(backupRoot, changeId, target)})
      ensures
        (current && target in old(disk.files) && !simulateFailure && RoundTrips(disk.gzip)
         && WorksBetween(disk.schedule, old(disk.operations), disk.operations))
        ==> r.Ok?
    {
      hide NeverLost, WorksBetween, OneFault, RoundTrips, ArchivePath, RestorePath, Archives;
      handler := disk.operations;
      var backup := ArchivePath(backupRoot, changeId, target);
      if !current {
        NotYetLost(disk.sha, disk.gzip, disk.history, target, backup, true,
          if target in disk.files then disk.sha(disk.files[target]) else "");
        return Err("CANDIDATE_STALE_OR_UNSAFE"), handler;
      }
      ghost var start := disk.operations;
      var digest := disk.Digest(target);
      handler := disk.operations;
      WorksOnce(disk.schedule, start);
      if digest.None? {
        NotYetLost(disk.sha, disk.gzip, disk.history, target, backup, true,
          if target in disk.files then disk.sha(disk.files[target]) else "");
        return Err(OS_ERROR), handler;
      }
      ghost var n := |disk.history|;
      var error := MoveToArchive(target, backup, digest.value, simulateFailure);
      handler := disk.operations;
      WorksSplit(disk.schedule, start, start + 1, handler);
      if error.None? {
        return Ok(ExecutionResult(changeId, "SUCCEEDED", backup, digest.value)), handler;
      }
      ghost var h, files := disk.history, disk.files;
      var raised := UndoMove(target, backup, unique, digest.value);
      NeverLostJoin(disk.sha, disk.gzip, h, disk.history, n, target, backup, true, digest.value);
      WorksSplit(disk.schedule, start, handler, disk.operations);
      return Err(if raised then OS_ERROR else error.value), handler;
    }

    /**
     The whole call: the token is consumed for this candidate, the candidate is classified again, and only then is the
     file archived and removed. A refused token changes nothing at all; a stale candidate costs the token and no file.
     */
    method ExecuteApproved(
        userId: string, taskId: string, candidate: Candidate, token: string, world: World, use: UseState, now: int,
        nowNs: int, changeId: string, unique: string)
      returns (r: Result<ExecutionResult>)
      requires classifier.guard.roots == classifier.policy.roots
      requires classifier.guard.protectedPaths == classifier.policy.protectedPaths
      requires ArchivePath(backupRoot, changeId, candidate.path) !in disk.files
      requires RestorePath(candidate.path, unique) !in disk.files
      requires RestorePath(candidate.path, unique)
               != ArchivePath(backupRoot, changeId, candidate.path)
      modifies disk, approvals
      ensures
        var scope := Scope(userId, taskId, "safe_log_cleanup",
          Obj([Field("candidate_id", Str(candidate.candidateId))]));
        var consumption := Outcome(approvals.sha, approvals.mac, approvals.secret, old(approvals.consumed), token,
          scope, now);
        var current := Classified(world, classifier.policy, candidate.path, use, nowNs)
          && StillFrozen(world, candidate);
        && approvals.consumed == old(approvals.consumed) + Accepted(consumption)
        && |old(disk.history)| <= |disk.history| && disk.history[..|old(disk.history)|] == old(disk.history)
        && (consumption.Err? || !current || candidate.path !in old(disk.files) ==>
            r.Err? && disk.files == old(disk.files))
        && (consumption.Err? ==> r.error == consumption.error)
        && SameOutside(
             old(disk.files), disk.files,
             {candidate.path, ArchivePath(backupRoot, changeId, candidate.path),
               RestorePath(candidate.path, unique)})
        && (candidate.path in old(disk.files) ==>
            && NeverLost(
                 disk.sha, disk.gzip, disk.history, |old(disk.history)|, candidate.path,
                 ArchivePath(backupRoot, changeId, candidate.path), true, disk.sha(old(disk.files)[candidate.path]))
            && (RoundTrips(disk.gzip) && WorksBetween(disk.schedule, old(disk.operations), disk.operations) ==>
                (r.Ok? <==> consumption.Ok? && current))
            && (r.Err? && RoundTrips(disk.gzip) && OneFault(disk.schedule, old(disk.operations), disk.operations) ==>
                HasDigest(disk.sha, disk.files, candidate.path, disk.sha(old(disk.files)[candidate.path]))))
        && (r.Ok? ==>
            && consumption.Ok? && current && candidate.path in old(disk.files) && candidate.path !in disk.files
            && SameOutside(old(disk.files), disk.files,
              {candidate.path, ArchivePath(backupRoot, changeId, candidate.path)})
            && Archives(disk.sha, disk.gzip, disk.files, ArchivePath(backupRoot, changeId, candidate.path),
              disk.sha(old(disk.files)[candidate.path]))
            && r.value.changeId == changeId && r.value.backupRef == ArchivePath(backupRoot, changeId, candidate.path))
    {
      hide Outcome, Classified, StillFrozen, ArchivePath, RestorePath, NeverLost, OneFault, RoundTrips, Archives;
      hide SameOutside, WorksBetween;
      var scope := Scope(userId, taskId, "safe_log_cleanup", Obj([Field("candidate_id", Str(candidate.candidateId))]));
      var claims := approvals.Consume(token, scope, now);
      if claims.Err? {
        NotYetLost(
          disk.sha, disk.gzip, disk.history, candidate.path, ArchivePath(backupRoot, changeId, candidate.path), true,
          if candidate.path in disk.files then disk.sha(disk.files[candidate.path]) else "");
        Unchanged(
          disk.files,
          {candidate.path, ArchivePath(backupRoot, changeId, candidate.path),
            RestorePath(candidate.path, unique)});
        return Err(claims.error);
      }
      var current := classifier.Revalidate(world, candidate, use, nowNs);
      ghost var handler;
      r, handler := Execute(candidate.path, current, changeId, unique, false);
    }

    /** The handler: the archive is unpacked only when the target is gone. */
    method UndoMove(target: string, backup: string, unique: string, ghost digest: string) returns (raised: bool)
      requires target != backup
      requires RestorePath(target, unique) !in disk.files + map[target := []]
      requires target !in disk.files ==> Archives(disk.sha, disk.gzip, disk.files, backup, digest)
      requires target in disk.files ==> disk.sha(disk.files[target]) == digest
      modifies disk
      ensures |old(disk.history)| <= |disk.history| && disk.history[..|old(disk.history)|] == old(disk.history)
      ensures old(disk.operations) <= disk.operations <= old(disk.operations) + 4
      ensures NeverLost(disk.sha, disk.gzip, disk.history, |old(disk.history)|, target, backup, true, digest)
      ensures SameOutside(old(disk.files), disk.files,
        {target, RestorePath(target, unique)})
      ensures WorksBetween(disk.schedule, old(disk.operations), disk.operations) ==>
        HasDigest(disk.sha, disk.files, target, digest) && SameOutside(old(disk.files), disk.files, {target}) && !raised
    {
      var saved := disk.Exists(backup);
      raised := saved.None?;
      if saved == Some(true) {
        var present := disk.Exists(target);
        raised := present.None?;
        if present == Some(false) {
          var restored := Restore(backup, target, unique);
          raised := !restored;
        }
      }
    }

    /**
     The archive must be one of this change, and the target pass the path guard and be absent. Then it appears in one
     step or not at all, whatever fails, and holds what the archive unpacks to.
     */
    method Rollback(changeId: string, backup: string, raw: string, world: World, unique: string)
      returns (r: Result<string>)
      requires var target := Join(TargetOf(world, raw));
               RestorePath(target, unique) !in disk.files + map[target := []]
      modifies disk
      ensures |old(disk.history)| <= |disk.history| && disk.history[..|old(disk.history)|] == old(disk.history)
      ensures old(disk.operations) <= disk.operations
      ensures
        var target := Join(TargetOf(world, raw));
        var admitted :=
          && backup in old(disk.files) && NamesBackup(backup, backupRoot, changeId)
          && PathAllowed(world, classifier.guard.roots, classifier.guard.protectedPaths, raw)
          && target !in old(disk.files);
        && (!admitted ==> r.Err? && disk.files == old(disk.files))
        && (admitted ==>
            && RestoresInOneStep(disk.history, |old(disk.history)|, old(disk.files), disk.files, target, backup)
            && SameOutside(old(disk.files), disk.files, {target, RestorePath(target, unique)})
            && (target in disk.files && !disk.schedule(old(disk.operations) + 1).Corrupts? ==>
                disk.gzip.unpack(old(disk.files)[backup]) == Some(disk.files[target]))
            && (r.Ok? ==> target in disk.files && SameOutside(old(disk.files), disk.files, {target}))
            && (WorksBetween(disk.schedule, old(disk.operations), disk.operations) ==>
                (r.Ok? <==> disk.gzip.unpack(old(disk.files)[backup]).Some?)))
    {
      hide PathAllowed, NamesBackup, TargetOf, Join, RestorePath, RestoresInOneStep;
      NothingHappened(disk.history, disk.files, Join(TargetOf(world, raw)), backup);
      if backup !in disk.files {
        return Err(OS_ERROR);
      }
      if !NamesBackup(backup, backupRoot, changeId) {
        return Err("BACKUP_REF_REJECTED");
      }
      var guarded := classifier.guard.Validate(world, raw, false);
      if guarded.Err? {
        return Err(guarded.error);
      }
      var target := Join(guarded.value);
      var present := disk.Exists(target);
      if present != Some(false) {
        return Err(if present.None? then OS_ERROR else "ROLLBACK_TARGET_EXISTS");
      }
      var restored := Restore(backup, target, unique);
      if !restored {
        return Err(OS_ERROR);
      }
      return Ok(backup);
    }

    /** A direct rollback: the token is consumed before anything is looked at. */
    method ExecuteRollback(
        userId: string, taskId: string, changeId: string, backup: string, raw: string, token: string, world: World,
        now: int, unique: string)
      returns (r: Result<string>)
      requires var target := Join(TargetOf(world, raw));
               RestorePath(target, unique) !in disk.files + map[target := []]
      modifies disk, approvals
      ensures
        var scope := Scope(userId, taskId, "rollback_change", Obj([Field("change_id", Str(changeId))]));
        var consumption := Outcome(
          approvals.sha, approvals.mac, approvals.secret, old(approvals.consumed), token, scope, now);
        var target := Join(TargetOf(world, raw));
        && approvals.consumed == old(approvals.consumed) + Accepted(consumption)
        && (consumption.Err? ==> r.Err? && r.error == consumption.error && disk.files == old(disk.files))
        && (r.Ok? ==> target in disk.files)
        && SameOutside(old(disk.files), disk.files, {target, RestorePath(target, unique)})
        && (target in old(disk.files) ==> r.Err? && disk.files == old(disk.files))
        && (target !in old(disk.files) && target in disk.files ==>
            && backup in old(disk.files) && NamesBackup(backup, backupRoot, changeId)
            && PathAllowed(world, classifier.guard.roots, classifier.guard.protectedPaths, raw)
            && (!disk.schedule(old(disk.operations) + 1).Corrupts? ==>
                disk.gzip.unpack(old(disk.files)[backup]) == Some(disk.files[target])))
        && (WorksBetween(disk.schedule, old(disk.operations), disk.operations) ==>
            (r.Ok? <==>
             && consumption.Ok? && backup in old(disk.files) && NamesBackup(backup, backupRoot, changeId)
             && PathAllowed(world, classifier.guard.roots, classifier.guard.protectedPaths, raw)
             && target !in old(disk.files) && disk.gzip.unpack(old(disk.files)[backup]).Some?))
    {
      hide Outcome, PathAllowed, NamesBackup, TargetOf, Join, RestorePath, RestoresInOneStep, WorksBetween;
      var scope := Scope(userId, taskId, "rollback_change", Obj([Field("change_id", Str(changeId))]));
      var claims := approvals.Consume(token, scope, now);
      if claims.Err? {
        return Err(claims.error);
      }
      r := Rollback(changeId, backup, raw, world, unique);
    }

    /**
     A cleanup and its rollback give back a file with the original digest, and nothing else changed but the archive. The
     target is named by the text of a resolved path, as the classifier names it, and must still pass the guard.
     */
    method ExecuteThenRollback(path: Path, world: World, changeId: string, unique: string, again: string)
      returns (undone: bool, ghost d: string)
      requires Clean(path) && NoSlash(changeId)
      requires var target := Join(path);
               && target in disk.files && ArchivePath(backupRoot, changeId, target) !in disk.files
               && RestorePath(target, unique) !in disk.files && RestorePath(target, again) !in disk.files
               && RestorePath(target, unique) != ArchivePath(backupRoot, changeId, target)
               && RestorePath(target, again) != ArchivePath(backupRoot, changeId, target)
      modifies disk
      ensures d == disk.sha(old(disk.files)[Join(path)])
      ensures undone && (forall n: nat :: !disk.schedule(n).Corrupts?) ==>
        && HasDigest(disk.sha, disk.files, Join(path), d)
        && SameOutside(old(disk.files), disk.files, {Join(path), ArchivePath(backupRoot, changeId, Join(path))})
      ensures WorksBetween(disk.schedule, old(disk.operations), disk.operations) && RoundTrips(disk.gzip) ==>
        (undone <==> PathAllowed(world, classifier.guard.roots, classifier.guard.protectedPaths, Join(path)))
    {
      hide PathAllowed, TargetOf, Join, RestorePath, RestoresInOneStep, ArchivePath, NamesBackup, OneFault, NeverLost;
      var target := Join(path);
      d := disk.sha(disk.files[target]);
      ghost var handler;
      var done;
      ArchiveIsNamed(backupRoot, changeId, target);
      TargetReread(world, path);
      done, handler := Execute(target, true, changeId, unique, false);
      if done.Err? {
        return false, d;
      }
      var restored := Rollback(changeId, done.value.backupRef, target, world, again);
      return restored.Ok?, d;
    }
  }

  lemma {:induction false} NothingHappened(history: seq<Files>, files: Files, target: string, backup: string)
    ensures RestoresInOneStep(history, |history|, files, files, target, backup)
  {
  }
}
