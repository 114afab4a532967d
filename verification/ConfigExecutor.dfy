/** Update of one configuration file: back up, write beside it, validate, replace, validate again; or put back. */
module ConfigExecutor {
  import opened Wrappers
  import opened Json
  import opened Tokens
  import opened Utf8
  import opened FaultyDisk
  import opened CleanupExecutor

  const MAX_CONTENT := 1048576

  /** `blank` tells the texts that `strip` empties. */
  predicate ContentValid(blank: string -> bool, content: string) {
    !blank(content) && |Encode(content)| <= MAX_CONTENT && (0 as char) !in content
  }

  function BackupPath(root: string, changeId: string, target: string): string {
    root + "/" + changeId + "-" + Name(target) + ".bak"
  }

  function CandidatePath(target: string, unique: string): string {
    Sibling(target, "." + Name(target) + ".candidate-" + unique)
  }

  function RollbackPath(target: string, unique: string): string {
    Sibling(target, "." + Name(target) + ".rollback-" + unique)
  }

  /** The names an update writes under are new, and different from each other. */
  ghost predicate FreshNames(files: Files, backup: string, temporary: string, restore: string) {
    && backup != temporary && backup != restore && temporary != restore
    && backup !in files && temporary !in files && restore !in files
  }

  function AcceptedTwice(temporary: string, target: string, content: Bytes): seq<(string, Bytes)> {
    [(temporary, content), (target, content)]
  }

  /**
   How a call ended that began at the operation `start` with the files `before`: success has installed the content over
   a good backup; a single fault elsewhere than in the last digest leaves the original, if the validator accepts `all`;
   and when nothing fails before the last digest, the new content stands, whether or not that digest can be computed.
   */
  ghost predicate Ended(
      schedule: nat -> Fault, sha: Bytes -> string, all: bool, before: Files, start: nat, after: Files, end: nat,
      target: string, backup: string, content: string, r: Result<ExecutionResult>)
  {
    && target in before && target in after
    && (r.Ok? ==>
        && SameOutside(before, after, {target, backup}) && HasDigest(sha, after, backup, sha(before[target]))
        && r.value.backupRef == backup && r.value.digest == sha(after[target]) && r.value.status == "SUCCEEDED")
    && (r.Ok? && !schedule(start + 1).Corrupts? && !schedule(start + 3).Corrupts? ==>
        after[target] == Encode(content) && after[backup] == before[target])
    && (r.Err? && all && OneFault(schedule, start, end) && schedule(start + 7).Works? ==>
        HasDigest(sha, after, target, sha(before[target])) && SameOutside(before, after, {target, backup}))
    && (all && WorksBetween(schedule, start, start + 7) ==>
        && after[target] == Encode(content) && SameOutside(before, after, {target, backup}) && end == start + 8
        && (r.Ok? <==> schedule(start + 7).Works?) && (r.Err? ==> r.error == OS_ERROR))
  }

  /** Something failed before the handler, or the validator refused. */
  lemma {:induction false} EndedByHandler(
      schedule: nat -> Fault, sha: Bytes -> string, all: bool, before: Files, start: nat, after: Files, end: nat,
      target: string, backup: string, content: string, r: Result<ExecutionResult>, handler: nat)
    requires target in before && target in after && r.Err? && start <= handler <= end && handler <= start + 7
    requires all ==> !WorksBetween(schedule, start, handler)
    requires WorksBetween(schedule, handler, end) ==>
      HasDigest(sha, after, target, sha(before[target])) && SameOutside(before, after, {target, backup})
    ensures Ended(schedule, sha, all, before, start, after, end, target, backup, content, r)
  {
    hide HasDigest, SameOutside, OneFault, WorksBetween, Encode;
    WorksSplit(schedule, start, handler, end);
    WorksSplit(schedule, start, handler, start + 7);
  }

  lemma {:induction false} EndedByDigest(
      schedule: nat -> Fault, sha: Bytes -> string, all: bool, before: Files, start: nat, after: Files, target: string,
      backup: string, content: string, r: Result<ExecutionResult>)
    requires target in before && target in after && (r.Ok? <==> schedule(start + 7).Works?)
    requires (r.Err? ==> r.error == OS_ERROR)
    requires SameOutside(before, after, {target, backup}) && HasDigest(sha, after, backup, sha(before[target]))
    requires r.Ok? ==>
      && r.value.backupRef == backup && r.value.digest == sha(after[target]) && r.value.status == "SUCCEEDED"
    requires !schedule(start + 1).Corrupts? && !schedule(start + 3).Corrupts? ==>
      && after[target] == Encode(content) && after[backup] == before[target]
    ensures Ended(schedule, sha, all, before, start, after, start + 8, target, backup, content, r)
  {
    hide SameOutside, OneFault, WorksBetween, Encode;
    WorksAt(schedule, start, start + 7, start + 1);
    WorksAt(schedule, start, start + 7, start + 3);
  }

  class ControlledConfigExecutor {
    const disk: Disk
    const targets: map<string, string>
    const backupRoot: string
    const approvals: ApprovalTokenManager
    const blank: string -> bool
    /** What the validator says of a content, when it is asked in the `n`-th operation, or the exception it raises. */
    const judge: (nat, Bytes) -> Result<bool>
    /** The contents it accepted, and where. */
    ghost var accepted: seq<(string, Bytes)>

    constructor (
        disk: Disk, targets: map<string, string>, backupRoot: string, approvals: ApprovalTokenManager,
        blank: string -> bool, judge: (nat, Bytes) -> Result<bool>)
      ensures this.disk == disk && this.targets == targets && this.backupRoot == backupRoot
      ensures this.approvals == approvals
      ensures this.blank == blank && this.judge == judge && accepted == []
    {
      this.disk, this.targets, this.backupRoot, this.approvals := disk, targets, backupRoot, approvals;
      this.blank, this.judge := blank, judge;
      accepted := [];
    }

    ghost predicate AcceptsAll() {
      forall n, c :: judge(n, c) == Ok(true)
    }

    method Validate(path: string) returns (r: Result<bool>)
      modifies this`accepted, disk`operations
      ensures disk.operations == old(disk.operations) + 1
      ensures r == if path in disk.files then judge(old(disk.operations), disk.files[path]) else Err(OS_ERROR)
      ensures accepted == if r == Ok(true) then old(accepted) + [(path, disk.files[path])] else old(accepted)
    {
      r := if path in disk.files then judge(disk.operations, disk.files[path]) else Err(OS_ERROR);
      disk.operations := disk.operations + 1;
      if r == Ok(true) {
        accepted := accepted + [(path, disk.files[path])];
      }
    }

    /** The backup is read back before anything else is written. */
    method SaveBackup(target: string, backup: string, digest: string) returns (error: Option<string>)
      requires HasDigest(disk.sha, disk.files, target, digest) && backup !in disk.files
      modifies disk
      ensures |old(disk.history)| <= |disk.history| && disk.history[..|old(disk.history)|] == old(disk.history)
      ensures old(disk.operations) <= disk.operations <= old(disk.operations) + 2
      ensures NeverLost(disk.sha, disk.gzip, disk.history, |old(disk.history)|, target, backup, false, digest)
      ensures SameOutside(old(disk.files), disk.files, {backup})
      ensures error.None? ==>
        && HasDigest(disk.sha, disk.files, backup, digest) && disk.operations == old(disk.operations) + 2
      ensures WorksBetween(disk.schedule, old(disk.operations), disk.operations) ==> error.None?
      ensures error.None? && !disk.schedule(old(disk.operations)).Corrupts? ==>
        disk.files[backup] == old(disk.files)[target]
    {
      var copied := disk.Copy(target, backup);
      if !copied {
        return Some(OS_ERROR);
      }
      var check := disk.Digest(backup);
      error :=
        if check == Some(digest) then None else Some(if check.Some? then "BACKUP_VERIFICATION_FAILED" else OS_ERROR);
    }

    /** The body of the `try`: the target changes only by the rename, after the validator accepted what replaces it. */
    method Install(target: string, backup: string, temporary: string, content: Bytes,
        ghost digest: string)
      returns (error: Option<string>)
      requires HasDigest(disk.sha, disk.files, target, digest) && HasDigest(disk.sha, disk.files, backup, digest)
      requires temporary !in disk.files && target != backup
      modifies disk, this`accepted
      ensures |old(disk.history)| <= |disk.history| && disk.history[..|old(disk.history)|] == old(disk.history)
      ensures old(disk.operations) <= disk.operations <= old(disk.operations) + 4
      ensures NeverLost(disk.sha, disk.gzip, disk.history, |old(disk.history)|, target, backup, false, digest)
      ensures SameOutside(old(disk.files), disk.files, {target, temporary}) && target in disk.files
      ensures error.None? <==> |accepted| == |old(accepted)| + 2
      ensures error.None? ==>
        && temporary !in disk.files && accepted == old(accepted) + AcceptedTwice(temporary, target, disk.files[target])
        && disk.operations == old(disk.operations) + 4
      ensures error.None? && !disk.schedule(old(disk.operations)).Corrupts? ==> disk.files[target] == content
      ensures WorksBetween(disk.schedule, old(disk.operations), disk.operations) && AcceptsAll() ==> error.None?
    {
      var written := disk.Create(temporary, content);
      if !written {
        return Some(OS_ERROR);
      }
      var before := Validate(temporary);
      if before != Ok(true) {
        return Some(if before.Err? then before.error else "CONFIG_VALIDATION_FAILED");
      }
      var replaced := disk.Replace(temporary, target);
      if !replaced {
        return Some(OS_ERROR);
      }
      var after := Validate(target);
      error := if after == Ok(true) then None else Some(if after.Err? then after.error else "POSTCONDITION_FAILED");
    }

    /**
     The handler: the candidate is removed, and a good backup is copied beside the target and renamed over it. When it
     raises itself, its exception replaces the one that it handles.
     */
    method Undo(target: string, backup: string, temporary: string, restore: string,
        digest: string)
      returns (raised: bool)
      requires target in disk.files && target != temporary && target != restore && target != backup
      requires restore !in disk.files && restore != temporary && restore != backup && temporary != backup
      requires HasDigest(disk.sha, disk.files, target, digest) || HasDigest(disk.sha, disk.files, backup, digest)
      modifies disk
      ensures |old(disk.history)| <= |disk.history| && disk.history[..|old(disk.history)|] == old(disk.history)
      ensures NeverLost(disk.sha, disk.gzip, disk.history, |old(disk.history)|, target, backup, false, digest)
      ensures old(disk.operations) <= disk.operations <= old(disk.operations) + 5
      ensures SameOutside(old(disk.files), disk.files, {target, temporary, restore}) && target in disk.files
      ensures WorksBetween(disk.schedule, old(disk.operations), disk.operations) ==>
        HasDigest(disk.sha, disk.files, target, digest) && temporary !in disk.files && restore !in disk.files && !raised
    {
      var removed := disk.Unlink(temporary, true);
      if !removed {
        return true;
      }
      var saved := disk.Exists(backup);
      if saved != Some(true) {
        return saved.None?;
      }
      var check := disk.Digest(backup);
      if check == Some(digest) {
        raised := CopyBack(backup, restore, target, digest);
      } else {
        raised := check.None?;
      }
    }

    method CopyBack(backup: string, restore: string, target: string, ghost digest: string) returns (raised: bool)
      requires HasDigest(disk.sha, disk.files, backup, digest) && restore !in disk.files && target in disk.files
      requires target != restore && target != backup && restore != backup
      modifies disk
      ensures |old(disk.history)| <= |disk.history| && disk.history[..|old(disk.history)|] == old(disk.history)
      ensures NeverLost(disk.sha, disk.gzip, disk.history, |old(disk.history)|, target, backup, false, digest)
      ensures old(disk.operations) <= disk.operations <= old(disk.operations) + 2
      ensures SameOutside(old(disk.files), disk.files, {target, restore}) && target in disk.files
      ensures WorksBetween(disk.schedule, old(disk.operations), disk.operations) ==>
        HasDigest(disk.sha, disk.files, target, digest) && restore !in disk.files && !raised
    {
      var copied := disk.Copy(backup, restore);
      raised := !copied;
      if copied {
        var replaced := disk.Replace(restore, target);
        raised := !replaced;
      }
    }

    /** The `try` without its handler. */
    method TryUpdate(target: string, backup: string, temporary: string, content: Bytes,
        digest: string)
      returns (error: Option<string>)
      requires HasDigest(disk.sha, disk.files, target, digest)
      requires backup != temporary && backup !in disk.files && temporary !in disk.files
      modifies disk, this`accepted
      ensures |old(disk.history)| <= |disk.history| && disk.history[..|old(disk.history)|] == old(disk.history)
      ensures old(disk.operations) <= disk.operations <= old(disk.operations) + 6
      ensures NeverLost(disk.sha, disk.gzip, disk.history, |old(disk.history)|, target, backup, false, digest)
      ensures SameOutside(old(disk.files), disk.files, {target, backup, temporary}) && target in disk.files
      ensures HasDigest(disk.sha, disk.files, target, digest) || HasDigest(disk.sha, disk.files, backup, digest)
      ensures error.None? <==> |accepted| == |old(accepted)| + 2
      ensures error.None? ==>
        && temporary !in disk.files && HasDigest(disk.sha, disk.files, backup, digest)
        && disk.operations == old(disk.operations) + 6
        && accepted == old(accepted) + AcceptedTwice(temporary, target, disk.files[target])
      ensures
        (error.None? && !disk.schedule(old(disk.operations)).Corrupts?
         && !disk.schedule(old(disk.operations) + 2).Corrupts?)
        ==> disk.files[target] == content && disk.files[backup] == old(disk.files)[target]
      ensures WorksBetween(disk.schedule, old(disk.operations), disk.operations) && AcceptsAll() ==> error.None?
    {
      hide NeverLost, WorksBetween, AcceptsAll;
      ghost var n, start := |disk.history|, disk.operations;
      error := SaveBackup(target, backup, digest);
      if error.None? {
        ghost var h, middle := disk.history, disk.operations;
        error := Install(target, backup, temporary, content, digest);
        NeverLostJoin(disk.sha, disk.gzip, h, disk.history, n, target, backup, false, digest);
        WorksSplit(disk.schedule, start, middle, disk.operations);
      }
    }

    /**
     The `try` with its handler, which begins at the operation `handler`, at most five before the end. Before it
     something failed or the validator refused; if nothing fails from there on, the original is back.
     */
    method Update(target: string, backup: string, temporary: string, restore: string, content: Bytes, digest: string)
      returns (error: Option<string>, ghost handler: nat)
      requires HasDigest(disk.sha, disk.files, target, digest) && FreshNames(disk.files, backup, temporary, restore)
      modifies disk, this`accepted
      ensures |old(disk.history)| <= |disk.history| && disk.history[..|old(disk.history)|] == old(disk.history)
      ensures old(disk.operations) <= handler <= old(disk.operations) + 6 && target in disk.files
      ensures handler <= disk.operations <= handler + 5
      ensures NeverLost(disk.sha, disk.gzip, disk.history, |old(disk.history)|, target, backup, false, digest)
      ensures error.None? <==> |accepted| == |old(accepted)| + 2
      ensures error.None? ==>
        && SameOutside(old(disk.files), disk.files, {target, backup}) && HasDigest(disk.sha, disk.files, backup, digest)
      ensures error.None? ==>
        && accepted == old(accepted) + AcceptedTwice(temporary, target, disk.files[target])
        && disk.operations == old(disk.operations) + 6
      ensures
        (error.None? && !disk.schedule(old(disk.operations)).Corrupts?
         && !disk.schedule(old(disk.operations) + 2).Corrupts?)
        ==> disk.files[target] == content && disk.files[backup] == old(disk.files)[target]
      ensures error.Some? && AcceptsAll() ==> !WorksBetween(disk.schedule, old(disk.operations), handler)
      ensures error.Some? && WorksBetween(disk.schedule, handler, disk.operations) ==>
        HasDigest(disk.sha, disk.files, target, digest) && SameOutside(old(disk.files), disk.files, {target, backup})
    {
      hide NeverLost, WorksBetween, AcceptedTwice, AcceptsAll;
      ghost var n, h := |disk.history|, disk.history;
      error := TryUpdate(target, backup, temporary, content, digest);
      h := disk.history;
      handler := disk.operations;
      if error.Some? {
        var raised := Undo(target, backup, temporary, restore, digest);
        error := if raised then Some(OS_ERROR) else error;
        NeverLostJoin(disk.sha, disk.gzip, h, disk.history, n, target, backup, false, digest);
      }
    }

    /**
     What follows the checks. After a return the target holds what the validator accepted before and after the rename.
     After an exception it holds the old content, when nothing fails in the handler, except in one case: both
     validations accepted, so that the update stands, and it was the digest computed for the answer, outside the `try`,
     that failed.
     */
    method Execute(target: string, content: string, changeId: string, unique: string, again: string)
      returns (r: Result<ExecutionResult>, ghost handler: nat)
      requires FreshNames(disk.files, BackupPath(backupRoot, changeId, target), CandidatePath(target, unique),
        RollbackPath(target, again))
      modifies disk, this`accepted
      ensures |old(disk.history)| <= |disk.history| && disk.history[..|old(disk.history)|] == old(disk.history)
      ensures old(disk.operations) <= handler <= disk.operations <= handler + 6
      ensures target !in old(disk.files) ==> r.Err? && disk.files == old(disk.files)
      ensures target in old(disk.files) ==>
        && target in disk.files
        && NeverLost(
             disk.sha, disk.gzip, disk.history, |old(disk.history)|, target, BackupPath(backupRoot, changeId, target),
             false, disk.sha(old(disk.files)[target]))
      ensures target in old(disk.files) ==>
        Ended(
          disk.schedule, disk.sha, AcceptsAll(), old(disk.files), old(disk.operations), disk.files, disk.operations,
          target, BackupPath(backupRoot, changeId, target), content, r)
      ensures r.Ok? ==>
        && target in disk.files
        && accepted == old(accepted) + AcceptedTwice(CandidatePath(target, unique), target, disk.files[target])
        && r.value.changeId == changeId
      ensures r.Err? && target in old(disk.files) && |accepted| != |old(accepted)| + 2 ==>
        && (AcceptsAll() ==> !WorksBetween(disk.schedule, old(disk.operations), handler))
        && (WorksBetween(disk.schedule, handler, disk.operations) ==>
            && HasDigest(disk.sha, disk.files, target, disk.sha(old(disk.files)[target]))
            && SameOutside(old(disk.files), disk.files, {target, BackupPath(backupRoot, changeId, target)}))
      ensures r.Err? && |accepted| == |old(accepted)| + 2 ==>
        && disk.operations == old(disk.operations) + 8 && !disk.schedule(old(disk.operations) + 7).Works?
        && r.error == OS_ERROR
        && target in disk.files
        && accepted == old(accepted) + AcceptedTwice(CandidatePath(target, unique), target, disk.files[target])
    {
      hide NeverLost, WorksBetween, SameOutside, Ended, BackupPath, CandidatePath, RollbackPath, Encode, AcceptedTwice;
      hide AcceptsAll;
      ghost var start, before, all := disk.operations, disk.files, AcceptsAll();
      var backup, temporary := BackupPath(backupRoot, changeId, target), CandidatePath(target, unique);
      var restore := RollbackPath(target, again);
      var digest := disk.Digest(target);
      handler := disk.operations;
      WorksOnce(disk.schedule, start);
      if digest.None? {
        r := Err(OS_ERROR);
        if target in before {
          NotYetLost(disk.sha, disk.gzip, disk.history, target, backup, false, disk.sha(disk.files[target]));
          Unchanged(disk.files, {target, backup});
          EndedByHandler(disk.schedule, disk.sha, all, before, start, disk.files, disk.operations, target, backup,
            content, r, handler);
        }
        return;
      }
      var error;
      error, handler := Update(target, backup, temporary, restore, Encode(content), digest.value);
      WorksSplit(disk.schedule, start, start + 1, handler);
      if error.Some? {
        r := Err(error.value);
        EndedByHandler(disk.schedule, disk.sha, all, before, start, disk.files, disk.operations, target, backup,
          content, r, handler);
        return;
      }
      var installed := disk.Digest(target);
      r :=
        if installed.None? then Err(OS_ERROR)
        else Ok(ExecutionResult(changeId, "SUCCEEDED", backup, installed.value));
      EndedByDigest(disk.schedule, disk.sha, all, before, start, disk.files, target, backup, content, r);
    }

    /**
     The whole call. A refusal before or by the token changes no file; afterwards a single fault anywhere, other than in
     the last digest, leaves either the new content or the old one.
     */
    method ExecuteApproved(
        userId: string, taskId: string, targetId: string, content: string, token: string, now: int, changeId: string,
        unique: string, again: string)
      returns (r: Result<ExecutionResult>)
      requires targetId in targets ==>
        FreshNames(
          disk.files, BackupPath(backupRoot, changeId, targets[targetId]), CandidatePath(targets[targetId], unique),
          RollbackPath(targets[targetId], again))
      modifies disk, this`accepted, approvals
      ensures
        var scope := Scope(userId, taskId, "config_safe_update",
          Obj([Field("target_id", Str(targetId)), Field("content", Str(content))]));
        var consumption := Outcome(approvals.sha, approvals.mac, approvals.secret, old(approvals.consumed), token,
          scope, now);
        var checked := targetId in targets && targets[targetId] in old(disk.files) && ContentValid(blank, content);
        && approvals.consumed == old(approvals.consumed) + (if checked then Accepted(consumption) else {})
        && (!checked || consumption.Err? ==> r.Err? && disk.files == old(disk.files))
        && (checked && consumption.Ok? ==>
            Ended(
              disk.schedule, disk.sha, AcceptsAll(), old(disk.files), old(disk.operations), disk.files, disk.operations,
              targets[targetId], BackupPath(backupRoot, changeId, targets[targetId]), content, r))
      ensures blank(content) || |Encode(content)| > 1048576 || (0 as char) in content ==>
        r.Err? && disk.files == old(disk.files) && approvals.consumed == old(approvals.consumed)
      ensures
        var scope := Scope(userId, taskId, "config_safe_update",
          Obj([Field("target_id", Str(targetId)), Field("content", Str(content))]));
        (targetId in targets && targets[targetId] in old(disk.files)
         && !blank(content) && |Encode(content)| <= 1048576 && (0 as char) !in content)
        ==> approvals.consumed == old(approvals.consumed)
              + Accepted(
                  Outcome(approvals.sha, approvals.mac, approvals.secret, old(approvals.consumed), token, scope, now))
    {
      if targetId !in targets {
        return Err("CONFIG_TARGET_NOT_ALLOWED");
      }
      var target := targets[targetId];
      if target !in disk.files {
        return Err(OS_ERROR);
      }
      if !ContentValid(blank, content) {
        return Err("CONFIG_CONTENT_INVALID");
      }
      hide Outcome, ContentValid, NeverLost, BackupPath, CandidatePath, RollbackPath, Ended, WorksBetween, FreshNames;
      hide SameOutside, HasDigest;
      var scope := Scope(userId, taskId, "config_safe_update",
        Obj([Field("target_id", Str(targetId)), Field("content", Str(content))]));
      var claims := approvals.Consume(token, scope, now);
      if claims.Err? {
        return Err(claims.error);
      }
      ghost var handler;
      r, handler := Execute(target, content, changeId, unique, again);
    }

    /** Copy the backup beside the target, validate the copy, and rename it over the target. */
    method PutBack(target: string, backup: string, restore: string) returns (r: Result<string>)
      requires target in disk.files && backup in disk.files && restore !in disk.files
      modifies disk, this`accepted
      ensures |old(disk.history)| <= |disk.history| && disk.history[..|old(disk.history)|] == old(disk.history)
      ensures old(disk.operations) <= disk.operations
      ensures SameOutside(old(disk.files), disk.files, {target, restore}) && target in disk.files
      ensures disk.files[target] == old(disk.files)[target] || (restore, disk.files[target]) in accepted
      ensures r.Ok? ==> restore !in disk.files && accepted == old(accepted) + [(restore, disk.files[target])]
      ensures r.Ok? && !disk.schedule(old(disk.operations)).Corrupts? ==> disk.files[target] == old(disk.files)[backup]
      ensures WorksBetween(disk.schedule, old(disk.operations), disk.operations) && AcceptsAll() ==> r.Ok?
    {
      var copied := disk.Copy(backup, restore);
      if !copied {
        return Err(OS_ERROR);
      }
      var verdict := Validate(restore);
      if verdict.Err? {
        return Err(verdict.error);
      }
      if !verdict.value {
        var removed := disk.Unlink(restore, true);
        return Err(if removed then "ROLLBACK_VALIDATION_FAILED" else OS_ERROR);
      }
      assert accepted[|old(accepted)|] == (restore, disk.files[restore]);
      var replaced := disk.Replace(restore, target);
      r := if replaced then Ok(target) else Err(OS_ERROR);
    }

    /**
     There is no handler here: after an exception the target is as before or holds what the validator accepted beside
     it.
     */
    method ExecuteRollback(target: string, backup: string, changeId: string,
        unique: string)
      returns (r: Result<ExecutionResult>)
      requires RollbackPath(target, unique) !in disk.files + map[target := []]
      modifies disk, this`accepted
      ensures |old(disk.history)| <= |disk.history| && disk.history[..|old(disk.history)|] == old(disk.history)
      ensures
        target !in old(disk.files) || backup !in old(disk.files) || !NamesBackup(backup, backupRoot, changeId)
        ==> r.Err? && disk.files == old(disk.files)
      ensures old(disk.operations) <= disk.operations
      ensures SameOutside(old(disk.files), disk.files, {target, RollbackPath(target, unique)})
      ensures target in old(disk.files) ==>
        && target in disk.files
        && (|| disk.files[target] == old(disk.files)[target]
            || (RollbackPath(target, unique), disk.files[target]) in accepted)
      ensures r.Ok? ==>
        && target in old(disk.files) && backup in old(disk.files) && SameOutside(old(disk.files), disk.files, {target})
        && accepted == old(accepted) + AcceptedTwice(RollbackPath(target, unique), target, disk.files[target])
      ensures r.Ok? && !disk.schedule(old(disk.operations)).Corrupts? ==> disk.files[target] == old(disk.files)[backup]
      ensures
        (WorksBetween(disk.schedule, old(disk.operations), disk.operations)
         && target in old(disk.files) && backup in old(disk.files)
         && NamesBackup(backup, backupRoot, changeId) && AcceptsAll())
        ==> r.Ok?
    {
      if target !in disk.files || backup !in disk.files {
        return Err(OS_ERROR);
      }
      if !NamesBackup(backup, backupRoot, changeId) {
        return Err("BACKUP_REF_REJECTED");
      }
      ghost var start := disk.operations;
      var put := PutBack(target, backup, RollbackPath(target, unique));
      WorksSplit(disk.schedule, start, disk.operations, disk.operations + 2);
      ghost var middle := disk.operations;
      if put.Err? {
        return Err(put.error);
      }
      ghost var accepts := accepted;
      var after := Validate(target);
      assert accepts <= accepted;
      if after != Ok(true) {
        return Err(if after.Err? then after.error else "ROLLBACK_POSTCONDITION_FAILED");
      }
      var digest := disk.Digest(target);
      WorksSplit(disk.schedule, start, middle, disk.operations);
      if digest.None? {
        return Err(OS_ERROR);
      }
      return Ok(ExecutionResult(changeId, "ROLLED_BACK", backup, digest.value));
    }

    /** The token is consumed before anything is looked at. */
    method ExecuteRollbackApproved(
        userId: string, taskId: string, changeId: string, targetId: string, backup: string, token: string, now: int,
        unique: string)
      returns (r: Result<ExecutionResult>)
      requires targetId in targets ==>
        RollbackPath(targets[targetId], unique) !in disk.files + map[targets[targetId] := []]
      modifies disk, this`accepted, approvals
      ensures
        var scope := Scope(userId, taskId, "rollback_change", Obj([Field("change_id", Str(changeId))]));
        var consumption := Outcome(approvals.sha, approvals.mac, approvals.secret, old(approvals.consumed), token,
          scope, now);
        && approvals.consumed == old(approvals.consumed) + Accepted(consumption)
        && (consumption.Err? || targetId !in targets ==> r.Err? && disk.files == old(disk.files))
        && (consumption.Ok? && targetId in targets ==>
            var target := targets[targetId];
            && SameOutside(old(disk.files), disk.files, {target, RollbackPath(target, unique)})
            && (target in old(disk.files) ==>
                && target in disk.files
                && (|| disk.files[target] == old(disk.files)[target]
                    || (RollbackPath(target, unique), disk.files[target]) in accepted))
            && (r.Ok? ==>
                && backup in old(disk.files) && target in old(disk.files)
                && SameOutside(old(disk.files), disk.files, {target})))
    {
      hide Outcome, RollbackPath, NamesBackup;
      var scope := Scope(userId, taskId, "rollback_change", Obj([Field("change_id", Str(changeId))]));
      var claims := approvals.Consume(token, scope, now);
      if claims.Err? {
        return Err(claims.error);
      }
      if targetId !in targets {
        return Err("CONFIG_TARGET_NOT_ALLOWED");
      }
      r := ExecuteRollback(targets[targetId], backup, changeId, unique);
    }

    /** Rolling back a successful update gives back the old content. */
    method ExecuteThenRollback(target: string, content: string, changeId: string, unique: string, again: string,
        later: string)
      returns (undone: bool)
      requires FreshNames(disk.files, BackupPath(backupRoot, changeId, target), CandidatePath(target, unique),
        RollbackPath(target, again))
      requires RollbackPath(target, later) !in disk.files
      requires RollbackPath(target, later) != BackupPath(backupRoot, changeId, target)
      requires target in disk.files && NoSlash(changeId)
      modifies disk, this`accepted
      ensures undone && (forall n: nat :: !disk.schedule(n).Corrupts?) ==>
        && disk.files == old(disk.files)[BackupPath(backupRoot, changeId, target) := old(disk.files)[target]]
      ensures WorksBetween(disk.schedule, old(disk.operations), disk.operations) && AcceptsAll() ==> undone
    {
      hide BackupPath, CandidatePath, RollbackPath, NamesBackup, NeverLost, OneFault, Encode, WorksBetween, AcceptsAll;
      var backup := BackupPath(backupRoot, changeId, target);
      BackupIsNamed(backupRoot, changeId, target);
      ghost var start, handler := disk.operations, 0;
      var done;
      done, handler := Execute(target, content, changeId, unique, again);
      ghost var middle := disk.operations;
      WorksSplit(disk.schedule, start, handler, middle);
      if done.Err? {
        if middle == start + 8 {
          WorksAt(disk.schedule, start, middle, start + 7);
        }
        return false;
      }
      var back := ExecuteRollback(target, done.value.backupRef, changeId, later);
      WorksSplit(disk.schedule, start, middle, disk.operations);
      return back.Ok?;
    }
  }

  lemma {:induction false} BackupIsNamed(root: string, changeId: string, target: string)
    requires NoSlash(changeId)
    ensures NamesBackup(BackupPath(root, changeId, target), root, changeId)
  {
    var name := changeId + "-" + Name(target) + ".bak";
    NameHasNoSlash(target);
    assert BackupPath(root, changeId, target) == root + ("/" + name);
    NameAfterSlash(root, name);
  }
}
