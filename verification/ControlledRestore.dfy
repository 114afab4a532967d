/**
 Cleanups and their rollbacks on one disk, with the rows of the protocol between them. What a rollback brings back has
 the digest that the cleanup archived, whatever else happened in between.
 */
module ControlledRestore {
  import opened Wrappers
  import opened Json
  import opened JsonProofs
  import opened Utf8
  import opened Tokens
  import opened FaultyDisk
  import opened BrokerWire
  import opened ApprovalProtocol
  import opened ApprovalInvariant
  import opened ApprovalSteps
  import opened ApprovalRuns
  import opened ApprovalEffects
  import opened ApprovalService
  import opened ExecutionRows
  import opened ClassifiedFiles
  import opened CleanupExecutor
  import opened PrivilegedHelper
  import opened ControlledRun
  import Rules = CleanupRules
  import Paths

  // ---------- the archives of the recorded cleanups ----------

  ghost predicate KeptAt(
      sha: Bytes -> string, gzip: Gzip, executions: map<string, Execution>, files: Files, change: string,
      digest: string)
  {
    && change in executions && executions[change].toolName == CLEANUP && executions[change].backupRef.Some?
    && Archives(sha, gzip, files, executions[change].backupRef.value, digest)
  }

  /** The archive of each of these changes is in place and holds the digest. */
  ghost predicate Kept(
      sha: Bytes -> string, gzip: Gzip, executions: map<string, Execution>, files: Files, digests: map<string, string>)
  {
    forall change :: change in digests ==> KeptAt(sha, gzip, executions, files, change, digests[change])
  }

  ghost predicate ArchivesKept(service: Service, disk: Disk, digests: map<string, string>)
    reads service, disk
  {
    Kept(disk.sha, disk.gzip, service.executions, disk.files, digests)
  }

  /** The digests without those of changes whose archive has the path. */
  ghost function Without(
      digests: map<string, string>, executions: map<string, Execution>, path: string): map<string, string>
  {
    map change | change in digests && change in executions && executions[change].backupRef != Some(path)
               :: digests[change]
  }

  lemma {:induction false} KeptStays(
      sha: Bytes -> string, gzip: Gzip, db: Database, files: Files, next: Database, after: Files, changed: set<string>,
      path: string, digests: map<string, string>)
    requires Kept(sha, gzip, db.executions, files, digests) && RecordsStay(db, next)
    requires SameOutside(files, after, changed)
    requires forall p :: p in changed && p in files ==> p == path
    ensures Kept(sha, gzip, next.executions, after, Without(digests, db.executions, path))
    ensures path !in files ==> Without(digests, db.executions, path) == digests
  {
    forall change | change in digests
      ensures change in db.executions && db.executions[change].backupRef.Some?
      ensures db.executions[change].backupRef.value in files
      ensures change in Without(digests, db.executions, path) ==>
        KeptAt(sha, gzip, next.executions, after, change, digests[change])
    {
      assert KeptAt(sha, gzip, db.executions, files, change, digests[change]);
    }
  }

  /** Whatever step of the protocol is made while the disk stays as it is. */
  lemma {:induction false} RowsKeep(disk: Disk, cfg: Config, s: State, a: Action, digests: map<string, string>)
    requires Kept(disk.sha, disk.gzip, s.db.executions, disk.files, digests)
    ensures Kept(disk.sha, disk.gzip, Apply(cfg, s, a).db.executions, disk.files, digests)
  {
    hide Apply, Archives;
    ApplyHolds(cfg, s, a);
    forall change | change in digests
      ensures KeptAt(disk.sha, disk.gzip, Apply(cfg, s, a).db.executions, disk.files, change, digests[change])
    {
      assert KeptAt(disk.sha, disk.gzip, s.db.executions, disk.files, change, digests[change]);
    }
  }

  // ---------- a cleanup ----------

  /** A new row of the table that says SUCCEEDED is that of the tool that was run. */
  ghost predicate NewRowOf(db: Database, next: Database, change: string, tool: string, backup: Option<string>) {
    change in next.executions && change !in db.executions && next.executions[change].status == SUCCEEDED ==>
      next.executions[change].toolName == tool && next.executions[change].backupRef == backup
  }

  lemma {:induction false} SuccessRow(
      cfg: Config, db: Database, id: string, req: RunRequest, op: Operation, changeId: string,
      backupRef: Option<string>)
    requires id in db.approvals && RecordSuccess(cfg, Consume(db, id), id, req, op, changeId, backupRef).Some?
    ensures var next := RecordSuccess(cfg, Consume(db, id), id, req, op, changeId, backupRef).value;
            NewRowOf(db, next, changeId, req.toolName, backupRef)
  {
    hide GetText, TargetRef;
    SourceKnown(Consume(db, id), req);
    CandidateOnly(Consume(db, id), op);
    if RollbackSource(Consume(db, id), req).None? {
      hide UseCandidate;
    }
  }

  lemma {:induction false} FailureRow(
      db: Database, id: string, req: RunRequest, target: Option<string>, attemptId: string, change: string,
      tool: string, backup: Option<string>)
    requires id in db.approvals
    ensures NewRowOf(db, Failed(db, id, req, target, attemptId), change, tool, backup)
  {
  }

  lemma {:induction false} CleanupCompletes(
      cfg: Config, s: State, req: RunRequest, now: int, attemptId: string, changeId: string, backup: Option<string>)
    requires cfg.controlled && req.toolName == CLEANUP
    ensures var next := Apply(cfg, s, DoRun(0, req, false, now, attemptId, Succeeds(changeId, backup))).db;
            NewRowOf(s.db, next, changeId, CLEANUP, backup)
  {
    hide AdmittedApproval, Resolve, Outcome, RecordSuccess, Failed, TargetRef, NewRowOf, CompletionOf, BrokerManaged;
    NoNewRow(s.db, changeId, CLEANUP, backup);
    var admitted := AdmittedApproval(cfg, s.db, req);
    if admitted.Some? {
      AdmittedStatus(cfg, s.db, req);
      var id := admitted.value;
      FailureRow(s.db, id, req, None, attemptId, changeId, CLEANUP, backup);
      NotManaged(cfg, s.db, req);
      if Resolve(cfg, s.db, req).Some? {
        var op := Resolve(cfg, s.db, req).value.0;
        FailureRow(s.db, id, req, TargetRef(op), attemptId, changeId, CLEANUP, backup);
        if RecordSuccess(cfg, Consume(s.db, id), id, req, op, changeId, backup).Some? {
          SuccessRow(cfg, s.db, id, req, op, changeId, backup);
        }
      }
    }
  }

  lemma {:induction false} NoNewRow(db: Database, change: string, tool: string, backup: Option<string>)
    ensures NewRowOf(db, db, change, tool, backup)
  {
  }

  lemma {:induction false} NotManaged(cfg: Config, db: Database, req: RunRequest)
    requires req.toolName == CLEANUP
    ensures !BrokerManaged(cfg, db, req, false)
  {
    assert |CLEANUP| == 16 && |ROLLBACK| == 15 && |RESTART| == 15;
  }

  /** What is known of the archives after a cleanup: those of the other changes, and that of a new completed change. */
  ghost function Ledger(
      digests: map<string, string>, db: Database, next: Database, path: string, changeId: string, completed: bool,
      digest: string): map<string, string>
  {
    var others := Without(digests, db.executions, path);
    if completed && changeId in next.executions && changeId !in db.executions
       && next.executions[changeId].status == SUCCEEDED
    then others[changeId := digest] else others
  }

  lemma {:induction false} LedgerKept(
      disk: Disk, cfg: Config, s: State, before: Files, req: RunRequest, now: int, attemptId: string, ending: Ending,
      changeId: string, archive: string, changed: set<string>, path: string, digests: map<string, string>,
      digest: string)
    requires cfg.controlled && req.toolName == CLEANUP && Kept(disk.sha, disk.gzip, s.db.executions, before, digests)
    requires SameOutside(before, disk.files, changed) && forall p :: p in changed && p in before ==> p == path
    requires ending.Succeeds? ==>
      ending == Succeeds(changeId, Some(archive)) && Archives(disk.sha, disk.gzip, disk.files, archive, digest)
    ensures var next := Apply(cfg, s, DoRun(0, req, false, now, attemptId, ending)).db;
            Kept(disk.sha, disk.gzip, next.executions, disk.files,
                 Ledger(digests, s.db, next, path, changeId, ending.Succeeds?, digest))
  {
    hide Apply, KeptAt, Archives, SameOutside, RecordsStay, Without;
    var next := Apply(cfg, s, DoRun(0, req, false, now, attemptId, ending)).db;
    ApplyHolds(cfg, s, DoRun(0, req, false, now, attemptId, ending));
    KeptStays(disk.sha, disk.gzip, s.db, before, next, disk.files, changed, path, digests);
    if ending.Succeeds? {
      CleanupCompletes(cfg, s, req, now, attemptId, changeId, Some(archive));
      NewKeptAt(disk, s.db, next, changeId, archive, digest);
    }
  }

  lemma {:induction false} NewKeptAt(
      disk: Disk, db: Database, next: Database, changeId: string, archive: string, digest: string)
    requires NewRowOf(db, next, changeId, CLEANUP, Some(archive))
    requires Archives(disk.sha, disk.gzip, disk.files, archive, digest)
    ensures
      changeId in next.executions && changeId !in db.executions && next.executions[changeId].status == SUCCEEDED ==>
        KeptAt(disk.sha, disk.gzip, next.executions, disk.files, changeId, digest)
  {
    hide Archives;
  }

  function DigestOf(sha: Bytes -> string, files: Files, path: string): string {
    if path in files then sha(files[path]) else ""
  }

  /** A cleanup without a broker keeps the other archives, and a completed one adds its own. */
  method CleanUp(
      service: Service, executor: ControlledCleanupExecutor, req: RunRequest, world: Rules.World, use: Rules.UseState,
      now: int, nowNs: int, attemptId: string, changeId: string, unique: string, ghost policy: Rules.Policy,
      ghost actions: seq<Action>, ghost digests: map<string, string>)
    returns (ending: Ending, ghost kept: map<string, string>)
    requires Reached(service, policy, actions) && ArchivesKept(service, executor.disk, digests)
    requires req.toolName == CLEANUP && Unique(Obj(req.arguments)) && world.sha == service.cfg.sha
    requires Fitting(service.cfg, executor) && AllNamesFresh(service, executor, changeId, unique)
    modifies service, executor.disk, executor.approvals
    ensures Reached(service, policy, actions + [DoRun(0, req, false, now, attemptId, ending)])
    ensures ArchivesKept(service, executor.disk, kept)
    ensures
      match Requested(service.cfg, old(service.Rows()), req)
      case Some(DeleteFile(_, file)) =>
        kept == Ledger(
                  digests, old(service.Rows()), service.Rows(), file.path, changeId, ending.Succeeds?,
                  DigestOf(executor.disk.sha, old(executor.disk.files), file.path))
      case _ => kept == digests
  {
    hide After, LegalRun, FromClassifier, DeletionTraced, DotFree, SameOutside, Apply, Happened, Requested, Kept;
    hide Archives, ArchivePath, RestorePath, Ledger, StepHolds, GoneByEffect, Fitting, NamesFresh, NamesOf;
    ghost var s, before := service.Current(), executor.disk.files;
    RequestedCandidate(service, executor, changeId, unique, req);
    ending := RunCleanup(service, executor, req, world, use, now, nowNs, attemptId, changeId, unique, policy, actions);
    OneMore(service.cfg, policy, actions, DoRun(0, req, false, now, attemptId, ending));
    kept := digests;
    ghost var asked := Requested(service.cfg, s.db, req);
    if asked.Some? {
      var DeleteFile(_, file) := asked.value;
      var digest := DigestOf(executor.disk.sha, before, file.path);
      kept := Ledger(digests, s.db, service.Rows(), file.path, changeId, ending.Succeeds?, digest);
      LedgerKept(
        executor.disk, service.cfg, s, before, req, now, attemptId, ending, changeId,
        ArchivePath(executor.backupRoot, changeId, file.path), NamesOf(executor, changeId, unique, file.path),
        file.path, digests, digest);
    } else {
      RowsKeep(executor.disk, service.cfg, s, DoRun(0, req, false, now, attemptId, ending), digests);
    }
  }

  /** The names of the requested file are new. */
  lemma {:induction false} RequestedCandidate(
      service: Service, executor: ControlledCleanupExecutor, changeId: string, unique: string, req: RunRequest)
    requires service.cfg.controlled && req.toolName == CLEANUP && AllNamesFresh(service, executor, changeId, unique)
    ensures
      match Requested(service.cfg, service.Rows(), req)
      case Some(DeleteFile(_, file)) =>
        forall p :: p in NamesOf(executor, changeId, unique, file.path) && p in executor.disk.files ==> p == file.path
      case other => other == None
  {
    hide AdmittedApproval, Resolve, ArchivePath, RestorePath;
    if Requested(service.cfg, service.Rows(), req).Some? {
      CleanupResolves(service.cfg, service.Rows(), req);
      var DeleteFile(c, file) := Requested(service.cfg, service.Rows(), req).value;
      assert NamesFresh(executor, executor.disk.files, changeId, unique, service.candidates[c].snapshot.path);
    }
  }

  // ---------- a rollback by the API ----------

  lemma {:induction false} RestoreResolves(cfg: Config, db: Database, req: RunRequest)
    requires cfg.controlled && req.toolName == ROLLBACK
    requires Resolve(cfg, db, req).Some? && Resolve(cfg, db, req).value.0.RestoreFile?
    ensures var (op, arguments) := Resolve(cfg, db, req).value;
            && arguments == [Field("change_id", Str(op.changeId))]
            && op.changeId in db.executions && db.executions[op.changeId].toolName == CLEANUP
            && db.executions[op.changeId].targetRef == Some(op.target)
            && db.executions[op.changeId].backupRef == Some(op.backupRef)
    ensures !BrokerManaged(cfg, db, req, false)
  {
    hide GetText, OnlyText;
    assert |CLEANUP| == 16 && |ROLLBACK| == 15;
    assert CLEANUP[0] == 's' && ROLLBACK[0] == 'r' && RESTART[0] == 's';
  }

  function RestoredTo(world: Rules.World, raw: string): string {
    Paths.Join(Rules.TargetOf(world, raw))
  }

  ghost predicate RestoreNamesFresh(
      executions: map<string, Execution>, files: Files, world: Rules.World, unique: string)
  {
    forall e :: e in executions && executions[e].targetRef.Some? ==>
      var target := RestoredTo(world, executions[e].targetRef.value);
      RestorePath(target, unique) !in files && RestorePath(target, unique) != target
  }

  /** The call of the executor, and what the handler of `execution_run` makes of its end. */
  method PutBack(
      executor: ControlledCleanupExecutor, userId: string, taskId: string, token: string, change: string,
      backup: string, raw: string, world: Rules.World, now: int, unique: string)
    returns (ending: Ending)
    requires executor.approvals.consumed == {}
    requires var target := RestoredTo(world, raw);
             RestorePath(target, unique) !in executor.disk.files && RestorePath(target, unique) != target
    modifies executor.disk, executor.approvals
    ensures
      var disk, target := executor.disk, RestoredTo(world, raw);
      && (Happened(ending) <==> target !in old(disk.files) && target in disk.files)
      && SameOutside(old(disk.files), disk.files, {target, RestorePath(target, unique)})
      && (target in old(disk.files) ==> disk.files == old(disk.files))
    ensures
      var disk, approvals := executor.disk, executor.approvals;
      var scope := Scope(userId, taskId, ROLLBACK, Obj([Field("change_id", Str(change))]));
      Happened(ending) ==>
        && Outcome(approvals.sha, approvals.mac, approvals.secret, {}, token, scope, now).Ok?
        && backup in old(disk.files)
        && (!disk.schedule(old(disk.operations) + 1).Corrupts? ==>
            disk.gzip.unpack(old(disk.files)[backup]) == Some(disk.files[RestoredTo(world, raw)]))
  {
    hide Outcome, RestorePath, SameOutside, Rules.PathAllowed, NamesBackup, Rules.TargetOf, Paths.Join, WorksBetween;
    var before, target := executor.disk.files, Paths.Join(Rules.TargetOf(world, raw));
    var r := executor.ExecuteRollback(userId, taskId, change, backup, raw, token, world, now, unique);
    var appeared := target !in before && target in executor.disk.files;
    ending :=
      if r.Ok? then Succeeds(change, Some(backup))
      else if r.error == OS_ERROR then Crashes(appeared) else Refuses(appeared);
  }

  /** The effect is logged, and was approved, for the restoring of what a cleanup of the same task archived. */
  ghost predicate RestoredByEffect(service: Service, n: nat, op: Operation)
    reads service
  {
    && n < |service.trace| && service.trace[n].Effect? && service.trace[n].grant.operation == op
    && EffectTraced(service.cfg, service.trace, n)
  }

  lemma {:induction false} RunRestores(
      cfg: Config, policy: Rules.Policy, actions: seq<Action>, req: RunRequest, now: int, attemptId: string,
      ending: Ending)
    requires cfg.controlled && DotFree(cfg.mac) && LegalRun(actions) && FromClassifier(cfg.sha, policy, actions)
    requires req.toolName == ROLLBACK && Unique(Obj(req.arguments)) && Happened(ending)
    requires var db := After(cfg, actions).db;
             && AdmittedApproval(cfg, db, req).Some? && Resolve(cfg, db, req).Some?
             && Resolve(cfg, db, req).value.0.RestoreFile?
             && TokenAccepted(cfg, {}, req, Resolve(cfg, db, req).value.1, now)
    ensures var s, s' := After(cfg, actions), After(cfg, actions + [DoRun(0, req, false, now, attemptId, ending)]);
            && |s'.trace| > |s.trace| && s'.trace[|s.trace|].Effect?
            && s'.trace[|s.trace|].grant.operation == Resolve(cfg, s.db, req).value.0
            && EffectTraced(cfg, s'.trace, |s.trace|)
  {
    hide After, Resolve, AdmittedApproval, BrokerManaged, RunDirect, TokenAccepted, LegalRun, FromClassifier;
    hide EffectTrail;
    var s, a := After(cfg, actions), DoRun(0, req, false, now, attemptId, ending);
    OneMore(cfg, policy, actions, a);
    AdmittedStatus(cfg, s.db, req);
    RestoreResolves(cfg, s.db, req);
    DirectGrant(cfg, s, AdmittedApproval(cfg, s.db, req).value, req, now, attemptId, ending);
    EffectsWereApproved(cfg, actions + [a], |s.trace|);
  }

  /** A file unpacked from a kept archive has the digest of its change. */
  lemma {:induction false} RestoredDigest(
      disk: Disk, executions: map<string, Execution>, before: Files, change: string, backup: string, target: string,
      digests: map<string, string>)
    requires Kept(disk.sha, disk.gzip, executions, before, digests) && change in digests
    requires change in executions && executions[change].backupRef == Some(backup)
    requires backup in before && target in disk.files && disk.gzip.unpack(before[backup]) == Some(disk.files[target])
    ensures HasDigest(disk.sha, disk.files, target, digests[change])
  {
    assert KeptAt(disk.sha, disk.gzip, executions, before, change, digests[change]);
  }

  /** When only names change that were new, every archive stays. */
  lemma {:induction false} NewNamesKeep(
      disk: Disk, executions: map<string, Execution>, before: Files, changed: set<string>, digests: map<string, string>)
    requires Kept(disk.sha, disk.gzip, executions, before, digests) && SameOutside(before, disk.files, changed)
    requires disk.files == before || forall p :: p in changed ==> p !in before
    ensures Kept(disk.sha, disk.gzip, executions, disk.files, digests)
  {
    hide Archives;
    forall change | change in digests
      ensures KeptAt(disk.sha, disk.gzip, executions, disk.files, change, digests[change])
    {
      assert KeptAt(disk.sha, disk.gzip, executions, before, change, digests[change]);
      StillArchived(disk, before, executions[change].backupRef.value, changed, digests[change]);
    }
  }

  lemma {:induction false} StillArchived(
      disk: Disk, before: Files, archive: string, changed: set<string>, digest: string)
    requires SameOutside(before, disk.files, changed) && Archives(disk.sha, disk.gzip, before, archive, digest)
    requires disk.files == before || forall p :: p in changed ==> p !in before
    ensures Archives(disk.sha, disk.gzip, disk.files, archive, digest)
  {
  }

  /** What a rollback of the change did to the disk, when the archives before it held the digests. */
  ghost predicate Restored(
      disk: Disk, before: Files, corrupt: bool, change: string, target: string, digests: map<string, string>)
    reads disk
  {
    && target !in before && target in disk.files
    && (change in digests && !corrupt ==> HasDigest(disk.sha, disk.files, target, digests[change]))
  }

  /** Putting back what the archive of a recorded change holds. */
  method RestoreRecorded(
      executor: ControlledCleanupExecutor, req: RunRequest, change: string, backup: string, raw: string,
      world: Rules.World, now: int, unique: string, ghost executions: map<string, Execution>,
      ghost digests: map<string, string>)
    returns (ending: Ending)
    requires executor.approvals.consumed == {} && req.toolName == ROLLBACK
    requires Kept(executor.disk.sha, executor.disk.gzip, executions, executor.disk.files, digests)
    requires change in executions && executions[change].targetRef == Some(raw)
    requires executions[change].backupRef == Some(backup)
    requires RestoreNamesFresh(executions, executor.disk.files, world, unique)
    modifies executor.disk, executor.approvals
    ensures Kept(executor.disk.sha, executor.disk.gzip, executions, executor.disk.files, digests)
    ensures
      var disk, target := executor.disk, RestoredTo(world, raw);
      && (Happened(ending) <==> target !in old(disk.files) && target in disk.files)
      && SameOutside(old(disk.files), disk.files, {target, RestorePath(target, unique)})
      && (Happened(ending) ==>
          Restored(
            disk, old(disk.files), disk.schedule(old(disk.operations) + 1).Corrupts?, change, target, digests))
    ensures
      var approvals := executor.approvals;
      var scope := Scope(req.userId, req.taskId, req.toolName, Obj([Field("change_id", Str(change))]));
      Happened(ending) ==> Outcome(approvals.sha, approvals.mac, approvals.secret, {}, req.token, scope, now).Ok?
  {
    hide SameOutside, Happened, Kept, Archives, HasDigest, RestorePath, RestoredTo, Outcome;
    ghost var before, target := executor.disk.files, RestoredTo(world, raw);
    ending := PutBack(executor, req.userId, req.taskId, req.token, change, backup, raw, world, now, unique);
    if Happened(ending) && change in digests
       && executor.disk.gzip.unpack(before[backup]) == Some(executor.disk.files[target]) {
      RestoredDigest(executor.disk, executions, before, change, backup, target, digests);
    }
    NewNamesKeep(executor.disk, executions, before, {target, RestorePath(target, unique)}, digests);
  }

  /**
   `execution_run` of the rollback of a cleanup without a broker. The file appears if and only if the effect is logged
   as having happened; the effect was approved and belongs to a cleanup of the same task; and unless the write was
   corrupted without a sign, the file has the digest that this cleanup archived. No archive is touched.
   */
  method RunRestore(
      service: Service, executor: ControlledCleanupExecutor, req: RunRequest, world: Rules.World, now: int,
      attemptId: string, unique: string, ghost policy: Rules.Policy, ghost actions: seq<Action>,
      ghost digests: map<string, string>)
    returns (ending: Ending)
    requires Reached(service, policy, actions) && ArchivesKept(service, executor.disk, digests)
    requires req.toolName == ROLLBACK && Unique(Obj(req.arguments))
    requires Fitting(service.cfg, executor)
    requires RestoreNamesFresh(service.executions, executor.disk.files, world, unique)
    requires var asked := Requested(service.cfg, service.Rows(), req);
             asked.Some? ==> asked.value.RestoreFile?
    modifies service, executor.disk, executor.approvals
    ensures Reached(service, policy, actions + [DoRun(0, req, false, now, attemptId, ending)])
    ensures ArchivesKept(service, executor.disk, digests)
    ensures
      var asked := Requested(service.cfg, old(service.Rows()), req);
      if asked.None? then executor.disk.files == old(executor.disk.files)
      else
        var target := RestoredTo(world, asked.value.target);
        && (Happened(ending) <==> target !in old(executor.disk.files) && target in executor.disk.files)
        && SameOutside(old(executor.disk.files), executor.disk.files, {target, RestorePath(target, unique)})
        && (Happened(ending) ==>
            && RestoredByEffect(service, |old(service.trace)|, asked.value)
            && Restored(
                 executor.disk, old(executor.disk.files),
                 executor.disk.schedule(old(executor.disk.operations) + 1).Corrupts?, asked.value.changeId, target,
                 digests))
  {
    hide After, Resolve, AdmittedApproval, LegalRun, FromClassifier, DotFree, SameOutside, Apply, Happened, Kept;
    hide EffectTraced, Archives, HasDigest, RestorePath, RestoredTo, RestoreNamesFresh, Restored, Outcome, Unique;
    ghost var s := service.Current();
    ending := Rejects;
    var admitted := service.Admit(req);
    if admitted.Some? {
      var db := Database(service.tasks, service.approvals, service.candidates, service.processes, service.executions);
      var resolved := Resolve(service.cfg, db, req);
      if resolved.Some? {
        RestoreResolves(service.cfg, service.Rows(), req);
        var RestoreFile(change, backup, raw) := resolved.value.0;
        ending := RestoreRecorded(
          executor, req, change, backup, raw, world, now, unique, service.executions, digests);
        if Happened(ending) {
          RunRestores(service.cfg, policy, actions, req, now, attemptId, ending);
        }
      }
    }
    RowsKeep(executor.disk, service.cfg, s, DoRun(0, req, false, now, attemptId, ending), digests);
    OneMore(service.cfg, policy, actions, DoRun(0, req, false, now, attemptId, ending));
    service.ExecutionRun(0, req, false, now, attemptId, ending);
  }

  // ---------- a rollback by the broker ----------

  function RollbackArguments(op: Operation, backupRoot: string): seq<string>
    requires op.RestoreFile?
  {
    [ACTION_CLEANUP_ROLLBACK, op.changeId, op.backupRef, op.target, backupRoot]
  }

  /** What a connection is about to restore is still what the table says. */
  lemma {:induction false} SelectedIsRecorded(cfg: Config, actions: seq<Action>, connection: nat)
    requires DotFree(cfg.mac) && LegalRun(actions)
    requires var s := After(cfg, actions);
             connection in s.connections && s.connections[connection].Selected?
             && s.connections[connection].operation.RestoreFile?
    ensures var s := After(cfg, actions);
            var op := s.connections[connection].operation;
            op.changeId in s.db.executions && s.db.executions[op.changeId].backupRef == Some(op.backupRef)
  {
    hide After, RowsTraced, FilesTraced, ChangesTraced, SessionsOk, EffectsTraced, OneGrant, CommittedIsLast;
    hide CommittedConsumed, OperationTraced;
    RunsKeep(cfg, actions);
    var s := After(cfg, actions);
    assert PhaseTraced(cfg, s.db, s.trace, s.connections[connection]);
    RestoreIsRecorded(cfg, actions, s.connections[connection].call.taskId, s.connections[connection].operation);
  }

  lemma {:induction false} UpdateRestores(cfg: Config, policy: Rules.Policy, actions: seq<Action>, connection: nat)
    requires DotFree(cfg.mac) && LegalRun(actions) && FromClassifier(cfg.sha, policy, actions)
    requires var s := After(cfg, actions);
             && connection in s.connections && s.connections[connection].Selected?
             && UpdateHits(cfg, s.db, s.connections[connection].approvalId, s.connections[connection].call)
    ensures var s, s' := After(cfg, actions), After(cfg, actions + [DoUpdate(connection)]);
            && |s'.trace| > |s.trace| && s'.trace[|s.trace|].Effect?
            && s'.trace[|s.trace|].grant.operation == s.connections[connection].operation
            && EffectTraced(cfg, s'.trace, |s.trace|)
  {
    hide After, UpdateHits, LegalRun, FromClassifier, EffectTrail, ExpectedTool, ExpectedArguments;
    OneMore(cfg, policy, actions, DoUpdate(connection));
    EffectsWereApproved(cfg, actions + [DoUpdate(connection)], |After(cfg, actions).trace|);
  }

  /** The helper on the archive of a recorded change. */
  method HelperRestore(
      disk: Disk, world: Rules.World, op: Operation, backupRoot: string, printed: bool,
      ghost executions: map<string, Execution>, ghost digests: map<string, string>)
    returns (code: int)
    requires op.RestoreFile? && Kept(disk.sha, disk.gzip, executions, disk.files, digests)
    requires op.changeId in executions && executions[op.changeId].backupRef == Some(op.backupRef)
    modifies disk
    ensures Kept(disk.sha, disk.gzip, executions, disk.files, digests)
    ensures
      var argv := RollbackArguments(op, backupRoot);
      code == 0 && BackupFile(world, argv) == op.backupRef ==>
        Restored(
          disk, old(disk.files), disk.schedule(old(disk.operations) + 1).Corrupts?, op.changeId,
          RestoreTarget(world, argv), digests)
  {
    hide Kept, Archives, HasDigest, BackupFile, RestoreTarget, SameOutside, WorksBetween, RestoreTargetAccepted;
    ghost var before := disk.files;
    var argv := RollbackArguments(op, backupRoot);
    ghost var target := RestoreTarget(world, argv);
    code := CleanupRollback(world, disk, argv, printed);
    NewNamesKeep(disk, executions, before, {target}, digests);
    if code == 0 && BackupFile(world, argv) == op.backupRef && op.changeId in digests
       && disk.gzip.unpack(before[op.backupRef]) == Some(disk.files[target]) {
      RestoredDigest(disk, executions, before, op.changeId, op.backupRef, target, digests);
    }
  }

  /**
   The last step of a connection and the helper it runs, for the rollback of a cleanup: files change only when the
   guarded UPDATE hits, with an approved effect, and what exit code 0 leaves at the target has the digest that the
   cleanup archived. No archive is touched.
   */
  method RunBrokeredRestore(
      service: Service, connection: nat, disk: Disk, world: Rules.World, backupRoot: string, printed: bool,
      ghost policy: Rules.Policy, ghost actions: seq<Action>, ghost digests: map<string, string>)
    returns (r: Result<int>)
    requires Reached(service, policy, actions) && ArchivesKept(service, disk, digests)
    requires connection in service.connections && service.connections[connection].Selected?
    requires service.connections[connection].operation.RestoreFile?
    modifies service`connections, service`approvals, service`trace, disk
    ensures Reached(service, policy, actions + [DoUpdate(connection)])
    ensures ArchivesKept(service, disk, digests)
    ensures r.Ok? <==> service.connections[connection].Granted?
    ensures r.Err? ==> disk.files == old(disk.files)
    ensures
      var op := old(service.connections)[connection].operation;
      var argv := RollbackArguments(op, backupRoot);
      && (r.Ok? ==> RestoredByEffect(service, |old(service.trace)|, op))
      && (r == Ok(0) && BackupFile(world, argv) == op.backupRef ==>
          Restored(
            disk, old(disk.files), disk.schedule(old(disk.operations) + 1).Corrupts?, op.changeId,
            RestoreTarget(world, argv), digests))
  {
    hide After, LegalRun, FromClassifier, EffectTraced, DotFree, Apply, Update, UpdateHits, Kept, Restored;
    hide BackupFile, RestoreTarget;
    ghost var s := service.Current();
    var op := service.connections[connection].operation;
    SelectedIsRecorded(service.cfg, actions, connection);
    OneMore(service.cfg, policy, actions, DoUpdate(connection));
    UpdateStep(service.cfg, s, connection);
    var granted := service.ConsumeApproval(connection);
    if granted.Err? {
      return Err(granted.error);
    }
    var code := HelperRestore(disk, world, op, backupRoot, printed, service.executions, digests);
    UpdateRestores(service.cfg, policy, actions, connection);
    r := Ok(code);
  }
}
