/**
 Whole requests: the rows of the protocol together with the executors that change files. A file that is gone afterwards
 was shown to the classifier, recorded for the task of the approval, and is unchanged since then.
 */
module ControlledRun {
  import opened Wrappers
  import opened Json
  import opened JsonProofs
  import opened Utf8
  import opened Tokens
  import opened FaultyDisk
  import opened BrokerWire
  import opened ApprovalProtocol
  import opened ApprovalInvariant
  import opened ApprovalSteps
  import opened ApprovalRuns
  import opened ApprovalEffects
  import opened ApprovalService
  import opened ClassifiedFiles
  import opened CleanupExecutor
  import opened PrivilegedHelper
  import Rules = CleanupRules
  import Refusals = CleanupRefusals
  import Paths

  /** The service is where the run of `actions` leads, whose candidates come from the classifier. */
  ghost predicate Reached(service: Service, policy: Rules.Policy, actions: seq<Action>)
    reads service
  {
    && service.Valid() && service.cfg.controlled && DotFree(service.cfg.mac)
    && LegalRun(actions) && FromClassifier(service.cfg.sha, policy, actions)
    && service.Current() == After(service.cfg, actions)
  }

  lemma {:induction false} OneMore(cfg: Config, policy: Rules.Policy, actions: seq<Action>, a: Action)
    requires LegalRun(actions) && FromClassifier(cfg.sha, policy, actions)
    requires Legal(a) && (a.DoRunTask? ==> FileShown(cfg.sha, policy, a.finding.snapshot))
    ensures LegalRun(actions + [a]) && FromClassifier(cfg.sha, policy, actions + [a])
    ensures After(cfg, actions + [a]) == Apply(cfg, After(cfg, actions), a)
  {
    hide Legal, FileShown, Apply;
    assert (actions + [a])[..|actions + [a]| - 1] == actions;
  }

  // ---------- an agent run ----------

  function FindingOf(c: Rules.Candidate): Finding {
    Finding(c.candidateId, SnapshotOf(c))
  }

  const MAX_LISTED := 100

  ghost predicate Eligible(policy: Rules.Policy, s: Sighting) {
    Rules.Classified(s.world, policy, s.raw, s.use, s.nowNs)
  }

  /** What the classifier finds eligible among the files it is shown, in their order. */
  ghost function Findings(policy: Rules.Policy, shown: seq<Sighting>): seq<Finding> {
    if shown == [] then []
    else
      var before, last := Findings(policy, shown[..|shown| - 1]), shown[|shown| - 1];
      if !Eligible(policy, last) then before
      else before + [FindingOf(Rules.CandidateOf(last.world.sha, Target(last), last.world.kind(Target(last)).meta))]
  }

  ghost predicate SeenBy(sha: Sha, shown: seq<Sighting>) {
    forall i :: 0 <= i < |shown| ==> shown[i].world.sha == sha && Rules.CleanWorld(shown[i].world)
  }

  lemma {:induction false} FindingsAreShown(sha: Sha, policy: Rules.Policy, shown: seq<Sighting>)
    requires SeenBy(sha, shown)
    ensures forall i :: 0 <= i < |Findings(policy, shown)| ==>
      FileShown(sha, policy, Findings(policy, shown)[i].snapshot)
    decreases |shown|
  {
    hide Rules.Eligible, Rules.Guarded, Rules.CandidateOf, Rules.TargetOf;
    if shown != [] {
      var last := shown[|shown| - 1];
      FindingsAreShown(sha, policy, shown[..|shown| - 1]);
      if Eligible(policy, last) {
        var c := Rules.CandidateOf(sha, Target(last), last.world.kind(Target(last)).meta);
        assert Shows(sha, policy, last, SnapshotOf(c));
      }
    }
  }

  /** Only the first of the listed files are looked at. */
  function LookedAt(listed: seq<Sighting>): seq<Sighting> {
    if |listed| <= MAX_LISTED then listed else listed[..MAX_LISTED]
  }

  method ClassifyAll(classifier: Rules.CleanupCandidateClassifier, listed: seq<Sighting>)
    returns (findings: seq<Finding>)
    requires classifier.guard.roots == classifier.policy.roots
    requires classifier.guard.protectedPaths == classifier.policy.protectedPaths
    ensures findings == Findings(classifier.policy, LookedAt(listed))
  {
    hide Rules.Eligible, Rules.Guarded, Rules.CandidateOf, Rules.TargetOf;
    var shown := LookedAt(listed);
    findings := [];
    for n := 0 to |shown|
      invariant findings == Findings(classifier.policy, shown[..n])
    {
      var s := shown[n];
      var d := classifier.Classify(s.world, s.raw, s.use, s.nowNs);
      assert shown[..n + 1][..n] == shown[..n];
      if d.candidate.Some? {
        findings := findings + [FindingOf(d.candidate.value)];
      }
    }
    assert shown[..|shown|] == shown;
  }

  /** `run_task`: what the classifier finds is recorded. */
  method RunTask(
      service: Service, classifier: Rules.CleanupCandidateClassifier, task: string, listed: seq<Sighting>,
      ghost actions: seq<Action>)
    returns (findings: seq<Finding>)
    requires Reached(service, classifier.policy, actions) && SeenBy(service.cfg.sha, listed)
    requires classifier.guard.roots == classifier.policy.roots
    requires classifier.guard.protectedPaths == classifier.policy.protectedPaths
    modifies service`candidates, service`trace
    ensures findings == Findings(classifier.policy, LookedAt(listed))
    ensures Reached(service, classifier.policy, actions + FindingActions(task, findings))
  {
    hide After, RunFrom, FileShown, LegalRun, FromClassifier, Findings, Rules.CleanWorld;
    findings := ClassifyAll(classifier, listed);
    FindingsAreShown(service.cfg.sha, classifier.policy, LookedAt(listed));
    ManyMore(service.cfg, classifier.policy, actions, task, findings);
    var _ := service.RecordFindings(task, findings);
  }

  lemma {:induction false} ManyMore(cfg: Config, policy: Rules.Policy, actions: seq<Action>, task: string,
      findings: seq<Finding>)
    requires LegalRun(actions) && FromClassifier(cfg.sha, policy, actions)
    requires forall i :: 0 <= i < |findings| ==> FileShown(cfg.sha, policy, findings[i].snapshot)
    ensures LegalRun(actions + FindingActions(task, findings))
    ensures FromClassifier(cfg.sha, policy, actions + FindingActions(task, findings))
    ensures After(cfg, actions + FindingActions(task, findings))
            == RunFrom(cfg, After(cfg, actions), FindingActions(task, findings))
    decreases |findings|
  {
    hide FileShown, Apply;
    if findings == [] {
      assert actions + FindingActions(task, findings) == actions;
    } else {
      var init, last := findings[..|findings| - 1], findings[|findings| - 1];
      ManyMore(cfg, policy, actions, task, init);
      var more := actions + FindingActions(task, init);
      assert more + [DoRunTask(task, last)] == actions + FindingActions(task, findings);
      assert FindingActions(task, findings)[..|findings| - 1] == FindingActions(task, init);
      OneMore(cfg, policy, more, DoRunTask(task, last));
    }
  }

  // ---------- a cleanup by the API ----------

  /** The names under which the executor will write are new. */
  ghost predicate NamesFresh(executor: ControlledCleanupExecutor, files: Files, changeId: string, unique: string,
      path: string) {
    var restore := RestorePath(path, unique);
    var archive := ArchivePath(executor.backupRoot, changeId, path);
    archive !in files && restore !in files && restore != archive
  }

  ghost predicate AllNamesFresh(
      service: Service, executor: ControlledCleanupExecutor, changeId: string, unique: string)
    reads service, executor.disk
  {
    forall c :: c in service.candidates ==>
      NamesFresh(executor, executor.disk.files, changeId, unique, service.candidates[c].snapshot.path)
  }

  /** The executor of one request: its guard is that of its policy, and its token manager is new. */
  ghost predicate Fitting(cfg: Config, executor: ControlledCleanupExecutor)
    reads executor.approvals
  {
    && executor.classifier.guard.roots == executor.classifier.policy.roots
    && executor.classifier.guard.protectedPaths == executor.classifier.policy.protectedPaths
    && executor.approvals.sha == cfg.sha && executor.approvals.mac == cfg.mac && executor.approvals.secret == cfg.secret
    && executor.approvals.consumed == {}
  }

  /**
   The candidate and file that the request asks to delete, when its approval is admitted and its candidate resolves.
   */
  ghost function Requested(cfg: Config, db: Database, req: RunRequest): Option<Operation> {
    if AdmittedApproval(cfg, db, req).Some? && Resolve(cfg, db, req).Some? then Some(Resolve(cfg, db, req).value.0)
    else None
  }

  lemma {:induction false} CleanupResolves(cfg: Config, db: Database, req: RunRequest)
    requires cfg.controlled && req.toolName == CLEANUP && Resolve(cfg, db, req).Some?
    ensures var (op, arguments) := Resolve(cfg, db, req).value;
            && op.DeleteFile? && op.candidateId in db.candidates && op.file == db.candidates[op.candidateId].snapshot
            && arguments == [Field("candidate_id", Str(op.candidateId))]
    ensures !BrokerManaged(cfg, db, req, false)
  {
    hide OnlyText;
    assert |CLEANUP| == 16 && |ROLLBACK| == 15 && |RESTART| == 15;
  }

  lemma {:induction false} DirectGrant(cfg: Config, s: State, id: string, req: RunRequest, now: int, attemptId: string,
      ending: Ending)
    requires cfg.controlled && id in s.db.approvals && Resolve(cfg, s.db, req).Some? && Happened(ending)
    requires TokenAccepted(cfg, {}, req, Resolve(cfg, s.db, req).value.1, now)
    ensures var s' := RunDirect(cfg, s, id, req, now, attemptId, ending);
            && |s'.trace| > |s.trace| && s'.trace[|s.trace|].Effect?
            && s'.trace[|s.trace|].grant.operation == Resolve(cfg, s.db, req).value.0
  {
    hide Resolve, Outcome, Settle;
  }

  /** The file of a request that was run is gone because of a traced effect. */
  ghost predicate GoneByEffect(service: Service, policy: Rules.Policy, n: nat, file: Snapshot, world: Rules.World)
    reads service
  {
    && n < |service.trace| && service.trace[n].Effect? && service.trace[n].grant.operation.DeleteFile?
    && service.trace[n].grant.operation.file == file && DeletionTraced(service.cfg, policy, service.trace, n, world)
  }

  lemma {:induction false} RunDeletes(
      cfg: Config, policy: Rules.Policy, actions: seq<Action>, req: RunRequest, now: int, attemptId: string,
      ending: Ending, world: Rules.World)
    requires cfg.controlled && DotFree(cfg.mac) && LegalRun(actions) && FromClassifier(cfg.sha, policy, actions)
    requires req.toolName == CLEANUP && Unique(Obj(req.arguments)) && Happened(ending) && world.sha == cfg.sha
    requires var db := After(cfg, actions).db;
             && AdmittedApproval(cfg, db, req).Some? && Resolve(cfg, db, req).Some?
             && TokenAccepted(cfg, {}, req, Resolve(cfg, db, req).value.1, now)
             && Resolve(cfg, db, req).value.0.DeleteFile?
             && var DeleteFile(c, file) := Resolve(cfg, db, req).value.0;
                Rules.StillFrozen(world, CandidateOfRow(c, file))
    ensures var s, s' := After(cfg, actions), After(cfg, actions + [DoRun(0, req, false, now, attemptId, ending)]);
            && |s'.trace| > |s.trace| && s'.trace[|s.trace|].Effect?
            && s'.trace[|s.trace|].grant.operation == Resolve(cfg, s.db, req).value.0
            && DeletionTraced(cfg, policy, s'.trace, |s.trace|, world)
  {
    hide After, Resolve, AdmittedApproval, BrokerManaged, RunDirect, TokenAccepted, LegalRun, FromClassifier;
    hide DeletionTraced, StillAsShown, FileShown;
    hide Rules.StillFrozen;
    var s, a := After(cfg, actions), DoRun(0, req, false, now, attemptId, ending);
    var op := Resolve(cfg, s.db, req).value.0;
    OneMore(cfg, policy, actions, a);
    AdmittedStatus(cfg, s.db, req);
    CleanupResolves(cfg, s.db, req);
    DirectGrant(cfg, s, AdmittedApproval(cfg, s.db, req).value, req, now, attemptId, ending);
    if FileShown(cfg.sha, policy, op.file) {
      FrozenIsUnchanged(cfg.sha, policy, op.candidateId, op.file, world);
    }
    FrozenDeletionTraced(cfg, policy, actions + [a], |s.trace|, world);
  }

  /** The call of the executor, and what the handler of `execution_run` makes of its end. */
  method Delete(
      executor: ControlledCleanupExecutor, userId: string, taskId: string, token: string, c: string, file: Snapshot,
      world: Rules.World, use: Rules.UseState, now: int, nowNs: int, changeId: string, unique: string)
    returns (ending: Ending)
    requires executor.classifier.guard.roots == executor.classifier.policy.roots
    requires executor.classifier.guard.protectedPaths == executor.classifier.policy.protectedPaths
    requires executor.approvals.consumed == {} && NamesFresh(executor, executor.disk.files, changeId, unique, file.path)
    modifies executor.disk, executor.approvals
    ensures Happened(ending) <==> file.path in old(executor.disk.files) && file.path !in executor.disk.files
    ensures SameOutside(old(executor.disk.files), executor.disk.files, NamesOf(executor, changeId, unique, file.path))
    ensures
      var approvals := executor.approvals;
      var scope := Scope(userId, taskId, CLEANUP, Obj([Field("candidate_id", Str(c))]));
      Happened(ending) ==>
        && Outcome(approvals.sha, approvals.mac, approvals.secret, {}, token, scope, now).Ok?
        && Rules.Classified(world, executor.classifier.policy, file.path, use, nowNs) && use != Rules.OPEN
        && Rules.StillFrozen(world, CandidateOfRow(c, file))
    ensures ending.Succeeds? ==>
      && ending == Succeeds(changeId, Some(ArchivePath(executor.backupRoot, changeId, file.path)))
      && file.path in old(executor.disk.files)
      && Archives(
           executor.disk.sha, executor.disk.gzip, executor.disk.files,
           ArchivePath(executor.backupRoot, changeId, file.path),
           executor.disk.sha(old(executor.disk.files)[file.path]))
  {
    hide Outcome, Rules.Classified, Rules.StillFrozen, ArchivePath, RestorePath, NeverLost, SameOutside, Archives;
    hide RoundTrips, OneFault;
    var before := executor.disk.files;
    Refusals.OpenIsRefused(world, executor.classifier.policy, file.path, nowNs);
    var r := executor.ExecuteApproved(userId, taskId, CandidateOfRow(c, file), token, world, use, now, nowNs, changeId,
      unique);
    var gone := file.path in before && file.path !in executor.disk.files;
    ending :=
      if r.Ok? then Succeeds(r.value.changeId, Some(r.value.backupRef))
      else if r.error == OS_ERROR then Crashes(gone) else Refuses(gone);
  }

  ghost function NamesOf(executor: ControlledCleanupExecutor, changeId: string, unique: string,
      path: string): set<string> {
    {path, ArchivePath(executor.backupRoot, changeId, path), RestorePath(path, unique)}
  }

  /**
   `execution_run` of a cleanup without a broker. A file is gone afterwards if and only if the effect is logged as
   having happened, and then nobody had it open and the effect is traced back to what the classifier saw.
   */
  method RunCleanup(
      service: Service, executor: ControlledCleanupExecutor, req: RunRequest, world: Rules.World, use: Rules.UseState,
      now: int, nowNs: int, attemptId: string, changeId: string, unique: string, ghost policy: Rules.Policy,
      ghost actions: seq<Action>)
    returns (ending: Ending)
    requires Reached(service, policy, actions) && req.toolName == CLEANUP && Unique(Obj(req.arguments))
    requires world.sha == service.cfg.sha
    requires Fitting(service.cfg, executor) && AllNamesFresh(service, executor, changeId, unique)
    modifies service, executor.disk, executor.approvals
    ensures Reached(service, policy, actions + [DoRun(0, req, false, now, attemptId, ending)])
    ensures
      match Requested(service.cfg, old(service.Rows()), req)
      case Some(DeleteFile(_, file)) =>
        && (Happened(ending) <==> file.path in old(executor.disk.files) && file.path !in executor.disk.files)
        && (Happened(ending) ==> use != Rules.OPEN)
        && SameOutside(old(executor.disk.files), executor.disk.files, NamesOf(executor, changeId, unique, file.path))
        && (Happened(ending) ==> GoneByEffect(service, policy, |old(service.trace)|, file, world))
        && (ending.Succeeds? ==>
            && ending == Succeeds(changeId, Some(ArchivePath(executor.backupRoot, changeId, file.path)))
            && file.path in old(executor.disk.files)
            && Archives(
                 executor.disk.sha, executor.disk.gzip, executor.disk.files,
                 ArchivePath(executor.backupRoot, changeId, file.path),
                 executor.disk.sha(old(executor.disk.files)[file.path])))
      case _ => executor.disk.files == old(executor.disk.files)
  {
    hide After, Resolve, AdmittedApproval, LegalRun, FromClassifier, DeletionTraced, DotFree, SameOutside, Apply;
    hide Happened, Rules.StillFrozen;
    hide Rules.Classified, NamesOf, Archives, ArchivePath;
    ending := Rejects;
    var admitted := service.Admit(req);
    if admitted.Some? {
      var db := Database(service.tasks, service.approvals, service.candidates, service.processes, service.executions);
      var resolved := Resolve(service.cfg, db, req);
      if resolved.Some? {
        CleanupResolves(service.cfg, service.Rows(), req);
        var DeleteFile(c, file) := resolved.value.0;
        ending := Delete(executor, req.userId, req.taskId, req.token, c, file, world, use, now, nowNs, changeId,
          unique);
        if Happened(ending) {
          RunDeletes(service.cfg, policy, actions, req, now, attemptId, ending, world);
        }
      }
    }
    OneMore(service.cfg, policy, actions, DoRun(0, req, false, now, attemptId, ending));
    service.ExecutionRun(0, req, false, now, attemptId, ending);
  }

  // ---------- a cleanup by the broker ----------

  lemma {:induction false} AcceptedIsStillFrozen(world: Rules.World, argv: seq<string>, id: string, file: Snapshot)
    requires Accepts(world, argv) && argv[2] == file.path && argv[6] == file.snapshotHash
    ensures Rules.StillFrozen(world, CandidateOfRow(id, file))
  {
    hide Rules.SnapshotHash, ReadInt, BackupRootAccepted, AllowedPath, Rules.UnderAny, Rules.EndsWithAny;
    hide Rules.ContainsAny, Paths.Split, Paths.Join, Paths.Normalize;
    var meta :| RequestAccepted(world, argv, meta);
    assert Rules.PartsOf(world, argv[2]) == Paths.Split(argv[2]);
  }

  lemma {:induction false} UpdateDeletes(
      cfg: Config, policy: Rules.Policy, actions: seq<Action>, connection: nat, world: Rules.World, argv: seq<string>)
    requires cfg.controlled && DotFree(cfg.mac) && LegalRun(actions) && FromClassifier(cfg.sha, policy, actions)
    requires world.sha == cfg.sha
    requires var s := After(cfg, actions);
             && connection in s.connections && s.connections[connection].Selected?
             && UpdateHits(cfg, s.db, s.connections[connection].approvalId, s.connections[connection].call)
             && s.connections[connection].operation.DeleteFile?
             && Accepts(world, argv) && argv[2] == s.connections[connection].operation.file.path
             && argv[6] == s.connections[connection].operation.file.snapshotHash
    ensures var s, s' := After(cfg, actions), After(cfg, actions + [DoUpdate(connection)]);
            && |s'.trace| > |s.trace| && s'.trace[|s.trace|].Effect?
            && s'.trace[|s.trace|].grant.operation == s.connections[connection].operation
            && DeletionTraced(cfg, policy, s'.trace, |s.trace|, world)
  {
    hide After, UpdateHits, LegalRun, FromClassifier, DeletionTraced, StillAsShown, FileShown, Accepts;
    hide Rules.StillFrozen, ExpectedTool, ExpectedArguments;
    var s := After(cfg, actions);
    var DeleteFile(c, file) := s.connections[connection].operation;
    OneMore(cfg, policy, actions, DoUpdate(connection));
    AcceptedIsStillFrozen(world, argv, c, file);
    if FileShown(cfg.sha, policy, file) {
      FrozenIsUnchanged(cfg.sha, policy, c, file, world);
    }
    FrozenDeletionTraced(cfg, policy, actions + [DoUpdate(connection)], |s.trace|, world);
  }

  lemma {:induction false} UpdateStep(cfg: Config, s: State, connection: nat)
    ensures Apply(cfg, s, DoUpdate(connection)) == Update(cfg, s, connection)
    ensures connection in s.connections && s.connections[connection].Selected? ==>
      (connection in Update(cfg, s, connection).connections
       && (Update(cfg, s, connection).connections[connection].Granted? <==>
           UpdateHits(cfg, s.db, s.connections[connection].approvalId, s.connections[connection].call)))
  {
    hide UpdateHits, BrokerGrant;
  }

  /** The file that the helper takes a path to name, and the archive that it makes of it. */
  function HelperTarget(path: string): string {
    Paths.Join(Paths.Normalize(Paths.Split(path)))
  }

  function HelperArchive(path: string, changeId: string): string {
    ArchivePath(Paths.Join(BACKUP_ROOT), changeId, HelperTarget(path))
  }

  /** The file that was there is gone, and archived with the digest it had. */
  ghost predicate ArchivedByHelper(disk: Disk, before: Files, path: string, changeId: string)
    reads disk
  {
    HelperTarget(path) in before ==>
      && HelperTarget(path) !in disk.files
      && Archives(
           disk.sha, disk.gzip, disk.files, HelperArchive(path, changeId), disk.sha(before[HelperTarget(path)]))
  }

  ghost predicate AboutToDelete(service: Service, connection: nat)
    reads service
  {
    && connection in service.connections && service.connections[connection].Selected?
    && service.connections[connection].operation.DeleteFile?
  }

  /**
   The last step of a connection and the helper it runs. Files change only when the guarded UPDATE hits and the helper
   accepts what it is given, and then the effect is traced back to what the classifier saw.
   */
  method RunBrokeredCleanup(
      service: Service, connection: nat, disk: Disk, world: Rules.World, backupRoot: string, changeId: string,
      printed: bool, ghost policy: Rules.Policy, ghost actions: seq<Action>)
    returns (r: Result<int>)
    requires Reached(service, policy, actions) && world.sha == service.cfg.sha
    requires AboutToDelete(service, connection)
    requires HelperArchive(service.connections[connection].operation.file.path, changeId) !in disk.files
    modifies service`connections, service`approvals, service`trace, disk
    ensures Reached(service, policy, actions + [DoUpdate(connection)])
    ensures r.Ok? <==> service.connections[connection].Granted?
    ensures var file := old(service.connections)[connection].operation.file;
            && (disk.files != old(disk.files) ==>
                r.Ok? && GoneByEffect(service, policy, |old(service.trace)|, file, world))
            && (r == Ok(0) ==> ArchivedByHelper(disk, old(disk.files), file.path, changeId))
  {
    hide After, LegalRun, FromClassifier, DeletionTraced, DotFree, Apply, Update, UpdateHits, Accepts, ArchivePath;
    hide SameOutside, NeverLost, Archives;
    ghost var s := service.Current();
    var DeleteFile(c, file) := service.connections[connection].operation;
    OneMore(service.cfg, policy, actions, DoUpdate(connection));
    UpdateStep(service.cfg, s, connection);
    var granted := service.ConsumeApproval(connection);
    if granted.Err? {
      return Err(granted.error);
    }
    var argv := HelperArguments(c, CandidateOfRow(c, file), backupRoot);
    var code := SafeLogCleanup(world, disk, argv, changeId, printed);
    if Accepts(world, argv) {
      UpdateDeletes(service.cfg, policy, actions, connection, world, argv);
    }
    r := Ok(code);
  }
}
