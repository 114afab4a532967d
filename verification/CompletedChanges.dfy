/** What a success writes down, told by the operation that ran, and how it can be undone from then on. */
module CompletedChanges {
  import opened Wrappers
  import opened Json
  import opened JsonProofs
  import opened JsonDicts
  import opened Utf8
  import opened Tokens
  import opened BrokerWire
  import opened ApprovalProtocol
  import opened ApprovalInvariant
  import opened ApprovalBinding
  import opened ApprovalSteps
  import opened ApprovalRuns
  import opened ApprovalEffects
  import opened ExecutionRows
  import opened SpentOperations
  import opened ApprovalLives
  import opened AuthorizedRows
  import opened BrokerGrants

  // ---------- which operation a request runs ----------

  /** What the row of a change says about undoing it. */
  predicate UndoesAs(row: Execution, change: string, op: Operation) {
    && row.targetRef.Some? && row.status == SUCCEEDED
    && (|| (row.toolName == "safe_log_cleanup" && row.backupRef.Some?
            && op == RestoreFile(change, row.backupRef.value, row.targetRef.value))
        || (row.toolName == "config_safe_update" && row.backupRef.Some? && "config:" <= row.targetRef.value
            && op == OtherRollback(change))
        || (row.toolName == "terminate_process" && "process:" <= row.targetRef.value && op == OtherRollback(change))
        || (row.toolName == "service_restart" && "systemd:" <= row.targetRef.value && op == OtherRollback(change)))
  }

  ghost predicate Cleans(db: Database, args: seq<Field>, op: Operation) {
    exists c :: args == [Field("candidate_id", Str(c))] && c in db.candidates && db.candidates[c].eligible
      && op == DeleteFile(c, db.candidates[c].snapshot)
  }

  ghost predicate Restarts(args: seq<Field>, op: Operation) {
    op == RestartNginx && exists service :: args == [Field("service", Str(service))]
  }

  ghost predicate Updates(args: seq<Field>, op: Operation) {
    op.UpdateConfig? && GetText(args, "target_id") == Some(op.targetId) && GetText(args, "content").Some?
  }

  ghost predicate Stops(db: Database, args: seq<Field>, op: Operation) {
    exists c :: args == [Field("candidate_id", Str(c))] && c in db.processes && db.processes[c].eligible
      && op == StopProcess(c, db.processes[c].service)
  }

  ghost predicate RollsBack(db: Database, task: string, args: seq<Field>, op: Operation) {
    exists e :: GetText(args, "change_id") == Some(e) && e in db.executions && db.executions[e].taskId == task
      && UndoesAs(db.executions[e], e, op)
  }

  /** Outside the DEMO mode a request runs this operation. */
  ghost predicate Runs(db: Database, req: RunRequest, op: Operation) {
    || (req.toolName == "safe_log_cleanup" && Cleans(db, req.arguments, op))
    || (req.toolName == "service_restart" && Restarts(req.arguments, op))
    || (req.toolName == "config_safe_update" && Updates(req.arguments, op))
    || (req.toolName == "terminate_process" && Stops(db, req.arguments, op))
    || (req.toolName == "rollback_change" && RollsBack(db, req.taskId, req.arguments, op))
  }

  lemma {:induction false} RollbackExact(cfg: Config, db: Database, req: RunRequest, op: Operation)
    requires cfg.controlled && !req.fault && req.toolName == ROLLBACK
    ensures Resolve(cfg, db, req).Some? && Resolve(cfg, db, req).value.0 == op
            <==> RollsBack(db, req.taskId, req.arguments, op)
  {
    hide GetText;
    ToolsDiffer();
  }

  lemma {:induction false} CandidateExact(cfg: Config, db: Database, req: RunRequest, op: Operation)
    requires cfg.controlled && !req.fault && Unique(Obj(req.arguments))
    ensures req.toolName == CLEANUP ==>
      (Resolve(cfg, db, req).Some? && Resolve(cfg, db, req).value.0 == op <==> Cleans(db, req.arguments, op))
    ensures req.toolName == TERMINATE ==>
      (Resolve(cfg, db, req).Some? && Resolve(cfg, db, req).value.0 == op <==> Stops(db, req.arguments, op))
  {
    hide GetText, OnlyText, Unique, RollbackSource;
    ToolsDiffer();
    OnlyTextIs(req.arguments, "candidate_id");
  }

  lemma {:induction false} ServiceExact(cfg: Config, db: Database, req: RunRequest, op: Operation)
    requires cfg.controlled && !req.fault && Unique(Obj(req.arguments))
    ensures req.toolName == RESTART ==>
      (Resolve(cfg, db, req).Some? && Resolve(cfg, db, req).value.0 == op <==> Restarts(req.arguments, op))
    ensures req.toolName == CONFIG_UPDATE ==>
      (Resolve(cfg, db, req).Some? && Resolve(cfg, db, req).value.0 == op <==> Updates(req.arguments, op))
    ensures req.toolName !in TOOLS ==> Resolve(cfg, db, req).None?
  {
    hide GetText, OnlyText, Unique, EligibleCandidate;
    ToolsDiffer();
    OnlyTextIs(req.arguments, "service");
  }

  /** The operation of a request, written out for each tool. */
  lemma {:induction false} ResolvesExactly(cfg: Config, db: Database, req: RunRequest, op: Operation)
    requires cfg.controlled && !req.fault && Unique(Obj(req.arguments))
    ensures Resolve(cfg, db, req).Some? && Resolve(cfg, db, req).value.0 == op <==> Runs(db, req, op)
  {
    hide Resolve, Unique, RollsBack, Cleans, Stops, Restarts, Updates;
    ToolsDiffer();
    CandidateExact(cfg, db, req, op);
    ServiceExact(cfg, db, req, op);
    if req.toolName == ROLLBACK {
      RollbackExact(cfg, db, req, op);
    }
  }

  // ---------- what a success writes down ----------

  /** The tool that runs an operation other than a rollback, and the target that its row names. */
  predicate Writes(op: Operation, tool: string, target: Option<string>) {
    match op
    case DeleteFile(_, file) => tool == "safe_log_cleanup" && target == Some(file.path)
    case RestartNginx => tool == "service_restart" && target == Some("systemd:nginx")
    case UpdateConfig(name) => tool == "config_safe_update" && target == Some("config:" + name)
    case StopProcess(_, service) => tool == "terminate_process" && target == Some("process:" + service)
    case _ => false
  }

  /** A candidate that was used is no longer eligible, and nothing else changes in the two tables. */
  ghost predicate UsesUp(db: Database, next: Database, op: Operation) {
    && next.candidates == (if op.DeleteFile? && op.candidateId in db.candidates
                           then db.candidates[op.candidateId := db.candidates[op.candidateId].(eligible := false)]
                           else db.candidates)
    && next.processes == (if op.StopProcess? && op.candidateId in db.processes
                          then db.processes[op.candidateId := db.processes[op.candidateId].(eligible := false)]
                          else db.processes)
  }

  /** The tables after a success that was not a rollback. */
  ghost predicate Completes(db: Database, next: Database, id: string, req: RunRequest, op: Operation, change: string,
      backup: Option<string>) {
    && change !in db.executions && next.tasks == db.tasks && UsesUp(db, next, op)
    && exists target :: Writes(op, req.toolName, target)
         && next.executions
            == db.executions[change := Execution(req.taskId, id, req.toolName, target, backup, SUCCEEDED)]
  }

  /** The tables after the success of a rollback: the change is marked and no row is added. */
  ghost predicate MarksRolledBack(db: Database, next: Database, req: RunRequest) {
    exists e :: GetText(req.arguments, "change_id") == Some(e) && e in db.executions
      && next == db.(executions := db.executions[e := db.executions[e].(status := ROLLED_BACK)], approvals :=
           next.approvals)
  }

  /** The tool of the request is the one that runs the operation. */
  predicate ToolRuns(req: RunRequest, op: Operation) {
    match op
    case DeleteFile(_, _) => req.toolName == "safe_log_cleanup"
    case RestartNginx => req.toolName == "service_restart"
    case UpdateConfig(_) => req.toolName == "config_safe_update"
    case StopProcess(_, _) => req.toolName == "terminate_process"
    case DemoChange => false
    case _ => req.toolName == "rollback_change"
  }

  lemma {:induction false} ResolvedTool(cfg: Config, db: Database, req: RunRequest)
    requires cfg.controlled && Resolve(cfg, db, req).Some?
    ensures ToolRuns(req, Resolve(cfg, db, req).value.0)
  {
    hide GetText, OnlyText;
  }

  lemma {:induction false} RunsTool(db: Database, req: RunRequest, op: Operation)
    requires Runs(db, req, op)
    ensures ToolRuns(req, op)
  {
    hide GetText;
  }

  lemma {:induction false} UsedExactly(db: Database, op: Operation)
    ensures UsesUp(db, UseCandidate(db, op), op)
    ensures var next := UseCandidate(db, op);
            next.tasks == db.tasks && next.executions == db.executions && next.approvals == db.approvals
  {
  }

  /** What a success leaves in the tables, and when it cannot be written down. */
  lemma {:induction false} SuccessExact(
      cfg: Config, db: Database, id: string, req: RunRequest, op: Operation, change: string, backup: Option<string>)
    requires cfg.controlled && SessionOk(db, req) && ToolRuns(req, op)
    ensures var r := RecordSuccess(cfg, db, id, req, op, change, backup);
            && (r.Some? ==> r.value.approvals == db.approvals)
            && (if req.toolName == "rollback_change" then r.Some? && MarksRolledBack(db, r.value, req)
                else
                  && (r.Some? <==> change !in db.executions && !HasExecution(db, id))
                  && (r.Some? ==> Completes(db, r.value, id, req, op, change, backup)))
  {
    hide GetText, UseCandidate;
    ToolsDiffer();
    SourceKnown(db, req);
    UsedExactly(db, op);
    if req.toolName != "rollback_change" {
      assert RollbackSource(db, req).None?;
      assert Writes(op, req.toolName, TargetRef(op));
    }
  }

  /**
   In the DEMO mode a change that was made to fail is rolled back at once, a rollback writes no row, and neither names a
   target.
   */
  lemma {:induction false} DemoIsWritten(cfg: Config, db: Database, id: string, req: RunRequest, change: string,
      backup: Option<string>)
    requires !cfg.controlled
    ensures var r := RecordSuccess(cfg, db, id, req, DemoChange, change, backup);
            var status := if req.fault then ROLLED_BACK else SUCCEEDED;
            var row := Execution(req.taskId, id, req.toolName, None, backup, status);
            var e := GetText(req.arguments, "change_id");
            if req.toolName == "rollback_change" && e.Some? && e.value in db.executions then r == Some(db)
            else
              && (r.Some? <==> change !in db.executions && !HasExecution(db, id))
              && (r.Some? ==> r.value == db.(executions := db.executions[change := row]))
  {
    hide GetText;
    ToolsDiffer();
  }

  // ---------- the step that completes a change ----------

  /** A step ends with the success of this operation under this approval, and its rows are written. */
  ghost predicate EndsWith(cfg: Config, s: State, a: Action, id: string, req: RunRequest, op: Operation, change: string,
      backup: Option<string>) {
    || (&& a.DoRun? && a.request == req && a.ending == Succeeds(change, backup)
        && AdmittedApproval(cfg, s.db, req) == Some(id) && !BrokerManaged(cfg, s.db, req, a.available)
        && Resolve(cfg, s.db, req).Some? && Resolve(cfg, s.db, req).value.0 == op
        && TokenAccepted(cfg, {}, req, Resolve(cfg, s.db, req).value.1, a.now))
    || (&& a.DoFinish? && a.session in s.sessions && s.sessions[a.session] == Session(id, req, op)
        && a.ending == Succeeds(change, backup))
  }

  /** Outside the DEMO mode a session runs the tool of its request. */
  ghost predicate SessionsRun(s: State) {
    forall n :: n in s.sessions ==> ToolRuns(s.sessions[n].request, s.sessions[n].operation)
  }

  lemma {:induction false} StepSessions(cfg: Config, s: State, a: Action)
    requires cfg.controlled && SessionsRun(s)
    ensures SessionsRun(Apply(cfg, s, a))
  {
    hide CreateApproval, Approve, Reject, Claim, RecordCandidate, ScopedCandidateId, AdmittedApproval, Admits, Resolve;
    hide Outcome, Settle, Failed, RecordFailure, RecordSuccess, BrokerManaged, TargetRef, ReadCall, PrepareHelper;
    hide SelectRow, UpdateHits, BrokerGrant, ToolRuns;
    if a.DoRun? && AdmittedApproval(cfg, s.db, a.request).Some? {
      AdmittedMatches(cfg, s.db, a.request);
      if Resolve(cfg, s.db, a.request).Some? {
        ResolvedTool(cfg, s.db, a.request);
      }
    }
  }

  lemma {:induction false} RunSessions(cfg: Config, actions: seq<Action>)
    requires cfg.controlled
    ensures SessionsRun(After(cfg, actions))
    decreases |actions|
  {
    hide Apply, SessionsRun;
    if actions == [] {
      NoSessions();
    } else {
      RunSessions(cfg, actions[..|actions| - 1]);
      StepSessions(cfg, After(cfg, actions[..|actions| - 1]), actions[|actions| - 1]);
    }
  }

  lemma {:induction false} NoSessions()
    ensures SessionsRun(Initial())
  {
  }

  /** A rollback of the change succeeds in this step. */
  ghost predicate RollsBackNow(cfg: Config, s: State, a: Action, e: string) {
    exists id, req, op, change, backup :: EndsWith(cfg, s, a, id, req, op, change, backup)
      && req.toolName == "rollback_change" && GetText(req.arguments, "change_id") == Some(e)
  }

  lemma {:induction false} EndedRun(cfg: Config, s: State, a: Action, id: string, req: RunRequest, op: Operation,
      change: string, backup: Option<string>)
    requires cfg.controlled && a.DoRun? && EndsWith(cfg, s, a, id, req, op, change, backup)
    ensures id in s.db.approvals
    ensures var rows := RecordSuccess(cfg, Consume(s.db, id), id, req, op, change, backup);
            var s' := Apply(cfg, s, a);
            var arguments := Resolve(cfg, s.db, req).value.1;
            var grant := Grant(req.userId, req.taskId, req.toolName, arguments, req.token, op);
            && s'.db == (if rows.Some? then rows.value else s.db)
            && s'.trace
               == s.trace + ([Effect(id, grant, rows.Some?, a.now)] + CompletionOf(s.db, s'.db, change))
  {
    hide Resolve, AdmittedApproval, Admits, BrokerManaged, Outcome, RecordSuccess, TargetRef, Consume;
    AdmittedMatches(cfg, s.db, req);
  }

  lemma {:induction false} EndedFinish(cfg: Config, s: State, a: Action, id: string, req: RunRequest, op: Operation,
      change: string, backup: Option<string>)
    requires a.DoFinish? && EndsWith(cfg, s, a, id, req, op, change, backup)
    ensures var rows := RecordSuccess(cfg, s.db, id, req, op, change, backup);
            Apply(cfg, s, a).db == if rows.Some? then rows.value else s.db
  {
    hide RecordSuccess, TargetRef;
  }

  lemma {:induction false} SessionKnown(cfg: Config, actions: seq<Action>, a: Action, id: string, req: RunRequest,
      op: Operation, change: string, backup: Option<string>)
    requires cfg.controlled && DotFree(cfg.mac) && LegalRun(actions)
    requires EndsWith(cfg, After(cfg, actions), a, id, req, op, change, backup)
    ensures SessionOk(After(cfg, actions).db, req) && ToolRuns(req, op)
  {
    hide After, Resolve, AdmittedApproval, BrokerManaged, TokenAccepted, LegalRun, SessionOk, ToolRuns;
    hide RowsTraced, FilesTraced, ChangesTraced, PhasesTraced, EffectsTraced, OneGrant, CommittedIsLast;
    hide CommittedConsumed, DecisionsKept;
    var s := After(cfg, actions);
    if a.DoRun? {
      ResolvedSession(cfg, s.db, req);
      ResolvedTool(cfg, s.db, req);
    } else {
      RunsKeep(cfg, actions);
      RunSessions(cfg, actions);
      assert SessionOk(s.db, s.sessions[a.session].request);
    }
  }

  lemma {:induction false} ConsumedFirst(db: Database, id: string, next: Database, req: RunRequest, op: Operation,
      change: string, backup: Option<string>)
    requires id in db.approvals && next.approvals == Consume(db, id).approvals
    ensures SessionOk(db, req) ==> SessionOk(Consume(db, id), req)
    ensures HasExecution(Consume(db, id), id) == HasExecution(db, id)
    ensures Completes(Consume(db, id), next, id, req, op, change, backup) ==>
      Completes(db, next, id, req, op, change, backup)
    ensures MarksRolledBack(Consume(db, id), next, req) ==> MarksRolledBack(db, next, req)
  {
    hide GetText, Writes;
  }

  /**
   What a success writes down: a rollback marks its change; everything else uses up its candidate and adds a row that
   names task, approval, tool, target and backup, unless the key is taken or the approval has a row, and then nothing is
   written. The approval is used up with it when the API runs the tool itself.
   */
  lemma {:induction false} EndIsWritten(
      cfg: Config, actions: seq<Action>, a: Action, id: string, req: RunRequest, op: Operation, change: string,
      backup: Option<string>)
    requires cfg.controlled && DotFree(cfg.mac) && LegalRun(actions)
    requires EndsWith(cfg, After(cfg, actions), a, id, req, op, change, backup)
    ensures var s := After(cfg, actions);
            var s' := Apply(cfg, s, a);
            var written := req.toolName == "rollback_change" || (change !in s.db.executions && !HasExecution(s.db, id));
            && (a.DoRun? ==> id in s.db.approvals)
            && (if written then
                  && s'.db.approvals == (if a.DoRun? then Consume(s.db, id).approvals else s.db.approvals)
                  && (if req.toolName == "rollback_change" then MarksRolledBack(s.db, s'.db, req)
                      else Completes(s.db, s'.db, id, req, op, change, backup))
                else s'.db == s.db)
            && (a.DoRun? ==>
                && |s'.trace| > |s.trace| && s'.trace[|s.trace|].Effect?
                && s'.trace[|s.trace|].approvalId == id && s'.trace[|s.trace|].committed == written
                && s'.trace[|s.trace|].grant.operation == op && s'.trace[|s.trace|].grant.toolName == req.toolName)
  {
    hide After, Apply, EndsWith, SessionOk, ToolRuns, Completes, MarksRolledBack, RecordSuccess, LegalRun, HasExecution;
    hide Consume, CompletionOf;
    var s := After(cfg, actions);
    SessionKnown(cfg, actions, a, id, req, op, change, backup);
    EndKinds(cfg, s, a, id, req, op, change, backup);
    if a.DoRun? {
      EndedRun(cfg, s, a, id, req, op, change, backup);
      ConsumedSame(s.db, id);
      var next := Apply(cfg, s, a).db;
      ConsumedFirst(s.db, id, Consume(s.db, id), req, op, change, backup);
      SuccessExact(cfg, Consume(s.db, id), id, req, op, change, backup);
      if next.approvals == Consume(s.db, id).approvals {
        ConsumedFirst(s.db, id, next, req, op, change, backup);
      }
    } else {
      EndedFinish(cfg, s, a, id, req, op, change, backup);
      SuccessExact(cfg, s.db, id, req, op, change, backup);
    }
  }

  lemma {:induction false} EndKinds(cfg: Config, s: State, a: Action, id: string, req: RunRequest, op: Operation,
      change: string, backup: Option<string>)
    requires EndsWith(cfg, s, a, id, req, op, change, backup)
    ensures a.DoRun? || a.DoFinish?
  {
    hide AdmittedApproval, Resolve, BrokerManaged, TokenAccepted;
  }

  lemma {:induction false} ConsumedSame(db: Database, id: string)
    requires id in db.approvals
    ensures Consume(db, id).executions == db.executions
  {
  }

  // ---------- undoing it ----------

  /** What a rollback of a change does, told by the operation that the change was. */
  function Undoing(op: Operation, change: string, backup: Option<string>): Option<Operation> {
    match op
    case DeleteFile(_, file) => if backup.Some? then Some(RestoreFile(change, backup.value, file.path)) else None
    case UpdateConfig(_) => if backup.Some? then Some(OtherRollback(change)) else None
    case _ => Some(OtherRollback(change))
  }

  /** The row of a completed change, as the operation wrote it. */
  predicate WrittenBy(row: Execution, task: string, op: Operation, backup: Option<string>) {
    row.taskId == task && row.backupRef == backup && Writes(op, row.toolName, row.targetRef)
  }

  lemma {:induction false} PrefixKept(prefix: string, rest: string)
    ensures prefix <= prefix + rest
  {
  }

  lemma {:induction false} WrittenIsUndone(cfg: Config, db: Database, change: string, task: string, op: Operation,
      backup: Option<string>, req: RunRequest)
    requires cfg.controlled && change in db.executions && WrittenBy(db.executions[change], task, op, backup)
    requires db.executions[change].status == SUCCEEDED
    requires req.toolName == "rollback_change" && req.arguments == [Field("change_id", Str(change))] && !req.fault
    requires req.taskId == task
    ensures Resolve(cfg, db, req)
            == (match Undoing(op, change, backup) case Some(undo) => Some((undo, req.arguments)) case None => None)
    ensures forall available :: BrokerManaged(cfg, db, req, available) <==>
      op.RestartNginx? || (op.DeleteFile? && available)
    ensures AsksRollback(db, task, req.arguments)
    ensures op.DeleteFile? && backup.Some? ==> forall user, token ::
      Ready(db, RollbackCleanup(change, user, task, token), RestoreFile(change, backup.value, op.file.path))
  {
    ToolsDiffer();
    assert GetText(req.arguments, "change_id") == Some(change);
    hide GetText;
    PrefixKept("config:", if op.UpdateConfig? then op.targetId else "");
    PrefixKept("process:", if op.StopProcess? then op.service else "");
    assert "systemd:" <= "systemd:nginx";
  }

  lemma {:induction false} RecordsRun(cfg: Config, s: State, actions: seq<Action>)
    ensures RecordsStay(s.db, RunFrom(cfg, s, actions).db)
    decreases |actions|
  {
    hide Apply;
    if actions != [] {
      RecordsRun(cfg, s, actions[..|actions| - 1]);
      ApplyHolds(cfg, RunFrom(cfg, s, actions[..|actions| - 1]), actions[|actions| - 1]);
      hide Holds;
    }
  }

  /**
   Whatever happens after a success wrote down a change: as long as the change stands, a rollback of it by its own task
   may be requested, and resolves: to the file that was deleted and its archive for a cleanup, to the rollback of the
   configuration, the termination or the restart for the others; only a cleanup or an update without a backup has none.
   The broker serves it exactly for a restart, and for a cleanup when it is there.
   */
  lemma {:induction false} CompletedCanBeUndone(
      cfg: Config, actions: seq<Action>, a: Action, later: seq<Action>, id: string, ran: RunRequest, op: Operation,
      change: string, backup: Option<string>, req: RunRequest)
    requires cfg.controlled && DotFree(cfg.mac) && LegalRun(actions)
    requires EndsWith(cfg, After(cfg, actions), a, id, ran, op, change, backup) && ran.toolName != "rollback_change"
    requires change !in After(cfg, actions).db.executions && !HasExecution(After(cfg, actions).db, id)
    requires var db := RunFrom(cfg, Apply(cfg, After(cfg, actions), a), later).db;
             change in db.executions && db.executions[change].status == SUCCEEDED
    requires req.toolName == "rollback_change" && req.arguments == [Field("change_id", Str(change))] && !req.fault
    requires req.taskId == ran.taskId
    ensures var db := RunFrom(cfg, Apply(cfg, After(cfg, actions), a), later).db;
            && Resolve(cfg, db, req)
               == (match Undoing(op, change, backup) case Some(undo) => Some((undo, req.arguments)) case None => None)
            && (forall available :: BrokerManaged(cfg, db, req, available) <==>
                  op.RestartNginx? || (op.DeleteFile? && available))
            && AsksRollback(db, req.taskId, req.arguments)
            && (op.DeleteFile? && backup.Some? ==> forall user, token ::
                  Ready(db, RollbackCleanup(change, user, req.taskId, token),
                    RestoreFile(change, backup.value, op.file.path)))
  {
    hide After, Apply, RunFrom, Resolve, BrokerManaged, AsksRollback, Ready, EndsWith, LegalRun, HasExecution, Undoing;
    hide UsesUp, Writes;
    EndIsWritten(cfg, actions, a, id, ran, op, change, backup);
    var s' := Apply(cfg, After(cfg, actions), a);
    assert WrittenBy(s'.db.executions[change], ran.taskId, op, backup);
    RecordsRun(cfg, s', later);
    assert SameRecord(s'.db.executions[change], RunFrom(cfg, s', later).db.executions[change]);
    WrittenIsUndone(cfg, RunFrom(cfg, s', later).db, change, ran.taskId, op, backup, req);
  }

  // ---------- how long a change stands ----------

  predicate Stands(db: Database, e: string) {
    e in db.executions && db.executions[e].status == SUCCEEDED
  }

  lemma {:induction false} SuccessStands(
      cfg: Config, db: Database, id: string, req: RunRequest, op: Operation, change: string, backup: Option<string>,
      e: string)
    requires Stands(db, e) && RecordSuccess(cfg, db, id, req, op, change, backup).Some?
    requires !(req.toolName == "rollback_change" && GetText(req.arguments, "change_id") == Some(e))
    ensures Stands(RecordSuccess(cfg, db, id, req, op, change, backup).value, e)
  {
    hide GetText, TargetRef;
    SourceKnown(db, req);
    UsedExactly(db, op);
    hide UseCandidate;
  }

  lemma {:induction false} FailureStands(db: Database, id: string, req: RunRequest, target: Option<string>,
      attemptId: string, e: string)
    requires Stands(db, e)
    ensures RecordFailure(db, id, req, target, attemptId).Some? ==>
      Stands(RecordFailure(db, id, req, target, attemptId).value, e)
    ensures id in db.approvals ==> Stands(Failed(db, id, req, target, attemptId), e)
  {
  }

  lemma {:induction false} DirectStands(cfg: Config, s: State, id: string, a: Action, e: string)
    requires cfg.controlled && a.DoRun? && AdmittedApproval(cfg, s.db, a.request) == Some(id) && id in s.db.approvals
    requires Stands(s.db, e) && !RollsBackNow(cfg, s, a, e) && !BrokerManaged(cfg, s.db, a.request, a.available)
    ensures Stands(RunDirect(cfg, s, id, a.request, a.now, a.attemptId, a.ending).db, e)
  {
    hide AdmittedApproval, Resolve, BrokerManaged, Outcome, RecordSuccess, RecordFailure, Failed, TargetRef, Stands;
    hide GetText, EndsWith;
    var used := Consume(s.db, id);
    SameExecutionsStand(s.db, used, e);
    SameExecutionsStand(s.db, s.db, e);
    FailureStands(s.db, id, a.request, None, a.attemptId, e);
    if Resolve(cfg, s.db, a.request).Some? {
      var (op, arguments) := Resolve(cfg, s.db, a.request).value;
      FailureStands(s.db, id, a.request, TargetRef(op), a.attemptId, e);
      FailureStands(used, id, a.request, TargetRef(op), a.attemptId, e);
      if a.ending.Succeeds? && TokenAccepted(cfg, {}, a.request, arguments, a.now)
         && RecordSuccess(cfg, used, id, a.request, op, a.ending.changeId, a.ending.backupRef).Some? {
        EndsHere(cfg, s, a, id, op);
        assert EndsWith(cfg, s, a, id, a.request, op, a.ending.changeId, a.ending.backupRef);
        SuccessStands(cfg, used, id, a.request, op, a.ending.changeId, a.ending.backupRef, e);
      }
    }
  }

  lemma {:induction false} SameExecutionsStand(db: Database, next: Database, e: string)
    requires next.executions == db.executions && Stands(db, e)
    ensures Stands(next, e)
  {
  }

  lemma {:induction false} EndsHere(cfg: Config, s: State, a: Action, id: string, op: Operation)
    requires a.DoRun? && a.ending.Succeeds? && AdmittedApproval(cfg, s.db, a.request) == Some(id)
    requires !BrokerManaged(cfg, s.db, a.request, a.available)
    requires Resolve(cfg, s.db, a.request).Some? && Resolve(cfg, s.db, a.request).value.0 == op
    requires TokenAccepted(cfg, {}, a.request, Resolve(cfg, s.db, a.request).value.1, a.now)
    ensures EndsWith(cfg, s, a, id, a.request, op, a.ending.changeId, a.ending.backupRef)
  {
    hide AdmittedApproval, Resolve, BrokerManaged, TokenAccepted;
  }

  lemma {:induction false} RunStands(cfg: Config, s: State, a: Action, e: string)
    requires cfg.controlled && a.DoRun? && Stands(s.db, e) && !RollsBackNow(cfg, s, a, e)
    ensures Stands(Apply(cfg, s, a).db, e)
  {
    hide AdmittedApproval, Resolve, BrokerManaged, RecordFailure, Stands, RunDirect, RollsBackNow;
    var admitted := AdmittedApproval(cfg, s.db, a.request);
    if admitted.Some? {
      AdmittedStatus(cfg, s.db, a.request);
      FailureStands(s.db, admitted.value, a.request, None, a.attemptId, e);
      SameExecutionsStand(s.db, s.db, e);
      if !BrokerManaged(cfg, s.db, a.request, a.available) {
        DirectStands(cfg, s, admitted.value, a, e);
      }
    }
  }

  lemma {:induction false} FinishStands(cfg: Config, s: State, a: Action, e: string)
    requires a.DoFinish? && Stands(s.db, e) && !RollsBackNow(cfg, s, a, e)
    ensures Stands(Apply(cfg, s, a).db, e)
  {
    hide RecordSuccess, RecordFailure, TargetRef, Stands, EndsWith, GetText;
    if a.session in s.sessions {
      var Session(id, req, op) := s.sessions[a.session];
      FailureStands(s.db, id, req, TargetRef(op), a.attemptId, e);
      if a.ending.Succeeds? && RecordSuccess(cfg, s.db, id, req, op, a.ending.changeId, a.ending.backupRef).Some? {
        FinishesHere(cfg, s, a);
        assert EndsWith(cfg, s, a, id, req, op, a.ending.changeId, a.ending.backupRef);
        SuccessStands(cfg, s.db, id, req, op, a.ending.changeId, a.ending.backupRef, e);
      }
    }
  }

  lemma {:induction false} FinishesHere(cfg: Config, s: State, a: Action)
    requires a.DoFinish? && a.session in s.sessions && a.ending.Succeeds?
    ensures var Session(id, req, op) := s.sessions[a.session];
            EndsWith(cfg, s, a, id, req, op, a.ending.changeId, a.ending.backupRef)
  {
  }

  lemma {:induction false} OtherStands(cfg: Config, s: State, a: Action, e: string)
    requires !a.DoRun? && !a.DoFinish? && Stands(s.db, e)
    ensures Stands(Apply(cfg, s, a).db, e)
  {
    hide RecordCandidate, ScopedCandidateId;
    if a.DoRunTask? {
      RecordedExecutions(s.db, a.taskId, a.finding);
    } else {
      RowsOnly(cfg, s, a);
      hide Apply;
    }
  }

  /** A change stands until a rollback of that very change succeeds. */
  lemma {:induction false} StandsUntilRolledBack(cfg: Config, s: State, a: Action, e: string)
    requires cfg.controlled && Stands(s.db, e)
    ensures Stands(Apply(cfg, s, a).db, e) || RollsBackNow(cfg, s, a, e)
  {
    hide Apply, Stands, RollsBackNow;
    if !RollsBackNow(cfg, s, a, e) {
      match a {
        case DoRun(_, _, _, _, _, _) => RunStands(cfg, s, a, e);
        case DoFinish(_, _, _) => FinishStands(cfg, s, a, e);
        case _ => OtherStands(cfg, s, a, e);
      }
    }
  }
}
