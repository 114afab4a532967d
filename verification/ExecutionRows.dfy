/** Execution rows, with their backup, are never lost or rewritten: only the status of one changes. */
module ExecutionRows {
  import opened Wrappers
  import opened Json
  import opened Tokens
  import opened BrokerWire
  import opened ApprovalProtocol
  import opened ApprovalInvariant
  import opened ApprovalSteps
  import opened ApprovalEffects

  predicate SameRecord(row: Execution, next: Execution) {
    next.(status := row.status) == row
  }

  ghost predicate RecordsStay(db: Database, next: Database) {
    forall e :: e in db.executions ==> e in next.executions && SameRecord(db.executions[e], next.executions[e])
  }

  /** A completion is that of a row in the table. */
  predicate Holds(db: Database, e: Event) {
    e.Completed? ==> e.changeId in db.executions && SameRecord(e.execution, db.executions[e.changeId])
  }

  /** Every completion of the run is still in the table, with its target and its backup. */
  ghost predicate CompletionsHold(s: State) {
    forall n :: 0 <= n < |s.trace| ==> Holds(s.db, s.trace[n])
  }

  ghost predicate StepHolds(s: State, s': State) {
    && s.trace <= s'.trace && RecordsStay(s.db, s'.db)
    && forall n :: |s.trace| <= n < |s'.trace| ==> Holds(s'.db, s'.trace[n])
  }

  // ---------- every step ----------

  lemma {:induction false} SuccessStays(
      cfg: Config, db: Database, id: string, req: RunRequest, op: Operation, changeId: string,
      backupRef: Option<string>)
    requires RecordSuccess(cfg, db, id, req, op, changeId, backupRef).Some?
    ensures RecordsStay(db, RecordSuccess(cfg, db, id, req, op, changeId, backupRef).value)
  {
    hide GetText, TargetRef;
    SourceKnown(db, req);
    if RollbackSource(db, req).None? {
      CandidateOnly(db, op);
      var status := if !cfg.controlled && req.fault then ROLLED_BACK else SUCCEEDED;
      var row := Execution(req.taskId, id, req.toolName, TargetRef(op), backupRef, status);
      InsertedRows(UseCandidate(db, op), changeId, row);
      hide InsertExecution, UseCandidate;
    }
  }

  lemma {:induction false} FailureStays(
      db: Database, id: string, req: RunRequest, target: Option<string>, attemptId: string)
    requires RecordFailure(db, id, req, target, attemptId).Some?
    ensures RecordsStay(db, RecordFailure(db, id, req, target, attemptId).value)
  {
    InsertedRows(db, attemptId, Execution(req.taskId, id, req.toolName, target, None, FAILED));
  }

  lemma {:induction false} FailedStays(
      db: Database, id: string, req: RunRequest, target: Option<string>, attemptId: string)
    requires id in db.approvals
    ensures RecordsStay(db, Failed(db, id, req, target, attemptId))
  {
    hide RecordFailure;
    if RecordFailure(Consume(db, id), id, req, target, attemptId).Some? {
      FailureStays(Consume(db, id), id, req, target, attemptId);
    }
  }

  lemma {:induction false} SettleStays(
      cfg: Config, db: Database, id: string, req: RunRequest, op: Operation, attemptId: string, ending: Ending)
    requires id in db.approvals && Settle(cfg, db, id, req, op, attemptId, ending).Some?
    ensures RecordsStay(db, Settle(cfg, db, id, req, op, attemptId, ending).value)
  {
    hide RecordFailure, RecordSuccess, TargetRef;
    match ending {
      case Succeeds(changeId, backupRef) => SuccessStays(cfg, Consume(db, id), id, req, op, changeId, backupRef);
      case Crashes(_) =>
      case _ => FailureStays(Consume(db, id), id, req, TargetRef(op), attemptId);
    }
  }

  lemma {:induction false} CompletionHolds(db: Database, next: Database, changeId: string)
    ensures forall k :: 0 <= k < |CompletionOf(db, next, changeId)| ==> Holds(next, CompletionOf(db, next, changeId)[k])
  {
  }

  lemma {:induction false} SettledHolds(
      s: State, s1: State, id: string, grant: Grant, rows: Option<Database>, ending: Ending, now: int)
    requires s1.trace == s.trace && s1.db == s.db && (rows.Some? ==> RecordsStay(s.db, rows.value))
    ensures StepHolds(s, Settled(s1, id, grant, rows, ending, now))
  {
    hide CompletionOf, SameRecord;
    var db := if rows.Some? then rows.value else s.db;
    if ending.Succeeds? {
      CompletionHolds(s.db, db, ending.changeId);
    }
    RecordsStayPut(s.db);
  }

  lemma {:induction false} RecordsStayPut(db: Database)
    ensures RecordsStay(db, db)
  {
  }

  lemma {:induction false} RunHolds(
      cfg: Config, s: State, session: nat, req: RunRequest, available: bool, now: int, attemptId: string,
      ending: Ending)
    ensures StepHolds(s, Apply(cfg, s, DoRun(session, req, available, now, attemptId, ending)))
  {
    hide AdmittedApproval, Resolve, Outcome, Settle, Settled, RecordFailure, Failed, BrokerManaged, TargetRef;
    hide RecordsStay;
    RecordsStayPut(s.db);
    var admitted := AdmittedApproval(cfg, s.db, req);
    if admitted.Some? {
      AdmittedStatus(cfg, s.db, req);
      var id := admitted.value;
      FailedStays(s.db, id, req, None, attemptId);
      if BrokerManaged(cfg, s.db, req, available) {
        if RecordFailure(s.db, id, req, None, attemptId).Some? {
          FailureStays(s.db, id, req, None, attemptId);
        }
      } else if Resolve(cfg, s.db, req).Some? {
        var (op, arguments) := Resolve(cfg, s.db, req).value;
        FailedStays(s.db, id, req, TargetRef(op), attemptId);
        var r := Outcome(
          cfg.sha, cfg.mac, cfg.secret, if cfg.controlled then {} else s.consumed, req.token,
          Scope(req.userId, req.taskId, req.toolName, Obj(arguments)), now);
        var s1 := if cfg.controlled then s else s.(consumed := s.consumed + Accepted(r));
        var rows := Settle(cfg, s.db, id, req, op, attemptId, ending);
        if rows.Some? {
          SettleStays(cfg, s.db, id, req, op, attemptId, ending);
        }
        SettledHolds(
          s, s1, id, Grant(req.userId, req.taskId, req.toolName, arguments, req.token, op), rows, ending, now);
      }
    }
  }

  lemma {:induction false} FinishHolds(cfg: Config, s: State, session: nat, attemptId: string, ending: Ending)
    ensures StepHolds(s, Apply(cfg, s, DoFinish(session, attemptId, ending)))
  {
    hide RecordFailure, RecordSuccess, TargetRef, RecordsStay, CompletionOf, SameRecord;
    RecordsStayPut(s.db);
    if session in s.sessions {
      var Session(id, req, op) := s.sessions[session];
      if RecordFailure(s.db, id, req, TargetRef(op), attemptId).Some? {
        FailureStays(s.db, id, req, TargetRef(op), attemptId);
      }
      if ending.Succeeds? && RecordSuccess(cfg, s.db, id, req, op, ending.changeId, ending.backupRef).Some? {
        SuccessStays(cfg, s.db, id, req, op, ending.changeId, ending.backupRef);
        var next := RecordSuccess(cfg, s.db, id, req, op, ending.changeId, ending.backupRef).value;
        CompletionHolds(s.db, next, ending.changeId);
      }
    }
  }

  lemma {:induction false} OtherHolds(cfg: Config, s: State, a: Action)
    requires !a.DoRun? && !a.DoFinish?
    ensures StepHolds(s, Apply(cfg, s, a))
  {
    hide ArgumentsAllowed, ClaimedToken, TokenHashFree, ReadCall, PrepareHelper, SelectRow, UpdateHits, Canonical;
    hide TokenHash, BrokerGrant, AdmittedApproval, RunDirect, BeginBrokered, FinishBrokered, ScopedCandidateId;
  }

  lemma {:induction false} ApplyHolds(cfg: Config, s: State, a: Action)
    ensures StepHolds(s, Apply(cfg, s, a))
  {
    hide Apply, StepHolds;
    match a {
      case DoRun(session, req, available, now, attemptId, ending) =>
        RunHolds(cfg, s, session, req, available, now, attemptId, ending);
      case DoFinish(session, attemptId, ending) => FinishHolds(cfg, s, session, attemptId, ending);
      case _ => OtherHolds(cfg, s, a);
    }
  }

  // ---------- whole runs ----------

  /** In every run each completed change stays in the table, with the target and the backup it was completed with. */
  lemma {:induction false} CompletionsKept(cfg: Config, actions: seq<Action>)
    ensures CompletionsHold(After(cfg, actions))
    decreases |actions|
  {
    hide Apply, Holds, RecordsStay;
    if actions != [] {
      var init, last := actions[..|actions| - 1], actions[|actions| - 1];
      CompletionsKept(cfg, init);
      ApplyHolds(cfg, After(cfg, init), last);
      var s, s' := After(cfg, init), After(cfg, actions);
      forall n | 0 <= n < |s'.trace|
        ensures Holds(s'.db, s'.trace[n])
      {
        if n < |s.trace| {
          HoldsOn(s.db, s'.db, s.trace[n]);
        }
      }
    }
  }

  lemma {:induction false} HoldsOn(db: Database, next: Database, e: Event)
    requires Holds(db, e) && RecordsStay(db, next)
    ensures Holds(next, e)
  {
  }

  /** What a rollback restores is what the table says a cleanup of the same task archived. */
  lemma {:induction false} RestoreIsRecorded(cfg: Config, actions: seq<Action>, task: string, op: Operation)
    requires op.RestoreFile? && OperationTraced(After(cfg, actions).trace, task, op)
    ensures var db := After(cfg, actions).db;
            && op.changeId in db.executions
            && db.executions[op.changeId].taskId == task && db.executions[op.changeId].toolName == CLEANUP
            && db.executions[op.changeId].targetRef == Some(op.target)
            && db.executions[op.changeId].backupRef == Some(op.backupRef)
  {
    hide After;
    var s := After(cfg, actions);
    CompletionsKept(cfg, actions);
    var n, row :| CompletedAt(s.trace, n, op.changeId, row)
      && row.taskId == task && row.toolName == CLEANUP
      && row.targetRef == Some(op.target) && row.backupRef == Some(op.backupRef);
    assert Holds(s.db, s.trace[n]);
  }
}
