/** What a recorded success uses up, and for how long. */
module SpentOperations {
  import opened Wrappers
  import opened Text
  import opened Json
  import opened Tokens
  import opened BrokerWire
  import opened ApprovalProtocol
  import opened ApprovalSteps

  /** The candidate is used up, or the change is rolled back. */
  predicate CandidateSpent(db: Database, c: string) {
    c in db.candidates && !db.candidates[c].eligible
  }

  predicate ChangeSpent(db: Database, e: string) {
    e in db.executions && db.executions[e].status == ROLLED_BACK
  }

  // ---------- what is spent right after a success ----------

  /** A success uses up the candidate it deleted or the change it rolled back. */
  lemma {:induction false} SuccessSpends(
      cfg: Config, db: Database, id: string, req: RunRequest, op: Operation, changeId: string,
      backupRef: Option<string>)
    requires cfg.controlled && RecordSuccess(cfg, db, id, req, op, changeId, backupRef).Some?
    ensures var next := RecordSuccess(cfg, db, id, req, op, changeId, backupRef).value;
            match RollbackSource(db, req)
            case Some(change) => ChangeSpent(next, change)
            case None => op.DeleteFile? && op.candidateId in db.candidates ==> CandidateSpent(next, op.candidateId)
  {
    hide GetText, TargetRef;
    SourceKnown(db, req);
    if RollbackSource(db, req).None? {
      var row := Execution(req.taskId, id, req.toolName, TargetRef(op), backupRef, SUCCEEDED);
      InsertedRows(UseCandidate(db, op), changeId, row);
      hide InsertExecution;
    }
  }

  /** Neither the API nor the broker resolves a request for a spent candidate or change. */
  lemma {:induction false} SpentIsRefused(cfg: Config, db: Database, req: RunRequest, call: Call)
    requires cfg.controlled
    ensures
      var c := OnlyText(req.arguments, "candidate_id");
      req.toolName == CLEANUP && c.Some? && CandidateSpent(db, c.value) ==> Resolve(cfg, db, req) == None
    ensures
      var e := GetText(req.arguments, "change_id");
      req.toolName == ROLLBACK && e.Some? && ChangeSpent(db, e.value) ==> Resolve(cfg, db, req) == None
    ensures call.CleanupFile? && CandidateSpent(db, call.candidateId) ==> PrepareHelper(db, call) == None
    ensures call.RollbackCleanup? && ChangeSpent(db, call.changeId) ==> PrepareHelper(db, call) == None
  {
    hide OnlyText, GetText;
  }

  // ---------- how long it stays spent ----------

  /** The step records the candidate anew. */
  predicate Records(s: State, a: Action, c: string) {
    a.DoRunTask? && a.taskId in s.db.tasks && ScopedCandidateId(a.finding.candidateId, a.taskId) == c
  }

  /** The tables after a step that is neither a recording nor a decision. */
  ghost predicate Keeps(db: Database, next: Database) {
    && (forall c :: CandidateSpent(db, c) ==> CandidateSpent(next, c))
    && (forall e :: ChangeSpent(db, e) ==> ChangeSpent(next, e))
  }

  lemma {:induction false} SuccessKeeps(
      cfg: Config, db: Database, id: string, req: RunRequest, op: Operation, changeId: string,
      backupRef: Option<string>)
    requires RecordSuccess(cfg, db, id, req, op, changeId, backupRef).Some?
    ensures Keeps(db, RecordSuccess(cfg, db, id, req, op, changeId, backupRef).value)
  {
    hide GetText, TargetRef;
    SourceKnown(db, req);
    if RollbackSource(db, req).None? {
      var status := if !cfg.controlled && req.fault then ROLLED_BACK else SUCCEEDED;
      var row := Execution(req.taskId, id, req.toolName, TargetRef(op), backupRef, status);
      InsertedRows(UseCandidate(db, op), changeId, row);
      hide InsertExecution;
    }
  }

  lemma {:induction false} FailureKeeps(db: Database, id: string, req: RunRequest, target: Option<string>,
      attemptId: string)
    requires RecordFailure(db, id, req, target, attemptId).Some?
    ensures Keeps(db, RecordFailure(db, id, req, target, attemptId).value)
  {
    InsertedRows(db, attemptId, Execution(req.taskId, id, req.toolName, target, None, FAILED));
  }

  lemma {:induction false} RunKeepsSpent(
      cfg: Config, s: State, session: nat, req: RunRequest, available: bool, now: int, attemptId: string,
      ending: Ending)
    ensures Keeps(s.db, Apply(cfg, s, DoRun(session, req, available, now, attemptId, ending)).db)
  {
    hide AdmittedApproval, Resolve, Outcome, RecordFailure, RecordSuccess, BrokerManaged, TargetRef, Keeps;
    KeepsConsumed(s.db);
    var admitted := AdmittedApproval(cfg, s.db, req);
    if admitted.Some? {
      AdmittedMatches(cfg, s.db, req);
      var id := admitted.value;
      var used := Consume(s.db, id);
      FailureOrNot(s.db, id, req, None, attemptId);
      FailureOrNot(used, id, req, None, attemptId);
      KeepsJoin(s.db, used, id, req, None, attemptId);
      if Resolve(cfg, s.db, req).Some? {
        var op := Resolve(cfg, s.db, req).value.0;
        KeepsJoin(s.db, used, id, req, TargetRef(op), attemptId);
        if ending.Succeeds? && RecordSuccess(cfg, used, id, req, op, ending.changeId, ending.backupRef).Some? {
          SuccessKeeps(cfg, used, id, req, op, ending.changeId, ending.backupRef);
          KeepsAfter(s.db, used, RecordSuccess(cfg, used, id, req, op, ending.changeId, ending.backupRef).value);
        }
      }
    }
  }

  lemma {:induction false} KeepsConsumed(db: Database)
    ensures Keeps(db, db)
  {
  }

  lemma {:induction false} FailureOrNot(db: Database, id: string, req: RunRequest, target: Option<string>,
      attemptId: string)
    ensures RecordFailure(db, id, req, target, attemptId).Some? ==>
      Keeps(db, RecordFailure(db, id, req, target, attemptId).value)
  {
    hide RecordFailure, Keeps;
    if RecordFailure(db, id, req, target, attemptId).Some? {
      FailureKeeps(db, id, req, target, attemptId);
    }
  }

  lemma {:induction false} KeepsAfter(db: Database, used: Database, next: Database)
    requires used == db.(approvals := used.approvals) && Keeps(used, next)
    ensures Keeps(db, next)
  {
  }

  lemma {:induction false} KeepsJoin(db: Database, used: Database, id: string, req: RunRequest, target: Option<string>,
      attemptId: string)
    requires used == db.(approvals := used.approvals)
    ensures RecordFailure(used, id, req, target, attemptId).Some? ==>
      Keeps(db, RecordFailure(used, id, req, target, attemptId).value)
  {
    hide RecordFailure, Keeps;
    FailureOrNot(used, id, req, target, attemptId);
    if RecordFailure(used, id, req, target, attemptId).Some? {
      KeepsAfter(db, used, RecordFailure(used, id, req, target, attemptId).value);
    }
  }

  lemma {:induction false} FinishKeepsSpent(cfg: Config, s: State, session: nat, attemptId: string, ending: Ending)
    ensures Keeps(s.db, Apply(cfg, s, DoFinish(session, attemptId, ending)).db)
  {
    hide RecordFailure, RecordSuccess, TargetRef, Keeps;
    KeepsConsumed(s.db);
    if session in s.sessions {
      var Session(id, req, op) := s.sessions[session];
      FailureOrNot(s.db, id, req, TargetRef(op), attemptId);
      if ending.Succeeds? && RecordSuccess(cfg, s.db, id, req, op, ending.changeId, ending.backupRef).Some? {
        SuccessKeeps(cfg, s.db, id, req, op, ending.changeId, ending.backupRef);
      }
    }
  }

  lemma {:induction false} RecordedAnew(db: Database, task: string, finding: Finding, c: string)
    requires CandidateSpent(db, c)
    ensures CandidateSpent(RecordCandidate(db, task, finding), c) <==> ScopedCandidateId(finding.candidateId, task) != c
    ensures RecordCandidate(db, task, finding).executions == db.executions
  {
    hide ScopedCandidateId;
  }

  /** A spent candidate stays spent exactly until it is recorded anew; a change that was rolled back stays so. */
  lemma {:induction false} StepKeepsSpent(cfg: Config, s: State, a: Action, c: string, e: string)
    ensures CandidateSpent(s.db, c) ==> (CandidateSpent(Apply(cfg, s, a).db, c) <==> !Records(s, a, c))
    ensures ChangeSpent(s.db, e) ==> ChangeSpent(Apply(cfg, s, a).db, e)
  {
    hide CreateApproval, Approve, Reject, Claim, RecordCandidate, ScopedCandidateId, Connect, Select, Update;
    match a {
      case DoRun(session, req, available, now, attemptId, ending) =>
        RunKeepsSpent(cfg, s, session, req, available, now, attemptId, ending);
      case DoFinish(session, attemptId, ending) => FinishKeepsSpent(cfg, s, session, attemptId, ending);
      case DoRunTask(task, finding) =>
        if CandidateSpent(s.db, c) {
          RecordedAnew(s.db, task, finding, c);
        }
        RecordedExecutions(s.db, task, finding);
      case _ => RowsOnly(cfg, s, a);
    }
  }

  lemma {:induction false} RecordedExecutions(db: Database, task: string, finding: Finding)
    ensures RecordCandidate(db, task, finding).executions == db.executions
  {
  }

  /** The other steps leave both tables alone. */
  lemma {:induction false} RowsOnly(cfg: Config, s: State, a: Action)
    requires !a.DoRun? && !a.DoFinish? && !a.DoRunTask?
    ensures Apply(cfg, s, a).db.candidates == s.db.candidates && Apply(cfg, s, a).db.executions == s.db.executions
  {
    hide ArgumentsAllowed, ClaimedToken, TokenHashFree, ReadCall, PrepareHelper, SelectRow, UpdateHits, Canonical;
    hide TokenHash, BrokerGrant, AdmittedApproval, RunDirect, BeginBrokered, FinishBrokered, RecordCandidate;
    hide ScopedCandidateId;
  }

  /** Whatever happens after a success, its candidate is refused until an agent run of its task finds it again. */
  lemma {:induction false} SpentUntilRecorded(cfg: Config, s: State, actions: seq<Action>, c: string)
    requires CandidateSpent(s.db, c)
    requires forall i :: 0 <= i < |actions| && actions[i].DoRunTask? ==>
      ScopedCandidateId(actions[i].finding.candidateId, actions[i].taskId) != c
    ensures CandidateSpent(RunFrom(cfg, s, actions).db, c)
    decreases |actions|
  {
    hide Apply, CandidateSpent, ScopedCandidateId;
    if actions != [] {
      var init, last := actions[..|actions| - 1], actions[|actions| - 1];
      assert forall i :: 0 <= i < |init| ==> init[i] == actions[i];
      SpentUntilRecorded(cfg, s, init, c);
      StepKeepsSpent(cfg, RunFrom(cfg, s, init), last, c, "");
    }
  }

  /** A change that was rolled back is never rolled back again. */
  lemma {:induction false} RolledBackForGood(cfg: Config, s: State, actions: seq<Action>, e: string)
    requires ChangeSpent(s.db, e)
    ensures ChangeSpent(RunFrom(cfg, s, actions).db, e)
    decreases |actions|
  {
    hide Apply, ChangeSpent;
    if actions != [] {
      RolledBackForGood(cfg, s, actions[..|actions| - 1], e);
      StepKeepsSpent(cfg, RunFrom(cfg, s, actions[..|actions| - 1]), actions[|actions| - 1], "", e);
    }
  }

  // ---------- whose candidate it is ----------

  /** A recording stores the file as it is now, eligible, for the task that recorded it first, and nothing else. */
  lemma {:induction false} RecordingIs(cfg: Config, s: State, task: string, finding: Finding)
    requires task in s.db.tasks
    ensures var next := Apply(cfg, s, DoRunTask(task, finding)).db;
            var c := ScopedCandidateId(finding.candidateId, task);
            var owner := if c in s.db.candidates then s.db.candidates[c].taskId else task;
            next == s.db.(candidates := s.db.candidates[c := Candidate(owner, finding.snapshot, true)])
  {
    hide ScopedCandidateId;
  }

  lemma {:induction false} EndsJoined(a: string, b: string)
    ensures EndsWith(a + b, b)
  {
  }

  lemma {:induction false} ScopedEnds(candidateId: string, task: string)
    ensures EndsWith(ScopedCandidateId(candidateId, task), "-" + First(task, 12))
    ensures EndsWith(candidateId, "-" + First(task, 12)) ==> ScopedCandidateId(candidateId, task) == candidateId
    ensures |candidateId| <= 61 ==> |ScopedCandidateId(candidateId, task)| <= 61
    ensures !EndsWith(candidateId, "-" + First(task, 12)) ==>
      |ScopedCandidateId(candidateId, task)| <= 61 && First(candidateId, 48) <= ScopedCandidateId(candidateId, task)
  {
    hide EndsWith;
    EndsJoined(First(candidateId, 48), "-" + First(task, 12));
    assert First(candidateId, 48) + "-" + First(task, 12) == First(candidateId, 48) + ("-" + First(task, 12));
  }

  /** Two tasks whose identifiers differ at their start never record one candidate, whatever the classifier calls it. */
  lemma {:induction false} TasksKeepApart(c: string, d: string, task: string, other: string)
    requires |task| >= 12 && |other| >= 12 && task[..12] != other[..12]
    ensures ScopedCandidateId(c, task) != ScopedCandidateId(d, other)
  {
    hide ScopedCandidateId;
    ScopedEnds(c, task);
    ScopedEnds(d, other);
    var id, id' := ScopedCandidateId(c, task), ScopedCandidateId(d, other);
    assert ("-" + task[..12])[1..] == task[..12] && ("-" + other[..12])[1..] == other[..12];
    assert id[|id| - 13..] == "-" + task[..12] && id'[|id'| - 13..] == "-" + other[..12];
  }
}
