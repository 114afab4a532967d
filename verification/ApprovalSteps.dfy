/** Every action of a handler or of a broker connection keeps the invariant. */
module ApprovalSteps {
  import opened Wrappers
  import opened Json
  import opened JsonProofs
  import opened JsonDicts
  import opened Utf8
  import opened Tokens
  import opened BrokerWire
  import opened ApprovalProtocol
  import opened ApprovalInvariant
  import opened ApprovalBinding

  // ---------- requests, decisions and claims ----------

  /** Only approval rows change, and at most one of them in a way that needs a new trail. */
  lemma {:induction false} ApprovalStepKeeps(cfg: Config, s: State, db: Database, more: seq<Event>, id: string)
    requires Inv(cfg, s)
    requires db == s.db.(approvals := db.approvals) && id in db.approvals
    requires db.approvals == s.db.approvals[id := db.approvals[id]]
    requires id in s.db.approvals ==> SameColumns(s.db.approvals[id], db.approvals[id])
    requires RowTraced(cfg, db, s.trace + more, id)
    requires forall k :: 0 <= k < |more| ==> !more[k].Effect?
    requires DecisionsKept(db, more)
    ensures Inv(cfg, s.(db := db, trace := s.trace + more))
  {
    hide RowTraced, EffectTraced, FileTraced, ChangeTraced;
    FilesStay(s.db, s.trace, db, more);
    ChangesStay(s.db, s.trace, more);
    hide FilesTraced, ChangesTraced;
    StepKeeps(cfg, s, s.(db := db, trace := s.trace + more), more, {id});
  }

  lemma {:induction false} CreateKeeps(
      cfg: Config, s: State, id: string, user: string, task: string, tool: string, args: seq<Field>, expiresAt: int,
      allows: bool)
    requires Inv(cfg, s) && Unique(Obj(args))
    requires CreateApproval(cfg, s.db, id, user, task, tool, args, expiresAt, allows).Ok?
    ensures var db := CreateApproval(cfg, s.db, id, user, task, tool, args, expiresAt, allows).value;
            Inv(cfg, Log(s, db, Created(id, user, task, tool, args, expiresAt)))
  {
    var db := CreateApproval(cfg, s.db, id, user, task, tool, args, expiresAt, allows).value;
    var e := Created(id, user, task, tool, args, expiresAt);
    var n := |s.trace|;
    assert Trail(cfg, db, s.trace + [e], id, db.approvals[id], n, n, n) by {
      assert (s.trace + [e])[n] == e;
      hide Canonical, Unique, OnlyText, GetText, Inv;
    }
    hide CreateApproval, Trail, Inv;
    ApprovalStepKeeps(cfg, s, db, [e], id);
  }

  lemma {:induction false} GetTrail(cfg: Config, s: State, id: string) returns (i: int, j: int, m: int)
    requires Inv(cfg, s) && id in s.db.approvals
    ensures Trail(cfg, s.db, s.trace, id, s.db.approvals[id], i, j, m)
  {
    hide Trail;
    assert RowTraced(cfg, s.db, s.trace, id);
    i, j, m :| Trail(cfg, s.db, s.trace, id, s.db.approvals[id], i, j, m);
  }

  /** A pending row that is decided has no claim yet. */
  lemma {:induction false} DecisionTrail(
      cfg: Config, db: Database, next: Database, trace: seq<Event>, more: seq<Event>, id: string, i: int, j: int,
      m: int, decision: Status, user: string, now: int)
    requires id in db.approvals && Trail(cfg, db, trace, id, db.approvals[id], i, j, m)
    requires db.approvals[id].status == PENDING
    requires var decided := db.approvals[id].(status := decision, approverId := Some(user));
             next == db.(approvals := db.approvals[id := decided])
    requires
      || decision == REJECTED
      || (&& decision == APPROVED && more == [Approved(id, user, now)]
          && user != db.approvals[id].requesterId && now < db.approvals[id].expiresAt)
    ensures RowTraced(cfg, next, trace + more, id)
  {
    hide Canonical, ArgumentsHash, Unique, OnlyText, ClaimedAt;
    var row' := next.approvals[id];
    assert (trace + more)[i] == trace[i];
    assert CreatedAt(cfg, trace + more, i, id, row');
    assert InOwnTask(cfg, next, row', trace[i].arguments);
    var n := if decision == APPROVED then |trace| else i;
    assert decision == APPROVED ==> ApprovedAt(trace + more, n, id, row');
    hide CreatedAt, InOwnTask, ApprovedAt;
    assert Trail(cfg, next, trace + more, id, row', i, n, n);
  }

  lemma {:induction false} ApproveKeeps(cfg: Config, s: State, id: string, user: string, now: int)
    requires Inv(cfg, s) && Approve(s.db, id, user, now).Ok?
    ensures Inv(cfg, Log(s, Approve(s.db, id, user, now).value, Approved(id, user, now)))
  {
    hide Trail, Inv, RowTraced;
    var db := Approve(s.db, id, user, now).value;
    var i, j, m := GetTrail(cfg, s, id);
    DecisionTrail(cfg, s.db, db, s.trace, [Approved(id, user, now)], id, i, j, m, APPROVED, user, now);
    ApprovalStepKeeps(cfg, s, db, [Approved(id, user, now)], id);
  }

  lemma {:induction false} RejectKeeps(cfg: Config, s: State, id: string, user: string, now: int)
    requires Inv(cfg, s) && Reject(s.db, id, user, now).Ok?
    ensures Inv(cfg, s.(db := Reject(s.db, id, user, now).value))
  {
    hide Trail, Inv, RowTraced;
    var db := Reject(s.db, id, user, now).value;
    var i, j, m := GetTrail(cfg, s, id);
    DecisionTrail(cfg, s.db, db, s.trace, [], id, i, j, m, REJECTED, user, now);
    ApprovalStepKeeps(cfg, s, db, [], id);
    assert s.trace + [] == s.trace;
  }

  lemma {:induction false} ExpireKeeps(cfg: Config, s: State, id: string)
    requires Inv(cfg, s) && id in s.db.approvals && s.db.approvals[id].status == APPROVED
    ensures Inv(cfg, s.(db := s.db.(approvals := s.db.approvals[id := s.db.approvals[id].(status := EXPIRED)])))
  {
    var db := s.db.(approvals := s.db.approvals[id := s.db.approvals[id].(status := EXPIRED)]);
    assert RowTraced(cfg, s.db, s.trace, id);
    hide RowTraced, Inv;
    RowStays(cfg, s.db, s.trace, db, [], id);
    assert s.trace + [] == s.trace;
    ApprovalStepKeeps(cfg, s, db, [], id);
  }

  lemma {:induction false} ClaimedRow(cfg: Config, db: Database, id: string, user: string, now: int, nonce: string)
    requires Claim(cfg, db, id, user, now, nonce).1.Ok?
    ensures id in db.approvals && db.approvals[id].status == APPROVED && db.approvals[id].requesterId == user
    ensures now < db.approvals[id].expiresAt
    ensures ClaimedToken(cfg, db.approvals[id], now, nonce) == Some(Claim(cfg, db, id, user, now, nonce).1.value)
    ensures Claim(cfg, db, id, user, now, nonce).0 == db.(approvals := db.approvals[id :=
      db.approvals[id].(tokenHash := Some(TokenHash(cfg, Claim(cfg, db, id, user, now, nonce).1.value)))])
  {
    hide TokenHashFree, ClaimedToken;
  }

  lemma {:induction false} ClaimKeeps(cfg: Config, s: State, id: string, user: string, now: int, nonce: string)
    requires Inv(cfg, s) && Claim(cfg, s.db, id, user, now, nonce).1.Ok?
    ensures var (db, r) := Claim(cfg, s.db, id, user, now, nonce);
            Inv(cfg, Log(s, db, Claimed(id, user, r.value, now)))
  {
    hide Claim, Trail, Inv, ClaimedToken;
    ClaimedRow(cfg, s.db, id, user, now, nonce);
    var (db, r) := Claim(cfg, s.db, id, user, now, nonce);
    var i, j, m := GetTrail(cfg, s, id);
    ClaimTrail(cfg, s.db, db, s.trace, id, i, j, m, now, nonce, r.value);
    ApprovalStepKeeps(cfg, s, db, [Claimed(id, user, r.value, now)], id);
  }

  lemma {:induction false} ClaimTrail(
      cfg: Config, db: Database, next: Database, trace: seq<Event>, id: string, i: int, j: int, m: int, now: int,
      nonce: string, token: string)
    requires id in db.approvals && Trail(cfg, db, trace, id, db.approvals[id], i, j, m)
    requires db.approvals[id].status == APPROVED
    requires ClaimedToken(cfg, db.approvals[id], now, nonce) == Some(token) && now < db.approvals[id].expiresAt
    requires next == db.(approvals := db.approvals[id := db.approvals[id].(tokenHash := Some(TokenHash(cfg, token)))])
    ensures Trail(cfg, next, trace + [Claimed(id, db.approvals[id].requesterId, token, now)], id, next.approvals[id], i,
      j, |trace|)
  {
    var e := Claimed(id, db.approvals[id].requesterId, token, now);
    var row, row' := db.approvals[id], next.approvals[id];
    assert ClaimedToken(cfg, row', now, nonce) == ClaimedToken(cfg, row, now, nonce) by {
      hide TokenText, IssuedClaims, Loads;
    }
    hide ClaimedToken, Canonical, ArgumentsHash, Unique, OnlyText;
    var trace' := trace + [e];
    assert trace'[|trace|] == e && trace'[i] == trace[i] && trace'[j] == trace[j];
    assert ClaimedAt(cfg, trace', |trace|, id, row');
    assert CreatedAt(cfg, trace', i, id, row');
    assert InOwnTask(cfg, next, row', trace'[i].arguments);
  }

  // ---------- candidates and executions ----------

  lemma {:induction false} RunTaskKeeps(cfg: Config, s: State, task: string, finding: Finding)
    requires Inv(cfg, s)
    ensures var db := RecordCandidate(s.db, task, finding);
            var id := ScopedCandidateId(finding.candidateId, task);
            Inv(cfg, Log(s, db, Recorded(id, db.candidates[id].taskId, finding.snapshot)))
  {
    hide ScopedCandidateId;
    var id := ScopedCandidateId(finding.candidateId, task);
    var db := RecordCandidate(s.db, task, finding);
    var e := Recorded(id, db.candidates[id].taskId, finding.snapshot);
    assert RecordedAt(s.trace + [e], |s.trace|, id, db.candidates[id].taskId, finding.snapshot);
    hide RowTraced, EffectTraced, ChangeTraced, RowsTraced, EffectsTraced, PhasesTraced, OneGrant, CommittedIsLast;
    hide CommittedConsumed;
    forall c | c in db.candidates
      ensures FileTraced(s.trace + [e], c, db.candidates[c].taskId, db.candidates[c].snapshot)
    {
      if c != id {
        FileStays(s.trace, [e], c, db.candidates[c].taskId, db.candidates[c].snapshot);
      }
    }
    ChangesStay(s.db, s.trace, [e]);
    hide FileTraced, ChangesTraced, Inv;
    StepKeeps(cfg, s, Log(s, db, e), [e], {});
  }

  lemma {:induction false} InsertionTraced(db: Database, trace: seq<Event>, id: string, row: Execution, e: seq<Event>)
    requires ChangesTraced(db, trace) && InsertExecution(db, id, row).Some?
    requires row.status == FAILED || e == [Completed(id, row)]
    ensures ChangesTraced(InsertExecution(db, id, row).value, trace + e)
    ensures ExecutionsStay(db, InsertExecution(db, id, row).value)
  {
    var next := InsertExecution(db, id, row).value;
    if row.status != FAILED {
      assert CompletedAt(trace + e, |trace|, id, row);
    }
    forall k | k in next.executions
      ensures ChangeTraced(trace + e, k, next.executions[k])
    {
      if k != id {
        ChangeStays(trace, e, k, db.executions[k]);
      }
    }
  }

  lemma {:induction false} UsedFiles(db: Database, trace: seq<Event>, op: Operation, more: seq<Event>)
    requires FilesTraced(db, trace)
    ensures FilesTraced(UseCandidate(db, op), trace + more) && OwnersStay(db, UseCandidate(db, op))
    ensures UseCandidate(db, op).executions == db.executions && UseCandidate(db, op).approvals == db.approvals
  {
    FilesStay(db, trace, UseCandidate(db, op), more);
  }

  lemma {:induction false} RolledBackTraced(db: Database, trace: seq<Event>, change: string)
    requires ChangesTraced(db, trace) && change in db.executions && db.executions[change].status != FAILED
    ensures var next := db.(executions := db.executions[change := db.executions[change].(status := ROLLED_BACK)]);
            ChangesTraced(next, trace) && ExecutionsStay(db, next)
  {
    var next := db.(executions := db.executions[change := db.executions[change].(status := ROLLED_BACK)]);
    forall k | k in next.executions
      ensures ChangeTraced(trace, k, next.executions[k])
    {
      assert ChangeTraced(trace, k, db.executions[k]);
      if k == change {
        var n :| CompletedAt(trace, n, k, db.executions[k]);
        assert CompletedAt(trace, n, k, next.executions[k]);
      }
    }
  }

  /** The rows a successful tool leaves are again traced. */
  lemma {:induction false} SuccessTraced(
      cfg: Config, db: Database, trace: seq<Event>, approvalId: string, req: RunRequest, op: Operation,
      changeId: string, backupRef: Option<string>)
    requires FilesTraced(db, trace) && ChangesTraced(db, trace)
    requires cfg.controlled ==> SessionOk(db, req)
    requires RecordSuccess(cfg, db, approvalId, req, op, changeId, backupRef).Some?
    ensures var next := RecordSuccess(cfg, db, approvalId, req, op, changeId, backupRef).value;
            var more := CompletionOf(db, next, changeId);
            && next.approvals == db.approvals && OwnersStay(db, next) && ExecutionsStay(db, next)
            && FilesTraced(next, trace + more) && ChangesTraced(next, trace + more)
  {
    hide RollbackSource, UseCandidate, InsertExecution, TargetRef, FilesTraced, ChangesTraced, OwnersStay;
    hide ExecutionsStay;
    var next := RecordSuccess(cfg, db, approvalId, req, op, changeId, backupRef).value;
    var more := CompletionOf(db, next, changeId);
    SourceKnown(db, req);
    if RollbackSource(db, req).Some? {
      assert more == [] && trace + more == trace;
      UnchangedTables(db);
      FilesStay(db, trace, next, more);
      if cfg.controlled {
        RolledBackTraced(db, trace, RollbackSource(db, req).value);
      }
    } else {
      var used := UseCandidate(db, op);
      var status := if !cfg.controlled && req.fault then ROLLED_BACK else SUCCEEDED;
      var row := Execution(req.taskId, approvalId, req.toolName, TargetRef(op), backupRef, status);
      assert next == InsertExecution(used, changeId, row).value;
      InsertedRows(used, changeId, row);
      UsedFiles(db, trace, op, more);
      SameChanges(db, used, trace);
      InsertionTraced(used, trace, changeId, row, more);
      SameExecutions(db, used, next, trace + more);
    }
  }

  lemma {:induction false} SourceKnown(db: Database, req: RunRequest)
    ensures RollbackSource(db, req).Some? ==> req.toolName == ROLLBACK && RollbackSource(db, req).value in db.executions
  {
  }

  lemma {:induction false} UnchangedTables(db: Database)
    ensures OwnersStay(db, db) && ExecutionsStay(db, db)
  {
  }

  lemma {:induction false} SameChanges(db: Database, used: Database, trace: seq<Event>)
    requires ChangesTraced(db, trace) && used.executions == db.executions
    ensures ChangesTraced(used, trace)
  {
  }

  lemma {:induction false} SameExecutions(db: Database, used: Database, next: Database, trace: seq<Event>)
    requires ExecutionsStay(used, next) && used.executions == db.executions
    requires OwnersStay(db, used) && next.candidates == used.candidates && FilesTraced(used, trace)
    ensures ExecutionsStay(db, next) && OwnersStay(db, next) && FilesTraced(next, trace)
  {
  }

  lemma {:induction false} InsertedRows(db: Database, id: string, row: Execution)
    requires InsertExecution(db, id, row).Some?
    ensures var next := InsertExecution(db, id, row).value;
            next == db.(executions := db.executions[id := row]) && id !in db.executions
  {
  }

  // ---------- execution_run ----------

  predicate Admits(cfg: Config, row: Approval, req: RunRequest) {
    && row.tokenHash == Some(TokenHash(cfg, req.token)) && row.status == APPROVED
    && row.requesterId == req.userId && row.taskId == req.taskId && row.toolName == req.toolName
  }

  lemma {:induction false} AdmittedMatches(cfg: Config, db: Database, req: RunRequest)
    requires AdmittedApproval(cfg, db, req).Some?
    ensures var id := AdmittedApproval(cfg, db, req).value;
            id in db.approvals && Admits(cfg, db.approvals[id], req)
  {
  }

  lemma {:induction false} ResolvedSession(cfg: Config, db: Database, req: RunRequest)
    requires cfg.controlled && Resolve(cfg, db, req).Some?
    ensures SessionOk(db, req)
  {
    hide GetText, OnlyText;
  }

  predicate TokenAccepted(cfg: Config, consumed: set<string>, req: RunRequest, arguments: seq<Field>, now: int) {
    Outcome(cfg.sha, cfg.mac, cfg.secret, consumed, req.token,
      Scope(req.userId, req.taskId, req.toolName, Obj(arguments)), now).Ok?
  }

  lemma {:induction false} AcceptedArguments(
      cfg: Config, trace: seq<Event>, id: string, row: Approval, i: int, m: int, consumed: set<string>, req: RunRequest,
      arguments: seq<Field>, now: int)
    requires DotFree(cfg.mac) && CreatedAt(cfg, trace, i, id, row) && ClaimedAt(cfg, trace, m, id, row)
    requires trace[m].token == req.token && TokenAccepted(cfg, consumed, req, arguments, now)
    ensures row.argumentsHash == ArgumentsHash(cfg.sha, Obj(arguments)) && now <= row.expiresAt
  {
    hide Outcome, ClaimedToken, Unique, Canonical, ArgumentsHash;
    var claimedAt, nonce :| ClaimedToken(cfg, row, claimedAt, nonce) == Some(trace[m].token);
    ClaimBinds(cfg, row, trace[i].arguments, claimedAt, nonce, consumed,
      Scope(req.userId, req.taskId, req.toolName, Obj(arguments)), now);
  }

  /** The effect of a tool that the API executes itself is traced. */
  lemma {:induction false} DirectEffect(
      cfg: Config, s: State, id: string, req: RunRequest, consumed: set<string>, now: int, more: seq<Event>,
      committed: bool)
    requires DotFree(cfg.mac) && Inv(cfg, s) && Unique(Obj(req.arguments))
    requires id in s.db.approvals && Admits(cfg, s.db.approvals[id], req) && Resolve(cfg, s.db, req).Some?
    requires var (op, arguments) := Resolve(cfg, s.db, req).value;
             && TokenAccepted(cfg, consumed, req, arguments, now)
             && more != []
             && more[0] == Effect(id, Grant(req.userId, req.taskId, req.toolName, arguments, req.token, op), committed,
               now)
    ensures EffectTraced(cfg, s.trace + more, |s.trace|)
  {
    hide Resolve, Unique, TokenAccepted, CreatedAt, ClaimedAt, SameValue, OperationTraced, EffectTraced, ArgumentsHash;
    var row := s.db.approvals[id];
    var (op, arguments) := Resolve(cfg, s.db, req).value;
    var i, j, m := GetTrail(cfg, s, id);
    assert FilesTraced(s.db, s.trace) && ChangesTraced(s.db, s.trace);
    hide Inv, FilesTraced, ChangesTraced, InOwnTask;
    ResolvedArguments(cfg, s.db, req);
    CreatedKnown(cfg, s.trace, i, id, row);
    ClaimedKnown(cfg, s.trace, m, id, row);
    if s.trace[m].token == req.token {
      AcceptedArguments(cfg, s.trace, id, row, i, m, consumed, req, arguments, now);
    }
    if cfg.controlled && SameValue(Obj(s.trace[i].arguments), Obj(arguments)) {
      ResolvedOperation(cfg, s.db, s.trace, req, row, s.trace[i].arguments);
    }
    NewEffect(cfg, s.db, s.trace, more, id, row, i, j, m,
      Grant(req.userId, req.taskId, req.toolName, arguments, req.token, op), committed, now);
  }

  lemma {:induction false} CreatedKnown(cfg: Config, trace: seq<Event>, i: int, id: string, row: Approval)
    requires CreatedAt(cfg, trace, i, id, row)
    ensures 0 <= i < |trace| && trace[i].Created? && Unique(Obj(trace[i].arguments))
  {
  }

  lemma {:induction false} ClaimedKnown(cfg: Config, trace: seq<Event>, m: int, id: string, row: Approval)
    requires ClaimedAt(cfg, trace, m, id, row)
    ensures 0 <= m < |trace| && trace[m].Claimed?
  {
  }

  lemma {:induction false} ResolvedOperation(cfg: Config, db: Database, trace: seq<Event>, req: RunRequest,
      row: Approval, created: seq<Field>)
    requires cfg.controlled && FilesTraced(db, trace) && ChangesTraced(db, trace) && InOwnTask(cfg, db, row, created)
    requires Unique(Obj(created)) && Unique(Obj(req.arguments))
    requires row.taskId == req.taskId && row.toolName == req.toolName && Resolve(cfg, db, req).Some?
    requires SameValue(Obj(created), Obj(Resolve(cfg, db, req).value.1))
    ensures OperationTraced(trace, req.taskId, Resolve(cfg, db, req).value.0)
  {
    hide Resolve, Unique, SameValue, FilesTraced, ChangesTraced, InOwnTask, FileTraced, CompletedAt;
    match Resolve(cfg, db, req).value.0 {
      case DeleteFile(_, _) => ResolvedDelete(cfg, db, trace, req, row, created);
      case RestoreFile(_, _, _) => ResolvedRestore(cfg, db, trace, req);
      case _ =>
    }
  }

  lemma {:induction false} ConsumedIrrelevant(cfg: Config, s: State, consumed: set<string>)
    requires Inv(cfg, s)
    ensures Inv(cfg, s.(consumed := consumed))
  {
    hide RowsTraced, FilesTraced, ChangesTraced, PhaseTraced, SessionOk, EffectsTraced, CommittedIsLast;
    hide CommittedConsumed;
    assert forall c, id :: GrantedFor(s.(consumed := consumed), c, id) == GrantedFor(s, c, id);
  }

  /** Consuming an approved row, or not, and whatever rows were written with it. */
  lemma {:induction false} ConsumeKeeps(cfg: Config, s: State, db: Database, more: seq<Event>, id: string)
    requires Inv(cfg, s) && id in s.db.approvals && s.db.approvals[id].status == APPROVED
    requires db.approvals == s.db.approvals || db.approvals == Consume(s.db, id).approvals
    requires OwnersStay(s.db, db) && ExecutionsStay(s.db, db)
    requires FilesTraced(db, s.trace + more) && ChangesTraced(db, s.trace + more)
    requires forall k, other :: EffectAt(more, k, other) ==>
      && k == 0 && other == id && (more[k].committed ==> db.approvals != s.db.approvals)
    requires forall k :: 0 <= k < |more| ==> !more[k].Approved?
    requires forall k :: |s.trace| <= k < |s.trace + more| && (s.trace + more)[k].Effect? ==>
      EffectTraced(cfg, s.trace + more, k)
    ensures Inv(cfg, s.(db := db, trace := s.trace + more))
  {
    hide RowTraced, EffectTraced, OwnersStay, ExecutionsStay, FilesTraced, ChangesTraced, EffectAt, Inv;
    StepKeeps(cfg, s, s.(db := db, trace := s.trace + more), more, {});
  }

  lemma {:induction false} FailedKeeps(cfg: Config, s: State, id: string, req: RunRequest, target: Option<string>,
      attemptId: string)
    requires Inv(cfg, s) && id in s.db.approvals && s.db.approvals[id].status == APPROVED
    ensures Inv(cfg, s.(db := Failed(s.db, id, req, target, attemptId)))
  {
    hide InsertExecution, RowsTraced, PhasesTraced, SessionsOk, EffectsTraced, OneGrant, CommittedIsLast;
    hide CommittedConsumed;
    var used := Consume(s.db, id);
    var row := Execution(req.taskId, id, req.toolName, target, None, FAILED);
    assert s.trace + [] == s.trace;
    if InsertExecution(used, attemptId, row).Some? {
      hide FilesTraced, ChangesTraced, OwnersStay, ExecutionsStay;
      InsertedRows(used, attemptId, row);
      var next := InsertExecution(used, attemptId, row).value;
      FilesStay(s.db, s.trace, next, []);
      SameChanges(s.db, used, s.trace);
      InsertionTraced(used, s.trace, attemptId, row, []);
      UsedExecutions(s.db, used, next);
      hide Inv;
      ConsumeKeeps(cfg, s, next, [], id);
    }
  }

  lemma {:induction false} UsedExecutions(db: Database, used: Database, next: Database)
    requires ExecutionsStay(used, next) && used.executions == db.executions
    ensures ExecutionsStay(db, next)
  {
  }
}
