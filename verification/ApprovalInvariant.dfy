/** What every run of the approval protocol keeps, whatever handlers and broker connections interleave. */
module ApprovalInvariant {
  import opened Wrappers
  import opened Json
  import opened JsonProofs
  import opened JsonDicts
  import opened Utf8
  import opened Tokens
  import opened BrokerWire
  import opened ApprovalProtocol

  /** The arguments of a request are a Python dict. */
  ghost predicate Legal(a: Action) {
    match a
    case DoCreate(_, _, _, _, args, _, _) => Unique(Obj(args))
    case DoRun(_, request, _, _, _, _) => Unique(Obj(request.arguments))
    case _ => true
  }

  ghost predicate LegalRun(actions: seq<Action>) {
    forall i :: 0 <= i < |actions| ==> Legal(actions[i])
  }

  // ---------- the trail of an approval ----------

  ghost predicate CreatedAt(cfg: Config, trace: seq<Event>, i: int, id: string, row: Approval) {
    && 0 <= i < |trace|
    && trace[i].Created?
    && trace[i].approvalId == id && trace[i].requester == row.requesterId
    && trace[i].taskId == row.taskId && trace[i].toolName == row.toolName && trace[i].expiresAt == row.expiresAt
    && Unique(Obj(trace[i].arguments))
    && row.argumentsJson == Canonical(Obj(trace[i].arguments))
    && row.argumentsHash == ArgumentsHash(cfg.sha, Obj(trace[i].arguments))
  }

  ghost predicate ApprovedAt(trace: seq<Event>, j: int, id: string, row: Approval) {
    && 0 <= j < |trace|
    && trace[j].Approved?
    && trace[j].approvalId == id && trace[j].approver != row.requesterId && trace[j].at < row.expiresAt
  }

  ghost predicate ClaimedAt(cfg: Config, trace: seq<Event>, m: int, id: string, row: Approval) {
    && 0 <= m < |trace|
    && trace[m].Claimed?
    && trace[m].approvalId == id && trace[m].claimer == row.requesterId && trace[m].at < row.expiresAt
    && row.tokenHash == Some(TokenHash(cfg, trace[m].token))
    && exists now, nonce :: ClaimedToken(cfg, row, now, nonce) == Some(trace[m].token)
  }

  predicate Advanced(row: Approval) {
    row.status == APPROVED || row.status == CONSUMED || row.status == EXPIRED
  }

  /** In CONTROLLED_EXECUTION a cleanup was requested for a candidate of the approval's own task. */
  ghost predicate InOwnTask(cfg: Config, db: Database, row: Approval, arguments: seq<Field>) {
    cfg.controlled && row.toolName == CLEANUP ==>
      var c := OnlyText(arguments, "candidate_id");
      c.Some? && c.value in db.candidates && db.candidates[c.value].taskId == row.taskId
  }

  /** Positions of the creation, the decision and the last claim behind the present contents of a row. */
  ghost predicate Trail(cfg: Config, db: Database, trace: seq<Event>, id: string, row: Approval, i: int, j: int,
      m: int) {
    && i <= j <= m
    && CreatedAt(cfg, trace, i, id, row) && InOwnTask(cfg, db, row, trace[i].arguments)
    && (Advanced(row) ==> i < j && ApprovedAt(trace, j, id, row))
    && (row.tokenHash.Some? ==> Advanced(row) && j < m && ClaimedAt(cfg, trace, m, id, row))
  }

  ghost predicate RowTraced(cfg: Config, db: Database, trace: seq<Event>, id: string)
    requires id in db.approvals
  {
    exists i, j, m :: Trail(cfg, db, trace, id, db.approvals[id], i, j, m)
  }

  ghost predicate RowsTraced(cfg: Config, db: Database, trace: seq<Event>) {
    forall id :: id in db.approvals ==> RowTraced(cfg, db, trace, id)
  }

  // ---------- where operations come from ----------

  ghost predicate RecordedAt(trace: seq<Event>, n: int, c: string, task: string, file: Snapshot) {
    0 <= n < |trace| && trace[n] == Recorded(c, task, file)
  }

  ghost predicate FileTraced(trace: seq<Event>, c: string, task: string, file: Snapshot) {
    exists n :: RecordedAt(trace, n, c, task, file)
  }

  ghost predicate FilesTraced(db: Database, trace: seq<Event>) {
    forall c :: c in db.candidates ==> FileTraced(trace, c, db.candidates[c].taskId, db.candidates[c].snapshot)
  }

  ghost predicate CompletedAt(trace: seq<Event>, n: int, change: string, row: Execution) {
    0 <= n < |trace| && trace[n].Completed? && trace[n].changeId == change
    && trace[n].execution.(status := row.status) == row
  }

  ghost predicate ChangeTraced(trace: seq<Event>, change: string, row: Execution) {
    row.status != FAILED ==> exists n :: CompletedAt(trace, n, change, row)
  }

  ghost predicate ChangesTraced(db: Database, trace: seq<Event>) {
    forall e :: e in db.executions ==> ChangeTraced(trace, e, db.executions[e])
  }

  /**
   A file that is deleted was recorded for the task; a file that is restored was backed up by a cleanup of the task.
   */
  ghost predicate OperationTraced(trace: seq<Event>, task: string, op: Operation) {
    match op
    case DeleteFile(c, file) => FileTraced(trace, c, task, file)
    case RestoreFile(change, backup, target) =>
      exists n, row :: CompletedAt(trace, n, change, row)
        && row.taskId == task && row.toolName == CLEANUP && row.targetRef == Some(target)
        && row.backupRef == Some(backup)
    case _ => true
  }

  // ---------- what an effect needs ----------

  /** Two different texts that the system hashed have the same hash: two tokens, or two dicts of arguments. */
  ghost predicate Clash(cfg: Config, created: Event, claimed: Event, grant: Grant)
    requires created.Created? && claimed.Claimed?
  {
    || Collision(cfg.sha, Encode(claimed.token), Encode(grant.token))
    || Collision(cfg.sha, ArgumentsBytes(Obj(created.arguments)), ArgumentsBytes(Obj(grant.arguments)))
  }

  /**
   The effect at `k` was requested at `i`, approved by someone else at `j` and claimed by the requester at `m`, with
   the requester, task and tool of the request, both before it expired; and, unless there is a clash, the effect came
   not later either, with the very token and arguments.
   */
  ghost predicate EffectTrail(cfg: Config, trace: seq<Event>, k: int, i: int, j: int, m: int) {
    && 0 <= i < j < m < k < |trace|
    && trace[k].Effect? && trace[i].Created? && trace[j].Approved? && trace[m].Claimed?
    && trace[i].approvalId == trace[k].approvalId && trace[j].approvalId == trace[k].approvalId
    && trace[m].approvalId == trace[k].approvalId
    && trace[j].approver != trace[i].requester
    && trace[m].claimer == trace[i].requester
    && trace[j].at < trace[i].expiresAt && trace[m].at < trace[i].expiresAt
    && trace[k].grant.userId == trace[i].requester
    && trace[k].grant.taskId == trace[i].taskId
    && trace[k].grant.toolName == trace[i].toolName
    && TokenHash(cfg, trace[k].grant.token) == TokenHash(cfg, trace[m].token)
    && (Clash(cfg, trace[i], trace[m], trace[k].grant)
        || (&& trace[m].token == trace[k].grant.token && trace[k].at <= trace[i].expiresAt
            && SameValue(Obj(trace[i].arguments), Obj(trace[k].grant.arguments))
            && (cfg.controlled ==> OperationTraced(trace[..k], trace[k].grant.taskId, trace[k].grant.operation))))
  }

  ghost predicate EffectTraced(cfg: Config, trace: seq<Event>, k: int) {
    exists i, j, m :: EffectTrail(cfg, trace, k, i, j, m)
  }

  ghost predicate EffectsTraced(cfg: Config, trace: seq<Event>) {
    forall k :: 0 <= k < |trace| && trace[k].Effect? ==> EffectTraced(cfg, trace, k)
  }

  // ---------- connections and single use ----------

  /** The columns a connection matched do not change after the approval was created. */
  ghost predicate Matches(cfg: Config, row: Approval, call: Call) {
    && row.requesterId == call.userId && row.taskId == call.taskId && row.toolName == ExpectedTool(call)
    && row.argumentsHash == ArgumentsHash(cfg.sha, Obj(ExpectedArguments(call)))
  }

  predicate Logged(trace: seq<Event>, e: Event) {
    exists k :: 0 <= k < |trace| && trace[k] == e
  }

  ghost predicate PhaseTraced(cfg: Config, db: Database, trace: seq<Event>, phase: Phase) {
    match phase
    case Prepared(call, op) => OperationTraced(trace, call.taskId, op)
    case Selected(call, op, id, at) =>
      && OperationTraced(trace, call.taskId, op)
      && id in db.approvals && Matches(cfg, db.approvals[id], call) && at < db.approvals[id].expiresAt
    case Granted(call, op, id, at) =>
      && id in db.approvals && db.approvals[id].status == CONSUMED
      && Logged(trace, Effect(id, BrokerGrant(call, op), true, at))
    case Denied => true
  }

  ghost predicate PhasesTraced(cfg: Config, s: State) {
    forall c :: c in s.connections ==> PhaseTraced(cfg, s.db, s.trace, s.connections[c])
  }

  predicate GrantedFor(s: State, c: nat, id: string) {
    c in s.connections && s.connections[c].Granted? && s.connections[c].approvalId == id
  }

  ghost predicate OneGrant(s: State) {
    forall c, d, id :: GrantedFor(s, c, id) && GrantedFor(s, d, id) ==> c == d
  }

  predicate CommittedAt(trace: seq<Event>, k: int, id: string) {
    0 <= k < |trace| && trace[k].Effect? && trace[k].committed && trace[k].approvalId == id
  }

  predicate EffectAt(trace: seq<Event>, k: int, id: string) {
    0 <= k < |trace| && trace[k].Effect? && trace[k].approvalId == id
  }

  /** A committed effect is the last effect of its approval. */
  ghost predicate CommittedIsLast(trace: seq<Event>) {
    forall k, l, id :: CommittedAt(trace, k, id) && EffectAt(trace, l, id) ==> l <= k
  }

  ghost predicate CommittedConsumed(db: Database, trace: seq<Event>) {
    forall k, id :: CommittedAt(trace, k, id) ==> id in db.approvals && db.approvals[id].status == CONSUMED
  }

  /** A row that was approved never becomes pending or rejected again. */
  ghost predicate DecisionsKept(db: Database, trace: seq<Event>) {
    forall k :: 0 <= k < |trace| && trace[k].Approved? ==>
      trace[k].approvalId in db.approvals && Advanced(db.approvals[trace[k].approvalId])
  }

  /** The change that a pending rollback will mark did succeed. */
  predicate SessionOk(db: Database, req: RunRequest) {
    req.toolName == ROLLBACK ==>
      RollbackSource(db, req).Some? && db.executions[RollbackSource(db, req).value].status != FAILED
  }

  ghost predicate SessionsOk(s: State) {
    forall n :: n in s.sessions ==> SessionOk(s.db, s.sessions[n].request)
  }

  ghost predicate Inv(cfg: Config, s: State) {
    && RowsTraced(cfg, s.db, s.trace) && FilesTraced(s.db, s.trace) && ChangesTraced(s.db, s.trace)
    && PhasesTraced(cfg, s) && SessionsOk(s) && EffectsTraced(cfg, s.trace)
    && OneGrant(s) && CommittedIsLast(s.trace) && CommittedConsumed(s.db, s.trace) && DecisionsKept(s.db, s.trace)
  }

  // ---------- steps only extend ----------

  /** A row stays as it is, or is used up or expires after it was approved. */
  predicate RowStep(row: Approval, next: Approval) {
    next == row || (row.status == APPROVED && (next == row.(status := CONSUMED) || next == row.(status := EXPIRED)))
  }

  ghost predicate OwnersStay(db: Database, next: Database) {
    forall c :: c in db.candidates ==> c in next.candidates && next.candidates[c].taskId == db.candidates[c].taskId
  }

  lemma {:induction false} ClaimStays(cfg: Config, trace: seq<Event>, more: seq<Event>, m: int, id: string,
      row: Approval, next: Approval)
    requires ClaimedAt(cfg, trace, m, id, row)
    requires RowStep(row, next)
    ensures ClaimedAt(cfg, trace + more, m, id, next)
  {
    var now, nonce :| ClaimedToken(cfg, row, now, nonce) == Some(trace[m].token);
    assert ClaimedToken(cfg, next, now, nonce) == ClaimedToken(cfg, row, now, nonce) by {
      hide TokenText, IssuedClaims, Loads;
    }
    hide ClaimedToken;
  }

  lemma {:induction false} CreationStays(cfg: Config, trace: seq<Event>, more: seq<Event>, i: int, id: string,
      row: Approval, next: Approval)
    requires CreatedAt(cfg, trace, i, id, row)
    requires RowStep(row, next)
    ensures CreatedAt(cfg, trace + more, i, id, next)
  {
    hide Canonical, ArgumentsHash, Unique;
  }

  lemma {:induction false} OwnTaskStays(cfg: Config, db: Database, next: Database, row: Approval, row': Approval,
      arguments: seq<Field>)
    requires InOwnTask(cfg, db, row, arguments) && OwnersStay(db, next)
    requires RowStep(row, row')
    ensures InOwnTask(cfg, next, row', arguments)
  {
    hide OnlyText;
  }

  lemma {:induction false} RowStays(cfg: Config, db: Database, trace: seq<Event>, next: Database, more: seq<Event>,
      id: string)
    requires id in db.approvals && RowTraced(cfg, db, trace, id)
    requires id in next.approvals && RowStep(db.approvals[id], next.approvals[id]) && OwnersStay(db, next)
    ensures RowTraced(cfg, next, trace + more, id)
  {
    var row, row' := db.approvals[id], next.approvals[id];
    var i, j, m :| Trail(cfg, db, trace, id, row, i, j, m);
    CreationStays(cfg, trace, more, i, id, row, row');
    if row.tokenHash.Some? {
      ClaimStays(cfg, trace, more, m, id, row, row');
    }
    OwnTaskStays(cfg, db, next, row, row', trace[i].arguments);
    assert (trace + more)[i] == trace[i];
    assert Advanced(row) ==> ApprovedAt(trace + more, j, id, row');
    assert row'.requesterId == row.requesterId && row'.tokenHash == row.tokenHash && Advanced(row') == Advanced(row);
    hide CreatedAt, ClaimedAt, InOwnTask, ApprovedAt, OwnersStay, RowStep, Advanced;
    assert Trail(cfg, next, trace + more, id, row', i, j, m);
  }

  /** Only `changed` needs a new argument; every other row keeps its trail. */
  lemma {:induction false} RowsStay(cfg: Config, db: Database, trace: seq<Event>, next: Database, more: seq<Event>,
      changed: set<string>)
    requires RowsTraced(cfg, db, trace) && OwnersStay(db, next)
    requires next.approvals.Keys <= db.approvals.Keys + changed
    requires forall id :: id in next.approvals && id !in changed ==> RowStep(db.approvals[id], next.approvals[id])
    requires forall id :: id in next.approvals && id in changed ==> RowTraced(cfg, next, trace + more, id)
    ensures RowsTraced(cfg, next, trace + more)
  {
    hide RowTraced, RowStep, OwnersStay;
    forall id | id in next.approvals
      ensures RowTraced(cfg, next, trace + more, id)
    {
      if id !in changed {
        RowStays(cfg, db, trace, next, more, id);
      }
    }
  }

  lemma {:induction false} FileStays(trace: seq<Event>, more: seq<Event>, c: string, task: string, file: Snapshot)
    requires FileTraced(trace, c, task, file)
    ensures FileTraced(trace + more, c, task, file)
  {
    var n :| RecordedAt(trace, n, c, task, file);
    assert RecordedAt(trace + more, n, c, task, file);
  }

  lemma {:induction false} ChangeStays(trace: seq<Event>, more: seq<Event>, change: string, row: Execution)
    requires ChangeTraced(trace, change, row)
    ensures ChangeTraced(trace + more, change, row)
  {
    if row.status != FAILED {
      var n :| CompletedAt(trace, n, change, row);
      assert CompletedAt(trace + more, n, change, row);
    }
  }

  lemma {:induction false} OperationStays(trace: seq<Event>, more: seq<Event>, task: string, op: Operation)
    requires OperationTraced(trace, task, op)
    ensures OperationTraced(trace + more, task, op)
  {
    match op {
      case DeleteFile(c, file) => FileStays(trace, more, c, task, file);
      case RestoreFile(change, backup, target) =>
        var n, row :| CompletedAt(trace, n, change, row)
          && row.taskId == task && row.toolName == CLEANUP
          && row.targetRef == Some(target) && row.backupRef == Some(backup);
        assert CompletedAt(trace + more, n, change, row);
      case _ =>
    }
  }

  lemma {:induction false} EffectStays(cfg: Config, trace: seq<Event>, more: seq<Event>, k: int)
    requires EffectTraced(cfg, trace, k)
    ensures EffectTraced(cfg, trace + more, k)
  {
    hide Clash, OperationTraced, SameValue;
    var i, j, m :| EffectTrail(cfg, trace, k, i, j, m);
    assert (trace + more)[..k] == trace[..k];
    assert EffectTrail(cfg, trace + more, k, i, j, m);
  }

  lemma {:induction false} EffectsStay(cfg: Config, trace: seq<Event>, more: seq<Event>)
    requires EffectsTraced(cfg, trace)
    requires forall k :: |trace| <= k < |trace + more| && (trace + more)[k].Effect? ==>
      EffectTraced(cfg, trace + more, k)
    ensures EffectsTraced(cfg, trace + more)
  {
    hide EffectTraced;
    forall k | 0 <= k < |trace + more| && (trace + more)[k].Effect?
      ensures EffectTraced(cfg, trace + more, k)
    {
      if k < |trace| {
        EffectStays(cfg, trace, more, k);
      }
    }
  }

  // ---------- what no step undoes ----------

  predicate SameColumns(row: Approval, next: Approval) {
    && next.requesterId == row.requesterId && next.taskId == row.taskId && next.toolName == row.toolName
    && next.argumentsHash == row.argumentsHash && next.argumentsJson == row.argumentsJson
    && next.expiresAt == row.expiresAt
    && (row.status == CONSUMED ==> next.status == CONSUMED) && (Advanced(row) ==> Advanced(next))
  }

  ghost predicate ColumnsStay(db: Database, next: Database) {
    forall id :: id in db.approvals ==> id in next.approvals && SameColumns(db.approvals[id], next.approvals[id])
  }

  ghost predicate ExecutionsStay(db: Database, next: Database) {
    forall e :: e in db.executions ==>
      e in next.executions && (db.executions[e].status != FAILED ==> next.executions[e].status != FAILED)
  }

  lemma {:induction false} LoggedStays(trace: seq<Event>, more: seq<Event>, e: Event)
    requires Logged(trace, e)
    ensures Logged(trace + more, e)
  {
    var k :| 0 <= k < |trace| && trace[k] == e;
    assert (trace + more)[k] == e;
  }

  lemma {:induction false} PhaseStays(cfg: Config, db: Database, trace: seq<Event>, next: Database, more: seq<Event>,
      phase: Phase)
    requires PhaseTraced(cfg, db, trace, phase) && ColumnsStay(db, next)
    ensures PhaseTraced(cfg, next, trace + more, phase)
  {
    match phase {
      case Prepared(call, op) => OperationStays(trace, more, call.taskId, op);
      case Selected(call, op, id, _) =>
        OperationStays(trace, more, call.taskId, op);
        hide ArgumentsHash, ExpectedArguments, ExpectedTool, OperationTraced;
      case Granted(call, op, id, at) =>
        LoggedStays(trace, more, Effect(id, BrokerGrant(call, op), true, at));
        hide Logged, BrokerGrant;
      case Denied =>
    }
  }

  lemma {:induction false} SessionsStay(s: State, next: Database)
    requires SessionsOk(s) && ExecutionsStay(s.db, next)
    ensures SessionsOk(s.(db := next))
  {
    forall n | n in s.sessions
      ensures SessionOk(next, s.sessions[n].request)
    {
      assert SessionOk(s.db, s.sessions[n].request);
    }
  }

  /**
   An effect comes first among the new events, under an approval that was APPROVED; when it is committed, that is
   CONSUMED.
   */
  ghost predicate NewEffects(db: Database, next: Database, more: seq<Event>) {
    forall k, id :: EffectAt(more, k, id) ==>
      && k == 0 && id in db.approvals && db.approvals[id].status == APPROVED
      && (more[k].committed ==> id in next.approvals && next.approvals[id].status == CONSUMED)
  }

  lemma {:induction false} EffectsSplit(trace: seq<Event>, more: seq<Event>, k: int, id: string)
    ensures CommittedAt(trace + more, k, id) <==> CommittedAt(trace, k, id) || CommittedAt(more, k - |trace|, id)
    ensures EffectAt(trace + more, k, id) <==> EffectAt(trace, k, id) || EffectAt(more, k - |trace|, id)
    ensures CommittedAt(more, k - |trace|, id) ==> EffectAt(more, k - |trace|, id) && more[k - |trace|].committed
  {
  }

  lemma {:induction false} CommitsStay(db: Database, trace: seq<Event>, next: Database, more: seq<Event>)
    requires CommittedConsumed(db, trace) && CommittedIsLast(trace) && ColumnsStay(db, next)
    requires NewEffects(db, next, more)
    ensures CommittedConsumed(next, trace + more) && CommittedIsLast(trace + more)
  {
    forall k, id | CommittedAt(trace + more, k, id)
      ensures id in next.approvals && next.approvals[id].status == CONSUMED
    {
      EffectsSplit(trace, more, k, id);
    }
    forall k, l, id | CommittedAt(trace + more, k, id) && EffectAt(trace + more, l, id)
      ensures l <= k
    {
      EffectsSplit(trace, more, k, id);
      EffectsSplit(trace, more, l, id);
      BeforeEnd(trace, k, id);
      hide CommittedAt, EffectAt;
    }
  }

  lemma {:induction false} BeforeEnd(trace: seq<Event>, k: int, id: string)
    ensures CommittedAt(trace, k, id) || EffectAt(trace, k, id) ==> 0 <= k < |trace|
  {
  }

  lemma {:induction false} DecisionsStay(db: Database, trace: seq<Event>, next: Database, more: seq<Event>)
    requires DecisionsKept(db, trace) && DecisionsKept(next, more) && ColumnsStay(db, next)
    ensures DecisionsKept(next, trace + more)
  {
    hide Advanced;
  }

  /** What an API step must show; it leaves the connections of the broker alone. */
  lemma {:induction false} StepKeeps(cfg: Config, s: State, s': State, more: seq<Event>, changed: set<string>)
    requires Inv(cfg, s)
    requires s'.trace == s.trace + more && s'.connections == s.connections && s'.sessions == s.sessions
    requires OwnersStay(s.db, s'.db) && ColumnsStay(s.db, s'.db) && ExecutionsStay(s.db, s'.db)
    requires FilesTraced(s'.db, s'.trace) && ChangesTraced(s'.db, s'.trace)
    requires s'.db.approvals.Keys <= s.db.approvals.Keys + changed
    requires forall id :: id in s'.db.approvals && id !in changed ==> RowStep(s.db.approvals[id], s'.db.approvals[id])
    requires forall id :: id in s'.db.approvals && id in changed ==> RowTraced(cfg, s'.db, s'.trace, id)
    requires NewEffects(s.db, s'.db, more) && DecisionsKept(s'.db, more)
    requires forall k :: |s.trace| <= k < |s'.trace| && s'.trace[k].Effect? ==> EffectTraced(cfg, s'.trace, k)
    ensures Inv(cfg, s')
  {
    hide RowTraced, RowStep, OwnersStay, ColumnsStay, ExecutionsStay, FilesTraced, ChangesTraced, EffectTraced;
    hide NewEffects;
    hide PhaseTraced, SessionOk, CommittedIsLast, CommittedConsumed, RowsTraced, EffectsTraced, DecisionsKept;
    DecisionsStay(s.db, s.trace, s'.db, more);
    RowsStay(cfg, s.db, s.trace, s'.db, more, changed);
    forall c | c in s'.connections
      ensures PhaseTraced(cfg, s'.db, s'.trace, s'.connections[c])
    {
      PhaseStays(cfg, s.db, s.trace, s'.db, more, s.connections[c]);
    }
    SessionsStay(s, s'.db);
    EffectsStay(cfg, s.trace, more);
    CommitsStay(s.db, s.trace, s'.db, more);
    assert forall c, id :: GrantedFor(s', c, id) == GrantedFor(s, c, id);
  }

  lemma {:induction false} FilesStay(db: Database, trace: seq<Event>, next: Database, more: seq<Event>)
    requires FilesTraced(db, trace)
    requires next.candidates.Keys == db.candidates.Keys
    requires forall c :: c in db.candidates ==>
      next.candidates[c].(eligible := true) == db.candidates[c].(eligible := true)
    ensures FilesTraced(next, trace + more) && OwnersStay(db, next)
  {
    hide FileTraced;
    forall c | c in next.candidates
      ensures FileTraced(trace + more, c, next.candidates[c].taskId, next.candidates[c].snapshot)
    {
      assert next.candidates[c].(eligible := true) == db.candidates[c].(eligible := true);
      FileStays(trace, more, c, db.candidates[c].taskId, db.candidates[c].snapshot);
    }
    forall c | c in db.candidates
      ensures c in next.candidates && next.candidates[c].taskId == db.candidates[c].taskId
    {
      assert next.candidates[c].(eligible := true) == db.candidates[c].(eligible := true);
    }
  }

  lemma {:induction false} ChangesStay(db: Database, trace: seq<Event>, more: seq<Event>)
    requires ChangesTraced(db, trace)
    ensures ChangesTraced(db, trace + more)
  {
    hide ChangeTraced;
    forall e | e in db.executions
      ensures ChangeTraced(trace + more, e, db.executions[e])
    {
      ChangeStays(trace, more, e, db.executions[e]);
    }
  }
}
