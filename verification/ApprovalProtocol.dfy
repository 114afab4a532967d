/**
 The approval rows and the two processes that act on them: the API handlers, one atomic step each, and the broker, whose
 reads and guarded update are separate steps of any number of connections.
 */
module ApprovalProtocol {
  import opened Wrappers
  import opened Text
  import opened Json
  import opened JsonDicts
  import opened Utf8
  import opened Tokens
  import opened BrokerWire

  // ---------- rows ----------

  datatype Status = PENDING | APPROVED | CONSUMED | REJECTED | EXPIRED

  datatype Approval = Approval(
    taskId: string, requesterId: string, approverId: Option<string>, toolName: string, argumentsJson: string,
    argumentsHash: string, status: Status, expiresAt: int, tokenHash: Option<string>)

  /** The columns of a file that a cleanup depends on. */
  datatype Snapshot = Snapshot(path: string, size: int, inode: int, device: int, snapshotHash: string)

  datatype Candidate = Candidate(taskId: string, snapshot: Snapshot, eligible: bool)

  datatype ProcessCandidate = ProcessCandidate(taskId: string, service: string, eligible: bool)

  datatype ExecutionStatus = SUCCEEDED | FAILED | ROLLED_BACK

  /** An execution row together with its backup row. */
  datatype Execution = Execution(
    taskId: string, approvalId: string, toolName: string, targetRef: Option<string>, backupRef: Option<string>,
    status: ExecutionStatus)

  datatype Database = Database(
    tasks: set<string>, approvals: map<string, Approval>, candidates: map<string, Candidate>,
    processes: map<string, ProcessCandidate>, executions: map<string, Execution>)

  const CLEANUP := "safe_log_cleanup"
  const RESTART := "service_restart"
  const CONFIG_UPDATE := "config_safe_update"
  const TERMINATE := "terminate_process"
  const ROLLBACK := "rollback_change"
  const TOOLS := {CLEANUP, RESTART, CONFIG_UPDATE, TERMINATE, ROLLBACK}

  /** What does not change during a run; `controlled` tells CONTROLLED_EXECUTION from DEMO. */
  datatype Config = Config(sha: Sha, mac: Mac, secret: seq<byte>, controlled: bool, services: set<string>,
      targets: set<string>)

  function TokenHash(cfg: Config, token: string): string {
    cfg.sha(Encode(token))
  }

  function GetText(fs: seq<Field>, key: string): Option<string> {
    match Get(fs, key)
    case Some(Str(s)) => Some(s)
    case _ => None
  }

  /** The only entry of a dict with exactly this key, when it is a string. */
  function OnlyText(fs: seq<Field>, key: string): Option<string> {
    if KeySet(fs) == {key} then GetText(fs, key) else None
  }

  // ---------- API handlers ----------

  predicate ArgumentsAllowed(cfg: Config, db: Database, task: string, tool: string, args: seq<Field>) {
    if tool == CLEANUP then
      var c := OnlyText(args, "candidate_id");
      c.Some? && c.value in db.candidates && db.candidates[c.value].taskId == task && db.candidates[c.value].eligible
    else if tool == ROLLBACK then
      var c := OnlyText(args, "change_id");
      && c.Some? && c.value in db.executions
      && db.executions[c.value].taskId == task && db.executions[c.value].status == SUCCEEDED
    else if tool == RESTART then
      var service := OnlyText(args, "service");
      service.Some? && service.value in cfg.services
    else if tool == CONFIG_UPDATE then
      && KeySet(args) == {"target_id", "content"}
      && GetText(args, "target_id").Some? && GetText(args, "target_id").value in cfg.targets
      && GetText(args, "content").Some?
    else if tool == TERMINATE then
      var c := OnlyText(args, "candidate_id");
      c.Some? && c.value in db.processes && db.processes[c.value].taskId == task && db.processes[c.value].eligible
    else true
  }

  /** `create_approval`; `policyAllows` stands for the decision of the policy engine. */
  function CreateApproval(
      cfg: Config, db: Database, id: string, user: string, task: string, tool: string, args: seq<Field>, expiresAt: int,
      policyAllows: bool): Result<Database>
  {
    if task !in db.tasks then Err("NOT_FOUND")
    else if tool !in TOOLS || id in db.approvals then Err("VALIDATION_ERROR")
    else if cfg.controlled && !ArgumentsAllowed(cfg, db, task, tool, args) then Err("VALIDATION_ERROR")
    else if !policyAllows then Err("RBAC_DENIED")
    else
      var canonical := Canonical(Obj(args));
      var row := Approval(task, user, None, tool, canonical, cfg.sha(Encode(canonical)), PENDING, expiresAt, None);
      Ok(db.(approvals := db.approvals[id := row]))
  }

  function PendingApproval(db: Database, id: string, now: int): Result<Approval> {
    if id !in db.approvals then Err("NOT_FOUND")
    else if db.approvals[id].status != PENDING || db.approvals[id].expiresAt <= now then Err("INVALID_STATE_TRANSITION")
    else Ok(db.approvals[id])
  }

  function Approve(db: Database, id: string, user: string, now: int): Result<Database> {
    var row :- PendingApproval(db, id, now);
    if row.requesterId == user then Err("RBAC_DENIED")
    else Ok(db.(approvals := db.approvals[id := row.(status := APPROVED, approverId := Some(user))]))
  }

  function Reject(db: Database, id: string, user: string, now: int): Result<Database> {
    var row :- PendingApproval(db, id, now);
    Ok(db.(approvals := db.approvals[id := row.(status := REJECTED, approverId := Some(user))]))
  }

  /** The token that `claim_approval_token` issues from the stored arguments. */
  function ClaimedToken(cfg: Config, row: Approval, now: int, nonce: string): Option<string> {
    var arguments :- Loads(row.argumentsJson);
    var scope := Scope(row.requesterId, row.taskId, row.toolName, arguments);
    Some(TokenText(cfg.mac, cfg.secret, IssuedClaims(cfg.sha, scope, now + (row.expiresAt - now), nonce)))
  }

  /** The column `token_hash` is unique. */
  predicate TokenHashFree(db: Database, id: string, hash: string) {
    forall other :: other in db.approvals && db.approvals[other].tokenHash == Some(hash) ==> other == id
  }

  /** `claim_approval_token`: the new rows, and the token on success. Expiry is recorded although the call fails. */
  function Claim(
      cfg: Config, db: Database, id: string, user: string, now: int, nonce: string): (Database, Result<string>)
  {
    if id !in db.approvals then (db, Err("NOT_FOUND"))
    else
      var row := db.approvals[id];
      if row.requesterId != user || row.status != APPROVED then (db, Err("RBAC_DENIED"))
      else if row.expiresAt - now <= 0 then
        (db.(approvals := db.approvals[id := row.(status := EXPIRED)]), Err("INVALID_STATE_TRANSITION"))
      else
        match ClaimedToken(cfg, row, now, nonce)
        case None => (db, Err("JSONDecodeError"))
        case Some(token) =>
          if !TokenHashFree(db, id, TokenHash(cfg, token)) then (db, Err("IntegrityError"))
          else (db.(approvals := db.approvals[id := row.(tokenHash := Some(TokenHash(cfg, token)))]), Ok(token))
  }

  /** A file the classifier found eligible during `run_task`. */
  datatype Finding = Finding(candidateId: string, snapshot: Snapshot)

  function ScopedCandidateId(candidateId: string, taskId: string): string {
    if EndsWith(candidateId, "-" + First(taskId, 12)) then candidateId
    else First(candidateId, 48) + "-" + First(taskId, 12)
  }

  /** Insert or refresh one candidate row; a refreshed row keeps its task. */
  function RecordCandidate(db: Database, task: string, finding: Finding): Database {
    var id := ScopedCandidateId(finding.candidateId, task);
    var owner := if id in db.candidates then db.candidates[id].taskId else task;
    db.(candidates := db.candidates[id := Candidate(owner, finding.snapshot, true)])
  }

  // ---------- execution_run ----------

  datatype RunRequest = RunRequest(userId: string, taskId: string, toolName: string, arguments: seq<Field>,
      token: string, fault: bool)

  /** What an authorized request does to the machine. */
  datatype Operation =
    | RestartNginx
    | UpdateConfig(targetId: string)
    | StopProcess(candidateId: string, service: string)
    | DeleteFile(candidateId: string, file: Snapshot)
    | RestoreFile(changeId: string, backupRef: string, target: string)
    | OtherRollback(changeId: string)
    | DemoChange

  /**
   How the executor ends: a result, a ValueError before the token was consumed or after it, or another exception, before
   or after, after which nothing is committed. `happened` tells that the effect on the machine stands although no result
   came back.
   */
  datatype Ending =
    | Succeeds(changeId: string, backupRef: Option<string>)
    | Rejects
    | Refuses(happened: bool)
    | Crashes(happened: bool)

  predicate Happened(ending: Ending) {
    ending.Succeeds? || ((ending.Refuses? || ending.Crashes?) && ending.happened)
  }

  /** The row with this token hash, if any; the column is unique. */
  ghost function RowByToken(db: Database, hash: string): Option<string> {
    if exists id :: id in db.approvals && db.approvals[id].tokenHash == Some(hash)
    then var id :| id in db.approvals && db.approvals[id].tokenHash == Some(hash); Some(id)
    else None
  }

  /** The approval that the first check of `execution_run` admits. */
  ghost function AdmittedApproval(cfg: Config, db: Database, req: RunRequest): Option<string> {
    var id :- RowByToken(db, TokenHash(cfg, req.token));
    var row := db.approvals[id];
    if row.status == APPROVED && row.requesterId == req.userId && row.taskId == req.taskId
       && row.toolName == req.toolName
    then Some(id) else None
  }

  function RollbackSource(db: Database, req: RunRequest): Option<string> {
    if req.toolName != ROLLBACK then None
    else
      var change :- GetText(req.arguments, "change_id");
      if change in db.executions then Some(change) else None
  }

  predicate BrokerManaged(cfg: Config, db: Database, req: RunRequest, available: bool) {
    cfg.controlled &&
    match RollbackSource(db, req)
    case Some(change) =>
      var source := db.executions[change];
      if source.toolName == CLEANUP then available
      else source.toolName == RESTART && source.targetRef.Some? && "systemd:" <= source.targetRef.value
    case None => req.toolName == RESTART || (req.toolName == CLEANUP && available)
  }

  /** `_eligible_cleanup_candidate`: it does not look at the task of the row. */
  function EligibleCandidate(db: Database, args: seq<Field>): Option<string> {
    var c :- OnlyText(args, "candidate_id");
    if c in db.candidates && db.candidates[c].eligible then Some(c) else None
  }

  /** The operation of a request, and the arguments that its executor presents with the token. */
  function Resolve(cfg: Config, db: Database, req: RunRequest): Option<(Operation, seq<Field>)> {
    if !cfg.controlled then Some((DemoChange, req.arguments))
    else if req.fault then None
    else if req.toolName == CLEANUP then
      var c :- EligibleCandidate(db, req.arguments);
      Some((DeleteFile(c, db.candidates[c].snapshot), [Field("candidate_id", Str(c))]))
    else if req.toolName == RESTART then
      var service :- OnlyText(req.arguments, "service");
      Some((RestartNginx, [Field("service", Str(service))]))
    else if req.toolName == CONFIG_UPDATE then
      var target :- GetText(req.arguments, "target_id");
      var content :- GetText(req.arguments, "content");
      Some((UpdateConfig(target), [Field("target_id", Str(target)), Field("content", Str(content))]))
    else if req.toolName == TERMINATE then
      var c :- OnlyText(req.arguments, "candidate_id");
      if c !in db.processes || !db.processes[c].eligible then None
      else Some((StopProcess(c, db.processes[c].service), [Field("candidate_id", Str(c))]))
    else
      var change :- RollbackSource(db, req);
      var source := db.executions[change];
      if source.taskId != req.taskId || source.status != SUCCEEDED || source.targetRef.None? then None
      else if source.toolName == CLEANUP then
        var backup :- source.backupRef;
        Some((RestoreFile(change, backup, source.targetRef.value), [Field("change_id", Str(change))]))
      else if (source.toolName == CONFIG_UPDATE && "config:" <= source.targetRef.value && source.backupRef.Some?)
           || (source.toolName == TERMINATE && "process:" <= source.targetRef.value)
           || (source.toolName == RESTART && "systemd:" <= source.targetRef.value)
      then Some((OtherRollback(change), [Field("change_id", Str(change))]))
      else None
  }

  /** Insert an execution row; `None` is the violation of a key or of the unique column `approval_id`. */
  function InsertExecution(db: Database, id: string, row: Execution): Option<Database> {
    if
      || id in db.executions
      || exists other :: other in db.executions && db.executions[other].approvalId == row.approvalId
    then None
    else Some(db.(executions := db.executions[id := row]))
  }

  function TargetRef(op: Operation): Option<string> {
    match op
    case DeleteFile(_, file) => Some(file.path)
    case RestartNginx => Some("systemd:nginx")
    case UpdateConfig(target) => Some("config:" + target)
    case StopProcess(_, service) => Some("process:" + service)
    case _ => None
  }

  /** The candidate of an operation cannot be used again. */
  function UseCandidate(db: Database, op: Operation): Database {
    if op.DeleteFile? && op.candidateId in db.candidates then
      db.(candidates := db.candidates[op.candidateId := db.candidates[op.candidateId].(eligible := false)])
    else if op.StopProcess? && op.candidateId in db.processes then
      db.(processes := db.processes[op.candidateId := db.processes[op.candidateId].(eligible := false)])
    else db
  }

  /**
   The rows a successful tool leaves: consumed candidate, rolled-back source, or a new execution; `None` when the commit
   fails.
   */
  function RecordSuccess(
      cfg: Config, db: Database, approvalId: string, req: RunRequest, op: Operation, changeId: string,
      backupRef: Option<string>): Option<Database>
  {
    if RollbackSource(db, req).Some? then
      var change := RollbackSource(db, req).value;
      var undone := db.(executions := db.executions[change := db.executions[change].(status := ROLLED_BACK)]);
      Some(if cfg.controlled then undone else db)
    else
      var status := if !cfg.controlled && req.fault then ROLLED_BACK else SUCCEEDED;
      var used := UseCandidate(db, op);
      InsertExecution(used, changeId, Execution(req.taskId, approvalId, req.toolName, TargetRef(op), backupRef, status))
  }

  function RecordFailure(db: Database, approvalId: string, req: RunRequest, target: Option<string>,
      attemptId: string): Option<Database> {
    InsertExecution(db, attemptId, Execution(req.taskId, approvalId, req.toolName, target, None, FAILED))
  }

  function Consume(db: Database, id: string): Database
    requires id in db.approvals
  {
    db.(approvals := db.approvals[id := db.approvals[id].(status := CONSUMED)])
  }

  // ---------- the broker ----------

  function NonEmptyText(fs: seq<Field>, key: string): Result<string> {
    match GetText(fs, key)
    case Some(s) => if s == "" then Err(SCHEMA_INVALID) else Ok(s)
    case None => Err(SCHEMA_INVALID)
  }

  /** The part of `_authorize_and_consume` that reads the request, after `_parse_request` accepted it. */
  function ReadCall(fs: seq<Field>): Result<Call> {
    var action :- NonEmptyText(fs, "action");
    var user :- NonEmptyText(fs, "user_id");
    var task :- NonEmptyText(fs, "task_id");
    var token :- NonEmptyText(fs, "approval_token");
    if action == ACTION_RESTART then
      if Get(fs, "service") != Some(Str(ALLOWED_SERVICE)) then Err("BROKER_SERVICE_NOT_ALLOWED")
      else Ok(RestartService(ALLOWED_SERVICE, user, task, token))
    else if action == ACTION_ROLLBACK then
      if Get(fs, "service") != Some(Str(ALLOWED_SERVICE)) then Err("BROKER_SERVICE_NOT_ALLOWED")
      else
        var change :- NonEmptyText(fs, "change_id");
        Ok(RollbackService(ALLOWED_SERVICE, user, task, change, token))
    else if action == ACTION_CLEANUP then
      var candidate :- NonEmptyText(fs, "candidate_id");
      Ok(CleanupFile(candidate, user, task, token))
    else if action == ACTION_CLEANUP_ROLLBACK then
      var change :- NonEmptyText(fs, "change_id");
      Ok(RollbackCleanup(change, user, task, token))
    else Err("BROKER_ACTION_NOT_ALLOWED")
  }

  function ExpectedTool(call: Call): string {
    match call
    case RestartService(_, _, _, _) => RESTART
    case CleanupFile(_, _, _, _) => CLEANUP
    case _ => ROLLBACK
  }

  function ExpectedArguments(call: Call): seq<Field> {
    match call
    case RestartService(service, _, _, _) => [Field("service", Str(service))]
    case CleanupFile(candidate, _, _, _) => [Field("candidate_id", Str(candidate))]
    case RollbackService(_, _, _, change, _) => [Field("change_id", Str(change))]
    case RollbackCleanup(change, _, _, _) => [Field("change_id", Str(change))]
  }

  /** The helper arguments, read before the approval is looked up. */
  function PrepareHelper(db: Database, call: Call): Option<Operation> {
    match call
    case CleanupFile(c, _, task, _) =>
      if c in db.candidates && db.candidates[c].taskId == task && db.candidates[c].eligible
      then Some(DeleteFile(c, db.candidates[c].snapshot)) else None
    case RollbackCleanup(change, _, task, _) =>
      if change in db.executions && db.executions[change].taskId == task && db.executions[change].status == SUCCEEDED
         && db.executions[change].toolName == CLEANUP && db.executions[change].targetRef.Some?
         && db.executions[change].backupRef.Some?
      then
        var row := db.executions[change];
        Some(RestoreFile(change, row.backupRef.value, row.targetRef.value))
      else None
    case _ => Some(RestartNginx)
  }

  /** The row that the SELECT of the broker returns is one that matches. */
  predicate RowMatches(cfg: Config, row: Approval, call: Call) {
    && row.tokenHash == Some(TokenHash(cfg, call.token)) && row.status == APPROVED
    && row.requesterId == call.userId && row.taskId == call.taskId && row.toolName == ExpectedTool(call)
    && row.argumentsHash == cfg.sha(Encode(Canonical(Obj(ExpectedArguments(call)))))
  }

  ghost function SelectRow(cfg: Config, db: Database, call: Call, now: int): Option<string> {
    if exists id :: id in db.approvals && RowMatches(cfg, db.approvals[id], call)
    then
      var id :| id in db.approvals && RowMatches(cfg, db.approvals[id], call);
      if db.approvals[id].expiresAt <= now then None else Some(id)
    else None
  }

  /** `UPDATE ... WHERE id = ? AND status = 'APPROVED' AND token_hash = ?` changed a row. */
  predicate UpdateHits(cfg: Config, db: Database, id: string, call: Call) {
    id in db.approvals && db.approvals[id].status == APPROVED
      && db.approvals[id].tokenHash == Some(TokenHash(cfg, call.token))
  }

  /** Where a connection of the broker is between its database steps; `at` is the clock reading of its expiry check. */
  datatype Phase =
    | Prepared(call: Call, operation: Operation)
    | Selected(call: Call, operation: Operation, approvalId: string, at: int)
    | Granted(call: Call, operation: Operation, approvalId: string, at: int)
    | Denied

  // ---------- the system ----------

  /** What was done under an approval, and with which token. */
  datatype Grant = Grant(userId: string, taskId: string, toolName: string, arguments: seq<Field>, token: string,
      operation: Operation)

  /** `at` is the clock reading with which the step checked that the approval had not expired. */
  datatype Event =
    | Created(approvalId: string, requester: string, taskId: string, toolName: string, arguments: seq<Field>,
      expiresAt: int)
    | Approved(approvalId: string, approver: string, at: int)
    | Claimed(approvalId: string, claimer: string, token: string, at: int)
    | Recorded(candidateId: string, owner: string, file: Snapshot)
    | Completed(changeId: string, execution: Execution)
    | Effect(approvalId: string, grant: Grant, committed: bool, at: int)

  /** A brokered `execution_run` between its first check and its final writes. */
  datatype Session = Session(approvalId: string, request: RunRequest, operation: Operation)

  datatype State = State(
    db: Database, connections: map<nat, Phase>, sessions: map<nat, Session>, consumed: set<string>, trace: seq<Event>)

  datatype Action =
    | AddTask(taskId: string)
    | AddProcess(id: string, process: ProcessCandidate)
    | ResetDemo
    | DoCreate(id: string, user: string, taskId: string, tool: string, args: seq<Field>, expiresAt: int,
      policyAllows: bool)
    | DoApprove(id: string, user: string, now: int)
    | DoReject(id: string, user: string, now: int)
    | DoClaim(id: string, user: string, now: int, nonce: string)
    | DoRunTask(taskId: string, finding: Finding)
    | DoRun(session: nat, request: RunRequest, available: bool, now: int, attemptId: string, ending: Ending)
    | DoFinish(session: nat, attemptId: string, ending: Ending)
    | DoConnect(connection: nat, fields: seq<Field>)
    | DoSelect(connection: nat, now: int)
    | DoUpdate(connection: nat)

  function Initial(): State {
    State(Database({}, map[], map[], map[], map[]), map[], map[], {}, [])
  }

  function Log(s: State, db: Database, e: Event): State {
    s.(db := db, trace := s.trace + [e])
  }

  /** The event of a completed execution, if the tables gained the row. */
  function CompletionOf(db: Database, next: Database, changeId: string): seq<Event> {
    if changeId in next.executions && changeId !in db.executions then [Completed(changeId, next.executions[changeId])]
    else []
  }

  /** A ValueError consumes the approval and records the attempt, unless the attempt cannot be recorded. */
  function Failed(db: Database, id: string, req: RunRequest, target: Option<string>, attemptId: string): Database
    requires id in db.approvals
  {
    match RecordFailure(Consume(db, id), id, req, target, attemptId)
    case Some(after) => after
    case None => db
  }

  /** `execution_run` of a tool that the API executes itself: one atomic step. */
  function RunDirect(cfg: Config, s: State, id: string, req: RunRequest, now: int, attemptId: string,
      ending: Ending): State
    requires id in s.db.approvals
  {
    var consumedBefore := if cfg.controlled then {} else s.consumed;
    match Resolve(cfg, s.db, req)
    case None => s.(db := Failed(s.db, id, req, None, attemptId))
    case Some((op, arguments)) =>
      var accepted := Outcome(cfg.sha, cfg.mac, cfg.secret, consumedBefore, req.token,
        Scope(req.userId, req.taskId, req.toolName, Obj(arguments)), now);
      if accepted.Err? && ending.Crashes? then s
      else if accepted.Err? || ending.Rejects? then s.(db := Failed(s.db, id, req, TargetRef(op), attemptId))
      else
        var s1 := if cfg.controlled then s else s.(consumed := s.consumed + Accepted(accepted));
        var grant := Grant(req.userId, req.taskId, req.toolName, arguments, req.token, op);
        Settled(s1, id, grant, Settle(cfg, s.db, id, req, op, attemptId, ending), ending, now)
  }

  /** The rows that are committed when the executor has ended; `None` when the commit fails or never comes. */
  function Settle(cfg: Config, db: Database, id: string, req: RunRequest, op: Operation, attemptId: string,
      ending: Ending): Option<Database>
    requires id in db.approvals
  {
    match ending
    case Succeeds(changeId, backupRef) => RecordSuccess(cfg, Consume(db, id), id, req, op, changeId, backupRef)
    case Crashes(_) => None
    case _ => RecordFailure(Consume(db, id), id, req, TargetRef(op), attemptId)
  }

  function Settled(s: State, id: string, grant: Grant, rows: Option<Database>, ending: Ending, now: int): State {
    var db := if rows.Some? then rows.value else s.db;
    var effect := if Happened(ending) then [Effect(id, grant, rows.Some?, now)] else [];
    var completion := if ending.Succeeds? then CompletionOf(s.db, db, ending.changeId) else [];
    s.(db := db, trace := s.trace + (effect + completion))
  }

  /** The first part of a brokered `execution_run`: the approval stays APPROVED whatever happens here. */
  function BeginBrokered(cfg: Config, s: State, id: string, session: nat, req: RunRequest, available: bool,
      attemptId: string): State {
    var resolved := Resolve(cfg, s.db, req);
    if resolved.Some? && available then s.(sessions := s.sessions[session := Session(id, req, resolved.value.0)])
    else
      match RecordFailure(s.db, id, req, None, attemptId)
      case Some(db) => s.(db := db)
      case None => s
  }

  /** The last part: the rows written after the broker answered. */
  function FinishBrokered(cfg: Config, s: State, ses: Session, attemptId: string, ending: Ending): State {
    match ending
    case Crashes(_) => s
    case Succeeds(changeId, backupRef) =>
      (match RecordSuccess(cfg, s.db, ses.approvalId, ses.request, ses.operation, changeId, backupRef)
       case None => s
       case Some(db) => s.(db := db, trace := s.trace + CompletionOf(s.db, db, changeId)))
    case _ =>
      match RecordFailure(s.db, ses.approvalId, ses.request, TargetRef(ses.operation), attemptId)
      case Some(db) => s.(db := db)
      case None => s
  }

  /** A connection of the broker reads its request and the helper arguments. */
  function Connect(s: State, connection: nat, fields: seq<Field>): State {
    var call := ReadCall(fields);
    var op := if call.Ok? then PrepareHelper(s.db, call.value) else None;
    s.(connections := s.connections[connection := if op.Some? then Prepared(call.value, op.value) else Denied])
  }

  ghost function Select(cfg: Config, s: State, connection: nat, now: int): State {
    if connection !in s.connections || !s.connections[connection].Prepared? then s
    else
      var phase := s.connections[connection];
      var row := SelectRow(cfg, s.db, phase.call, now);
      var next := if row.Some? then Selected(phase.call, phase.operation, row.value, now) else Denied;
      s.(connections := s.connections[connection := next])
  }

  function BrokerGrant(call: Call, op: Operation): Grant {
    Grant(call.userId, call.taskId, ExpectedTool(call), ExpectedArguments(call), call.token, op)
  }

  /** The guarded UPDATE; when it changes a row the connection runs the helper. */
  function Update(cfg: Config, s: State, connection: nat): State {
    if connection !in s.connections || !s.connections[connection].Selected? then s
    else
      var Selected(call, op, id, at) := s.connections[connection];
      if !UpdateHits(cfg, s.db, id, call) then s.(connections := s.connections[connection := Denied])
      else
        var s1 := Log(s, Consume(s.db, id), Effect(id, BrokerGrant(call, op), true, at));
        s1.(connections := s.connections[connection := Granted(call, op, id, at)])
  }

  ghost function Apply(cfg: Config, s: State, a: Action): State {
    match a
    case AddTask(task) => s.(db := s.db.(tasks := s.db.tasks + {task}))
    case AddProcess(id, process) =>
      if id in s.db.processes then s else s.(db := s.db.(processes := s.db.processes[id := process]))
    case ResetDemo => s.(consumed := {})
    case DoCreate(id, user, task, tool, args, expiresAt, policyAllows) =>
      (match CreateApproval(cfg, s.db, id, user, task, tool, args, expiresAt, policyAllows)
       case Ok(db) => Log(s, db, Created(id, user, task, tool, args, expiresAt))
       case Err(_) => s)
    case DoApprove(id, user, now) =>
      (match Approve(s.db, id, user, now)
       case Ok(db) => Log(s, db, Approved(id, user, now))
       case Err(_) => s)
    case DoReject(id, user, now) =>
      (match Reject(s.db, id, user, now)
       case Ok(db) => s.(db := db)
       case Err(_) => s)
    case DoClaim(id, user, now, nonce) =>
      var (db, r) := Claim(cfg, s.db, id, user, now, nonce);
      if r.Ok? then Log(s, db, Claimed(id, user, r.value, now)) else s.(db := db)
    case DoRunTask(task, finding) =>
      if task !in s.db.tasks then s
      else
        var db := RecordCandidate(s.db, task, finding);
        var id := ScopedCandidateId(finding.candidateId, task);
        Log(s, db, Recorded(id, db.candidates[id].taskId, finding.snapshot))
    case DoRun(session, req, available, now, attemptId, ending) =>
      (match AdmittedApproval(cfg, s.db, req)
       case None => s
       case Some(id) =>
         if BrokerManaged(cfg, s.db, req, available) then BeginBrokered(cfg, s, id, session, req, available, attemptId)
         else RunDirect(cfg, s, id, req, now, attemptId, ending))
    case DoFinish(session, attemptId, ending) =>
      if session !in s.sessions then s
      else FinishBrokered(cfg, s.(sessions := s.sessions - {session}), s.sessions[session], attemptId, ending)
    case DoConnect(connection, fields) => if connection in s.connections then s else Connect(s, connection, fields)
    case DoSelect(connection, now) => Select(cfg, s, connection, now)
    case DoUpdate(connection) => Update(cfg, s, connection)
  }

  ghost function RunFrom(cfg: Config, s: State, actions: seq<Action>): State {
    if actions == [] then s else Apply(cfg, RunFrom(cfg, s, actions[..|actions| - 1]), actions[|actions| - 1])
  }

  /** The state after a run; every interleaving of handlers and connections is some list of actions. */
  ghost function After(cfg: Config, actions: seq<Action>): State {
    RunFrom(cfg, Initial(), actions)
  }
}
