/** The handlers and the broker as code that updates rows, each proved to make one step of the protocol. */
module ApprovalService {
  import opened Wrappers
  import opened Json
  import opened JsonDicts
  import opened Utf8
  import opened Tokens
  import opened BrokerWire
  import opened ApprovalProtocol

  class Service {
    const cfg: Config
    var tasks: set<string>
    var approvals: map<string, Approval>
    var candidates: map<string, Candidate>
    var processes: map<string, ProcessCandidate>
    var executions: map<string, Execution>
    var connections: map<nat, Phase>
    var sessions: map<nat, Session>
    var consumed: set<string>
    ghost var trace: seq<Event>

    constructor (cfg: Config)
      ensures this.cfg == cfg && Current() == Initial() && Valid()
    {
      this.cfg := cfg;
      tasks, approvals, candidates, processes, executions := {}, map[], map[], map[], map[];
      connections, sessions, consumed, trace := map[], map[], {}, [];
    }

    ghost function Rows(): Database
      reads this
    {
      Database(tasks, approvals, candidates, processes, executions)
    }

    ghost function Current(): State
      reads this
    {
      State(Rows(), connections, sessions, consumed, trace)
    }

    /** The column `token_hash` is unique. */
    ghost predicate Valid()
      reads this
    {
      forall a, b ::
        a in approvals && b in approvals && approvals[a].tokenHash.Some?
        && approvals[a].tokenHash == approvals[b].tokenHash
        ==> a == b
    }

    method RequestApproval(id: string, user: string, task: string, tool: string, args: seq<Field>, expiresAt: int,
        policyAllows: bool)
      returns (r: Result<string>)
      requires Valid()
      modifies this
      ensures Valid()
      ensures Current() == Apply(cfg, old(Current()), DoCreate(id, user, task, tool, args, expiresAt, policyAllows))
      ensures r.Ok? <==> CreateApproval(cfg, old(Rows()), id, user, task, tool, args, expiresAt, policyAllows).Ok?
    {
      hide GetText, OnlyText, Dumps;
      if task !in tasks {
        return Err("NOT_FOUND");
      }
      if tool !in TOOLS || id in approvals {
        return Err("VALIDATION_ERROR");
      }
      if cfg.controlled {
        var allowed := CheckArguments(task, tool, args);
        if !allowed {
          return Err("VALIDATION_ERROR");
        }
      }
      if !policyAllows {
        return Err("RBAC_DENIED");
      }
      var canonical := Canonical(Obj(args));
      var approval := Approval(task, user, None, tool, canonical, cfg.sha(Encode(canonical)), PENDING, expiresAt, None);
      approvals := approvals[id := approval];
      trace := trace + [Created(id, user, task, tool, args, expiresAt)];
      return Ok(id);
    }

    method CheckArguments(task: string, tool: string, args: seq<Field>) returns (allowed: bool)
      ensures allowed == ArgumentsAllowed(cfg, Rows(), task, tool, args)
    {
      hide GetText, KeySet;
      if tool == CLEANUP {
        var c := OnlyText(args, "candidate_id");
        return c.Some? && c.value in candidates && candidates[c.value].taskId == task && candidates[c.value].eligible;
      }
      if tool == ROLLBACK {
        var c := OnlyText(args, "change_id");
        return c.Some? && c.value in executions && executions[c.value].taskId == task
           && executions[c.value].status == SUCCEEDED;
      }
      if tool == RESTART {
        var service := OnlyText(args, "service");
        return service.Some? && service.value in cfg.services;
      }
      if tool == CONFIG_UPDATE {
        var target, content := GetText(args, "target_id"), GetText(args, "content");
        return KeySet(args) == {"target_id", "content"} && target.Some? && target.value in cfg.targets && content.Some?;
      }
      if tool == TERMINATE {
        var c := OnlyText(args, "candidate_id");
        return c.Some? && c.value in processes && processes[c.value].taskId == task && processes[c.value].eligible;
      }
      allowed := true;
    }

    method Approve(id: string, user: string, now: int) returns (r: Result<Approval>)
      requires Valid()
      modifies this
      ensures Valid()
      ensures Current() == Apply(cfg, old(Current()), DoApprove(id, user, now))
      ensures r.Ok? <==>
        && id in old(approvals) && old(approvals)[id].status == PENDING && now < old(approvals)[id].expiresAt
        && old(approvals)[id].requesterId != user
      ensures r.Ok? ==>
        && r.value == old(approvals)[id].(status := APPROVED, approverId := Some(user))
        && approvals == old(approvals)[id := r.value]
      ensures r.Err? ==> Current() == old(Current())
    {
      if id !in approvals {
        return Err("NOT_FOUND");
      }
      var approval := approvals[id];
      if approval.status != PENDING || approval.expiresAt <= now {
        return Err("INVALID_STATE_TRANSITION");
      }
      if approval.requesterId == user {
        return Err("RBAC_DENIED");
      }
      approval := approval.(status := APPROVED);
      approval := approval.(approverId := Some(user));
      approvals := approvals[id := approval];
      trace := trace + [Approved(id, user, now)];
      return Ok(approval);
    }

    method Reject(id: string, user: string, now: int) returns (r: Result<Approval>)
      requires Valid()
      modifies this
      ensures Valid()
      ensures Current() == Apply(cfg, old(Current()), DoReject(id, user, now))
      ensures r.Ok? <==>
        && id in old(approvals) && old(approvals)[id].status == PENDING && now < old(approvals)[id].expiresAt
      ensures r.Ok? ==>
        && r.value == old(approvals)[id].(status := REJECTED, approverId := Some(user))
        && Current() == old(Current()).(db := old(Rows()).(approvals := old(approvals)[id := r.value]))
      ensures r.Err? ==> Current() == old(Current())
    {
      if id !in approvals {
        return Err("NOT_FOUND");
      }
      var approval := approvals[id];
      if approval.status != PENDING || approval.expiresAt <= now {
        return Err("INVALID_STATE_TRANSITION");
      }
      approval := approval.(status := REJECTED);
      approval := approval.(approverId := Some(user));
      approvals := approvals[id := approval];
      return Ok(approval);
    }

    /** Every claim issues a fresh token and makes the previous one worthless. */
    method ClaimToken(id: string, user: string, now: int, nonce: string) returns (r: Result<string>)
      requires Valid()
      modifies this
      ensures Valid()
      ensures Current() == Apply(cfg, old(Current()), DoClaim(id, user, now, nonce))
      ensures r.Ok? ==> id in approvals && approvals[id].tokenHash == Some(TokenHash(cfg, r.value))
    {
      hide ClaimedToken;
      if id !in approvals {
        return Err("NOT_FOUND");
      }
      var approval := approvals[id];
      if approval.requesterId != user || approval.status != APPROVED {
        return Err("RBAC_DENIED");
      }
      var remaining := approval.expiresAt - now;
      if remaining <= 0 {
        approvals := approvals[id := approval.(status := EXPIRED)];
        return Err("INVALID_STATE_TRANSITION");
      }
      var token := ClaimedToken(cfg, approval, now, nonce);
      if token.None? {
        return Err("JSONDecodeError");
      }
      var hash := TokenHash(cfg, token.value);
      if !TokenHashFree(Database(tasks, approvals, candidates, processes, executions), id, hash) {
        return Err("IntegrityError");
      }
      approvals := approvals[id := approval.(tokenHash := Some(hash))];
      trace := trace + [Claimed(id, user, token.value, now)];
      return Ok(token.value);
    }

    method RecordFinding(task: string, finding: Finding)
      requires Valid() && task in tasks
      modifies this`candidates, this`trace
      ensures Current() == Apply(cfg, old(Current()), DoRunTask(task, finding))
    {
      hide ScopedCandidateId;
      var id := ScopedCandidateId(finding.candidateId, task);
      if id in candidates {
        candidates := candidates[id := candidates[id].(snapshot := finding.snapshot, eligible := true)];
      } else {
        candidates := candidates[id := Candidate(task, finding.snapshot, true)];
      }
      trace := trace + [Recorded(id, candidates[id].taskId, finding.snapshot)];
    }

    /** The candidates that one `run_task` writes, one action for each finding. */
    method RecordFindings(task: string, findings: seq<Finding>) returns (r: Result<string>)
      requires Valid()
      modifies this`candidates, this`trace
      ensures Valid()
      ensures Current() == RunFrom(cfg, old(Current()), FindingActions(task, findings))
      ensures r.Ok? <==> task in tasks
    {
      hide Apply, RunFrom, FindingActions;
      FindingsRun(cfg, Current(), task, findings, 0);
      if task !in tasks {
        UnknownTask(cfg, Current(), task, findings);
        return Err("NOT_FOUND");
      }
      var n := 0;
      while n < |findings|
        invariant n <= |findings|
        invariant Current() == RunFrom(cfg, old(Current()), FindingActions(task, findings[..n]))
      {
        FindingsRun(cfg, old(Current()), task, findings, n + 1);
        RecordFinding(task, findings[n]);
        n := n + 1;
      }
      assert findings[..n] == findings;
      return Ok(task);
    }

    // ---------- execution_run ----------

    method FindByToken(hash: string) returns (r: Option<string>)
      requires Valid()
      ensures r == RowByToken(Rows(), hash)
      ensures r.Some? ==> r.value in approvals && approvals[r.value].tokenHash == Some(hash)
    {
      if exists id :: id in approvals && approvals[id].tokenHash == Some(hash) {
        var id :| id in approvals && approvals[id].tokenHash == Some(hash);
        r := Some(id);
      } else {
        r := None;
      }
    }

    /** The first check of `execution_run`. */
    method Admit(req: RunRequest) returns (r: Option<string>)
      requires Valid()
      ensures r == AdmittedApproval(cfg, Rows(), req)
      ensures r.Some? ==> r.value in approvals && approvals[r.value].status == APPROVED
    {
      hide RowByToken, TokenHash;
      r := FindByToken(TokenHash(cfg, req.token));
      if r.Some? {
        var approval := approvals[r.value];
        if approval.status != APPROVED || approval.requesterId != req.userId || approval.taskId != req.taskId
           || approval.toolName != req.toolName {
          r := None;
        }
      }
    }

    method ExecutionRun(session: nat, req: RunRequest, available: bool, now: int, attemptId: string, ending: Ending)
      requires Valid()
      modifies this
      ensures Valid()
      ensures Current() == Apply(cfg, old(Current()), DoRun(session, req, available, now, attemptId, ending))
    {
      hide Resolve, RecordFailure, RecordSuccess, Outcome, TargetRef, AdmittedApproval, BrokerManaged, RunDirect;
      var found := Admit(req);
      if found.None? {
        return;
      }
      if BrokerManaged(cfg, Database(tasks, approvals, candidates, processes, executions), req, available) {
        BeginExecution(found.value, session, req, available, attemptId);
      } else {
        RunTool(found.value, req, now, attemptId, ending);
      }
    }

    /** The approval is consumed first; an exception other than ValueError rolls that back with everything else. */
    method RunTool(id: string, req: RunRequest, now: int, attemptId: string, ending: Ending)
      requires Valid() && id in approvals
      modifies this
      ensures Valid()
      ensures Current() == RunDirect(cfg, old(Current()), id, req, now, attemptId, ending)
    {
      hide Resolve, RecordFailure, RecordSuccess, Outcome, TargetRef;
      var before := approvals;
      approvals := approvals[id := approvals[id].(status := CONSUMED)];
      SameOperation(cfg, old(Rows()), Rows(), req);
      var resolved := Resolve(cfg, Database(tasks, approvals, candidates, processes, executions), req);
      if resolved.None? {
        var _ := FailAttempt(before, id, req, None, attemptId);
        return;
      }
      var (op, arguments) := resolved.value;
      var accepted := Outcome(
        cfg.sha, cfg.mac, cfg.secret, if cfg.controlled then {} else consumed, req.token,
        Scope(req.userId, req.taskId, req.toolName, Obj(arguments)), now);
      if accepted.Err? && ending.Crashes? {
        approvals := before;
        return;
      }
      if accepted.Err? || ending.Rejects? {
        var _ := FailAttempt(before, id, req, TargetRef(op), attemptId);
        return;
      }
      var grant := Grant(req.userId, req.taskId, req.toolName, arguments, req.token, op);
      if !cfg.controlled {
        consumed := consumed + Accepted(accepted);
      }
      EndTool(before, id, req, op, grant, now, attemptId, ending);
    }

    /** How the call ends once the executor has: `before` is what the approvals are again when nothing is committed. */
    method EndTool(
        before: map<string, Approval>, id: string, req: RunRequest, op: Operation, grant: Grant, now: int,
        attemptId: string, ending: Ending)
      requires id in before && approvals == before[id := before[id].(status := CONSUMED)] && !ending.Rejects?
      modifies this
      ensures var db := old(Rows()).(approvals := before);
              Current() == Settled(old(Current()).(db := db), id, grant,
                Settle(cfg, db, id, req, op, attemptId, ending), ending, now)
      ensures approvals == old(approvals) || approvals == before
    {
      hide RecordFailure, RecordSuccess, TargetRef;
      assert Rows() == Consume(Rows().(approvals := before), id);
      match ending {
        case Refuses(happened) =>
          var recorded := FailAttempt(before, id, req, TargetRef(op), attemptId);
          if happened {
            trace := trace + ([Effect(id, grant, recorded, now)] + []);
          }
        case Crashes(happened) =>
          approvals := before;
          if happened {
            trace := trace + ([Effect(id, grant, false, now)] + []);
          }
        case Succeeds(changeId, backupRef) =>
          CompleteExecution(before, id, req, op, grant, now, changeId, backupRef);
      }
      assert old(trace) + ([] + []) == old(trace);
    }

    /** The handler of ValueError; `before` holds the approvals that a failing commit leaves. */
    method FailAttempt(before: map<string, Approval>, id: string, req: RunRequest, target: Option<string>,
        attemptId: string)
      returns (recorded: bool)
      modifies this`approvals, this`executions
      ensures match RecordFailure(old(Rows()), id, req, target, attemptId)
              case Some(db) => recorded && Rows() == db && approvals == old(approvals)
              case None => !recorded && Rows() == old(Rows()).(approvals := before)
    {
      recorded := AddExecution(attemptId, Execution(req.taskId, id, req.toolName, target, None, FAILED));
      if !recorded {
        approvals := before;
      }
    }

    method AddExecution(id: string, row: Execution) returns (added: bool)
      modifies this`executions
      ensures match InsertExecution(old(Rows()), id, row)
              case Some(db) => added && Rows() == db
              case None => !added && Rows() == old(Rows())
    {
      added :=
        id !in executions && forall other :: other in executions ==> executions[other].approvalId != row.approvalId;
      if added {
        executions := executions[id := row];
      }
    }

    method CompleteExecution(
        before: map<string, Approval>, id: string, req: RunRequest, op: Operation, grant: Grant, now: int,
        changeId: string, backupRef: Option<string>)
      modifies this
      ensures connections == old(connections) && sessions == old(sessions) && consumed == old(consumed)
      ensures match RecordSuccess(cfg, old(Rows()), id, req, op, changeId, backupRef)
              case Some(db) =>
                && Rows() == db && approvals == old(approvals)
                && trace == old(trace) + ([Effect(id, grant, true, now)] + CompletionOf(old(Rows()), db, changeId))
              case None =>
                && Rows() == old(Rows()).(approvals := before)
                && trace == old(trace) + ([Effect(id, grant, false, now)] + [])
    {
      hide RecordSuccess;
      var done := CommitSuccess(id, req, op, changeId, backupRef);
      if done {
        trace := trace + ([Effect(id, grant, true, now)] + CompletionOf(old(Rows()), Rows(), changeId));
      } else {
        approvals := before;
        trace := trace + ([Effect(id, grant, false, now)] + []);
      }
    }

    method UseUp(op: Operation)
      modifies this`candidates, this`processes
      ensures Rows() == UseCandidate(old(Rows()), op)
    {
      if op.DeleteFile? && op.candidateId in candidates {
        candidates := candidates[op.candidateId := candidates[op.candidateId].(eligible := false)];
      } else if op.StopProcess? && op.candidateId in processes {
        processes := processes[op.candidateId := processes[op.candidateId].(eligible := false)];
      }
    }

    /**
     The candidate is used up, and the source of a rollback is marked or an execution row added; nothing when that
     fails.
     */
    method CommitSuccess(id: string, req: RunRequest, op: Operation, changeId: string,
        backupRef: Option<string>)
      returns (done: bool)
      modifies this`candidates, this`processes, this`executions
      ensures match RecordSuccess(cfg, old(Rows()), id, req, op, changeId, backupRef)
              case Some(db) => done && Rows() == db
              case None => !done && Rows() == old(Rows())
    {
      hide GetText, InsertExecution, UseCandidate, TargetRef;
      var source := RollbackSource(Database(tasks, approvals, candidates, processes, executions), req);
      if source.Some? {
        if cfg.controlled {
          executions := executions[source.value := executions[source.value].(status := ROLLED_BACK)];
        }
        return true;
      }
      var files, services := candidates, processes;
      UseUp(op);
      var status := if !cfg.controlled && req.fault then ROLLED_BACK else SUCCEEDED;
      done := AddExecution(changeId, Execution(req.taskId, id, req.toolName, TargetRef(op), backupRef, status));
      if !done {
        CandidateTables(old(Rows()), op);
        candidates, processes := files, services;
      }
    }

    method BeginExecution(id: string, session: nat, req: RunRequest, available: bool, attemptId: string)
      requires Valid()
      modifies this
      ensures Valid()
      ensures Current() == BeginBrokered(cfg, old(Current()), id, session, req, available, attemptId)
    {
      hide Resolve, RecordFailure;
      var resolved := Resolve(cfg, Database(tasks, approvals, candidates, processes, executions), req);
      if resolved.Some? && available {
        sessions := sessions[session := Session(id, req, resolved.value.0)];
      } else {
        var _ := FailAttempt(approvals, id, req, None, attemptId);
      }
    }

    method FinishExecution(session: nat, attemptId: string, ending: Ending)
      requires Valid() && session in sessions
      modifies this
      ensures Valid()
      ensures Current() == FinishBrokered(cfg, old(Current()).(sessions := old(sessions) - {session}),
        old(sessions)[session], attemptId, ending)
    {
      hide RecordFailure, RecordSuccess, TargetRef;
      var Session(id, req, op) := sessions[session];
      sessions := sessions - {session};
      match ending {
        case Crashes(_) =>
        case Rejects => var _ := FailAttempt(approvals, id, req, TargetRef(op), attemptId);
        case Refuses(_) => var _ := FailAttempt(approvals, id, req, TargetRef(op), attemptId);
        case Succeeds(changeId, backupRef) =>
          var done := CommitSuccess(id, req, op, changeId, backupRef);
          if done {
            trace := trace + CompletionOf(old(Rows()), Rows(), changeId);
          }
      }
    }

    // ---------- the broker ----------

    /** The helper arguments are read in a transaction of their own, before the approval is looked up. */
    method ReadHelperArguments(connection: nat, fields: seq<Field>)
      requires Valid() && connection !in connections
      modifies this`connections
      ensures Current() == Connect(old(Current()), connection, fields)
    {
      hide ReadCall, PrepareHelper;
      var call := ReadCall(fields);
      if call.Err? {
        connections := connections[connection := Denied];
        return;
      }
      var op := PrepareHelper(Database(tasks, approvals, candidates, processes, executions), call.value);
      if op.None? {
        connections := connections[connection := Denied];
        return;
      }
      connections := connections[connection := Prepared(call.value, op.value)];
    }

    method SelectApproval(connection: nat, now: int)
      requires Valid() && connection in connections && connections[connection].Prepared?
      modifies this`connections
      ensures Current() == Select(cfg, old(Current()), connection, now)
    {
      var Prepared(call, op) := connections[connection];
      if exists id :: id in approvals && RowMatches(cfg, approvals[id], call) {
        var id :| id in approvals && RowMatches(cfg, approvals[id], call);
        OneMatch(id, call, now);
        hide RowMatches;
        if approvals[id].expiresAt <= now {
          connections := connections[connection := Denied];
        } else {
          connections := connections[connection := Selected(call, op, id, now)];
        }
      } else {
        connections := connections[connection := Denied];
      }
    }

    lemma {:induction false} OneMatch(id: string, call: Call, now: int)
      requires Valid() && id in approvals && RowMatches(cfg, approvals[id], call)
      ensures SelectRow(cfg, Rows(), call, now) == if approvals[id].expiresAt <= now then None else Some(id)
    {
      hide TokenHash, Encode, Canonical, ExpectedArguments, ExpectedTool;
    }

    /** Only a row that is still APPROVED and still has the token is consumed; otherwise the request is a replay. */
    method ConsumeApproval(connection: nat) returns (helper: Result<Operation>)
      requires Valid() && connection in connections && connections[connection].Selected?
      modifies this`connections, this`approvals, this`trace
      ensures Valid()
      ensures Current() == Update(cfg, old(Current()), connection)
      ensures helper.Ok? <==> connections[connection].Granted?
      ensures helper.Ok? ==> helper.value == old(connections)[connection].operation
    {
      hide TokenHash, BrokerGrant;
      var Selected(call, op, id, at) := connections[connection];
      if id !in approvals || approvals[id].status != APPROVED
         || approvals[id].tokenHash != Some(TokenHash(cfg, call.token)) {
        connections := connections[connection := Denied];
        return Err("BROKER_APPROVAL_REPLAYED");
      }
      approvals := approvals[id := approvals[id].(status := CONSUMED)];
      connections := connections[connection := Granted(call, op, id, at)];
      trace := trace + [Effect(id, BrokerGrant(call, op), true, at)];
      return Ok(op);
    }
  }

  function FindingActions(task: string, findings: seq<Finding>): (actions: seq<Action>)
    ensures |actions| == |findings|
  {
    seq(|findings|, i requires 0 <= i < |findings| => DoRunTask(task, findings[i]))
  }

  lemma {:induction false} FindingsRun(cfg: Config, s: State, task: string, findings: seq<Finding>, n: nat)
    requires n <= |findings|
    ensures n == 0 ==> RunFrom(cfg, s, FindingActions(task, findings[..0])) == s
    ensures n > 0 ==> RunFrom(cfg, s, FindingActions(task, findings[..n]))
                      == Apply(cfg, RunFrom(cfg, s, FindingActions(task, findings[..n - 1])),
                        DoRunTask(task, findings[n - 1]))
  {
    hide Apply;
    if n > 0 {
      assert FindingActions(task, findings[..n])[..n - 1] == FindingActions(task, findings[..n - 1]);
    }
  }

  lemma {:induction false} CandidateTables(db: Database, op: Operation)
    ensures UseCandidate(db, op) == db.(candidates := UseCandidate(db, op).candidates,
      processes := UseCandidate(db, op).processes)
  {
  }

  lemma {:induction false} UnknownTask(cfg: Config, s: State, task: string, findings: seq<Finding>)
    requires task !in s.db.tasks
    ensures RunFrom(cfg, s, FindingActions(task, findings)) == s
    decreases |findings|
  {
    if findings != [] {
      var init := findings[..|findings| - 1];
      var actions := FindingActions(task, findings);
      assert actions[..|findings| - 1] == FindingActions(task, init);
      UnknownTask(cfg, s, task, init);
    }
  }

  /** What a request resolves to does not depend on the approvals. */
  lemma {:induction false} SameOperation(cfg: Config, db: Database, next: Database, req: RunRequest)
    requires next == db.(approvals := next.approvals)
    ensures Resolve(cfg, next, req) == Resolve(cfg, db, req)
  {
    hide OnlyText, GetText;
  }
}
