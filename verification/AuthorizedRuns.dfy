/** An authorized request is run: by the API itself to its effect, or handed to the broker. */
module AuthorizedRuns {
  import opened Wrappers
  import opened Json
  import opened JsonProofs
  import opened JsonDicts
  import opened Utf8
  import opened Tokens
  import opened BrokerWire
  import opened ApprovalProtocol
  import opened ApprovalInvariant
  import opened ApprovalBinding
  import opened ApprovalSteps
  import opened ApprovalRuns
  import opened ApprovalEffects
  import opened ExecutionRows
  import opened ApprovalLives
  import opened AuthorizedRows
  import opened BrokerGrants
  import opened CompletedChanges

  // ---------- the request is admitted, and its token accepted ----------

  /** The request that the requester makes with the token that was claimed. */
  function RequestOf(cfg: Config, k: Ask): RunRequest {
    RunRequest(k.user, k.task, k.tool, k.args, TokenOf(cfg, k), false)
  }

  predicate HasAuthorized(cfg: Config, db: Database, k: Ask) {
    k.id in db.approvals && db.approvals[k.id] == AuthorizedRow(cfg, k)
  }

  lemma {:induction false} OneByToken(db: Database, id: string, hash: string)
    requires TokensUnique(db) && id in db.approvals && db.approvals[id].tokenHash == Some(hash)
    ensures RowByToken(db, hash) == Some(id)
  {
    forall other | other in db.approvals && db.approvals[other].tokenHash == Some(hash)
      ensures other == id
    {
      assert ApprovalLives.SameToken(db.approvals[other], db.approvals[id]);
    }
  }

  lemma {:induction false} AuthorizedIsAdmitted(cfg: Config, db: Database, k: Ask)
    requires TokensUnique(db) && HasAuthorized(cfg, db, k)
    ensures AdmittedApproval(cfg, db, RequestOf(cfg, k)) == Some(k.id)
  {
    hide TokenOf, Canonical, Encode, TokensUnique, RowByToken;
    OneByToken(db, k.id, TokenHash(cfg, TokenOf(cfg, k)));
  }

  lemma {:induction false} IssuedForAsk(cfg: Config, k: Ask)
    ensures var claims := IssuedClaims(cfg.sha, Scope(k.user, k.task, k.tool, Obj(k.args)), k.expiresAt, k.nonce);
            TokenOf(cfg, k) == TokenText(cfg.mac, cfg.secret, claims)
  {
    hide TokenText, Canonical, Encode;
  }

  lemma {:induction false} AuthorizedIsAccepted(cfg: Config, k: Ask, arguments: seq<Field>, now: int)
    requires DotFree(cfg.mac) && Unique(Obj(k.args)) && Unique(Obj(arguments))
    requires SameValue(Obj(k.args), Obj(arguments))
    ensures TokenAccepted(cfg, {}, RequestOf(cfg, k), arguments, now) <==> now <= k.expiresAt
  {
    hide Outcome, TokenText, SameValue, Unique, TokenOf;
    IssuedForAsk(cfg, k);
    IssuedTokenAccepted(cfg.sha, cfg.mac, cfg.secret, {}, Scope(k.user, k.task, k.tool, Obj(k.args)), k.expiresAt,
      k.nonce, Scope(k.user, k.task, k.tool, Obj(arguments)), now);
  }

  // ---------- by whom it is run ----------

  predicate ChangeForBroker(row: Execution, available: bool) {
    || (row.toolName == "safe_log_cleanup" && available)
    || (row.toolName == "service_restart" && row.targetRef.Some? && "systemd:" <= row.targetRef.value)
  }

  ghost predicate RollbackForBroker(db: Database, args: seq<Field>, available: bool) {
    exists e ::
      GetText(args, "change_id") == Some(e) && e in db.executions && ChangeForBroker(db.executions[e], available)
  }

  /** The broker has to run it: a restart, a cleanup when the broker is there, and the rollbacks of the two. */
  ghost predicate ForBroker(db: Database, req: RunRequest, available: bool) {
    || req.toolName == "service_restart"
    || (req.toolName == "safe_log_cleanup" && available)
    || (req.toolName == "rollback_change" && RollbackForBroker(db, req.arguments, available))
  }

  lemma {:induction false} RoutedExactly(cfg: Config, db: Database, req: RunRequest, available: bool)
    ensures BrokerManaged(cfg, db, req, available) <==> cfg.controlled && ForBroker(db, req, available)
  {
    hide GetText;
    ToolsDiffer();
  }

  /** The tables still hold what was asked for. */
  ghost predicate CanRun(cfg: Config, db: Database, k: Ask, op: Operation) {
    && HasAuthorized(cfg, db, k) && Unique(Obj(k.args)) && MayRequest(cfg, db, k.task, k.tool, k.args)
    && Runs(db, RequestOf(cfg, k), op)
  }

  lemma {:induction false} RunnableResolves(cfg: Config, db: Database, k: Ask, op: Operation)
    requires cfg.controlled && CanRun(cfg, db, k, op)
    ensures var r := Resolve(cfg, db, RequestOf(cfg, k));
            r.Some? && r.value.0 == op && Unique(Obj(r.value.1)) && SameValue(Obj(k.args), Obj(r.value.1))
  {
    hide Resolve, Unique, SameValue, MayRequest, ArgumentsAllowed, Runs, HasAuthorized, TokenOf, Restorable;
    var req := RequestOf(cfg, k);
    AllowedExact(cfg, db, k.task, k.tool, k.args);
    ResolvesExactly(cfg, db, req, op);
    AllowedIsRunnable(cfg, db, req);
    ResolvedArguments(cfg, db, req);
  }

  /**
   An authorized request is run by the API itself, under its own approval and with the operation that was asked for, if
   and only if it is not one for the broker and the approval has not expired. What it then writes is `EndIsWritten`.
   */
  lemma {:induction false} AuthorizedIsRun(
      cfg: Config, actions: seq<Action>, k: Ask, op: Operation, session: nat, available: bool, now: int,
      attemptId: string, change: string, backup: Option<string>)
    requires cfg.controlled && DotFree(cfg.mac) && CanRun(cfg, After(cfg, actions).db, k, op)
    ensures var s := After(cfg, actions);
            var a := DoRun(session, RequestOf(cfg, k), available, now, attemptId, Succeeds(change, backup));
            EndsWith(cfg, s, a, k.id, RequestOf(cfg, k), op, change, backup)
            <==> now <= k.expiresAt && !ForBroker(s.db, RequestOf(cfg, k), available)
  {
    hide After, Resolve, AdmittedApproval, BrokerManaged, TokenAccepted, ForBroker, Unique, SameValue, MayRequest, Runs;
    hide TokensUnique, HasAuthorized, RequestOf;
    var s := After(cfg, actions);
    RequestsStay(cfg, actions);
    AuthorizedIsAdmitted(cfg, s.db, k);
    RunnableResolves(cfg, s.db, k, op);
    AuthorizedIsAccepted(cfg, k, Resolve(cfg, s.db, RequestOf(cfg, k)).value.1, now);
    RoutedExactly(cfg, s.db, RequestOf(cfg, k), available);
  }

  /**
   A request for the broker leaves the approval as it is: when the broker is there the request is remembered with its
   operation, otherwise a failed attempt is written down, unless the approval has an attempt already.
   */
  lemma {:induction false} AuthorizedIsHandedOver(
      cfg: Config, actions: seq<Action>, k: Ask, op: Operation, session: nat, available: bool, now: int,
      attemptId: string, ending: Ending)
    requires cfg.controlled && CanRun(cfg, After(cfg, actions).db, k, op)
    requires ForBroker(After(cfg, actions).db, RequestOf(cfg, k), available)
    ensures var s := After(cfg, actions);
            var s' := Apply(cfg, s, DoRun(session, RequestOf(cfg, k), available, now, attemptId, ending));
            if available then s' == s.(sessions := s.sessions[session := Session(k.id, RequestOf(cfg, k), op)])
            else if attemptId in s.db.executions || HasExecution(s.db, k.id) then s' == s
            else
              var row := Execution(k.task, k.id, k.tool, None, None, FAILED);
              s' == s.(db := s.db.(executions := s.db.executions[attemptId := row]))
  {
    hide After, Resolve, AdmittedApproval, BrokerManaged, ForBroker, Unique, SameValue, MayRequest, Runs;
    hide TokensUnique, HasAuthorized, TokenOf;
    var s := After(cfg, actions);
    RequestsStay(cfg, actions);
    AuthorizedIsAdmitted(cfg, s.db, k);
    RunnableResolves(cfg, s.db, k, op);
    RoutedExactly(cfg, s.db, RequestOf(cfg, k), available);
  }

  // ---------- when it fails ----------

  /** A ValueError of a tool that the API runs: the approval is used up with a failed attempt, or nothing is written. */
  lemma {:induction false} FailureIsWritten(
      cfg: Config, actions: seq<Action>, k: Ask, op: Operation, session: nat, available: bool, now: int,
      attemptId: string)
    requires cfg.controlled && CanRun(cfg, After(cfg, actions).db, k, op)
    requires !ForBroker(After(cfg, actions).db, RequestOf(cfg, k), available)
    ensures var s := After(cfg, actions);
            var s' := Apply(cfg, s, DoRun(session, RequestOf(cfg, k), available, now, attemptId, Rejects));
            var used := s.db.approvals[k.id].(status := CONSUMED);
            if attemptId in s.db.executions || HasExecution(s.db, k.id) then s' == s
            else exists target ::
              && (Writes(op, k.tool, target) || (k.tool == "rollback_change" && target == None))
              && s' == s.(db := s.db.(
                   approvals := s.db.approvals[k.id := used],
                   executions := s.db.executions[attemptId := Execution(k.task, k.id, k.tool, target, None, FAILED)]))
  {
    hide After, Resolve, AdmittedApproval, BrokerManaged, ForBroker, Unique, SameValue, MayRequest, Runs;
    hide TokensUnique, TokenOf, Outcome;
    var s := After(cfg, actions);
    RequestsStay(cfg, actions);
    AuthorizedIsAdmitted(cfg, s.db, k);
    RunnableResolves(cfg, s.db, k, op);
    RunsTool(s.db, RequestOf(cfg, k), op);
    RoutedExactly(cfg, s.db, RequestOf(cfg, k), available);
    assert HasExecution(Consume(s.db, k.id), k.id) == HasExecution(s.db, k.id);
    assert Writes(op, k.tool, TargetRef(op)) || (k.tool == "rollback_change" && TargetRef(op) == None);
  }

  /**
   What a session leaves behind that does not succeed: nothing after another exception than ValueError; otherwise a
   failed row that names task, approval, tool and target, unless the approval has a row or the key is taken. The approval
   is left to the broker.
   */
  lemma {:induction false} UnfinishedIsWritten(cfg: Config, s: State, session: nat, attemptId: string, ending: Ending)
    requires session in s.sessions && ToolRuns(s.sessions[session].request, s.sessions[session].operation)
    requires !ending.Succeeds?
    ensures var s' := Apply(cfg, s, DoFinish(session, attemptId, ending));
            var Session(id, req, op) := s.sessions[session];
            var ended := s.(sessions := s.sessions - {session});
            if ending.Crashes? || attemptId in s.db.executions || HasExecution(s.db, id) then s' == ended
            else exists target ::
              && (Writes(op, req.toolName, target) || (req.toolName == "rollback_change" && target == None))
              && var row := Execution(req.taskId, id, req.toolName, target, None, FAILED);
                 s' == ended.(db := s.db.(executions := s.db.executions[attemptId := row]))
  {
    var Session(id, req, op) := s.sessions[session];
    assert Writes(op, req.toolName, TargetRef(op)) || (req.toolName == "rollback_change" && TargetRef(op) == None);
  }

  // ---------- the DEMO mode ----------

  /** The nonce of an effect, if its token is authentic. */
  function NonceOf(cfg: Config, e: Event): Option<string>
    requires e.Effect?
  {
    match Authenticate(cfg.mac, cfg.secret, e.grant.token)
    case Ok(claims) => Some(claims.nonce)
    case Err(_) => None
  }

  /** From the place `n` on no two effects have one nonce, and every nonce is among the consumed ones. */
  ghost predicate NoncesOnce(cfg: Config, s: State, n: nat) {
    && (forall k :: n <= k < |s.trace| && s.trace[k].Effect? ==>
          NonceOf(cfg, s.trace[k]).Some? && NonceOf(cfg, s.trace[k]).value in s.consumed)
    && (forall k, l :: n <= k < l < |s.trace| && s.trace[k].Effect? && s.trace[l].Effect? ==>
          NonceOf(cfg, s.trace[k]) != NonceOf(cfg, s.trace[l]))
  }

  /** The step adds at most one effect, of a nonce that was not consumed before and is now, and forgets no nonce. */
  ghost predicate SpendsNonce(cfg: Config, s: State, s': State) {
    && s.consumed <= s'.consumed && s.trace <= s'.trace
    && forall k :: |s.trace| <= k < |s'.trace| && s'.trace[k].Effect? ==>
        && k == |s.trace| && NonceOf(cfg, s'.trace[k]).Some?
        && NonceOf(cfg, s'.trace[k]).value !in s.consumed && NonceOf(cfg, s'.trace[k]).value in s'.consumed
  }

  lemma {:induction false} DemoOutcome(cfg: Config, consumed: set<string>, token: string, scope: Scope, now: int)
    ensures var r := Outcome(cfg.sha, cfg.mac, cfg.secret, consumed, token, scope, now);
            r.Ok? ==>
              && Authenticate(cfg.mac, cfg.secret, token) == Ok(r.value)
              && r.value.nonce !in consumed && Accepted(r) == {r.value.nonce}
  {
    hide Authenticate;
  }

  lemma {:induction false} DemoRunSpends(cfg: Config, s: State, id: string, req: RunRequest, now: int,
      attemptId: string, ending: Ending)
    requires !cfg.controlled && id in s.db.approvals
    ensures SpendsNonce(cfg, s, RunDirect(cfg, s, id, req, now, attemptId, ending))
  {
    hide Resolve, Outcome, Settle, Failed, TargetRef, Authenticate, Accepted;
    if Resolve(cfg, s.db, req).Some? {
      DemoOutcome(cfg, s.consumed, req.token,
        Scope(req.userId, req.taskId, req.toolName, Obj(Resolve(cfg, s.db, req).value.1)), now);
    }
  }

  lemma {:induction false} DemoStepSpends(cfg: Config, s: State, a: Action)
    requires !cfg.controlled && !a.ResetDemo? && !a.DoUpdate?
    ensures SpendsNonce(cfg, s, Apply(cfg, s, a))
  {
    hide CreateApproval, Approve, Reject, Claim, RecordCandidate, ScopedCandidateId, AdmittedApproval, RunDirect;
    hide RecordFailure, RecordSuccess, TargetRef, Connect, Select, NonceOf;
    match a {
      case DoRun(_, req, available, now, attemptId, ending) =>
        if AdmittedApproval(cfg, s.db, req).Some? {
          AdmittedStatus(cfg, s.db, req);
          DemoRunSpends(cfg, s, AdmittedApproval(cfg, s.db, req).value, req, now, attemptId, ending);
        }
      case DoConnect(c, fields) =>
        ConnectQuiet(s, c, fields);
        ConnectionConsumes(cfg, s, c, fields, 0);
      case DoSelect(c, now) =>
        SelectQuiet(cfg, s, c, now);
        ConnectionConsumes(cfg, s, c, [], now);
      case _ =>
    }
  }

  lemma {:induction false} ConnectionConsumes(cfg: Config, s: State, c: nat, fields: seq<Field>, now: int)
    ensures Connect(s, c, fields).consumed == s.consumed && Select(cfg, s, c, now).consumed == s.consumed
  {
    hide ReadCall, PrepareHelper, SelectRow;
  }

  lemma {:induction false} SpendingKeeps(cfg: Config, s: State, s': State, n: nat)
    requires NoncesOnce(cfg, s, n) && SpendsNonce(cfg, s, s') && n <= |s.trace|
    ensures NoncesOnce(cfg, s', n)
  {
    hide NonceOf;
    forall k | 0 <= k < |s.trace|
      ensures s'.trace[k] == s.trace[k]
    {
    }
  }

  /** In the DEMO mode, which has no broker, each nonce has at most one effect between two resets. */
  lemma {:induction false} DemoNonceOnce(cfg: Config, s: State, actions: seq<Action>)
    requires !cfg.controlled
    requires forall i :: 0 <= i < |actions| ==> !actions[i].ResetDemo? && !actions[i].DoUpdate?
    ensures |s.trace| <= |RunFrom(cfg, s, actions).trace| && NoncesOnce(cfg, RunFrom(cfg, s, actions), |s.trace|)
    decreases |actions|
  {
    hide Apply, NonceOf;
    if actions != [] {
      var init, last := actions[..|actions| - 1], actions[|actions| - 1];
      assert forall i :: 0 <= i < |init| ==> init[i] == actions[i];
      DemoNonceOnce(cfg, s, init);
      DemoStepSpends(cfg, RunFrom(cfg, s, init), last);
      SpendingKeeps(cfg, RunFrom(cfg, s, init), RunFrom(cfg, s, actions), |s.trace|);
    }
  }
}
