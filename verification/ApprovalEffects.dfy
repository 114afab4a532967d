/** How many effects one approval can have, and when one of them is not committed with it. */
module ApprovalEffects {
  import opened Wrappers
  import opened Json
  import opened JsonProofs
  import opened JsonDicts
  import opened Utf8
  import opened Tokens
  import opened BrokerWire
  import opened ApprovalProtocol
  import opened ApprovalInvariant
  import opened ApprovalBinding
  import opened ApprovalSteps
  import opened ApprovalRuns

  // ---------- when the rows of a direct tool are not committed ----------

  predicate HasExecution(db: Database, id: string) {
    exists e :: e in db.executions && db.executions[e].approvalId == id
  }

  /**
   An exception other than ValueError commits nothing; a new execution row is refused when its key is taken or, whatever
   came of them, when an earlier attempt under the approval has one.
   */
  predicate CommitFails(db: Database, id: string, req: RunRequest, attemptId: string, ending: Ending) {
    match ending
    case Crashes(_) => true
    case Succeeds(changeId, _) => RollbackSource(db, req).None? && (changeId in db.executions || HasExecution(db, id))
    case _ => attemptId in db.executions || HasExecution(db, id)
  }

  lemma {:induction false} SettleFails(
      cfg: Config, db: Database, id: string, req: RunRequest, op: Operation, attemptId: string, ending: Ending)
    requires id in db.approvals
    ensures Settle(cfg, db, id, req, op, attemptId, ending).None? <==> CommitFails(db, id, req, attemptId, ending)
    ensures Settle(cfg, db, id, req, op, attemptId, ending).Some? ==>
      Settle(cfg, db, id, req, op, attemptId, ending).value.approvals == Consume(db, id).approvals
  {
    hide TargetRef;
    var used := Consume(db, id);
    SameSource(db, used, req);
    CandidateOnly(used, op);
    assert HasExecution(UseCandidate(used, op), id) == HasExecution(db, id);
    hide UseCandidate, RollbackSource;
  }

  lemma {:induction false} CandidateOnly(db: Database, op: Operation)
    ensures UseCandidate(db, op).executions == db.executions && UseCandidate(db, op).approvals == db.approvals
  {
  }

  /**
   A tool that the API runs itself, once its token is accepted: its effect is committed together with the use of the
   approval exactly when the commit does not fail; otherwise every row is as before although the effect stands.
   */
  lemma {:induction false} DirectEffectCommits(
      cfg: Config, s: State, id: string, req: RunRequest, now: int, attemptId: string, ending: Ending)
    requires id in s.db.approvals && Resolve(cfg, s.db, req).Some? && Happened(ending)
    requires TokenAccepted(cfg, if cfg.controlled then {} else s.consumed, req, Resolve(cfg, s.db, req).value.1, now)
    ensures var s' := RunDirect(cfg, s, id, req, now, attemptId, ending);
            && |s.trace| < |s'.trace| && s.trace == s'.trace[..|s.trace|]
            && s'.trace[|s.trace|].Effect? && s'.trace[|s.trace|].approvalId == id
            && (s'.trace[|s.trace|].committed <==> !CommitFails(s.db, id, req, attemptId, ending))
            && (if s'.trace[|s.trace|].committed then s'.db.approvals == Consume(s.db, id).approvals
                else s'.db == s.db && |s'.trace| == |s.trace| + 1)
  {
    hide Resolve, Outcome, Settle, CommitFails, Consume;
    var (op, _) := Resolve(cfg, s.db, req).value;
    SettleFails(cfg, s.db, id, req, op, attemptId, ending);
  }

  // ---------- every step ----------

  /** The step is a direct run whose commit fails. */
  predicate Uncommits(s: State, a: Action, id: string) {
    a.DoRun? && CommitFails(s.db, id, a.request, a.attemptId, a.ending)
  }

  /** An effect needs an approval that is APPROVED before the step, and is committed unless the step cannot commit. */
  predicate EffectAllowed(s: State, a: Action, e: Event)
    requires e.Effect?
  {
    && e.approvalId in s.db.approvals && s.db.approvals[e.approvalId].status == APPROVED
    && (e.committed <==> !Uncommits(s, a, e.approvalId))
  }

  /** The trace only grows, by at most one effect. */
  ghost predicate OneEffect(s: State, a: Action, s': State) {
    && s.trace <= s'.trace
    && forall j :: |s.trace| <= j < |s'.trace| && s'.trace[j].Effect? ==>
        && j == |s.trace| && EffectAllowed(s, a, s'.trace[j])
  }

  lemma {:induction false} SettledEffect(s: State, s1: State, a: Action, id: string, grant: Grant,
      rows: Option<Database>, ending: Ending, now: int)
    requires s1.trace == s.trace && s1.db == s.db && id in s.db.approvals && s.db.approvals[id].status == APPROVED
    requires rows.Some? <==> !Uncommits(s, a, id)
    ensures OneEffect(s, a, Settled(s1, id, grant, rows, ending, now))
  {
    hide Uncommits;
  }

  lemma {:induction false} RunEffect(
      cfg: Config, s: State, session: nat, req: RunRequest, available: bool, now: int, attemptId: string,
      ending: Ending)
    ensures OneEffect(s, DoRun(session, req, available, now, attemptId, ending),
                      Apply(cfg, s, DoRun(session, req, available, now, attemptId, ending)))
  {
    hide AdmittedApproval, Admits, Resolve, Outcome, Settle, Settled, RecordFailure, Failed, BrokerManaged, OneEffect;
    hide TargetRef, CommitFails;
    var a := DoRun(session, req, available, now, attemptId, ending);
    var admitted := AdmittedApproval(cfg, s.db, req);
    QuietEffect(s, a, s.trace);
    if admitted.Some? {
      AdmittedStatus(cfg, s.db, req);
      if !BrokerManaged(cfg, s.db, req, available) && Resolve(cfg, s.db, req).Some? {
        var id := admitted.value;
        var (op, arguments) := Resolve(cfg, s.db, req).value;
        var r := Outcome(
          cfg.sha, cfg.mac, cfg.secret, if cfg.controlled then {} else s.consumed, req.token,
          Scope(req.userId, req.taskId, req.toolName, Obj(arguments)), now);
        var s1 := if cfg.controlled then s else s.(consumed := s.consumed + Accepted(r));
        var rows := Settle(cfg, s.db, id, req, op, attemptId, ending);
        SettleFails(cfg, s.db, id, req, op, attemptId, ending);
        SettledEffect(s, s1, a, id, Grant(req.userId, req.taskId, req.toolName, arguments, req.token, op), rows, ending,
          now);
      }
    }
  }

  lemma {:induction false} AdmittedStatus(cfg: Config, db: Database, req: RunRequest)
    requires AdmittedApproval(cfg, db, req).Some?
    ensures AdmittedApproval(cfg, db, req).value in db.approvals
    ensures db.approvals[AdmittedApproval(cfg, db, req).value].status == APPROVED
  {
    hide TokenHash;
  }

  /** A step that leaves the trace alone has no effect. */
  lemma {:induction false} QuietEffect(s: State, a: Action, trace: seq<Event>)
    requires trace == s.trace
    ensures forall s': State :: s'.trace == trace ==> OneEffect(s, a, s')
  {
  }

  lemma {:induction false} FinishEffect(cfg: Config, s: State, session: nat, attemptId: string, ending: Ending)
    ensures OneEffect(s, DoFinish(session, attemptId, ending), Apply(cfg, s, DoFinish(session, attemptId, ending)))
  {
    hide RecordSuccess, RecordFailure, TargetRef, EffectAllowed;
  }

  lemma {:induction false} UpdateEffect(cfg: Config, s: State, c: nat)
    ensures OneEffect(s, DoUpdate(c), Update(cfg, s, c))
  {
    hide TokenHash, BrokerGrant;
  }

  /** In every step at most one effect happens, under an approval that is APPROVED. */
  lemma {:induction false} StepEffect(cfg: Config, s: State, a: Action)
    ensures OneEffect(s, a, Apply(cfg, s, a))
  {
    hide CreateApproval, Approve, Reject, Claim, RecordCandidate, ScopedCandidateId, Connect, Select, Update;
    hide EffectAllowed;
    match a {
      case DoRun(session, req, available, now, attemptId, ending) =>
        RunEffect(cfg, s, session, req, available, now, attemptId, ending);
      case DoFinish(session, attemptId, ending) => FinishEffect(cfg, s, session, attemptId, ending);
      case DoUpdate(c) => UpdateEffect(cfg, s, c);
      case DoConnect(c, fields) => ConnectQuiet(s, c, fields);
      case DoSelect(c, now) => SelectQuiet(cfg, s, c, now);
      case _ =>
    }
  }

  lemma {:induction false} ConnectQuiet(s: State, c: nat, fields: seq<Field>)
    ensures Connect(s, c, fields).trace == s.trace
  {
    hide ReadCall, PrepareHelper;
  }

  lemma {:induction false} SelectQuiet(cfg: Config, s: State, c: nat, now: int)
    ensures Select(cfg, s, c, now).trace == s.trace
  {
    hide SelectRow;
  }

  // ---------- whole runs ----------

  /** The effect at `k` is the one of the `n`-th action. */
  ghost predicate OriginAt(cfg: Config, actions: seq<Action>, k: nat, n: nat) {
    && n < |actions|
    && k < |After(cfg, actions).trace| && After(cfg, actions).trace[k].Effect?
    && |After(cfg, actions[..n]).trace| == k < |After(cfg, actions[..n + 1]).trace|
    && EffectAllowed(After(cfg, actions[..n]), actions[n], After(cfg, actions).trace[k])
  }

  /**
   Every effect of every run belongs to one action, whose approval was APPROVED; and it is uncommitted if and only if
   that action is a direct run whose tool raised something else than ValueError, or whose execution row was refused.
   */
  lemma {:induction false} EffectOrigin(cfg: Config, actions: seq<Action>, k: nat) returns (n: nat)
    requires k < |After(cfg, actions).trace| && After(cfg, actions).trace[k].Effect?
    ensures OriginAt(cfg, actions, k, n)
    decreases |actions|
  {
    hide Apply, EffectAllowed;
    var last := |actions| - 1;
    var init := actions[..last];
    StepEffect(cfg, After(cfg, init), actions[last]);
    if k < |After(cfg, init).trace| {
      n := EffectOrigin(cfg, init, k);
      assert init[..n] == actions[..n] && init[..n + 1] == actions[..n + 1];
    } else {
      n := last;
      assert actions[..n + 1] == actions;
    }
  }

  /** When an approval has two effects, the commit of the action behind the first one failed. */
  lemma {:induction false} SecondEffectNeedsFailedCommit(cfg: Config, actions: seq<Action>, k: nat, l: nat)
    returns (n: nat)
    requires DotFree(cfg.mac) && LegalRun(actions)
    requires k < l < |After(cfg, actions).trace| && After(cfg, actions).trace[k].Effect?
    requires EffectAt(After(cfg, actions).trace, l, After(cfg, actions).trace[k].approvalId)
    ensures OriginAt(cfg, actions, k, n) && !After(cfg, actions).trace[k].committed
    ensures Uncommits(After(cfg, actions[..n]), actions[n], After(cfg, actions).trace[k].approvalId)
  {
    hide After, Uncommits;
    var id := After(cfg, actions).trace[k].approvalId;
    ApprovalUsedOnce(cfg, actions);
    assert CommittedAt(After(cfg, actions).trace, k, id) ==> l <= k;
    n := EffectOrigin(cfg, actions, k);
  }

  /** Conversely an uncommitted effect leaves the approval as it was, for the same request to be run again. */
  lemma {:induction false} EffectMayRepeat(
      cfg: Config, s: State, id: string, req: RunRequest, session: nat, now: int, later: int,
      attempts: (string, string), ending: Ending)
    requires cfg.controlled && AdmittedApproval(cfg, s.db, req) == Some(id) && !BrokerManaged(cfg, s.db, req, false)
    requires Resolve(cfg, s.db, req).Some? && Happened(ending)
    requires TokenAccepted(cfg, {}, req, Resolve(cfg, s.db, req).value.1, now)
    requires TokenAccepted(cfg, {}, req, Resolve(cfg, s.db, req).value.1, later)
    ensures var s1 := Apply(cfg, s, DoRun(session, req, false, now, attempts.0, Crashes(true)));
            var s2 := Apply(cfg, s1, DoRun(session, req, false, later, attempts.1, ending));
            && s1.db == s.db && |s1.trace| == |s.trace| + 1 && s1.trace < s2.trace
            && EffectAt(s2.trace, |s.trace|, id) && EffectAt(s2.trace, |s.trace| + 1, id)
            && (ending.Crashes? ==> s2.db == s.db)
  {
    hide Resolve, RunDirect, AdmittedApproval, TokenAccepted, BrokerManaged;
    AdmittedStatus(cfg, s.db, req);
    var a := DoRun(session, req, false, now, attempts.0, Crashes(true));
    DirectEffectCommits(cfg, s, id, req, now, attempts.0, Crashes(true));
    var s1 := Apply(cfg, s, a);
    DirectEffectCommits(cfg, s1, id, req, later, attempts.1, ending);
  }

  lemma {:induction false} RefusedAttempt(cfg: Config, s: State, id: string, req: RunRequest, session: nat, now: int,
      attemptId: string)
    requires cfg.controlled && AdmittedApproval(cfg, s.db, req) == Some(id)
    requires req.toolName == CLEANUP && Resolve(cfg, s.db, req).Some?
    requires !HasExecution(s.db, id) && attemptId !in s.db.executions
    ensures var s1 := Apply(cfg, s, DoRun(session, req, true, now, attemptId, Rejects));
            var s2 := Apply(cfg, s1, DoFinish(session, attemptId, Refuses(false)));
            && s2.trace == s.trace && s2.consumed == s.consumed && HasExecution(s2.db, id)
            && s2.db == s.db.(executions := s2.db.executions)
            && s2.db.executions.Keys == s.db.executions.Keys + {attemptId}
  {
    hide AdmittedApproval, Resolve, TargetRef;
    var op := Resolve(cfg, s.db, req).value.0;
    var row := Execution(req.taskId, id, req.toolName, TargetRef(op), None, FAILED);
    assert InsertExecution(s.db, attemptId, row) == Some(s.db.(executions := s.db.executions[attemptId := row]));
    assert s.db.executions[attemptId := row][attemptId].approvalId == id;
  }

  /** After the broker refused a cleanup, the API may run it without a broker, but cannot commit its effect any more. */
  lemma {:induction false} RefusalBlocksCommit(
      cfg: Config, s: State, id: string, req: RunRequest, session: nat, now: int, attempts: (string, string),
      ending: Ending)
    requires cfg.controlled && AdmittedApproval(cfg, s.db, req) == Some(id)
    requires TokenHashFree(s.db, id, TokenHash(cfg, req.token))
    requires req.toolName == CLEANUP && Resolve(cfg, s.db, req).Some?
    requires TokenAccepted(cfg, {}, req, Resolve(cfg, s.db, req).value.1, now) && Happened(ending)
    requires !HasExecution(s.db, id) && attempts.0 !in s.db.executions
    ensures var s1 := Apply(cfg, s, DoRun(session, req, true, now, attempts.0, Rejects));
            var s2 := Apply(cfg, s1, DoFinish(session, attempts.0, Refuses(false)));
            var s3 := Apply(cfg, s2, DoRun(session, req, false, now, attempts.1, ending));
            && s3.db == s2.db && |s3.trace| == |s.trace| + 1
            && EffectAt(s3.trace, |s.trace|, id) && !s3.trace[|s.trace|].committed
            && id in s3.db.approvals && s3.db.approvals[id].status == APPROVED
  {
    hide Resolve, RunDirect, AdmittedApproval, TokenAccepted, HasExecution;
    var s1 := Apply(cfg, s, DoRun(session, req, true, now, attempts.0, Rejects));
    var s2 := Apply(cfg, s1, DoFinish(session, attempts.0, Refuses(false)));
    RefusedAttempt(cfg, s, id, req, session, now, attempts.0);
    AdmittedMatches(cfg, s.db, req);
    AdmittedAgain(cfg, s.db, s2.db, req, id);
    SameResolution(cfg, s.db, s2.db, req);
    hide BeginBrokered, FinishBrokered, TokenHashFree, TokenHash;
    DirectEffectCommits(cfg, s2, id, req, now, attempts.1, ending);
  }

  lemma {:induction false} AdmittedAgain(cfg: Config, db: Database, next: Database, req: RunRequest, id: string)
    requires AdmittedApproval(cfg, db, req) == Some(id) && TokenHashFree(db, id, TokenHash(cfg, req.token))
    requires next.approvals == db.approvals
    ensures AdmittedApproval(cfg, next, req) == Some(id)
  {
    hide TokenHash;
  }

  lemma {:induction false} SameResolution(cfg: Config, db: Database, next: Database, req: RunRequest)
    requires req.toolName == CLEANUP && next.candidates == db.candidates
    ensures Resolve(cfg, next, req) == Resolve(cfg, db, req)
  {
    hide OnlyText, GetText;
  }
}
