/** What may be requested, and the row that a request has when somebody else approved it and it was claimed in time. */
module AuthorizedRows {
  import opened Wrappers
  import opened Json
  import opened JsonProofs
  import opened JsonDicts
  import opened Utf8
  import opened Tokens
  import opened BrokerWire
  import opened ApprovalProtocol
  import opened ApprovalInvariant
  import opened ApprovalBinding
  import opened ApprovalSteps
  import opened ApprovalLives

  // ---------- what may be requested ----------

  ghost predicate AsksCleanup(db: Database, task: string, args: seq<Field>) {
    exists c :: args == [Field("candidate_id", Str(c))] && c in db.candidates
      && db.candidates[c].taskId == task && db.candidates[c].eligible
  }

  ghost predicate AsksRestart(cfg: Config, args: seq<Field>) {
    exists service :: args == [Field("service", Str(service))] && service in cfg.services
  }

  ghost predicate AsksUpdate(cfg: Config, args: seq<Field>) {
    exists target, content :: target in cfg.targets
      && SameValue(Obj(args), Obj([Field("target_id", Str(target)), Field("content", Str(content))]))
  }

  ghost predicate AsksStop(db: Database, task: string, args: seq<Field>) {
    exists c :: args == [Field("candidate_id", Str(c))] && c in db.processes
      && db.processes[c].taskId == task && db.processes[c].eligible
  }

  ghost predicate AsksRollback(db: Database, task: string, args: seq<Field>) {
    exists e :: args == [Field("change_id", Str(e))] && e in db.executions
      && db.executions[e].taskId == task && db.executions[e].status == SUCCEEDED
  }

  /** One of five tools, and outside the DEMO mode arguments that name something of the task that is there. */
  ghost predicate MayRequest(cfg: Config, db: Database, task: string, tool: string, args: seq<Field>) {
    && task in db.tasks
    && (|| (tool == "safe_log_cleanup" && (cfg.controlled ==> AsksCleanup(db, task, args)))
        || (tool == "service_restart" && (cfg.controlled ==> AsksRestart(cfg, args)))
        || (tool == "config_safe_update" && (cfg.controlled ==> AsksUpdate(cfg, args)))
        || (tool == "terminate_process" && (cfg.controlled ==> AsksStop(db, task, args)))
        || (tool == "rollback_change" && (cfg.controlled ==> AsksRollback(db, task, args))))
  }

  lemma {:induction false} OnlyTextIs(fs: seq<Field>, key: string)
    requires Unique(Obj(fs))
    ensures OnlyText(fs, key).Some? ==> fs == [Field(key, Str(OnlyText(fs, key).value))]
    ensures forall text :: fs == [Field(key, Str(text))] ==> OnlyText(fs, key) == Some(text)
  {
    if OnlyText(fs, key).Some? {
      SingleEntry(fs, key);
    }
    forall text | fs == [Field(key, Str(text))]
      ensures OnlyText(fs, key) == Some(text)
    {
      assert KeySet(fs) == {key};
    }
  }

  lemma {:induction false} EntryAgrees(fs: seq<Field>, gs: seq<Field>, j: nat, text: string)
    requires Unique(Obj(fs)) && SameValue(Obj(fs), Obj(gs)) && j < |gs| && gs[j].value == Str(text)
    ensures GetText(fs, gs[j].key) == Some(text)
  {
    hide Get;
    assert HasKey(fs, gs[j].key);
    var i :| 0 <= i < |fs| && fs[i].key == gs[j].key;
    GetAt(fs, i);
    assert SameValue(fs[i].value, gs[j].value);
  }

  lemma {:induction false} KeysAgree(fs: seq<Field>, gs: seq<Field>)
    requires SameValue(Obj(fs), Obj(gs))
    ensures KeySet(fs) == KeySet(gs)
  {
    forall key
      ensures key in KeySet(fs) <==> key in KeySet(gs)
    {
      KeyFound(fs, key);
      KeyFound(gs, key);
      assert KeysIn(fs, gs) && KeysIn(gs, fs);
    }
  }

  lemma {:induction false} KeyFound(fs: seq<Field>, key: string)
    ensures key in KeySet(fs) <==> HasKey(fs, key)
  {
    if HasKey(fs, key) {
      var i :| 0 <= i < |fs| && fs[i].key == key;
      assert fs[i] in fs;
    }
  }

  lemma {:induction false} TwoKeys(fs: seq<Field>, target: string, content: string)
    requires Unique(Obj(fs))
    requires SameValue(Obj(fs), Obj([Field("target_id", Str(target)), Field("content", Str(content))]))
    ensures KeySet(fs) == {"target_id", "content"}
    ensures GetText(fs, "target_id") == Some(target) && GetText(fs, "content") == Some(content)
  {
    var gs := [Field("target_id", Str(target)), Field("content", Str(content))];
    EntryAgrees(fs, gs, 0, target);
    EntryAgrees(fs, gs, 1, content);
    KeysAgree(fs, gs);
    hide SameValue, Unique, GetText;
    assert KeySet(gs) == {"target_id", "content"} by {
      assert gs[0] in gs && gs[1] in gs;
    }
  }

  lemma {:induction false} ToolsDiffer()
    ensures CLEANUP != RESTART && CLEANUP != CONFIG_UPDATE && CLEANUP != TERMINATE && CLEANUP != ROLLBACK
    ensures RESTART != CONFIG_UPDATE && RESTART != TERMINATE && RESTART != ROLLBACK
    ensures CONFIG_UPDATE != TERMINATE && CONFIG_UPDATE != ROLLBACK && TERMINATE != ROLLBACK
  {
    assert |CLEANUP| == 16 && |RESTART| == 15 && |CONFIG_UPDATE| == 18 && |TERMINATE| == 17 && |ROLLBACK| == 15;
    assert RESTART[0] == 's' && ROLLBACK[0] == 'r';
  }

  lemma {:induction false} AllowedUpdate(cfg: Config, db: Database, task: string, args: seq<Field>)
    requires Unique(Obj(args))
    ensures ArgumentsAllowed(cfg, db, task, "config_safe_update", args) <==> AsksUpdate(cfg, args)
  {
    hide SameValue, Unique, KeySet, GetText;
    ToolsDiffer();
    if ArgumentsAllowed(cfg, db, task, "config_safe_update", args) {
      TwoEntries(args, GetText(args, "target_id").value, GetText(args, "content").value);
    }
    if AsksUpdate(cfg, args) {
      var target, content :| target in cfg.targets
        && SameValue(Obj(args), Obj([Field("target_id", Str(target)), Field("content", Str(content))]));
      TwoKeys(args, target, content);
    }
  }

  lemma {:induction false} AllowedExact(cfg: Config, db: Database, task: string, tool: string, args: seq<Field>)
    requires Unique(Obj(args))
    ensures MayRequest(cfg, db, task, tool, args) <==>
            task in db.tasks && tool in TOOLS && (cfg.controlled ==> ArgumentsAllowed(cfg, db, task, tool, args))
  {
    hide OnlyText, Unique, AsksUpdate, KeySet, GetText;
    ToolsDiffer();
    OnlyTextIs(args, "candidate_id");
    OnlyTextIs(args, "change_id");
    OnlyTextIs(args, "service");
    if tool == "config_safe_update" {
      AllowedUpdate(cfg, db, task, args);
    }
  }

  // ---------- asking, approving, claiming ----------

  /** Who asks for what, who approves it, and when. */
  datatype Ask = Ask(
    id: string, user: string, task: string, tool: string, args: seq<Field>, expiresAt: int, policyAllows: bool,
    approver: string, approvedAt: int, claimedAt: int, nonce: string)

  function RequestedRow(cfg: Config, k: Ask): Approval {
    Approval(k.task, k.user, None, k.tool, Canonical(Obj(k.args)), cfg.sha(Encode(Canonical(Obj(k.args)))), PENDING,
      k.expiresAt, None)
  }

  /** The token is signed for exactly what was asked, until the approval expires. */
  function TokenOf(cfg: Config, k: Ask): string {
    var hash := cfg.sha(Encode(Canonical(Obj(k.args))));
    TokenText(cfg.mac, cfg.secret, Claims(k.user, k.task, k.tool, hash, "L3", k.expiresAt, k.nonce))
  }

  function AuthorizedRow(cfg: Config, k: Ask): Approval {
    RequestedRow(cfg, k).(status := APPROVED, approverId := Some(k.approver),
      tokenHash := Some(cfg.sha(Encode(TokenOf(cfg, k)))))
  }

  function Creation(k: Ask): Action {
    DoCreate(k.id, k.user, k.task, k.tool, k.args, k.expiresAt, k.policyAllows)
  }

  lemma {:induction false} Asked(cfg: Config, s: State, k: Ask)
    requires Unique(Obj(k.args)) && k.id !in s.db.approvals
    ensures Apply(cfg, s, Creation(k)) ==
            if MayRequest(cfg, s.db, k.task, k.tool, k.args) && k.policyAllows then
              s.(db := s.db.(approvals := s.db.approvals[k.id := RequestedRow(cfg, k)]),
                 trace := s.trace + [Created(k.id, k.user, k.task, k.tool, k.args, k.expiresAt)])
            else s
  {
    hide MayRequest, ArgumentsAllowed, Canonical, Encode, Unique;
    AllowedExact(cfg, s.db, k.task, k.tool, k.args);
  }

  /** The step is none of those that a user makes about this approval. */
  predicate LeavesAlone(a: Action, id: string) {
    !((a.DoCreate? || a.DoApprove? || a.DoReject? || a.DoClaim?) && a.id == id)
  }

  ghost predicate AllLeaveAlone(actions: seq<Action>, id: string) {
    forall i :: 0 <= i < |actions| ==> LeavesAlone(actions[i], id)
  }

  /** A row without a token stays as it is, whatever happens to others. */
  lemma {:induction false} UnclaimedStays(cfg: Config, s: State, actions: seq<Action>, id: string)
    requires AllLeaveAlone(actions, id) && (id in s.db.approvals ==> s.db.approvals[id].tokenHash.None?)
    ensures var next := RunFrom(cfg, s, actions).db;
            if id in s.db.approvals then id in next.approvals && next.approvals[id] == s.db.approvals[id]
            else id !in next.approvals
    decreases |actions|
  {
    hide Apply, CreationHolds;
    if actions != [] {
      var init, a := actions[..|actions| - 1], actions[|actions| - 1];
      assert forall i :: 0 <= i < |init| ==> init[i] == actions[i];
      UnclaimedStays(cfg, s, init, id);
      StepMoves(cfg, RunFrom(cfg, s, init), a);
      StepAdds(cfg, RunFrom(cfg, s, init), a);
      assert LeavesAlone(a, id);
    }
  }

  lemma {:induction false} IssuedToken(cfg: Config, row: Approval, k: Ask)
    requires Unique(Obj(k.args)) && row == RequestedRow(cfg, k).(status := row.status, approverId := row.approverId)
    ensures ClaimedToken(cfg, row, k.claimedAt, k.nonce) == Some(TokenOf(cfg, k))
  {
    hide Canonical, Loads, TokenText, SortKeys, Encode, Unique;
    RereadHash(cfg.sha, Obj(k.args));
    assert k.claimedAt + (row.expiresAt - k.claimedAt) == k.expiresAt;
  }

  lemma {:induction false} ClaimedExact(cfg: Config, db: Database, k: Ask)
    requires Unique(Obj(k.args)) && k.id in db.approvals
    requires db.approvals[k.id] == RequestedRow(cfg, k).(status := APPROVED, approverId := Some(k.approver))
    ensures var next := Claim(cfg, db, k.id, k.user, k.claimedAt, k.nonce).0;
            && k.id in next.approvals
            && (next.approvals[k.id] == AuthorizedRow(cfg, k)
                <==> k.claimedAt < k.expiresAt && TokenHashFree(db, k.id, TokenHash(cfg, TokenOf(cfg, k))))
  {
    hide ClaimedToken, TokenHashFree, TokenOf, Canonical, Encode, Unique;
    IssuedToken(cfg, db.approvals[k.id], k);
  }

  /** What stands in the way of the claim of a row that is not the approved one. */
  lemma {:induction false} ClaimNeedsApproval(cfg: Config, db: Database, k: Ask)
    requires k.id in db.approvals ==> db.approvals[k.id].status == PENDING
    ensures Claim(cfg, db, k.id, k.user, k.claimedAt, k.nonce).0 == db
  {
    hide ClaimedToken, TokenHashFree;
  }

  lemma {:induction false} ApprovedExact(cfg: Config, s: State, k: Ask)
    requires k.id in s.db.approvals && s.db.approvals[k.id] == RequestedRow(cfg, k)
    ensures Apply(cfg, s, DoApprove(k.id, k.approver, k.approvedAt)) ==
            if k.approvedAt < k.expiresAt && k.approver != k.user then
              var row := RequestedRow(cfg, k).(status := APPROVED, approverId := Some(k.approver));
              s.(db := s.db.(approvals := s.db.approvals[k.id := row]),
                 trace := s.trace + [Approved(k.id, k.approver, k.approvedAt)])
            else s
  {
    hide Canonical, Encode;
  }

  /** Asking, approving and claiming, with anything else going on in between. */
  ghost function Claiming(cfg: Config, s: State, k: Ask, gap: seq<Action>, later: seq<Action>): (State, State) {
    var asked := RunFrom(cfg, Apply(cfg, s, Creation(k)), gap);
    var approved := RunFrom(cfg, Apply(cfg, asked, DoApprove(k.id, k.approver, k.approvedAt)), later);
    (approved, Apply(cfg, approved, DoClaim(k.id, k.user, k.claimedAt, k.nonce)))
  }

  /**
   Whatever else goes on in between: the row is authorized, with the token of the claim, if and only if the request was
   allowed, somebody else approved it, approval and claim came before it expired, and no other row has that token.
   */
  lemma {:induction false} AuthorizedExactly(cfg: Config, s: State, k: Ask, gap: seq<Action>, later: seq<Action>)
    requires Unique(Obj(k.args)) && k.id !in s.db.approvals
    requires AllLeaveAlone(gap, k.id) && AllLeaveAlone(later, k.id)
    ensures var (before, after) := Claiming(cfg, s, k, gap, later);
            k.id in after.db.approvals && after.db.approvals[k.id] == AuthorizedRow(cfg, k) <==>
            && MayRequest(cfg, s.db, k.task, k.tool, k.args) && k.policyAllows && k.approver != k.user
            && k.approvedAt < k.expiresAt && k.claimedAt < k.expiresAt
            && TokenHashFree(before.db, k.id, TokenHash(cfg, TokenOf(cfg, k)))
  {
    hide Apply, RunFrom, MayRequest, TokenHashFree, TokenOf, Canonical, Encode, Unique, Claim, LeavesAlone;
    Asked(cfg, s, k);
    var s1 := Apply(cfg, s, Creation(k));
    UnclaimedStays(cfg, s1, gap, k.id);
    var s2 := RunFrom(cfg, s1, gap);
    if MayRequest(cfg, s.db, k.task, k.tool, k.args) && k.policyAllows {
      ApprovedExact(cfg, s2, k);
    } else {
      NothingToApprove(cfg, s2, k);
    }
    var s3 := Apply(cfg, s2, DoApprove(k.id, k.approver, k.approvedAt));
    UnclaimedStays(cfg, s3, later, k.id);
    var s4 := RunFrom(cfg, s3, later);
    ClaimStep(cfg, s4, k);
    if k.id in s4.db.approvals && s4.db.approvals[k.id].status == APPROVED {
      ClaimedExact(cfg, s4.db, k);
    } else {
      ClaimNeedsApproval(cfg, s4.db, k);
    }
  }

  lemma {:induction false} NothingToApprove(cfg: Config, s: State, k: Ask)
    requires k.id !in s.db.approvals
    ensures Apply(cfg, s, DoApprove(k.id, k.approver, k.approvedAt)) == s
  {
  }

  lemma {:induction false} ClaimStep(cfg: Config, s: State, k: Ask)
    ensures Apply(cfg, s, DoClaim(k.id, k.user, k.claimedAt, k.nonce)).db
            == Claim(cfg, s.db, k.id, k.user, k.claimedAt, k.nonce).0
  {
    hide Claim;
  }
}
