/** The life of one approval row: every change that any step makes to it, and what is final. */
module ApprovalLives {
  import opened Wrappers
  import opened Json
  import opened JsonDicts
  import opened Utf8
  import opened Tokens
  import opened BrokerWire
  import opened ApprovalProtocol
  import opened ApprovalInvariant
  import opened ApprovalSteps
  import opened ApprovalRuns
  import opened ApprovalEffects

  // ---------- what a step makes of a row ----------

  predicate Undecided(row: Approval, now: int) {
    row.status == PENDING && now < row.expiresAt
  }

  /** The row is approved, is rejected, gets another token, expires at a claim, or is used up; or it stays as it is. */
  predicate Moves(a: Action, id: string, row: Approval, next: Approval) {
    || next == row
    || (&& a.DoApprove? && a.id == id && Undecided(row, a.now) && a.user != row.requesterId
        && next == row.(status := APPROVED, approverId := Some(a.user)))
    || (&& a.DoReject? && a.id == id && Undecided(row, a.now)
        && next == row.(status := REJECTED, approverId := Some(a.user)))
    || (&& a.DoClaim? && a.id == id && row.status == APPROVED && row.requesterId == a.user
        && (if a.now < row.expiresAt then next.tokenHash.Some? && next == row.(tokenHash := next.tokenHash)
            else next == row.(status := EXPIRED)))
    || (&& (a.DoRun? || a.DoUpdate?) && row.status == APPROVED && row.tokenHash.Some?
        && next == row.(status := CONSUMED))
  }

  /** Every row moves as it may. */
  ghost predicate AllMove(a: Action, db: Database, next: Database) {
    forall id :: id in db.approvals ==> id in next.approvals && Moves(a, id, db.approvals[id], next.approvals[id])
  }

  lemma {:induction false} SettleMoves(
      cfg: Config, db: Database, id: string, req: RunRequest, op: Operation, attemptId: string, ending: Ending)
    requires id in db.approvals
    ensures Settle(cfg, db, id, req, op, attemptId, ending).Some? ==>
      Settle(cfg, db, id, req, op, attemptId, ending).value.approvals == Consume(db, id).approvals
  {
    hide Settle;
    SettleFails(cfg, db, id, req, op, attemptId, ending);
  }

  lemma {:induction false} FailedMoves(db: Database, id: string, req: RunRequest, target: Option<string>,
      attemptId: string)
    requires id in db.approvals
    ensures Failed(db, id, req, target, attemptId).approvals in {db.approvals, Consume(db, id).approvals}
  {
  }

  lemma {:induction false} RunMoves(
      cfg: Config, s: State, session: nat, req: RunRequest, available: bool, now: int, attemptId: string,
      ending: Ending)
    ensures var a := DoRun(session, req, available, now, attemptId, ending);
            AllMove(a, s.db, Apply(cfg, s, a).db)
  {
    hide AdmittedApproval, Admits, BrokerManaged, RunDirect, BeginBrokered;
    var admitted := AdmittedApproval(cfg, s.db, req);
    if admitted.Some? {
      AdmittedMatches(cfg, s.db, req);
      AdmittedRow(cfg, s.db.approvals[admitted.value], req);
      BeginMoves(cfg, s, admitted.value, session, req, available, attemptId);
      DirectMoves(cfg, s, admitted.value, req, now, attemptId, ending);
    }
  }

  lemma {:induction false} DirectMoves(cfg: Config, s: State, id: string, req: RunRequest, now: int, attemptId: string,
      ending: Ending)
    requires id in s.db.approvals
    ensures RunDirect(cfg, s, id, req, now, attemptId, ending).db.approvals
            in {s.db.approvals, Consume(s.db, id).approvals}
  {
    hide Resolve, Outcome, Settle, Failed, TargetRef, Consume;
    FailedMoves(s.db, id, req, None, attemptId);
    if Resolve(cfg, s.db, req).Some? {
      var op := Resolve(cfg, s.db, req).value.0;
      FailedMoves(s.db, id, req, TargetRef(op), attemptId);
      SettleMoves(cfg, s.db, id, req, op, attemptId, ending);
    }
  }

  lemma {:induction false} BeginMoves(cfg: Config, s: State, id: string, session: nat, req: RunRequest, available: bool,
      attemptId: string)
    ensures BeginBrokered(cfg, s, id, session, req, available, attemptId).db.approvals == s.db.approvals
  {
    hide Resolve, RecordFailure;
    FailureMoves(s.db, id, req, attemptId);
  }

  lemma {:induction false} AdmittedRow(cfg: Config, row: Approval, req: RunRequest)
    requires Admits(cfg, row, req)
    ensures row.status == APPROVED && row.tokenHash.Some?
  {
  }

  lemma {:induction false} FailureMoves(db: Database, id: string, req: RunRequest, attemptId: string)
    ensures RecordFailure(db, id, req, None, attemptId).Some? ==>
      RecordFailure(db, id, req, None, attemptId).value.approvals == db.approvals
  {
  }

  lemma {:induction false} FinishMoves(cfg: Config, s: State, session: nat, attemptId: string, ending: Ending)
    ensures var a := DoFinish(session, attemptId, ending);
            AllMove(a, s.db, Apply(cfg, s, a).db)
  {
    hide RecordFailure, RecordSuccess, TargetRef;
    if session in s.sessions {
      var Session(id, req, op) := s.sessions[session];
      FinishedRows(cfg, s.db, id, req, op, attemptId, ending);
    }
  }

  lemma {:induction false} FinishedRows(cfg: Config, db: Database, id: string, req: RunRequest, op: Operation,
      attemptId: string, ending: Ending)
    ensures RecordFailure(db, id, req, TargetRef(op), attemptId).Some? ==>
      RecordFailure(db, id, req, TargetRef(op), attemptId).value.approvals == db.approvals
    ensures ending.Succeeds? && RecordSuccess(cfg, db, id, req, op, ending.changeId, ending.backupRef).Some? ==>
      RecordSuccess(cfg, db, id, req, op, ending.changeId, ending.backupRef).value.approvals == db.approvals
  {
    hide TargetRef, RollbackSource;
    CandidateOnly(db, op);
    hide UseCandidate;
  }

  lemma {:induction false} DecisionMoves(cfg: Config, s: State, a: Action)
    requires a.DoApprove? || a.DoReject?
    ensures AllMove(a, s.db, Apply(cfg, s, a).db)
  {
  }

  lemma {:induction false} RefusedClaim(cfg: Config, db: Database, id: string, user: string, now: int, nonce: string)
    requires Claim(cfg, db, id, user, now, nonce).1.Err?
    ensures var next := Claim(cfg, db, id, user, now, nonce).0;
            || next == db
            || (&& id in db.approvals && db.approvals[id].status == APPROVED && db.approvals[id].requesterId == user
                && db.approvals[id].expiresAt <= now
                && next.approvals == db.approvals[id := db.approvals[id].(status := EXPIRED)])
  {
    hide ClaimedToken, TokenHashFree, TokenHash;
  }

  lemma {:induction false} ClaimMoves(cfg: Config, s: State, a: Action)
    requires a.DoClaim?
    ensures AllMove(a, s.db, Apply(cfg, s, a).db)
  {
    hide Claim, ClaimedToken, TokenHash;
    if Claim(cfg, s.db, a.id, a.user, a.now, a.nonce).1.Ok? {
      ClaimedRow(cfg, s.db, a.id, a.user, a.now, a.nonce);
    } else {
      RefusedClaim(cfg, s.db, a.id, a.user, a.now, a.nonce);
    }
  }

  lemma {:induction false} UpdateMoves(cfg: Config, s: State, c: nat)
    ensures AllMove(DoUpdate(c), s.db, Update(cfg, s, c).db)
  {
    hide BrokerGrant, TokenHash;
  }

  lemma {:induction false} CreationMoves(cfg: Config, s: State, a: Action)
    requires a.DoCreate?
    ensures AllMove(a, s.db, Apply(cfg, s, a).db)
  {
    hide ArgumentsAllowed, Canonical;
  }

  lemma {:induction false} QuietMoves(a: Action, db: Database, next: Database)
    requires next.approvals == db.approvals
    ensures AllMove(a, db, next)
  {
  }

  lemma {:induction false} ConnectionQuiet(cfg: Config, s: State, c: nat, fields: seq<Field>, now: int)
    ensures Connect(s, c, fields).db == s.db && Select(cfg, s, c, now).db == s.db
  {
    hide ReadCall, PrepareHelper, SelectRow;
  }

  /** In every step every row moves only so. */
  lemma {:induction false} StepMoves(cfg: Config, s: State, a: Action)
    ensures AllMove(a, s.db, Apply(cfg, s, a).db)
  {
    hide CreateApproval, Approve, Reject, Claim, ScopedCandidateId, Connect, Select, Update, AllMove;
    match a {
      case DoCreate(_, _, _, _, _, _, _) => CreationMoves(cfg, s, a);
      case DoApprove(_, _, _) => DecisionMoves(cfg, s, a);
      case DoReject(_, _, _) => DecisionMoves(cfg, s, a);
      case DoClaim(_, _, _, _) => ClaimMoves(cfg, s, a);
      case DoRun(session, req, available, now, attemptId, ending) =>
        RunMoves(cfg, s, session, req, available, now, attemptId, ending);
      case DoFinish(session, attemptId, ending) => FinishMoves(cfg, s, session, attemptId, ending);
      case DoUpdate(c) => UpdateMoves(cfg, s, c);
      case DoConnect(c, fields) =>
        ConnectionQuiet(cfg, s, c, fields, 0);
        QuietMoves(a, s.db, Apply(cfg, s, a).db);
      case DoSelect(c, now) =>
        ConnectionQuiet(cfg, s, c, [], now);
        QuietMoves(a, s.db, Apply(cfg, s, a).db);
      case _ => QuietMoves(a, s.db, Apply(cfg, s, a).db);
    }
  }

  // ---------- what a request fixes ----------

  /** The columns of the row are those of the request. */
  predicate AsRequested(cfg: Config, e: Event, row: Approval)
    requires e.Created?
  {
    && row.requesterId == e.requester && row.taskId == e.taskId && row.toolName == e.toolName
    && row.argumentsJson == Canonical(Obj(e.arguments)) && row.argumentsHash == ArgumentsHash(cfg.sha, Obj(e.arguments))
    && row.expiresAt == e.expiresAt
  }

  predicate CreationHolds(cfg: Config, db: Database, e: Event) {
    e.Created? ==> e.approvalId in db.approvals && AsRequested(cfg, e, db.approvals[e.approvalId])
  }

  /** Every request of the run is still in the table, with what was asked for. */
  ghost predicate CreationsHold(cfg: Config, s: State) {
    forall k :: 0 <= k < |s.trace| ==> CreationHolds(cfg, s.db, s.trace[k])
  }

  /** The column `token_hash` is unique. */
  ghost predicate TokensUnique(db: Database) {
    forall a, b :: a in db.approvals && b in db.approvals && SameToken(db.approvals[a], db.approvals[b]) ==> a == b
  }

  predicate SameToken(row: Approval, other: Approval) {
    row.tokenHash.Some? && row.tokenHash == other.tokenHash
  }

  /** Only a creation adds a row, and a request when it does; only a claim changes a token. */
  ghost predicate Additions(cfg: Config, s: State, s': State, a: Action) {
    && s.trace <= s'.trace
    && (forall k :: |s.trace| <= k < |s'.trace| ==> CreationHolds(cfg, s'.db, s'.trace[k]))
    && (forall id :: id in s'.db.approvals && id !in s.db.approvals ==>
          a.DoCreate? && a.id == id && s'.db.approvals[id].tokenHash.None?)
  }

  lemma {:induction false} RunAdds(
      cfg: Config, s: State, session: nat, req: RunRequest, available: bool, now: int, attemptId: string,
      ending: Ending)
    ensures var a := DoRun(session, req, available, now, attemptId, ending);
            Additions(cfg, s, Apply(cfg, s, a), a)
  {
    hide AdmittedApproval, Admits, BrokerManaged, RunDirect, BeginBrokered, AsRequested;
    var admitted := AdmittedApproval(cfg, s.db, req);
    if admitted.Some? {
      AdmittedMatches(cfg, s.db, req);
      BeginMoves(cfg, s, admitted.value, session, req, available, attemptId);
      DirectMoves(cfg, s, admitted.value, req, now, attemptId, ending);
      DirectEvents(cfg, s, admitted.value, req, now, attemptId, ending);
      BeginEvents(cfg, s, admitted.value, session, req, available, attemptId);
    }
  }

  /** The new events are no requests. */
  ghost predicate NoRequest(s: State, s': State) {
    s.trace <= s'.trace && forall k :: |s.trace| <= k < |s'.trace| ==> !s'.trace[k].Created?
  }

  lemma {:induction false} DirectEvents(cfg: Config, s: State, id: string, req: RunRequest, now: int, attemptId: string,
      ending: Ending)
    requires id in s.db.approvals
    ensures NoRequest(s, RunDirect(cfg, s, id, req, now, attemptId, ending))
  {
    hide Resolve, Outcome, Settle, Failed, TargetRef, Consume;
  }

  lemma {:induction false} BeginEvents(cfg: Config, s: State, id: string, session: nat, req: RunRequest,
      available: bool, attemptId: string)
    ensures NoRequest(s, BeginBrokered(cfg, s, id, session, req, available, attemptId))
  {
    hide Resolve, RecordFailure;
  }

  lemma {:induction false} FinishAdds(cfg: Config, s: State, session: nat, attemptId: string, ending: Ending)
    ensures var a := DoFinish(session, attemptId, ending);
            Additions(cfg, s, Apply(cfg, s, a), a)
  {
    hide RecordFailure, RecordSuccess, TargetRef, AsRequested;
    if session in s.sessions {
      var Session(id, req, op) := s.sessions[session];
      FinishedRows(cfg, s.db, id, req, op, attemptId, ending);
    }
  }

  lemma {:induction false} DecisionAdds(cfg: Config, s: State, a: Action)
    requires a.DoApprove? || a.DoReject?
    ensures Additions(cfg, s, Apply(cfg, s, a), a)
  {
    hide AsRequested;
  }

  lemma {:induction false} ClaimAdds(cfg: Config, s: State, a: Action)
    requires a.DoClaim?
    ensures Additions(cfg, s, Apply(cfg, s, a), a)
  {
    hide AsRequested, ClaimedToken, TokenHashFree, TokenHash;
  }

  lemma {:induction false} UpdateAdds(cfg: Config, s: State, c: nat)
    ensures Additions(cfg, s, Update(cfg, s, c), DoUpdate(c))
  {
    hide AsRequested, TokenHash, BrokerGrant;
  }

  lemma {:induction false} OtherAdds(cfg: Config, s: State, a: Action)
    requires !a.DoRun? && !a.DoFinish? && !a.DoCreate?
    ensures Additions(cfg, s, Apply(cfg, s, a), a)
  {
    hide AsRequested, Approve, Reject, Claim, ScopedCandidateId, Connect, Select, Update;
    match a {
      case DoApprove(_, _, _) => DecisionAdds(cfg, s, a);
      case DoReject(_, _, _) => DecisionAdds(cfg, s, a);
      case DoClaim(_, _, _, _) => ClaimAdds(cfg, s, a);
      case DoUpdate(c) => UpdateAdds(cfg, s, c);
      case DoConnect(c, fields) =>
        ConnectQuiet(s, c, fields);
        ConnectionQuiet(cfg, s, c, fields, 0);
      case DoSelect(c, now) =>
        SelectQuiet(cfg, s, c, now);
        ConnectionQuiet(cfg, s, c, [], now);
      case _ =>
    }
  }

  lemma {:induction false} StepAdds(cfg: Config, s: State, a: Action)
    ensures Additions(cfg, s, Apply(cfg, s, a), a)
  {
    match a {
      case DoRun(session, req, available, now, attemptId, ending) =>
        hide Apply;
        RunAdds(cfg, s, session, req, available, now, attemptId, ending);
      case DoFinish(session, attemptId, ending) =>
        hide Apply;
        FinishAdds(cfg, s, session, attemptId, ending);
      case DoCreate(_, _, _, _, _, _, _) => hide ArgumentsAllowed, Canonical, Encode;
      case _ =>
        hide Apply;
        OtherAdds(cfg, s, a);
    }
  }

  lemma {:induction false} CreationStaysPut(cfg: Config, a: Action, db: Database, next: Database, e: Event)
    requires CreationHolds(cfg, db, e) && AllMove(a, db, next)
    ensures CreationHolds(cfg, next, e)
  {
    hide Canonical, ArgumentsHash;
  }

  lemma {:induction false} StepTokens(cfg: Config, s: State, a: Action)
    requires TokensUnique(s.db)
    ensures TokensUnique(Apply(cfg, s, a).db)
  {
    hide Apply, CreationHolds;
    if a.DoClaim? {
      ClaimTokens(cfg, s, a);
    } else {
      StepMoves(cfg, s, a);
      StepAdds(cfg, s, a);
      OtherTokens(a, s.db, Apply(cfg, s, a).db);
    }
  }

  lemma {:induction false} ClaimTokens(cfg: Config, s: State, a: Action)
    requires a.DoClaim? && TokensUnique(s.db)
    ensures TokensUnique(Apply(cfg, s, a).db)
  {
    hide Claim, ClaimedToken, TokenHash;
    if Claim(cfg, s.db, a.id, a.user, a.now, a.nonce).1.Ok? {
      ClaimedRow(cfg, s.db, a.id, a.user, a.now, a.nonce);
      ClaimedIsFree(cfg, s.db, a.id, a.user, a.now, a.nonce);
    } else {
      RefusedClaim(cfg, s.db, a.id, a.user, a.now, a.nonce);
    }
  }

  lemma {:induction false} ClaimedIsFree(cfg: Config, db: Database, id: string, user: string, now: int, nonce: string)
    requires Claim(cfg, db, id, user, now, nonce).1.Ok?
    ensures TokenHashFree(db, id, TokenHash(cfg, Claim(cfg, db, id, user, now, nonce).1.value))
  {
    hide ClaimedToken, TokenHashFree, TokenHash;
  }

  lemma {:induction false} OtherTokens(a: Action, db: Database, next: Database)
    requires !a.DoClaim? && TokensUnique(db) && AllMove(a, db, next)
    requires forall id :: id in next.approvals && id !in db.approvals ==> next.approvals[id].tokenHash.None?
    ensures TokensUnique(next)
  {
    forall x, y | x in next.approvals && y in next.approvals && SameToken(next.approvals[x], next.approvals[y])
      ensures x == y
    {
      assert Moves(a, x, db.approvals[x], next.approvals[x]) && Moves(a, y, db.approvals[y], next.approvals[y]);
      assert SameToken(db.approvals[x], db.approvals[y]);
    }
  }

  /** In every run each request stays in the table as it was made, and no two rows have one token. */
  lemma {:induction false} RequestsStay(cfg: Config, actions: seq<Action>)
    ensures CreationsHold(cfg, After(cfg, actions)) && TokensUnique(After(cfg, actions).db)
    decreases |actions|
  {
    hide Apply, AllMove, CreationHolds, TokensUnique;
    if actions == [] {
      assert TokensUnique(After(cfg, actions).db) by {
        NoRows();
      }
    } else {
      var init, a := actions[..|actions| - 1], actions[|actions| - 1];
      RequestsStay(cfg, init);
      var s, s' := After(cfg, init), After(cfg, actions);
      StepTokens(cfg, s, a);
      StepMoves(cfg, s, a);
      StepAdds(cfg, s, a);
      forall k | 0 <= k < |s'.trace|
        ensures CreationHolds(cfg, s'.db, s'.trace[k])
      {
        if k < |s.trace| {
          CreationStaysPut(cfg, a, s.db, s'.db, s.trace[k]);
        }
      }
    }
  }

  lemma {:induction false} NoRows()
    ensures TokensUnique(Initial().db)
  {
  }

  // ---------- what is final ----------

  predicate Final(row: Approval) {
    row.status in {REJECTED, CONSUMED, EXPIRED}
  }

  /** A row that was rejected, used up or expired never changes again, in no column. */
  lemma {:induction false} FinalStays(cfg: Config, s: State, actions: seq<Action>, id: string)
    requires id in s.db.approvals && Final(s.db.approvals[id])
    ensures var next := RunFrom(cfg, s, actions).db;
            id in next.approvals && next.approvals[id] == s.db.approvals[id]
    decreases |actions|
  {
    hide Apply;
    if actions != [] {
      var init := actions[..|actions| - 1];
      FinalStays(cfg, s, init, id);
      StepMoves(cfg, RunFrom(cfg, s, init), actions[|actions| - 1]);
    }
  }

  /** Nothing can be had from the approval: it is neither decided again, nor claimed, admitted, selected or consumed. */
  ghost predicate Barred(cfg: Config, s: State, id: string) {
    && (forall user, now :: Approve(s.db, id, user, now).Err?)
    && (forall user, now :: Reject(s.db, id, user, now).Err?)
    && (forall user, now, nonce :: Claim(cfg, s.db, id, user, now, nonce).1.Err?)
    && (forall req :: AdmittedApproval(cfg, s.db, req) != Some(id))
    && (forall call, now :: SelectRow(cfg, s.db, call, now) != Some(id))
    && (forall call :: !UpdateHits(cfg, s.db, id, call))
    && (forall k :: !EffectAt(s.trace, k, id))
  }

  lemma {:induction false} NotAdmitted(cfg: Config, db: Database, id: string, req: RunRequest)
    requires id in db.approvals && db.approvals[id].status != APPROVED
    ensures AdmittedApproval(cfg, db, req) != Some(id)
  {
    hide AdmittedApproval;
    if AdmittedApproval(cfg, db, req) == Some(id) {
      AdmittedStatus(cfg, db, req);
      assert false;
    }
  }

  lemma {:induction false} NotSelected(cfg: Config, db: Database, id: string, call: Call, now: int)
    requires id in db.approvals && db.approvals[id].status != APPROVED
    ensures SelectRow(cfg, db, call, now) != Some(id)
  {
    hide SelectRow;
    if SelectRow(cfg, db, call, now) == Some(id) {
      SelectedMatches(cfg, db, call, now);
      hide TokenHash, ExpectedTool, ExpectedArguments;
      assert false;
    }
  }

  lemma {:induction false} RejectedIsBarred(cfg: Config, actions: seq<Action>, id: string)
    requires DotFree(cfg.mac) && LegalRun(actions)
    requires var db := After(cfg, actions).db;
             id in db.approvals && db.approvals[id].status == REJECTED
    ensures Barred(cfg, After(cfg, actions), id)
  {
    hide After, SelectRow, AdmittedApproval, ClaimedToken, TokenHashFree;
    var s := After(cfg, actions);
    forall req
      ensures AdmittedApproval(cfg, s.db, req) != Some(id)
    {
      NotAdmitted(cfg, s.db, id, req);
    }
    forall call, now
      ensures SelectRow(cfg, s.db, call, now) != Some(id)
    {
      NotSelected(cfg, s.db, id, call, now);
    }
    forall k
      ensures !EffectAt(s.trace, k, id)
    {
      if EffectAt(s.trace, k, id) {
        UndecidedHasNoEffect(cfg, actions, k);
        assert false;
      }
    }
  }

  lemma {:induction false} RunJoins(cfg: Config, actions: seq<Action>, more: seq<Action>)
    ensures After(cfg, actions + more) == RunFrom(cfg, After(cfg, actions), more)
    decreases |more|
  {
    hide Apply;
    if more == [] {
      assert actions + more == actions;
    } else {
      var init := more[..|more| - 1];
      RunJoins(cfg, actions, init);
      assert (actions + more)[..|actions + more| - 1] == actions + init;
    }
  }

  /**
   A rejection works if and only if the row is pending and has not expired. Then it writes the status and who decided,
   and nothing else; and whatever follows, the row stays as it is and there is nothing to be had from it.
   */
  lemma {:induction false} RejectedForGood(cfg: Config, actions: seq<Action>, id: string, user: string, now: int,
      later: seq<Action>)
    requires DotFree(cfg.mac) && LegalRun(actions + ([DoReject(id, user, now)] + later))
    ensures var s, s1 := After(cfg, actions), After(cfg, actions + [DoReject(id, user, now)]);
            var s2 := After(cfg, actions + ([DoReject(id, user, now)] + later));
            if id in s.db.approvals && s.db.approvals[id].status == PENDING && now < s.db.approvals[id].expiresAt then
              var rejected := s.db.approvals[id].(status := REJECTED, approverId := Some(user));
              && s1 == s.(db := s.db.(approvals := s.db.approvals[id := rejected]))
              && id in s2.db.approvals && s2.db.approvals[id] == rejected && Barred(cfg, s2, id)
            else s1 == s
  {
    var a := DoReject(id, user, now);
    var s := After(cfg, actions);
    RunJoins(cfg, actions, [a]);
    assert RunFrom(cfg, s, [a]) == Apply(cfg, s, a) by {
      assert [a][..0] == [];
      hide Apply;
    }
    assert Apply(cfg, s, a).trace == s.trace;
    hide After, Barred;
    if id in s.db.approvals && s.db.approvals[id].status == PENDING && now < s.db.approvals[id].expiresAt {
      assert actions + ([a] + later) == (actions + [a]) + later;
      RunJoins(cfg, actions + [a], later);
      FinalStays(cfg, After(cfg, actions + [a]), later, id);
      RejectedIsBarred(cfg, actions + ([a] + later), id);
    }
  }
}
