/** When a connection of the broker is granted: exactly for an authorized row of the tool that its call needs. */
module BrokerGrants {
  import opened Wrappers
  import opened Json
  import opened JsonProofs
  import opened JsonDicts
  import opened Utf8
  import opened Tokens
  import opened BrokerWire
  import opened BrokerConnection
  import opened ApprovalProtocol
  import opened ApprovalInvariant
  import opened ApprovalSteps
  import opened ApprovalRuns
  import opened ApprovalLives
  import opened AuthorizedRows

  // ---------- what a call needs ----------

  /** The tool and the arguments that had to be requested for a call. */
  predicate Fits(call: Call, tool: string, args: seq<Field>) {
    match call
    case RestartService(service, _, _, _) => tool == "service_restart" && args == [Field("service", Str(service))]
    case RollbackService(_, _, _, change, _) => tool == "rollback_change" && args == [Field("change_id", Str(change))]
    case CleanupFile(c, _, _, _) => tool == "safe_log_cleanup" && args == [Field("candidate_id", Str(c))]
    case RollbackCleanup(change, _, _, _) => tool == "rollback_change" && args == [Field("change_id", Str(change))]
  }

  /** What the helper is to do, and the row that it has to be read from. */
  predicate Ready(db: Database, call: Call, op: Operation) {
    match call
    case RestartService(_, _, _, _) => op == RestartNginx
    case RollbackService(_, _, _, _, _) => op == RestartNginx
    case CleanupFile(c, _, task, _) =>
      && c in db.candidates && db.candidates[c].taskId == task && db.candidates[c].eligible
      && op == DeleteFile(c, db.candidates[c].snapshot)
    case RollbackCleanup(change, _, task, _) =>
      && change in db.executions
      && (var row := db.executions[change];
          && row.taskId == task && row.toolName == "safe_log_cleanup" && row.status == SUCCEEDED
          && row.targetRef.Some? && row.backupRef.Some?
          && op == RestoreFile(change, row.backupRef.value, row.targetRef.value))
  }

  /** The row was approved and claimed for a request that fits, and has the token of the call. */
  ghost predicate Authorizes(cfg: Config, row: Approval, call: Call, tool: string, args: seq<Field>) {
    && Fits(call, tool, args) && row.toolName == tool && row.argumentsHash == cfg.sha(Encode(Canonical(Obj(args))))
    && row.status == APPROVED && row.requesterId == call.userId && row.taskId == call.taskId
    && row.tokenHash == Some(TokenHash(cfg, call.token))
  }

  lemma {:induction false} ExpectedFits(call: Call, tool: string, args: seq<Field>)
    ensures Fits(call, tool, args) <==> tool == ExpectedTool(call) && args == ExpectedArguments(call)
  {
  }

  lemma {:induction false} MatchesExactly(cfg: Config, row: Approval, call: Call, tool: string, args: seq<Field>)
    requires Fits(call, tool, args)
    ensures RowMatches(cfg, row, call) <==> Authorizes(cfg, row, call, tool, args)
  {
    ExpectedFits(call, tool, args);
    hide Fits, Canonical, Encode, TokenHash, ExpectedTool, ExpectedArguments;
  }

  lemma {:induction false} ReadyExactly(db: Database, call: Call, op: Operation)
    ensures Ready(db, call, op) <==> PrepareHelper(db, call) == Some(op)
  {
  }

  // ---------- the three steps of a connection ----------

  /** The step is none of the given connection. */
  predicate OfOthers(a: Action, c: nat) {
    !((a.DoConnect? || a.DoSelect? || a.DoUpdate?) && a.connection == c)
  }

  ghost predicate AllOfOthers(actions: seq<Action>, c: nat) {
    forall i :: 0 <= i < |actions| ==> OfOthers(actions[i], c)
  }

  lemma {:induction false} StepOfOthers(cfg: Config, s: State, a: Action, c: nat)
    requires OfOthers(a, c) && c in s.connections
    ensures c in Apply(cfg, s, a).connections && Apply(cfg, s, a).connections[c] == s.connections[c]
  {
    hide CreateApproval, Approve, Reject, Claim, RecordCandidate, ScopedCandidateId, AdmittedApproval, Admits, Resolve;
    hide Outcome, Settle, Failed, RecordFailure, RecordSuccess, BrokerManaged, TargetRef, ReadCall, PrepareHelper;
    hide SelectRow, UpdateHits, BrokerGrant;
    if a.DoRun? && AdmittedApproval(cfg, s.db, a.request).Some? {
      AdmittedMatches(cfg, s.db, a.request);
    }
  }

  lemma {:induction false} PhaseWaits(cfg: Config, s: State, actions: seq<Action>, c: nat)
    requires AllOfOthers(actions, c) && c in s.connections
    ensures var next := RunFrom(cfg, s, actions);
            c in next.connections && next.connections[c] == s.connections[c]
    decreases |actions|
  {
    hide Apply, OfOthers;
    if actions != [] {
      var init := actions[..|actions| - 1];
      assert forall i :: 0 <= i < |init| ==> init[i] == actions[i];
      PhaseWaits(cfg, s, init, c);
      StepOfOthers(cfg, RunFrom(cfg, s, init), actions[|actions| - 1], c);
    }
  }

  lemma {:induction false} Connected(cfg: Config, s: State, c: nat, call: Call)
    requires c !in s.connections && BuildRequest(call).Ok?
    ensures SortKeys(BuildRequest(call).value).Obj?
    ensures var s' := Apply(cfg, s, DoConnect(c, SortKeys(BuildRequest(call).value).fields));
            var op := PrepareHelper(s.db, call);
            s' == s.(connections := s.connections[c :=
              if "" in Names(call) || op.None? then Denied else Prepared(call, op.value)])
  {
    hide BuildRequest, SortKeys, ReadCall, PrepareHelper, Names;
    CallIsReadBack(call);
  }

  lemma {:induction false} OneSelected(cfg: Config, db: Database, call: Call, id: string, now: int)
    requires TokensUnique(db)
    ensures SelectRow(cfg, db, call, now) == Some(id) <==>
            id in db.approvals && RowMatches(cfg, db.approvals[id], call) && now < db.approvals[id].expiresAt
  {
    hide ExpectedTool, ExpectedArguments, Canonical, Encode;
    if id in db.approvals && RowMatches(cfg, db.approvals[id], call) {
      forall other | other in db.approvals && RowMatches(cfg, db.approvals[other], call)
        ensures other == id
      {
        assert ApprovalLives.SameToken(db.approvals[other], db.approvals[id]);
      }
    }
  }

  lemma {:induction false} SelectedStep(cfg: Config, s: State, c: nat, now: int, id: string)
    requires c in s.connections && TokensUnique(s.db)
    ensures var s' := Apply(cfg, s, DoSelect(c, now));
            && c in s'.connections && s' == s.(connections := s.connections[c := s'.connections[c]])
            && (s.connections[c].Prepared? ==>
                (s'.connections[c].Selected? && s'.connections[c].approvalId == id <==>
                 && id in s.db.approvals && RowMatches(cfg, s.db.approvals[id], s.connections[c].call)
                 && now < s.db.approvals[id].expiresAt))
            && (s.connections[c].Prepared? && s'.connections[c].Selected? ==>
                s'.connections[c] ==
                Selected(s.connections[c].call, s.connections[c].operation, s'.connections[c].approvalId, now))
            && (s.connections[c].Denied? ==> s'.connections[c].Denied?)
            && (s.connections[c].Prepared? ==> s'.connections[c].Selected? || s'.connections[c].Denied?)
  {
    hide RowMatches, SelectRow;
    if s.connections[c].Prepared? {
      OneSelected(cfg, s.db, s.connections[c].call, id, now);
    }
  }

  lemma {:induction false} UpdatedStep(cfg: Config, s: State, c: nat)
    requires c in s.connections
    ensures var phase := s.connections[c];
            Apply(cfg, s, DoUpdate(c)) ==
            if !phase.Selected? then s
            else if !UpdateHits(cfg, s.db, phase.approvalId, phase.call) then
              s.(connections := s.connections[c := Denied])
            else
              var id := phase.approvalId;
              var used := s.db.approvals[id].(status := CONSUMED);
              State(
                s.db.(approvals := s.db.approvals[id := used]),
                s.connections[c := Granted(phase.call, phase.operation, id, phase.at)], s.sessions, s.consumed,
                s.trace + [Effect(id, BrokerGrant(phase.call, phase.operation), true, phase.at)])
  {
    hide BrokerGrant, TokenHash;
  }

  lemma {:induction false} TokensStay(cfg: Config, s: State, actions: seq<Action>)
    requires TokensUnique(s.db)
    ensures TokensUnique(RunFrom(cfg, s, actions).db)
    decreases |actions|
  {
    hide Apply, TokensUnique;
    if actions != [] {
      TokensStay(cfg, s, actions[..|actions| - 1]);
      StepTokens(cfg, RunFrom(cfg, s, actions[..|actions| - 1]), actions[|actions| - 1]);
    }
  }

  // ---------- a connection among others ----------

  /** The service that the broker knows. */
  predicate KnownService(call: Call) {
    call.RestartService? || call.RollbackService? ==> call.service == "nginx"
  }

  /** The states before the SELECT, before the UPDATE and after it, with anything else going on in between. */
  ghost function Serving(cfg: Config, s: State, c: nat, call: Call, gap: seq<Action>, now: int, later: seq<Action>):
    (State, State, State)
    requires BuildRequest(call).Ok? && SortKeys(BuildRequest(call).value).Obj?
  {
    var fields := SortKeys(BuildRequest(call).value).fields;
    var selecting := RunFrom(cfg, Apply(cfg, s, DoConnect(c, fields)), gap);
    var updating := RunFrom(cfg, Apply(cfg, selecting, DoSelect(c, now)), later);
    (selecting, updating, Apply(cfg, updating, DoUpdate(c)))
  }

  /** What the connection finds at its three steps. */
  ghost predicate FindsAuthorized(cfg: Config, s: State, selecting: State, updating: State, call: Call, tool: string,
      args: seq<Field>, now: int, id: string, op: Operation) {
    && "" !in Names(call) && Ready(s.db, call, op)
    && id in selecting.db.approvals && Authorizes(cfg, selecting.db.approvals[id], call, tool, args)
    && now < selecting.db.approvals[id].expiresAt
    && id in updating.db.approvals && updating.db.approvals[id].status == APPROVED
    && updating.db.approvals[id].tokenHash == Some(TokenHash(cfg, call.token))
  }

  lemma {:induction false} Serves(cfg: Config, s: State, c: nat, call: Call, gap: seq<Action>, now: int,
      later: seq<Action>)
    requires KnownService(call) && c !in s.connections
    requires AllOfOthers(gap, c) && AllOfOthers(later, c)
    ensures BuildRequest(call).Ok? && SortKeys(BuildRequest(call).value).Obj?
    ensures var (selecting, updating, _) := Serving(cfg, s, c, call, gap, now, later);
            var op := PrepareHelper(s.db, call);
            && c in selecting.connections && c in updating.connections
            && selecting.connections[c]
               == (if "" in Names(call) || op.None? then Denied else Prepared(call, op.value))
            && updating.connections[c] == Apply(cfg, selecting, DoSelect(c, now)).connections[c]
  {
    assert BuildRequest(call).Ok?;
    hide Apply, BuildRequest, SortKeys, PrepareHelper, Names, RunFrom, KnownService, AllOfOthers;
    Connected(cfg, s, c, call);
    var s1 := Apply(cfg, s, DoConnect(c, SortKeys(BuildRequest(call).value).fields));
    PhaseWaits(cfg, s1, gap, c);
    var s2 := RunFrom(cfg, s1, gap);
    SelectKnown(cfg, s2, c, now);
    PhaseWaits(cfg, Apply(cfg, s2, DoSelect(c, now)), later, c);
  }

  lemma {:induction false} SelectKnown(cfg: Config, s: State, c: nat, now: int)
    requires c in s.connections
    ensures c in Apply(cfg, s, DoSelect(c, now)).connections
  {
    hide SelectRow;
  }

  lemma {:induction false} SelectingUnique(cfg: Config, actions: seq<Action>, a: Action, gap: seq<Action>)
    ensures TokensUnique(RunFrom(cfg, Apply(cfg, After(cfg, actions), a), gap).db)
  {
    hide Apply, RunFrom, After, TokensUnique;
    RequestsStay(cfg, actions);
    StepTokens(cfg, After(cfg, actions), a);
    TokensStay(cfg, Apply(cfg, After(cfg, actions), a), gap);
  }

  /**
   A connection, whatever else happens between its steps, is granted for an approval if and only if the helper row is
   there, the row was approved and claimed with the token of the call for exactly the tool and arguments that the call
   needs, it has not expired at the SELECT, and it still is APPROVED with that token at the UPDATE. A grant uses the row
   up and logs one committed effect with that tool, those arguments and that operation; otherwise nothing changes.
   */
  lemma {:induction false} GrantedExactly(
      cfg: Config, actions: seq<Action>, c: nat, call: Call, gap: seq<Action>, now: int, later: seq<Action>,
      tool: string, args: seq<Field>, id: string, op: Operation)
    requires KnownService(call) && Fits(call, tool, args) && c !in After(cfg, actions).connections
    requires AllOfOthers(gap, c) && AllOfOthers(later, c)
    ensures BuildRequest(call).Ok? && SortKeys(BuildRequest(call).value).Obj?
    ensures var s := After(cfg, actions);
            var (selecting, updating, after) := Serving(cfg, s, c, call, gap, now, later);
            && c in after.connections && (after.connections[c].Granted? || after.connections[c].Denied?)
            && (after.connections[c] == Granted(call, op, id, now) <==>
                FindsAuthorized(cfg, s, selecting, updating, call, tool, args, now, id, op))
            && (after.connections[c] == Granted(call, op, id, now) ==>
                && after.trace == updating.trace
                   + [Effect(id, Grant(call.userId, call.taskId, tool, args, call.token, op), true, now)]
                && after.db == updating.db.(approvals := updating.db.approvals[id :=
                     updating.db.approvals[id].(status := CONSUMED)]))
            && (after.connections[c].Denied? ==> after.trace == updating.trace && after.db == updating.db)
  {
    hide After, Apply, RunFrom, Ready, PrepareHelper, Names, KnownService, Fits, AllOfOthers, BuildRequest, SortKeys;
    hide TokensUnique, RowMatches, Authorizes;
    var s := After(cfg, actions);
    Serves(cfg, s, c, call, gap, now, later);
    SelectingUnique(cfg, actions, DoConnect(c, SortKeys(BuildRequest(call).value).fields), gap);
    var (selecting, updating, after) := Serving(cfg, s, c, call, gap, now, later);
    SelectedStep(cfg, selecting, c, now, id);
    UpdatedStep(cfg, updating, c);
    ReadyExactly(s.db, call, op);
    ExpectedFits(call, tool, args);
    if id in selecting.db.approvals {
      MatchesExactly(cfg, selecting.db.approvals[id], call, tool, args);
    }
  }

  // ---------- from the request to the grant, and back ----------

  /** The run in which the request is made, approved and claimed. */
  function ClaimRun(k: Ask, gap: seq<Action>, later: seq<Action>): seq<Action> {
    (([Creation(k)] + gap) + ([DoApprove(k.id, k.approver, k.approvedAt)] + later))
    + [DoClaim(k.id, k.user, k.claimedAt, k.nonce)]
  }

  lemma {:induction false} RunSplits(cfg: Config, s: State, first: seq<Action>, more: seq<Action>)
    ensures RunFrom(cfg, s, first + more) == RunFrom(cfg, RunFrom(cfg, s, first), more)
    decreases |more|
  {
    hide Apply;
    if more == [] {
      assert first + more == first;
    } else {
      RunSplits(cfg, s, first, more[..|more| - 1]);
      assert (first + more)[..|first + more| - 1] == first + more[..|more| - 1];
    }
  }

  lemma {:induction false} OneStep(cfg: Config, s: State, a: Action)
    ensures RunFrom(cfg, s, [a]) == Apply(cfg, s, a)
  {
    hide Apply;
    assert [a][..0] == [];
  }

  lemma {:induction false} ClaimRunEnds(cfg: Config, s: State, k: Ask, gap: seq<Action>, later: seq<Action>)
    ensures RunFrom(cfg, s, ClaimRun(k, gap, later)) == Claiming(cfg, s, k, gap, later).1
  {
    hide Apply, RunFrom;
    var create, approve := Creation(k), DoApprove(k.id, k.approver, k.approvedAt);
    var claim := DoClaim(k.id, k.user, k.claimedAt, k.nonce);
    var asked := RunFrom(cfg, Apply(cfg, s, create), gap);
    var approved := RunFrom(cfg, Apply(cfg, asked, approve), later);
    OneStep(cfg, s, create);
    RunSplits(cfg, s, [create], gap);
    OneStep(cfg, asked, approve);
    RunSplits(cfg, asked, [approve], later);
    RunSplits(cfg, s, [create] + gap, [approve] + later);
    OneStep(cfg, approved, claim);
    RunSplits(cfg, s, ([create] + gap) + ([approve] + later), [claim]);
  }

  /** Asked for what the call needs, approved by somebody else and claimed, both in time. */
  ghost predicate Obtained(cfg: Config, s: State, k: Ask, gap: seq<Action>, later: seq<Action>) {
    && k.id !in s.db.approvals && AllLeaveAlone(gap, k.id) && AllLeaveAlone(later, k.id)
    && Unique(Obj(k.args)) && MayRequest(cfg, s.db, k.task, k.tool, k.args) && k.policyAllows
    && k.approver != k.user && k.approvedAt < k.expiresAt && k.claimedAt < k.expiresAt
    && TokenHashFree(Claiming(cfg, s, k, gap, later).0.db, k.id, TokenHash(cfg, TokenOf(cfg, k)))
  }

  predicate SameRow(db: Database, next: Database, id: string) {
    id in db.approvals ==> id in next.approvals && next.approvals[id] == db.approvals[id]
  }

  lemma {:induction false} ObtainedAuthorizes(cfg: Config, k: Ask, call: Call)
    requires Fits(call, k.tool, k.args) && call.userId == k.user && call.taskId == k.task
    requires call.token == TokenOf(cfg, k)
    ensures Authorizes(cfg, AuthorizedRow(cfg, k), call, k.tool, k.args)
  {
    hide TokenOf, Canonical, Encode;
  }

  /**
   Whoever asks for the tool of a call with its arguments, has that approved by somebody else and claims it in time gets
   the call done: as long as the row stays as it was claimed, the connection is granted and one committed effect is
   logged, with the operation that the helper row says.
   */
  lemma {:induction false} RequestIsGranted(
      cfg: Config, actions: seq<Action>, k: Ask, first: seq<Action>, second: seq<Action>, c: nat, call: Call,
      gap: seq<Action>, now: int, later: seq<Action>, op: Operation)
    requires Obtained(cfg, After(cfg, actions), k, first, second)
    requires KnownService(call) && Fits(call, k.tool, k.args) && "" !in Names(call) && now < k.expiresAt
    requires call.userId == k.user && call.taskId == k.task && call.token == TokenOf(cfg, k)
    requires AllOfOthers(gap, c) && AllOfOthers(later, c)
    requires BuildRequest(call).Ok? && SortKeys(BuildRequest(call).value).Obj?
    requires var s := After(cfg, actions + ClaimRun(k, first, second));
             var (selecting, updating, _) := Serving(cfg, s, c, call, gap, now, later);
             && c !in s.connections && Ready(s.db, call, op)
             && SameRow(s.db, selecting.db, k.id) && SameRow(s.db, updating.db, k.id)
    ensures var s := After(cfg, actions + ClaimRun(k, first, second));
            var (_, updating, after) := Serving(cfg, s, c, call, gap, now, later);
            && c in after.connections && after.connections[c] == Granted(call, op, k.id, now)
            && after.trace == updating.trace
               + [Effect(k.id, Grant(k.user, k.task, k.tool, k.args, call.token, op), true, now)]
            && k.id in after.db.approvals && after.db.approvals[k.id].status == CONSUMED
  {
    hide After, Apply, RunFrom, Ready, Names, KnownService, Fits, AllOfOthers, BuildRequest, SortKeys, AllLeaveAlone;
    hide Unique, MayRequest, TokenHashFree, TokenOf, Authorizes, ClaimRun, Claiming, AuthorizedRow, Serving;
    var s0 := After(cfg, actions);
    RunJoins(cfg, actions, ClaimRun(k, first, second));
    ClaimRunEnds(cfg, s0, k, first, second);
    AuthorizedExactly(cfg, s0, k, first, second);
    ObtainedAuthorizes(cfg, k, call);
    AuthorizedColumns(cfg, k);
    assert k.id in After(cfg, actions + ClaimRun(k, first, second)).db.approvals;
    GrantedExactly(cfg, actions + ClaimRun(k, first, second), c, call, gap, now, later, k.tool, k.args, k.id, op);
  }

  lemma {:induction false} AuthorizedColumns(cfg: Config, k: Ask)
    ensures var row := AuthorizedRow(cfg, k);
            && row.status == APPROVED && row.expiresAt == k.expiresAt
            && row.tokenHash == Some(TokenHash(cfg, TokenOf(cfg, k)))
  {
    hide TokenOf, Canonical, Encode;
  }

  /** The request at `i` is of the tool and the arguments that the call needs, or the effect at `k` names a clash. */
  ghost predicate RequestedFor(cfg: Config, trace: seq<Event>, i: int, k: int, m: int, id: string, call: Call) {
    && 0 <= i < m < k < |trace| && trace[i].Created? && trace[m].Claimed? && trace[k].Effect?
    && trace[i].approvalId == id && trace[i].requester == call.userId && trace[i].taskId == call.taskId
    && exists tool, args :: Fits(call, tool, args) && trace[i].toolName == tool
         && (SameValue(Obj(trace[i].arguments), Obj(args)) || Clash(cfg, trace[i], trace[m], trace[k].grant))
  }

  /** A connection that was granted had a request of the tool and the arguments that its call needs. */
  lemma {:induction false} GrantedWasRequested(cfg: Config, actions: seq<Action>, c: nat)
    returns (i: int, m: int, k: int)
    requires DotFree(cfg.mac) && LegalRun(actions)
    requires c in After(cfg, actions).connections && After(cfg, actions).connections[c].Granted?
    ensures var s := After(cfg, actions);
            RequestedFor(cfg, s.trace, i, k, m, s.connections[c].approvalId, s.connections[c].call)
  {
    hide After, Fits, SameValue, Clash, OperationTraced, LegalRun;
    var s := After(cfg, actions);
    var Granted(call, op, id, at) := s.connections[c];
    GrantsAreLogged(cfg, actions, c);
    k :| 0 <= k < |s.trace| && s.trace[k] == Effect(id, BrokerGrant(call, op), true, at);
    EffectsWereApproved(cfg, actions, k);
    var j;
    i, j, m :| EffectTrail(cfg, s.trace, k, i, j, m);
    ExpectedFits(call, ExpectedTool(call), ExpectedArguments(call));
  }
}
