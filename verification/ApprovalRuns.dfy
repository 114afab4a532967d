/** The safety of whole runs: single use, separation of duty, and binding of what is done to what was approved. */
module ApprovalRuns {
  import opened Wrappers
  import opened Json
  import opened JsonProofs
  import opened JsonDicts
  import opened Utf8
  import opened Tokens
  import opened BrokerWire
  import opened ApprovalProtocol
  import opened ApprovalInvariant
  import opened ApprovalBinding
  import opened ApprovalSteps

  /** The rows a successful direct tool leaves, when its approval is consumed with them. */
  lemma {:induction false} ConsumedSuccess(
      cfg: Config, db: Database, trace: seq<Event>, id: string, req: RunRequest, op: Operation, e: Event,
      changeId: string, backupRef: Option<string>)
    requires FilesTraced(db, trace) && ChangesTraced(db, trace) && id in db.approvals
    requires cfg.controlled ==> SessionOk(db, req)
    requires RecordSuccess(cfg, Consume(db, id), id, req, op, changeId, backupRef).Some?
    ensures var next := RecordSuccess(cfg, Consume(db, id), id, req, op, changeId, backupRef).value;
            var more := [e] + CompletionOf(db, next, changeId);
            && next.approvals == Consume(db, id).approvals && OwnersStay(db, next) && ExecutionsStay(db, next)
            && FilesTraced(next, trace + more) && ChangesTraced(next, trace + more)
  {
    hide FilesTraced, ChangesTraced, OwnersStay, ExecutionsStay, RecordSuccess, RollbackSource;
    var used := Consume(db, id);
    var next := RecordSuccess(cfg, used, id, req, op, changeId, backupRef).value;
    SameSource(db, used, req);
    FilesStay(db, trace, used, [e]);
    ChangesStay(db, trace, [e]);
    SameChanges(db, used, trace + [e]);
    SuccessTraced(cfg, used, trace + [e], id, req, op, changeId, backupRef);
    SameTables(db, used, next);
    assert trace + ([e] + CompletionOf(db, next, changeId)) == trace + [e] + CompletionOf(used, next, changeId);
  }

  lemma {:induction false} TablesTraced(cfg: Config, s: State)
    requires Inv(cfg, s)
    ensures FilesTraced(s.db, s.trace) && ChangesTraced(s.db, s.trace)
  {
  }

  lemma {:induction false} RestQuiet(e: Event, rest: seq<Event>)
    requires e.Effect? && forall k :: 0 <= k < |rest| ==> !rest[k].Effect? && !rest[k].Approved?
    ensures forall k :: 0 < k < |[e] + rest| ==> !([e] + rest)[k].Effect?
    ensures forall k :: 0 <= k < |[e] + rest| ==> !([e] + rest)[k].Approved?
  {
    forall k | 0 < k < |[e] + rest|
      ensures !([e] + rest)[k].Effect? && !([e] + rest)[k].Approved?
    {
      assert ([e] + rest)[k] == rest[k - 1];
    }
  }

  /** A step of the API that logs one effect. */
  lemma {:induction false} EffectStep(cfg: Config, s: State, db: Database, e: Event, rest: seq<Event>, id: string)
    requires Inv(cfg, s) && id in s.db.approvals && s.db.approvals[id].status == APPROVED
    requires e.Effect? && e.approvalId == id && (forall k :: 0 <= k < |rest| ==> !rest[k].Effect? && !rest[k].Approved?)
    requires db.approvals == Consume(s.db, id).approvals || (db.approvals == s.db.approvals && !e.committed)
    requires OwnersStay(s.db, db) && ExecutionsStay(s.db, db)
    requires FilesTraced(db, s.trace + ([e] + rest)) && ChangesTraced(db, s.trace + ([e] + rest))
    requires EffectTraced(cfg, s.trace + ([e] + rest), |s.trace|)
    ensures Inv(cfg, s.(db := db, trace := s.trace + ([e] + rest)))
  {
    hide EffectTraced, FilesTraced, ChangesTraced, OwnersStay, ExecutionsStay, Inv;
    var more := [e] + rest;
    RestQuiet(e, rest);
    forall k, other | EffectAt(more, k, other)
      ensures k == 0 && other == id && (more[k].committed ==> db.approvals != s.db.approvals)
    {
      assert e.committed ==> db.approvals[id].status == CONSUMED;
    }
    hide EffectAt, Consume;
    forall k | |s.trace| <= k < |s.trace + more| && (s.trace + more)[k].Effect?
      ensures EffectTraced(cfg, s.trace + more, k)
    {
      assert (s.trace + more)[k] == more[k - |s.trace|];
    }
    ConsumeKeeps(cfg, s, db, more, id);
  }

  lemma {:induction false} CompletedKeeps(
      cfg: Config, s: State, id: string, req: RunRequest, op: Operation, e: Event, changeId: string,
      backupRef: Option<string>)
    requires Inv(cfg, s) && id in s.db.approvals && s.db.approvals[id].status == APPROVED
    requires e.Effect? && e.approvalId == id && (cfg.controlled ==> SessionOk(s.db, req))
    requires RecordSuccess(cfg, Consume(s.db, id), id, req, op, changeId, backupRef).Some?
    requires var db := RecordSuccess(cfg, Consume(s.db, id), id, req, op, changeId, backupRef).value;
             EffectTraced(cfg, s.trace + ([e] + CompletionOf(s.db, db, changeId)), |s.trace|)
    ensures var db := RecordSuccess(cfg, Consume(s.db, id), id, req, op, changeId, backupRef).value;
            Inv(cfg, s.(db := db, trace := s.trace + ([e] + CompletionOf(s.db, db, changeId))))
  {
    hide EffectTraced, FilesTraced, ChangesTraced, OwnersStay, ExecutionsStay, RecordSuccess, SessionOk;
    TablesTraced(cfg, s);
    hide Inv;
    var db := RecordSuccess(cfg, Consume(s.db, id), id, req, op, changeId, backupRef).value;
    ConsumedSuccess(cfg, s.db, s.trace, id, req, op, e, changeId, backupRef);
    EffectStep(cfg, s, db, e, CompletionOf(s.db, db, changeId), id);
  }

  lemma {:induction false} SameSource(db: Database, used: Database, req: RunRequest)
    requires used.executions == db.executions
    ensures RollbackSource(used, req) == RollbackSource(db, req)
  {
    hide GetText;
  }

  lemma {:induction false} SameTables(db: Database, used: Database, next: Database)
    requires used.executions == db.executions && used.candidates == db.candidates
    requires ExecutionsStay(used, next) && OwnersStay(used, next)
    ensures ExecutionsStay(db, next) && OwnersStay(db, next)
  {
  }

  /** The rows a failed direct tool leaves, when its approval is consumed with them. */
  lemma {:induction false} ConsumedFailure(
      db: Database, trace: seq<Event>, id: string, req: RunRequest, target: Option<string>, attemptId: string,
      more: seq<Event>)
    requires FilesTraced(db, trace) && ChangesTraced(db, trace) && id in db.approvals
    requires RecordFailure(Consume(db, id), id, req, target, attemptId).Some?
    ensures var next := RecordFailure(Consume(db, id), id, req, target, attemptId).value;
            && next.approvals == Consume(db, id).approvals && OwnersStay(db, next) && ExecutionsStay(db, next)
            && FilesTraced(next, trace + more) && ChangesTraced(next, trace + more)
  {
    hide FilesTraced, ChangesTraced, OwnersStay, ExecutionsStay, InsertExecution;
    var used := Consume(db, id);
    var row := Execution(req.taskId, id, req.toolName, target, None, FAILED);
    var next := RecordFailure(used, id, req, target, attemptId).value;
    InsertedRows(used, attemptId, row);
    FilesStay(db, trace, next, more);
    SameChanges(db, used, trace);
    InsertionTraced(used, trace, attemptId, row, more);
    UsedExecutions(db, used, next);
  }

  lemma {:induction false} RunDirectKeeps(cfg: Config, s: State, id: string, req: RunRequest, now: int,
      attemptId: string, ending: Ending)
    requires DotFree(cfg.mac) && Inv(cfg, s) && Unique(Obj(req.arguments))
    requires id in s.db.approvals && Admits(cfg, s.db.approvals[id], req)
    ensures Inv(cfg, RunDirect(cfg, s, id, req, now, attemptId, ending))
  {
    hide Inv, Failed, Outcome, Resolve, Settle, Settled, TargetRef, EffectTraced, Unique, Consume;
    var consumed := if cfg.controlled then {} else s.consumed;
    match Resolve(cfg, s.db, req) {
      case None => FailedKeeps(cfg, s, id, req, None, attemptId);
      case Some((op, arguments)) =>
        FailedKeeps(cfg, s, id, req, TargetRef(op), attemptId);
        var r := Outcome(cfg.sha, cfg.mac, cfg.secret, consumed, req.token,
          Scope(req.userId, req.taskId, req.toolName, Obj(arguments)), now);
        if r.Ok? && !ending.Rejects? {
          var s1 := if cfg.controlled then s else s.(consumed := s.consumed + Accepted(r));
          ConsumedIrrelevant(cfg, s, s1.consumed);
          assert TokenAccepted(cfg, consumed, req, arguments, now);
          SettledKeeps(cfg, s, s1, id, req, consumed, now, attemptId, ending);
        }
    }
  }

  /** Whatever the executor does once the token is consumed, its effect and the rows that follow keep the invariant. */
  lemma {:induction false} SettledKeeps(
      cfg: Config, s: State, s1: State, id: string, req: RunRequest, consumed: set<string>, now: int, attemptId: string,
      ending: Ending)
    requires DotFree(cfg.mac) && Inv(cfg, s1) && s1 == s.(consumed := s1.consumed) && Unique(Obj(req.arguments))
    requires id in s.db.approvals && Admits(cfg, s.db.approvals[id], req)
    requires Resolve(cfg, s.db, req).Some? && TokenAccepted(cfg, consumed, req, Resolve(cfg, s.db, req).value.1, now)
    ensures var (op, arguments) := Resolve(cfg, s.db, req).value;
            var grant := Grant(req.userId, req.taskId, req.toolName, arguments, req.token, op);
            Inv(cfg, Settled(s1, id, grant, Settle(cfg, s.db, id, req, op, attemptId, ending), ending, now))
  {
    hide Inv, Resolve, RecordSuccess, RecordFailure, EffectTraced, Unique, TokenAccepted, Consume, SessionOk, TargetRef;
    hide FilesTraced, ChangesTraced, OwnersStay, ExecutionsStay;
    var (op, arguments) := Resolve(cfg, s.db, req).value;
    var grant := Grant(req.userId, req.taskId, req.toolName, arguments, req.token, op);
    var rows := Settle(cfg, s.db, id, req, op, attemptId, ending);
    var e := Effect(id, grant, rows.Some?, now);
    if !Happened(ending) {
      FailedKeeps(cfg, s1, id, req, TargetRef(op), attemptId);
      assert s1.trace + ([] + []) == s1.trace;
    } else if rows.None? {
      UncommittedKeeps(cfg, s1, id, req, consumed, now, e);
    } else if ending.Succeeds? {
      if cfg.controlled {
        ResolvedSession(cfg, s.db, req);
      }
      DirectEffect(cfg, s1, id, req, consumed, now, [e] + CompletionOf(s.db, rows.value, ending.changeId), true);
      CompletedKeeps(cfg, s1, id, req, op, e, ending.changeId, ending.backupRef);
    } else {
      TablesTraced(cfg, s1);
      DirectEffect(cfg, s1, id, req, consumed, now, [e] + [], true);
      ConsumedFailure(s1.db, s1.trace, id, req, TargetRef(op), attemptId, [e] + []);
      EffectStep(cfg, s1, rows.value, e, [], id);
    }
  }

  /** An effect without a commit leaves every row as it was. */
  lemma {:induction false} UncommittedKeeps(cfg: Config, s: State, id: string, req: RunRequest, consumed: set<string>,
      now: int, e: Event)
    requires DotFree(cfg.mac) && Inv(cfg, s) && Unique(Obj(req.arguments))
    requires id in s.db.approvals && Admits(cfg, s.db.approvals[id], req)
    requires Resolve(cfg, s.db, req).Some? && TokenAccepted(cfg, consumed, req, Resolve(cfg, s.db, req).value.1, now)
    requires var (op, arguments) := Resolve(cfg, s.db, req).value;
             e == Effect(id, Grant(req.userId, req.taskId, req.toolName, arguments, req.token, op), false, now)
    ensures Inv(cfg, s.(trace := s.trace + ([e] + [])))
  {
    hide Inv, Resolve, EffectTraced, Unique, TokenAccepted, FilesTraced, ChangesTraced, OwnersStay, ExecutionsStay;
    DirectEffect(cfg, s, id, req, consumed, now, [e] + [], false);
    TablesTraced(cfg, s);
    UnchangedTables(s.db);
    FilesStay(s.db, s.trace, s.db, [e] + []);
    ChangesStay(s.db, s.trace, [e] + []);
    EffectStep(cfg, s, s.db, e, [], id);
  }

  // ---------- brokered tools ----------

  lemma {:induction false} AttemptKeeps(cfg: Config, s: State, id: string, req: RunRequest, target: Option<string>,
      attemptId: string)
    requires Inv(cfg, s) && RecordFailure(s.db, id, req, target, attemptId).Some?
    ensures Inv(cfg, s.(db := RecordFailure(s.db, id, req, target, attemptId).value))
  {
    TablesTraced(cfg, s);
    hide Inv, InsertExecution, FilesTraced, ChangesTraced, OwnersStay, ExecutionsStay, EffectTraced;
    var row := Execution(req.taskId, id, req.toolName, target, None, FAILED);
    var next := RecordFailure(s.db, id, req, target, attemptId).value;
    InsertedRows(s.db, attemptId, row);
    FilesStay(s.db, s.trace, next, []);
    InsertionTraced(s.db, s.trace, attemptId, row, []);
    assert s.trace + [] == s.trace;
    StepKeeps(cfg, s, s.(db := next), [], {});
  }

  lemma {:induction false} SessionsChange(cfg: Config, s: State, sessions: map<nat, Session>)
    requires Inv(cfg, s) && forall n :: n in sessions ==> SessionOk(s.db, sessions[n].request)
    ensures Inv(cfg, s.(sessions := sessions))
  {
    hide RowsTraced, FilesTraced, ChangesTraced, PhaseTraced, EffectsTraced, CommittedIsLast, CommittedConsumed;
    assert forall c, id :: GrantedFor(s.(sessions := sessions), c, id) == GrantedFor(s, c, id);
  }

  lemma {:induction false} BeginKeeps(
      cfg: Config, s: State, id: string, session: nat, req: RunRequest, available: bool, attemptId: string)
    requires cfg.controlled && Inv(cfg, s)
    ensures Inv(cfg, BeginBrokered(cfg, s, id, session, req, available, attemptId))
  {
    hide Resolve, RecordFailure, SessionOk;
    var resolved := Resolve(cfg, s.db, req);
    if resolved.Some? && available {
      ResolvedSession(cfg, s.db, req);
      assert SessionsOk(s);
      hide Inv;
      SessionsChange(cfg, s, s.sessions[session := Session(id, req, resolved.value.0)]);
    } else {
      hide Inv;
      if RecordFailure(s.db, id, req, None, attemptId).Some? {
        AttemptKeeps(cfg, s, id, req, None, attemptId);
      }
    }
  }

  lemma {:induction false} FinishKeeps(cfg: Config, s: State, ses: Session, attemptId: string, ending: Ending)
    requires Inv(cfg, s) && SessionOk(s.db, ses.request)
    ensures Inv(cfg, FinishBrokered(cfg, s, ses, attemptId, ending))
  {
    TablesTraced(cfg, s);
    hide Inv, RecordSuccess, RecordFailure, SessionOk, FilesTraced, ChangesTraced, OwnersStay, ExecutionsStay;
    hide EffectTraced, TargetRef;
    match ending {
      case Crashes(_) =>
      case Succeeds(changeId, backupRef) =>
        var r := RecordSuccess(cfg, s.db, ses.approvalId, ses.request, ses.operation, changeId, backupRef);
        if r.Some? {
          SuccessTraced(cfg, s.db, s.trace, ses.approvalId, ses.request, ses.operation, changeId, backupRef);
          var more := CompletionOf(s.db, r.value, changeId);
          StepKeeps(cfg, s, s.(db := r.value, trace := s.trace + more), more, {});
        }
      case _ =>
        if RecordFailure(s.db, ses.approvalId, ses.request, TargetRef(ses.operation), attemptId).Some? {
          AttemptKeeps(cfg, s, ses.approvalId, ses.request, TargetRef(ses.operation), attemptId);
        }
    }
  }

  // ---------- connections of the broker ----------

  lemma {:induction false} PreparedOperation(db: Database, trace: seq<Event>, call: Call)
    requires FilesTraced(db, trace) && ChangesTraced(db, trace) && PrepareHelper(db, call).Some?
    ensures OperationTraced(trace, call.taskId, PrepareHelper(db, call).value)
  {
    match call {
      case CleanupFile(c, _, task, _) =>
        hide FileTraced;
        assert FileTraced(trace, c, db.candidates[c].taskId, db.candidates[c].snapshot);
      case RollbackCleanup(change, _, task, _) =>
        var row := db.executions[change];
        assert ChangeTraced(trace, change, row);
        var n :| CompletedAt(trace, n, change, row);
      case _ =>
    }
  }

  lemma {:induction false} ConnectionKeeps(cfg: Config, s: State, c: nat, phase: Phase)
    requires Inv(cfg, s) && PhaseTraced(cfg, s.db, s.trace, phase)
    requires forall d, id :: phase.Granted? && phase.approvalId == id ==> !GrantedFor(s, d, id)
    ensures Inv(cfg, s.(connections := s.connections[c := phase]))
  {
    var s' := s.(connections := s.connections[c := phase]);
    hide RowsTraced, FilesTraced, ChangesTraced, PhaseTraced, SessionOk, EffectsTraced, CommittedIsLast;
    hide CommittedConsumed;
    forall d, e, id | GrantedFor(s', d, id) && GrantedFor(s', e, id)
      ensures d == e
    {
      assert d != c ==> GrantedFor(s, d, id);
      assert e != c ==> GrantedFor(s, e, id);
    }
  }

  lemma {:induction false} ConnectKeeps(cfg: Config, s: State, c: nat, fields: seq<Field>)
    requires Inv(cfg, s)
    ensures Inv(cfg, Connect(s, c, fields))
  {
    TablesTraced(cfg, s);
    hide Inv, ReadCall, PrepareHelper, FilesTraced, ChangesTraced, OperationTraced;
    var call := ReadCall(fields);
    var op := if call.Ok? then PrepareHelper(s.db, call.value) else None;
    if op.Some? {
      PreparedOperation(s.db, s.trace, call.value);
    }
    ConnectionKeeps(cfg, s, c, if op.Some? then Prepared(call.value, op.value) else Denied);
  }

  lemma {:induction false} SelectedMatches(cfg: Config, db: Database, call: Call, now: int)
    requires SelectRow(cfg, db, call, now).Some?
    ensures SelectRow(cfg, db, call, now).value in db.approvals
    ensures RowMatches(cfg, db.approvals[SelectRow(cfg, db, call, now).value], call)
  {
    hide RowMatches;
  }

  lemma {:induction false} RowMatchesColumns(cfg: Config, row: Approval, call: Call)
    requires RowMatches(cfg, row, call)
    ensures Matches(cfg, row, call)
  {
    hide Encode, Canonical, ExpectedArguments, ExpectedTool;
  }

  lemma {:induction false} SelectKeeps(cfg: Config, s: State, c: nat, now: int)
    requires Inv(cfg, s)
    ensures Inv(cfg, Select(cfg, s, c, now))
  {
    if c in s.connections && s.connections[c].Prepared? {
      var phase := s.connections[c];
      assert PhaseTraced(cfg, s.db, s.trace, phase);
      hide Inv, SelectRow, OperationTraced, Matches;
      var row := SelectRow(cfg, s.db, phase.call, now);
      if row.Some? {
        SelectedMatches(cfg, s.db, phase.call, now);
        RowMatchesColumns(cfg, s.db.approvals[row.value], phase.call);
      }
      ConnectionKeeps(cfg, s, c, if row.Some? then Selected(phase.call, phase.operation, row.value, now) else Denied);
    }
  }

  lemma {:induction false} ExpectedUnique(call: Call)
    ensures Unique(Obj(ExpectedArguments(call)))
  {
  }

  /** What a connection does when its guarded UPDATE hits is traced. */
  lemma {:induction false} BrokerEffect(cfg: Config, s: State, call: Call, op: Operation, id: string, at: int)
    requires Inv(cfg, s) && PhaseTraced(cfg, s.db, s.trace, Selected(call, op, id, at))
    requires UpdateHits(cfg, s.db, id, call)
    ensures EffectTraced(cfg, s.trace + ([Effect(id, BrokerGrant(call, op), true, at)] + []), |s.trace|)
  {
    hide Trail, OperationTraced, ArgumentsHash, Unique, ExpectedArguments, ExpectedTool, EffectTraced;
    var i, j, m := GetTrail(cfg, s, id);
    hide Inv;
    ExpectedUnique(call);
    TrailKnown(cfg, s.db, s.trace, id, s.db.approvals[id], i, j, m);
    NewEffect(cfg, s.db, s.trace, [Effect(id, BrokerGrant(call, op), true, at)] + [], id, s.db.approvals[id], i, j, m,
      BrokerGrant(call, op), true, at);
  }

  lemma {:induction false} TrailKnown(cfg: Config, db: Database, trace: seq<Event>, id: string, row: Approval, i: int,
      j: int, m: int)
    requires Trail(cfg, db, trace, id, row, i, j, m)
    ensures 0 <= i < |trace| && trace[i].Created?
    ensures row.tokenHash.Some? ==> 0 <= m < |trace| && trace[m].Claimed?
  {
    hide Unique, Canonical, ArgumentsHash, OnlyText, ClaimedToken;
  }

  lemma {:induction false} NotYetGranted(cfg: Config, s: State, id: string)
    requires Inv(cfg, s) && id in s.db.approvals && s.db.approvals[id].status == APPROVED
    ensures forall d :: !GrantedFor(s, d, id)
  {
    hide RowsTraced, FilesTraced, ChangesTraced, SessionOk, EffectsTraced, CommittedIsLast, CommittedConsumed, OneGrant;
    forall d
      ensures !GrantedFor(s, d, id)
    {
      if d in s.connections {
        assert PhaseTraced(cfg, s.db, s.trace, s.connections[d]);
      }
    }
  }

  lemma {:induction false} UpdateKeeps(cfg: Config, s: State, c: nat)
    requires Inv(cfg, s)
    ensures Inv(cfg, Update(cfg, s, c))
  {
    if c in s.connections && s.connections[c].Selected? {
      var Selected(call, op, id, at) := s.connections[c];
      assert PhaseTraced(cfg, s.db, s.trace, s.connections[c]);
      hide Inv, OperationTraced, Matches;
      if UpdateHits(cfg, s.db, id, call) {
        GrantKeeps(cfg, s, c, call, op, id, at);
      } else {
        ConnectionKeeps(cfg, s, c, Denied);
      }
    }
  }

  lemma {:induction false} GrantedRowKeeps(cfg: Config, s: State, call: Call, op: Operation, id: string, at: int)
    requires Inv(cfg, s) && PhaseTraced(cfg, s.db, s.trace, Selected(call, op, id, at))
    requires UpdateHits(cfg, s.db, id, call)
    ensures Inv(cfg, Log(s, Consume(s.db, id), Effect(id, BrokerGrant(call, op), true, at)))
  {
    TablesTraced(cfg, s);
    hide Inv, PhaseTraced, FilesTraced, ChangesTraced, EffectTraced, BrokerGrant, OwnersStay, ExecutionsStay;
    var e := Effect(id, BrokerGrant(call, op), true, at);
    BrokerEffect(cfg, s, call, op, id, at);
    assert [e] + [] == [e];
    ConsumedTables(s.db, s.trace, Consume(s.db, id), e);
    assert s.db.approvals[id].status == APPROVED;
    hide UpdateHits, TokenHash, Consume;
    EffectStep(cfg, s, Consume(s.db, id), e, [], id);
  }

  lemma {:induction false} GrantKeeps(cfg: Config, s: State, c: nat, call: Call, op: Operation, id: string, at: int)
    requires Inv(cfg, s) && PhaseTraced(cfg, s.db, s.trace, Selected(call, op, id, at))
    requires UpdateHits(cfg, s.db, id, call)
    ensures var logged := Log(s, Consume(s.db, id), Effect(id, BrokerGrant(call, op), true, at));
            Inv(cfg, logged.(connections := s.connections[c := Granted(call, op, id, at)]))
  {
    hide Inv, OperationTraced, Matches, BrokerGrant;
    GrantedRowKeeps(cfg, s, call, op, id, at);
    NotYetGranted(cfg, s, id);
    var s1 := Log(s, Consume(s.db, id), Effect(id, BrokerGrant(call, op), true, at));
    assert forall d :: GrantedFor(s1, d, id) == GrantedFor(s, d, id);
    assert s1.trace[|s.trace|] == Effect(id, BrokerGrant(call, op), true, at);
    hide GrantedFor;
    ConnectionKeeps(cfg, s1, c, Granted(call, op, id, at));
  }

  lemma {:induction false} ConsumedTables(db: Database, trace: seq<Event>, next: Database, e: Event)
    requires FilesTraced(db, trace) && ChangesTraced(db, trace)
    requires next.executions == db.executions && next.candidates == db.candidates
    ensures ExecutionsStay(db, next) && OwnersStay(db, next)
    ensures FilesTraced(next, trace + [e]) && ChangesTraced(next, trace + [e])
  {
    hide ChangeTraced;
    FilesStay(db, trace, next, [e]);
    ChangesStay(db, trace, [e]);
  }

  // ---------- whole runs ----------

  lemma {:induction false} RunKeeps(
      cfg: Config, s: State, session: nat, req: RunRequest, available: bool, now: int, attemptId: string,
      ending: Ending)
    requires DotFree(cfg.mac) && Inv(cfg, s) && Unique(Obj(req.arguments))
    ensures Inv(cfg, Apply(cfg, s, DoRun(session, req, available, now, attemptId, ending)))
  {
    hide Inv, AdmittedApproval, Admits, RunDirect, BeginBrokered, Unique;
    var admitted := AdmittedApproval(cfg, s.db, req);
    if admitted.Some? {
      AdmittedMatches(cfg, s.db, req);
      if BrokerManaged(cfg, s.db, req, available) {
        BeginKeeps(cfg, s, admitted.value, session, req, available, attemptId);
      } else {
        hide BrokerManaged;
        RunDirectKeeps(cfg, s, admitted.value, req, now, attemptId, ending);
      }
    }
  }

  lemma {:induction false} ApplyFinishKeeps(cfg: Config, s: State, session: nat, attemptId: string, ending: Ending)
    requires Inv(cfg, s)
    ensures Inv(cfg, Apply(cfg, s, DoFinish(session, attemptId, ending)))
  {
    if session in s.sessions {
      assert SessionsOk(s) && SessionOk(s.db, s.sessions[session].request);
      hide Inv, SessionOk, FinishBrokered;
      SessionsChange(cfg, s, s.sessions - {session});
      FinishKeeps(cfg, s.(sessions := s.sessions - {session}), s.sessions[session], attemptId, ending);
    }
  }

  lemma {:induction false} PlainTablesKeep(cfg: Config, s: State, db: Database)
    requires Inv(cfg, s) && db == s.db.(tasks := db.tasks, processes := db.processes)
    ensures Inv(cfg, s.(db := db))
  {
    TablesTraced(cfg, s);
    hide Inv, FileTraced, ChangeTraced, EffectTraced;
    assert s.trace + [] == s.trace;
    StepKeeps(cfg, s, s.(db := db), [], {});
  }

  lemma {:induction false} ClaimAnswersKeep(cfg: Config, s: State, id: string, user: string, now: int, nonce: string)
    requires Inv(cfg, s)
    ensures Inv(cfg, Apply(cfg, s, DoClaim(id, user, now, nonce)))
  {
    hide Inv, ClaimedToken, TokenHashFree;
    if Claim(cfg, s.db, id, user, now, nonce).1.Ok? {
      hide Claim;
      ClaimKeeps(cfg, s, id, user, now, nonce);
    } else if id in s.db.approvals && s.db.approvals[id].status == APPROVED {
      ExpireKeeps(cfg, s, id);
    }
  }

  lemma {:induction false} ApplyKeeps(cfg: Config, s: State, a: Action)
    requires DotFree(cfg.mac) && Inv(cfg, s) && Legal(a)
    ensures Inv(cfg, Apply(cfg, s, a))
  {
    hide Inv, CreateApproval, Approve, Reject, Claim, RecordCandidate, ScopedCandidateId, AdmittedApproval;
    hide FinishBrokered, Connect, Select, Update;
    match a {
      case AddTask(task) => PlainTablesKeep(cfg, s, s.db.(tasks := s.db.tasks + {task}));
      case AddProcess(id, process) => PlainTablesKeep(cfg, s, s.db.(processes := s.db.processes[id := process]));
      case ResetDemo => ConsumedIrrelevant(cfg, s, {});
      case DoCreate(id, user, task, tool, args, expiresAt, allows) =>
        if CreateApproval(cfg, s.db, id, user, task, tool, args, expiresAt, allows).Ok? {
          CreateKeeps(cfg, s, id, user, task, tool, args, expiresAt, allows);
        }
      case DoApprove(id, user, now) =>
        if Approve(s.db, id, user, now).Ok? {
          ApproveKeeps(cfg, s, id, user, now);
        }
      case DoReject(id, user, now) =>
        if Reject(s.db, id, user, now).Ok? {
          RejectKeeps(cfg, s, id, user, now);
        }
      case DoClaim(id, user, now, nonce) => ClaimAnswersKeep(cfg, s, id, user, now, nonce);
      case DoRunTask(task, finding) => RunTaskKeeps(cfg, s, task, finding);
      case DoRun(session, req, available, now, attemptId, ending) =>
        RunKeeps(cfg, s, session, req, available, now, attemptId, ending);
      case DoFinish(session, attemptId, ending) => ApplyFinishKeeps(cfg, s, session, attemptId, ending);
      case DoConnect(c, fields) => ConnectKeeps(cfg, s, c, fields);
      case DoSelect(c, now) => SelectKeeps(cfg, s, c, now);
      case DoUpdate(c) => UpdateKeeps(cfg, s, c);
    }
  }

  lemma {:induction false} InitialHolds(cfg: Config)
    ensures Inv(cfg, Initial())
  {
  }

  lemma {:induction false} RunsKeep(cfg: Config, actions: seq<Action>)
    requires DotFree(cfg.mac) && LegalRun(actions)
    ensures Inv(cfg, After(cfg, actions))
    decreases |actions|
  {
    hide Inv, Apply, Legal;
    InitialHolds(cfg);
    if actions != [] {
      var init := actions[..|actions| - 1];
      assert forall i :: 0 <= i < |init| ==> init[i] == actions[i];
      RunsKeep(cfg, init);
      ApplyKeeps(cfg, After(cfg, init), actions[|actions| - 1]);
    }
  }

  /** In no interleaving do two connections return helper arguments for one approval, and a committed
   effect is the last effect of its approval. */
  lemma {:induction false} ApprovalUsedOnce(cfg: Config, actions: seq<Action>)
    requires DotFree(cfg.mac) && LegalRun(actions)
    ensures var s := After(cfg, actions);
            && (forall c, d, id :: GrantedFor(s, c, id) && GrantedFor(s, d, id) ==> c == d)
            && (forall k, l, id :: CommittedAt(s.trace, k, id) && EffectAt(s.trace, l, id) ==> l <= k)
            && (forall k, id :: CommittedAt(s.trace, k, id) ==>
                  id in s.db.approvals && s.db.approvals[id].status == CONSUMED)
  {
    hide After, GrantedFor, CommittedAt, EffectAt, RowsTraced, FilesTraced, ChangesTraced, PhasesTraced, SessionsOk;
    hide EffectsTraced;
    RunsKeep(cfg, actions);
  }

  /**
   When the guarded UPDATE of a connection hits, the row still is the one that the call asked for, in every column.
   */
  lemma {:induction false} UpdateHitsMatchingRow(cfg: Config, actions: seq<Action>, c: nat)
    requires DotFree(cfg.mac) && LegalRun(actions)
    requires var s := After(cfg, actions);
             && c in s.connections && s.connections[c].Selected?
             && UpdateHits(cfg, s.db, s.connections[c].approvalId, s.connections[c].call)
    ensures var s := After(cfg, actions);
            RowMatches(cfg, s.db.approvals[s.connections[c].approvalId], s.connections[c].call)
  {
    hide After, ExpectedArguments, ExpectedTool, Encode, Canonical;
    RunsKeep(cfg, actions);
    var s := After(cfg, actions);
    assert PhaseTraced(cfg, s.db, s.trace, s.connections[c]);
  }

  /**
   Every effect, brokered or not, was preceded in this order by the request, its approval by someone else and the
   requester's claim of a token, both before the approval expired; task and tool are those requested. Unless two texts
   clash, the token and arguments are too, and the effect passed its own expiry check. In CONTROLLED_EXECUTION the file
   it deletes was recorded for that task, and the file it restores was backed up by a cleanup of that task.
   */
  lemma {:induction false} EffectsWereApproved(cfg: Config, actions: seq<Action>, k: int)
    requires DotFree(cfg.mac) && LegalRun(actions)
    requires 0 <= k < |After(cfg, actions).trace| && After(cfg, actions).trace[k].Effect?
    ensures exists i, j, m :: EffectTrail(cfg, After(cfg, actions).trace, k, i, j, m)
  {
    hide After, EffectTrail, RowsTraced, FilesTraced, ChangesTraced, PhasesTraced, SessionsOk, OneGrant;
    hide CommittedIsLast, CommittedConsumed;
    RunsKeep(cfg, actions);
    assert EffectTraced(cfg, After(cfg, actions).trace, k);
  }

  /** An approval that is still pending or was rejected never had an effect. */
  lemma {:induction false} UndecidedHasNoEffect(cfg: Config, actions: seq<Action>, k: int)
    requires DotFree(cfg.mac) && LegalRun(actions)
    requires var s := After(cfg, actions);
             0 <= k < |s.trace| && s.trace[k].Effect?
    ensures var s := After(cfg, actions);
            && s.trace[k].approvalId in s.db.approvals
            && s.db.approvals[s.trace[k].approvalId].status in {APPROVED, CONSUMED, EXPIRED}
  {
    hide After, RowsTraced, FilesTraced, ChangesTraced, PhasesTraced, SessionsOk, OneGrant, CommittedIsLast;
    hide CommittedConsumed;
    hide OperationTraced, Clash, SameValue;
    RunsKeep(cfg, actions);
    var s := After(cfg, actions);
    assert EffectTraced(cfg, s.trace, k);
    var i, j, m :| EffectTrail(cfg, s.trace, k, i, j, m);
  }

  /** A connection that returned helper arguments did so as a logged effect, so the theorem above speaks about it. */
  lemma {:induction false} GrantsAreLogged(cfg: Config, actions: seq<Action>, c: nat)
    requires DotFree(cfg.mac) && LegalRun(actions)
    requires c in After(cfg, actions).connections && After(cfg, actions).connections[c].Granted?
    ensures var s := After(cfg, actions);
            var Granted(call, op, id, at) := s.connections[c];
            Logged(s.trace, Effect(id, BrokerGrant(call, op), true, at))
  {
    hide After, Logged, RowsTraced, FilesTraced, ChangesTraced, SessionsOk, OneGrant, CommittedIsLast;
    hide CommittedConsumed, EffectsTraced;
    RunsKeep(cfg, actions);
    var s := After(cfg, actions);
    assert PhaseTraced(cfg, s.db, s.trace, s.connections[c]);
  }
}
