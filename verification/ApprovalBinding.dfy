/** Why an accepted token or a matched row binds the arguments that were approved. */
module ApprovalBinding {
  import opened Wrappers
  import opened Json
  import opened JsonProofs
  import opened JsonDicts
  import opened Utf8
  import opened Tokens
  import opened ApprovalProtocol
  import opened ApprovalInvariant

  lemma {:induction false} RereadHash(sha: Sha, v: Value)
    requires Unique(v)
    ensures Loads(Canonical(v)) == Some(SortKeys(v)) && ArgumentsHash(sha, SortKeys(v)) == ArgumentsHash(sha, v)
  {
    hide SortKeys, Dumps, Encode, Loads, Unique;
    CanonicalStable(v);
  }

  /**
   A token claimed for a row is accepted only for arguments with the hash stored in the row, and not after the row
   expires.
   */
  lemma {:induction false} ClaimBinds(
      cfg: Config, row: Approval, created: seq<Field>, claimedAt: int, nonce: string, consumed: set<string>,
      scope: Scope, now: int)
    requires DotFree(cfg.mac)
    requires Unique(Obj(created)) && row.argumentsJson == Canonical(Obj(created))
    requires row.argumentsHash == ArgumentsHash(cfg.sha, Obj(created))
    requires ClaimedToken(cfg, row, claimedAt, nonce).Some?
    requires Outcome(cfg.sha, cfg.mac, cfg.secret, consumed, ClaimedToken(cfg, row, claimedAt, nonce).value, scope,
      now).Ok?
    ensures ArgumentsHash(cfg.sha, scope.arguments) == row.argumentsHash && now <= row.expiresAt
  {
    hide Authenticate, TokenText, ArgumentsHash, Canonical, Loads, SortKeys, Unique;
    RereadHash(cfg.sha, Obj(created));
    var arguments := SortKeys(Obj(created));
    var issued := Scope(row.requesterId, row.taskId, row.toolName, arguments);
    AuthenticateIssued(cfg.mac, cfg.secret,
      IssuedClaims(cfg.sha, issued, claimedAt + (row.expiresAt - claimedAt), nonce));
  }

  /** A dict equal to one with a single string entry has just that entry. */
  lemma {:induction false} OnlyEntry(fs: seq<Field>, key: string, text: string)
    requires Unique(Obj(fs)) && SameValue(Obj(fs), Obj([Field(key, Str(text))]))
    ensures OnlyText(fs, key) == Some(text)
  {
    var one := [Field(key, Str(text))];
    assert HasKey(fs, one[0].key);
    var i :| 0 <= i < |fs| && fs[i].key == key;
    forall j | 0 <= j < |fs|
      ensures fs[j].key == key
    {
      assert HasKey(one, fs[j].key);
    }
    assert SameValue(fs[i].value, one[0].value);
    assert fs[|fs| - 1].key == key && fs[0].key == key;
    assert i == |fs| - 1 && i == 0;
    assert fs == [Field(key, Str(text))];
  }

  /** The arguments an executor presents are again a dict. */
  lemma {:induction false} ResolvedArguments(cfg: Config, db: Database, req: RunRequest)
    requires Unique(Obj(req.arguments)) && Resolve(cfg, db, req).Some?
    ensures Unique(Obj(Resolve(cfg, db, req).value.1))
    ensures cfg.controlled && Resolve(cfg, db, req).value.0.DeleteFile? ==>
      && req.toolName == CLEANUP
      && Resolve(cfg, db, req).value.1 == [Field("candidate_id", Str(Resolve(cfg, db, req).value.0.candidateId))]
      && Resolve(cfg, db, req).value.0.candidateId in db.candidates
      && Resolve(cfg, db, req).value.0.file == db.candidates[Resolve(cfg, db, req).value.0.candidateId].snapshot
  {
    hide GetText, OnlyText;
    if cfg.controlled && req.toolName == CONFIG_UPDATE {
      var fs := Resolve(cfg, db, req).value.1;
      assert |fs| == 2 && |fs[0].key| == 9 && |fs[1].key| == 7;
    }
  }

  lemma {:induction false} ResolvedRestore(cfg: Config, db: Database, trace: seq<Event>, req: RunRequest)
    requires ChangesTraced(db, trace) && Resolve(cfg, db, req).Some? && Resolve(cfg, db, req).value.0.RestoreFile?
    ensures OperationTraced(trace, req.taskId, Resolve(cfg, db, req).value.0)
  {
    hide GetText, OnlyText;
    var RestoreFile(change, backup, target) := Resolve(cfg, db, req).value.0;
    var row := db.executions[change];
    assert ChangeTraced(trace, change, row);
    var n :| CompletedAt(trace, n, change, row);
    assert row.taskId == req.taskId && row.toolName == CLEANUP;
  }

  /** The file a direct cleanup deletes was recorded for the task of the approval. */
  lemma {:induction false} ResolvedDelete(
      cfg: Config, db: Database, trace: seq<Event>, req: RunRequest, row: Approval, created: seq<Field>)
    requires cfg.controlled && FilesTraced(db, trace) && InOwnTask(cfg, db, row, created)
    requires Unique(Obj(created)) && Unique(Obj(req.arguments))
    requires row.taskId == req.taskId && row.toolName == req.toolName
    requires Resolve(cfg, db, req).Some? && Resolve(cfg, db, req).value.0.DeleteFile?
    requires SameValue(Obj(created), Obj(Resolve(cfg, db, req).value.1))
    ensures OperationTraced(trace, req.taskId, Resolve(cfg, db, req).value.0)
  {
    hide OnlyText, GetText, SameValue, Unique, Resolve, FileTraced;
    ResolvedArguments(cfg, db, req);
    var c := Resolve(cfg, db, req).value.0.candidateId;
    OnlyEntry(created, "candidate_id", c);
    assert FileTraced(trace, c, db.candidates[c].taskId, db.candidates[c].snapshot);
  }

  lemma {:induction false} SameToken(sha: Sha, t: string, u: string)
    requires sha(Encode(t)) == sha(Encode(u))
    ensures t == u || Collision(sha, Encode(t), Encode(u))
  {
    hide Encode;
    if Encode(t) == Encode(u) {
      EncodeInjective(t, u);
    }
  }

  /** An effect under an approved row that was claimed with its token is traced. */
  lemma {:induction false} NewEffect(
      cfg: Config, db: Database, trace: seq<Event>, more: seq<Event>, id: string, row: Approval, i: int, j: int, m: int,
      grant: Grant, committed: bool, at: int)
    requires Trail(cfg, db, trace, id, row, i, j, m) && row.status == APPROVED
    requires more != [] && more[0] == Effect(id, grant, committed, at)
    requires row.tokenHash == Some(TokenHash(cfg, grant.token))
    requires row.requesterId == grant.userId && row.taskId == grant.taskId && row.toolName == grant.toolName
    requires Unique(Obj(grant.arguments))
    requires trace[m].Claimed? && trace[m].token == grant.token ==>
      row.argumentsHash == ArgumentsHash(cfg.sha, Obj(grant.arguments)) && at <= row.expiresAt
    requires cfg.controlled && SameValue(Obj(trace[i].arguments), Obj(grant.arguments))
             ==> OperationTraced(trace, grant.taskId, grant.operation)
    ensures EffectTraced(cfg, trace + more, |trace|)
  {
    hide Canonical, Unique, OnlyText, SameValue, OperationTraced, ClaimedToken, ArgumentsBytes, Encode, Collision;
    hide ArgumentsHash;
    var trace' := trace + more;
    assert trace'[i] == trace[i] && trace'[j] == trace[j] && trace'[m] == trace[m] && trace'[|trace|] == more[0];
    assert trace'[..|trace|] == trace;
    SameToken(cfg.sha, trace[m].token, grant.token);
    if trace[m].token == grant.token {
      SameHashSameArguments(cfg.sha, Obj(trace[i].arguments), Obj(grant.arguments));
    }
    assert EffectTrail(cfg, trace', |trace|, i, j, m);
  }

  // ---------- what can be approved can be run ----------

  /** The row says enough to undo the change. */
  predicate Restorable(row: Execution) {
    && row.targetRef.Some?
    && ((row.toolName == CLEANUP && row.backupRef.Some?)
        || (row.toolName == CONFIG_UPDATE && "config:" <= row.targetRef.value && row.backupRef.Some?)
        || (row.toolName == TERMINATE && "process:" <= row.targetRef.value)
        || (row.toolName == RESTART && "systemd:" <= row.targetRef.value))
  }

  lemma {:induction false} FirstTwoDiffer(fs: seq<Field>)
    requires Unique(Obj(fs))
    ensures |fs| > 1 ==> fs[0].key != fs[1].key
  {
  }

  lemma {:induction false} SingleEntry(fs: seq<Field>, key: string)
    requires Unique(Obj(fs)) && OnlyText(fs, key).Some?
    ensures fs == [Field(key, Str(OnlyText(fs, key).value))] && SameValue(Obj(fs), Obj(fs))
  {
    assert KeySet(fs) == {key};
    forall i | 0 <= i < |fs|
      ensures fs[i].key == key
    {
      assert fs[i] in fs && fs[i].key in KeySet(fs);
    }
    assert key in KeySet(fs);
    var f :| f in fs && f.key == key;
    FirstTwoDiffer(fs);
  }

  lemma {:induction false} TwoEntries(fs: seq<Field>, target: string, content: string)
    requires Unique(Obj(fs)) && KeySet(fs) == {"target_id", "content"}
    requires GetText(fs, "target_id") == Some(target) && GetText(fs, "content") == Some(content)
    ensures SameValue(Obj(fs), Obj([Field("target_id", Str(target)), Field("content", Str(content))]))
  {
    var gs := [Field("target_id", Str(target)), Field("content", Str(content))];
    assert |gs[0].key| == 9 && |gs[1].key| == 7;
    forall i | 0 <= i < |fs|
      ensures HasKey(gs, fs[i].key) && Get(fs, fs[i].key) == Some(fs[i].value)
    {
      assert fs[i] in fs && fs[i].key in KeySet(fs);
      GetAt(fs, i);
      assert gs[0].key == fs[i].key || gs[1].key == fs[i].key;
    }
    forall j | 0 <= j < |gs|
      ensures HasKey(fs, gs[j].key)
    {
      assert gs[j].key in KeySet(fs);
      var f :| f in fs && f.key == gs[j].key;
    }
  }

  /**
   What may be requested can be run as long as its rows stay: a request whose arguments were allowed resolves to an
   operation, of which a rollback also needs a source that says how to undo it, and the executor presents the token
   with arguments equal to those requested.
   */
  lemma {:induction false} AllowedIsRunnable(cfg: Config, db: Database, req: RunRequest)
    requires cfg.controlled && !req.fault && req.toolName in TOOLS && Unique(Obj(req.arguments))
    requires ArgumentsAllowed(cfg, db, req.taskId, req.toolName, req.arguments)
    ensures Resolve(cfg, db, req).Some?
            <==> (req.toolName == ROLLBACK ==> Restorable(db.executions[RollbackSource(db, req).value]))
    ensures Resolve(cfg, db, req).Some? ==> SameValue(Obj(req.arguments), Obj(Resolve(cfg, db, req).value.1))
  {
    hide GetText, SameValue, Unique, KeySet;
    if req.toolName == CONFIG_UPDATE {
      TwoEntries(req.arguments, GetText(req.arguments, "target_id").value, GetText(req.arguments, "content").value);
    } else {
      var key :=
        if req.toolName == ROLLBACK then "change_id" else if req.toolName == RESTART then "service" else "candidate_id";
      SingleEntry(req.arguments, key);
    }
  }
}
