/** From the call of a client, over the socket, to the first step of a connection in the protocol. */
module BrokerConnection {
  import opened Wrappers
  import opened Json
  import opened JsonProofs
  import opened JsonDicts
  import opened Utf8
  import opened BrokerWire
  import opened ApprovalProtocol
  import opened ApprovalService

  /** What the call names besides its action, all of which the broker wants to be there. */
  function Names(call: Call): seq<string> {
    match call
    case RestartService(_, user, task, token) => [user, task, token]
    case RollbackService(_, user, task, change, token) => [user, task, token, change]
    case CleanupFile(candidate, user, task, token) => [user, task, token, candidate]
    case RollbackCleanup(change, user, task, token) => [user, task, token, change]
  }

  lemma {:induction false} GetSent(fs: seq<Field>, action: string, i: nat)
    requires Sendable(fs, action) && i < |fs|
    ensures SortKeys(Obj(fs)).Obj? && Get(SortKeys(Obj(fs)).fields, fs[i].key) == Some(fs[i].value)
  {
    hide WellFormedFor, Get;
    assert SortFields(fs) == fs;
    SortSorts(fs);
    SortedIsDistinct(Sort(fs));
    GetSame(Sort(fs), fs, fs[i].key);
    GetAt(fs, i);
  }

  /** The texts of the request that was built can be looked up in the one that was parsed. */
  lemma {:induction false} GetAllSent(fs: seq<Field>, action: string)
    requires Sendable(fs, action)
    ensures SortKeys(Obj(fs)).Obj?
    ensures forall i :: 0 <= i < |fs| && fs[i].value.Str? ==>
      GetText(SortKeys(Obj(fs)).fields, fs[i].key) == Some(fs[i].value.s)
  {
    hide Sendable, SortKeys, Get;
    forall i | 0 <= i < |fs| && fs[i].value.Str?
      ensures SortKeys(Obj(fs)).Obj? && GetText(SortKeys(Obj(fs)).fields, fs[i].key) == Some(fs[i].value.s)
    {
      GetSent(fs, action, i);
    }
    ObjStays(fs);
  }

  lemma {:induction false} ObjStays(fs: seq<Field>)
    ensures SortKeys(Obj(fs)).Obj?
  {
  }

  lemma {:induction false} ActionsDiffer()
    ensures ACTION_RESTART != ACTION_ROLLBACK && ACTION_RESTART != ACTION_CLEANUP
    ensures ACTION_RESTART != ACTION_CLEANUP_ROLLBACK
    ensures ACTION_ROLLBACK != ACTION_CLEANUP && ACTION_ROLLBACK != ACTION_CLEANUP_ROLLBACK
    ensures ACTION_CLEANUP != ACTION_CLEANUP_ROLLBACK
  {
    assert |ACTION_RESTART| == 15 && |ACTION_CLEANUP| == 16;
    assert ACTION_ROLLBACK[1] == 'e' && ACTION_CLEANUP[1] == 'a';
    assert ACTION_CLEANUP_ROLLBACK[0] == 'c' && ACTION_ROLLBACK[0] == 's';
  }

  /** The entries from which the broker reads the call. */
  predicate Carries(fs: seq<Field>, call: Call) {
    && GetText(fs, "action") == Some(ActionOf(call)) && GetText(fs, "user_id") == Some(call.userId)
    && GetText(fs, "task_id") == Some(call.taskId) && GetText(fs, "approval_token") == Some(call.token)
    && match call
       case RestartService(service, _, _, _) => GetText(fs, "service") == Some(service)
       case RollbackService(service, _, _, change, _) =>
         GetText(fs, "service") == Some(service) && GetText(fs, "change_id") == Some(change)
       case CleanupFile(candidate, _, _, _) => GetText(fs, "candidate_id") == Some(candidate)
       case RollbackCleanup(change, _, _, _) => GetText(fs, "change_id") == Some(change)
  }

  lemma {:induction false} SentCarries(call: Call)
    requires BuildRequest(call).Ok?
    ensures SortKeys(BuildRequest(call).value).Obj? && Carries(SortKeys(BuildRequest(call).value).fields, call)
  {
    hide SortKeys, Sendable, GetText;
    BuiltIsSendable(call);
    var fs := BuildRequest(call).value.fields;
    GetAllSent(fs, ActionOf(call));
    assert fs[1] == Field("action", Str(ActionOf(call)));
    match call {
      case RestartService(service, user, task, token) =>
        assert fs[2].key == "service" && fs[3].key == "user_id" && fs[4].key == "task_id";
        assert fs[5].key == "approval_token";
      case RollbackService(service, user, task, changeId, token) =>
        assert fs[2].key == "service" && fs[3].key == "user_id" && fs[4].key == "task_id";
        assert fs[5].key == "approval_token";
        assert fs[6].key == "change_id";
      case CleanupFile(candidateId, user, task, token) =>
        assert fs[2].key == "user_id" && fs[3].key == "task_id" && fs[4].key == "approval_token";
        assert fs[5].key == "candidate_id";
      case RollbackCleanup(changeId, user, task, token) =>
        assert fs[2].key == "user_id" && fs[3].key == "task_id" && fs[4].key == "approval_token";
        assert fs[5].key == "change_id";
    }
  }

  lemma {:induction false} CarriedIsRead(fs: seq<Field>, call: Call)
    requires Carries(fs, call) && BuildRequest(call).Ok?
    ensures ReadCall(fs) == if "" in Names(call) then Err(SCHEMA_INVALID) else Ok(call)
  {
    hide Get;
    ActionsDiffer();
  }

  /**
   A call is read from exactly the requests that carry it, with everything it names, and nginx where a service is named.
   */
  lemma {:induction false} ReadExactly(fs: seq<Field>, call: Call)
    ensures ReadCall(fs) == Ok(call) <==>
            && Carries(fs, call) && "" !in Names(call)
            && (call.RestartService? || call.RollbackService? ==> call.service == "nginx")
  {
    hide Get;
    ActionsDiffer();
  }

  /** Reading the parsed request gives back the call, if and only if everything it names is non-empty. */
  lemma {:induction false} CallIsReadBack(call: Call)
    requires BuildRequest(call).Ok?
    ensures SortKeys(BuildRequest(call).value).Obj?
    ensures ReadCall(SortKeys(BuildRequest(call).value).fields)
            == if "" in Names(call) then Err(SCHEMA_INVALID) else Ok(call)
  {
    hide SortKeys, Carries, ReadCall, BuildRequest, Names;
    SentCarries(call);
    CarriedIsRead(SortKeys(BuildRequest(call).value).fields, call);
  }

  /**
   Client, socket and broker: for every chunking of the stream the connection gets to the helper arguments of the very
   call that was made, or is denied when the call names nothing or the tables hold nothing for it.
   */
  method Receive(service: Service, connection: nat, wire: Connection, ghost call: Call)
    requires service.Valid() && connection !in service.connections
    requires SentBytes(call).Ok? && SentBytes(call).value <= wire.incoming
    modifies service`connections, wire
    ensures connection in service.connections
    ensures
      var op := PrepareHelper(service.Rows(), call);
      service.connections == old(service.connections)[connection :=
        if "" in Names(call) || op.None? then Denied else Prepared(call, op.value)]
  {
    hide BuildRequest, SortKeys, SameValue, SentBytes, ReadCall, PrepareHelper;
    SentIsBuilt(call);
    CallIsReadBack(call);
    var r := ReadFrom(wire, call);
    service.ReadHelperArguments(connection, r);
  }

  method ReadFrom(wire: Connection, ghost call: Call) returns (fields: seq<Field>)
    requires SentBytes(call).Ok? && SentBytes(call).value <= wire.incoming && BuildRequest(call).Ok?
    modifies wire
    ensures SortKeys(BuildRequest(call).value) == Obj(fields)
  {
    hide BuildRequest, SortKeys, SameValue, SentBytes, ParseRequest, LineOf;
    ghost var bytes := SentBytes(call).value;
    RequestRoundTrip(call, wire.incoming[|bytes|..]);
    assert bytes + wire.incoming[|bytes|..] == wire.incoming;
    CallIsReadBack(call);
    var r := ReadRequest(wire);
    fields := r.value.fields;
  }

  lemma {:induction false} SentIsBuilt(call: Call)
    requires SentBytes(call).Ok?
    ensures BuildRequest(call).Ok?
  {
    hide BuildRequest;
  }
}
