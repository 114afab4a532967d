/** The local socket protocol between the API and the execution broker: one JSON object per line. */
module BrokerWire {
  import opened Wrappers
  import opened Json
  import opened JsonProofs
  import opened JsonDicts
  import opened Utf8

  const MAX_MESSAGE_BYTES := 8192
  const NEWLINE: byte := 10
  const SCHEMA_INVALID := "BROKER_SCHEMA_INVALID"
  const ALLOWED_SERVICE := "nginx"
  const ACTION_RESTART := "service_restart"
  const ACTION_ROLLBACK := "service_rollback"
  const ACTION_CLEANUP := "safe_log_cleanup"
  const ACTION_CLEANUP_ROLLBACK := "cleanup_rollback"

  // ---------- receiving one line ----------

  /** A stream socket: `incoming` is what the peer sends before it closes and that has not been read. */
  class Connection {
    var incoming: seq<byte>

    constructor (bytes: seq<byte>)
      ensures incoming == bytes
    {
      incoming := bytes;
    }

    /** Any non-empty chunk of at most `limit` bytes; the empty block only at the end of the stream. */
    method Recv(limit: nat) returns (block: seq<byte>)
      requires limit > 0
      modifies this
      ensures |block| <= limit && old(incoming) == block + incoming
      ensures block == [] ==> old(incoming) == []
    {
      if incoming == [] {
        block := [];
      } else {
        var k: nat :| 1 <= k <= limit && k <= |incoming|;
        block := incoming[..k];
        incoming := incoming[k..];
      }
    }
  }

  /** The index of the first newline, or the length when there is none. */
  function NewlineIndex(b: seq<byte>): (i: nat)
    ensures i <= |b| && NEWLINE !in b[..i]
    ensures i < |b| ==> b[i] == NEWLINE
  {
    if b == [] || b[0] == NEWLINE then 0
    else
      var i := 1 + NewlineIndex(b[1..]);
      assert b[..i] == [b[0]] + b[1..][..i - 1];
      i
  }

  function LineOf(stream: seq<byte>): Result<seq<byte>> {
    var i := NewlineIndex(stream);
    if i < |stream| && i <= MAX_MESSAGE_BYTES then Ok(stream[..i]) else Err("BROKER_MESSAGE_INVALID")
  }

  lemma {:induction false} NewlineIndexConcat(a: seq<byte>, b: seq<byte>)
    requires NEWLINE !in a
    ensures NewlineIndex(a + b) == |a| + NewlineIndex(b)
  {
    if a == [] {
      assert a + b == b;
    } else {
      assert NEWLINE !in a[1..];
      assert (a + b)[1..] == a[1..] + b;
      NewlineIndexConcat(a[1..], b);
    }
  }

  lemma {:induction false} NewlineIndexInPrefix(a: seq<byte>, b: seq<byte>)
    requires NEWLINE in a
    ensures NewlineIndex(a + b) == NewlineIndex(a) < |a|
  {
    if a[0] != NEWLINE {
      assert (a + b)[1..] == a[1..] + b;
      assert a == [a[0]] + a[1..];
      NewlineIndexInPrefix(a[1..], b);
    }
  }

  lemma {:induction false} LineFound(buffer: seq<byte>, stream: seq<byte>)
    requires NEWLINE in buffer && buffer <= stream && |buffer| <= MAX_MESSAGE_BYTES + 1
    ensures LineOf(stream) == Ok(buffer[..NewlineIndex(buffer)])
  {
    NewlineIndexInPrefix(buffer, stream[|buffer|..]);
    assert buffer + stream[|buffer|..] == stream;
    assert stream[..NewlineIndex(buffer)] == buffer[..NewlineIndex(buffer)];
  }

  lemma {:induction false} LineNotFound(buffer: seq<byte>, stream: seq<byte>)
    requires NEWLINE !in buffer && buffer <= stream && (|buffer| > MAX_MESSAGE_BYTES || buffer == stream)
    ensures LineOf(stream) == Err("BROKER_MESSAGE_INVALID")
  {
    NewlineIndexConcat(buffer, stream[|buffer|..]);
    assert buffer + stream[|buffer|..] == stream;
  }

  /**
   A line is received exactly when a newline is among the first 8193 bytes, and it is what stands before the first.
   */
  lemma {:induction false} LineOfExact(stream: seq<byte>)
    ensures LineOf(stream).Ok? <==> exists i :: 0 <= i < |stream| && i <= 8192 && stream[i] == 10
    ensures LineOf(stream).Ok? ==> LineOf(stream).value + [10] <= stream && 10 !in LineOf(stream).value
  {
    var i := NewlineIndex(stream);
    forall k | 0 <= k < i
      ensures stream[k] != NEWLINE
    {
      assert stream[..i][k] == stream[k];
    }
  }

  /** However the bytes are chunked, the outcome is that of the whole stream. */
  method ReceiveLine(connection: Connection) returns (r: Result<seq<byte>>)
    modifies connection
    ensures r == LineOf(old(connection.incoming))
  {
    hide LineOf;
    var buffer: seq<byte> := [];
    while |buffer| <= MAX_MESSAGE_BYTES
      invariant |buffer| <= MAX_MESSAGE_BYTES + 1
      invariant NEWLINE !in buffer
      invariant buffer + connection.incoming == old(connection.incoming)
      decreases MAX_MESSAGE_BYTES + 1 - |buffer|
    {
      var room := MAX_MESSAGE_BYTES + 1 - |buffer|;
      var block := connection.Recv(if room < 1024 then room else 1024);
      if block == [] {
        break;
      }
      buffer := buffer + block;
      if NEWLINE in block {
        LineFound(buffer, old(connection.incoming));
        return Ok(buffer[..NewlineIndex(buffer)]);
      }
    }
    LineNotFound(buffer, old(connection.incoming));
    r := Err("BROKER_MESSAGE_INVALID");
  }

  // ---------- requests ----------

  /** The calls of the unprivileged client. */
  datatype Call =
    | RestartService(service: string, userId: string, taskId: string, token: string)
    | RollbackService(service: string, userId: string, taskId: string, changeId: string, token: string)
    | CleanupFile(candidateId: string, userId: string, taskId: string, token: string)
    | RollbackCleanup(changeId: string, userId: string, taskId: string, token: string)

  function ServiceRequest(action: string, service: string, user: string, task: string, token: string): seq<Field> {
    [Field("version", Num(1)), Field("action", Str(action)), Field("service", Str(service)),
     Field("user_id", Str(user)), Field("task_id", Str(task)), Field("approval_token", Str(token))]
  }

  function CleanupRequest(action: string, user: string, task: string, token: string): seq<Field> {
    [Field("version", Num(1)), Field("action", Str(action)), Field("user_id", Str(user)),
     Field("task_id", Str(task)), Field("approval_token", Str(token))]
  }

  function BuildRequest(call: Call): Result<Value> {
    match call
    case RestartService(service, user, task, token) =>
      if service != ALLOWED_SERVICE then Err("BROKER_ACTION_NOT_ALLOWED")
      else Ok(Obj(ServiceRequest(ACTION_RESTART, service, user, task, token)))
    case RollbackService(service, user, task, changeId, token) =>
      if service != ALLOWED_SERVICE then Err("BROKER_ACTION_NOT_ALLOWED")
      else Ok(Obj(ServiceRequest(ACTION_ROLLBACK, service, user, task, token) + [Field("change_id", Str(changeId))]))
    case CleanupFile(candidateId, user, task, token) =>
      Ok(Obj(CleanupRequest(ACTION_CLEANUP, user, task, token) + [Field("candidate_id", Str(candidateId))]))
    case RollbackCleanup(changeId, user, task, token) =>
      Ok(Obj(CleanupRequest(ACTION_CLEANUP_ROLLBACK, user, task, token) + [Field("change_id", Str(changeId))]))
  }

  /** The bytes the client writes to the socket. */
  function SentBytes(call: Call): Result<seq<byte>> {
    var request :- BuildRequest(call);
    var payload := Encode(Dumps(request, true));
    if |payload| > MAX_MESSAGE_BYTES then Err("BROKER_REQUEST_TOO_LARGE") else Ok(payload + [NEWLINE])
  }

  const BASE_FIELDS := {"version", "action", "user_id", "task_id", "approval_token"}

  /** The fields beside the base fields that an action takes. */
  function ExtraFields(action: string): Option<set<string>> {
    if action == ACTION_RESTART then Some({"service"})
    else if action == ACTION_ROLLBACK then Some({"service", "change_id"})
    else if action == ACTION_CLEANUP then Some({"candidate_id"})
    else if action == ACTION_CLEANUP_ROLLBACK then Some({"change_id"})
    else None
  }

  /**
   The checks of `_parse_request`, in its order. Python holds `True == 1`; a list or dict as action is a TypeError.
   */
  function CheckRequest(v: Value): Result<Value> {
    if !v.Obj? then Err(SCHEMA_INVALID)
    else
      var keys := KeySet(v.fields);
      var action := Get(v.fields, "action");
      var version := Get(v.fields, "version");
      if !(BASE_FIELDS <= keys) || !(keys <= BASE_FIELDS + {"service", "change_id", "candidate_id"})
      then Err(SCHEMA_INVALID)
      else if version != Some(Num(1)) && version != Some(Bool(true)) then Err(SCHEMA_INVALID)
      else if action.Some? && (action.value.Arr? || action.value.Obj?) then Err("TypeError")
      else if (action == Some(Str(ACTION_RESTART)) || action == Some(Str(ACTION_ROLLBACK)))
           && Get(v.fields, "service") != Some(Str(ALLOWED_SERVICE)) then Err(SCHEMA_INVALID)
      else if action == Some(Str(ACTION_RESTART)) && keys - (BASE_FIELDS + {"service"}) != {} then Err(SCHEMA_INVALID)
      else if action == Some(Str(ACTION_ROLLBACK))
           && (keys - (BASE_FIELDS + {"service", "change_id"}) != {} || "change_id" !in keys) then Err(SCHEMA_INVALID)
      else if action == Some(Str(ACTION_CLEANUP))
           && (keys - (BASE_FIELDS + {"candidate_id"}) != {} || "candidate_id" !in keys) then Err(SCHEMA_INVALID)
      else if action == Some(Str(ACTION_CLEANUP_ROLLBACK))
           && (keys - (BASE_FIELDS + {"change_id"}) != {} || "change_id" !in keys) then Err(SCHEMA_INVALID)
      else if action != Some(Str(ACTION_RESTART)) && action != Some(Str(ACTION_ROLLBACK))
           && action != Some(Str(ACTION_CLEANUP)) && action != Some(Str(ACTION_CLEANUP_ROLLBACK))
      then Err(SCHEMA_INVALID)
      else Ok(v)
  }

  function ParseRequest(raw: seq<byte>): Result<Value> {
    match Decode(raw)
    case None => Err("UnicodeDecodeError")
    case Some(text) =>
      match Loads(text)
      case None => Err("JSONDecodeError")
      case Some(v) => CheckRequest(v)
  }

  /** What the cascade of checks amounts to: version 1 and exactly the fields of the action. */
  ghost predicate WellFormedFor(v: Value, action: string) {
    && v.Obj?
    && (Get(v.fields, "version") == Some(Num(1)) || Get(v.fields, "version") == Some(Bool(true)))
    && Get(v.fields, "action") == Some(Str(action))
    && ExtraFields(action).Some?
    && KeySet(v.fields) == BASE_FIELDS + ExtraFields(action).value
    && ("service" in ExtraFields(action).value ==> Get(v.fields, "service") == Some(Str(ALLOWED_SERVICE)))
  }

  ghost predicate WellFormedRequest(v: Value) {
    exists action :: WellFormedFor(v, action)
  }

  lemma {:induction false} SetsMeet(keys: set<string>, base: set<string>, extra: set<string>)
    ensures base <= keys && extra <= keys && keys - (base + extra) == {} <==> keys == base + extra
  {
    if keys - (base + extra) == {} {
      forall k | k in keys
        ensures k in base + extra
      {
        assert k !in keys - (base + extra);
      }
    }
  }

  lemma {:induction false} CheckAction(v: Value, action: string)
    requires v.Obj? && Get(v.fields, "action") == Some(Str(action)) && ExtraFields(action).Some?
    ensures CheckRequest(v).Ok? <==> WellFormedFor(v, action)
  {
    var keys, extra := KeySet(v.fields), ExtraFields(action).value;
    GetFinds(v.fields, "service");
    SetsMeet(keys, BASE_FIELDS, extra);
    if action == ACTION_RESTART {
      assert extra <= keys <==> "service" in keys;
    } else if action == ACTION_ROLLBACK {
      assert extra <= keys <==> "service" in keys && "change_id" in keys;
    } else if action == ACTION_CLEANUP {
      assert extra <= keys <==> "candidate_id" in keys;
    } else {
      assert extra <= keys <==> "change_id" in keys;
    }
  }

  lemma {:induction false} CheckRequestExact(v: Value)
    ensures CheckRequest(v).Ok? <==> WellFormedRequest(v)
    ensures CheckRequest(v).Ok? ==> CheckRequest(v).value == v
  {
    if v.Obj? && Get(v.fields, "action").Some? && Get(v.fields, "action").value.Str? {
      var action := Get(v.fields, "action").value.s;
      if ExtraFields(action).Some? {
        CheckAction(v, action);
      }
    }
  }

  // ---------- the round trip of a request ----------

  predicate Printable(s: string) {
    forall i :: 0 <= i < |s| ==> ' ' <= s[i] <= '~'
  }

  lemma {:induction false} EscapeCharPrintable(c: char)
    ensures Printable(EscapeChar(c, true))
  {
  }

  lemma {:induction false} EscapePrintable(s: string)
    ensures Printable(Escape(s, true))
  {
    if s != "" {
      EscapePrintable(s[1..]);
      EscapeCharPrintable(s[0]);
      hide EscapeChar;
    }
  }

  lemma {:induction false} PrintPrintable(v: Value)
    ensures Printable(Print(v, true))
    decreases v, 1
  {
    match v {
      case Num(n) => assert Print(v, true)[0] == '-' || Text.IsDigit(Print(v, true)[0]);
      case Str(s) => EscapePrintable(s);
      case Arr(items) =>
        if items != [] {
          PrintItemsPrintable(items);
        }
      case Obj(fields) =>
        if fields != [] {
          PrintFieldsPrintable(fields);
        }
      case _ =>
    }
  }

  lemma {:induction false} PrintItemsPrintable(items: seq<Value>)
    requires items != []
    ensures Printable(PrintItems(items, true))
    decreases items, 0
  {
    PrintPrintable(items[0]);
    if |items| > 1 {
      PrintItemsPrintable(items[1..]);
    }
  }

  lemma {:induction false} PrintFieldsPrintable(fs: seq<Field>)
    requires fs != []
    ensures Printable(PrintFields(fs, true))
    decreases fs, 0
  {
    EscapePrintable(fs[0].key);
    PrintPrintable(fs[0].value);
    if |fs| > 1 {
      PrintFieldsPrintable(fs[1..]);
    }
  }

  function ActionOf(call: Call): string {
    match call
    case RestartService(_, _, _, _) => ACTION_RESTART
    case RollbackService(_, _, _, _, _) => ACTION_ROLLBACK
    case CleanupFile(_, _, _, _) => ACTION_CLEANUP
    case RollbackCleanup(_, _, _, _) => ACTION_CLEANUP_ROLLBACK
  }

  lemma {:induction false} ServiceRequestKeys(action: string, service: string, user: string, task: string,
      token: string)
    ensures var fs := ServiceRequest(action, service, user, task, token);
            DistinctKeys(fs) && KeySet(fs) == BASE_FIELDS + {"service"} && AllScalars(fs)
  {
    var fs := ServiceRequest(action, service, user, task, token);
    assert forall i, j :: 0 <= i < j < |fs| ==> |fs[i].key| != |fs[j].key| || fs[i].key[0] != fs[j].key[0];
    ServiceRequestKeySet(action, service, user, task, token);
    hide KeySet;
  }

  lemma {:induction false} ServiceRequestKeySet(action: string, service: string, user: string, task: string,
      token: string)
    ensures KeySet(ServiceRequest(action, service, user, task, token)) == BASE_FIELDS + {"service"}
  {
    var fs := ServiceRequest(action, service, user, task, token);
    assert fs[0] in fs && fs[1] in fs && fs[2] in fs && fs[3] in fs && fs[4] in fs && fs[5] in fs;
  }

  lemma {:induction false} CleanupRequestKeys(action: string, user: string, task: string, token: string)
    ensures var fs := CleanupRequest(action, user, task, token);
            DistinctKeys(fs) && KeySet(fs) == BASE_FIELDS && AllScalars(fs)
  {
    var fs := CleanupRequest(action, user, task, token);
    assert forall i, j :: 0 <= i < j < |fs| ==> |fs[i].key| != |fs[j].key| || fs[i].key[0] != fs[j].key[0];
    assert fs[0] in fs && fs[1] in fs && fs[2] in fs && fs[3] in fs && fs[4] in fs;
  }

  lemma {:induction false} AppendKey(fs: seq<Field>, f: Field)
    requires DistinctKeys(fs) && f.key !in KeySet(fs) && AllScalars(fs) && f.value.Str?
    ensures DistinctKeys(fs + [f]) && KeySet(fs + [f]) == KeySet(fs) + {f.key} && AllScalars(fs + [f])
  {
    forall i | 0 <= i < |fs|
      ensures fs[i].key != f.key
    {
      assert fs[i] in fs;
    }
    forall k
      ensures k in KeySet(fs + [f]) <==> k in KeySet(fs) + {f.key}
    {
      if k in KeySet(fs) {
        var x :| x in fs && x.key == k;
        assert x in fs + [f];
      }
      assert f in fs + [f];
    }
  }

  lemma {:induction false} FieldsAreWellFormed(fs: seq<Field>, action: string, extra: set<string>)
    requires DistinctKeys(fs) && |fs| >= 3
    requires fs[0] == Field("version", Num(1)) && fs[1] == Field("action", Str(action))
    requires ExtraFields(action) == Some(extra) && KeySet(fs) == BASE_FIELDS + extra
    requires "service" in extra ==> fs[2] == Field("service", Str(ALLOWED_SERVICE))
    ensures WellFormedFor(Obj(fs), action)
  {
    GetAt(fs, 0);
    GetAt(fs, 1);
    GetAt(fs, 2);
  }

  lemma {:induction false} RestartWellFormed(service: string, user: string, task: string, token: string)
    requires service == ALLOWED_SERVICE
    ensures Sendable(ServiceRequest(ACTION_RESTART, service, user, task, token), ACTION_RESTART)
  {
    var fs := ServiceRequest(ACTION_RESTART, service, user, task, token);
    ServiceRequestKeys(ACTION_RESTART, service, user, task, token);
    FieldsAreWellFormed(fs, ACTION_RESTART, {"service"});
    Scalars(fs);
  }

  lemma {:induction false} UnionAppend(keys: set<string>, base: set<string>, a: string, b: string)
    requires keys == base + {a} + {b}
    ensures keys == base + {a, b}
  {
  }

  lemma {:induction false} RollbackWellFormed(action: string, service: string, user: string, task: string,
      token: string, f: Field)
    requires service == ALLOWED_SERVICE
    requires ExtraFields(action) == Some({"service", f.key}) && f.key !in BASE_FIELDS + {"service"} && f.value.Str?
    ensures Sendable(ServiceRequest(action, service, user, task, token) + [f], action)
  {
    hide DistinctKeys, KeySet, AllScalars, WellFormedFor;
    var fs := ServiceRequest(action, service, user, task, token);
    ServiceRequestKeys(action, service, user, task, token);
    AppendKey(fs, f);
    UnionAppend(KeySet(fs + [f]), BASE_FIELDS, "service", f.key);
    FieldsAreWellFormed(fs + [f], action, {"service", f.key});
    Scalars(fs + [f]);
  }

  lemma {:induction false} CleanupWellFormed(action: string, user: string, task: string, token: string, f: Field)
    requires ExtraFields(action) == Some({f.key}) && f.key != "service" && f.key !in BASE_FIELDS && f.value.Str?
    ensures Sendable(CleanupRequest(action, user, task, token) + [f], action)
  {
    var fs := CleanupRequest(action, user, task, token);
    CleanupRequestKeys(action, user, task, token);
    AppendKey(fs, f);
    FieldsAreWellFormed(fs + [f], action, {f.key});
    Scalars(fs + [f]);
  }

  ghost predicate Sendable(fs: seq<Field>, action: string) {
    && Unique(Obj(fs))
    && WellFormedFor(Obj(fs), action)
    && forall i :: 0 <= i < |fs| ==> SortKeys(fs[i].value) == fs[i].value
  }

  /** Every request the client builds is one the broker's checks accept. */
  lemma {:induction false} BuiltIsSendable(call: Call)
    requires BuildRequest(call).Ok?
    ensures BuildRequest(call).value.Obj? && Sendable(BuildRequest(call).value.fields, ActionOf(call))
  {
    match call {
      case RestartService(service, user, task, token) => RestartWellFormed(service, user, task, token);
      case RollbackService(service, user, task, changeId, token) =>
        RollbackWellFormed(ACTION_ROLLBACK, service, user, task, token, Field("change_id", Str(changeId)));
      case CleanupFile(candidateId, user, task, token) =>
        CleanupWellFormed(ACTION_CLEANUP, user, task, token, Field("candidate_id", Str(candidateId)));
      case RollbackCleanup(changeId, user, task, token) =>
        CleanupWellFormed(ACTION_CLEANUP_ROLLBACK, user, task, token, Field("change_id", Str(changeId)));
    }
  }

  /** Reordering the entries does not change what the checks see. */
  lemma {:induction false} WellFormedSorted(fs: seq<Field>, action: string)
    requires DistinctKeys(fs) && WellFormedFor(Obj(fs), action)
    requires forall i :: 0 <= i < |fs| ==> SortKeys(fs[i].value) == fs[i].value
    ensures WellFormedFor(SortKeys(Obj(fs)), action)
  {
    assert SortFields(fs) == fs;
    SortSorts(fs);
    SortedIsDistinct(Sort(fs));
    GetSame(Sort(fs), fs, "version");
    GetSame(Sort(fs), fs, "action");
    GetSame(Sort(fs), fs, "service");
    KeySetSame(Sort(fs), fs);
    hide KeySet, Sorted, DistinctKeys, SameElements, Get, Unique;
  }

  lemma {:induction false} SentLine(call: Call, more: seq<byte>)
    requires SentBytes(call).Ok?
    ensures LineOf(SentBytes(call).value + more) == Ok(Encode(Dumps(BuildRequest(call).value, true)))
  {
    var text := Dumps(BuildRequest(call).value, true);
    var payload := Encode(text);
    PrintPrintable(SortKeys(BuildRequest(call).value));
    EncodeAscii(text);
    assert NEWLINE !in payload;
    NewlineIndexConcat(payload, [NEWLINE] + more);
    var stream := SentBytes(call).value + more;
    assert stream == payload + ([NEWLINE] + more);
    assert stream[..|payload|] == payload;
  }

  /**
   Whatever follows it on the stream, a request the client sends is received as one line and parsed to the dict that
   was built, up to the order of its keys.
   */
  lemma {:induction false} RequestRoundTrip(call: Call, more: seq<byte>)
    requires SentBytes(call).Ok?
    ensures LineOf(SentBytes(call).value + more).Ok?
    ensures var r := ParseRequest(LineOf(SentBytes(call).value + more).value);
            r.Ok? && r.value == SortKeys(BuildRequest(call).value) && SameValue(BuildRequest(call).value, r.value)
  {
    var request := BuildRequest(call).value;
    SentLine(call, more);
    DecodeEncoded(Dumps(request, true));
    BuiltIsSendable(call);
    LoadsDumps(request, true);
    WellFormedSorted(request.fields, ActionOf(call));
    CheckRequestExact(SortKeys(request));
    SortKeysTwice(request);
    SortKeysUnique(request);
    SameIfSorted(request, SortKeys(request));
  }

  /** The client refuses to send exactly the requests whose line the broker would not receive. */
  lemma {:induction false} SentIfReceivable(call: Call)
    requires BuildRequest(call).Ok?
    ensures var payload := Encode(Dumps(BuildRequest(call).value, true));
            && (SentBytes(call).Ok? <==> LineOf(payload + [10]).Ok?)
            && (SentBytes(call).Ok? ==> SentBytes(call).value == payload + [10])
  {
    hide Dumps, LineOf, BuildRequest;
    var payload := Encode(Dumps(BuildRequest(call).value, true));
    PayloadHasNoNewline(BuildRequest(call).value);
    NewlineIndexConcat(payload, [10]);
    LineOfExact(payload + [10]);
    assert forall i :: 0 <= i < |payload + [10]| ==> ((payload + [10])[i] == 10 <==> i == |payload|);
  }

  lemma {:induction false} PayloadHasNoNewline(v: Value)
    ensures 10 !in Encode(Dumps(v, true))
  {
    PrintPrintable(SortKeys(v));
    EncodeAscii(Dumps(v, true));
  }

  /** What one connection of the broker does before it looks at the database. */
  method ReadRequest(connection: Connection) returns (r: Result<Value>)
    modifies connection
    ensures LineOf(old(connection.incoming)).Ok? ==> r == ParseRequest(LineOf(old(connection.incoming)).value)
    ensures LineOf(old(connection.incoming)).Err? ==> r.Err?
    ensures r.Ok? ==> WellFormedRequest(r.value)
  {
    var line := ReceiveLine(connection);
    match line {
      case Err(error) => r := Err(error);
      case Ok(raw) =>
        r := ParseRequest(raw);
        if r.Ok? {
          CheckRequestExact(Loads(Decode(raw).value).value);
        }
    }
  }

  /** Client and broker together: for every chunking the broker obtains the request that was built. */
  method ServeCall(call: Call, connection: Connection) returns (r: Result<Value>)
    requires SentBytes(call).Ok? && SentBytes(call).value <= connection.incoming
    modifies connection
    ensures r.Ok? && r.value == SortKeys(BuildRequest(call).value) && SameValue(BuildRequest(call).value, r.value)
  {
    hide BuildRequest, SortKeys, SameValue, ParseRequest, LineOf, SentBytes;
    var bytes := SentBytes(call).value;
    RequestRoundTrip(call, connection.incoming[|bytes|..]);
    assert bytes + connection.incoming[|bytes|..] == connection.incoming;
    r := ReadRequest(connection);
  }
}
