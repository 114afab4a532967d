/**
 Signed one-time approval tokens: `payload.signature`, where the payload is JSON and the signature an HMAC over it.
 */
module Tokens {
  import opened Wrappers
  import opened Json
  import opened JsonProofs
  import opened JsonDicts
  import opened Utf8

  type Mac = (seq<byte>, seq<byte>) -> string

  /** A hexadecimal digest holds no dot. */
  ghost predicate DotFree(mac: Mac) {
    forall key, message :: '.' !in mac(key, message)
  }

  datatype Claims = Claims(
    userId: string, taskId: string, toolName: string, argumentsHash: string, riskLevel: string, expiresAt: int,
    nonce: string)

  function ArgumentsBytes(arguments: Value): seq<byte> {
    Encode(Canonical(arguments))
  }

  function ArgumentsHash(sha: Sha, arguments: Value): string {
    sha(ArgumentsBytes(arguments))
  }

  function ClaimsFields(c: Claims): seq<Field> {
    [Field("user_id", Str(c.userId)), Field("task_id", Str(c.taskId)), Field("tool_name", Str(c.toolName)),
     Field("arguments_hash", Str(c.argumentsHash)), Field("risk_level", Str(c.riskLevel)),
     Field("expires_at", Num(c.expiresAt)), Field("nonce", Str(c.nonce))]
  }

  const CLAIM_KEYS := {"user_id", "task_id", "tool_name", "arguments_hash", "risk_level", "expires_at", "nonce"}

  function Payload(c: Claims): string {
    Dumps(Obj(ClaimsFields(c)), true)
  }

  function TokenText(mac: Mac, secret: seq<byte>, c: Claims): string {
    Payload(c) + ("." + mac(secret, Encode(Payload(c))))
  }

  // ---------- reading a token ----------

  /** `token.rsplit(".", 1)` */
  function SplitLast(token: string): Option<(string, string)> {
    if token == "" then None
    else
      var n := |token| - 1;
      if token[n] == '.' then Some((token[..n], ""))
      else
        var (head, tail) :- SplitLast(token[..n]);
        Some((head, tail + [token[n]]))
  }

  /** `ApprovalClaims(**json.loads(payload))`; a claim of another type than `issue` writes is no value of this model. */
  function ReadClaims(payload: string): Result<Claims> {
    match Loads(payload)
    case None => Err("APPROVAL_INVALID")
    case Some(v) =>
      if !v.Obj? || KeySet(v.fields) != CLAIM_KEYS then Err("APPROVAL_INVALID")
      else
        match (
          Get(v.fields, "user_id"), Get(v.fields, "task_id"), Get(v.fields, "tool_name"),
          Get(v.fields, "arguments_hash"), Get(v.fields, "risk_level"), Get(v.fields, "expires_at"),
          Get(v.fields, "nonce"))
        case (Some(Str(user)), Some(Str(task)), Some(Str(tool)), Some(Str(hash)), Some(Str(risk)), Some(Num(expires)),
          Some(Str(nonce))) =>
          Ok(Claims(user, task, tool, hash, risk, expires, nonce))
        case _ => Err("APPROVAL_MISTYPED")
  }

  /** The signed claims of a token. */
  function Authenticate(mac: Mac, secret: seq<byte>, token: string): Result<Claims> {
    match SplitLast(token)
    case None => Err("ValueError")
    case Some((payload, signature)) =>
      if signature != mac(secret, Encode(payload)) then Err("APPROVAL_TAMPERED") else ReadClaims(payload)
  }

  /** The operation a token is presented for. */
  datatype Scope = Scope(userId: string, taskId: string, toolName: string, arguments: Value)

  predicate InScope(sha: Sha, c: Claims, scope: Scope) {
    c.userId == scope.userId && c.taskId == scope.taskId && c.toolName == scope.toolName
    && c.argumentsHash == ArgumentsHash(sha, scope.arguments)
  }

  /** What `consume` returns; `consumed` holds the nonces accepted before. */
  function Outcome(sha: Sha, mac: Mac, secret: seq<byte>, consumed: set<string>, token: string, scope: Scope,
      now: int): Result<Claims> {
    var claims :- Authenticate(mac, secret, token);
    if claims.nonce in consumed then Err("APPROVAL_REPLAYED")
    else if claims.expiresAt < now then Err("APPROVAL_EXPIRED")
    else if !InScope(sha, claims, scope) then Err("APPROVAL_SCOPE_MISMATCH")
    else Ok(claims)
  }

  function Accepted(r: Result<Claims>): set<string> {
    if r.Ok? then {r.value.nonce} else {}
  }

  function IssuedClaims(sha: Sha, scope: Scope, expiresAt: int, nonce: string): Claims {
    Claims(scope.userId, scope.taskId, scope.toolName, ArgumentsHash(sha, scope.arguments), "L3", expiresAt, nonce)
  }

  /**
   Whenever and for whatever it is presented, the token is accepted if and only if its nonce is new, it has not expired,
   and it is presented by the user, for the task and tool, and with arguments of the hash, for which it was issued.
   */
  ghost predicate OpensOnly(sha: Sha, mac: Mac, secret: seq<byte>, token: string, issued: Scope, expiresAt: int,
      nonce: string) {
    forall consumed: set<string>, scope: Scope, at: int :: Unique(scope.arguments) ==>
      (Outcome(sha, mac, secret, consumed, token, scope, at).Ok? <==>
       && nonce !in consumed && at <= expiresAt
       && scope.userId == issued.userId && scope.taskId == issued.taskId && scope.toolName == issued.toolName
       && ArgumentsHash(sha, scope.arguments) == ArgumentsHash(sha, issued.arguments))
  }

  class ApprovalTokenManager {
    const sha: Sha
    const mac: Mac
    const secret: seq<byte>
    var consumed: set<string>

    constructor (sha: Sha, mac: Mac, secret: seq<byte>)
      requires |secret| >= 32
      ensures consumed == {} && this.sha == sha && this.mac == mac && this.secret == secret
    {
      this.sha, this.mac, this.secret := sha, mac, secret;
      consumed := {};
    }

    /** `now` is the clock reading and `nonce` the random text that the call obtains. */
    method Issue(scope: Scope, ttl: int, now: int, nonce: string) returns (token: string)
      ensures token == TokenText(mac, secret, IssuedClaims(sha, scope, now + ttl, nonce))
      ensures DotFree(mac) && Unique(scope.arguments) ==> OpensOnly(sha, mac, secret, token, scope, now + ttl, nonce)
    {
      hide Outcome, OpensOnly, Payload, ArgumentsHash, Unique;
      var claims := Claims(scope.userId, scope.taskId, scope.toolName, ArgumentsHash(sha, scope.arguments), "L3",
        now + ttl, nonce);
      var payload := Payload(claims);
      var signature := mac(secret, Encode(payload));
      token := payload + ("." + signature);
      if DotFree(mac) && Unique(scope.arguments) {
        IssuedOpensOnly(sha, mac, secret, scope, now + ttl, nonce);
      }
    }

    method Consume(token: string, scope: Scope, now: int) returns (r: Result<Claims>)
      modifies this
      ensures r == Outcome(sha, mac, secret, old(consumed), token, scope, now)
      ensures consumed == old(consumed) + Accepted(r)
    {
      var authenticated := Authenticate(mac, secret, token);
      if authenticated.Err? {
        return authenticated;
      }
      var claims := authenticated.value;
      if claims.nonce in consumed {
        return Err("APPROVAL_REPLAYED");
      }
      if claims.expiresAt < now {
        return Err("APPROVAL_EXPIRED");
      }
      if !InScope(sha, claims, scope) {
        return Err("APPROVAL_SCOPE_MISMATCH");
      }
      consumed := consumed + {claims.nonce};
      r := Ok(claims);
    }
  }

  // ---------- the round trip ----------

  lemma {:induction false} SplitLastAt(head: string, tail: string)
    requires '.' !in tail
    ensures SplitLast(head + ("." + tail)) == Some((head, tail))
  {
    var s := head + ("." + tail);
    if tail == "" {
      assert s[..|s| - 1] == head;
    } else {
      var init := tail[..|tail| - 1];
      assert tail == init + [tail[|tail| - 1]];
      assert s[..|s| - 1] == head + ("." + init);
      SplitLastAt(head, init);
    }
  }

  lemma {:induction false} ClaimsFieldsDistinct(c: Claims)
    ensures DistinctKeys(ClaimsFields(c)) && AllScalars(ClaimsFields(c))
  {
    var fs := ClaimsFields(c);
    assert forall i, j :: 0 <= i < j < |fs| ==> |fs[i].key| != |fs[j].key| || fs[i].key[0] != fs[j].key[0];
  }

  lemma {:induction false} ClaimsFieldsKeys(c: Claims)
    ensures KeySet(ClaimsFields(c)) == CLAIM_KEYS
  {
    var fs := ClaimsFields(c);
    assert fs[0] in fs && fs[1] in fs && fs[2] in fs && fs[3] in fs && fs[4] in fs && fs[5] in fs && fs[6] in fs;
  }

  lemma {:induction false} GetClaim(c: Claims, sorted: seq<Field>, i: nat)
    requires i < 7 && DistinctKeys(sorted) && SameElements(sorted, ClaimsFields(c))
    ensures Get(sorted, ClaimsFields(c)[i].key) == Some(ClaimsFields(c)[i].value)
  {
    hide Get;
    ClaimsFieldsDistinct(c);
    GetAt(ClaimsFields(c), i);
    GetSame(sorted, ClaimsFields(c), ClaimsFields(c)[i].key);
  }

  lemma {:induction false} ReadPayload(c: Claims)
    ensures ReadClaims(Payload(c)) == Ok(c)
  {
    var fs := ClaimsFields(c);
    ClaimsFieldsDistinct(c);
    ClaimsFieldsKeys(c);
    Scalars(fs);
    LoadsDumps(Obj(fs), true);
    assert SortFields(fs) == fs;
    SortSorts(fs);
    var sorted := Sort(fs);
    SortedIsDistinct(sorted);
    KeySetSame(sorted, fs);
    ReadSorted(c, sorted);
  }

  lemma {:induction false} ReadSorted(c: Claims, sorted: seq<Field>)
    requires DistinctKeys(sorted) && SameElements(sorted, ClaimsFields(c)) && KeySet(sorted) == CLAIM_KEYS
    requires Loads(Payload(c)) == Some(Obj(sorted))
    ensures ReadClaims(Payload(c)) == Ok(c)
  {
    hide Get, Payload, Loads, DistinctKeys, SameElements, KeySet;
    GetClaim(c, sorted, 0);
    GetClaim(c, sorted, 1);
    GetClaim(c, sorted, 2);
    GetClaim(c, sorted, 3);
    GetClaim(c, sorted, 4);
    GetClaim(c, sorted, 5);
    GetClaim(c, sorted, 6);
  }

  lemma {:induction false} AuthenticateIssued(mac: Mac, secret: seq<byte>, c: Claims)
    requires DotFree(mac)
    ensures Authenticate(mac, secret, TokenText(mac, secret, c)) == Ok(c)
  {
    hide Payload, ReadClaims;
    assert '.' !in mac(secret, Encode(Payload(c)));
    SplitLastAt(Payload(c), mac(secret, Encode(Payload(c))));
    ReadPayload(c);
  }

  /**
   A token that was issued is accepted exactly once, not after it expires, and exactly for the user, task, tool and
   arguments hash it was issued for; equal arguments in any key order have that hash.
   */
  lemma {:induction false} IssuedTokenAccepted(
      sha: Sha, mac: Mac, secret: seq<byte>, consumed: set<string>, issued: Scope, expiresAt: int, nonce: string,
      scope: Scope, now: int)
    requires DotFree(mac)
    requires Unique(issued.arguments) && Unique(scope.arguments)
    ensures var claims := IssuedClaims(sha, issued, expiresAt, nonce);
            var r := Outcome(sha, mac, secret, consumed, TokenText(mac, secret, claims), scope, now);
            && (r.Ok? <==> nonce !in consumed && now <= expiresAt && InScope(sha, claims, scope))
            && (r.Ok? ==> r.value == claims)
    ensures issued.userId == scope.userId && issued.taskId == scope.taskId && issued.toolName == scope.toolName
            && SameValue(issued.arguments, scope.arguments)
            ==> InScope(sha, IssuedClaims(sha, issued, expiresAt, nonce), scope)
  {
    hide Authenticate, TokenText, SameValue;
    AuthenticateIssued(mac, secret, IssuedClaims(sha, issued, expiresAt, nonce));
    CanonicalIffSame(issued.arguments, scope.arguments, false);
  }

  lemma {:induction false} IssuedOpensOnly(sha: Sha, mac: Mac, secret: seq<byte>, issued: Scope, expiresAt: int,
      nonce: string)
    requires DotFree(mac) && Unique(issued.arguments)
    ensures OpensOnly(sha, mac, secret, TokenText(mac, secret, IssuedClaims(sha, issued, expiresAt, nonce)), issued,
      expiresAt, nonce)
  {
    hide Outcome, TokenText, ArgumentsHash;
    var token := TokenText(mac, secret, IssuedClaims(sha, issued, expiresAt, nonce));
    forall consumed: set<string>, scope: Scope, at: int | Unique(scope.arguments)
      ensures
        Outcome(sha, mac, secret, consumed, token, scope, at).Ok? <==>
          && nonce !in consumed && at <= expiresAt && InScope(sha, IssuedClaims(sha, issued, expiresAt, nonce), scope)
    {
      IssuedTokenAccepted(sha, mac, secret, consumed, issued, expiresAt, nonce, scope, at);
    }
  }

  /** Arguments with the same hash are the same arguments, or their canonical texts collide. */
  lemma {:induction false} SameHashSameArguments(sha: Sha, a: Value, b: Value)
    requires Unique(a) && Unique(b) && ArgumentsHash(sha, a) == ArgumentsHash(sha, b)
    ensures SameValue(a, b) || Collision(sha, ArgumentsBytes(a), ArgumentsBytes(b))
  {
    hide SameValue, Dumps, Encode;
    if ArgumentsBytes(a) == ArgumentsBytes(b) {
      EncodeInjective(Canonical(a), Canonical(b));
      CanonicalIffSame(a, b, false);
    }
  }

  /**
   A token accepted for some scope was issued for it: same user, task and tool, and the same arguments or a collision.
   */
  lemma {:induction false} AcceptedTokenBinds(
      sha: Sha, mac: Mac, secret: seq<byte>, consumed: set<string>, issued: Scope, expiresAt: int, nonce: string,
      scope: Scope, now: int)
    requires DotFree(mac) && Unique(issued.arguments) && Unique(scope.arguments)
    requires Outcome(sha, mac, secret, consumed, TokenText(mac, secret, IssuedClaims(sha, issued, expiresAt, nonce)),
      scope, now).Ok?
    ensures issued.userId == scope.userId && issued.taskId == scope.taskId && issued.toolName == scope.toolName
    ensures SameValue(issued.arguments, scope.arguments)
            || Collision(sha, ArgumentsBytes(issued.arguments), ArgumentsBytes(scope.arguments))
  {
    hide Authenticate, TokenText, SameValue, ArgumentsHash, ArgumentsBytes;
    IssuedTokenAccepted(sha, mac, secret, consumed, issued, expiresAt, nonce, scope, now);
    SameHashSameArguments(sha, issued.arguments, scope.arguments);
  }

  // ---------- single use over any sequence of calls ----------

  datatype Attempt = Attempt(token: string, scope: Scope, now: int)

  /** The results of a sequence of calls on one manager, from the nonces consumed before. */
  function Results(sha: Sha, mac: Mac, secret: seq<byte>, consumed: set<string>,
      attempts: seq<Attempt>): (rs: seq<Result<Claims>>)
    ensures |rs| == |attempts|
    decreases |attempts|
  {
    if attempts == [] then []
    else
      var r := Outcome(sha, mac, secret, consumed, attempts[0].token, attempts[0].scope, attempts[0].now);
      [r] + Results(sha, mac, secret, consumed + Accepted(r), attempts[1..])
  }

  lemma {:induction false} OutcomeFresh(sha: Sha, mac: Mac, secret: seq<byte>, consumed: set<string>, attempt: Attempt)
    ensures var r := Outcome(sha, mac, secret, consumed, attempt.token, attempt.scope, attempt.now);
            r.Ok? ==> r.value.nonce !in consumed
  {
  }

  /** No accepted nonce was consumed before, and none is accepted twice. */
  ghost predicate AcceptedOnce(rs: seq<Result<Claims>>, consumed: set<string>) {
    && (forall i :: 0 <= i < |rs| && rs[i].Ok? ==> rs[i].value.nonce !in consumed)
    && (forall i, j :: 0 <= i < j < |rs| && rs[i].Ok? && rs[j].Ok? ==> rs[i].value.nonce != rs[j].value.nonce)
  }

  lemma {:induction false} AcceptedOnceCons(r: Result<Claims>, tail: seq<Result<Claims>>, consumed: set<string>)
    requires r.Ok? ==> r.value.nonce !in consumed
    requires AcceptedOnce(tail, consumed + Accepted(r))
    ensures AcceptedOnce([r] + tail, consumed)
  {
    var rs := [r] + tail;
    assert forall i :: 1 <= i < |rs| ==> rs[i] == tail[i - 1];
  }

  /** Over any sequence of calls a nonce is accepted at most once. */
  lemma {:induction false} NonceAcceptedOnce(sha: Sha, mac: Mac, secret: seq<byte>, consumed: set<string>,
      attempts: seq<Attempt>)
    ensures AcceptedOnce(Results(sha, mac, secret, consumed, attempts), consumed)
    decreases |attempts|
  {
    hide Outcome;
    if attempts != [] {
      var r := Outcome(sha, mac, secret, consumed, attempts[0].token, attempts[0].scope, attempts[0].now);
      OutcomeFresh(sha, mac, secret, consumed, attempts[0]);
      NonceAcceptedOnce(sha, mac, secret, consumed + Accepted(r), attempts[1..]);
      AcceptedOnceCons(r, Results(sha, mac, secret, consumed + Accepted(r), attempts[1..]), consumed);
    }
  }
}
