/** The audit log: a writer that chains events by hash, and the verifier that walks the stored rows again. */
module Audit {
  import opened Wrappers
  import opened Json
  import opened JsonProofs
  import opened Utf8
  import opened Timestamps
  import opened Untrusted
  import Text

  type Time = t: Instant | ValidInstant(t) witness Instant(1, 1, 1, 0, 0, 0, 0)

  /** SHA-256 as an unknown function from bytes to 64 characters. */
  ghost predicate DigestShaped(sha: Sha) {
    forall m :: |sha(m)| == 64
  }

  datatype AuditEvent = AuditEvent(
    id: string, eventType: string, actorId: Option<string>, taskId: Option<string>, payloadJson: string,
    previousHash: string, currentHash: string, createdAt: Time)

  datatype Head = Head(currentHash: string, version: nat)

  /** The two tables: event rows in the order they were inserted, and the head row. */
  datatype Log = Log(events: seq<AuditEvent>, head: Option<Head>)

  /** One call of `write_audit`, with the clock reading and the new identifier it obtains. */
  datatype Entry = Entry(eventType: string, payload: Value, actorId: Option<string>, taskId: Option<string>, id: string,
      at: Time)

  datatype Verdict = Accepted | Broken(id: string)

  // ---------- redaction of payloads ----------

  const TEXT_BYTES := 32768

  function Redact(ops: TextOps, v: Value): Value
    decreases v, 1
  {
    match v
    case Obj(fields) => Obj(RedactFields(ops, fields))
    case Arr(items) => Arr(RedactItems(ops, items))
    case Str(s) => Str(SanitizeText(ops, s, TEXT_BYTES))
    case _ => v
  }

  function RedactFields(ops: TextOps, fs: seq<Field>): (r: seq<Field>)
    ensures |r| == |fs|
    ensures forall i :: 0 <= i < |fs| ==> r[i] == RedactField(ops, fs[i])
    decreases fs, 0
  {
    if fs == [] then [] else [RedactField(ops, fs[0])] + RedactFields(ops, fs[1..])
  }

  function RedactField(ops: TextOps, f: Field): Field
    decreases f, 1
  {
    Field(f.key, if Sensitive(ops, f.key) then Str(REDACTED) else Redact(ops, f.value))
  }

  function RedactItems(ops: TextOps, items: seq<Value>): (r: seq<Value>)
    ensures |r| == |items| && forall i :: 0 <= i < |items| ==> r[i] == Redact(ops, items[i])
    decreases items, 0
  {
    if items == [] then [] else [Redact(ops, items[0])] + RedactItems(ops, items[1..])
  }

  /** No dict at any depth maps a key that names a secret to anything but the redaction. */
  ghost predicate Hidden(ops: TextOps, v: Value) {
    match v
    case Obj(fields) =>
      forall i :: 0 <= i < |fields| ==>
        (Sensitive(ops, fields[i].key) ==> fields[i].value == Str(REDACTED)) && Hidden(ops, fields[i].value)
    case Arr(items) => forall i :: 0 <= i < |items| ==> Hidden(ops, items[i])
    case _ => true
  }

  lemma {:induction false} RedactHides(ops: TextOps, v: Value)
    ensures Hidden(ops, Redact(ops, v))
    decreases v
  {
    match v {
      case Obj(fields) =>
        forall i | 0 <= i < |fields|
          ensures Hidden(ops, RedactFields(ops, fields)[i].value)
        {
          RedactHides(ops, fields[i].value);
        }
      case Arr(items) =>
        forall i | 0 <= i < |items|
          ensures Hidden(ops, RedactItems(ops, items)[i])
        {
          RedactHides(ops, items[i]);
        }
      case _ =>
    }
  }

  // ---------- the hashed material ----------

  function Optional(s: Option<string>): Value {
    match s
    case None => Null
    case Some(t) => Str(t)
  }

  function MaterialFields(e: AuditEvent, previous: string): seq<Field> {
    [Field("actor_id", Optional(e.actorId)), Field("created_at", Str(IsoText(e.createdAt))),
     Field("event_id", Str(e.id)), Field("event_type", Str(e.eventType)), Field("payload_json", Str(e.payloadJson)),
     Field("previous_hash", Str(previous)), Field("task_id", Optional(e.taskId))]
  }

  function Material(e: AuditEvent, previous: string): seq<byte> {
    Encode(Canonical(Obj(MaterialFields(e, previous))))
  }

  /** The event holds the same data, apart from its two hash columns. */
  ghost predicate SameContent(e: AuditEvent, f: AuditEvent) {
    && e.id == f.id && e.eventType == f.eventType && e.actorId == f.actorId && e.taskId == f.taskId
    && e.payloadJson == f.payloadJson && e.createdAt == f.createdAt
  }

  lemma {:induction false} MaterialUnique(e: AuditEvent, previous: string)
    ensures Unique(Obj(MaterialFields(e, previous)))
  {
    var fs := MaterialFields(e, previous);
    assert forall i, j :: 0 <= i < j < |fs| ==> |fs[i].key| != |fs[j].key| || fs[i].key[0] != fs[j].key[0];
    assert forall i :: 0 <= i < |fs| ==> !fs[i].value.Arr? && !fs[i].value.Obj?;
  }

  /** The hashed bytes determine everything the event says and the hash before it. */
  lemma {:induction false} MaterialInjective(e: AuditEvent, p: string, f: AuditEvent, q: string)
    requires Material(e, p) == Material(f, q)
    ensures SameContent(e, f) && p == q
  {
    var es, fs := MaterialFields(e, p), MaterialFields(f, q);
    EncodeInjective(Canonical(Obj(es)), Canonical(Obj(fs)));
    MaterialUnique(e, p);
    MaterialUnique(f, q);
    CanonicalIffSame(Obj(es), Obj(fs), false);
    MaterialFieldsInjective(e, p, f, q);
  }

  lemma {:induction false} MaterialFieldAgrees(e: AuditEvent, p: string, f: AuditEvent, q: string, i: nat)
    requires i < 7 && SameValue(Obj(MaterialFields(e, p)), Obj(MaterialFields(f, q)))
    ensures MaterialFields(e, p)[i].value == MaterialFields(f, q)[i].value
  {
    ValuesAgree(MaterialFields(e, p), MaterialFields(f, q), i);
  }

  lemma {:induction false} MaterialFieldsInjective(e: AuditEvent, p: string, f: AuditEvent, q: string)
    requires SameValue(Obj(MaterialFields(e, p)), Obj(MaterialFields(f, q)))
    ensures SameContent(e, f) && p == q
  {
    hide SameValue, IsoText;
    MaterialFieldAgrees(e, p, f, q, 0);
    MaterialFieldAgrees(e, p, f, q, 1);
    MaterialFieldAgrees(e, p, f, q, 2);
    MaterialFieldAgrees(e, p, f, q, 3);
    MaterialFieldAgrees(e, p, f, q, 4);
    MaterialFieldAgrees(e, p, f, q, 5);
    MaterialFieldAgrees(e, p, f, q, 6);
    IsoTextInjective(e.createdAt, f.createdAt);
  }

  // ---------- the verifier ----------

  /** ORDER BY created_at, id */
  predicate Precedes(a: AuditEvent, b: AuditEvent) {
    Earlier(a.createdAt, b.createdAt) || (a.createdAt == b.createdAt && Text.Less(a.id, b.id))
  }

  function InsertEvent(e: AuditEvent, events: seq<AuditEvent>): seq<AuditEvent> {
    if events == [] || !Precedes(events[0], e) then [e] + events else [events[0]] + InsertEvent(e, events[1..])
  }

  function OrderBy(events: seq<AuditEvent>): seq<AuditEvent> {
    if events == [] then [] else InsertEvent(events[0], OrderBy(events[1..]))
  }

  /** Event `i` continues the chain that starts from `start`. */
  predicate Linked(sha: Sha, events: seq<AuditEvent>, start: string, i: nat)
    requires i < |events|
  {
    var previous := if i == 0 then start else events[i - 1].currentHash;
    events[i].previousHash == previous && events[i].currentHash == sha(Material(events[i], previous))
  }

  ghost predicate Chained(sha: Sha, events: seq<AuditEvent>) {
    forall i :: 0 <= i < |events| ==> Linked(sha, events, "", i)
  }

  function CheckChain(sha: Sha, events: seq<AuditEvent>, previous: string): Verdict {
    if events == [] then Accepted
    else if !Linked(sha, events, previous, 0) then Broken(events[0].id)
    else CheckChain(sha, events[1..], events[0].currentHash)
  }

  /** The verdict names the first event that is not linked; all events are linked exactly when the log is accepted. */
  lemma {:induction false} CheckChainExact(sha: Sha, events: seq<AuditEvent>, start: string, k: nat)
    requires k <= |events| && forall i :: 0 <= i < k ==> Linked(sha, events, start, i)
    requires k < |events| ==> !Linked(sha, events, start, k)
    ensures CheckChain(sha, events, start) == if k < |events| then Broken(events[k].id) else Accepted
  {
    if events != [] && k > 0 {
      var rest := events[1..];
      assert Linked(sha, events, start, 0);
      forall i | 0 <= i < |rest|
        ensures Linked(sha, rest, events[0].currentHash, i) == Linked(sha, events, start, i + 1)
      {
      }
      CheckChainExact(sha, rest, events[0].currentHash, k - 1);
    }
  }

  function FirstUnlinked(sha: Sha, events: seq<AuditEvent>, start: string, from: nat): (k: nat)
    requires from <= |events|
    ensures from <= k <= |events| && (k < |events| ==> !Linked(sha, events, start, k))
    ensures forall i :: from <= i < k ==> Linked(sha, events, start, i)
    decreases |events| - from
  {
    if from == |events| || !Linked(sha, events, start, from) then from else FirstUnlinked(sha, events, start, from + 1)
  }

  lemma {:induction false} AcceptedIffChained(sha: Sha, events: seq<AuditEvent>)
    ensures CheckChain(sha, events, "") == Accepted <==> Chained(sha, events)
  {
    CheckChainExact(sha, events, "", FirstUnlinked(sha, events, "", 0));
  }

  // ---------- tamper evidence ----------

  function LastHash(events: seq<AuditEvent>): string {
    if events == [] then "" else events[|events| - 1].currentHash
  }

  /** The two events were hashed from different bytes to the same value. */
  ghost predicate Clash(sha: Sha, e: AuditEvent, f: AuditEvent) {
    Collision(sha, Material(e, e.previousHash), Material(f, f.previousHash))
  }

  ghost predicate ClashBetween(sha: Sha, a: seq<AuditEvent>, b: seq<AuditEvent>) {
    exists e, f :: e in a && f in b && Clash(sha, e, f)
  }

  lemma {:induction false} LastLinked(sha: Sha, a: seq<AuditEvent>)
    requires CheckChain(sha, a, "") == Accepted && a != []
    ensures var e := a[|a| - 1];
            && e.currentHash == sha(Material(e, e.previousHash))
            && e.previousHash == LastHash(a[..|a| - 1])
            && CheckChain(sha, a[..|a| - 1], "") == Accepted
  {
    hide Material;
    AcceptedIffChained(sha, a);
    assert Linked(sha, a, "", |a| - 1);
    ChainedPrefix(sha, a, |a| - 1);
  }

  lemma {:induction false} SameHashSameContent(sha: Sha, e: AuditEvent, f: AuditEvent)
    requires e.currentHash == sha(Material(e, e.previousHash)) && f.currentHash == sha(Material(f, f.previousHash))
    requires e.currentHash == f.currentHash && !Clash(sha, e, f)
    ensures e == f
  {
    MaterialInjective(e, e.previousHash, f, f.previousHash);
  }

  /**
   Two accepted logs that end in the same hash, whatever their lengths, are the same log, unless two of their events
   clash.
   */
  lemma {:induction false} TamperEvidence(sha: Sha, a: seq<AuditEvent>, b: seq<AuditEvent>)
    requires DigestShaped(sha)
    requires CheckChain(sha, a, "") == Accepted && CheckChain(sha, b, "") == Accepted
    requires LastHash(a) == LastHash(b)
    ensures a == b || ClashBetween(sha, a, b)
    decreases |a|
  {
    hide Material;
    if a != [] {
      LastLinked(sha, a);
      assert |sha(Material(a[|a| - 1], a[|a| - 1].previousHash))| == 64;
    }
    if b != [] {
      LastLinked(sha, b);
      assert |sha(Material(b[|b| - 1], b[|b| - 1].previousHash))| == 64;
    }
    if a != [] && b != [] {
      var x, y := a[|a| - 1], b[|b| - 1];
      if !Clash(sha, x, y) {
        SameHashSameContent(sha, x, y);
        var a', b' := a[..|a| - 1], b[..|b| - 1];
        TamperEvidence(sha, a', b');
        assert a == a' + [x] && b == b' + [y];
      }
    }
  }

  lemma {:induction false} ChainedPrefix(sha: Sha, a: seq<AuditEvent>, n: nat)
    requires Chained(sha, a) && n <= |a|
    ensures CheckChain(sha, a[..n], "") == Accepted
  {
    forall i | 0 <= i < n
      ensures Linked(sha, a[..n], "", i)
    {
      assert Linked(sha, a, "", i);
    }
    AcceptedIffChained(sha, a[..n]);
  }

  /**
   One event of an accepted log is replaced by another. Unless the new event carries the hash of its own content, it is
   the event reported. If it does, the event after it is reported, or the two hashed materials clash; only the last
   event can be replaced unnoticed.
   */
  lemma {:induction false} EditDetected(sha: Sha, log: seq<AuditEvent>, k: nat, edited: AuditEvent)
    requires CheckChain(sha, log, "") == Accepted && k < |log| && edited != log[k]
    ensures var forged := log[k := edited];
            var verdict := CheckChain(sha, forged, "");
            if !Linked(sha, forged, "", k) then verdict == Broken(edited.id)
            else if k + 1 == |log| then verdict == Accepted
            else verdict == Broken(log[k + 1].id)
                 || Collision(sha, Material(log[k], log[k].previousHash), Material(edited, edited.previousHash))
  {
    hide Material, CheckChain;
    AcceptedIffChained(sha, log);
    var forged := log[k := edited];
    forall i | 0 <= i < k
      ensures Linked(sha, forged, "", i)
    {
      assert Linked(sha, log, "", i);
    }
    assert Linked(sha, log, "", k);
    if !Linked(sha, forged, "", k) {
      CheckChainExact(sha, forged, "", k);
    } else if k + 1 == |log| {
      CheckChainExact(sha, forged, "", k + 1);
    } else {
      assert Linked(sha, log, "", k + 1);
      if edited.currentHash != log[k].currentHash {
        CheckChainExact(sha, forged, "", k + 1);
      } else if Material(log[k], log[k].previousHash) == Material(edited, edited.previousHash) {
        MaterialInjective(log[k], log[k].previousHash, edited, edited.previousHash);
        assert false;
      }
    }
  }

  /** An editor who leaves the hash columns alone is always reported at the edited event, or produces a collision. */
  lemma {:induction false} ContentEditDetected(sha: Sha, log: seq<AuditEvent>, k: nat, edited: AuditEvent)
    requires CheckChain(sha, log, "") == Accepted && k < |log| && !SameContent(edited, log[k])
    requires edited.previousHash == log[k].previousHash && edited.currentHash == log[k].currentHash
    ensures CheckChain(sha, log[k := edited], "") == Broken(edited.id)
            || Collision(sha, Material(log[k], log[k].previousHash), Material(edited, edited.previousHash))
  {
    AcceptedIffChained(sha, log);
    assert Linked(sha, log, "", k);
    EditDetected(sha, log, k, edited);
    if Material(log[k], log[k].previousHash) == Material(edited, edited.previousHash) {
      MaterialInjective(log[k], log[k].previousHash, edited, edited.previousHash);
      assert false;
    }
  }

  // ---------- the writer ----------

  function NewEvent(sha: Sha, ops: TextOps, previous: string, entry: Entry): AuditEvent {
    var draft := AuditEvent(
      entry.id, entry.eventType, entry.actorId, entry.taskId, Canonical(Redact(ops, entry.payload)), previous, "",
      entry.at);
    draft.(currentHash := sha(Material(draft, previous)))
  }

  function Append(sha: Sha, ops: TextOps, log: Log, entry: Entry): Log {
    var head := if log.head.None? then Head("", 0) else log.head.value;
    var event := NewEvent(sha, ops, head.currentHash, entry);
    Log(log.events + [event], Some(Head(event.currentHash, head.version + 1)))
  }

  /** The log after a run of the writer from empty tables. */
  function Run(sha: Sha, ops: TextOps, entries: seq<Entry>): Log {
    if entries == [] then Log([], None)
    else Append(sha, ops, Run(sha, ops, entries[..|entries| - 1]), entries[|entries| - 1])
  }

  /** The columns that an event takes over from its entry as they are. */
  predicate Records(event: AuditEvent, entry: Entry) {
    && event.id == entry.id && event.eventType == entry.eventType && event.actorId == entry.actorId
    && event.taskId == entry.taskId && event.createdAt == entry.at
  }

  class AuditStore {
    const sha: Sha
    const ops: TextOps
    var events: seq<AuditEvent>
    var head: Option<Head>

    constructor (sha: Sha, ops: TextOps)
      ensures Contents() == Run(sha, ops, []) && this.sha == sha && this.ops == ops
    {
      this.sha, this.ops := sha, ops;
      events, head := [], None;
    }

    function Contents(): Log
      reads this
    {
      Log(events, head)
    }

    method WriteAudit(entry: Entry) returns (event: AuditEvent)
      modifies this
      ensures Contents() == Append(sha, ops, old(Contents()), entry)
      ensures events == old(events) + [event] && Records(event, entry)
      ensures head.Some? && head.value.currentHash == event.currentHash
      ensures event.previousHash == if old(head).None? then "" else old(head).value.currentHash
    {
      if head.None? {
        head := Some(Head("", 0));
      }
      head := Some(head.value.(version := head.value.version + 1));
      var previousHash := head.value.currentHash;
      var safePayload := Canonical(Redact(ops, entry.payload));
      event := AuditEvent(entry.id, entry.eventType, entry.actorId, entry.taskId, safePayload, previousHash, "",
        entry.at);
      var currentHash := sha(Material(event, previousHash));
      event := event.(currentHash := currentHash);
      events := events + [event];
      head := Some(head.value.(currentHash := currentHash));
    }

    method VerifyChain() returns (verdict: Verdict)
      ensures verdict == CheckChain(sha, OrderBy(events), "")
      ensures verdict == Accepted <==> Chained(sha, OrderBy(events))
    {
      var previousHash := "";
      var rows := OrderBy(events);
      AcceptedIffChained(sha, rows);
      for i := 0 to |rows|
        invariant CheckChain(sha, rows, "") == CheckChain(sha, rows[i..], previousHash)
      {
        var event := rows[i];
        var expected := sha(Material(event, previousHash));
        assert rows[i..][0] == event && rows[i..][1..] == rows[i + 1..];
        if event.previousHash != previousHash || event.currentHash != expected {
          return Broken(event.id);
        }
        previousHash := event.currentHash;
      }
      verdict := Accepted;
    }
  }

  lemma {:induction false} NewEventLinked(sha: Sha, ops: TextOps, events: seq<AuditEvent>, entry: Entry)
    requires Chained(sha, events)
    ensures Chained(sha, events + [NewEvent(sha, ops, LastHash(events), entry)])
  {
    var event := NewEvent(sha, ops, LastHash(events), entry);
    var after := events + [event];
    forall i | 0 <= i < |after|
      ensures Linked(sha, after, "", i)
    {
      if i < |events| {
        assert Linked(sha, events, "", i);
      } else {
        assert MaterialFields(event, LastHash(events)) == MaterialFields(event.(currentHash := ""), LastHash(events));
      }
    }
  }

  /** In every run the head row carries the last hash and counts the events, and the rows are chained as inserted. */
  lemma {:induction false} RunKeepsChain(sha: Sha, ops: TextOps, entries: seq<Entry>)
    ensures var log := Run(sha, ops, entries);
            && Chained(sha, log.events)
            && |log.events| == |entries|
            && (forall i :: 0 <= i < |entries| ==> Records(log.events[i], entries[i]))
            && log.head == if entries == [] then None else Some(Head(LastHash(log.events), |entries|))
  {
    hide Material;
    if entries != [] {
      var init := entries[..|entries| - 1];
      RunKeepsChain(sha, ops, init);
      NewEventLinked(sha, ops, Run(sha, ops, init).events, entries[|entries| - 1]);
    }
  }

  // ---------- writer and verifier agree ----------

  predicate Increasing(entries: seq<Entry>) {
    forall i, j :: 0 <= i < j < |entries| ==> Earlier(entries[i].at, entries[j].at)
  }

  lemma {:induction false} OrderByOrdered(events: seq<AuditEvent>)
    requires forall i, j :: 0 <= i < j < |events| ==> Earlier(events[i].createdAt, events[j].createdAt)
    ensures OrderBy(events) == events
  {
    if events != [] {
      OrderByOrdered(events[1..]);
      assert events == [events[0]] + events[1..];
    }
  }

  lemma {:induction false} InsertEventElements(e: AuditEvent, events: seq<AuditEvent>)
    ensures multiset(InsertEvent(e, events)) == multiset(events) + multiset{e}
  {
    if events != [] && Precedes(events[0], e) {
      InsertEventElements(e, events[1..]);
      assert events == [events[0]] + events[1..];
    }
  }

  lemma {:induction false} OrderByElements(events: seq<AuditEvent>)
    ensures multiset(OrderBy(events)) == multiset(events)
  {
    if events != [] {
      OrderByElements(events[1..]);
      InsertEventElements(events[0], OrderBy(events[1..]));
      assert events == [events[0]] + events[1..];
    }
  }

  // ---------- the stored rows and the order of the query ----------

  /**
   Two sets of stored rows that the verifier accepts and that end in the same hash hold the same rows, unless two events
   clash.
   */
  lemma {:induction false} StoredTamperEvidence(sha: Sha, a: seq<AuditEvent>, b: seq<AuditEvent>)
    requires DigestShaped(sha)
    requires CheckChain(sha, OrderBy(a), "") == Accepted && CheckChain(sha, OrderBy(b), "") == Accepted
    requires LastHash(OrderBy(a)) == LastHash(OrderBy(b))
    ensures multiset(a) == multiset(b) || ClashBetween(sha, OrderBy(a), OrderBy(b))
  {
    hide CheckChain, ClashBetween, OrderBy, LastHash;
    TamperEvidence(sha, OrderBy(a), OrderBy(b));
    OrderByElements(a);
    OrderByElements(b);
  }

  /** The columns of ORDER BY are the same. */
  predicate SameKey(a: AuditEvent, b: AuditEvent) {
    a.id == b.id && a.createdAt == b.createdAt
  }

  lemma {:induction false} InsertSameKey(e: AuditEvent, edited: AuditEvent, events: seq<AuditEvent>) returns (k: nat)
    requires SameKey(e, edited)
    ensures k < |InsertEvent(e, events)| && InsertEvent(e, events)[k] == e
    ensures InsertEvent(edited, events) == InsertEvent(e, events)[k := edited]
  {
    if events == [] || !Precedes(events[0], e) {
      k := 0;
    } else {
      k := InsertSameKey(e, edited, events[1..]);
      k := k + 1;
    }
  }

  lemma {:induction false} InsertIntoEdited(e: AuditEvent, events: seq<AuditEvent>, k: nat,
      edited: AuditEvent)
    returns (j: nat)
    requires k < |events| && SameKey(events[k], edited)
    ensures j < |InsertEvent(e, events)| && InsertEvent(e, events)[j] == events[k]
    ensures InsertEvent(e, events[k := edited]) == InsertEvent(e, events)[j := edited]
  {
    if !Precedes(events[0], e) {
      j := k + 1;
    } else if k == 0 {
      j := 0;
      assert events[0 := edited] == [edited] + events[1..];
    } else {
      j := InsertIntoEdited(e, events[1..], k - 1, edited);
      assert events[k := edited][1..] == events[1..][k - 1 := edited];
      j := j + 1;
    }
  }

  /** Replacing a stored row without touching the columns of the order replaces one row of the ordered result. */
  lemma {:induction false} OrderByEdited(rows: seq<AuditEvent>, i: nat, edited: AuditEvent) returns (k: nat)
    requires i < |rows| && SameKey(rows[i], edited)
    ensures k < |OrderBy(rows)| && OrderBy(rows)[k] == rows[i]
    ensures OrderBy(rows[i := edited]) == OrderBy(rows)[k := edited]
  {
    hide InsertEvent, SameKey;
    if i == 0 {
      assert rows[0 := edited] == [edited] + rows[1..];
      k := InsertSameKey(rows[0], edited, OrderBy(rows[1..]));
    } else {
      assert rows[i := edited][1..] == rows[1..][i - 1 := edited];
      k := OrderByEdited(rows[1..], i - 1, edited);
      k := InsertIntoEdited(rows[0], OrderBy(rows[1..]), k, edited);
    }
  }

  /**
   A stored row is edited and keeps its place in the order. When the hash columns are left alone, the verifier reports
   exactly that row; when they are made to fit, it reports the next row, if there is one; or two materials collide.
   */
  lemma {:induction false} StoredEditDetected(sha: Sha, rows: seq<AuditEvent>, i: nat,
      edited: AuditEvent)
    returns (k: nat)
    requires CheckChain(sha, OrderBy(rows), "") == Accepted
    requires i < |rows| && SameKey(rows[i], edited) && edited != rows[i]
    ensures k < |OrderBy(rows)| && OrderBy(rows)[k] == rows[i]
    ensures OrderBy(rows[i := edited]) == OrderBy(rows)[k := edited]
    ensures var verdict := CheckChain(sha, OrderBy(rows[i := edited]), "");
            if !Linked(sha, OrderBy(rows[i := edited]), "", k) then verdict == Broken(edited.id)
            else if k + 1 == |OrderBy(rows)| then verdict == Accepted
            else verdict == Broken(OrderBy(rows)[k + 1].id)
                 || Collision(sha, Material(rows[i], rows[i].previousHash), Material(edited, edited.previousHash))
    ensures edited.previousHash == rows[i].previousHash && edited.currentHash == rows[i].currentHash ==>
      || CheckChain(sha, OrderBy(rows[i := edited]), "") == Broken(edited.id)
      || Collision(sha, Material(rows[i], rows[i].previousHash), Material(edited, edited.previousHash))
  {
    hide CheckChain, Material, OrderBy, Linked, SameKey;
    k := OrderByEdited(rows, i, edited);
    EditDetected(sha, OrderBy(rows), k, edited);
    if edited.previousHash == rows[i].previousHash && edited.currentHash == rows[i].currentHash {
      SameColumnsSameEvent(rows[i], edited);
      ContentEditDetected(sha, OrderBy(rows), k, edited);
    }
  }

  lemma {:induction false} SameColumnsSameEvent(e: AuditEvent, f: AuditEvent)
    requires e != f && e.previousHash == f.previousHash && e.currentHash == f.currentHash
    ensures !SameContent(f, e)
  {
  }

  /** Identifiers are fresh UUIDs. */
  predicate FreshIds(events: seq<AuditEvent>) {
    forall i, j :: 0 <= i < j < |events| ==> events[i].id != events[j].id
  }

  /** In a chain without clashes the previous hash of an event tells its place. */
  lemma {:induction false} PlaceOf(sha: Sha, events: seq<AuditEvent>, j: nat, k: nat)
    requires DigestShaped(sha) && Chained(sha, events) && FreshIds(events)
    requires j < |events| && k < |events| && events[j].previousHash == LastHash(events[..k])
    ensures j == k || ClashBetween(sha, events, events)
  {
    hide Material;
    assert Linked(sha, events, "", j) && Linked(sha, events, "", k);
    if j != k {
      if j > 0 {
        assert Linked(sha, events, "", j - 1);
        assert |sha(Material(events[j - 1], events[j - 1].previousHash))| == 64;
      }
      if k > 0 {
        assert Linked(sha, events, "", k - 1);
        assert |sha(Material(events[k - 1], events[k - 1].previousHash))| == 64;
      }
      assert j > 0 && k > 0;
      if !Clash(sha, events[j - 1], events[k - 1]) {
        SameHashSameContent(sha, events[j - 1], events[k - 1]);
        assert false;
      }
    }
  }

  /** A rearrangement of a chain that is itself a chain is the chain. */
  lemma {:induction false} RearrangedChain(sha: Sha, events: seq<AuditEvent>, rows: seq<AuditEvent>, k: nat)
    requires DigestShaped(sha) && Chained(sha, events) && Chained(sha, rows) && FreshIds(events)
    requires multiset(rows) == multiset(events) && k <= |events| == |rows|
    ensures rows[..k] == events[..k] || ClashBetween(sha, events, events)
  {
    hide Material;
    if k > 0 {
      RearrangedChain(sha, events, rows, k - 1);
      if rows[..k - 1] == events[..k - 1] {
        var e := rows[k - 1];
        assert e in multiset(rows);
        assert e in multiset(events);
        var j :| 0 <= j < |events| && events[j] == e;
        assert Linked(sha, rows, "", k - 1);
        assert e.previousHash == LastHash(rows[..k - 1]);
        PlaceOf(sha, events, j, k - 1);
      }
    }
  }

  /**
   After any run with fresh identifiers, `verify_chain` accepts exactly when ORDER BY returns the rows in the order they
   were written, unless two of the written events clash.
   */
  lemma {:induction false} VerifierAcceptsWriter(sha: Sha, ops: TextOps, entries: seq<Entry>)
    requires DigestShaped(sha) && FreshIds(Run(sha, ops, entries).events)
    ensures var rows := Run(sha, ops, entries).events;
            (CheckChain(sha, OrderBy(rows), "") == Accepted <==> OrderBy(rows) == rows) || ClashBetween(sha, rows, rows)
  {
    hide Run, CheckChain, OrderBy, ClashBetween, FreshIds, Chained;
    RunKeepsChain(sha, ops, entries);
    ChainAcceptedInOrder(sha, Run(sha, ops, entries).events);
  }

  lemma {:induction false} ChainAcceptedInOrder(sha: Sha, rows: seq<AuditEvent>)
    requires DigestShaped(sha) && FreshIds(rows) && Chained(sha, rows)
    ensures (CheckChain(sha, OrderBy(rows), "") == Accepted <==> OrderBy(rows) == rows) || ClashBetween(sha, rows, rows)
  {
    hide CheckChain, OrderBy, ClashBetween, FreshIds, Chained, DigestShaped;
    AcceptedIffChained(sha, rows);
    AcceptedIffChained(sha, OrderBy(rows));
    OrderByElements(rows);
    if CheckChain(sha, OrderBy(rows), "") == Accepted {
      assert |OrderBy(rows)| == |multiset(OrderBy(rows))| == |rows|;
      RearrangedChain(sha, rows, OrderBy(rows), |rows|);
      assert OrderBy(rows)[..|rows|] == OrderBy(rows) && rows[..|rows|] == rows;
    }
  }

  /** With strictly increasing clock readings every run is accepted, collision or not. */
  lemma {:induction false} IncreasingRunAccepted(sha: Sha, ops: TextOps, entries: seq<Entry>)
    requires Increasing(entries)
    ensures CheckChain(sha, OrderBy(Run(sha, ops, entries).events), "") == Accepted
  {
    RunKeepsChain(sha, ops, entries);
    OrderByOrdered(Run(sha, ops, entries).events);
    AcceptedIffChained(sha, Run(sha, ops, entries).events);
  }
}
