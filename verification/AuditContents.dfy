/** What the log says: every event tells its entry, and the query returns the events in the order of their times. */
module AuditContents {
  import opened Wrappers
  import opened Json
  import opened JsonProofs
  import opened Utf8
  import opened Timestamps
  import opened Untrusted
  import opened SanitizedContents
  import opened Audit
  import Text

  // ---------- the payload ----------

  /** What is left of a text of 32768 bytes is all of it but what the patterns take out. */
  ghost predicate TextKept(ops: TextOps, s: string, r: string) {
    var scrubbed := ops.scrub(s);
    && (|Encode(scrubbed)| <= 32768 ==> r == scrubbed)
    && (|Encode(scrubbed)| > 32768 ==> exists k ::
          && 0 <= k < |scrubbed| && r == scrubbed[..k] + "\U{2026}[TRUNCATED]"
          && |Encode(scrubbed[..k])| <= 32768 < |Encode(scrubbed[..k + 1])|)
  }

  /** The same keys, lengths, numbers and texts, but the mark exactly under the keys that name a secret. */
  ghost predicate Retold(ops: TextOps, v: Value, w: Value)
    decreases v
  {
    match v
    case Obj(fields) =>
      && w.Obj? && |w.fields| == |fields|
      && forall i :: 0 <= i < |fields| ==>
          && w.fields[i].key == fields[i].key
          && (if NamesSecret(ops, fields[i].key) then w.fields[i].value == Str("***REDACTED***")
              else Retold(ops, fields[i].value, w.fields[i].value))
    case Arr(items) =>
      && w.Arr? && |w.items| == |items| && forall i :: 0 <= i < |items| ==> Retold(ops, items[i], w.items[i])
    case Str(s) => w.Str? && TextKept(ops, s, w.s)
    case _ => w == v
  }

  lemma {:induction false} RedactTexts(ops: TextOps, s: string)
    ensures TextKept(ops, s, SanitizeText(ops, s, TEXT_BYTES))
  {
    SanitizeTextExact(ops, s, 32768);
  }

  lemma {:induction false} RedactRetells(ops: TextOps, v: Value)
    ensures Retold(ops, v, Redact(ops, v))
    decreases v
  {
    hide Sensitive, NamesSecret, SanitizeText, TextKept;
    match v {
      case Obj(fields) =>
        forall i | 0 <= i < |fields|
          ensures var f := RedactFields(ops, fields)[i];
                  && f.key == fields[i].key
                  && (if NamesSecret(ops, fields[i].key) then f.value == Str("***REDACTED***")
                      else Retold(ops, fields[i].value, f.value))
        {
          SensitiveExactly(ops, fields[i].key);
          RedactRetells(ops, fields[i].value);
        }
      case Arr(items) =>
        forall i | 0 <= i < |items|
          ensures Retold(ops, items[i], RedactItems(ops, items)[i])
        {
          RedactRetells(ops, items[i]);
        }
      case Str(s) => RedactTexts(ops, s);
      case _ =>
    }
  }

  lemma {:induction false} RedactKeepsKeys(ops: TextOps, v: Value)
    requires Unique(v)
    ensures Unique(Redact(ops, v))
    decreases v
  {
    hide Sensitive, SanitizeText;
    match v {
      case Obj(fields) =>
        forall i | 0 <= i < |fields|
          ensures Unique(RedactFields(ops, fields)[i].value)
        {
          RedactKeepsKeys(ops, fields[i].value);
        }
      case Arr(items) =>
        forall i | 0 <= i < |items|
          ensures Unique(RedactItems(ops, items)[i])
        {
          RedactKeepsKeys(ops, items[i]);
        }
      case _ =>
    }
  }

  /** Reading the text gives what the payload says, up to the order of keys. */
  ghost predicate Tells(ops: TextOps, payload: Value, text: string) {
    exists told, read :: Retold(ops, payload, told) && Loads(text) == Some(read) && SameValue(told, read)
  }

  lemma {:induction false} PayloadTells(ops: TextOps, payload: Value)
    requires Unique(payload)
    ensures Tells(ops, payload, Canonical(Redact(ops, payload)))
  {
    hide Redact, Retold, SameValue, Unique, SortKeys, Dumps, Loads;
    var told := Redact(ops, payload);
    RedactRetells(ops, payload);
    RedactKeepsKeys(ops, payload);
    CanonicalStable(told);
    SortKeysTwice(told);
    SameIfSorted(told, SortKeys(told));
  }

  /** The columns of the event are those of the entry. */
  ghost predicate TellsEntry(ops: TextOps, event: AuditEvent, entry: Audit.Entry) {
    && Records(event, entry)
    && (Unique(entry.payload) ==> Tells(ops, entry.payload, event.payloadJson))
  }

  lemma {:induction false} NewEventTells(sha: Sha, ops: TextOps, previous: string, entry: Audit.Entry)
    ensures TellsEntry(ops, NewEvent(sha, ops, previous, entry), entry)
  {
    hide Tells, Redact, Unique, Dumps, Material;
    if Unique(entry.payload) {
      PayloadTells(ops, entry.payload);
    }
  }

  /**
   In every run each event tells its entry: who did what for which task and when, and a payload that reads back as what
   was to be written, everywhere but under the keys that name a secret.
   */
  lemma {:induction false} EventsTellEntries(sha: Sha, ops: TextOps, entries: seq<Audit.Entry>, i: nat)
    requires i < |entries|
    ensures |Run(sha, ops, entries).events| == |entries|
    ensures TellsEntry(ops, Run(sha, ops, entries).events[i], entries[i])
    decreases |entries|
  {
    hide TellsEntry, NewEvent;
    RunKeepsChain(sha, ops, entries);
    var init := entries[..|entries| - 1];
    RunKeepsChain(sha, ops, init);
    if i < |init| {
      EventsTellEntries(sha, ops, init, i);
    } else {
      NewEventTells(sha, ops, LastHash(Run(sha, ops, init).events), entries[i]);
    }
  }

  // ---------- the order of the query ----------

  /** Microseconds on a calendar whose months and years are as long as their numbers allow. */
  function Micros(t: Instant): int {
    ((((((t.year * 100 + t.month) * 100 + t.day) * 24 + t.hour) * 60 + t.minute) * 60) + t.second) * 1000000 + t.micro
  }

  lemma {:induction false} EarlierIsBefore(a: Time, b: Time)
    ensures Earlier(a, b) <==> Micros(a) < Micros(b)
    ensures a == b <==> Micros(a) == Micros(b)
  {
  }

  /** The first event is written earlier, or at the same time and has no greater identifier. */
  predicate NotAfter(a: AuditEvent, b: AuditEvent) {
    || Micros(a.createdAt) < Micros(b.createdAt)
    || (Micros(a.createdAt) == Micros(b.createdAt) && !Text.Less(b.id, a.id))
  }

  ghost predicate Ordered(events: seq<AuditEvent>) {
    forall i, j :: 0 <= i < j < |events| ==> NotAfter(events[i], events[j])
  }

  lemma {:induction false} PrecedesIs(a: AuditEvent, b: AuditEvent)
    ensures Precedes(a, b) <==> !NotAfter(b, a)
  {
    EarlierIsBefore(a.createdAt, b.createdAt);
    hide Earlier, Text.Less, Micros;
  }

  lemma {:induction false} NotAfterTransitive(a: AuditEvent, b: AuditEvent, c: AuditEvent)
    requires NotAfter(a, b) && NotAfter(b, c)
    ensures NotAfter(a, c)
  {
    hide Micros, Text.Less;
    if Text.Less(c.id, a.id) {
      Text.LessIsTotal(b.id, a.id);
      Text.LessIsTotal(c.id, b.id);
      if Text.Less(a.id, b.id) {
        Text.LessIsTransitive(c.id, a.id, b.id);
      }
    }
  }

  lemma {:induction false} InsertOrders(e: AuditEvent, events: seq<AuditEvent>)
    requires Ordered(events)
    ensures Ordered(InsertEvent(e, events))
  {
    hide Precedes, NotAfter;
    if events != [] {
      PrecedesIs(events[0], e);
      NotAfterEither(events[0], e);
      if Precedes(events[0], e) {
        assert forall i :: 0 <= i < |events[1..]| ==> events[1..][i] == events[i + 1];
        InsertOrders(e, events[1..]);
        InsertEventElements(e, events[1..]);
        var rest := InsertEvent(e, events[1..]);
        forall j | 0 <= j < |rest|
          ensures NotAfter(events[0], rest[j])
        {
          assert rest[j] in multiset(rest);
        }
      } else {
        forall j | 0 < j < |events|
          ensures NotAfter(e, events[j])
        {
          NotAfterTransitive(e, events[0], events[j]);
        }
      }
    }
  }

  lemma {:induction false} NotAfterEither(a: AuditEvent, b: AuditEvent)
    ensures NotAfter(a, b) || NotAfter(b, a)
  {
    hide Micros, Text.Less;
    if Text.Less(a.id, b.id) && Text.Less(b.id, a.id) {
      Text.LessIsTransitive(a.id, b.id, a.id);
      Text.LessIsIrreflexive(a.id);
    }
  }

  /** The query returns the stored rows, each as often as it is stored, ordered by time and then by identifier. */
  lemma {:induction false} QueryIsOrdered(events: seq<AuditEvent>)
    ensures Ordered(OrderBy(events)) && multiset(OrderBy(events)) == multiset(events)
  {
    hide NotAfter, InsertEvent;
    OrderByElements(events);
    if events != [] {
      QueryIsOrdered(events[1..]);
      InsertOrders(events[0], OrderBy(events[1..]));
    }
  }
}
