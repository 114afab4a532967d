/** Bounding and redacting of external data before it reaches the model or the audit log. */
module Untrusted {
  import opened Wrappers
  import opened Text
  import opened Utf8

  /** Python's text functions that this model leaves uninterpreted: `lower`, and the regex substitutions in order. */
  datatype TextOps = TextOps(lower: string -> string, scrub: string -> string)

  datatype Data =
    | Mapping(entries: seq<Entry>)
    | Sequence(items: seq<Data>)
    | Text(s: string)
    | Flag(b: bool)
    | Number(n: real)
    | Nothing
    | Other(repr: string)

  /** The key is `str(key)` already. */
  datatype Entry = Entry(key: string, value: Data)

  const REDACTED := "***REDACTED***"
  const TRUNCATED_DEPTH := "[TRUNCATED_DEPTH]"
  const TRUNCATED := "\U{2026}[TRUNCATED]"
  const MAX_DEPTH := 8
  const MAX_ITEMS := 200
  const KEY_BYTES := 256
  const MARKERS := ["password", "token", "secret", "api_key", "authorization", "private_key"]

  predicate Sensitive(ops: TextOps, key: string) {
    exists i :: 0 <= i < |MARKERS| && Contains(ops.lower(key), MARKERS[i])
  }

  // ---------- text ----------

  function SanitizeText(ops: TextOps, value: string, maxBytes: nat): string {
    var result := ops.scrub(value);
    if |Encode(result)| > maxBytes then DecodeIgnore(Encode(result)[..maxBytes]) + TRUNCATED else result
  }

  lemma {:induction false} TruncatedBytes()
    ensures |Encode(TRUNCATED)| == 14
  {
    EncodeAscii(TRUNCATED[1..]);
  }

  /**
   Text that fits is only scrubbed; longer text keeps the longest prefix of whole characters that fits, and a marker.
   */
  lemma {:induction false} SanitizeTextExact(ops: TextOps, value: string, maxBytes: nat)
    ensures var s, r := ops.scrub(value), SanitizeText(ops, value, maxBytes);
            && |Encode(r)| <= maxBytes + 14
            && (|Encode(s)| <= maxBytes ==> r == s)
            && (|Encode(s)| > maxBytes ==>
                  exists k ::
                    && 0 <= k < |s| && r == s[..k] + TRUNCATED
                    && |Encode(s[..k])| <= maxBytes < |Encode(s[..k + 1])|)
  {
    var s := ops.scrub(value);
    if |Encode(s)| > maxBytes {
      var k := FittingPrefix(s, maxBytes);
      CutKeepsFittingPrefix(s, maxBytes);
      FittingPrefixIsLongest(s, maxBytes);
      assert s[..|s|] == s;
      EncodeConcat(s[..k], TRUNCATED);
      TruncatedBytes();
      assert SanitizeText(ops, value, maxBytes) == s[..k] + TRUNCATED;
    }
  }

  // ---------- trees ----------

  /** `result[key] = value` on a dict. */
  function Put(es: seq<Entry>, e: Entry): (r: seq<Entry>)
    ensures |r| <= |es| + 1
    ensures forall x :: x in r ==> x == e || x in es
  {
    if es == [] then [e]
    else if es[0].key == e.key then [e] + es[1..]
    else [es[0]] + Put(es[1..], e)
  }

  function Capped(n: nat): nat {
    if n < MAX_ITEMS then n else MAX_ITEMS
  }

  function Sanitized(ops: TextOps, value: Data, maxBytes: nat, depth: nat): Data
    decreases value, 1
  {
    if depth > MAX_DEPTH then Text(TRUNCATED_DEPTH)
    else
      match value
      case Mapping(entries) =>
        var kept := SanitizedEntries(ops, entries, Capped(|entries|), maxBytes, depth);
        Mapping(MarkTruncated(kept, |entries|))
      case Sequence(items) =>
        Sequence(SanitizedItems(ops, items, Capped(|items|), maxBytes, depth))
      case Text(s) => Text(SanitizeText(ops, s, maxBytes))
      case Other(repr) => Text(SanitizeText(ops, repr, maxBytes))
      case _ => value
  }

  /** The key that the early exit of the loop adds. */
  function TruncatedEntry(): Entry {
    Entry("_truncated", Flag(true))
  }

  function MarkTruncated(kept: seq<Entry>, count: nat): (r: seq<Entry>)
    ensures |r| <= |kept| + 1
    ensures forall e :: e in r ==> e in kept || e == TruncatedEntry()
  {
    if count > MAX_ITEMS then Put(kept, TruncatedEntry()) else kept
  }

  function SanitizedEntry(ops: TextOps, e: Entry, maxBytes: nat, depth: nat): Entry
    decreases e, 1
  {
    var key := SanitizeText(ops, e.key, KEY_BYTES);
    Entry(key, if Sensitive(ops, key) then Text(REDACTED) else Sanitized(ops, e.value, maxBytes, depth + 1))
  }

  /** The dict after its first `n` entries were processed. */
  function SanitizedEntries(ops: TextOps, es: seq<Entry>, n: nat, maxBytes: nat, depth: nat): (r: seq<Entry>)
    requires n <= |es|
    ensures |r| <= n
    decreases es, 0, n
  {
    if n == 0 then []
    else Put(SanitizedEntries(ops, es, n - 1, maxBytes, depth), SanitizedEntry(ops, es[n - 1], maxBytes, depth))
  }

  /** The first `n` items. */
  function SanitizedItems(ops: TextOps, items: seq<Data>, n: nat, maxBytes: nat, depth: nat): (r: seq<Data>)
    requires n <= |items|
    ensures |r| == n && forall i :: 0 <= i < n ==> r[i] == Sanitized(ops, items[i], maxBytes, depth + 1)
    decreases items, 0, n
  {
    if n == 0 then []
    else SanitizedItems(ops, items, n - 1, maxBytes, depth) + [Sanitized(ops, items[n - 1], maxBytes, depth + 1)]
  }

  /** The loop of `sanitize_untrusted` over the entries of a mapping, with its early exit. */
  method SanitizeMapping(ops: TextOps, entries: seq<Entry>, maxBytes: nat, depth: nat) returns (result: seq<Entry>)
    requires depth <= MAX_DEPTH
    ensures Mapping(result) == Sanitized(ops, Mapping(entries), maxBytes, depth)
  {
    result := [];
    var index := 0;
    while index < |entries|
      invariant 0 <= index <= |entries| && index <= MAX_ITEMS
      invariant result == SanitizedEntries(ops, entries, index, maxBytes, depth)
    {
      if index >= MAX_ITEMS {
        result := Put(result, TruncatedEntry());
        return;
      }
      var item := entries[index];
      var key := SanitizeText(ops, item.key, KEY_BYTES);
      if Sensitive(ops, key) {
        result := Put(result, Entry(key, Text(REDACTED)));
      } else {
        result := Put(result, Entry(key, Sanitized(ops, item.value, maxBytes, depth + 1)));
      }
      index := index + 1;
    }
  }

  // ---------- what the output satisfies, for any input ----------

  /** At most `levels` containers are nested. */
  predicate Shallow(d: Data, levels: int) {
    match d
    case Mapping(entries) => levels > 0 && forall i :: 0 <= i < |entries| ==> Shallow(entries[i].value, levels - 1)
    case Sequence(items) => levels > 0 && forall i :: 0 <= i < |items| ==> Shallow(items[i], levels - 1)
    case _ => true
  }

  predicate BoundedText(s: string, maxBytes: nat) {
    |Encode(s)| <= maxBytes + 14 || s == REDACTED || s == TRUNCATED_DEPTH
  }

  predicate BoundedEntry(ops: TextOps, e: Entry) {
    |Encode(e.key)| <= KEY_BYTES + 14 && (Sensitive(ops, e.key) ==> e.value == Text(REDACTED))
  }

  predicate Bounded(ops: TextOps, d: Data, maxBytes: nat) {
    match d
    case Mapping(entries) =>
      && |entries| <= MAX_ITEMS + 1
      && forall i :: 0 <= i < |entries| ==> BoundedEntry(ops, entries[i]) && Bounded(ops, entries[i].value, maxBytes)
    case Sequence(items) =>
      && |items| <= MAX_ITEMS
      && forall i :: 0 <= i < |items| ==> Bounded(ops, items[i], maxBytes)
    case Text(s) => BoundedText(s, maxBytes)
    case Other(_) => false
    case _ => true
  }

  /** `lower` leaves the key that the sanitizer itself adds without a marker, as Python's does. */
  ghost predicate LowerIsSound(ops: TextOps) {
    !Sensitive(ops, "_truncated")
  }

  ghost predicate Acceptable(ops: TextOps, d: Data, maxBytes: nat, levels: int) {
    Bounded(ops, d, maxBytes) && Shallow(d, levels)
  }

  /**
   Whatever the input: at most nine levels of containers, lists of at most 200 items, dicts of at most 201 entries, text
   within the limit plus the marker, and the redaction under every key that names a secret.
   */
  lemma {:induction false} SanitizedIsBounded(ops: TextOps, value: Data, maxBytes: nat, depth: nat)
    requires LowerIsSound(ops) && depth <= MAX_DEPTH + 1
    ensures Acceptable(ops, Sanitized(ops, value, maxBytes, depth), maxBytes, MAX_DEPTH + 1 - depth)
    decreases value, 1
  {
    hide Sensitive;
    if depth <= MAX_DEPTH {
      match value {
        case Mapping(entries) =>
          var n := Capped(|entries|);
          SanitizedEntriesAreBounded(ops, entries, n, maxBytes, depth);
          var kept := SanitizedEntries(ops, entries, n, maxBytes, depth);
          MarkedMappingIsBounded(ops, kept, |entries|, maxBytes, MAX_DEPTH - depth);
        case Sequence(items) =>
          forall i | 0 <= i < |items|
            ensures Acceptable(ops, Sanitized(ops, items[i], maxBytes, depth + 1), maxBytes, MAX_DEPTH - depth)
          {
            SanitizedIsBounded(ops, items[i], maxBytes, depth + 1);
          }
        case _ => SanitizedLeafIsBounded(ops, value, maxBytes, depth);
      }
    }
  }

  lemma {:induction false} SanitizedLeafIsBounded(ops: TextOps, value: Data, maxBytes: nat, depth: nat)
    requires !value.Mapping? && !value.Sequence? && depth <= MAX_DEPTH
    ensures Acceptable(ops, Sanitized(ops, value, maxBytes, depth), maxBytes, MAX_DEPTH + 1 - depth)
  {
    match value {
      case Text(s) => SanitizeTextExact(ops, s, maxBytes);
      case Other(repr) => SanitizeTextExact(ops, repr, maxBytes);
      case _ =>
    }
  }

  lemma {:induction false} MarkedMappingIsBounded(ops: TextOps, kept: seq<Entry>, count: nat, maxBytes: nat,
      levels: int)
    requires LowerIsSound(ops) && |kept| <= MAX_ITEMS && levels >= 0
    requires forall e :: e in kept ==> AcceptableEntry(ops, e, maxBytes, levels)
    ensures Acceptable(ops, Mapping(MarkTruncated(kept, count)), maxBytes, levels + 1)
  {
    TruncatedEntryIsBounded(ops, maxBytes, levels);
    MappingIsBounded(ops, MarkTruncated(kept, count), maxBytes, levels);
  }

  ghost predicate AcceptableEntry(ops: TextOps, e: Entry, maxBytes: nat, levels: int) {
    BoundedEntry(ops, e) && Acceptable(ops, e.value, maxBytes, levels)
  }

  lemma {:induction false} TruncatedEntryIsBounded(ops: TextOps, maxBytes: nat, levels: int)
    requires LowerIsSound(ops)
    ensures AcceptableEntry(ops, TruncatedEntry(), maxBytes, levels)
  {
    EncodeAscii("_truncated");
  }

  lemma {:induction false} MappingIsBounded(ops: TextOps, entries: seq<Entry>, maxBytes: nat, levels: int)
    requires |entries| <= MAX_ITEMS + 1 && levels >= 0
    requires forall e :: e in entries ==> AcceptableEntry(ops, e, maxBytes, levels)
    ensures Acceptable(ops, Mapping(entries), maxBytes, levels + 1)
  {
    forall i | 0 <= i < |entries|
      ensures AcceptableEntry(ops, entries[i], maxBytes, levels)
    {
      assert entries[i] in entries;
    }
  }

  lemma {:induction false} SanitizedEntriesAreBounded(ops: TextOps, es: seq<Entry>, n: nat, maxBytes: nat, depth: nat)
    requires LowerIsSound(ops) && depth <= MAX_DEPTH && n <= |es|
    ensures forall e :: e in SanitizedEntries(ops, es, n, maxBytes, depth) ==>
      AcceptableEntry(ops, e, maxBytes, MAX_DEPTH - depth)
    decreases es, 0, n
  {
    if n > 0 {
      SanitizedEntriesAreBounded(ops, es, n - 1, maxBytes, depth);
      SanitizeTextExact(ops, es[n - 1].key, KEY_BYTES);
      SanitizedIsBounded(ops, es[n - 1].value, maxBytes, depth + 1);
    }
  }
}
