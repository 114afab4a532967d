/** What fits goes through the sanitizer as it is, but for its texts, which are scrubbed, and its secrets. */
module SanitizedContents {
  import opened Text
  import opened Utf8
  import opened Untrusted

  /** The key has one of six words in it, whatever the case of its letters. */
  predicate NamesSecret(ops: TextOps, key: string) {
    var lowered := ops.lower(key);
    || Contains(lowered, "password") || Contains(lowered, "token") || Contains(lowered, "secret")
    || Contains(lowered, "api_key") || Contains(lowered, "authorization") || Contains(lowered, "private_key")
  }

  lemma {:induction false} SensitiveExactly(ops: TextOps, key: string)
    ensures Sensitive(ops, key) <==> NamesSecret(ops, key)
  {
    hide Contains;
    assert MARKERS[0] == "password" && MARKERS[1] == "token" && MARKERS[2] == "secret";
    assert MARKERS[3] == "api_key" && MARKERS[4] == "authorization" && MARKERS[5] == "private_key";
  }

  predicate FitsIn(ops: TextOps, s: string, maxBytes: nat) {
    |Encode(ops.scrub(s))| <= maxBytes
  }

  ghost predicate KeysApart(ops: TextOps, es: seq<Entry>) {
    forall i, j :: 0 <= i < j < |es| ==> ops.scrub(es[i].key) != ops.scrub(es[j].key)
  }

  /** At most this many levels, 200 items and entries, 256 bytes of key and `maxBytes` of text; secrets may be any. */
  ghost predicate Fits(ops: TextOps, d: Data, maxBytes: nat, levels: int)
    decreases d
  {
    && levels > 0
    && match d
       case Mapping(entries) =>
         && |entries| <= 200 && KeysApart(ops, entries)
         && forall i :: 0 <= i < |entries| ==>
             && FitsIn(ops, entries[i].key, 256)
             && (NamesSecret(ops, ops.scrub(entries[i].key)) || Fits(ops, entries[i].value, maxBytes, levels - 1))
       case Sequence(items) =>
         |items| <= 200 && forall i :: 0 <= i < |items| ==> Fits(ops, items[i], maxBytes, levels - 1)
       case Text(s) => FitsIn(ops, s, maxBytes)
       case Other(repr) => FitsIn(ops, repr, maxBytes)
       case _ => true
  }

  /** The same tree with its texts scrubbed, and the mark exactly under the keys that name a secret. */
  ghost predicate KeptAs(ops: TextOps, d: Data, r: Data)
    decreases d
  {
    match d
    case Mapping(entries) =>
      && r.Mapping? && |r.entries| == |entries|
      && forall i :: 0 <= i < |entries| ==> EntryKeptAs(ops, entries[i], r.entries[i])
    case Sequence(items) =>
      r.Sequence? && |r.items| == |items| && forall i :: 0 <= i < |items| ==> KeptAs(ops, items[i], r.items[i])
    case Text(s) => r == Text(ops.scrub(s))
    case Other(repr) => r == Text(ops.scrub(repr))
    case _ => r == d
  }

  ghost predicate EntryKeptAs(ops: TextOps, e: Entry, r: Entry)
    decreases e
  {
    && r.key == ops.scrub(e.key)
    && (if NamesSecret(ops, r.key) then r.value == Text("***REDACTED***") else KeptAs(ops, e.value, r.value))
  }

  lemma {:induction false} PutNew(es: seq<Entry>, e: Entry)
    requires forall i :: 0 <= i < |es| ==> es[i].key != e.key
    ensures Put(es, e) == es + [e]
  {
    if es != [] {
      PutNew(es[1..], e);
      assert es == [es[0]] + es[1..];
    }
  }

  lemma {:induction false} FittingText(ops: TextOps, s: string, maxBytes: nat)
    requires FitsIn(ops, s, maxBytes)
    ensures SanitizeText(ops, s, maxBytes) == ops.scrub(s)
  {
    hide Encode;
  }

  lemma {:induction false} EntriesKept(ops: TextOps, es: seq<Entry>, n: nat, maxBytes: nat, depth: nat)
    requires n <= |es| && depth <= 8 && Fits(ops, Mapping(es), maxBytes, 9 - depth)
    ensures var r := SanitizedEntries(ops, es, n, maxBytes, depth);
            |r| == n && forall i :: 0 <= i < n ==> EntryKeptAs(ops, es[i], r[i])
    decreases es, 0, n
  {
    hide NamesSecret, Sensitive, SanitizeText, FitsIn, KeptAs;
    if n > 0 {
      EntriesKept(ops, es, n - 1, maxBytes, depth);
      var before := SanitizedEntries(ops, es, n - 1, maxBytes, depth);
      var e := SanitizedEntry(ops, es[n - 1], maxBytes, depth);
      EntryKept(ops, es[n - 1], maxBytes, depth);
      forall i | 0 <= i < |before|
        ensures before[i].key != e.key
      {
        assert EntryKeptAs(ops, es[i], before[i]);
      }
      hide EntryKeptAs, Fits;
      PutNew(before, e);
    }
  }

  lemma {:induction false} EntryKept(ops: TextOps, e: Entry, maxBytes: nat, depth: nat)
    requires depth <= 8 && FitsIn(ops, e.key, 256)
    requires NamesSecret(ops, ops.scrub(e.key)) || Fits(ops, e.value, maxBytes, 8 - depth)
    ensures EntryKeptAs(ops, e, SanitizedEntry(ops, e, maxBytes, depth))
    decreases e, 1
  {
    hide NamesSecret, Sensitive, SanitizeText, FitsIn, Sanitized, KeptAs, Fits;
    FittingText(ops, e.key, 256);
    SensitiveExactly(ops, ops.scrub(e.key));
    if !NamesSecret(ops, ops.scrub(e.key)) {
      FittingIsKept(ops, e.value, maxBytes, depth + 1);
    }
  }

  /** Whatever fits at its depth is kept, secrets apart. */
  lemma {:induction false} FittingIsKept(ops: TextOps, d: Data, maxBytes: nat, depth: nat)
    requires depth <= 9 && Fits(ops, d, maxBytes, 9 - depth)
    ensures KeptAs(ops, d, Sanitized(ops, d, maxBytes, depth))
    decreases d, 1
  {
    hide NamesSecret, Sensitive, SanitizeText, FitsIn, EntryKeptAs;
    match d {
      case Mapping(entries) => EntriesKept(ops, entries, |entries|, maxBytes, depth);
      case Sequence(items) =>
        forall i | 0 <= i < |items|
          ensures KeptAs(ops, items[i], SanitizedItems(ops, items, |items|, maxBytes, depth)[i])
        {
          FittingIsKept(ops, items[i], maxBytes, depth + 1);
        }
      case Text(s) => FittingText(ops, s, maxBytes);
      case Other(repr) => FittingText(ops, repr, maxBytes);
      case _ =>
    }
  }

  // ---------- what is cut ----------

  lemma {:induction false} PutPuts(es: seq<Entry>, e: Entry)
    ensures e in Put(es, e)
  {
    if es != [] && es[0].key != e.key {
      PutPuts(es[1..], e);
    }
  }

  /** Of a long list the first 200 items are left, each sanitized; a long dict is marked; what is too deep is gone. */
  lemma {:induction false} CutIsMarked(ops: TextOps, d: Data, maxBytes: nat, depth: nat)
    ensures depth > 8 ==> Sanitized(ops, d, maxBytes, depth) == Text("[TRUNCATED_DEPTH]")
    ensures depth <= 8 && d.Sequence? && |d.items| >= 200 ==>
      && Sanitized(ops, d, maxBytes, depth).Sequence? && |Sanitized(ops, d, maxBytes, depth).items| == 200
      && forall i :: 0 <= i < 200 ==>
          Sanitized(ops, d, maxBytes, depth).items[i] == Sanitized(ops, d.items[i], maxBytes, depth + 1)
    ensures depth <= 8 && d.Mapping? && |d.entries| > 200 ==>
      && Sanitized(ops, d, maxBytes, depth).Mapping?
      && Entry("_truncated", Flag(true)) in Sanitized(ops, d, maxBytes, depth).entries
  {
    hide Sensitive, SanitizeText;
    if depth <= 8 && d.Mapping? && |d.entries| > 200 {
      PutPuts(SanitizedEntries(ops, d.entries, 200, maxBytes, depth), TruncatedEntry());
    }
  }
}
