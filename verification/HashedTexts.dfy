/** The very texts that are hashed and signed, written out: what `json.dumps` makes of flat dicts with known keys. */
module HashedTexts {
  import opened Wrappers
  import opened Json
  import opened JsonProofs
  import opened Utf8
  import opened Timestamps
  import opened Tokens
  import opened Audit
  import Rules = CleanupRules
  import Text

  // ---------- the text of a flat dict ----------

  /** `",".join(parts)` */
  function Commas(parts: seq<string>): string {
    if parts == [] then "" else if |parts| == 1 then parts[0] else parts[0] + ("," + Commas(parts[1..]))
  }

  /** No character needs an escape. */
  predicate Verbatim(s: string) {
    forall i :: 0 <= i < |s| ==> ' ' <= s[i] <= '~' && s[i] != '\"' && s[i] != '\\'
  }

  lemma {:induction false} EscapedVerbatim(s: string, ascii: bool)
    requires Verbatim(s)
    ensures Escape(s, ascii) == s
  {
    if s != "" {
      assert ' ' <= s[0] <= '~' && s[0] != '\"' && s[0] != '\\';
      assert forall i :: 0 <= i < |s[1..]| ==> s[1..][i] == s[i + 1];
      EscapedVerbatim(s[1..], ascii);
      assert EscapeChar(s[0], ascii) == [s[0]];
    }
  }

  function Entry(key: string, text: string): string {
    ("\"" + (key + "\"")) + (":" + text)
  }

  /** The entries of the dict, each with the text of its value. */
  ghost predicate Prints(fs: seq<Field>, ascii: bool, parts: seq<string>) {
    && |fs| == |parts|
    && forall i :: 0 <= i < |fs| ==> Verbatim(fs[i].key) && parts[i] == Entry(fs[i].key, Print(fs[i].value, ascii))
  }

  lemma {:induction false} Associates(a: string, b: string, c: string)
    ensures (a + b) + c == a + (b + c)
  {
  }

  lemma {:induction false} PrintedEntry(f: Field, ascii: bool, more: string)
    requires Verbatim(f.key)
    ensures Quote(f.key, ascii) + (":" + (Print(f.value, ascii) + more))
            == Entry(f.key, Print(f.value, ascii)) + more
  {
    EscapedVerbatim(f.key, ascii);
    hide Escape, Print;
    Associates(":", Print(f.value, ascii), more);
    Associates("\"" + (f.key + "\""), ":" + Print(f.value, ascii), more);
  }

  lemma {:induction false} PrintedFields(fs: seq<Field>, ascii: bool, parts: seq<string>)
    requires fs != [] && Prints(fs, ascii, parts)
    ensures PrintFields(fs, ascii) == Commas(parts) + "}"
  {
    hide Verbatim, Print, Entry, Quote;
    if |fs| == 1 {
      PrintedEntry(fs[0], ascii, "}");
    } else {
      assert forall i :: 0 <= i < |fs[1..]| ==> fs[1..][i] == fs[i + 1] && parts[1..][i] == parts[i + 1];
      PrintedFields(fs[1..], ascii, parts[1..]);
      PrintedEntry(fs[0], ascii, "," + PrintFields(fs[1..], ascii));
      Associates(",", Commas(parts[1..]), "}");
      Associates(parts[0], "," + Commas(parts[1..]), "}");
    }
  }

  predicate Scalar(v: Value) {
    v.Null? || v.Num? || v.Str?
  }

  ghost predicate AllScalar(fs: seq<Field>) {
    forall i :: 0 <= i < |fs| ==> Scalar(fs[i].value)
  }

  /** A flat dict is printed with its entries in the order of their keys, in whatever order it holds them. */
  lemma {:induction false} FlatDict(fs: seq<Field>, sorted: seq<Field>, ascii: bool, parts: seq<string>)
    requires DistinctKeys(fs) && AllScalar(fs) && SameElements(fs, sorted) && Sorted(sorted) && sorted != []
    requires Prints(sorted, ascii, parts)
    ensures Dumps(Obj(fs), ascii) == "{" + (Commas(parts) + "}")
  {
    hide Print, Verbatim, Sort;
    assert SortFields(fs) == fs;
    SortSorts(fs);
    SortedIsUnique(Sort(fs), sorted);
    PrintedFields(sorted, ascii, parts);
    PrintedObject(sorted, ascii);
  }

  lemma {:induction false} PrintedObject(fs: seq<Field>, ascii: bool)
    requires fs != []
    ensures Print(Obj(fs), ascii) == "{" + PrintFields(fs, ascii)
  {
  }

  lemma {:induction false} LessAfter(prefix: string, a: string, b: string)
    requires Text.Less(a, b)
    ensures Text.Less(prefix + a, prefix + b)
  {
    if prefix == "" {
      assert prefix + a == a && prefix + b == b;
    } else {
      assert (prefix + a)[1..] == prefix[1..] + a && (prefix + b)[1..] == prefix[1..] + b;
      LessAfter(prefix[1..], a, b);
    }
  }

  /** Neighbours in order are enough. */
  lemma {:induction false} SortedByNeighbours(fs: seq<Field>)
    requires forall i :: 0 <= i < |fs| - 1 ==> Text.Less(fs[i].key, fs[i + 1].key)
    ensures Sorted(fs)
  {
    forall i, j | 0 <= i < j < |fs|
      ensures Text.Less(fs[i].key, fs[j].key)
    {
      LessByNeighbours(fs, i, j);
    }
  }

  lemma {:induction false} LessByNeighbours(fs: seq<Field>, i: nat, j: nat)
    requires forall k :: 0 <= k < |fs| - 1 ==> Text.Less(fs[k].key, fs[k + 1].key)
    requires i < j < |fs|
    ensures Text.Less(fs[i].key, fs[j].key)
  {
    if i + 1 < j {
      LessByNeighbours(fs, i, j - 1);
      Text.LessIsTransitive(fs[i].key, fs[j - 1].key, fs[j].key);
    }
  }

  lemma {:induction false} LessAtFirst(a: string, b: string)
    requires a != "" && b != "" && a[0] < b[0]
    ensures Text.Less(a, b)
  {
  }

  // ---------- an audit event ----------

  function QuotedOrNull(s: Option<string>): string {
    match s
    case None => "null"
    case Some(t) => Quote(t, false)
  }

  lemma {:induction false} MaterialKeysInOrder()
    ensures Text.Less("actor_id", "created_at") && Text.Less("created_at", "event_id")
    ensures Text.Less("event_id", "event_type") && Text.Less("event_type", "payload_json")
    ensures Text.Less("payload_json", "previous_hash") && Text.Less("previous_hash", "task_id")
  {
    hide Text.Less;
    LessAtFirst("actor_id", "created_at");
    LessAtFirst("created_at", "event_id");
    LessAtFirst("id", "type");
    LessAfter("event_", "id", "type");
    assert "event_" + "id" == "event_id" && "event_" + "type" == "event_type";
    LessAtFirst("event_type", "payload_json");
    LessAtFirst("ayload_json", "revious_hash");
    LessAfter("p", "ayload_json", "revious_hash");
    assert "p" + "ayload_json" == "payload_json" && "p" + "revious_hash" == "previous_hash";
    LessAtFirst("previous_hash", "task_id");
  }

  lemma {:induction false} MaterialSorted(e: AuditEvent, previous: string)
    ensures Sorted(MaterialFields(e, previous))
  {
    hide Text.Less, IsoText, Sorted;
    MaterialKeysInOrder();
    SortedByNeighbours(MaterialFields(e, previous));
  }

  function MaterialParts(e: AuditEvent, previous: string): seq<string> {
    [Entry("actor_id", QuotedOrNull(e.actorId)), Entry("created_at", Quote(IsoText(e.createdAt), false)),
     Entry("event_id", Quote(e.id, false)), Entry("event_type", Quote(e.eventType, false)),
     Entry("payload_json", Quote(e.payloadJson, false)), Entry("previous_hash", Quote(previous, false)),
     Entry("task_id", QuotedOrNull(e.taskId))]
  }

  lemma {:induction false} MaterialKeysVerbatim()
    ensures Verbatim("actor_id") && Verbatim("created_at") && Verbatim("event_id") && Verbatim("event_type")
    ensures Verbatim("payload_json") && Verbatim("previous_hash") && Verbatim("task_id")
  {
  }

  lemma {:induction false} OptionalPrints(s: Option<string>)
    ensures Print(Optional(s), false) == QuotedOrNull(s)
  {
    hide Quote;
  }

  lemma {:induction false} MaterialPrints(e: AuditEvent, previous: string)
    ensures Prints(MaterialFields(e, previous), false, MaterialParts(e, previous))
  {
    hide Quote, IsoText, Entry, Verbatim, Optional, QuotedOrNull;
    MaterialKeysVerbatim();
    OptionalPrints(e.actorId);
    OptionalPrints(e.taskId);
  }

  /** The text that is hashed for an event. */
  lemma {:induction false} MaterialText(e: AuditEvent, previous: string)
    ensures Canonical(Obj(MaterialFields(e, previous))) == "{" + (Commas(MaterialParts(e, previous)) + "}")
  {
    var fs := MaterialFields(e, previous);
    MaterialSorted(e, previous);
    SortedIsDistinct(fs);
    MaterialPrints(e, previous);
    assert AllScalar(fs);
    hide MaterialFields;
    hide Quote, IsoText, Sorted, DistinctKeys, Entry, Prints, MaterialParts;
    FlatDict(fs, fs, false, MaterialParts(e, previous));
  }

  // ---------- a token ----------

  function SortedClaims(c: Claims): seq<Field> {
    [Field("arguments_hash", Str(c.argumentsHash)), Field("expires_at", Num(c.expiresAt)), Field("nonce", Str(c.nonce)),
     Field("risk_level", Str(c.riskLevel)), Field("task_id", Str(c.taskId)), Field("tool_name", Str(c.toolName)),
     Field("user_id", Str(c.userId))]
  }

  lemma {:induction false} ClaimsSorted(c: Claims)
    ensures Sorted(SortedClaims(c))
  {
    hide Text.Less, Sorted;
    ClaimKeysInOrder();
    SortedByNeighbours(SortedClaims(c));
  }

  lemma {:induction false} ClaimKeysInOrder()
    ensures Text.Less("arguments_hash", "expires_at") && Text.Less("expires_at", "nonce")
    ensures Text.Less("nonce", "risk_level") && Text.Less("risk_level", "task_id")
    ensures Text.Less("task_id", "tool_name") && Text.Less("tool_name", "user_id")
  {
    hide Text.Less;
    LessAtFirst("arguments_hash", "expires_at");
    LessAtFirst("expires_at", "nonce");
    LessAtFirst("nonce", "risk_level");
    LessAtFirst("risk_level", "task_id");
    LessAtFirst("ask_id", "ool_name");
    LessAfter("t", "ask_id", "ool_name");
    assert "t" + "ask_id" == "task_id" && "t" + "ool_name" == "tool_name";
    LessAtFirst("tool_name", "user_id");
  }

  function ClaimParts(c: Claims): seq<string> {
    [Entry("arguments_hash", Quote(c.argumentsHash, true)), Entry("expires_at", Text.IntText(c.expiresAt)),
     Entry("nonce", Quote(c.nonce, true)), Entry("risk_level", Quote(c.riskLevel, true)),
     Entry("task_id", Quote(c.taskId, true)), Entry("tool_name", Quote(c.toolName, true)),
     Entry("user_id", Quote(c.userId, true))]
  }

  lemma {:induction false} ClaimKeysVerbatim()
    ensures Verbatim("arguments_hash") && Verbatim("expires_at") && Verbatim("nonce") && Verbatim("risk_level")
    ensures Verbatim("task_id") && Verbatim("tool_name") && Verbatim("user_id")
  {
  }

  lemma {:induction false} ClaimsPrint(c: Claims)
    ensures Prints(SortedClaims(c), true, ClaimParts(c))
  {
    hide Quote, Entry, Verbatim, Text.IntText;
    ClaimKeysVerbatim();
  }

  lemma {:induction false} ClaimsSame(c: Claims)
    ensures SameElements(ClaimsFields(c), SortedClaims(c)) && AllScalar(ClaimsFields(c))
  {
  }

  /** The token: the claims as JSON in ASCII, a dot, and the signature of that text. */
  lemma {:induction false} TokenIs(mac: Mac, secret: seq<byte>, c: Claims)
    ensures var payload := "{" + (Commas(ClaimParts(c)) + "}");
            TokenText(mac, secret, c) == payload + ("." + mac(secret, Encode(payload)))
  {
    ClaimsFieldsDistinct(c);
    ClaimsSame(c);
    ClaimsSorted(c);
    ClaimsPrint(c);
    hide Sorted, DistinctKeys, SameElements, Prints, ClaimsFields, ClaimParts, Commas, Encode, Dumps;
    FlatDict(ClaimsFields(c), SortedClaims(c), true, ClaimParts(c));
  }

  // ---------- a snapshot ----------

  function SortedSnapshot(path: string, meta: Rules.Metadata): seq<Field> {
    [Field("device", Num(meta.device)), Field("inode", Num(meta.inode)), Field("mtime_ns", Num(meta.mtimeNs)),
     Field("path", Str(path)), Field("size", Num(meta.size))]
  }

  lemma {:induction false} SnapshotKeysInOrder()
    ensures Text.Less("device", "inode") && Text.Less("inode", "mtime_ns")
    ensures Text.Less("mtime_ns", "path") && Text.Less("path", "size")
  {
    hide Text.Less;
    LessAtFirst("device", "inode");
    LessAtFirst("inode", "mtime_ns");
    LessAtFirst("mtime_ns", "path");
    LessAtFirst("path", "size");
  }

  lemma {:induction false} SnapshotSorted(path: string, meta: Rules.Metadata)
    ensures Sorted(SortedSnapshot(path, meta))
  {
    hide Text.Less, Sorted;
    SnapshotKeysInOrder();
    SortedByNeighbours(SortedSnapshot(path, meta));
  }

  function SnapshotParts(path: string, meta: Rules.Metadata): seq<string> {
    [Entry("device", Text.IntText(meta.device)), Entry("inode", Text.IntText(meta.inode)),
     Entry("mtime_ns", Text.IntText(meta.mtimeNs)), Entry("path", Quote(path, false)),
     Entry("size", Text.IntText(meta.size))]
  }

  lemma {:induction false} SnapshotKeysVerbatim()
    ensures Verbatim("device") && Verbatim("inode") && Verbatim("mtime_ns") && Verbatim("path") && Verbatim("size")
  {
  }

  lemma {:induction false} SnapshotPrints(path: string, meta: Rules.Metadata)
    ensures Prints(SortedSnapshot(path, meta), false, SnapshotParts(path, meta))
  {
    hide Quote, Entry, Verbatim, Text.IntText;
    SnapshotKeysVerbatim();
  }

  lemma {:induction false} SnapshotSame(path: string, meta: Rules.Metadata)
    ensures SameElements(Rules.SnapshotFields(path, meta), SortedSnapshot(path, meta))
    ensures AllScalar(Rules.SnapshotFields(path, meta)) && DistinctKeys(Rules.SnapshotFields(path, meta))
  {
    Rules.SnapshotUnique(path, meta);
  }

  /** What a candidate freezes: the hash of path, size, modification time, inode and device, each under its name. */
  lemma {:induction false} SnapshotIs(sha: Sha, path: string, meta: Rules.Metadata)
    ensures Rules.SnapshotHash(sha, path, meta) == sha(Encode("{" + (Commas(SnapshotParts(path, meta)) + "}")))
  {
    SnapshotSame(path, meta);
    SnapshotSorted(path, meta);
    SnapshotPrints(path, meta);
    hide Sorted, DistinctKeys, SameElements, Prints, Rules.SnapshotFields, SnapshotParts, Commas, Encode, Dumps;
    FlatDict(Rules.SnapshotFields(path, meta), SortedSnapshot(path, meta), false, SnapshotParts(path, meta));
  }

  // ---------- escapes ----------

  const HEX_DIGITS := "0123456789abcdef"

  lemma {:induction false} HexDigitIs(d: nat)
    requires d < 16
    ensures Text.HexChar(d) == HEX_DIGITS[d]
  {
    assert d < 10 ==> HEX_DIGITS[d] as int == '0' as int + d;
    assert d >= 10 ==> HEX_DIGITS[d] as int == 'a' as int + (d - 10);
  }

  /** A control character is escaped with four hexadecimal digits, the letters small, unless it has a short escape. */
  lemma {:induction false} ControlEscape(c: char, ascii: bool)
    requires c < ' ' && c !in "\n\r\t" && c != 8 as char && c != 12 as char
    ensures EscapeChar(c, ascii) == "\\u00" + [HEX_DIGITS[c as int / 16], HEX_DIGITS[c as int % 16]]
  {
    HexDigitIs(0);
    HexDigitIs(c as int / 16);
    HexDigitIs(c as int % 16);
    hide Text.HexChar;
    assert Text.Hex4(c as int) == ['0', '0', HEX_DIGITS[c as int / 16], HEX_DIGITS[c as int % 16]];
  }
}
