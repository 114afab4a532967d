/**
 Python's `json.dumps(..., sort_keys=True, separators=(",", ":"))` and `json.loads` on float-free values.
 Every hash the system compares is taken over this text, so its meaning rests on the printer being injective.
 Strings follow section 7 of RFC 8259.
 */
module Json {
  import opened Wrappers
  import opened Text

  /** A dict is the list of its entries in insertion order; `Unique` says that keys do not repeat. */
  datatype Value =
    | Null
    | Bool(b: bool)
    | Num(n: int)
    | Str(s: string)
    | Arr(items: seq<Value>)
    | Obj(fields: seq<Field>)

  datatype Field = Field(key: string, value: Value)

  ghost predicate DistinctKeys(fs: seq<Field>) {
    forall i, j :: 0 <= i < j < |fs| ==> fs[i].key != fs[j].key
  }

  ghost predicate Unique(v: Value) {
    match v
    case Arr(items) => forall i :: 0 <= i < |items| ==> Unique(items[i])
    case Obj(fields) => DistinctKeys(fields) && forall i :: 0 <= i < |fields| ==> Unique(fields[i].value)
    case _ => true
  }

  ghost predicate HasKey(fs: seq<Field>, key: string) {
    exists i :: 0 <= i < |fs| && fs[i].key == key
  }

  ghost predicate KeysIn(f: seq<Field>, g: seq<Field>) {
    forall i :: 0 <= i < |f| ==> HasKey(g, f[i].key)
  }

  /** The same value up to the order of dict entries: Python's `==`, except that it also holds `True == 1`. */
  ghost predicate SameValue(v: Value, w: Value)
    decreases v
  {
    match v
    case Arr(a) =>
      w.Arr? && |a| == |w.items| && forall i :: 0 <= i < |a| ==> SameValue(a[i], w.items[i])
    case Obj(f) =>
      && w.Obj?
      && KeysIn(f, w.fields)
      && KeysIn(w.fields, f)
      && forall i, j :: 0 <= i < |f| && 0 <= j < |w.fields| && f[i].key == w.fields[j].key ==>
          SameValue(f[i].value, w.fields[j].value)
    case _ => v == w
  }

  // ---------- the printer ----------

  function EscapeChar(c: char, ascii: bool): (t: string)
    ensures 1 <= |t| <= 12
  {
    if c == '\"' then "\\\""
    else if c == '\\' then "\\\\"
    else if c == '\n' then "\\n"
    else if c == '\r' then "\\r"
    else if c == '\t' then "\\t"
    else if c == 8 as char then "\\b"
    else if c == 12 as char then "\\f"
    else if c < ' ' then "\\u" + Hex4(c as int)
    else if !ascii || c <= '~' then [c]
    else if c as int < 0x10000 then "\\u" + Hex4(c as int)
    else
      var m := c as int - 0x10000;
      ("\\u" + Hex4(0xD800 + m / 0x400)) + ("\\u" + Hex4(0xDC00 + m % 0x400))
  }

  function Escape(s: string, ascii: bool): string {
    if s == "" then "" else EscapeChar(s[0], ascii) + Escape(s[1..], ascii)
  }

  function Quote(s: string, ascii: bool): string {
    "\"" + (Escape(s, ascii) + "\"")
  }

  function Print(v: Value, ascii: bool): (t: string)
    decreases v, 1
  {
    match v
    case Null => "null"
    case Bool(b) => if b then "true" else "false"
    case Num(n) => IntText(n)
    case Str(s) => Quote(s, ascii)
    case Arr(items) => if items == [] then "[]" else "[" + PrintItems(items, ascii)
    case Obj(fields) => if fields == [] then "{}" else "{" + PrintFields(fields, ascii)
  }

  /** The items and the closing bracket. */
  function PrintItems(items: seq<Value>, ascii: bool): string
    requires items != []
    decreases items, 0
  {
    Print(items[0], ascii) + if |items| == 1 then "]" else "," + PrintItems(items[1..], ascii)
  }

  /** The entries and the closing brace. */
  function PrintFields(fs: seq<Field>, ascii: bool): string
    requires fs != []
    decreases fs, 0
  {
    Quote(fs[0].key, ascii)
    + (":" + (Print(fs[0].value, ascii) + if |fs| == 1 then "}" else "," + PrintFields(fs[1..], ascii)))
  }

  // ---------- sort_keys ----------

  function Insert(f: Field, fs: seq<Field>): seq<Field> {
    if fs == [] then [f]
    else if Less(f.key, fs[0].key) then [f] + fs
    else [fs[0]] + Insert(f, fs[1..])
  }

  function Sort(fs: seq<Field>): seq<Field> {
    if fs == [] then [] else Insert(fs[0], Sort(fs[1..]))
  }

  function SortKeys(v: Value): (r: Value)
    decreases v, 1
  {
    match v
    case Arr(items) => Arr(SortItems(items))
    case Obj(fields) => Obj(Sort(SortFields(fields)))
    case _ => v
  }

  function SortItems(items: seq<Value>): (r: seq<Value>)
    ensures |r| == |items| && forall i :: 0 <= i < |items| ==> r[i] == SortKeys(items[i])
    decreases items, 0
  {
    if items == [] then [] else [SortKeys(items[0])] + SortItems(items[1..])
  }

  function SortFields(fs: seq<Field>): (r: seq<Field>)
    ensures |r| == |fs|
    ensures forall i :: 0 <= i < |fs| ==> r[i] == Field(fs[i].key, SortKeys(fs[i].value))
    decreases fs, 0
  {
    if fs == [] then [] else [Field(fs[0].key, SortKeys(fs[0].value))] + SortFields(fs[1..])
  }

  /** `json.dumps(v, ensure_ascii=ascii, sort_keys=True, separators=(",", ":"))` */
  function Dumps(v: Value, ascii: bool): string {
    Print(SortKeys(v), ascii)
  }

  /** `canonical_arguments`, and the broker's own copy of it. */
  function Canonical(v: Value): string {
    Dumps(v, false)
  }

  // ---------- the parser ----------

  function SkipSpace(s: string): (r: string)
    ensures |r| <= |s|
  {
    if s != "" && (s[0] == ' ' || s[0] == '\t' || s[0] == '\n' || s[0] == '\r') then SkipSpace(s[1..]) else s
  }

  /** What follows `\u`. A lone surrogate is no scalar value and is refused here. */
  function ScanUnicode(s: string): (r: Option<(char, string)>)
    ensures r.Some? ==> |r.value.1| < |s|
  {
    if !IsHex4(s) then None
    else
      var n := Hex4Value(s);
      if n < 0xD800 || 0xE000 <= n then Some((n as char, s[4..]))
      else if n < 0xDC00 && |s| >= 10 && s[4] == '\\' && s[5] == 'u' && IsHex4(s[6..])
              && 0xDC00 <= Hex4Value(s[6..]) < 0xE000 then
        Some(((0x10000 + (n - 0xD800) * 0x400 + (Hex4Value(s[6..]) - 0xDC00)) as char, s[10..]))
      else None
  }

  /** What follows a backslash. */
  function ScanEscape(s: string): (r: Option<(char, string)>)
    ensures r.Some? ==> |r.value.1| < |s|
  {
    if s == "" then None
    else
      match s[0]
      case '\"' => Some(('\"', s[1..]))
      case '\\' => Some(('\\', s[1..]))
      case '/' => Some(('/', s[1..]))
      case 'n' => Some(('\n', s[1..]))
      case 'r' => Some(('\r', s[1..]))
      case 't' => Some(('\t', s[1..]))
      case 'b' => Some((8 as char, s[1..]))
      case 'f' => Some((12 as char, s[1..]))
      case 'u' => ScanUnicode(s[1..])
      case _ => None
  }

  /** The rest of a string whose opening quote has been read. */
  function ScanString(s: string): (r: Option<(string, string)>)
    ensures r.Some? ==> |r.value.1| < |s|
  {
    if s == "" then None
    else if s[0] == '\"' then Some(("", s[1..]))
    else if s[0] == '\\' then
      var (c, rest) :- ScanEscape(s[1..]);
      var (tail, end) :- ScanString(rest);
      Some(([c] + tail, end))
    else if s[0] < ' ' then None
    else
      var (tail, end) :- ScanString(s[1..]);
      Some(([s[0]] + tail, end))
  }

  /** An int literal; a fraction or an exponent makes it a float, which is no value of this model. */
  function ScanNumber(s: string): (r: Option<(int, string)>)
    ensures r.Some? ==> |r.value.1| < |s|
  {
    if s == "" then None
    else if s[0] == '-' then
      var (n: int, rest) :- ScanNatural(s[1..]);
      Some((-n, rest))
    else
      ScanNatural(s)
  }

  function ScanNatural(s: string): (r: Option<(nat, string)>)
    ensures r.Some? ==> |r.value.1| < |s|
  {
    if s == "" || !IsDigit(s[0]) then None
    else
      var (ds, rest) := if s[0] == '0' then ("0", s[1..]) else SpanDigits(s);
      if rest != "" && (rest[0] == '.' || rest[0] == 'e' || rest[0] == 'E') then None
      else Some((DigitsValue(ds), rest))
  }

  function ParseValue(s: string): (r: Option<(Value, string)>)
    ensures r.Some? ==> |r.value.1| < |s|
    decreases |s|, 0
  {
    if s == "" then None
    else if s[0] == '\"' then
      var (t, rest) :- ScanString(s[1..]);
      Some((Str(t), rest))
    else if s[0] == '{' then ParseObject(s[1..])
    else if s[0] == '[' then ParseArray(s[1..])
    else if "null" <= s then Some((Null, s[4..]))
    else if "true" <= s then Some((Bool(true), s[4..]))
    else if "false" <= s then Some((Bool(false), s[5..]))
    else
      var (n, rest) :- ScanNumber(s);
      Some((Num(n), rest))
  }

  function ParseArray(s: string): (r: Option<(Value, string)>)
    ensures r.Some? ==> |r.value.1| < |s|
    decreases |s|, 2
  {
    var s1 := SkipSpace(s);
    if s1 == "" then None
    else if s1[0] == ']' then Some((Arr([]), s1[1..]))
    else
      var (items, rest) :- ParseItems(s1);
      Some((Arr(items), rest))
  }

  function ParseItems(s: string): (r: Option<(seq<Value>, string)>)
    ensures r.Some? ==> |r.value.1| < |s|
    decreases |s|, 1
  {
    if s == "" then None
    else
      var (v, s1) :- ParseValue(s);
      var s2 := SkipSpace(s1);
      if s2 == "" then None
      else if s2[0] == ']' then Some(([v], s2[1..]))
      else if s2[0] == ',' then
        var (items, rest) :- ParseItems(SkipSpace(s2[1..]));
        Some(([v] + items, rest))
      else None
  }

  function ParseObject(s: string): (r: Option<(Value, string)>)
    ensures r.Some? ==> |r.value.1| < |s|
    decreases |s|, 2
  {
    var s1 := SkipSpace(s);
    if s1 == "" then None
    else if s1[0] == '}' then Some((Obj([]), s1[1..]))
    else if s1[0] != '\"' then None
    else
      var (fs, rest) :- ParseMembers(s1[1..]);
      Some((Obj(DictOf(fs)), rest))
  }

  /** The entries of an object whose first key's opening quote has been read. */
  function ParseMembers(s: string): (r: Option<(seq<Field>, string)>)
    ensures r.Some? ==> |r.value.1| < |s|
    decreases |s|, 0
  {
    var (key, s1) :- ScanString(s);
    var s2 := SkipSpace(s1);
    if s2 == "" || s2[0] != ':' then None
    else
      var (v, s3) :- ParseValue(SkipSpace(s2[1..]));
      var s4 := SkipSpace(s3);
      if s4 == "" then None
      else if s4[0] == '}' then Some(([Field(key, v)], s4[1..]))
      else if s4[0] == ',' then
        var s5 := SkipSpace(s4[1..]);
        if s5 == "" || s5[0] != '\"' then None
        else
          var (fs, rest) :- ParseMembers(s5[1..]);
          Some(([Field(key, v)] + fs, rest))
      else None
  }

  /** `dict(pairs)`: a repeated key keeps its first place and takes its last value. */
  function DictOf(fs: seq<Field>): seq<Field> {
    if fs == [] then [] else Put(DictOf(fs[..|fs| - 1]), fs[|fs| - 1])
  }

  function Put(fs: seq<Field>, f: Field): seq<Field> {
    if fs == [] then [f]
    else if fs[0].key == f.key then [f] + fs[1..]
    else [fs[0]] + Put(fs[1..], f)
  }

  function Loads(s: string): Option<Value> {
    var (v, rest) :- ParseValue(SkipSpace(s));
    if SkipSpace(rest) == "" then Some(v) else None
  }
}
