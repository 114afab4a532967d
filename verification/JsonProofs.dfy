/** `Loads` undoes `Dumps`, and canonical text is equal exactly for equal values. */
module JsonProofs {
  import opened Wrappers
  import opened Text
  import opened Json

  // ---------- strings ----------

  lemma {:induction false} ScanBasicUnicode(n: nat, rest: string)
    requires n < 0xD800 || 0xE000 <= n < 0x10000
    ensures ScanUnicode(Hex4(n) + rest) == Some((n as char, rest))
  {
    Hex4RoundTrip(n);
    var s := Hex4(n) + rest;
    assert s[..4] == Hex4(n) && s[4..] == rest;
  }

  lemma {:induction false} ScanSurrogatePair(m: nat, rest: string)
    requires m < 0x100000
    ensures ScanUnicode(Hex4(0xD800 + m / 0x400) + ("\\u" + Hex4(0xDC00 + m % 0x400)) + rest)
            == Some(((0x10000 + m) as char, rest))
  {
    var hi, lo := 0xD800 + m / 0x400, 0xDC00 + m % 0x400;
    Hex4RoundTrip(hi);
    Hex4RoundTrip(lo);
    var s := Hex4(hi) + ("\\u" + Hex4(lo)) + rest;
    assert s[6..] == Hex4(lo) + rest && s[10..] == rest;
    assert s[4] == '\\' && s[5] == 'u';
    assert m == m / 0x400 * 0x400 + m % 0x400;
  }

  lemma {:induction false} ScanEscapedChar(c: char, ascii: bool, rest: string, tail: string, end: string)
    requires ScanString(rest) == Some((tail, end))
    ensures ScanString(EscapeChar(c, ascii) + rest) == Some(([c] + tail, end))
  {
    hide Hex4, Hex4Value, IsHex4;
    var t := EscapeChar(c, ascii);
    var s := t + rest;
    if |t| == 1 {
      assert s[1..] == rest;
    } else if |t| == 2 {
      assert s[1..][1..] == rest;
    } else if |t| == 6 {
      assert s[1..][1..] == Hex4(c as int) + rest;
      ScanBasicUnicode(c as int, rest);
    } else {
      var m := c as int - 0x10000;
      assert s[1..][1..] == Hex4(0xD800 + m / 0x400) + ("\\u" + Hex4(0xDC00 + m % 0x400)) + rest;
      ScanSurrogatePair(m, rest);
    }
  }

  lemma {:induction false} ScanEscaped(s: string, ascii: bool, rest: string)
    ensures ScanString(Escape(s, ascii) + ("\"" + rest)) == Some((s, rest))
  {
    hide EscapeChar, ScanEscape, ScanUnicode;
    if s == "" {
      assert Escape(s, ascii) + ("\"" + rest) == "\"" + rest;
      assert ("\"" + rest)[1..] == rest;
    } else {
      ScanEscaped(s[1..], ascii, rest);
      var more := Escape(s[1..], ascii) + ("\"" + rest);
      assert Escape(s, ascii) + ("\"" + rest) == EscapeChar(s[0], ascii) + more;
      ScanEscapedChar(s[0], ascii, more, s[1..], rest);
      assert [s[0]] + s[1..] == s;
    }
  }

  lemma {:induction false} ScanQuoted(s: string, ascii: bool, rest: string)
    ensures |Quote(s, ascii)| >= 2 && Quote(s, ascii)[0] == '\"'
    ensures ScanString((Quote(s, ascii) + rest)[1..]) == Some((s, rest))
  {
    ScanEscaped(s, ascii, rest);
    assert (Quote(s, ascii) + rest)[1..] == Escape(s, ascii) + ("\"" + rest);
  }

  // ---------- numbers ----------

  /** What may follow a value inside canonical text. */
  predicate Stops(rest: string) {
    rest == "" || rest[0] == ',' || rest[0] == ']' || rest[0] == '}'
  }

  lemma {:induction false} ScanNaturalText(n: nat, rest: string)
    requires Stops(rest)
    ensures ScanNatural(Decimal(n) + rest) == Some((n, rest))
  {
    var ds := Decimal(n);
    DecimalRoundTrip(n);
    SpanDigitsStops(ds, rest);
    if ds[0] == '0' {
      assert ds == "0";
      assert (ds + rest)[1..] == rest;
    }
  }

  lemma {:induction false} ScanIntText(n: int, rest: string)
    requires Stops(rest)
    ensures ScanNumber(IntText(n) + rest) == Some((n, rest))
  {
    hide ScanNatural, Decimal, SpanDigits, DigitsValue;
    if n < 0 {
      ScanNaturalText(-n, rest);
      assert (IntText(n) + rest)[1..] == Decimal(-n) + rest;
    } else {
      ScanNaturalText(n, rest);
    }
  }

  // ---------- values ----------

  lemma {:induction false} PrintStart(v: Value, ascii: bool)
    ensures var t := Print(v, ascii);
            t != "" && t[0] != ' ' && t[0] != '\t' && t[0] != '\n' && t[0] != '\r' && t[0] != ']'
  {
  }

  lemma {:induction false} DictOfDistinct(fs: seq<Field>)
    requires DistinctKeys(fs)
    ensures DictOf(fs) == fs
  {
    if fs != [] {
      var init := fs[..|fs| - 1];
      DictOfDistinct(init);
      PutNew(init, fs[|fs| - 1]);
    }
  }

  lemma {:induction false} PutNew(fs: seq<Field>, f: Field)
    requires !HasKey(fs, f.key)
    ensures Put(fs, f) == fs + [f]
  {
    if fs != [] {
      assert fs[0].key != f.key;
      PutNew(fs[1..], f);
      assert [fs[0]] + (fs[1..] + [f]) == fs + [f];
    }
  }

  lemma {:induction false} ParsePrinted(v: Value, ascii: bool, rest: string)
    requires Unique(v) && Stops(rest)
    ensures ParseValue(Print(v, ascii) + rest) == Some((v, rest))
    decreases v, 1
  {
    match v {
      case Arr(items) =>
        if items == [] {
          ParseEmpty(v, ascii, rest);
        } else {
          ParsePrintedItems(items, ascii, rest);
          ParsePrintedArray(items, ascii, rest);
        }
      case Obj(fields) =>
        if fields == [] {
          ParseEmpty(v, ascii, rest);
        } else {
          ParsePrintedFields(fields, ascii, rest);
          ParsePrintedObject(fields, ascii, rest);
        }
      case _ => ParsePrintedScalar(v, ascii, rest);
    }
  }

  lemma {:induction false} ParsePrintedScalar(v: Value, ascii: bool, rest: string)
    requires !v.Arr? && !v.Obj? && Stops(rest)
    ensures ParseValue(Print(v, ascii) + rest) == Some((v, rest))
  {
    var s := Print(v, ascii) + rest;
    match v {
      case Null => assert s[4..] == rest && "null" <= s;
      case Bool(b) =>
        if b {
          assert s[4..] == rest && "true" <= s;
        } else {
          assert s[5..] == rest && "false" <= s;
        }
      case Num(n) => ParsePrintedInt(n, rest);
      case Str(t) => ScanQuoted(t, ascii, rest);
    }
  }

  lemma {:induction false} ParseEmpty(v: Value, ascii: bool, rest: string)
    requires v == Arr([]) || v == Obj([])
    ensures ParseValue(Print(v, ascii) + rest) == Some((v, rest))
  {
    var s := Print(v, ascii) + rest;
    assert s[1..][1..] == rest;
  }

  lemma {:induction false} ParsePrintedArray(items: seq<Value>, ascii: bool, rest: string)
    requires items != []
    requires ParseItems(PrintItems(items, ascii) + rest) == Some((items, rest))
    ensures ParseValue(Print(Arr(items), ascii) + rest) == Some((Arr(items), rest))
  {
    var body := PrintItems(items, ascii) + rest;
    assert (Print(Arr(items), ascii) + rest)[1..] == body;
    PrintStart(items[0], ascii);
    assert body[0] == Print(items[0], ascii)[0];
    assert SkipSpace(body) == body;
  }

  lemma {:induction false} ParsePrintedObject(fs: seq<Field>, ascii: bool, rest: string)
    requires fs != [] && DistinctKeys(fs)
    requires (PrintFields(fs, ascii) + rest)[0] == '\"'
    requires ParseMembers((PrintFields(fs, ascii) + rest)[1..]) == Some((fs, rest))
    ensures ParseValue(Print(Obj(fs), ascii) + rest) == Some((Obj(fs), rest))
  {
    hide ParseMembers, ParseArray, ScanString, ScanNumber;
    assert (Print(Obj(fs), ascii) + rest)[1..] == PrintFields(fs, ascii) + rest;
    DictOfDistinct(fs);
  }

  lemma {:induction false} ParsePrintedInt(n: int, rest: string)
    requires Stops(rest)
    ensures ParseValue(IntText(n) + rest) == Some((Num(n), rest))
  {
    ScanIntText(n, rest);
    assert IntText(n)[0] == '-' || IsDigit(IntText(n)[0]);
  }

  lemma {:induction false} ParsePrintedItems(items: seq<Value>, ascii: bool, rest: string)
    requires items != [] && forall i :: 0 <= i < |items| ==> Unique(items[i])
    ensures ParseItems(PrintItems(items, ascii) + rest) == Some((items, rest))
    decreases items, 0
  {
    hide ParseValue, ParseArray, ParseMembers, ScanString, Print;
    var s := PrintItems(items, ascii) + rest;
    var more := if |items| == 1 then "]" + rest else "," + (PrintItems(items[1..], ascii) + rest);
    assert s == Print(items[0], ascii) + more;
    ParsePrinted(items[0], ascii, more);
    assert SkipSpace(more) == more;
    if |items| == 1 {
      assert more[1..] == rest;
      assert [items[0]] == items;
    } else {
      var tail := PrintItems(items[1..], ascii) + rest;
      assert more[1..] == tail;
      PrintStart(items[1], ascii);
      assert tail[0] == Print(items[1], ascii)[0];
      assert SkipSpace(tail) == tail;
      ParsePrintedItems(items[1..], ascii, rest);
      assert [items[0]] + items[1..] == items;
    }
  }

  lemma {:induction false} ParseMember(s: string, key: string, value: string, v: Value, more: string)
    requires ScanString(s) == Some((key, ":" + value))
    requires SkipSpace(value) == value && ParseValue(value) == Some((v, more))
    ensures "}" <= more ==> ParseMembers(s) == Some(([Field(key, v)], more[1..]))
    ensures ",\"" <= more && ParseMembers(more[2..]).Some? ==>
              var (fs, end) := ParseMembers(more[2..]).value;
              ParseMembers(s) == Some(([Field(key, v)] + fs, end))
  {
    hide ParseValue, ScanString;
    assert (":" + value)[1..] == value;
    if ",\"" <= more {
      assert more[1..][1..] == more[2..];
    }
  }

  /**
   One printed entry followed by `more`, which starts with the brace or with the comma and quote before the next key.
   */
  lemma {:induction false} ParseEntry(f: Field, ascii: bool, more: string)
    requires ParseValue(Print(f.value, ascii) + more) == Some((f.value, more))
    ensures var s := Quote(f.key, ascii) + (":" + (Print(f.value, ascii) + more));
            && s[0] == '\"'
            && ("}" <= more ==> ParseMembers(s[1..]) == Some(([f], more[1..])))
            && (",\"" <= more && ParseMembers(more[2..]).Some? ==>
                 ParseMembers(s[1..]) == Some(([f] + ParseMembers(more[2..]).value.0, ParseMembers(more[2..]).value.1)))
  {
    var value := Print(f.value, ascii) + more;
    ScanQuoted(f.key, ascii, ":" + value);
    PrintStart(f.value, ascii);
    assert value[0] == Print(f.value, ascii)[0];
    ParseMember((Quote(f.key, ascii) + (":" + value))[1..], f.key, value, f.value, more);
  }

  lemma {:induction false} PrintFieldsSplit(fs: seq<Field>, ascii: bool, rest: string)
    requires fs != []
    ensures var more := if |fs| == 1 then "}" + rest else "," + (PrintFields(fs[1..], ascii) + rest);
            PrintFields(fs, ascii) + rest == Quote(fs[0].key, ascii) + (":" + (Print(fs[0].value, ascii) + more))
  {
  }

  lemma {:induction false} ParsePrintedFields(fs: seq<Field>, ascii: bool, rest: string)
    requires fs != [] && forall i :: 0 <= i < |fs| ==> Unique(fs[i].value)
    ensures (PrintFields(fs, ascii) + rest)[0] == '\"'
    ensures ParseMembers((PrintFields(fs, ascii) + rest)[1..]) == Some((fs, rest))
    decreases fs, 0
  {
    hide ParseValue, ParseArray, ParseItems, ScanString, Print, Quote;
    PrintFieldsSplit(fs, ascii, rest);
    if |fs| == 1 {
      var more := "}" + rest;
      ParsePrinted(fs[0].value, ascii, more);
      ParseEntry(fs[0], ascii, more);
      assert more[1..] == rest && [fs[0]] == fs;
    } else {
      var tail := PrintFields(fs[1..], ascii) + rest;
      var more := "," + tail;
      ParsePrintedFields(fs[1..], ascii, rest);
      assert more[2..] == tail[1..];
      ParsePrinted(fs[0].value, ascii, more);
      ParseEntry(fs[0], ascii, more);
      assert [fs[0]] + fs[1..] == fs;
    }
  }

  lemma {:induction false} LoadsPrinted(v: Value, ascii: bool)
    requires Unique(v)
    ensures Loads(Print(v, ascii)) == Some(v)
  {
    ParsePrinted(v, ascii, "");
    PrintStart(v, ascii);
    assert Print(v, ascii) + "" == Print(v, ascii);
  }

  // ---------- sorting keys ----------

  ghost predicate Sorted(fs: seq<Field>) {
    forall i, j :: 0 <= i < j < |fs| ==> Less(fs[i].key, fs[j].key)
  }

  ghost predicate SameElements(f: seq<Field>, g: seq<Field>) {
    forall x :: x in f <==> x in g
  }

  lemma {:induction false} InsertSorts(f: Field, fs: seq<Field>)
    requires Sorted(fs) && !HasKey(fs, f.key)
    ensures Sorted(Insert(f, fs))
    ensures forall x :: x in Insert(f, fs) <==> x == f || x in fs
  {
    if fs != [] {
      assert fs[0].key != f.key;
      LessIsTotal(f.key, fs[0].key);
      if Less(f.key, fs[0].key) {
        forall j | 0 < j < |fs|
          ensures Less(f.key, fs[j].key)
        {
          LessIsTransitive(f.key, fs[0].key, fs[j].key);
        }
      } else {
        assert forall i :: 0 <= i < |fs[1..]| ==> fs[1..][i] == fs[i + 1];
        InsertSorts(f, fs[1..]);
        var r := Insert(f, fs[1..]);
        forall j | 0 <= j < |r|
          ensures Less(fs[0].key, r[j].key)
        {
          assert r[j] in r;
        }
      }
    }
  }

  lemma {:induction false} SortSorts(fs: seq<Field>)
    requires DistinctKeys(fs)
    ensures Sorted(Sort(fs)) && SameElements(Sort(fs), fs)
  {
    if fs != [] {
      SortSorts(fs[1..]);
      var r := Sort(fs[1..]);
      forall j | 0 <= j < |r|
        ensures r[j].key != fs[0].key
      {
        assert r[j] in r;
      }
      InsertSorts(fs[0], r);
    }
  }

  lemma {:induction false} SortedIsDistinct(fs: seq<Field>)
    requires Sorted(fs)
    ensures DistinctKeys(fs)
  {
    forall i, j | 0 <= i < j < |fs|
      ensures fs[i].key != fs[j].key
    {
      LessIsIrreflexive(fs[i].key);
    }
  }

  /** A strictly sorted list is determined by its elements. */
  lemma {:induction false} SortedIsUnique(f: seq<Field>, g: seq<Field>)
    requires Sorted(f) && Sorted(g) && SameElements(f, g)
    ensures f == g
  {
    if f != [] {
      NonEmptyElements(f, g);
    }
    if g != [] {
      NonEmptyElements(g, f);
    }
    if f != [] {
      assert f[0] in f && g[0] in g;
      SameLeast(f, g);
      forall x
        ensures x in f[1..] <==> x in g[1..]
      {
        TailElements(f, x);
        TailElements(g, x);
      }
      SortedIsUnique(f[1..], g[1..]);
      assert f == [f[0]] + f[1..] && g == [g[0]] + g[1..];
    }
  }

  lemma {:induction false} NonEmptyElements(f: seq<Field>, g: seq<Field>)
    requires f != [] && SameElements(f, g)
    ensures g != []
  {
    assert f[0] in g;
  }

  lemma {:induction false} SameLeast(f: seq<Field>, g: seq<Field>)
    requires f != [] && g != [] && Sorted(f) && Sorted(g) && f[0] in g && g[0] in f
    ensures f[0] == g[0]
  {
    if f[0] != g[0] {
      assert Less(g[0].key, f[0].key) && Less(f[0].key, g[0].key);
      LessIsTransitive(f[0].key, g[0].key, f[0].key);
      LessIsIrreflexive(f[0].key);
    }
  }

  lemma {:induction false} TailElements(f: seq<Field>, x: Field)
    requires f != [] && Sorted(f)
    ensures x in f[1..] <==> x in f && x != f[0]
  {
    LessIsIrreflexive(f[0].key);
    assert f == [f[0]] + f[1..];
  }

  lemma {:induction false} SortKeysUnique(v: Value)
    requires Unique(v)
    ensures Unique(SortKeys(v))
    decreases v
  {
    match v {
      case Arr(items) =>
        forall i | 0 <= i < |items|
          ensures Unique(SortItems(items)[i])
        {
          SortKeysUnique(items[i]);
        }
      case Obj(fields) =>
        var fs := SortFields(fields);
        forall i | 0 <= i < |fs|
          ensures Unique(fs[i].value)
        {
          SortKeysUnique(fields[i].value);
        }
        SortSorts(fs);
        SortedIsDistinct(Sort(fs));
        forall i | 0 <= i < |Sort(fs)|
          ensures Unique(Sort(fs)[i].value)
        {
          assert Sort(fs)[i] in fs;
        }
      case _ =>
    }
  }

  // ---------- the round trip, and what canonical text determines ----------

  /** Reading back what `json.dumps` wrote gives the same dict, with its keys now in order. */
  lemma {:induction false} LoadsDumps(v: Value, ascii: bool)
    requires Unique(v)
    ensures Loads(Dumps(v, ascii)) == Some(SortKeys(v))
  {
    SortKeysUnique(v);
    LoadsPrinted(SortKeys(v), ascii);
  }

  lemma {:induction false} SortedFieldsAgree(f: seq<Field>, g: seq<Field>, i: nat, j: nat)
    requires DistinctKeys(f) && DistinctKeys(g)
    requires SameElements(SortFields(f), SortFields(g))
    requires i < |f| && j < |g| && f[i].key == g[j].key
    ensures SortKeys(f[i].value) == SortKeys(g[j].value)
  {
    assert SortFields(f)[i] in SortFields(g);
    var k :| 0 <= k < |g| && SortFields(g)[k] == SortFields(f)[i];
    assert k == j;
  }

  lemma {:induction false} ElementsGiveKeys(f: seq<Field>, g: seq<Field>)
    requires SameElements(SortFields(f), SortFields(g))
    ensures KeysIn(f, g)
  {
    forall i | 0 <= i < |f|
      ensures HasKey(g, f[i].key)
    {
      assert SortFields(f)[i] in SortFields(g);
      var k :| 0 <= k < |g| && SortFields(g)[k] == SortFields(f)[i];
      assert g[k].key == f[i].key;
    }
  }

  lemma {:induction false} SortFieldsDistinct(f: seq<Field>)
    requires DistinctKeys(f)
    ensures DistinctKeys(SortFields(f))
  {
  }

  lemma {:induction false} SameIfSorted(v: Value, w: Value)
    requires Unique(v) && Unique(w) && SortKeys(v) == SortKeys(w)
    ensures SameValue(v, w)
    decreases v
  {
    match v {
      case Arr(a) =>
        var b := w.items;
        assert SortItems(a) == SortItems(b);
        forall i | 0 <= i < |a|
          ensures SameValue(a[i], b[i])
        {
          assert SortItems(a)[i] == SortItems(b)[i];
          SameIfSorted(a[i], b[i]);
        }
      case Obj(f) =>
        var g := w.fields;
        SortFieldsDistinct(f);
        SortFieldsDistinct(g);
        SortSorts(SortFields(f));
        SortSorts(SortFields(g));
        assert SameElements(SortFields(f), SortFields(g));
        ElementsGiveKeys(f, g);
        ElementsGiveKeys(g, f);
        forall i, j | 0 <= i < |f| && 0 <= j < |g| && f[i].key == g[j].key
          ensures SameValue(f[i].value, g[j].value)
        {
          SortedFieldsAgree(f, g, i, j);
          SameIfSorted(f[i].value, g[j].value);
        }
      case _ =>
    }
  }

  lemma {:induction false} SortedIfSame(v: Value, w: Value)
    requires Unique(v) && Unique(w) && SameValue(v, w)
    ensures SortKeys(v) == SortKeys(w)
    decreases v
  {
    match v {
      case Arr(a) =>
        forall i | 0 <= i < |a|
          ensures SortKeys(a[i]) == SortKeys(w.items[i])
        {
          SortedIfSame(a[i], w.items[i]);
        }
        assert SortItems(a) == SortItems(w.items);
      case Obj(f) =>
        var g := w.fields;
        forall i, j | 0 <= i < |f| && 0 <= j < |g| && f[i].key == g[j].key
          ensures SortFields(f)[i] == SortFields(g)[j]
        {
          SortedIfSame(f[i].value, g[j].value);
        }
        KeysGiveElements(f, g);
        SortFieldsDistinct(f);
        SortFieldsDistinct(g);
        SortSorts(SortFields(f));
        SortSorts(SortFields(g));
        SortedIsUnique(Sort(SortFields(f)), Sort(SortFields(g)));
      case _ =>
    }
  }

  lemma {:induction false} KeysGiveElements(f: seq<Field>, g: seq<Field>)
    requires KeysIn(f, g) && KeysIn(g, f)
    requires forall i, j :: 0 <= i < |f| && 0 <= j < |g| && f[i].key == g[j].key ==>
      SortFields(f)[i] == SortFields(g)[j]
    ensures SameElements(SortFields(f), SortFields(g))
  {
    forall x
      ensures x in SortFields(f) <==> x in SortFields(g)
    {
      if x in SortFields(f) {
        var i :| 0 <= i < |f| && SortFields(f)[i] == x;
        assert HasKey(g, f[i].key);
      }
      if x in SortFields(g) {
        var j :| 0 <= j < |g| && SortFields(g)[j] == x;
        assert HasKey(f, g[j].key);
      }
    }
  }

  /** Canonical text is equal exactly for equal values, whatever the order of their keys and the escaping mode. */
  lemma {:induction false} CanonicalIffSame(v: Value, w: Value, ascii: bool)
    requires Unique(v) && Unique(w)
    ensures Dumps(v, ascii) == Dumps(w, ascii) <==> SameValue(v, w)
  {
    LoadsDumps(v, ascii);
    LoadsDumps(w, ascii);
    if Dumps(v, ascii) == Dumps(w, ascii) {
      SameIfSorted(v, w);
    }
    if SameValue(v, w) {
      SortedIfSame(v, w);
    }
  }

  /** Equal dicts agree on the entries that stand at the same place under the same key. */
  lemma {:induction false} ValuesAgree(f: seq<Field>, g: seq<Field>, i: nat)
    requires SameValue(Obj(f), Obj(g)) && i < |f| && i < |g| && f[i].key == g[i].key
    requires !f[i].value.Arr? && !f[i].value.Obj?
    ensures f[i].value == g[i].value
  {
    assert SameValue(f[i].value, g[i].value);
  }

  /** Re-serializing what was read back gives the same text, so a hash taken later is the hash taken first. */
  lemma {:induction false} CanonicalStable(v: Value)
    requires Unique(v)
    ensures Loads(Canonical(v)) == Some(SortKeys(v)) && Unique(SortKeys(v))
    ensures Canonical(SortKeys(v)) == Canonical(v)
  {
    LoadsDumps(v, false);
    SortKeysUnique(v);
    SortKeysTwice(v);
  }

  lemma {:induction false} InsertLeast(f: Field, fs: seq<Field>)
    requires Sorted([f] + fs)
    ensures Insert(f, fs) == [f] + fs
  {
    if fs != [] {
      assert Less(([f] + fs)[0].key, ([f] + fs)[1].key);
    }
  }

  lemma {:induction false} SortSorted(fs: seq<Field>)
    requires Sorted(fs)
    ensures Sort(fs) == fs
  {
    if fs != [] {
      assert [fs[0]] + fs[1..] == fs;
      SortSorted(fs[1..]);
      InsertLeast(fs[0], fs[1..]);
    }
  }

  lemma {:induction false} SortKeysTwice(v: Value)
    requires Unique(v)
    ensures SortKeys(SortKeys(v)) == SortKeys(v)
    decreases v
  {
    match v {
      case Arr(items) =>
        var r := SortItems(items);
        forall i | 0 <= i < |items|
          ensures SortKeys(r[i]) == r[i]
        {
          SortKeysTwice(items[i]);
        }
        assert SortItems(r) == r;
      case Obj(fields) =>
        var fs := SortFields(fields);
        SortFieldsDistinct(fields);
        SortSorts(fs);
        var r := Sort(fs);
        forall i | 0 <= i < |r|
          ensures SortFields(r)[i] == r[i]
        {
          assert r[i] in fs;
          var k :| 0 <= k < |fs| && fs[k] == r[i];
          SortKeysTwice(fields[k].value);
        }
        assert SortFields(r) == r;
        SortSorted(r);
      case _ =>
    }
  }

  // ---------- the two escaping modes ----------

  predicate PlainText(s: string) {
    forall i :: 0 <= i < |s| ==> s[i] <= '~'
  }

  /** No string or key holds a character that `ensure_ascii` escapes and plain JSON does not. */
  predicate Plain(v: Value) {
    match v
    case Str(s) => PlainText(s)
    case Arr(items) => forall i :: 0 <= i < |items| ==> Plain(items[i])
    case Obj(fields) => forall i :: 0 <= i < |fields| ==> PlainText(fields[i].key) && Plain(fields[i].value)
    case _ => true
  }

  lemma {:induction false} EscapeModes(s: string)
    ensures |Escape(s, true)| >= |Escape(s, false)|
    ensures PlainText(s) ==> Escape(s, true) == Escape(s, false)
    ensures !PlainText(s) ==> |Escape(s, true)| > |Escape(s, false)|
  {
    if s != "" {
      EscapeModes(s[1..]);
      assert PlainText(s) <==> s[0] <= '~' && PlainText(s[1..]) by {
        assert s == [s[0]] + s[1..];
      }
    }
  }

  lemma {:induction false} PrintModes(v: Value)
    ensures |Print(v, true)| >= |Print(v, false)|
    ensures Plain(v) ==> Print(v, true) == Print(v, false)
    ensures !Plain(v) ==> |Print(v, true)| > |Print(v, false)|
    decreases v, 1
  {
    match v {
      case Str(s) => EscapeModes(s);
      case Arr(items) =>
        if items != [] {
          PrintItemsModes(items);
        }
      case Obj(fields) =>
        if fields != [] {
          PrintFieldsModes(fields);
        }
      case _ =>
    }
  }

  lemma {:induction false} PrintItemsModes(items: seq<Value>)
    requires items != []
    ensures |PrintItems(items, true)| >= |PrintItems(items, false)|
    ensures Plain(Arr(items)) ==> PrintItems(items, true) == PrintItems(items, false)
    ensures !Plain(Arr(items)) ==> |PrintItems(items, true)| > |PrintItems(items, false)|
    decreases items, 0
  {
    PrintModes(items[0]);
    if |items| > 1 {
      PrintItemsModes(items[1..]);
      assert Plain(Arr(items)) <==> Plain(items[0]) && Plain(Arr(items[1..])) by {
        assert items == [items[0]] + items[1..];
      }
    }
  }

  lemma {:induction false} PrintFieldsModes(fs: seq<Field>)
    requires fs != []
    ensures |PrintFields(fs, true)| >= |PrintFields(fs, false)|
    ensures Plain(Obj(fs)) ==> PrintFields(fs, true) == PrintFields(fs, false)
    ensures !Plain(Obj(fs)) ==> |PrintFields(fs, true)| > |PrintFields(fs, false)|
    decreases fs, 0
  {
    hide Print, Escape, PlainText;
    EscapeModes(fs[0].key);
    PrintModes(fs[0].value);
    if |fs| > 1 {
      PrintFieldsModes(fs[1..]);
      assert Plain(Obj(fs)) <==> PlainText(fs[0].key) && Plain(fs[0].value) && Plain(Obj(fs[1..])) by {
        assert fs == [fs[0]] + fs[1..];
      }
    }
  }

  lemma {:induction false} SortKeysPlain(v: Value)
    requires Unique(v)
    ensures Plain(SortKeys(v)) <==> Plain(v)
    decreases v
  {
    match v {
      case Arr(items) =>
        forall i | 0 <= i < |items|
          ensures Plain(SortItems(items)[i]) <==> Plain(items[i])
        {
          SortKeysPlain(items[i]);
        }
      case Obj(fields) =>
        var fs := SortFields(fields);
        forall i | 0 <= i < |fields|
          ensures Plain(fs[i].value) <==> Plain(fields[i].value)
        {
          SortKeysPlain(fields[i].value);
        }
        assert Plain(Obj(fs)) <==> Plain(v);
        SortFieldsDistinct(fields);
        SortSorts(fs);
        if Plain(Obj(fs)) {
          SameElementsPlain(Sort(fs), fs);
        }
        if Plain(Obj(Sort(fs))) {
          SameElementsPlain(fs, Sort(fs));
        }
      case _ =>
    }
  }

  lemma {:induction false} SameElementsPlain(f: seq<Field>, g: seq<Field>)
    requires SameElements(f, g) && Plain(Obj(g))
    ensures Plain(Obj(f))
  {
    forall i | 0 <= i < |f|
      ensures PlainText(f[i].key) && Plain(f[i].value)
    {
      assert f[i] in g;
    }
  }

  /**
   The DEMO executor hashes arguments with the default `ensure_ascii`, every other place without it.
   The two texts agree exactly on values without characters above '~'.
   */
  lemma {:induction false} DumpsModesAgree(v: Value)
    requires Unique(v)
    ensures Dumps(v, true) == Dumps(v, false) <==> Plain(v)
  {
    PrintModes(SortKeys(v));
    SortKeysPlain(v);
  }
}
