/** UTF-8 as Python encodes and decodes it (section 3 of RFC 3629). */
module Utf8 {
  import opened Wrappers

  type byte = b: int | 0 <= b < 256

  /** The hexadecimal SHA-256 of some bytes, left uninterpreted. */
  type Sha = seq<byte> -> string

  function EncodeChar(c: char): (b: seq<byte>)
    ensures 1 <= |b| <= 4
  {
    var n := c as int;
    if n < 0x80 then [n]
    else if n < 0x800 then [0xC0 + n / 64, 0x80 + n % 64]
    else if n < 0x10000 then [0xE0 + n / 4096, 0x80 + n / 64 % 64, 0x80 + n % 64]
    else [0xF0 + n / 0x40000, 0x80 + n / 4096 % 64, 0x80 + n / 64 % 64, 0x80 + n % 64]
  }

  /** `s.encode()` */
  function Encode(s: string): seq<byte> {
    if s == "" then [] else EncodeChar(s[0]) + Encode(s[1..])
  }

  predicate IsTail(b: seq<byte>, i: nat) {
    i < |b| && 0x80 <= b[i] < 0xC0
  }

  function Bits(b: byte, marker: int): int {
    var n: int := b;
    n - marker
  }

  /** The character at the front of `b` and its width; overlong forms, surrogates and cut sequences are none. */
  function DecodeFirst(b: seq<byte>): (r: Option<(char, nat)>)
    ensures r.Some? ==> 1 <= r.value.1 <= |b|
  {
    if b == [] then None
    else if b[0] < 0x80 then Some((b[0] as char, 1))
    else if 0xC2 <= b[0] < 0xE0 && IsTail(b, 1) then Some(((Bits(b[0], 0xC0) * 64 + Bits(b[1], 0x80)) as char, 2))
    else if 0xE0 <= b[0] < 0xF0 && IsTail(b, 1) && IsTail(b, 2) then
      var n := Bits(b[0], 0xE0) * 4096 + Bits(b[1], 0x80) * 64 + Bits(b[2], 0x80);
      if n < 0x800 || 0xD800 <= n < 0xE000 then None else Some((n as char, 3))
    else if 0xF0 <= b[0] < 0xF5 && IsTail(b, 1) && IsTail(b, 2) && IsTail(b, 3) then
      var n := Bits(b[0], 0xF0) * 0x40000 + Bits(b[1], 0x80) * 4096 + Bits(b[2], 0x80) * 64 + Bits(b[3], 0x80);
      if n < 0x10000 || 0x110000 <= n then None else Some((n as char, 4))
    else None
  }

  /** `b.decode("utf-8")`; `None` stands for UnicodeDecodeError. */
  function Decode(b: seq<byte>): Option<string> {
    if b == [] then Some("")
    else
      var (c, width) :- DecodeFirst(b);
      var rest :- Decode(b[width..]);
      Some([c] + rest)
  }

  /** `b.decode("utf-8", errors="ignore")` */
  function DecodeIgnore(b: seq<byte>): string {
    if b == [] then ""
    else
      match DecodeFirst(b)
      case Some((c, width)) => [c] + DecodeIgnore(b[width..])
      case None => DecodeIgnore(b[1..])
  }

  lemma {:induction false} DecodeEncodedChar(c: char, rest: seq<byte>)
    ensures DecodeFirst(EncodeChar(c) + rest) == Some((c, |EncodeChar(c)|))
  {
    var n := c as int;
    assert n == n / 64 * 64 + n % 64;
    assert n / 64 == n / 4096 * 64 + n / 64 % 64;
    assert n / 4096 == n / 0x40000 * 64 + n / 4096 % 64;
  }

  lemma {:induction false} DecodeEncoded(s: string)
    ensures Decode(Encode(s)) == Some(s)
  {
    if s != "" {
      DecodeEncodedChar(s[0], Encode(s[1..]));
      assert Encode(s)[|EncodeChar(s[0])|..] == Encode(s[1..]);
      DecodeEncoded(s[1..]);
      assert [s[0]] + s[1..] == s;
    }
  }

  lemma {:induction false} EncodeInjective(s: string, t: string)
    requires Encode(s) == Encode(t)
    ensures s == t
  {
    DecodeEncoded(s);
    DecodeEncoded(t);
  }

  lemma {:induction false} EncodeConcat(s: string, t: string)
    ensures Encode(s + t) == Encode(s) + Encode(t)
  {
    if s == "" {
      assert s + t == t;
    } else {
      EncodeConcat(s[1..], t);
      assert (s + t)[1..] == s[1..] + t;
    }
  }

  // ---------- ASCII text ----------

  predicate Ascii(s: string) {
    forall i :: 0 <= i < |s| ==> s[i] as int < 0x80
  }

  lemma {:induction false} EncodeAscii(s: string)
    requires Ascii(s)
    ensures |Encode(s)| == |s| && forall i :: 0 <= i < |s| ==> Encode(s)[i] == s[i] as int
  {
    if s != "" {
      EncodeAscii(s[1..]);
    }
  }

  // ---------- truncation ----------

  /** How many characters of `s` fit whole into `n` bytes. */
  function FittingPrefix(s: string, n: nat): (k: nat)
    ensures k <= |s|
  {
    if s == "" || |EncodeChar(s[0])| > n then 0 else 1 + FittingPrefix(s[1..], n - |EncodeChar(s[0])|)
  }

  /** `FittingPrefix` is the longest prefix whose encoding fits. */
  lemma {:induction false} FittingPrefixIsLongest(s: string, n: nat)
    ensures |Encode(s[..FittingPrefix(s, n)])| <= n
    ensures FittingPrefix(s, n) < |s| ==> |Encode(s[..FittingPrefix(s, n) + 1])| > n
  {
    if s != "" {
      var w := |EncodeChar(s[0])|;
      var k := FittingPrefix(s, n);
      if w > n {
        assert s[..1] == [s[0]] && s[..1][1..] == "";
      } else {
        FittingPrefixIsLongest(s[1..], n - w);
        assert s[..k][1..] == s[1..][..k - 1];
        if k < |s| {
          assert s[..k + 1][1..] == s[1..][..k];
        }
      }
    }
  }

  lemma {:induction false} DecodeIgnoreCutChar(c: char, n: nat)
    requires n < |EncodeChar(c)|
    ensures DecodeIgnore(EncodeChar(c)[..n]) == ""
  {
    var b := EncodeChar(c)[..n];
    if n > 0 {
      DecodeIgnoreTails(b[1..]);
    }
  }

  lemma {:induction false} DecodeIgnoreTails(b: seq<byte>)
    requires forall i :: 0 <= i < |b| ==> IsTail(b, i)
    ensures DecodeIgnore(b) == ""
  {
    if b != [] {
      assert IsTail(b, 0);
      forall i | 0 <= i < |b[1..]|
        ensures IsTail(b[1..], i)
      {
        assert IsTail(b, i + 1);
      }
      DecodeIgnoreTails(b[1..]);
    }
  }

  /** Cutting an encoding at any byte and ignoring what does not decode leaves the longest prefix that fits. */
  lemma {:induction false} CutKeepsFittingPrefix(s: string, n: nat)
    requires n <= |Encode(s)|
    ensures DecodeIgnore(Encode(s)[..n]) == s[..FittingPrefix(s, n)]
  {
    if s != "" {
      var head, tail := EncodeChar(s[0]), Encode(s[1..]);
      if |head| > n {
        assert Encode(s)[..n] == head[..n];
        DecodeIgnoreCutChar(s[0], n);
      } else {
        var cut := tail[..n - |head|];
        assert Encode(s)[..n] == head + cut;
        DecodeEncodedChar(s[0], cut);
        assert (head + cut)[|head|..] == cut;
        CutKeepsFittingPrefix(s[1..], n - |head|);
        var k := FittingPrefix(s, n);
        assert [s[0]] + s[1..][..k - 1] == s[..k];
      }
    }
  }
}
