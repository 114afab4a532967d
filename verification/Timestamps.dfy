/**
 UTC instants and their ISO 8601 text, as `datetime.isoformat` writes it: the fraction is left out when it is zero.
 */
module Timestamps {
  import opened Text

  datatype Instant = Instant(year: nat, month: nat, day: nat, hour: nat, minute: nat, second: nat, micro: nat)

  predicate ValidInstant(t: Instant) {
    t.year < 10000 && t.month < 100 && t.day < 100 && t.hour < 24 && t.minute < 60 && t.second < 60 && t.micro < 1000000
  }

  /** Chronological order. */
  predicate Earlier(a: Instant, b: Instant) {
    a.year < b.year || (a.year == b.year &&
    (a.month < b.month || (a.month == b.month &&
    (a.day < b.day || (a.day == b.day &&
    (a.hour < b.hour || (a.hour == b.hour &&
    (a.minute < b.minute || (a.minute == b.minute &&
    (a.second < b.second || (a.second == b.second && a.micro < b.micro)))))))))))
  }

  /** `n` zero-filled to `width` digits. */
  function Pad(n: nat, width: nat): (s: string)
    ensures |s| == width && AllDigits(s)
  {
    if width == 0 then "" else Pad(n / 10, width - 1) + [DigitChar(n % 10)]
  }

  function Power10(k: nat): (p: nat)
    ensures p > 0
  {
    if k == 0 then 1 else 10 * Power10(k - 1)
  }

  lemma {:induction false} PadRoundTrip(n: nat, width: nat)
    requires n < Power10(width)
    ensures DigitsValue(Pad(n, width)) == n
  {
    if width > 0 {
      PadRoundTrip(n / 10, width - 1);
      var s := Pad(n, width);
      assert s[..|s| - 1] == Pad(n / 10, width - 1);
    }
  }

  lemma {:induction false} PadInjective(m: nat, n: nat, width: nat)
    requires m < Power10(width) && n < Power10(width) && Pad(m, width) == Pad(n, width)
    ensures m == n
  {
    PadRoundTrip(m, width);
    PadRoundTrip(n, width);
  }

  function DateText(t: Instant): (s: string)
    ensures |s| == 11
  {
    Pad(t.year, 4) + "-" + Pad(t.month, 2) + "-" + Pad(t.day, 2) + "T"
  }

  function TimeText(t: Instant): (s: string)
    ensures |s| == 8
  {
    Pad(t.hour, 2) + ":" + Pad(t.minute, 2) + ":" + Pad(t.second, 2)
  }

  /** `_timestamp(value)` */
  function IsoText(t: Instant): string {
    DateText(t) + TimeText(t) + (if t.micro == 0 then "" else "." + Pad(t.micro, 6)) + "+00:00"
  }

  lemma {:induction false} DateTextInjective(a: Instant, b: Instant)
    requires ValidInstant(a) && ValidInstant(b) && DateText(a) == DateText(b)
    ensures a.year == b.year && a.month == b.month && a.day == b.day
  {
    assert Power10(2) == 100 && Power10(4) == 10000;
    forall t | t == a || t == b
      ensures DateText(t)[..4] == Pad(t.year, 4) && DateText(t)[5..7] == Pad(t.month, 2)
      ensures DateText(t)[8..10] == Pad(t.day, 2)
    {
    }
    PadInjective(a.year, b.year, 4);
    PadInjective(a.month, b.month, 2);
    PadInjective(a.day, b.day, 2);
  }

  lemma {:induction false} TimeTextInjective(a: Instant, b: Instant)
    requires ValidInstant(a) && ValidInstant(b) && TimeText(a) == TimeText(b)
    ensures a.hour == b.hour && a.minute == b.minute && a.second == b.second
  {
    assert Power10(2) == 100;
    forall t | t == a || t == b
      ensures TimeText(t)[..2] == Pad(t.hour, 2) && TimeText(t)[3..5] == Pad(t.minute, 2)
      ensures TimeText(t)[6..8] == Pad(t.second, 2)
    {
    }
    PadInjective(a.hour, b.hour, 2);
    PadInjective(a.minute, b.minute, 2);
    PadInjective(a.second, b.second, 2);
  }

  /** Two instants with the same text are the same, although the text has two lengths. */
  lemma {:induction false} IsoTextInjective(a: Instant, b: Instant)
    requires ValidInstant(a) && ValidInstant(b) && IsoText(a) == IsoText(b)
    ensures a == b
  {
    hide Pad, DateText, TimeText, AllDigits, IsDigit;
    forall t | t == a || t == b
      ensures IsoText(t)[..11] == DateText(t) && IsoText(t)[11..19] == TimeText(t)
      ensures |IsoText(t)| == if t.micro == 0 then 25 else 32
      ensures t.micro != 0 ==> IsoText(t)[20..26] == Pad(t.micro, 6)
    {
    }
    DateTextInjective(a, b);
    TimeTextInjective(a, b);
    if a.micro != 0 {
      assert Power10(6) == 1000000;
      PadInjective(a.micro, b.micro, 6);
    }
  }

  /** The characters of an ISO 8601 text other than its digits. */
  predicate IsoShaped(s: string) {
    && |s| in {25, 32} && s[4] == '-' && s[7] == '-' && s[10] == 'T' && s[13] == ':' && s[16] == ':'
    && (|s| == 32 ==> s[19] == '.') && s[|s| - 6..] == "+00:00"
  }

  /** What stands between the places `i` and `j` of the text is the number. */
  predicate ReadsAt(s: string, i: nat, j: nat, n: nat) {
    i <= j <= |s| && AllDigits(s[i..j]) && DigitsValue(s[i..j]) == n
  }

  /** Every field can be read from its place in the text. */
  lemma {:induction false} IsoTextReads(t: Instant)
    requires ValidInstant(t)
    ensures var s := IsoText(t);
            && IsoShaped(s) && (|s| == 25 <==> t.micro == 0)
            && ReadsAt(s, 0, 4, t.year) && ReadsAt(s, 5, 7, t.month) && ReadsAt(s, 8, 10, t.day)
            && ReadsAt(s, 11, 13, t.hour) && ReadsAt(s, 14, 16, t.minute) && ReadsAt(s, 17, 19, t.second)
            && (t.micro != 0 ==> ReadsAt(s, 20, 26, t.micro))
  {
    hide Pad, AllDigits, DigitsValue;
    var s := IsoText(t);
    PadReads(t.year, 4);
    PadReads(t.month, 2);
    PadReads(t.day, 2);
    PadReads(t.hour, 2);
    PadReads(t.minute, 2);
    PadReads(t.second, 2);
    PadReads(t.micro, 6);
    assert s[0..4] == Pad(t.year, 4) && s[5..7] == Pad(t.month, 2) && s[8..10] == Pad(t.day, 2);
    assert s[11..13] == Pad(t.hour, 2) && s[14..16] == Pad(t.minute, 2) && s[17..19] == Pad(t.second, 2);
    assert t.micro != 0 ==> s[20..26] == Pad(t.micro, 6);
  }

  lemma {:induction false} PadReads(n: nat, width: nat)
    ensures AllDigits(Pad(n, width)) && (n < Power10(width) ==> DigitsValue(Pad(n, width)) == n)
    ensures Power10(2) == 100 && Power10(4) == 10000 && Power10(6) == 1000000
  {
    if n < Power10(width) {
      PadRoundTrip(n, width);
    }
    assert Power10(2) == 100 && Power10(4) == 100 * Power10(2) && Power10(6) == 100 * Power10(4);
  }
}
