/** Decimal text: `str(int)`, `int(text)` and the zero-padded fields of `strftime`. */
module Numbers {
  import opened Text

  predicate IsDigit(c: char) {
    '0' <= c <= '9'
  }

  function DigitChar(d: int): (c: char)
    requires 0 <= d < 10
    ensures IsDigit(c) && DigitValue(c) == d
  {
    (d + 48) as char
  }

  function DigitValue(c: char): (d: int)
    requires IsDigit(c)
    ensures 0 <= d < 10
  {
    c as int - 48
  }

  predicate AllDigits(s: string) {
    forall i :: 0 <= i < |s| ==> IsDigit(s[i])
  }

  function Value(s: string): (n: nat)
    requires AllDigits(s)
  {
    if s == "" then 0 else 10 * Value(s[..|s| - 1]) + DigitValue(s[|s| - 1])
  }

  function NatText(n: nat): (s: string)
    ensures s != "" && AllDigits(s)
  {
    if n < 10 then [DigitChar(n)] else NatText(n / 10) + [DigitChar(n % 10)]
  }

  function IntText(n: int): string {
    if n < 0 then "-" + NatText(-n) else NatText(n)
  }

  lemma {:induction false} NatTextRoundTrip(n: nat)
    ensures Value(NatText(n)) == n
  {
    if n >= 10 {
      NatTextRoundTrip(n / 10);
      var s := NatText(n);
      assert s[..|s| - 1] == NatText(n / 10);
    }
  }

  lemma IntTextChars(n: int)
    ensures IntText(n) != ""
    ensures forall c :: c in IntText(n) ==> c == '-' || IsDigit(c)
  {
  }

  function Pow10(w: nat): (p: nat)
    ensures p >= 1
  {
    if w == 0 then 1 else 10 * Pow10(w - 1)
  }

  /** The last `w` decimal digits of `n`, zero-padded. */
  function Pad(n: nat, w: nat): (s: string)
    ensures |s| == w && AllDigits(s)
  {
    if w == 0 then "" else Pad(n / 10, w - 1) + [DigitChar(n % 10)]
  }

  lemma {:induction false} PadRoundTrip(n: nat, w: nat)
    requires n < Pow10(w)
    ensures Value(Pad(n, w)) == n
  {
    if w > 0 {
      PadRoundTrip(n / 10, w - 1);
      var s := Pad(n, w);
      assert s[..|s| - 1] == Pad(n / 10, w - 1);
    }
  }

  lemma {:induction false} PadOfValue(s: string)
    requires AllDigits(s)
    ensures Value(s) < Pow10(|s|) && Pad(Value(s), |s|) == s
  {
    if s != "" {
      PadOfValue(s[..|s| - 1]);
    }
  }

  lemma {:induction false} PadLess(n: nat, m: nat, w: nat)
    requires n < Pow10(w) && m < Pow10(w)
    ensures Less(Pad(n, w), Pad(m, w)) <==> n < m
  {
    if w > 0 {
      PadLess(n / 10, m / 10, w - 1);
      PadRoundTrip(n / 10, w - 1);
      PadRoundTrip(m / 10, w - 1);
      LessOnFields(Pad(n / 10, w - 1), Pad(m / 10, w - 1), [DigitChar(n % 10)], [DigitChar(m % 10)]);
    }
  }

  /** A padded field followed by a tail compares by the number, then by the tail. */
  lemma PadThen(n: nat, m: nat, w: nat, s: string, t: string)
    requires n < Pow10(w) && m < Pow10(w)
    ensures Less(Pad(n, w) + s, Pad(m, w) + t) <==> n < m || (n == m && Less(s, t))
  {
    PadLess(n, m, w);
    PadRoundTrip(n, w);
    PadRoundTrip(m, w);
    LessOnFields(Pad(n, w), Pad(m, w), s, t);
  }

  lemma CharThen(c: char, s: string, t: string)
    ensures Less([c] + s, [c] + t) <==> Less(s, t)
  {
    LessOnFields([c], [c], s, t);
    LessIsTotal([c], [c]);
  }
}
