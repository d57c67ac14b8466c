/** Python string operations the system relies on: strip, split, join, lower, `in`,
    and the code-point order behind `<` and `<=` on strings. */
module Text {

  /** `str.isspace` for a single code point. */
  predicate IsBlank(c: char) {
    var n := c as int;
    9 <= n <= 13 || 28 <= n <= 32 || n == 0x85 || n == 0xA0 || n == 0x1680 || 0x2000 <= n <= 0x200A ||
    n == 0x2028 || n == 0x2029 || n == 0x202F || n == 0x205F || n == 0x3000
  }

  function TrimLeft(s: string): string {
    if s != "" && IsBlank(s[0]) then TrimLeft(s[1..]) else s
  }

  function TrimRight(s: string): string {
    if s != "" && IsBlank(s[|s| - 1]) then TrimRight(s[..|s| - 1]) else s
  }

  function Strip(s: string): string {
    TrimRight(TrimLeft(s))
  }

  /** Nothing to strip at either end. */
  predicate Trimmed(s: string) {
    s == "" || (!IsBlank(s[0]) && !IsBlank(s[|s| - 1]))
  }

  lemma {:induction false} StripTrimmed(s: string)
    ensures Trimmed(Strip(s))
    ensures Trimmed(s) ==> Strip(s) == s
  {
    TrimLeftHead(s);
    TrimRightEnds(TrimLeft(s));
  }

  lemma TrimLeftHead(s: string)
    ensures TrimLeft(s) == "" || !IsBlank(TrimLeft(s)[0])
  {
  }

  lemma TrimRightEnds(s: string)
    ensures TrimRight(s) == "" || (!IsBlank(TrimRight(s)[|TrimRight(s)| - 1]) && TrimRight(s)[0] == s[0])
    ensures |TrimRight(s)| <= |s|
  {
  }

  lemma StripKeepsChars(s: string, c: char)
    requires c !in s
    ensures c !in Strip(s)
  {
    TrimLeftKeeps(s, c);
    TrimRightKeeps(TrimLeft(s), c);
  }

  lemma TrimLeftKeeps(s: string, c: char)
    requires c !in s
    ensures c !in TrimLeft(s)
  {
  }

  lemma TrimRightKeeps(s: string, c: char)
    requires c !in s
    ensures c !in TrimRight(s)
  {
  }

  lemma StripDropsLeading(c: char, s: string)
    requires IsBlank(c)
    ensures Strip([c] + s) == Strip(s)
  {
    assert ([c] + s)[1..] == s;
  }

  lemma {:induction false} TrimLeftSnoc(s: string, c: char)
    requires IsBlank(c)
    ensures TrimLeft(s + [c]) == if TrimLeft(s) == "" then "" else TrimLeft(s) + [c]
  {
    if s == "" {
      assert ([c])[1..] == "";
    } else if IsBlank(s[0]) {
      TrimLeftSnoc(s[1..], c);
      assert (s + [c])[1..] == s[1..] + [c];
    }
  }

  lemma StripDropsTrailing(s: string, c: char)
    requires IsBlank(c)
    ensures Strip(s + [c]) == Strip(s)
  {
    TrimLeftSnoc(s, c);
    var t := TrimLeft(s);
    assert (t + [c])[..|t|] == t;
  }

  /** The words stripped, blank ones left out. */
  function Clean(words: seq<string>): seq<string> {
    if words == [] then []
    else (if Strip(words[0]) == "" then [] else [Strip(words[0])]) + Clean(words[1..])
  }

  lemma {:induction false} CleanMeans(words: seq<string>, w: string)
    ensures w in Clean(words) <==> w != "" && exists i :: 0 <= i < |words| && Strip(words[i]) == w
  {
    if words != [] {
      var rest := words[1..];
      CleanMeans(rest, w);
      assert forall i :: 0 < i < |words| ==> words[i] == rest[i - 1];
      if w in Clean(rest) {
        var i :| 0 <= i < |rest| && Strip(rest[i]) == w;
        assert words[i + 1] == rest[i];
      }
    }
  }

  lemma {:induction false} StripOfTrimRight(s: string)
    ensures Strip(TrimRight(s)) == Strip(s)
  {
    if s != "" && IsBlank(s[|s| - 1]) {
      var n := |s| - 1;
      StripOfTrimRight(s[..n]);
      StripDropsTrailing(s[..n], s[n]);
      assert s[..n] + [s[n]] == s;
    }
  }

  lemma {:induction false} TrimLeftStops(s: string, c: char, t: string)
    requires !IsBlank(c)
    ensures TrimLeft(s + [c] + t) == TrimLeft(s) + [c] + t
  {
    if s == "" {
      assert s + [c] + t == [c] + t;
    } else if IsBlank(s[0]) {
      TrimLeftStops(s[1..], c, t);
      assert (s + [c] + t)[1..] == s[1..] + [c] + t;
    }
  }

  lemma {:induction false} TrimRightStops(s: string, c: char, t: string)
    requires !IsBlank(c)
    ensures TrimRight(s + [c] + t) == s + [c] + TrimRight(t)
  {
    if t == "" {
      assert s + [c] + t == s + [c];
    } else if IsBlank(t[|t| - 1]) {
      var n := |t| - 1;
      TrimRightStops(s, c, t[..n]);
      assert (s + [c] + t)[..|s| + 1 + n] == s + [c] + t[..n];
    }
  }

  /** A visible character splits what strip removes on its left from what it removes on its right. */
  lemma StripAround(s: string, c: char, t: string)
    requires !IsBlank(c)
    ensures Strip(s + [c] + t) == TrimLeft(s) + [c] + TrimRight(t)
  {
    TrimLeftStops(s, c, t);
    TrimRightStops(TrimLeft(s), c, t);
  }

  /** `str.split(sep)` for a one-character separator; never empty. */
  function Split(s: string, sep: char): (parts: seq<string>)
    ensures |parts| >= 1
  {
    if s == "" then [""]
    else
      var rest := Split(s[1..], sep);
      if s[0] == sep then [""] + rest else [[s[0]] + rest[0]] + rest[1..]
  }

  /** `sep.join(parts)`. */
  function Join(parts: seq<string>, sep: char): string {
    if |parts| == 0 then ""
    else if |parts| == 1 then parts[0]
    else parts[0] + [sep] + Join(parts[1..], sep)
  }

  lemma {:induction false} SplitAtom(s: string, sep: char)
    requires sep !in s
    ensures Split(s, sep) == [s]
  {
    if s != "" {
      SplitAtom(s[1..], sep);
      assert s == [s[0]] + s[1..];
    }
  }

  lemma {:induction false} SplitConcat(a: string, sep: char, b: string)
    ensures Split(a + [sep] + b, sep) == Split(a, sep) + Split(b, sep)
  {
    var s := a + [sep] + b;
    if a == "" {
      assert s[1..] == b;
    } else {
      assert s[1..] == a[1..] + [sep] + b;
      SplitConcat(a[1..], sep, b);
    }
  }

  /** Joining and splitting are inverse on separator-free parts. */
  lemma {:induction false} SplitJoin(parts: seq<string>, sep: char)
    requires parts != []
    requires forall p :: p in parts ==> sep !in p
    ensures Split(Join(parts, sep), sep) == parts
  {
    SplitAtom(parts[0], sep);
    if |parts| > 1 {
      SplitJoin(parts[1..], sep);
      SplitConcat(parts[0], sep, Join(parts[1..], sep));
    }
  }

  lemma {:induction false} SplitPartsFree(s: string, sep: char)
    ensures forall p :: p in Split(s, sep) ==> sep !in p
    ensures forall p, c :: p in Split(s, sep) && c in p ==> c in s
  {
    if s != "" {
      SplitPartsFree(s[1..], sep);
      var rest := Split(s[1..], sep);
      assert rest[0] in rest;
      assert forall p :: p in rest[1..] ==> p in rest;
    }
  }

  /** ASCII `str.lower`. */
  function LowerChar(c: char): char {
    if 'A' <= c <= 'Z' then (c as int + 32) as char else c
  }

  function Lower(s: string): (r: string)
    ensures |r| == |s|
    ensures forall i :: 0 <= i < |s| ==> r[i] == LowerChar(s[i])
  {
    if s == "" then "" else [LowerChar(s[0])] + Lower(s[1..])
  }

  /** Two characters are one letter: equal, or the capital and the small form of an ASCII letter. */
  predicate IsSameLetter(a: char, b: char) {
    a == b || ('A' <= a <= 'Z' && b as int == a as int + 32) || ('A' <= b <= 'Z' && a as int == b as int + 32)
  }

  lemma LowerCharIff(a: char, b: char)
    ensures LowerChar(a) == LowerChar(b) <==> IsSameLetter(a, b)
  {
  }

  /** Two texts are equal up to letter case exactly if they are, letter by letter. */
  lemma {:induction false} LowerIff(s: string, t: string)
    ensures Lower(s) == Lower(t) <==> |s| == |t| && forall i :: 0 <= i < |s| ==> IsSameLetter(s[i], t[i])
  {
    if |s| == |t| {
      forall i | 0 <= i < |s|
        ensures Lower(s)[i] == Lower(t)[i] <==> IsSameLetter(s[i], t[i])
      {
        LowerCharIff(s[i], t[i]);
      }
    }
  }

  /** The part before the first separator, and the part after it, are determined. */
  lemma {:induction false} FirstSplitIsUnique(a: string, b: string, c: string, d: string, sep: char)
    requires sep !in a && sep !in c && a + [sep] + b == c + [sep] + d
    ensures a == c && b == d
  {
    var s := a + [sep] + b;
    assert s[0] == if a == "" then sep else a[0];
    assert s[0] == if c == "" then sep else c[0];
    if a == "" {
      assert b == s[1..] && d == s[1..];
    } else {
      assert s[1..] == a[1..] + [sep] + b && s[1..] == c[1..] + [sep] + d;
      FirstSplitIsUnique(a[1..], b, c[1..], d, sep);
      assert a == [a[0]] + a[1..] && c == [c[0]] + c[1..];
    }
  }

  predicate StartsWith(s: string, p: string) {
    |p| <= |s| && s[..|p|] == p
  }

  predicate OccursAt(s: string, p: string, i: nat) {
    i + |p| <= |s| && s[i..i + |p|] == p
  }

  /** `p in s`. */
  predicate Contains(s: string, p: string) {
    exists i: nat | i <= |s| :: OccursAt(s, p, i)
  }

  lemma ContainsIff(s: string, p: string)
    ensures Contains(s, p) <==> exists a, b :: a + p + b == s
  {
    if Contains(s, p) {
      var i: nat :| i <= |s| && OccursAt(s, p, i);
      assert s[..i] + p + s[i + |p|..] == s;
    }
    forall a, b | a + p + b == s
      ensures Contains(s, p)
    {
      assert OccursAt(s, p, |a|);
    }
  }

  /** `a < b` on Python strings: first differing code point decides, a proper prefix is smaller. */
  predicate Less(a: string, b: string) {
    if b == "" then false
    else if a == "" then true
    else a[0] < b[0] || (a[0] == b[0] && Less(a[1..], b[1..]))
  }

  predicate AtMost(a: string, b: string) {
    !Less(b, a)
  }

  lemma {:induction false} LessIsTotal(a: string, b: string)
    ensures Less(a, b) || a == b || Less(b, a)
    ensures !(Less(a, b) && Less(b, a))
    ensures !Less(a, a)
  {
    if a != "" { LessIsTotal(a[1..], a[1..]); }
    if a != "" && b != "" {
      LessIsTotal(a[1..], b[1..]);
      assert a == [a[0]] + a[1..] && b == [b[0]] + b[1..];
    }
  }

  lemma {:induction false} LessTransitive(a: string, b: string, c: string)
    requires AtMost(a, b) && AtMost(b, c)
    ensures AtMost(a, c)
    ensures Less(a, b) || Less(b, c) ==> Less(a, c)
  {
    if a != "" && b != "" && c != "" && a[0] == b[0] == c[0] {
      LessTransitive(a[1..], b[1..], c[1..]);
    } else {
      LessIsTotal(a, b);
      LessIsTotal(b, c);
    }
  }

  /** Equal-length fields compare first; the rest decides only on a tie. */
  lemma {:induction false} LessOnFields(p: string, q: string, s: string, t: string)
    requires |p| == |q|
    ensures Less(p + s, q + t) <==> Less(p, q) || (p == q && Less(s, t))
  {
    if p == "" {
      assert p + s == s && q + t == t;
    } else {
      LessOnFields(p[1..], q[1..], s, t);
      assert (p + s)[1..] == p[1..] + s && (q + t)[1..] == q[1..] + t;
      assert p == [p[0]] + p[1..] && q == [q[0]] + q[1..];
    }
  }
}
