/** Durations as text: printed in reports, read back from task logs. */
module Durations {
  import opened Wrappers
  import opened Text
  import opened Numbers

  const DASH := "\U{2014}"

  function SecondsText(s: string): string {
    s + "s"
  }

  function MinutesText(m: string, s: string): string {
    m + ("m " + SecondsText(s))
  }

  function HoursText(h: string, m: string, s: string): string {
    h + ("h " + MinutesText(m, s))
  }

  function FormatDuration(sec: Option<int>): string {
    match sec
    case None => DASH
    case Some(n) =>
      if n < 60 then SecondsText(IntText(n))
      else if n / 60 < 60 then MinutesText(IntText(n / 60), IntText(n % 60))
      else HoursText(IntText(n / 60 / 60), IntText(n / 60 % 60), IntText(n % 60))
  }

  predicate IsUnit(c: char) {
    LowerChar(c) == 'h' || LowerChar(c) == 'm' || LowerChar(c) == 's'
  }

  function DigitRun(s: string): (n: nat)
    ensures n <= |s| && AllDigits(s[..n])
  {
    if s != "" && IsDigit(s[0]) then 1 + DigitRun(s[1..]) else 0
  }

  function BlankRun(s: string): (n: nat)
    ensures n <= |s|
  {
    if s != "" && IsBlank(s[0]) then 1 + BlankRun(s[1..]) else 0
  }

  datatype Token = Token(amount: string, unit: char)

  /** `re.findall(r"(\d+)\s*([hms])", s)`: leftmost matches, scanning on after each. */
  function FindAll(s: string): (tokens: seq<Token>)
    ensures forall t :: t in tokens ==> AllDigits(t.amount) && IsUnit(t.unit)
    decreases |s|
  {
    if s == "" then []
    else
      var n := DigitRun(s);
      var k := n + BlankRun(s[n..]);
      if n > 0 && k < |s| && IsUnit(s[k]) then [Token(s[..n], s[k])] + FindAll(s[k + 1..])
      else FindAll(s[1..])
  }

  function Seconds(t: Token): nat
    requires AllDigits(t.amount)
  {
    var n := Value(t.amount);
    if LowerChar(t.unit) == 'h' then n * 3600 else if LowerChar(t.unit) == 'm' then n * 60 else n
  }

  function Total(tokens: seq<Token>): nat
    requires forall t :: t in tokens ==> AllDigits(t.amount)
  {
    if tokens == [] then 0 else Total(tokens[..|tokens| - 1]) + Seconds(tokens[|tokens| - 1])
  }

  /** The duration a text stands for, if it names one. */
  function DurationOf(text: string): Option<nat> {
    var tokens := FindAll(Strip(text));
    if tokens == [] then None else Some(Total(tokens))
  }

  method ParseDurationToken(text: string) returns (r: Option<nat>)
    ensures r == DurationOf(text)
  {
    var raw := Strip(text);
    if raw == "" {
      return None;
    }
    var total, matched := 0, false;
    var tokens := FindAll(raw);
    for i := 0 to |tokens|
      invariant matched <==> i > 0
      invariant total == Total(tokens[..i])
    {
      assert tokens[..i + 1][..i] == tokens[..i];
      matched := true;
      var n := Value(tokens[i].amount);
      var u := LowerChar(tokens[i].unit);
      if u == 'h' {
        total := total + n * 3600;
      } else if u == 'm' {
        total := total + n * 60;
      } else {
        total := total + n;
      }
    }
    assert tokens[..|tokens|] == tokens;
    return if matched then Some(total) else None;
  }

  lemma {:induction false} RunOf(d: string, u: char, rest: string)
    requires AllDigits(d) && !IsDigit(u)
    ensures DigitRun(d + [u] + rest) == |d|
  {
    var s := d + [u] + rest;
    if d != "" {
      assert s[1..] == d[1..] + [u] + rest;
      RunOf(d[1..], u, rest);
    }
  }

  lemma NextToken(d: string, u: char, rest: string)
    requires d != "" && AllDigits(d) && IsUnit(u)
    ensures FindAll(d + [u] + rest) == [Token(d, u)] + FindAll(rest)
  {
    var s := d + [u] + rest;
    RunOf(d, u, rest);
    assert s[|d|] == u && !IsBlank(u);
    assert BlankRun(s[|d|..]) == 0;
    assert s[..|d|] == d && s[|d| + 1..] == rest;
  }

  lemma SkipBlank(rest: string)
    ensures FindAll(" " + rest) == FindAll(rest)
  {
    var s := " " + rest;
    assert s[1..] == rest;
  }

  lemma TotalSnoc(tokens: seq<Token>, t: Token)
    requires AllDigits(t.amount) && forall x :: x in tokens ==> AllDigits(x.amount)
    ensures Total(tokens + [t]) == Total(tokens) + Seconds(t)
  {
    assert (tokens + [t])[..|tokens|] == tokens;
  }

  lemma NextTokenThenBlank(d: string, u: char, rest: string)
    requires d != "" && AllDigits(d) && IsUnit(u)
    ensures FindAll(d + ([u] + " " + rest)) == [Token(d, u)] + FindAll(rest)
  {
    Regroup(d, u, " ", rest);
    NextToken(d, u, " " + rest);
    SkipBlank(rest);
  }

  lemma Regroup(d: string, u: char, blank: string, rest: string)
    ensures d + ([u] + blank + rest) == d + [u] + (blank + rest)
  {
  }

  lemma SecondsTokens(s: string)
    requires s != "" && AllDigits(s)
    ensures FindAll(SecondsText(s)) == [Token(s, 's')]
  {
    assert SecondsText(s) == s + ['s'] + "";
    NextToken(s, 's', "");
  }

  lemma MinutesTokens(m: string, s: string)
    requires m != "" && AllDigits(m) && s != "" && AllDigits(s)
    ensures FindAll(MinutesText(m, s)) == [Token(m, 'm'), Token(s, 's')]
  {
    assert MinutesText(m, s) == m + (['m'] + " " + SecondsText(s));
    NextTokenThenBlank(m, 'm', SecondsText(s));
    SecondsTokens(s);
  }

  lemma HoursTokens(h: string, m: string, s: string)
    requires h != "" && AllDigits(h) && m != "" && AllDigits(m) && s != "" && AllDigits(s)
    ensures FindAll(HoursText(h, m, s)) == [Token(h, 'h'), Token(m, 'm'), Token(s, 's')]
  {
    assert HoursText(h, m, s) == h + (['h'] + " " + MinutesText(m, s));
    NextTokenThenBlank(h, 'h', MinutesText(m, s));
    MinutesTokens(m, s);
  }

  lemma ReadsTokens(text: string, tokens: seq<Token>)
    requires text != "" && IsDigit(text[0]) && text[|text| - 1] == 's'
    requires forall t :: t in tokens ==> AllDigits(t.amount)
    requires tokens != [] && FindAll(text) == tokens
    ensures DurationOf(text) == Some(Total(tokens))
  {
    StripTrimmed(text);
  }

  /** `d` is the decimal text of `n`. */
  predicate Prints(d: string, n: nat) {
    d != "" && AllDigits(d) && Value(d) == n
  }

  lemma ReadsSeconds(s: string, total: nat)
    requires Prints(s, total)
    ensures DurationOf(SecondsText(s)) == Some(total)
  {
    var t := Token(s, 's');
    assert FindAll(SecondsText(s)) == [t] by { SecondsTokens(s); }
    assert Total([t]) == total by { TotalSnoc([], t); }
    assert IsDigit(s[0]) && SecondsText(s)[0] == s[0];
    ReadsTokens(SecondsText(s), [t]);
  }

  lemma ReadsMinutes(m: string, s: string, minutes: nat, seconds: nat, total: nat)
    requires Prints(m, minutes) && Prints(s, seconds) && total == minutes * 60 + seconds
    ensures DurationOf(MinutesText(m, s)) == Some(total)
  {
    var minute, second := Token(m, 'm'), Token(s, 's');
    assert FindAll(MinutesText(m, s)) == [minute, second] by { MinutesTokens(m, s); }
    assert Total([minute, second]) == total by {
      TotalSnoc([], minute);
      TotalSnoc([minute], second);
    }
    assert IsDigit(m[0]) && MinutesText(m, s)[0] == m[0];
    ReadsTokens(MinutesText(m, s), [minute, second]);
  }

  lemma ReadsHours(h: string, m: string, s: string, hours: nat, minutes: nat, seconds: nat, total: nat)
    requires Prints(h, hours) && Prints(m, minutes) && Prints(s, seconds)
    requires total == hours * 3600 + minutes * 60 + seconds
    ensures DurationOf(HoursText(h, m, s)) == Some(total)
  {
    var hour, minute, second := Token(h, 'h'), Token(m, 'm'), Token(s, 's');
    assert FindAll(HoursText(h, m, s)) == [hour, minute, second] by { HoursTokens(h, m, s); }
    assert Total([hour, minute, second]) == total by {
      TotalSnoc([], hour);
      TotalSnoc([hour], minute);
      TotalSnoc([hour, minute], second);
      assert [hour, minute, second] == [hour, minute] + [second];
    }
    assert IsDigit(h[0]) && HoursText(h, m, s)[0] == h[0];
    ReadsTokens(HoursText(h, m, s), [hour, minute, second]);
  }

  /** The parts `divmod` gives are printed, and together they are the whole. */
  lemma FormatParts(n: nat) returns (h: string, m: string, s: string, hours: nat, minutes: nat, seconds: nat)
    ensures Prints(h, hours) && Prints(m, minutes) && Prints(s, seconds)
    ensures hours * 3600 + minutes * 60 + seconds == n
    ensures n < 60 ==> seconds == n
    ensures n / 60 < 60 ==> minutes * 60 + seconds == n
    ensures FormatDuration(Some(n)) ==
            if n < 60 then SecondsText(s) else if n / 60 < 60 then MinutesText(m, s) else HoursText(h, m, s)
  {
    hours, minutes, seconds := n / 60 / 60, n / 60 % 60, n % 60;
    h, m, s := NatText(hours), NatText(minutes), NatText(seconds);
    NatTextRoundTrip(hours);
    NatTextRoundTrip(minutes);
    NatTextRoundTrip(seconds);
    SplitMinutes(n);
  }

  predicate AllBlank(s: string) {
    forall i :: 0 <= i < |s| ==> IsBlank(s[i])
  }

  lemma {:induction false} RunOfBlanks(gap: string, u: char)
    requires AllBlank(gap) && !IsBlank(u)
    ensures BlankRun(gap + [u]) == |gap|
  {
    if gap != "" {
      RunOfBlanks(gap[1..], u);
      assert (gap + [u])[1..] == gap[1..] + [u];
    }
  }

  lemma LooseToken(d: string, gap: string, u: char)
    requires AllBlank(gap) && d != "" && AllDigits(d) && IsUnit(u) && !IsBlank(u) && !IsDigit(u)
    ensures FindAll(d + (gap + [u])) == [Token(d, u)]
  {
    var body := d + (gap + [u]);
    assert !IsDigit((gap + [u])[0]);
    DigitRunStops(d, gap + [u]);
    RunOfBlanks(gap, u);
    assert body[|d|..] == gap + [u] && body[|d| + |gap|] == u && body[|d| + |gap| + 1..] == "";
    assert body[..|d|] == d;
    assert FindAll("") == [];
  }

  lemma LooseIsStripped(lead: string, d: string, gap: string, u: char)
    requires AllBlank(lead) && d != "" && AllDigits(d) && !IsBlank(u)
    ensures Strip(lead + (d + (gap + [u]))) == d + (gap + [u])
  {
    var body := d + (gap + [u]);
    assert IsDigit(d[0]) && body[0] == d[0] && body[|body| - 1] == u;
    SkipsLead(lead, body);
    StripTrimmed(body);
    TrimLeftHead(body);
  }

  /** The seconds in one of a unit, in either letter case. */
  function UnitSeconds(u: char): nat {
    if u == 'h' || u == 'H' then 3600 else if u == 'm' || u == 'M' then 60 else 1
  }

  /** A number and a unit in either letter case are read with any blanks before and between them. */
  lemma LooseDuration(lead: string, d: string, gap: string, u: char)
    requires AllBlank(lead) && AllBlank(gap) && d != "" && AllDigits(d)
    requires u == 'h' || u == 'H' || u == 'm' || u == 'M' || u == 's' || u == 'S'
    ensures DurationOf(lead + (d + (gap + [u]))) == Some(Value(d) * UnitSeconds(u))
  {
    LooseIsStripped(lead, d, gap, u);
    LooseToken(d, gap, u);
    ReadsOne(lead + (d + (gap + [u])), Token(d, u));
    SecondsOf(d, u);
  }

  lemma ReadsOne(text: string, t: Token)
    requires AllDigits(t.amount) && FindAll(Strip(text)) == [t]
    ensures DurationOf(text) == Some(Seconds(t))
  {
    TotalSnoc([], t);
  }

  lemma SecondsOf(d: string, u: char)
    requires AllDigits(d) && (u == 'h' || u == 'H' || u == 'm' || u == 'M' || u == 's' || u == 'S')
    ensures Seconds(Token(d, u)) == Value(d) * UnitSeconds(u)
  {
  }

  lemma {:induction false} SkipsLead(lead: string, body: string)
    requires AllBlank(lead) && body != "" && !IsBlank(body[0])
    ensures TrimLeft(lead + body) == body
  {
    if lead == "" {
      assert lead + body == body;
    } else {
      SkipsLead(lead[1..], body);
      assert (lead + body)[1..] == lead[1..] + body;
    }
  }

  lemma {:induction false} DigitRunStops(d: string, rest: string)
    requires AllDigits(d) && rest != "" && !IsDigit(rest[0])
    ensures DigitRun(d + rest) == |d|
  {
    if d == "" {
      assert d + rest == rest;
    } else {
      DigitRunStops(d[1..], rest);
      assert (d + rest)[1..] == d[1..] + rest;
    }
  }

  /** Reading a printed duration returns the same number of seconds. */
  lemma DurationRoundTrip(n: nat)
    ensures DurationOf(FormatDuration(Some(n))) == Some(n)
  {
    var h, m, s, hours, minutes, seconds := FormatParts(n);
    if n < 60 {
      ReadsSeconds(s, n);
    } else if n / 60 < 60 {
      ReadsMinutes(m, s, minutes, seconds, n);
    } else {
      ReadsHours(h, m, s, hours, minutes, seconds, n);
    }
  }

  lemma SplitMinutes(n: nat)
    ensures n / 60 / 60 * 3600 + n / 60 % 60 * 60 + n % 60 == n
  {
  }

  /** The placeholder for an unknown duration reads as no duration. */
  lemma UnknownDurationRoundTrip()
    ensures DurationOf(FormatDuration(None)) == None
  {
    StripTrimmed(DASH);
    assert FindAll(DASH) == [];
  }
}
