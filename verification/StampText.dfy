/** The ownership stamp as text: the guest's tag list and the marker line of its description. */
module StampText {
  import opened Wrappers
  import opened Text
  import opened Numbers

  const MANAGED_TAG := "restore-engine"
  const MANAGED_PREFIX := "restore-engine:"

  // ----- tags -----

  predicate IsLetter(c: char) {
    'a' <= c <= 'z' || 'A' <= c <= 'Z'
  }

  predicate IsHex(c: char) {
    IsDigit(c) || 'a' <= c <= 'f' || 'A' <= c <= 'F'
  }

  /** `^[A-Za-z][A-Za-z0-9_]+:$` */
  predicate LooksLikeConfigKey(t: string) {
    |t| >= 3 && IsLetter(t[0]) && t[|t| - 1] == ':' &&
    forall i :: 1 <= i < |t| - 1 ==> IsLetter(t[i]) || IsDigit(t[i]) || t[i] == '_'
  }

  /** Eight, four, four, four and twelve hexadecimal digits between dashes. */
  predicate IsUuid(t: string) {
    |t| == 36 &&
    forall i :: 0 <= i < 36 ==> if i == 8 || i == 13 || i == 18 || i == 23 then t[i] == '-' else IsHex(t[i])
  }

  function SanitizeTag(tag: string): Option<string> {
    var t := Strip(tag);
    if t == "" || LooksLikeConfigKey(t) || StartsWith(Lower(t), "vmgenid:") || IsUuid(t) then None else Some(t)
  }

  function CommasToSemicolons(s: string): string {
    if s == "" then "" else [if s[0] == ',' then ';' else s[0]] + CommasToSemicolons(s[1..])
  }

  predicate Carries(tags: seq<string>, tag: string) {
    exists i | 0 <= i < |tags| :: Lower(tags[i]) == Lower(tag)
  }

  /** Sanitised parts, each kept once up to letter case. */
  function Deduplicated(parts: seq<string>): seq<string> {
    if parts == [] then []
    else
      var kept := Deduplicated(parts[..|parts| - 1]);
      match SanitizeTag(parts[|parts| - 1])
      case None => kept
      case Some(t) => if Carries(kept, t) then kept else kept + [t]
  }

  function ParseTags(raw: string): seq<string> {
    Deduplicated(Split(CommasToSemicolons(raw), ';'))
  }

  method TagsFromConfig(raw: Option<string>) returns (tags: seq<string>)
    ensures tags == if raw.None? then [] else ParseTags(raw.value)
  {
    tags := [];
    if raw.None? {
      return;
    }
    var parts := Split(CommasToSemicolons(raw.value), ';');
    for i := 0 to |parts|
      invariant tags == Deduplicated(parts[..i])
    {
      assert parts[..i + 1][..i] == parts[..i];
      var tag := SanitizeTag(parts[i]);
      if tag.Some? && !Carries(tags, tag.value) {
        tags := tags + [tag.value];
      }
    }
    assert parts[..|parts|] == parts;
  }

  /** A list the tag parser can have produced. */
  ghost predicate CleanTags(tags: seq<string>) {
    && (forall i :: 0 <= i < |tags| ==> SanitizeTag(tags[i]) == Some(tags[i]) && ';' !in tags[i] && ',' !in tags[i])
    && (forall i, j :: 0 <= i < j < |tags| ==> Lower(tags[i]) != Lower(tags[j]))
  }

  lemma {:induction false} NoCommaLeft(s: string)
    ensures ',' !in CommasToSemicolons(s)
    ensures ',' !in s ==> CommasToSemicolons(s) == s
  {
    if s != "" {
      NoCommaLeft(s[1..]);
    }
  }

  lemma SanitizedIsStable(tag: string)
    ensures var t := SanitizeTag(tag); t.Some? ==> SanitizeTag(t.value) == t
  {
    StripTrimmed(tag);
    StripTrimmed(Strip(tag));
  }

  lemma {:induction false} DistinctIsClean(parts: seq<string>)
    requires forall p :: p in parts ==> ';' !in p && ',' !in p
    ensures CleanTags(Deduplicated(parts))
  {
    if parts != [] {
      var last := parts[|parts| - 1];
      DistinctIsClean(parts[..|parts| - 1]);
      SanitizedIsStable(last);
      StripKeepsChars(last, ';');
      StripKeepsChars(last, ',');
    }
  }

  lemma ParsedTagsAreClean(raw: string)
    ensures CleanTags(ParseTags(raw))
  {
    var text := CommasToSemicolons(raw);
    NoCommaLeft(raw);
    SplitPartsFree(text, ';');
    DistinctIsClean(Split(text, ';'));
  }

  lemma {:induction false} DistinctOfClean(tags: seq<string>)
    requires CleanTags(tags)
    ensures Deduplicated(tags) == tags
  {
    if tags != [] {
      CleanInit(tags);
      DistinctOfClean(tags[..|tags| - 1]);
      DistinctOneMore(tags);
    }
  }

  lemma DistinctOneMore(tags: seq<string>)
    requires tags != []
    requires var front, last := tags[..|tags| - 1], tags[|tags| - 1];
             Deduplicated(front) == front && SanitizeTag(last) == Some(last) && !Carries(front, last)
    ensures Deduplicated(tags) == tags
  {
    assert tags == tags[..|tags| - 1] + [tags[|tags| - 1]];
  }

  lemma CleanInit(tags: seq<string>)
    requires CleanTags(tags) && tags != []
    ensures var n := |tags| - 1;
            CleanTags(tags[..n]) && !Carries(tags[..n], tags[n]) && SanitizeTag(tags[n]) == Some(tags[n])
  {
    var n := |tags| - 1;
    assert forall i :: 0 <= i < n ==> tags[..n][i] == tags[i];
  }

  lemma {:induction false} JoinChars(tags: seq<string>, sep: char, c: char)
    requires c != sep && forall t :: t in tags ==> c !in t
    ensures c !in Join(tags, sep)
  {
    if |tags| > 1 {
      JoinChars(tags[1..], sep, c);
    }
  }

  /** Parsing a joined clean list gives the list back. */
  lemma TagsRoundTrip(tags: seq<string>)
    requires CleanTags(tags)
    ensures ParseTags(Join(tags, ';')) == tags
  {
    JoinChars(tags, ';', ',');
    NoCommaLeft(Join(tags, ';'));
    if tags == [] {
      assert Split("", ';') == [""];
      assert Deduplicated([""]) == [];
    } else {
      SplitJoin(tags, ';');
      DistinctOfClean(tags);
    }
  }

  function MarkedTags(tags: seq<string>): seq<string> {
    if Carries(tags, MANAGED_TAG) then tags else tags + [MANAGED_TAG]
  }

  function StampTags(raw: Option<string>): string {
    Join(MarkedTags(if raw.None? then [] else ParseTags(raw.value)), ';')
  }

  lemma ManagedTagIsClean(t: string)
    requires t == MANAGED_TAG
    ensures SanitizeTag(t) == Some(t) && ';' !in t && ',' !in t
  {
    ManagedTagChars(t);
    PlainTagIsClean(t);
  }

  lemma ManagedTagChars(t: string)
    requires t == MANAGED_TAG
    ensures |t| == 14 && t[0] == 'r' && t[13] == 'e'
    ensures ';' !in t && ',' !in t
  {
  }

  /** A trimmed token that starts with an `r` and holds no separator survives as it is. */
  lemma PlainTagIsClean(t: string)
    requires 1 < |t| < 36 && t[0] == 'r' && t[|t| - 1] == 'e'
    ensures SanitizeTag(t) == Some(t)
  {
    StripTrimmed(t);
    assert Lower(t)[0] == 'r';
    if |t| >= 8 {
      assert Lower(t)[..8][0] == 'r';
    }
  }

  lemma MarkingKeepsClean(tags: seq<string>)
    requires CleanTags(tags)
    ensures CleanTags(MarkedTags(tags)) && Carries(MarkedTags(tags), MANAGED_TAG)
    ensures MarkedTags(MarkedTags(tags)) == MarkedTags(tags)
  {
    if !Carries(tags, MANAGED_TAG) {
      ManagedTagIsClean(MANAGED_TAG);
      AppendKeepsClean(tags, MANAGED_TAG);
    }
  }

  lemma AppendKeepsClean(tags: seq<string>, t: string)
    requires CleanTags(tags) && !Carries(tags, t)
    requires SanitizeTag(t) == Some(t) && ';' !in t && ',' !in t
    ensures CleanTags(tags + [t]) && Carries(tags + [t], t)
  {
    var all := tags + [t];
    assert all[|tags|] == t;
    assert forall i :: 0 <= i < |tags| ==> all[i] == tags[i] && Lower(tags[i]) != Lower(t);
  }

  /** A stamp stores the guest's own tags plus the managed one, once; stamping again changes nothing. */
  lemma StampedTags(raw: Option<string>)
    ensures var before := if raw.None? then [] else ParseTags(raw.value);
            ParseTags(StampTags(raw)) == MarkedTags(before)
    ensures Carries(ParseTags(StampTags(raw)), MANAGED_TAG)
    ensures StampTags(Some(StampTags(raw))) == StampTags(raw)
  {
    var before := if raw.None? then [] else ParseTags(raw.value);
    if raw.Some? {
      ParsedTagsAreClean(raw.value);
    }
    MarkingKeepsClean(before);
    TagsRoundTrip(MarkedTags(before));
  }

  // ----- description -----

  function Marker(jobId: string, runId: string): string {
    MANAGED_PREFIX + "job=" + (if jobId == "" then "-" else jobId) + ";run=" + (if runId == "" then "-" else runId)
  }

  /** The marker tells which job and run it is for. */
  lemma MarkerTells(job1: string, run1: string, job2: string, run2: string)
    requires job1 != "" && run1 != "" && job2 != "" && run2 != ""
    requires ';' !in job1 && ';' !in job2
    requires Marker(job1, run1) == Marker(job2, run2)
    ensures job1 == job2 && run1 == run2
  {
    MarkerParts(job1, run1, Marker(job1, run1));
    MarkerParts(job2, run2, Marker(job2, run2));
    assert job1 + (";run=" + run1) == job1 + [';'] + ("run=" + run1);
    assert job2 + (";run=" + run2) == job2 + [';'] + ("run=" + run2);
    FirstSplitIsUnique(job1, "run=" + run1, job2, "run=" + run2, ';');
    assert run1 == ("run=" + run1)[4..] && run2 == ("run=" + run2)[4..];
  }

  lemma MarkerParts(jobId: string, runId: string, m: string)
    requires jobId != "" && runId != "" && m == Marker(jobId, runId)
    ensures |m| >= 19 && m[19..] == jobId + (";run=" + runId)
  {
    var head := MANAGED_PREFIX + "job=";
    assert |head| == 19;
    assert m == head + (jobId + (";run=" + runId));
  }

  function Unmarked(lines: seq<string>): seq<string> {
    if lines == [] then []
    else (if Contains(lines[0], MANAGED_PREFIX) then [] else [lines[0]]) + Unmarked(lines[1..])
  }

  function NonEmptyLines(lines: seq<string>): seq<string> {
    if lines == [] then [] else (if lines[0] == "" then [] else [lines[0]]) + NonEmptyLines(lines[1..])
  }

  function StampDescription(description: string, marker: string): string {
    var desc := Strip(description);
    if Contains(desc, MANAGED_PREFIX) then
      Strip(Join(NonEmptyLines(Unmarked(Split(desc, '\n')) + [marker]), '\n'))
    else if desc != "" then Strip(desc + ['\n'] + marker)
    else marker
  }

  /** What a reader sees of a list of lines: each stripped, blank ones gone. */
  function Visible(lines: seq<string>): seq<string> {
    if lines == [] then []
    else Shown(lines[0]) + Visible(lines[1..])
  }

  function Shown(line: string): seq<string> {
    if Strip(line) == "" then [] else [Strip(line)]
  }

  function VisibleLines(text: string): seq<string> {
    Visible(Split(text, '\n'))
  }

  lemma {:induction false} VisibleConcat(a: seq<string>, b: seq<string>)
    ensures Visible(a + b) == Visible(a) + Visible(b)
  {
    if a == [] {
      assert a + b == b;
    } else {
      VisibleConcat(a[1..], b);
      assert (a + b)[1..] == a[1..] + b && (a + b)[0] == a[0];
      assert Shown(a[0]) + (Visible(a[1..]) + Visible(b)) == (Shown(a[0]) + Visible(a[1..])) + Visible(b);
    }
  }

  lemma {:induction false} VisibleIgnoresEmpty(lines: seq<string>)
    ensures Visible(NonEmptyLines(lines)) == Visible(lines)
  {
    if lines != [] {
      VisibleIgnoresEmpty(lines[1..]);
      assert Strip("") == "";
      VisibleConcat(if lines[0] == "" then [] else [lines[0]], NonEmptyLines(lines[1..]));
      assert lines[0] != "" ==> [lines[0]][1..] == [];
    }
  }

  lemma {:induction false} VisibleTrimLeft(s: string)
    ensures VisibleLines(TrimLeft(s)) == VisibleLines(s)
  {
    if s != "" && IsBlank(s[0]) {
      VisibleTrimLeft(s[1..]);
      var rest := Split(s[1..], '\n');
      assert Strip("") == "";
      if s[0] == '\n' {
        assert Split(s, '\n') == [""] + rest;
        assert ([""] + rest)[1..] == rest;
      } else {
        StripDropsLeading(s[0], rest[0]);
        assert Split(s, '\n')[1..] == rest[1..];
      }
    }
  }

  lemma {:induction false} SplitSnoc(s: string, sep: char, c: char)
    requires c != sep
    ensures var parts := Split(s, sep);
            Split(s + [c], sep) == parts[..|parts| - 1] + [parts[|parts| - 1] + [c]]
  {
    if s == "" {
      SplitAtom([c], sep);
      assert Split(s, sep) == [""] && s + [c] == [c] && "" + [c] == [c];
    } else {
      SplitSnoc(s[1..], sep, c);
      assert (s + [c])[1..] == s[1..] + [c] && (s + [c])[0] == s[0];
      SnocLast(s[0], sep, Split(s[1..], sep), c);
    }
  }

  /** How a front character and a back character meet in the split parts. */
  lemma SnocLast(front: char, sep: char, rest: seq<string>, c: char)
    requires rest != []
    ensures var extended := rest[..|rest| - 1] + [rest[|rest| - 1] + [c]];
            var parts := if front == sep then [""] + rest else [[front] + rest[0]] + rest[1..];
            parts[..|parts| - 1] + [parts[|parts| - 1] + [c]] ==
            if front == sep then [""] + extended else [[front] + extended[0]] + extended[1..]
  {
    if |rest| == 1 {
      assert [front] + (rest[0] + [c]) == ([front] + rest[0]) + [c];
    }
  }

  lemma {:induction false} VisibleTrimRight(s: string)
    ensures VisibleLines(TrimRight(s)) == VisibleLines(s)
  {
    if s != "" && IsBlank(s[|s| - 1]) {
      var t, c := s[..|s| - 1], s[|s| - 1];
      assert s == t + [c];
      VisibleTrimRight(t);
      VisibleSnocBlank(t, c);
    }
  }

  lemma VisibleSnocBlank(t: string, c: char)
    requires IsBlank(c)
    ensures VisibleLines(t + [c]) == VisibleLines(t)
  {
    var parts := Split(t, '\n');
    var head, last := parts[..|parts| - 1], parts[|parts| - 1];
    assert parts == head + [last];
    if c == '\n' {
      assert t + [c] == t + ['\n'] + "";
      SplitConcat(t, '\n', "");
      VisibleConcat(parts, [""]);
      assert Strip("") == "" && Visible([""]) == [];
    } else {
      SplitSnoc(t, '\n', c);
      StripDropsTrailing(last, c);
      VisibleConcat(head, [last + [c]]);
      VisibleConcat(head, [last]);
    }
  }

  lemma VisibleStrip(s: string)
    ensures VisibleLines(Strip(s)) == VisibleLines(s)
  {
    VisibleTrimLeft(s);
    VisibleTrimRight(TrimLeft(s));
  }

  // A prefix without blanks occurs in a line exactly if it occurs in the stripped line.

  lemma {:induction false} ContainsTrimLeft(s: string, p: string)
    requires p != "" && !IsBlank(p[0])
    ensures Contains(TrimLeft(s), p) <==> Contains(s, p)
  {
    if s != "" && IsBlank(s[0]) {
      ContainsTrimLeft(s[1..], p);
      if Contains(s, p) {
        var i: nat :| i <= |s| && OccursAt(s, p, i);
        assert s[i..i + |p|][0] == s[i];
        assert s[1..][i - 1..i - 1 + |p|] == s[i..i + |p|];
        assert OccursAt(s[1..], p, i - 1);
      }
      if Contains(s[1..], p) {
        var i: nat :| i <= |s[1..]| && OccursAt(s[1..], p, i);
        assert s[i + 1..i + 1 + |p|] == s[1..][i..i + |p|];
        assert OccursAt(s, p, i + 1);
      }
    }
  }

  lemma {:induction false} ContainsTrimRight(s: string, p: string)
    requires p != "" && !IsBlank(p[|p| - 1])
    ensures Contains(TrimRight(s), p) <==> Contains(s, p)
  {
    if s != "" && IsBlank(s[|s| - 1]) {
      var t := s[..|s| - 1];
      ContainsTrimRight(t, p);
      if Contains(s, p) {
        var i: nat :| i <= |s| && OccursAt(s, p, i);
        assert s[i..i + |p|][|p| - 1] == s[i + |p| - 1];
        assert t[i..i + |p|] == s[i..i + |p|];
        assert OccursAt(t, p, i);
      }
      if Contains(t, p) {
        var i: nat :| i <= |t| && OccursAt(t, p, i);
        assert s[i..i + |p|] == t[i..i + |p|];
        assert OccursAt(s, p, i);
      }
    }
  }

  lemma ContainsStrip(s: string, p: string)
    requires p != "" && !IsBlank(p[0]) && !IsBlank(p[|p| - 1])
    ensures Contains(Strip(s), p) <==> Contains(s, p)
  {
    ContainsTrimLeft(s, p);
    ContainsTrimRight(TrimLeft(s), p);
  }

  /** A line holding the prefix shows up in the text. */
  lemma {:induction false} ContainsLine(s: string, sep: char, line: string, p: string)
    requires line in Split(s, sep) && Contains(line, p)
    ensures Contains(s, p)
  {
    var i := LineStart(s, sep, line);
    var k: nat :| k <= |line| && OccursAt(line, p, k);
    SliceOfSlice(s, i, |line|, k, |p|);
    assert OccursAt(s, p, i + k);
  }

  lemma SliceOfSlice(s: string, i: nat, n: nat, k: nat, m: nat)
    requires i + n <= |s| && k + m <= n
    ensures s[i + k..i + k + m] == s[i..i + n][k..k + m]
  {
    var a, b := s[i + k..i + k + m], s[i..i + n][k..k + m];
    assert forall j :: 0 <= j < m ==> a[j] == b[j];
  }

  lemma {:induction false} LineStart(s: string, sep: char, line: string) returns (i: nat)
    requires line in Split(s, sep)
    ensures i + |line| <= |s| && s[i..i + |line|] == line
    ensures line == Split(s, sep)[0] ==> i == 0
  {
    if line == Split(s, sep)[0] {
      i := 0;
      FirstLineIsPrefix(s, sep);
    } else {
      var rest := Split(s[1..], sep);
      assert line in rest;
      i := LineStart(s[1..], sep, line);
      assert s[i + 1..i + 1 + |line|] == s[1..][i..i + |line|];
      i := i + 1;
    }
  }

  lemma {:induction false} FirstLineIsPrefix(s: string, sep: char)
    ensures StartsWith(s, Split(s, sep)[0])
  {
    if s != "" && s[0] != sep {
      FirstLineIsPrefix(s[1..], sep);
    }
  }

  lemma {:induction false} VisibleUnmarked(lines: seq<string>)
    ensures Visible(Unmarked(lines)) == Unmarked(Visible(lines))
  {
    if lines != [] {
      VisibleUnmarked(lines[1..]);
      ContainsStrip(lines[0], MANAGED_PREFIX);
      var here := if Contains(lines[0], MANAGED_PREFIX) then [] else [lines[0]];
      VisibleConcat(here, Unmarked(lines[1..]));
      assert here != [] ==> here[1..] == [];
      UnmarkedConcat(Shown(lines[0]), Visible(lines[1..]));
      EmptyIsUnmarked();
    }
  }

  lemma EmptyIsUnmarked()
    ensures !Contains("", MANAGED_PREFIX)
  {
  }

  lemma {:induction false} UnmarkedConcat(a: seq<string>, b: seq<string>)
    ensures Unmarked(a + b) == Unmarked(a) + Unmarked(b)
  {
    if a == [] {
      assert a + b == b;
    } else {
      UnmarkedConcat(a[1..], b);
      assert (a + b)[1..] == a[1..] + b && (a + b)[0] == a[0];
      var first := if Contains(a[0], MANAGED_PREFIX) then [] else [a[0]];
      assert first + (Unmarked(a[1..]) + Unmarked(b)) == (first + Unmarked(a[1..])) + Unmarked(b);
    }
  }

  lemma {:induction false} UnmarkedIdentity(lines: seq<string>)
    requires forall l :: l in lines ==> !Contains(l, MANAGED_PREFIX)
    ensures Unmarked(lines) == lines
  {
    if lines != [] {
      UnmarkedIdentity(lines[1..]);
    }
  }

  lemma {:induction false} UnmarkedIsUnmarked(lines: seq<string>)
    ensures forall l :: l in Unmarked(lines) ==> !Contains(l, MANAGED_PREFIX) && l in lines
    ensures Unmarked(Unmarked(lines)) == Unmarked(lines)
  {
    if lines != [] {
      UnmarkedIsUnmarked(lines[1..]);
    }
    UnmarkedIdentity(Unmarked(lines));
  }

  lemma {:induction false} NonEmptyMembers(lines: seq<string>)
    ensures forall l :: l in NonEmptyLines(lines) <==> l in lines && l != ""
  {
    if lines != [] {
      NonEmptyMembers(lines[1..]);
    }
  }

  lemma MarkerLine(jobId: string, runId: string)
    requires '\n' !in jobId && '\n' !in runId
    ensures var m := Marker(jobId, runId);
            m != "" && '\n' !in m && Contains(m, MANAGED_PREFIX) && Contains(Strip(m), MANAGED_PREFIX) && Strip(m) != "" &&
            Visible([m]) == [Strip(m)] && VisibleLines(m) == [Strip(m)]
  {
    var m := Marker(jobId, runId);
    assert OccursAt(m, MANAGED_PREFIX, 0);
    ContainsStrip(m, MANAGED_PREFIX);
    EmptyIsUnmarked();
    SplitAtom(m, '\n');
    assert [m][1..] == [];
  }

  /** After a stamp the description shows the foreign lines in order and then the marker, and nothing else. */
  lemma StampedDescription(description: string, jobId: string, runId: string)
    requires '\n' !in jobId && '\n' !in runId
    ensures var m := Marker(jobId, runId);
            VisibleLines(StampDescription(description, m)) == Unmarked(VisibleLines(description)) + [Strip(m)]
  {
    var m := Marker(jobId, runId);
    var desc := Strip(description);
    MarkerLine(jobId, runId);
    VisibleStrip(description);
    if Contains(desc, MANAGED_PREFIX) {
      StampedOver(desc, m);
    } else {
      NothingMarked(desc);
      if desc != "" {
        VisibleStrip(desc + ['\n'] + m);
        SplitConcat(desc, '\n', m);
        VisibleConcat(Split(desc, '\n'), Split(m, '\n'));
      } else {
        assert Strip("") == "" && VisibleLines("") == [];
      }
    }
  }

  lemma StampedOver(desc: string, m: string)
    requires '\n' !in m && Visible([m]) == [Strip(m)] && m != ""
    ensures VisibleLines(Strip(Join(NonEmptyLines(Unmarked(Split(desc, '\n')) + [m]), '\n'))) ==
            Unmarked(VisibleLines(desc)) + [Strip(m)]
  {
    var lines := Split(desc, '\n');
    var parts := Unmarked(lines) + [m];
    var kept := NonEmptyLines(parts);
    SplitPartsFree(desc, '\n');
    UnmarkedIsUnmarked(lines);
    NonEmptyMembers(parts);
    assert m in parts && m in kept;
    SplitJoin(kept, '\n');
    VisibleStrip(Join(kept, '\n'));
    VisibleIgnoresEmpty(parts);
    VisibleConcat(Unmarked(lines), [m]);
    VisibleUnmarked(lines);
  }

  lemma NothingMarked(desc: string)
    requires !Contains(desc, MANAGED_PREFIX)
    ensures Unmarked(VisibleLines(desc)) == VisibleLines(desc)
  {
    var lines := Split(desc, '\n');
    forall l | l in lines
      ensures !Contains(l, MANAGED_PREFIX)
    {
      if Contains(l, MANAGED_PREFIX) {
        ContainsLine(desc, '\n', l, MANAGED_PREFIX);
      }
    }
    UnmarkedIdentity(lines);
    VisibleUnmarked(lines);
  }

  // ----- any history of stamps -----

  datatype Stamp = Stamp(jobId: string, runId: string)

  function StampAll(description: string, stamps: seq<Stamp>): string {
    if stamps == [] then description
    else
      var last := stamps[|stamps| - 1];
      StampDescription(StampAll(description, stamps[..|stamps| - 1]), Marker(last.jobId, last.runId))
  }

  function Marked(lines: seq<string>): seq<string> {
    if lines == [] then []
    else (if Contains(lines[0], MANAGED_PREFIX) then [lines[0]] else []) + Marked(lines[1..])
  }

  lemma {:induction false} MarkedConcat(a: seq<string>, b: seq<string>)
    ensures Marked(a + b) == Marked(a) + Marked(b)
  {
    if a == [] {
      assert a + b == b;
    } else {
      MarkedConcat(a[1..], b);
      assert (a + b)[1..] == a[1..] + b && (a + b)[0] == a[0];
      var first := if Contains(a[0], MANAGED_PREFIX) then [a[0]] else [];
      assert first + (Marked(a[1..]) + Marked(b)) == (first + Marked(a[1..])) + Marked(b);
    }
  }

  lemma {:induction false} MarkedNone(lines: seq<string>)
    requires forall l :: l in lines ==> !Contains(l, MANAGED_PREFIX)
    ensures Marked(lines) == []
  {
    if lines != [] {
      MarkedNone(lines[1..]);
    }
  }

  /** Any number of stamps leaves exactly one marker line, the last stamp's, and keeps the foreign lines in order. */
  lemma {:induction false} StampsLeaveOneMarker(description: string, stamps: seq<Stamp>)
    requires forall s :: s in stamps ==> '\n' !in s.jobId && '\n' !in s.runId
    ensures var lines := VisibleLines(StampAll(description, stamps));
            Unmarked(lines) == Unmarked(VisibleLines(description)) &&
            (stamps != [] ==>
              var last := stamps[|stamps| - 1];
              Marked(lines) == [Strip(Marker(last.jobId, last.runId))] && Marked(lines)[0] == lines[|lines| - 1])
  {
    if stamps != [] {
      var last := stamps[|stamps| - 1];
      var before := StampAll(description, stamps[..|stamps| - 1]);
      var m := Marker(last.jobId, last.runId);
      StampsLeaveOneMarker(description, stamps[..|stamps| - 1]);
      StampedDescription(before, last.jobId, last.runId);
      MarkerLine(last.jobId, last.runId);
      var foreign := Unmarked(VisibleLines(before));
      UnmarkedIsUnmarked(VisibleLines(before));
      MarkedConcat(foreign, [Strip(m)]);
      MarkedNone(foreign);
      UnmarkedConcat(foreign, [Strip(m)]);
      assert [Strip(m)][1..] == [];
      assert Marked([Strip(m)]) == [Strip(m)] && Unmarked([Strip(m)]) == [];
    }
  }

  // ----- the managed test -----

  /** The ownership marker is present, as a tag or in the description. */
  predicate IsManagedText(tags: Option<string>, description: string) {
    (tags.Some? && Carries(ParseTags(tags.value), MANAGED_TAG)) || Contains(description, MANAGED_PREFIX)
  }

  lemma CarriesOneMore(kept: seq<string>, t: string, tag: string)
    ensures Carries(kept + [t], tag) <==> Carries(kept, tag) || Lower(t) == Lower(tag)
  {
    assert (kept + [t])[|kept|] == t && forall i :: 0 <= i < |kept| ==> (kept + [t])[i] == kept[i];
  }

  predicate Yields(part: string, tag: string) {
    SanitizeTag(part).Some? && Lower(SanitizeTag(part).value) == Lower(tag)
  }

  lemma {:induction false} CarriedIsKept(parts: seq<string>, tag: string)
    ensures Carries(Deduplicated(parts), tag) <==> exists i :: 0 <= i < |parts| && Yields(parts[i], tag)
  {
    if parts != [] {
      var n := |parts| - 1;
      CarriedIsKept(parts[..n], tag);
      assert forall i :: 0 <= i < n ==> parts[..n][i] == parts[i];
      if SanitizeTag(parts[n]).Some? {
        CarriesOneMore(Deduplicated(parts[..n]), SanitizeTag(parts[n]).value, tag);
      }
    }
  }

  /** The pieces of a tag list between commas and semicolons. */
  function Pieces(raw: string): seq<string> {
    Split(CommasToSemicolons(raw), ';')
  }

  /** A parsed list has a tag, up to letter case, exactly if some piece is that tag once stripped, and is neither blank
      nor a config key, a generation id or a UUID that got among the tags. */
  lemma ParsedTagsAre(raw: string, tag: string)
    ensures Carries(ParseTags(raw), tag) <==>
            exists i :: 0 <= i < |Pieces(raw)| && var t := Strip(Pieces(raw)[i]);
              Lower(t) == Lower(tag) && t != "" && !LooksLikeConfigKey(t) && !StartsWith(Lower(t), "vmgenid:") && !IsUuid(t)
  {
    CarriedIsKept(Pieces(raw), tag);
    assert forall i :: 0 <= i < |Pieces(raw)| ==> (Yields(Pieces(raw)[i], tag) <==> var t := Strip(Pieces(raw)[i]);
      Lower(t) == Lower(tag) && t != "" && !LooksLikeConfigKey(t) && !StartsWith(Lower(t), "vmgenid:") && !IsUuid(t));
  }

  lemma ManagedTagIsKept(t: string, m: string)
    requires m == MANAGED_TAG && Lower(t) == m
    ensures t != "" && !LooksLikeConfigKey(t) && !StartsWith(Lower(t), "vmgenid:") && !IsUuid(t)
  {
    ManagedTagChars(m);
    assert |t| == 14 && LowerChar(t[13]) == 'e';
    assert Lower(t)[..8][0] == 'r';
  }

  lemma LoweredTag(m: string)
    requires m == MANAGED_TAG
    ensures Lower(m) == m
  {
    assert forall i :: 0 <= i < |m| ==> LowerChar(m[i]) == m[i];
  }

  /** A guest counts as managed exactly if one of its tags is `restore-engine`, in any letter case, or its description
      has `restore-engine:` somewhere. */
  lemma ManagedIff(tags: Option<string>, description: string)
    ensures IsManagedText(tags, description) <==>
            || (tags.Some? && exists i :: 0 <= i < |Pieces(tags.value)| && Lower(Strip(Pieces(tags.value)[i])) == "restore-engine")
            || exists a, b :: a + "restore-engine:" + b == description
  {
    ContainsIff(description, MANAGED_PREFIX);
    if tags.Some? {
      ManagedTagsIff(tags.value, MANAGED_TAG);
    }
  }

  lemma ManagedTagsIff(raw: string, m: string)
    requires m == MANAGED_TAG
    ensures Carries(ParseTags(raw), m) <==> exists i :: 0 <= i < |Pieces(raw)| && Lower(Strip(Pieces(raw)[i])) == m
  {
    LoweredTag(m);
    ParsedTagsAre(raw, m);
    forall i | 0 <= i < |Pieces(raw)| && Lower(Strip(Pieces(raw)[i])) == m
      ensures Carries(ParseTags(raw), m)
    {
      ManagedTagIsKept(Strip(Pieces(raw)[i]), m);
    }
  }

  lemma StampedIsManaged(tags: Option<string>, description: string)
    ensures IsManagedText(Some(StampTags(tags)), description)
  {
    StampedTags(tags);
  }
}
