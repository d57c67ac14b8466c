/** The backup id of a snapshot: printed when PBS snapshots are listed, parsed when a job needs
    the source, the backup group and the snapshot time back. */
module BackupRef {
  import opened Wrappers
  import opened Text
  import opened Numbers
  import opened Calendar
  import opened Timestamps

  datatype Ref = Ref(sourceId: string, backupGroup: string, epoch: nat)

  datatype RefError = NoSeparator | BadVolumeTail | BadSnapshotTime

  function VolumeTail(vmid: int, epoch: nat): string
    requires epoch <= MAX_EPOCH
  {
    "vm" + ['/'] + (IntText(vmid) + ['/'] + EpochToIsoZ(epoch))
  }

  function BackupId(sourceId: string, vmid: int, epoch: nat): string
    requires epoch <= MAX_EPOCH
  {
    sourceId + "|" + VolumeTail(vmid, epoch)
  }

  function IndexOf(s: string, c: char): (i: nat)
    requires c in s
    ensures i < |s| && s[i] == c && c !in s[..i]
  {
    if s[0] == c then 0 else 1 + IndexOf(s[1..], c)
  }

  /** `s.strip("/")`. */
  function StripSlashes(s: string): string
    decreases |s|
  {
    if s != "" && s[0] == '/' then StripSlashes(s[1..])
    else if s != "" && s[|s| - 1] == '/' then StripSlashes(s[..|s| - 1])
    else s
  }

  function NonEmpty(parts: seq<string>): seq<string> {
    if parts == [] then [] else (if parts[0] == "" then [] else [parts[0]]) + NonEmpty(parts[1..])
  }

  function Zoned(iso: string): string {
    if iso != "" && iso[|iso| - 1] == 'Z' then iso[..|iso| - 1] + "+00:00" else iso
  }

  function ParseBackupRef(backupId: string): (r: Result<Ref, RefError>) {
    var raw := Strip(backupId);
    if '|' !in raw then Failure(NoSeparator)
    else
      var bar := IndexOf(raw, '|');
      var parts := NonEmpty(Split(StripSlashes(Strip(raw[bar + 1..])), '/'));
      if |parts| < 3 || Lower(parts[0]) != "vm" then Failure(BadVolumeTail)
      else
        var iso := parts[2];
        match ParseIso(Zoned(iso))
        case Success(epoch) => Success(Ref(Strip(raw[..bar]), parts[1], epoch))
        case Failure(_) => Failure(BadSnapshotTime)
  }

  lemma IsoChars(epoch: nat)
    requires epoch <= MAX_EPOCH
    ensures var s := EpochToIsoZ(epoch);
            '/' !in s && |s| == 20 && s[19] == 'Z'
  {
    FieldsInRange(epoch);
    var f := ToFields(epoch);
    NoSlashInDate(f.date);
    NoSlashInDigits(Pad(f.hour, 2));
    NoSlashInDigits(Pad(f.minute, 2));
    NoSlashInDigits(Pad(f.second, 2));
    assert EpochToIsoZ(epoch) == FieldsText(f) + "Z";
  }

  lemma NoSlashInDigits(s: string)
    requires AllDigits(s)
    ensures '/' !in s
  {
  }

  lemma NoSlashInDate(d: Date)
    requires ValidDate(d) && 0 <= d.year
    ensures '/' !in DateText(d)
  {
    NoSlashInDigits(Pad(d.year, 4));
    NoSlashInDigits(Pad(d.month, 2));
    NoSlashInDigits(Pad(d.day, 2));
  }

  lemma VolumeTailParts(vmid: int, epoch: nat)
    requires epoch <= MAX_EPOCH
    ensures var tail := VolumeTail(vmid, epoch);
            Strip(tail) == StripSlashes(tail) == tail && tail[|tail| - 1] == 'Z' &&
            Split(tail, '/') == ["vm", IntText(vmid), EpochToIsoZ(epoch)]
  {
    var tail, iso := VolumeTail(vmid, epoch), EpochToIsoZ(epoch);
    IsoChars(epoch);
    IntTextChars(vmid);
    assert tail[|tail| - 1] == iso[19];
    StripTrimmed(tail);
    SplitAtom("vm", '/');
    SplitAtom(IntText(vmid), '/');
    SplitAtom(iso, '/');
    SplitConcat(IntText(vmid), '/', iso);
    SplitConcat("vm", '/', IntText(vmid) + ['/'] + iso);
  }

  lemma {:induction false} FirstBar(sourceId: string, tail: string)
    requires '|' !in sourceId
    ensures '|' in sourceId + "|" + tail && IndexOf(sourceId + "|" + tail, '|') == |sourceId|
  {
    var raw := sourceId + "|" + tail;
    assert raw[|sourceId|] == '|';
    if sourceId != "" {
      FirstBar(sourceId[1..], tail);
      assert raw[1..] == sourceId[1..] + "|" + tail;
    }
  }

  lemma PrintedIsTrimmed(sourceId: string, tail: string)
    requires Trimmed(sourceId) && tail != "" && tail[|tail| - 1] == 'Z'
    ensures Strip(sourceId + "|" + tail) == sourceId + "|" + tail
  {
    var raw := sourceId + "|" + tail;
    assert raw[|raw| - 1] == tail[|tail| - 1];
    assert sourceId != "" ==> raw[0] == sourceId[0];
    StripTrimmed(raw);
  }

  lemma ParsesPieces(sourceId: string, group: string, iso: string, tail: string, epoch: nat)
    requires '|' !in sourceId && Strip(sourceId) == sourceId
    requires Strip(sourceId + "|" + tail) == sourceId + "|" + tail
    requires StripSlashes(Strip(tail)) == tail && Split(tail, '/') == ["vm", group, iso]
    requires group != "" && iso != "" && ParseIso(Zoned(iso)) == Success(epoch)
    ensures ParseBackupRef(sourceId + "|" + tail) == Success(Ref(sourceId, group, epoch))
  {
    var raw := sourceId + "|" + tail;
    FirstBar(sourceId, tail);
    assert raw[|sourceId| + 1..] == tail && raw[..|sourceId|] == sourceId;
    KeepsNonEmpty("vm", group, iso);
    assert Lower("vm") == "vm";
  }

  /** Parsing a printed backup id returns the source, the VMID text and the snapshot epoch. */
  lemma BackupIdRoundTrip(sourceId: string, vmid: int, epoch: nat)
    requires '|' !in sourceId && Strip(sourceId) == sourceId
    requires epoch <= MAX_EPOCH
    ensures ParseBackupRef(BackupId(sourceId, vmid, epoch)) == Success(Ref(sourceId, IntText(vmid), epoch))
  {
    var tail, iso := VolumeTail(vmid, epoch), EpochToIsoZ(epoch);
    VolumeTailParts(vmid, epoch);
    StripTrimmed(sourceId);
    PrintedIsTrimmed(sourceId, tail);
    IntTextChars(vmid);
    IsoChars(epoch);
    IsoRoundTrip(epoch);
    ParsesPieces(sourceId, IntText(vmid), iso, tail, epoch);
  }

  lemma {:induction false} NonEmptyConcat(a: seq<string>, b: seq<string>)
    ensures NonEmpty(a + b) == NonEmpty(a) + NonEmpty(b)
  {
    if a == [] {
      assert a + b == b;
    } else {
      NonEmptyConcat(a[1..], b);
      assert (a + b)[1..] == a[1..] + b && (a + b)[0] == a[0];
    }
  }

  /** The slashes around the tail make no difference: they only add empty parts. */
  lemma {:induction false} SlashesAreEmptyParts(s: string)
    ensures NonEmpty(Split(StripSlashes(s), '/')) == NonEmpty(Split(s, '/'))
    decreases |s|
  {
    var n := |s| - 1;
    if s != "" && s[0] == '/' {
      SlashesAreEmptyParts(s[1..]);
      NonEmptyConcat([""], Split(s[1..], '/'));
    } else if s != "" && s[n] == '/' {
      SlashesAreEmptyParts(s[..n]);
      assert s == s[..n] + ['/'] + "";
      SplitConcat(s[..n], '/', "");
      NonEmptyConcat(Split(s[..n], '/'), [""]);
    }
  }

  lemma NoSeparatorIff(backupId: string)
    ensures ParseBackupRef(backupId) == Failure(NoSeparator) <==> '|' !in backupId
  {
    if '|' in backupId {
      var i :| 0 <= i < |backupId| && backupId[i] == '|';
      assert backupId == backupId[..i] + ['|'] + backupId[i + 1..];
      StripAround(backupId[..i], '|', backupId[i + 1..]);
      var raw := TrimLeft(backupId[..i]) + ['|'] + TrimRight(backupId[i + 1..]);
      assert raw[|TrimLeft(backupId[..i])|] == '|';
    } else {
      StripKeepsChars(backupId, '|');
    }
  }

  /** What the parts between the slashes of a tail are read as. */
  ghost function Reading(source: string, parts: seq<string>): Result<Ref, RefError> {
    if |parts| < 3 || Lower(parts[0]) != "vm" then Failure(BadVolumeTail)
    else
      var iso := parts[2];
      var zoned := if iso != "" && iso[|iso| - 1] == 'Z' then iso[..|iso| - 1] + "+00:00" else iso;
      match ParseIso(zoned)
      case Success(epoch) => Success(Ref(source, parts[1], epoch))
      case Failure(_) => Failure(BadSnapshotTime)
  }

  lemma ReadsStripped(backupId: string, left: string, right: string)
    requires '|' !in left && Strip(backupId) == left + "|" + right
    ensures ParseBackupRef(backupId) == Reading(Strip(left), NonEmpty(Split(StripSlashes(Strip(right)), '/')))
  {
    var raw := left + "|" + right;
    FirstBar(left, right);
    assert raw[|left| + 1..] == right && raw[..|left|] == left;
  }

  /** Which ids are read, and as what: with a separator, the tail after the first one must have at least three non-empty
      parts between slashes, the first of them `vm` in any letter case and the third a timestamp; the source is what
      stands before the separator, stripped. */
  lemma ParsesIff(sourceId: string, tail: string)
    requires '|' !in sourceId
    ensures ParseBackupRef(sourceId + "|" + tail) == Reading(Strip(sourceId), NonEmpty(Split(Strip(tail), '/')))
  {
    var left, right := TrimLeft(sourceId), TrimRight(tail);
    StripAround(sourceId, '|', tail);
    TrimLeftKeeps(sourceId, '|');
    ReadsStripped(sourceId + "|" + tail, left, right);
    StripOfTrimRight(tail);
    TrimLeftHead(sourceId);
    SlashesAreEmptyParts(Strip(tail));
  }

  lemma KeepsNonEmpty(a: string, b: string, c: string)
    requires a != "" && b != "" && c != ""
    ensures NonEmpty([a, b, c]) == [a, b, c]
  {
    assert [a, b, c][1..] == [b, c] && [b, c][1..] == [c];
    assert NonEmpty([c]) == [c];
    assert NonEmpty([b, c]) == [b, c];
  }

  /** Distinct snapshots never share a backup id, within or across sources. */
  lemma BackupIdsDistinct(s1: string, v1: int, e1: nat, s2: string, v2: int, e2: nat)
    requires '|' !in s1 && Strip(s1) == s1 && '|' !in s2 && Strip(s2) == s2
    requires e1 <= MAX_EPOCH && e2 <= MAX_EPOCH
    requires BackupId(s1, v1, e1) == BackupId(s2, v2, e2)
    ensures s1 == s2 && v1 == v2 && e1 == e2
  {
    BackupIdRoundTrip(s1, v1, e1);
    BackupIdRoundTrip(s2, v2, e2);
    IntTextInjective(v1, v2);
  }

  lemma IntTextInjective(a: int, b: int)
    requires IntText(a) == IntText(b)
    ensures a == b
  {
    IntTextSign(a);
    IntTextSign(b);
    NatTextRoundTrip(if a < 0 then -a else a);
    NatTextRoundTrip(if b < 0 then -b else b);
    if a < 0 {
      assert IntText(a)[1..] == NatText(-a);
      assert IntText(b)[1..] == NatText(-b);
    }
  }

  lemma IntTextSign(a: int)
    ensures IntText(a)[0] == '-' <==> a < 0
  {
  }
}
