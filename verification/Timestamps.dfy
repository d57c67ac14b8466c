/** Snapshot timestamps: epoch seconds, the fixed `YYYY-MM-DDTHH:MM:SSZ` text that stands for them
    (RFC 3339, section 5.6), and cutoffs compared as strings (RFC 3339, section 5.1). */
module Timestamps {
  import opened Wrappers
  import opened Text
  import opened Numbers
  import opened Calendar

  datatype Fields = Fields(date: Date, hour: nat, minute: nat, second: nat)

  datatype ParseError = BadTimestamp

  /** 9999-12-31T23:59:59Z, the last instant `datetime` can hold. */
  const MAX_EPOCH: nat := 253402300799

  predicate InRange(f: Fields) {
    ValidDate(f.date) && 1970 <= f.date.year <= 9999 && f.hour < 24 && f.minute < 60 && f.second < 60
  }

  function ToFields(epoch: nat): Fields {
    Fields(DateOfDay(epoch / 86400), epoch / 3600 % 24, epoch / 60 % 60, epoch % 60)
  }

  function ToEpoch(f: Fields): int
    requires ValidDate(f.date) && f.date.year >= 1
  {
    86400 * DayNumber(f.date) + 3600 * f.hour + 60 * f.minute + f.second
  }

  function DateText(d: Date): (s: string)
    requires ValidDate(d) && 0 <= d.year
    ensures |s| == 10
  {
    Pad(d.year, 4) + ("-" + (Pad(d.month, 2) + ("-" + Pad(d.day, 2))))
  }

  /** `strftime("%Y-%m-%dT%H:%M:%S")`, without the zone. */
  function FieldsText(f: Fields): (s: string)
    requires InRange(f)
    ensures |s| == 19
  {
    DateText(f.date) + ("T" + (Pad(f.hour, 2) + (":" + (Pad(f.minute, 2) + (":" + Pad(f.second, 2))))))
  }

  function EpochToIsoZ(epoch: nat): (s: string)
    requires epoch <= MAX_EPOCH
  {
    FieldsInRange(epoch);
    FieldsText(ToFields(epoch)) + "Z"
  }

  lemma FieldsInRange(epoch: nat)
    requires epoch <= MAX_EPOCH
    ensures InRange(ToFields(epoch))
    ensures ToEpoch(ToFields(epoch)) == epoch
  {
    DateOfDayCounts(epoch / 86400);
    DayWithinRange(DateOfDay(epoch / 86400));
    JoinSeconds(epoch);
  }

  lemma JoinSeconds(e: nat)
    ensures 86400 * (e / 86400) + 3600 * (e / 3600 % 24) + 60 * (e / 60 % 60) + e % 60 == e
  {
    assert e / 3600 == e / 60 / 60;
    assert e / 86400 == e / 3600 / 24;
  }

  /** The supported days are those before 1 January 10000. */
  lemma DayWithinRange(d: Date)
    requires ValidDate(d) && 1970 <= d.year
    ensures 0 <= DayNumber(d)
    ensures d.year <= 9999 <==> DayNumber(d) <= 2932896
  {
    DayNumberInverse(d);
    DayInYear(d);
    if d.year < 10000 {
      YearsMonotone(d.year, 10000);
    } else if d.year > 10000 {
      YearsMonotone(10000, d.year);
    }
  }

  lemma EpochToFieldsInverse(f: Fields)
    requires InRange(f)
    ensures 0 <= ToEpoch(f) <= MAX_EPOCH
    ensures ToFields(ToEpoch(f)) == f
  {
    DayNumberInverse(f.date);
    DayWithinRange(f.date);
    SplitSeconds(DayNumber(f.date), f.hour, f.minute, f.second);
  }

  lemma SplitSeconds(day: nat, hour: nat, minute: nat, second: nat)
    requires hour < 24 && minute < 60 && second < 60
    ensures var e := 86400 * day + 3600 * hour + 60 * minute + second;
            e / 86400 == day && e / 3600 % 24 == hour && e / 60 % 60 == minute && e % 60 == second
  {
    var e := 86400 * day + 3600 * hour + 60 * minute + second;
    assert e / 86400 == day;
    assert e / 3600 == 24 * day + hour;
    assert e / 60 == 60 * (24 * day + hour) + minute;
  }

  /** The text at fixed offsets. */
  lemma FieldsTextShape(f: Fields)
    requires InRange(f)
    ensures var s := FieldsText(f);
            |s| == 19 &&
            s[..4] == Pad(f.date.year, 4) && s[4] == '-' && s[5..7] == Pad(f.date.month, 2) && s[7] == '-' &&
            s[8..10] == Pad(f.date.day, 2) && s[10] == 'T' && s[11..13] == Pad(f.hour, 2) && s[13] == ':' &&
            s[14..16] == Pad(f.minute, 2) && s[16] == ':' && s[17..19] == Pad(f.second, 2)
    ensures FieldsText(f)[..10] == DateText(f.date)
  {
  }

  predicate LooksLikeFields(t: string) {
    |t| == 19 && t[4] == '-' && t[7] == '-' && t[10] == 'T' && t[13] == ':' && t[16] == ':' &&
    AllDigits(t[..4]) && AllDigits(t[5..7]) && AllDigits(t[8..10]) &&
    AllDigits(t[11..13]) && AllDigits(t[14..16]) && AllDigits(t[17..19])
  }

  function ReadFields(t: string): Fields
    requires LooksLikeFields(t)
  {
    Fields(Date(Value(t[..4]), Value(t[5..7]), Value(t[8..10])), Value(t[11..13]), Value(t[14..16]), Value(t[17..19]))
  }

  /** `datetime.fromisoformat` on the extended format with seconds; the zone is absent or `+00:00`. */
  function ParseIso(s: string): (r: Result<nat, ParseError>) {
    if (|s| == 19 || (|s| == 25 && s[19..] == "+00:00")) && LooksLikeFields(s[..19]) &&
       InRange(ReadFields(s[..19]))
    then
      EpochToFieldsInverse(ReadFields(s[..19]));
      Success(ToEpoch(ReadFields(s[..19])))
    else Failure(BadTimestamp)
  }

  lemma ReadsPrintedFields(f: Fields)
    requires InRange(f)
    ensures LooksLikeFields(FieldsText(f)) && ReadFields(FieldsText(f)) == f
  {
    FieldsTextShape(f);
    assert Pow10(2) == 100 && Pow10(4) == 10000 by { assert Pow10(3) == 1000; }
    PadRoundTrip(f.date.year, 4);
    PadRoundTrip(f.date.month, 2);
    PadRoundTrip(f.date.day, 2);
    PadRoundTrip(f.hour, 2);
    PadRoundTrip(f.minute, 2);
    PadRoundTrip(f.second, 2);
  }

  /** Reading a printed timestamp gives back the epoch. */
  lemma IsoRoundTrip(epoch: nat)
    requires epoch <= MAX_EPOCH
    ensures var s := EpochToIsoZ(epoch);
            s[|s| - 1] == 'Z' && ParseIso(s[..|s| - 1]) == ParseIso(s[..|s| - 1] + "+00:00") == Success(epoch)
  {
    FieldsInRange(epoch);
    var t := FieldsText(ToFields(epoch));
    ReadsPrintedFields(ToFields(epoch));
    assert EpochToIsoZ(epoch)[..19] == t[..19] == (t + "+00:00")[..19] == t;
  }

  lemma PrintsReadFields(t: string)
    requires LooksLikeFields(t) && InRange(ReadFields(t))
    ensures FieldsText(ReadFields(t)) == t
  {
    PadOfValue(t[..4]);
    PadOfValue(t[5..7]);
    PadOfValue(t[8..10]);
    PadOfValue(t[11..13]);
    PadOfValue(t[14..16]);
    PadOfValue(t[17..19]);
    FieldsTextShape(ReadFields(t));
    SamePieces(FieldsText(ReadFields(t)), t);
  }

  lemma SamePieces(s: string, t: string)
    requires |s| == |t| == 19
    requires s[..4] == t[..4] && s[4] == t[4] && s[5..7] == t[5..7] && s[7] == t[7] && s[8..10] == t[8..10]
    requires s[10] == t[10] && s[11..13] == t[11..13] && s[13] == t[13] && s[14..16] == t[14..16] && s[16] == t[16]
    requires s[17..19] == t[17..19]
    ensures s == t
  {
    assert s == s[..4] + [s[4]] + s[5..7] + [s[7]] + s[8..10] + [s[10]] + s[11..13] + [s[13]] + s[14..16] + [s[16]] + s[17..19];
    assert t == t[..4] + [t[4]] + t[5..7] + [t[7]] + t[8..10] + [t[10]] + t[11..13] + [t[13]] + t[14..16] + [t[16]] + t[17..19];
  }

  /** What is read as an epoch is exactly its printed text, without the `Z`, with or without the UTC offset. */
  lemma ParseIsoIff(s: string, epoch: nat)
    ensures ParseIso(s) == Success(epoch) <==>
            epoch <= MAX_EPOCH && var t := EpochToIsoZ(epoch);
              |t| == 20 && (s == t[..19] || s == t[..19] + "+00:00")
  {
    if epoch <= MAX_EPOCH {
      IsoRoundTrip(epoch);
      FieldsInRange(epoch);
    }
    if ParseIso(s) == Success(epoch) {
      PrintsReadFields(s[..19]);
      EpochToFieldsInverse(ReadFields(s[..19]));
      assert s == s[..19] + s[19..];
    }
  }

  predicate FieldsLess(a: Fields, b: Fields) {
    Earlier(a.date, b.date) ||
    (a.date == b.date && (a.hour < b.hour || (a.hour == b.hour && (a.minute < b.minute ||
    (a.minute == b.minute && a.second < b.second)))))
  }

  lemma FieldsLessIsEpochLess(a: Fields, b: Fields)
    requires InRange(a) && InRange(b)
    ensures FieldsLess(a, b) <==> ToEpoch(a) < ToEpoch(b)
  {
    EarlierIsFewerDays(a.date, b.date);
    EarlierIsFewerDays(b.date, a.date);
  }

  lemma DateTextLess(a: Date, b: Date)
    requires ValidDate(a) && ValidDate(b) && 0 <= a.year <= 9999 && 0 <= b.year <= 9999
    ensures Less(DateText(a), DateText(b)) <==> Earlier(a, b)
    ensures DateText(a) == DateText(b) ==> a == b
  {
    assert Pow10(2) == 100 && Pow10(4) == 10000 by { assert Pow10(3) == 1000; }
    var dayA, dayB := Pad(a.day, 2), Pad(b.day, 2);
    PadLess(a.day, b.day, 2);
    CharThen('-', dayA, dayB);
    PadThen(a.month, b.month, 2, "-" + dayA, "-" + dayB);
    var monthA, monthB := Pad(a.month, 2) + ("-" + dayA), Pad(b.month, 2) + ("-" + dayB);
    CharThen('-', monthA, monthB);
    PadThen(a.year, b.year, 4, "-" + monthA, "-" + monthB);
    if DateText(a) == DateText(b) {
      LessIsTotal(DateText(a), DateText(b));
      DateTextTrichotomy(a, b);
    }
  }

  lemma DateTextTrichotomy(a: Date, b: Date)
    requires ValidDate(a) && ValidDate(b) && 0 <= a.year <= 9999 && 0 <= b.year <= 9999
    requires DateText(a) == DateText(b)
    ensures a == b
  {
    assert Pow10(2) == 100 && Pow10(4) == 10000 by { assert Pow10(3) == 1000; }
    PadRoundTrip(a.year, 4);
    PadRoundTrip(b.year, 4);
    PadRoundTrip(a.month, 2);
    PadRoundTrip(b.month, 2);
    PadRoundTrip(a.day, 2);
    PadRoundTrip(b.day, 2);
    var s := DateText(a);
    assert s[..4] == Pad(a.year, 4) && s[5..7] == Pad(a.month, 2) && s[8..10] == Pad(a.day, 2);
    assert s[..4] == Pad(b.year, 4) && s[5..7] == Pad(b.month, 2) && s[8..10] == Pad(b.day, 2);
  }

  lemma FieldsTextLess(a: Fields, b: Fields)
    requires InRange(a) && InRange(b)
    ensures Less(FieldsText(a) + "Z", FieldsText(b) + "Z") <==> FieldsLess(a, b)
  {
    assert Pow10(2) == 100;
    var secA, secB := Pad(a.second, 2), Pad(b.second, 2);
    PadLess(a.second, b.second, 2);
    CharThen(':', secA, secB);
    PadThen(a.minute, b.minute, 2, ":" + secA, ":" + secB);
    var minA, minB := Pad(a.minute, 2) + (":" + secA), Pad(b.minute, 2) + (":" + secB);
    CharThen(':', minA, minB);
    PadThen(a.hour, b.hour, 2, ":" + minA, ":" + minB);
    var hourA, hourB := Pad(a.hour, 2) + (":" + minA), Pad(b.hour, 2) + (":" + minB);
    CharThen('T', hourA, hourB);
    LessOnFields(DateText(a.date), DateText(b.date), "T" + hourA, "T" + hourB);
    DateTextLess(a.date, b.date);
    FieldsTextShape(a);
    FieldsTextShape(b);
    LessOnFields(FieldsText(a), FieldsText(b), "Z", "Z");
    LessIsTotal("Z", "Z");
  }

  /** String order is time order. */
  lemma StringOrderIsTimeOrder(a: nat, b: nat)
    requires a <= MAX_EPOCH && b <= MAX_EPOCH
    ensures Less(EpochToIsoZ(a), EpochToIsoZ(b)) <==> a < b
    ensures AtMost(EpochToIsoZ(a), EpochToIsoZ(b)) <==> a <= b
    ensures EpochToIsoZ(a) == EpochToIsoZ(b) <==> a == b
  {
    FieldsInRange(a);
    FieldsInRange(b);
    FieldsLessIsEpochLess(ToFields(a), ToFields(b));
    FieldsLessIsEpochLess(ToFields(b), ToFields(a));
    FieldsTextLess(ToFields(a), ToFields(b));
    FieldsTextLess(ToFields(b), ToFields(a));
    LessIsTotal(EpochToIsoZ(a), EpochToIsoZ(b));
  }

  const NO_UPPER_BOUND := "9999-12-31" + "T23:59:59Z"

  /** The cutoff an operator typed, as the text snapshots are compared with. */
  function NormalizeCutoff(value: string): string {
    var v := Strip(value);
    if v == "" then NO_UPPER_BOUND
    else if |v| == 10 then v + "T23:59:59Z"
    else if |v| == 16 then v + ":59Z"
    else if v[|v| - 1] != 'Z' then v + "Z"
    else v
  }

  /** A snapshot passes a cutoff exactly as `row["timestamp"] <= cutoff` does. */
  predicate Admits(cutoff: string, epoch: nat)
    requires epoch <= MAX_EPOCH
  {
    AtMost(EpochToIsoZ(epoch), cutoff)
  }

  lemma FieldsToIsoZ(f: Fields)
    requires InRange(f)
    ensures 0 <= ToEpoch(f) <= MAX_EPOCH && EpochToIsoZ(ToEpoch(f)) == FieldsText(f) + "Z"
  {
    EpochToFieldsInverse(f);
  }

  lemma EndOfDayText(d: Date)
    requires ValidDate(d) && 1970 <= d.year <= 9999
    ensures FieldsText(Fields(d, 23, 59, 59)) + "Z" == DateText(d) + "T23:59:59Z"
  {
    assert Pad(23, 2) == "23" && Pad(59, 2) == "59";
  }

  lemma NoUpperBoundIsLast(d: Date)
    requires d == Date(9999, 12, 31)
    ensures DateText(d) == "9999-12-31"
  {
    LastYearText(d.year);
    assert Pad(12, 2) == "12" && Pad(31, 2) == "31";
  }

  lemma LastYearText(year: int)
    requires year == 9999
    ensures Pad(year, 4) == "9999"
  {
    assert Pad(999, 3) == Pad(99, 2) + "9";
    assert Pad(99, 2) == "99";
  }

  lemma LastInstant(f: Fields)
    requires f.date.year == 9999 && f.date.month == 12 && f.date.day == 31
    requires f.hour == 23 && f.minute == 59 && f.second == 59
    ensures ToEpoch(f) == MAX_EPOCH
  {
    MonthsFillYear(9999);
    assert DaysBeforeMonth(9999, 13) == DaysBeforeMonth(9999, 12) + 31;
  }

  lemma TextEnds(f: Fields)
    requires InRange(f)
    ensures var t := FieldsText(f);
            IsDigit(t[0]) && IsDigit(t[9]) && IsDigit(t[15]) && IsDigit(t[18])
  {
    var t := FieldsText(f);
    FieldsTextShape(f);
    assert t[0] == t[..4][0];
    assert t[9] == t[8..10][1];
    assert t[15] == t[14..16][1];
    assert t[18] == t[17..19][1];
  }

  /** Printed fields start and end in a digit, so stripping leaves them alone. */
  lemma TextIsTrimmed(f: Fields)
    requires InRange(f)
    ensures var t := FieldsText(f);
            Trimmed(t) && Trimmed(t + "Z") && Trimmed(t[..16]) && Trimmed(t[..10]) && IsDigit(t[18])
  {
    TextEnds(f);
  }

  /** An empty cutoff admits every snapshot. */
  lemma EmptyCutoff(value: string, epoch: nat)
    requires Strip(value) == "" && epoch <= MAX_EPOCH
    ensures Admits(NormalizeCutoff(value), epoch)
  {
    var last := Fields(Date(9999, 12, 31), 23, 59, 59);
    NoUpperBoundIsLast(last.date);
    EndOfDayText(last.date);
    LastInstant(last);
    FieldsToIsoZ(last);
    StringOrderIsTimeOrder(epoch, ToEpoch(last));
  }

  /** A date-only cutoff admits exactly the snapshots up to the end of that UTC day. */
  lemma DateCutoff(d: Date, epoch: nat)
    requires ValidDate(d) && 1970 <= d.year <= 9999 && epoch <= MAX_EPOCH
    ensures Admits(NormalizeCutoff(DateText(d)), epoch) <==> epoch < 86400 * (DayNumber(d) + 1)
  {
    var f := Fields(d, 23, 59, 59);
    FieldsToIsoZ(f);
    EndOfDayText(d);
    FieldsTextShape(f);
    TextIsTrimmed(f);
    StripTrimmed(DateText(d));
    StringOrderIsTimeOrder(epoch, ToEpoch(f));
  }

  /** A minute cutoff admits exactly the snapshots up to the end of that UTC minute. */
  lemma MinuteCutoff(f: Fields, epoch: nat)
    requires InRange(f) && f.second == 0 && epoch <= MAX_EPOCH
    ensures Admits(NormalizeCutoff(FieldsText(f)[..16]), epoch) <==> epoch < ToEpoch(f) + 60
  {
    var g := f.(second := 59);
    FieldsToIsoZ(g);
    MinuteText(f, g);
    TextIsTrimmed(f);
    MinuteNormalized(FieldsText(f)[..16]);
    assert FieldsText(f)[..16] + ":59Z" == FieldsText(g) + "Z";
    StringOrderIsTimeOrder(epoch, ToEpoch(g));
  }

  lemma MinuteNormalized(v: string)
    requires Trimmed(v) && |v| == 16
    ensures NormalizeCutoff(v) == v + ":59Z"
  {
    StripTrimmed(v);
  }

  lemma MinuteText(f: Fields, g: Fields)
    requires InRange(f) && g == f.(second := 59)
    ensures |FieldsText(f)| == 19 && FieldsText(g) == FieldsText(f)[..16] + ":59"
  {
    assert Pad(59, 2) == "59";
    var head := DateText(f.date) + ("T" + (Pad(f.hour, 2) + (":" + Pad(f.minute, 2))));
    assert FieldsText(f) == head + (":" + Pad(f.second, 2));
    assert FieldsText(g) == head + (":" + Pad(g.second, 2));
  }

  /** A full timestamp, with or without its `Z`, admits exactly the snapshots at or before it. */
  lemma ExactCutoff(limit: nat, epoch: nat)
    requires limit <= MAX_EPOCH && epoch <= MAX_EPOCH
    ensures Admits(NormalizeCutoff(EpochToIsoZ(limit)), epoch) <==> epoch <= limit
    ensures NormalizeCutoff(EpochToIsoZ(limit)[..19]) == NormalizeCutoff(EpochToIsoZ(limit)) == EpochToIsoZ(limit)
  {
    FieldsInRange(limit);
    var f := ToFields(limit);
    FieldsTextShape(f);
    TextIsTrimmed(f);
    var s, t := EpochToIsoZ(limit), FieldsText(f);
    assert s == t + "Z" && s[..19] == t;
    StripTrimmed(s);
    StripTrimmed(t);
    StringOrderIsTimeOrder(epoch, limit);
  }
}
