/** Which backups a recovery group restores: the newest eligible snapshot per VMID, the union of the
    group's selectors, minus its exclusions. */
module Members {
  import opened Sets
  import opened Text
  import opened Timestamps

  datatype Row = Row(vmid: int, timestamp: string, name: string, backupId: string,
                     sourceId: string, serverId: string, sourceLabel: string, datastore: string)

  datatype Range = Range(first: int, last: int)

  datatype Group = Group(sourceIds: seq<string>, vmids: seq<int>, ranges: seq<Range>, namePatterns: seq<string>,
                         tags: seq<string>, excludeVmids: seq<int>, excludePatterns: seq<string>)

  /** Guest-name matching is a parameter: a name and a non-empty pattern list. */
  type Matcher = (string, seq<string>) -> bool

  type TagMap = map<string, seq<string>>

  function Lowered(words: seq<string>): set<string> {
    set w | w in words :: Lower(w)
  }

  function WantedTags(tags: seq<string>): set<string> {
    set t | t in tags && Strip(t) != "" :: Lower(t)
  }

  predicate FromSource(row: Row, sources: set<string>) {
    sources == {} || Lower(if row.sourceId != "" then row.sourceId else row.serverId) in sources ||
    Lower(row.sourceLabel) in sources
  }

  predicate IsEligible(row: Row, cutoff: string, sources: set<string>) {
    AtMost(row.timestamp, cutoff) && FromSource(row, sources)
  }

  function Eligible(rows: seq<Row>, cutoff: string, sources: set<string>): (r: seq<Row>)
    ensures forall x :: x in r <==> x in rows && IsEligible(x, cutoff, sources)
  {
    if rows == [] then []
    else
      var n := |rows| - 1;
      Eligible(rows[..n], cutoff, sources) + (if IsEligible(rows[n], cutoff, sources) then [rows[n]] else [])
  }

  /** Row `i` is the newest of its VMID, the earliest listed among equally new ones. */
  ghost predicate IsNewest(rows: seq<Row>, i: nat) {
    i < |rows| && forall j :: 0 <= j < |rows| && rows[j].vmid == rows[i].vmid ==>
      AtMost(rows[j].timestamp, rows[i].timestamp) && (j < i ==> Less(rows[j].timestamp, rows[i].timestamp))
  }

  /** Exactly one newest row per VMID that occurs. */
  ghost predicate IsNewestPerVmid(rows: seq<Row>, best: map<int, Row>) {
    && (forall i :: 0 <= i < |rows| ==> rows[i].vmid in best)
    && forall v :: v in best ==> exists i: nat :: IsNewest(rows, i) && rows[i].vmid == v && best[v] == rows[i]
  }

  /** The best map is keyed by its rows' VMIDs. */
  ghost predicate Keyed(best: map<int, Row>) {
    forall v :: v in best ==> best[v].vmid == v
  }

  lemma NewestIsUnique(rows: seq<Row>, a: map<int, Row>, b: map<int, Row>)
    requires IsNewestPerVmid(rows, a) && IsNewestPerVmid(rows, b)
    ensures a == b
  {
    forall v | v in a
      ensures v in b && a[v] == b[v]
    {
      var i: nat :| IsNewest(rows, i) && rows[i].vmid == v && a[v] == rows[i];
      var j: nat :| IsNewest(rows, j) && rows[j].vmid == v && b[v] == rows[j];
      LessIsTotal(rows[i].timestamp, rows[j].timestamp);
    }
    forall v | v in b
      ensures v in a
    {
      var j: nat :| IsNewest(rows, j) && rows[j].vmid == v && b[v] == rows[j];
    }
  }

  /** A row replaces the one kept for its VMID only if it is strictly newer. */
  predicate Wins(best: map<int, Row>, row: Row) {
    row.vmid !in best || Less(best[row.vmid].timestamp, row.timestamp)
  }

  function Keep(best: map<int, Row>, row: Row): map<int, Row> {
    if Wins(best, row) then best[row.vmid := row] else best
  }

  /** The scan over all rows in list order. */
  function Newest(rows: seq<Row>): map<int, Row> {
    if rows == [] then map[] else Keep(Newest(rows[..|rows| - 1]), rows[|rows| - 1])
  }

  lemma NewestSnoc(rows: seq<Row>, row: Row)
    ensures Newest(rows + [row]) == Keep(Newest(rows), row)
  {
    assert (rows + [row])[..|rows|] == rows;
  }

  /** The scan keeps exactly one row per VMID that occurs: the newest, the earliest listed on a tie. */
  lemma {:induction false} ScanFindsNewest(rows: seq<Row>)
    ensures IsNewestPerVmid(rows, Newest(rows))
  {
    if rows != [] {
      var n := |rows| - 1;
      var init, last := rows[..n], rows[n];
      assert rows == init + [last];
      ScanFindsNewest(init);
      NewestStep(init, Newest(init), last);
    }
  }

  lemma {:induction false} ScanIsKeyed(rows: seq<Row>)
    ensures Keyed(Newest(rows))
  {
    if rows != [] {
      ScanIsKeyed(rows[..|rows| - 1]);
    }
  }

  lemma NewestStep(rows: seq<Row>, best: map<int, Row>, row: Row)
    requires IsNewestPerVmid(rows, best)
    ensures IsNewestPerVmid(rows + [row], Keep(best, row))
  {
    var all, next := rows + [row], Keep(best, row);
    forall v | v in next
      ensures exists i: nat :: IsNewest(all, i) && all[i].vmid == v && next[v] == all[i]
    {
      if v == row.vmid && Wins(best, row) {
        NewRowWins(rows, best, row);
        assert IsNewest(all, |rows|);
      } else {
        var i: nat :| IsNewest(rows, i) && rows[i].vmid == v && best[v] == rows[i];
        assert all[i] == rows[i];
        LessIsTotal(row.timestamp, rows[i].timestamp);
        assert IsNewest(all, i);
      }
    }
  }

  lemma NewRowWins(rows: seq<Row>, best: map<int, Row>, row: Row)
    requires IsNewestPerVmid(rows, best)
    requires Wins(best, row)
    ensures IsNewest(rows + [row], |rows|)
  {
    LessIsTotal(row.timestamp, row.timestamp);
    forall j | 0 <= j < |rows| && rows[j].vmid == row.vmid
      ensures Less(rows[j].timestamp, row.timestamp) && AtMost(rows[j].timestamp, row.timestamp)
    {
      var i: nat :| IsNewest(rows, i) && rows[i].vmid == row.vmid && best[row.vmid] == rows[i];
      LessIsTotal(rows[i].timestamp, row.timestamp);
      LessTransitive(rows[j].timestamp, rows[i].timestamp, row.timestamp);
      LessIsTotal(rows[j].timestamp, row.timestamp);
    }
  }

  method LatestPerVmid(rows: seq<Row>, cutoff: string) returns (best: map<int, Row>)
    ensures best == Newest(Eligible(rows, cutoff, {}))
  {
    best := map[];
    for i := 0 to |rows|
      invariant best == Newest(Eligible(rows[..i], cutoff, {}))
    {
      var row := rows[i];
      ghost var before := Eligible(rows[..i], cutoff, {});
      assert rows[..i + 1][..i] == rows[..i];
      if Less(cutoff, row.timestamp) {
        assert before + [] == before;
        continue;
      }
      NewestSnoc(before, row);
      if Wins(best, row) {
        best := best[row.vmid := row];
      }
    }
    assert rows[..|rows|] == rows;
  }

  lemma NewestBeats(rows: seq<Row>, row: Row) returns (winner: Row)
    requires row in rows
    ensures row.vmid in Newest(rows) && winner == Newest(rows)[row.vmid]
    ensures winner in rows && AtMost(row.timestamp, winner.timestamp)
  {
    var best := Newest(rows);
    ScanFindsNewest(rows);
    var n :| 0 <= n < |rows| && rows[n] == row;
    var j: nat :| IsNewest(rows, j) && rows[j].vmid == row.vmid && best[row.vmid] == rows[j];
    winner := rows[j];
  }

  /** With printed timestamps, the newest row under the cutoff text is the one with the latest epoch at or
      before the cutoff epoch. */
  lemma NewestIsLatestInTime(rows: seq<Row>, epochs: seq<nat>, limit: nat, i: nat) returns (k: nat)
    requires |epochs| == |rows| && limit <= MAX_EPOCH
    requires forall j :: 0 <= j < |rows| ==> epochs[j] <= MAX_EPOCH && rows[j].timestamp == EpochToIsoZ(epochs[j])
    requires i < |rows| && epochs[i] <= limit
    ensures var best := Newest(Eligible(rows, EpochToIsoZ(limit), {}));
            k < |rows| && rows[i].vmid in best && best[rows[i].vmid] == rows[k]
    ensures epochs[i] <= epochs[k] <= limit
  {
    StringOrderIsTimeOrder(epochs[i], limit);
    var eligible := Eligible(rows, EpochToIsoZ(limit), {});
    assert rows[i] in eligible;
    var row := NewestBeats(eligible, rows[i]);
    k := IndexOfRow(rows, row);
    StringOrderIsTimeOrder(epochs[i], epochs[k]);
    StringOrderIsTimeOrder(epochs[k], limit);
  }

  lemma IndexOfRow(rows: seq<Row>, row: Row) returns (k: nat)
    requires row in rows
    ensures k < |rows| && rows[k] == row
  {
    k :| 0 <= k < |rows| && rows[k] == row;
  }

  predicate InRanges(vmid: int, ranges: seq<Range>) {
    exists i | 0 <= i < |ranges| :: ranges[i].first <= vmid <= ranges[i].last
  }

  method VmidInRanges(vmid: int, ranges: seq<Range>) returns (r: bool)
    ensures r == InRanges(vmid, ranges)
  {
    for i := 0 to |ranges|
      invariant forall k :: 0 <= k < i ==> !(ranges[k].first <= vmid <= ranges[k].last)
    {
      if ranges[i].first <= vmid <= ranges[i].last {
        return true;
      }
    }
    return false;
  }

  function TagsOf(tags: TagMap, row: Row): seq<string> {
    if row.backupId in tags then tags[row.backupId] else []
  }

  predicate MatchesTags(group: Group, tags: TagMap, row: Row) {
    WantedTags(group.tags) != {} && WantedTags(group.tags) <= Lowered(TagsOf(tags, row))
  }

  predicate MatchesName(m: Matcher, name: string, raw: seq<string>) {
    Clean(raw) != [] && m(name, Clean(raw))
  }

  /** Some selector other than the tags picks the guest. */
  predicate ChosenByIdentity(group: Group, m: Matcher, row: Row) {
    row.vmid in group.vmids || InRanges(row.vmid, group.ranges) || MatchesName(m, row.name, group.namePatterns)
  }

  predicate IsExcluded(group: Group, m: Matcher, row: Row) {
    row.vmid in group.excludeVmids || MatchesName(m, row.name, group.excludePatterns)
  }

  predicate IsMember(group: Group, m: Matcher, tags: TagMap, row: Row) {
    (ChosenByIdentity(group, m, row) || MatchesTags(group, tags, row)) && !IsExcluded(group, m, row)
  }

  /** The rows are the members among the newest ones, in increasing VMID order. */
  ghost predicate IsResolution(group: Group, m: Matcher, tags: TagMap, best: map<int, Row>, r: seq<Row>) {
    && (forall i, j :: 0 <= i < j < |r| ==> r[i].vmid < r[j].vmid)
    && (forall i :: 0 <= i < |r| ==> r[i].vmid in best && r[i] == best[r[i].vmid] && IsMember(group, m, tags, r[i]))
    && (forall v :: v in best && IsMember(group, m, tags, best[v]) ==> best[v] in r)
  }

  /** The group names no source, or one that is the row's source, or its server where it has none, or its label, up to
      letter case. */
  ghost predicate IsInSources(group: Group, row: Row) {
    group.sourceIds == [] ||
    exists s :: s in group.sourceIds &&
                (Lower(s) == Lower(if row.sourceId == "" then row.serverId else row.sourceId) ||
                 Lower(s) == Lower(row.sourceLabel))
  }

  /** The row is at or before the cutoff and from a source of the group. */
  ghost predicate IsOnOffer(group: Group, cutoff: string, backups: seq<Row>, row: Row) {
    row in backups && !Less(cutoff, row.timestamp) && IsInSources(group, row)
  }

  /** Up to letter case the guest has every tag of the group that is not blank, and there is one. */
  ghost predicate HasAllTags(group: Group, tags: TagMap, row: Row) {
    && (exists t :: t in group.tags && Strip(t) != "")
    && forall t :: t in group.tags && Strip(t) != "" ==>
         row.backupId in tags && exists u :: u in tags[row.backupId] && Lower(u) == Lower(t)
  }

  ghost predicate IsInRange(group: Group, vmid: int) {
    exists i :: 0 <= i < |group.ranges| && group.ranges[i].first <= vmid && vmid <= group.ranges[i].last
  }

  /** Named by VMID, by range, by a name pattern or by its tags, and neither excluded by VMID nor by name. */
  ghost predicate IsWanted(group: Group, m: Matcher, tags: TagMap, row: Row) {
    && (row.vmid in group.vmids || IsInRange(group, row.vmid) || HasAllTags(group, tags, row) ||
        (Clean(group.namePatterns) != [] && m(row.name, Clean(group.namePatterns))))
    && row.vmid !in group.excludeVmids
    && !(Clean(group.excludePatterns) != [] && m(row.name, Clean(group.excludePatterns)))
  }

  lemma TagsMatchIff(group: Group, tags: TagMap, row: Row)
    ensures MatchesTags(group, tags, row) <==> HasAllTags(group, tags, row)
  {
    var wanted, has := WantedTags(group.tags), Lowered(TagsOf(tags, row));
    if MatchesTags(group, tags, row) {
      forall t | t in group.tags && Strip(t) != ""
        ensures row.backupId in tags && exists u :: u in tags[row.backupId] && Lower(u) == Lower(t)
      {
        assert Lower(t) in wanted && Lower(t) in has;
      }
    }
    if HasAllTags(group, tags, row) {
      var t :| t in group.tags && Strip(t) != "";
      assert Lower(t) in wanted;
    }
  }

  lemma MemberIff(group: Group, m: Matcher, tags: TagMap, row: Row)
    ensures IsMember(group, m, tags, row) <==> IsWanted(group, m, tags, row)
  {
    TagsMatchIff(group, tags, row);
  }

  lemma EligibleIff(group: Group, cutoff: string, backups: seq<Row>, row: Row)
    ensures row in Eligible(backups, cutoff, Lowered(group.sourceIds)) <==> IsOnOffer(group, cutoff, backups, row)
  {
    var sources := Lowered(group.sourceIds);
    if group.sourceIds != [] {
      assert Lower(group.sourceIds[0]) in sources;
    }
  }

  lemma ResolvedIsNewest(group: Group, m: Matcher, tags: TagMap, eligible: seq<Row>, r: seq<Row>, row: Row, x: Row)
    requires IsResolution(group, m, tags, Newest(eligible), r) && row in r
    ensures row in eligible && IsMember(group, m, tags, row)
    ensures x in eligible && x.vmid == row.vmid ==> !Less(row.timestamp, x.timestamp)
  {
    ScanFindsNewest(eligible);
    var k :| 0 <= k < |r| && r[k] == row;
    var i: nat :| IsNewest(eligible, i) && eligible[i].vmid == row.vmid && Newest(eligible)[row.vmid] == eligible[i];
    if x in eligible {
      var n :| 0 <= n < |eligible| && eligible[n] == x;
    }
  }

  /** A resolved row is on offer, wanted and as new as any row on offer for its VMID; and for every row on offer the
      newest one of its VMID is resolved if it is wanted. */
  lemma ResolvedRowsAre(group: Group, m: Matcher, tags: TagMap, backups: seq<Row>, cutoff: string, r: seq<Row>, row: Row)
    requires IsResolution(group, m, tags, Newest(Eligible(backups, cutoff, Lowered(group.sourceIds))), r)
    ensures row in r ==>
              && IsOnOffer(group, cutoff, backups, row) && IsWanted(group, m, tags, row)
              && forall x :: IsOnOffer(group, cutoff, backups, x) && x.vmid == row.vmid ==>
                   !Less(row.timestamp, x.timestamp)
    ensures IsOnOffer(group, cutoff, backups, row) ==>
              exists x :: IsOnOffer(group, cutoff, backups, x) && x.vmid == row.vmid &&
                          !Less(x.timestamp, row.timestamp) && (IsWanted(group, m, tags, x) ==> x in r)
  {
    var eligible := Eligible(backups, cutoff, Lowered(group.sourceIds));
    EligibleIff(group, cutoff, backups, row);
    if row in r {
      ResolvedIsNewest(group, m, tags, eligible, r, row, row);
      MemberIff(group, m, tags, row);
      forall x | IsOnOffer(group, cutoff, backups, x) && x.vmid == row.vmid
        ensures !Less(row.timestamp, x.timestamp)
      {
        EligibleIff(group, cutoff, backups, x);
        ResolvedIsNewest(group, m, tags, eligible, r, row, x);
      }
    }
    if IsOnOffer(group, cutoff, backups, row) {
      var x := NewestBeats(eligible, row);
      ScanIsKeyed(eligible);
      EligibleIff(group, cutoff, backups, x);
      MemberIff(group, m, tags, x);
    }
  }

  /** Adds the VMIDs whose row satisfies a test, one at a time. */
  method AddMatching(best: map<int, Row>, test: Row -> bool, selected: set<int>) returns (r: set<int>)
    ensures r == selected + set v | v in best && test(best[v])
  {
    r := selected;
    var todo := best.Keys;
    while todo != {}
      invariant todo <= best.Keys
      invariant r == selected + set v | v in best && v !in todo && test(best[v])
      decreases todo
    {
      var v := Choose(todo);
      if test(best[v]) {
        r := r + {v};
      }
      todo := todo - {v};
    }
  }

  method AddExplicit(best: map<int, Row>, vmids: seq<int>, selected: set<int>) returns (r: set<int>)
    ensures r == selected + set v | v in best && v in vmids
  {
    r := selected;
    for i := 0 to |vmids|
      invariant r == selected + set v | v in best && v in vmids[..i]
    {
      assert vmids[..i + 1] == vmids[..i] + [vmids[i]];
      if vmids[i] in best {
        r := r + {vmids[i]};
      }
    }
    assert vmids[..|vmids|] == vmids;
  }

  method DropExcluded(group: Group, m: Matcher, best: map<int, Row>, selected: set<int>) returns (kept: set<int>)
    requires selected <= best.Keys && Keyed(best)
    ensures kept == set v | v in selected && !IsExcluded(group, m, best[v])
  {
    if group.excludeVmids == [] && Clean(group.excludePatterns) == [] {
      kept := selected;
      assert kept == set v | v in selected && !IsExcluded(group, m, best[v]);
      return;
    }
    kept := {};
    var todo := selected;
    while todo != {}
      invariant todo <= selected
      invariant kept == set v | v in selected && v !in todo && !IsExcluded(group, m, best[v])
      decreases todo
    {
      var v := Choose(todo);
      todo := todo - {v};
      if v in group.excludeVmids {
        continue;
      }
      if MatchesName(m, best[v].name, group.excludePatterns) {
        continue;
      }
      kept := kept + {v};
    }
  }

  method SortedRows(best: map<int, Row>, selected: set<int>) returns (r: seq<Row>)
    requires selected <= best.Keys && Keyed(best)
    ensures forall i, j :: 0 <= i < j < |r| ==> r[i].vmid < r[j].vmid
    ensures forall i :: 0 <= i < |r| ==> r[i].vmid in selected && r[i] == best[r[i].vmid]
    ensures forall v :: v in selected ==> best[v] in r
  {
    r := [];
    var todo := selected;
    while todo != {}
      invariant todo <= selected
      invariant forall i, j :: 0 <= i < j < |r| ==> r[i].vmid < r[j].vmid
      invariant forall i :: 0 <= i < |r| ==> r[i].vmid in selected && r[i] == best[r[i].vmid]
      invariant forall v, i :: v in todo && 0 <= i < |r| ==> r[i].vmid < v
      invariant forall v :: v in selected && v !in todo ==> best[v] in r
      decreases todo
    {
      var v := Smallest(todo);
      r := r + [best[v]];
      todo := todo - {v};
    }
  }

  method Smallest(s: set<int>) returns (least: int)
    requires s != {}
    ensures least in s && forall x :: x in s ==> least <= x
  {
    least := Choose(s);
    var todo := s - {least};
    while todo != {}
      invariant todo <= s && least in s
      invariant forall x :: x in s && x !in todo ==> least <= x
      decreases todo
    {
      var v := Choose(todo);
      if v < least {
        least := v;
      }
      todo := todo - {v};
    }
  }

  /** The union of the selectors. */
  method SelectVmids(group: Group, m: Matcher, tags: TagMap, best: map<int, Row>) returns (selected: set<int>)
    requires Keyed(best)
    ensures selected <= best.Keys
    ensures forall v :: v in best ==>
              (v in selected <==> ChosenByIdentity(group, m, best[v]) || MatchesTags(group, tags, best[v]))
  {
    selected := AddExplicit(best, group.vmids, {});
    selected := AddMatching(best, (row: Row) => InRanges(row.vmid, group.ranges), selected);
    selected := AddMatching(best, (row: Row) => MatchesName(m, row.name, group.namePatterns), selected);
    selected := AddMatching(best, (row: Row) => MatchesTags(group, tags, row), selected);
  }

  method ResolveGroupRows(group: Group, backups: seq<Row>, cutoff: string, tags: TagMap, m: Matcher)
    returns (r: seq<Row>)
    ensures IsResolution(group, m, tags, Newest(Eligible(backups, cutoff, Lowered(group.sourceIds))), r)
  {
    var candidates := Eligible(backups, cutoff, Lowered(group.sourceIds));
    var best := NewestOf(candidates);
    ScanIsKeyed(candidates);
    var selected := SelectVmids(group, m, tags, best);
    var kept := DropExcluded(group, m, best, selected);
    r := SortedRows(best, kept);
  }

  method NewestOf(rows: seq<Row>) returns (best: map<int, Row>)
    ensures best == Newest(rows)
  {
    best := map[];
    for i := 0 to |rows|
      invariant best == Newest(rows[..i])
    {
      assert rows[..i + 1] == rows[..i] + [rows[i]];
      NewestSnoc(rows[..i], rows[i]);
      if Wins(best, rows[i]) {
        best := best[rows[i].vmid := rows[i]];
      }
    }
    assert rows[..|rows|] == rows;
  }

  /** The inputs determine the resolved rows, whatever order the selectors run in. */
  lemma {:induction false} ResolutionIsUnique(group: Group, m: Matcher, tags: TagMap, best: map<int, Row>, a: seq<Row>, b: seq<Row>)
    requires IsResolution(group, m, tags, best, a) && IsResolution(group, m, tags, best, b)
    ensures a == b
  {
    assert forall i :: 0 <= i < |a| ==> a[i] in b;
    assert forall i :: 0 <= i < |b| ==> b[i] in a;
    SortedSame(a, b);
  }

  lemma {:induction false} SortedSame(a: seq<Row>, b: seq<Row>)
    requires forall i, j :: 0 <= i < j < |a| ==> a[i].vmid < a[j].vmid
    requires forall i, j :: 0 <= i < j < |b| ==> b[i].vmid < b[j].vmid
    requires (forall x :: x in a ==> x in b) && forall x :: x in b ==> x in a
    ensures a == b
  {
    if b != [] {
      assert b[0] in a;
    }
    if a != [] {
      assert a[0] in b;
      assert b[0] in a;
      assert a[0] == b[0];
      forall x | x in a[1..] ensures x in b[1..] { assert x in b && x.vmid > a[0].vmid; }
      forall x | x in b[1..] ensures x in a[1..] { assert x in a && x.vmid > b[0].vmid; }
      SortedSame(a[1..], b[1..]);
      assert a == [a[0]] + a[1..] && b == [b[0]] + b[1..];
    }
  }

  /** The tag map a run fetches: only the newest row per VMID under the cutoff is looked up. */
  function FetchedTags(full: TagMap, latest: map<int, Row>): TagMap {
    map id | id in full && id in (set v | v in latest :: latest[v].backupId) :: full[id]
  }

  /** The guest is a member only through the tags of a row that is not among the fetched ones. */
  predicate LosesTags(group: Group, m: Matcher, full: TagMap, latest: map<int, Row>, row: Row) {
    IsMember(group, m, full, row) && !ChosenByIdentity(group, m, row) && row.backupId !in FetchedTags(full, latest)
  }

  lemma FetchedTagsAgree(group: Group, m: Matcher, full: TagMap, latest: map<int, Row>, row: Row)
    ensures IsMember(group, m, FetchedTags(full, latest), row) <==>
            IsMember(group, m, full, row) && !LosesTags(group, m, full, latest, row)
  {
    var fetched := FetchedTags(full, latest);
    if row.backupId in fetched {
      assert TagsOf(fetched, row) == TagsOf(full, row);
    } else {
      assert Lowered(TagsOf(fetched, row)) == {};
      assert !MatchesTags(group, fetched, row);
    }
  }

  /** Fetching tags for the newest rows only gives the same members exactly when no member is lost; none is
      when the group names no source. */
  lemma FetchedTagsSuffice(group: Group, m: Matcher, full: TagMap, backups: seq<Row>, cutoff: string,
                           a: seq<Row>, b: seq<Row>)
    requires var best := Newest(Eligible(backups, cutoff, Lowered(group.sourceIds)));
             var latest := Newest(Eligible(backups, cutoff, {}));
             IsResolution(group, m, full, best, a) && IsResolution(group, m, FetchedTags(full, latest), best, b)
    ensures var best := Newest(Eligible(backups, cutoff, Lowered(group.sourceIds)));
            var latest := Newest(Eligible(backups, cutoff, {}));
            a == b <==> forall v :: v in best ==> !LosesTags(group, m, full, latest, best[v])
    ensures group.sourceIds == [] ==> a == b
  {
    var best := Newest(Eligible(backups, cutoff, Lowered(group.sourceIds)));
    var latest := Newest(Eligible(backups, cutoff, {}));
    ScanIsKeyed(Eligible(backups, cutoff, Lowered(group.sourceIds)));
    forall v | v in best
      ensures IsMember(group, m, FetchedTags(full, latest), best[v]) <==>
              IsMember(group, m, full, best[v]) && !LosesTags(group, m, full, latest, best[v])
    {
      FetchedTagsAgree(group, m, full, latest, best[v]);
    }
    if group.sourceIds == [] {
      assert Lowered(group.sourceIds) == {};
      NothingLost(group, m, full, latest);
    }
    if forall v :: v in best ==> !LosesTags(group, m, full, latest, best[v]) {
      assert IsResolution(group, m, full, best, b);
      ResolutionIsUnique(group, m, full, best, a, b);
    } else {
      var v :| v in best && LosesTags(group, m, full, latest, best[v]);
      assert best[v] in a && best[v] !in b;
    }
  }

  lemma NothingLost(group: Group, m: Matcher, full: TagMap, latest: map<int, Row>)
    ensures forall v :: v in latest ==> !LosesTags(group, m, full, latest, latest[v])
  {
    forall v | v in latest
      ensures !LosesTags(group, m, full, latest, latest[v])
    {
      if latest[v].backupId in full {
        assert latest[v].backupId in FetchedTags(full, latest);
      } else {
        assert Lowered(TagsOf(full, latest[v])) == {};
      }
    }
  }

  lemma NewestOfPair(a: Row, b: Row)
    requires a.vmid == b.vmid && Less(a.timestamp, b.timestamp)
    ensures Newest([a]) == map[a.vmid := a] && Newest([a, b]) == map[a.vmid := b]
  {
    assert [a][..0] == [] && [a, b][..1] == [a];
    assert Keep(map[], a) == map[a.vmid := a];
  }

  lemma EligibleOfPair(a: Row, b: Row, cutoff: string, sources: set<string>)
    requires AtMost(a.timestamp, cutoff) && AtMost(b.timestamp, cutoff) && FromSource(a, sources)
    ensures Eligible([a, b], cutoff, sources) == if FromSource(b, sources) then [a, b] else [a]
  {
    assert [a, b][..1] == [a] && [a][..0] == [];
    assert Eligible([a], cutoff, sources) == [a];
  }

  lemma ResolutionOfOne(group: Group, m: Matcher, tags: TagMap, a: Row, r: seq<Row>)
    requires IsResolution(group, m, tags, map[a.vmid := a], r)
    ensures r == if IsMember(group, m, tags, a) then [a] else []
  {
    var best := map[a.vmid := a];
    assert forall i :: 0 <= i < |r| ==> r[i].vmid in best && r[i] == a && IsMember(group, m, tags, r[i]);
    assert |r| > 1 ==> r[0].vmid < r[1].vmid;
    assert r == [] || r == [a];
    if r != [] {
      assert r[0] == a;
    }
    if IsMember(group, m, tags, a) {
      assert best[a.vmid] in r;
    }
  }

  lemma LostFromPair(group: Group, m: Matcher, full: TagMap, a: Row, b: Row)
    requires a.backupId != b.backupId && IsMember(group, m, full, a) && !ChosenByIdentity(group, m, a)
    ensures forall r :: IsResolution(group, m, full, map[a.vmid := a], r) ==> r == [a]
    ensures forall r :: IsResolution(group, m, FetchedTags(full, map[a.vmid := b]), map[a.vmid := a], r) ==> r == []
  {
    var latest := map[a.vmid := b];
    assert forall v :: v in latest ==> latest[v].backupId == b.backupId;
    assert a.backupId !in FetchedTags(full, latest);
    FetchedTagsAgree(group, m, full, latest, a);
    assert LosesTags(group, m, full, latest, a) && !IsMember(group, m, FetchedTags(full, latest), a);
    forall r | IsResolution(group, m, full, map[a.vmid := a], r)
      ensures r == [a]
    {
      ResolutionOfOne(group, m, full, a, r);
    }
    forall r | IsResolution(group, m, FetchedTags(full, latest), map[a.vmid := a], r)
      ensures r == []
    {
      ResolutionOfOne(group, m, FetchedTags(full, latest), a, r);
    }
  }

  /** A group limited to a source loses a guest it selects by tags when the guest's newest snapshot lies in another
      source: with all tags it is resolved, with the fetched ones it is not. */
  lemma SourceFilterLosesTags(group: Group, m: Matcher, full: TagMap, cutoff: string, a: Row, b: Row)
    requires a.vmid == b.vmid && AtMost(a.timestamp, cutoff) && AtMost(b.timestamp, cutoff)
    requires Less(a.timestamp, b.timestamp) && a.backupId != b.backupId
    requires FromSource(a, Lowered(group.sourceIds)) && !FromSource(b, Lowered(group.sourceIds))
    requires IsMember(group, m, full, a) && !ChosenByIdentity(group, m, a)
    ensures var best := Newest(Eligible([a, b], cutoff, Lowered(group.sourceIds)));
            var latest := Newest(Eligible([a, b], cutoff, {}));
            && (forall r :: IsResolution(group, m, full, best, r) ==> r == [a])
            && (forall r :: IsResolution(group, m, FetchedTags(full, latest), best, r) ==> r == [])
  {
    EligibleOfPair(a, b, cutoff, Lowered(group.sourceIds));
    EligibleOfPair(a, b, cutoff, {});
    NewestOfPair(a, b);
    LostFromPair(group, m, full, a, b);
  }

  /** Such a group, such snapshots and such tags exist. */
  lemma SourceFilterExample(m: Matcher, a: Row, b: Row, group: Group, full: TagMap)
    requires a == Row(100, "2026-01-01T00:00:00Z", "db", "a|vm/100/2026-01-01T00:00:00Z", "a", "", "", "")
    requires b == Row(100, "2026-02-01T00:00:00Z", "db", "b|vm/100/2026-02-01T00:00:00Z", "b", "", "", "")
    requires group == Group(["a"], [], [], [], ["x"], [], [])
    requires full == map[a.backupId := ["x"], b.backupId := ["x"]]
    ensures Less(a.timestamp, b.timestamp) && AtMost(a.timestamp, b.timestamp) && AtMost(b.timestamp, b.timestamp)
    ensures a.backupId != b.backupId && IsMember(group, m, full, a) && !ChosenByIdentity(group, m, a)
    ensures FromSource(a, Lowered(group.sourceIds)) && !FromSource(b, Lowered(group.sourceIds))
  {
    ExampleStamps(a.timestamp, b.timestamp);
    assert a.backupId != b.backupId by { assert a.backupId[0] != b.backupId[0]; }
    ExampleMember(m, a, group, full);
    ExampleSources(a, b);
  }

  lemma ExampleMember(m: Matcher, a: Row, group: Group, full: TagMap)
    requires group == Group(group.sourceIds, [], [], [], ["x"], [], [])
    requires a.backupId in full && full[a.backupId] == ["x"]
    ensures IsMember(group, m, full, a) && !ChosenByIdentity(group, m, a)
  {
    assert Lower("x") == "x" && Strip("x") == "x";
    assert WantedTags(["x"]) == {"x"} && Lowered(["x"]) == {"x"};
  }

  lemma ExampleStamps(s: string, t: string)
    requires s == "2026-01-01T00:00:00Z" && t == "2026-02-01T00:00:00Z"
    ensures Less(s, t) && AtMost(s, t) && AtMost(t, t)
  {
    ExampleTimes(s, t, "2026-0", "1", "2", "-01T00:00:00Z");
  }

  lemma ExampleTimes(s: string, t: string, head: string, x: string, y: string, tail: string)
    requires s == head + (x + tail) && t == head + (y + tail) && |x| == |y| && Less(x, y)
    ensures Less(s, t) && AtMost(s, t) && AtMost(t, t)
  {
    LessOnFields(head, head, x + tail, y + tail);
    LessOnFields(x, y, tail, tail);
    LessIsTotal(s, t);
    LessIsTotal(t, t);
  }

  lemma ExampleSources(a: Row, b: Row)
    requires a.sourceId == "a" && b.sourceId == "b" && b.sourceLabel == ""
    ensures FromSource(a, Lowered(["a"])) && !FromSource(b, Lowered(["a"]))
  {
    assert Lower("a") == "a" && Lower("b") == "b" && Lower("") == "";
    assert Lowered(["a"]) == {"a"} by {
      assert "a" in ["a"];
    }
  }
}
