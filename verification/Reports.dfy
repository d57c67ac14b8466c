/** Compliance reports: a record per report and a score-ordered index, trimmed after every save. */
module Reports {
  import opened Sets

  type ReportId = nat

  datatype Report = Report(id: ReportId, planId: nat, title: string)

  /** What Redis holds: the records and the sorted set of their ids. */
  datatype Shelf = Shelf(records: map<ReportId, Report>, index: map<ReportId, int>)

  /** Sorted-set order: by score, then by member. */
  predicate Before(index: map<ReportId, int>, a: ReportId, b: ReportId)
    requires a in index && b in index
  {
    index[a] < index[b] || (index[a] == index[b] && a < b)
  }

  function RetainLimit(configured: int): nat {
    if configured < 1 then 1 else configured
  }

  /** `kept` are the newest entries of `index`, as many as the limit allows. */
  ghost predicate IsNewest(index: map<ReportId, int>, kept: set<ReportId>, limit: nat) {
    && kept <= index.Keys
    && |kept| == (if |index| <= limit then |index| else limit)
    && forall a, b {:trigger Before(index, a, b)} :: a in index && a !in kept && b in kept ==> Before(index, a, b)
  }

  ghost predicate IsTrimmed(before: Shelf, after: Shelf, limit: nat) {
    && IsNewest(before.index, after.index.Keys, limit)
    && (forall a :: a in after.index ==> after.index[a] == before.index[a])
    && after.records == before.records - (before.index.Keys - after.index.Keys)
  }

  function Added(s: Shelf, r: Report, score: int): Shelf {
    Shelf(s.records[r.id := r], s.index[r.id := score])
  }

  ghost predicate IsSaved(before: Shelf, r: Report, score: int, limit: nat, after: Shelf) {
    IsTrimmed(Added(before, r, score), after, limit)
  }

  class ReportStore {
    var records: map<ReportId, Report>
    var index: map<ReportId, int>

    constructor ()
      ensures Contents() == Shelf(map[], map[])
    {
      records := map[];
      index := map[];
    }

    function Contents(): Shelf
      reads this
    {
      Shelf(records, index)
    }

    method SaveReport(r: Report, score: int, configuredLimit: int)
      modifies this
      ensures IsSaved(old(Contents()), r, score, if configuredLimit < 1 then 1 else configuredLimit, Contents())
    {
      records := records[r.id := r];
      index := index[r.id := score];
      TrimReports(RetainLimit(configuredLimit));
    }

    method TrimReports(limit: nat)
      modifies this
      ensures IsTrimmed(old(Contents()), Contents(), limit)
    {
      var total := |index|;
      if total <= limit {
        return;
      }
      var oldest := ZRange(index, total - limit);
      RemovingOldestTrims(Contents(), oldest, limit);
      RemoveAll(oldest);
    }

    method RemoveAll(ids: seq<ReportId>)
      modifies this
      ensures records == old(records) - Ids(ids) && index == old(index) - Ids(ids)
    {
      for i := 0 to |ids|
        invariant records == old(records) - Ids(ids[..i])
        invariant index == old(index) - Ids(ids[..i])
      {
        assert Ids(ids[..i + 1]) == Ids(ids[..i]) + {ids[i]};
        records := records - {ids[i]};
        index := index - {ids[i]};
      }
      assert ids[..|ids|] == ids;
    }
  }

  ghost function Ids(s: seq<ReportId>): set<ReportId> {
    set a | a in s
  }

  /** The ids are distinct entries, and none of the others comes before one of them. */
  ghost predicate AreOldest(index: map<ReportId, int>, oldest: seq<ReportId>) {
    && Ids(oldest) <= index.Keys
    && |Ids(oldest)| == |oldest|
    && forall a, b {:trigger Before(index, a, b)} :: a in oldest && b in index && b !in oldest ==> Before(index, a, b)
  }

  /** `zrange(index, 0, count - 1)`. */
  method ZRange(index: map<ReportId, int>, count: nat) returns (oldest: seq<ReportId>)
    requires count <= |index|
    ensures |oldest| == count && AreOldest(index, oldest)
  {
    oldest := [];
    var rest := index.Keys;
    while |oldest| < count
      invariant |oldest| <= count
      invariant rest == index.Keys - Ids(oldest)
      invariant AreOldest(index, oldest)
      decreases count - |oldest|
    {
      SubsetSize(Ids(oldest), index.Keys);
      var least := OldestOf(index, rest);
      assert Ids(oldest + [least]) == Ids(oldest) + {least};
      oldest := oldest + [least];
      rest := rest - {least};
    }
  }

  method OldestOf(index: map<ReportId, int>, s: set<ReportId>) returns (least: ReportId)
    requires s != {} && s <= index.Keys
    ensures least in s && forall a :: a in s && a != least ==> Before(index, least, a)
  {
    least := Choose(s);
    var todo := s - {least};
    while todo != {}
      invariant todo <= s && least in s && least !in todo
      invariant forall a :: a in s && a !in todo && a != least ==> Before(index, least, a)
      decreases todo
    {
      var a := Choose(todo);
      if Before(index, a, least) {
        least := a;
      }
      todo := todo - {a};
    }
  }

  lemma RemovingOldestTrims(s: Shelf, oldest: seq<ReportId>, limit: nat)
    requires limit < |s.index| && |oldest| == |s.index| - limit && AreOldest(s.index, oldest)
    ensures IsTrimmed(s, Shelf(s.records - Ids(oldest), s.index - Ids(oldest)), limit)
  {
    var kept := s.index.Keys - Ids(oldest);
    assert s.index.Keys == kept + Ids(oldest);
    assert (s.index - Ids(oldest)).Keys == kept;
    assert s.index.Keys - kept == Ids(oldest);
  }

  // ----- any history of saves -----

  datatype Save = Save(report: Report, score: int, limit: nat)

  /** Ids are fresh and the clock never runs backwards. */
  ghost predicate InOrder(saves: seq<Save>) {
    && (forall i, j :: 0 <= i < j < |saves| ==> saves[i].report.id != saves[j].report.id)
    && (forall i, j :: 0 <= i < j < |saves| ==> saves[i].score <= saves[j].score)
  }

  /** States of the store around each save. */
  ghost predicate IsHistory(saves: seq<Save>, shelves: seq<Shelf>) {
    && |shelves| == |saves| + 1
    && shelves[0] == Shelf(map[], map[])
    && (forall i :: 0 <= i < |saves| ==> saves[i].limit >= 1)
    && (forall i :: 0 <= i < |saves| ==>
          IsSaved(shelves[i], saves[i].report, saves[i].score, saves[i].limit, shelves[i + 1]))
    && InOrder(saves)
  }

  ghost function SavedIds(saves: seq<Save>): set<ReportId> {
    if saves == [] then {} else SavedIds(saves[..|saves| - 1]) + {saves[|saves| - 1].report.id}
  }

  /** A retained report is stored as it was saved. */
  ghost predicate EntriesKept(saves: seq<Save>, s: Shelf) {
    forall i :: 0 <= i < |saves| && saves[i].report.id in s.index ==>
      saves[i].report.id in s.records &&
      s.index[saves[i].report.id] == saves[i].score && s.records[saves[i].report.id] == saves[i].report
  }

  /** No retained report is older than a trimmed one. */
  ghost predicate NothingOlder(saves: seq<Save>, s: Shelf) {
    forall i, j ::
      0 <= i < |saves| && 0 <= j < |saves| && saves[i].report.id !in s.index && saves[j].report.id in s.index ==>
        saves[i].score <= saves[j].score
  }

  /** What holds of the store after all the saves. */
  ghost predicate Retains(saves: seq<Save>, s: Shelf) {
    && s.records.Keys == s.index.Keys <= SavedIds(saves)
    && (saves != [] ==> |s.index| <= saves[|saves| - 1].limit)
    && EntriesKept(saves, s)
    && NothingOlder(saves, s)
  }

  /** Records and index stay in step, the limit holds, and nothing retained is older than anything trimmed. */
  lemma {:induction false} HistoryRetainsNewest(saves: seq<Save>, shelves: seq<Shelf>)
    requires IsHistory(saves, shelves)
    ensures Retains(saves, shelves[|saves|])
  {
    if saves != [] {
      var n := |saves| - 1;
      HistoryRetainsNewest(saves[..n], shelves[..n + 1]);
      assert saves == saves[..n] + [saves[n]];
      RetainsStep(saves[..n], shelves[n], saves[n], shelves[n + 1]);
    }
  }

  lemma RetainsStep(saves: seq<Save>, before: Shelf, save: Save, after: Shelf)
    requires InOrder(saves + [save]) && Retains(saves, before)
    requires IsSaved(before, save.report, save.score, save.limit, after)
    ensures Retains(saves + [save], after)
  {
    assert (saves + [save])[..|saves|] == saves;
    KeysStep(before, save, after);
    EntriesStep(saves, before, save, after);
    OrderStep(saves, before, save, after);
  }

  lemma KeysStep(before: Shelf, save: Save, after: Shelf)
    requires before.records.Keys == before.index.Keys
    requires IsSaved(before, save.report, save.score, save.limit, after)
    ensures after.records.Keys == after.index.Keys <= before.index.Keys + {save.report.id}
    ensures |after.index| <= save.limit
  {
  }

  lemma EntriesStep(saves: seq<Save>, before: Shelf, save: Save, after: Shelf)
    requires InOrder(saves + [save]) && Retains(saves, before)
    requires IsSaved(before, save.report, save.score, save.limit, after)
    ensures EntriesKept(saves + [save], after)
  {
    var all := saves + [save];
    forall i | 0 <= i < |all| && all[i].report.id in after.index
      ensures all[i].report.id in after.records &&
              after.index[all[i].report.id] == all[i].score && after.records[all[i].report.id] == all[i].report
    {
      EntryStays(saves, before, save, after, i);
    }
  }

  lemma OrderStep(saves: seq<Save>, before: Shelf, save: Save, after: Shelf)
    requires InOrder(saves + [save]) && Retains(saves, before)
    requires IsSaved(before, save.report, save.score, save.limit, after)
    ensures NothingOlder(saves + [save], after)
  {
    var all := saves + [save];
    forall i, j | 0 <= i < |all| && 0 <= j < |all| && all[i].report.id !in after.index && all[j].report.id in after.index
      ensures all[i].score <= all[j].score
    {
      OlderStep(saves, before, save, after, i, j);
    }
  }

  lemma EntryStays(saves: seq<Save>, before: Shelf, save: Save, after: Shelf, i: nat)
    requires InOrder(saves + [save]) && Retains(saves, before) && i <= |saves|
    requires IsSaved(before, save.report, save.score, save.limit, after)
    requires (saves + [save])[i].report.id in after.index
    ensures var entry := (saves + [save])[i];
            after.index[entry.report.id] == entry.score &&
            entry.report.id in after.records && after.records[entry.report.id] == entry.report
  {
    var all := saves + [save];
    EntryScore(saves, before, save, i);
    assert all[|saves|] == save;
    if i < |saves| {
      assert all[i] == saves[i] && all[i].report.id != all[|saves|].report.id;
    }
  }

  lemma OlderStep(saves: seq<Save>, before: Shelf, save: Save, after: Shelf, i: nat, j: nat)
    requires InOrder(saves + [save]) && Retains(saves, before)
    requires IsSaved(before, save.report, save.score, save.limit, after)
    requires i <= |saves| && j <= |saves|
    requires (saves + [save])[i].report.id !in after.index && (saves + [save])[j].report.id in after.index
    ensures (saves + [save])[i].score <= (saves + [save])[j].score
  {
    var all, added := saves + [save], Added(before, save.report, save.score);
    var gone, kept := all[i].report.id, all[j].report.id;
    assert all[|saves|] == save;
    EntryScore(saves, before, save, i);
    EntryScore(saves, before, save, j);
    if gone in added.index {
      assert Before(added.index, gone, kept);
    }
  }

  /** An entry keeps the score its report was saved with. */
  lemma EntryScore(saves: seq<Save>, before: Shelf, save: Save, i: nat)
    requires InOrder(saves + [save]) && Retains(saves, before) && i <= |saves|
    ensures var all, index := saves + [save], Added(before, save.report, save.score).index;
            all[i].report.id in index ==> index[all[i].report.id] == all[i].score
  {
    var all := saves + [save];
    assert all[|saves|] == save;
    if i < |saves| {
      assert all[i] == saves[i];
      assert all[i].report.id != all[|saves|].report.id;
    }
  }

  /** A report survives its own save exactly when fewer entries than the limit come after it. */
  lemma SavedReportSurvives(before: Shelf, r: Report, score: int, limit: nat, after: Shelf)
    requires limit >= 1 && IsSaved(before, r, score, limit, after)
    ensures var index := before.index[r.id := score];
            r.id in after.index <==>
              |set a | a in index && (score < index[a] || (score == index[a] && r.id < a))| < limit
  {
    var index := Added(before, r, score).index;
    var kept := after.index.Keys;
    var later := set a | a in index && (score < index[a] || (score == index[a] && r.id < a));
    if r.id in kept {
      forall a | a in later
        ensures a in kept - {r.id}
      {
        assert !Before(index, a, r.id);
      }
      SubsetSize(later, kept - {r.id});
    } else {
      forall a | a in kept
        ensures a in later
      {
        assert Before(index, r.id, a);
      }
      SubsetSize(kept, later);
      SubsetSize(kept, index.Keys);
    }
  }

  /** With a strictly later clock the report just saved is always kept. */
  lemma LaterClockKeepsReport(before: Shelf, r: Report, score: int, limit: nat, after: Shelf)
    requires limit >= 1 && IsSaved(before, r, score, limit, after)
    requires forall a :: a in before.index ==> before.index[a] < score
    ensures r.id in after.index
  {
    var index := before.index[r.id := score];
    forall a | a in index && a != r.id
      ensures !Before(index, r.id, a)
    {
      assert a in before.index;
    }
    assert (set a | a in index && (score < index[a] || (score == index[a] && r.id < a))) == {};
    SavedReportSurvives(before, r, score, limit, after);
  }
}
