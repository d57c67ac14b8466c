/** The backups table: snapshots grouped by VMID around a stable newest-first sort. */
module Inventory {
  import opened Text
  import opened Numbers
  import opened Members

  datatype GuestBackups = GuestBackups(vmid: int, name: string, sourceLabel: string, snapshots: seq<Row>, latest: Row)

  /** Behind every row that is at least as new. */
  function Insert(row: Row, sorted: seq<Row>): seq<Row> {
    if sorted == [] then [row]
    else if Less(sorted[0].timestamp, row.timestamp) then [row] + sorted
    else [sorted[0]] + Insert(row, sorted[1..])
  }

  /** `sorted(rows, key=timestamp, reverse=True)`: newest first, equal timestamps in list order. */
  function NewestFirst(rows: seq<Row>): seq<Row> {
    if rows == [] then [] else Insert(rows[|rows| - 1], NewestFirst(rows[..|rows| - 1]))
  }

  ghost predicate Descending(s: seq<Row>) {
    |s| <= 1 || (AtMost(s[1].timestamp, s[0].timestamp) && Descending(s[1..]))
  }

  /** The rows with one timestamp, in order. */
  function At(rows: seq<Row>, timestamp: string): seq<Row> {
    if rows == [] then []
    else (if rows[0].timestamp == timestamp then [rows[0]] else []) + At(rows[1..], timestamp)
  }

  lemma {:induction false} InsertDescends(row: Row, s: seq<Row>)
    requires Descending(s)
    ensures Descending(Insert(row, s))
    ensures Insert(row, s) != [] && (Insert(row, s)[0] == row || (s != [] && Insert(row, s)[0] == s[0]))
  {
    if s != [] {
      LessIsTotal(s[0].timestamp, row.timestamp);
      if Less(s[0].timestamp, row.timestamp) {
        assert ([row] + s)[1..] == s;
      } else {
        InsertDescends(row, s[1..]);
        assert Insert(row, s)[1..] == Insert(row, s[1..]);
      }
    }
  }

  lemma {:induction false} InsertKeeps(row: Row, s: seq<Row>)
    ensures multiset(Insert(row, s)) == multiset(s) + multiset{row}
  {
    if s != [] {
      InsertKeeps(row, s[1..]);
      assert s == [s[0]] + s[1..];
    }
  }

  lemma {:induction false} InsertIsStable(row: Row, s: seq<Row>, timestamp: string)
    requires Descending(s)
    ensures At(Insert(row, s), timestamp) == At(s, timestamp) + (if row.timestamp == timestamp then [row] else [])
  {
    if s != [] {
      if Less(s[0].timestamp, row.timestamp) {
        assert ([row] + s)[1..] == s;
        if row.timestamp == timestamp {
          NothingAsNew(s, timestamp);
        }
      } else {
        InsertIsStable(row, s[1..], timestamp);
        assert Insert(row, s)[1..] == Insert(row, s[1..]);
      }
    }
  }

  lemma {:induction false} NothingAsNew(s: seq<Row>, timestamp: string)
    requires Descending(s) && (s != [] ==> Less(s[0].timestamp, timestamp))
    ensures At(s, timestamp) == []
  {
    if s != [] {
      LessIsTotal(s[0].timestamp, timestamp);
      if |s| > 1 {
        LessIsTotal(s[1].timestamp, timestamp);
        assert AtMost(s[1].timestamp, s[0].timestamp);
        LessIsTotal(timestamp, s[0].timestamp);
        LessTransitive(s[1].timestamp, s[0].timestamp, timestamp);
      }
      NothingAsNew(s[1..], timestamp);
    }
  }

  lemma {:induction false} AtSnoc(s: seq<Row>, row: Row, timestamp: string)
    ensures At(s + [row], timestamp) == At(s, timestamp) + (if row.timestamp == timestamp then [row] else [])
  {
    if s != [] {
      AtSnoc(s[1..], row, timestamp);
      assert (s + [row])[1..] == s[1..] + [row];
    }
  }

  lemma {:induction false} SortDescends(rows: seq<Row>)
    ensures Descending(NewestFirst(rows))
  {
    if rows != [] {
      SortDescends(rows[..|rows| - 1]);
      InsertDescends(rows[|rows| - 1], NewestFirst(rows[..|rows| - 1]));
    }
  }

  /** The sort keeps every row. */
  lemma {:induction false} SortKeeps(rows: seq<Row>)
    ensures multiset(NewestFirst(rows)) == multiset(rows)
  {
    if rows != [] {
      var n := |rows| - 1;
      SortKeeps(rows[..n]);
      InsertKeeps(rows[n], NewestFirst(rows[..n]));
      assert rows == rows[..n] + [rows[n]];
    }
  }

  /** The sort is newest first, and rows with one timestamp stay in list order. */
  lemma {:induction false} SortIsStable(rows: seq<Row>, timestamp: string)
    ensures Descending(NewestFirst(rows))
    ensures At(NewestFirst(rows), timestamp) == At(rows, timestamp)
  {
    SortDescends(rows);
    if rows != [] {
      var n := |rows| - 1;
      var init, last := rows[..n], rows[n];
      assert rows == init + [last];
      SortIsStable(init, timestamp);
      InsertIsStable(last, NewestFirst(init), timestamp);
      AtSnoc(init, last, timestamp);
    }
  }

  /** The first row of the sort is the one a strictly-newer-wins scan keeps. */
  lemma {:induction false} SortHeadIsScan(rows: seq<Row>, vmid: int)
    requires forall i :: 0 <= i < |rows| ==> rows[i].vmid == vmid
    ensures Newest(rows) == if rows == [] then map[] else map[vmid := NewestFirst(rows)[0]]
    ensures rows != [] ==> NewestFirst(rows) != []
  {
    if rows != [] {
      SortHeadIsScan(rows[..|rows| - 1], vmid);
    }
  }

  /** The rows of one VMID, in list order. */
  function OfVmid(rows: seq<Row>, vmid: int): (r: seq<Row>)
    ensures forall x :: x in r <==> x in rows && x.vmid == vmid
  {
    if rows == [] then []
    else
      var n := |rows| - 1;
      OfVmid(rows[..n], vmid) + (if rows[n].vmid == vmid then [rows[n]] else [])
  }

  /** Scanning one guest's rows finds what scanning all rows finds for it. */
  lemma {:induction false} ScanOfOneGuest(rows: seq<Row>, vmid: int)
    ensures vmid in Newest(rows) <==> OfVmid(rows, vmid) != []
    ensures Newest(OfVmid(rows, vmid)) == if vmid in Newest(rows) then map[vmid := Newest(rows)[vmid]] else map[]
  {
    if rows != [] {
      var n := |rows| - 1;
      ScanOfOneGuest(rows[..n], vmid);
      if rows[n].vmid == vmid {
        NewestSnoc(OfVmid(rows[..n], vmid), rows[n]);
      } else {
        assert OfVmid(rows, vmid) == OfVmid(rows[..n], vmid);
      }
    }
  }

  ghost predicate IsGroupOf(rows: seq<Row>, g: GuestBackups) {
    g.vmid in Newest(rows) && g.latest == Newest(rows)[g.vmid] && g.snapshots == NewestFirst(OfVmid(rows, g.vmid)) &&
    g.name == (if g.latest.name != "" then g.latest.name else "vm-" + IntText(g.vmid)) &&
    g.sourceLabel == (if g.latest.sourceLabel != "" then g.latest.sourceLabel else g.latest.datastore)
  }

  /** The VMIDs of the groups are those of the set, ascending. */
  ghost predicate AreKeyed(vmids: set<int>, groups: seq<GuestBackups>) {
    && (forall i :: 0 <= i < |groups| ==> groups[i].vmid in vmids)
    && (forall v :: v in vmids ==> exists i :: 0 <= i < |groups| && groups[i].vmid == v)
    && forall i, k :: 0 <= i < k < |groups| ==> groups[i].vmid < groups[k].vmid
  }

  /** One group per VMID of the set, in increasing order. */
  ghost predicate AreGroups(rows: seq<Row>, vmids: set<int>, groups: seq<GuestBackups>) {
    AreKeyed(vmids, groups) && forall g :: g in groups ==> IsGroupOf(rows, g)
  }

  lemma AddKey(vmids: set<int>, groups: seq<GuestBackups>, g: GuestBackups)
    requires AreKeyed(vmids, groups) && forall v :: v in vmids ==> v < g.vmid
    ensures AreKeyed(vmids + {g.vmid}, groups + [g])
  {
    var all := groups + [g];
    forall v | v in vmids + {g.vmid}
      ensures exists i :: 0 <= i < |all| && all[i].vmid == v
    {
      if v in vmids {
        var i :| 0 <= i < |groups| && groups[i].vmid == v;
        assert all[i].vmid == v;
      } else {
        assert all[|groups|].vmid == v;
      }
    }
  }

  lemma AddGroup(rows: seq<Row>, vmids: set<int>, groups: seq<GuestBackups>, g: GuestBackups)
    requires AreGroups(rows, vmids, groups) && IsGroupOf(rows, g)
    requires forall v :: v in vmids ==> v < g.vmid
    ensures AreGroups(rows, vmids + {g.vmid}, groups + [g])
  {
    AddKey(vmids, groups, g);
    forall x | x in groups + [g]
      ensures IsGroupOf(rows, x)
    {
      assert x in groups || x == g;
    }
  }

  ghost predicate Below(done: set<int>, todo: set<int>) {
    forall u, v :: u in done && v in todo ==> u < v
  }

  lemma MoveLeast(done: set<int>, todo: set<int>, least: int)
    requires Below(done, todo) && least in todo && forall v :: v in todo ==> least <= v
    ensures Below(done + {least}, todo - {least})
    ensures (done + {least}) + (todo - {least}) == done + todo
    ensures forall u :: u in done ==> u < least
  {
  }

  method GroupBackupsByVmid(rows: seq<Row>) returns (groups: seq<GuestBackups>)
    ensures AreGroups(rows, Newest(rows).Keys, groups)
  {
    var byVmid := Bucket(rows);
    BucketKeys(rows, byVmid);
    groups := [];
    var todo := byVmid.Keys;
    ghost var done: set<int> := {};
    while todo != {}
      invariant Below(done, todo) && done + todo == byVmid.Keys
      invariant AreGroups(rows, done, groups)
      decreases todo
    {
      var vmid := Smallest(todo);
      var g := MakeGroup(rows, vmid, byVmid[vmid]);
      MoveLeast(done, todo, vmid);
      AddGroup(rows, done, groups, g);
      groups := groups + [g];
      todo := todo - {vmid};
      done := done + {vmid};
    }
  }

  lemma BucketKeys(rows: seq<Row>, byVmid: map<int, seq<Row>>)
    requires Bucketed(rows, byVmid)
    ensures byVmid.Keys == Newest(rows).Keys
  {
    forall v
      ensures v in byVmid <==> v in Newest(rows)
    {
      ScanOfOneGuest(rows, v);
      if v in Newest(rows) {
        assert OfVmid(rows, v)[0] in OfVmid(rows, v);
      }
    }
  }

  method MakeGroup(ghost rows: seq<Row>, vmid: int, bucket: seq<Row>) returns (g: GuestBackups)
    requires bucket == OfVmid(rows, vmid) && bucket != []
    ensures IsGroupOf(rows, g) && g.vmid == vmid
  {
    SortHeadIsScan(bucket, vmid);
    ScanOfOneGuest(rows, vmid);
    var snaps := NewestFirst(bucket);
    var latest := snaps[0];
    assert Newest(bucket)[vmid] == latest == Newest(rows)[vmid];
    g := GuestBackups(vmid, if latest.name != "" then latest.name else "vm-" + IntText(vmid),
                      if latest.sourceLabel != "" then latest.sourceLabel else latest.datastore, snaps, latest);
  }

  ghost predicate Bucketed(rows: seq<Row>, byVmid: map<int, seq<Row>>) {
    && (forall v {:trigger v in byVmid} :: v in byVmid ==> byVmid[v] != [] && byVmid[v] == OfVmid(rows, v))
    && (forall i :: 0 <= i < |rows| ==> rows[i].vmid in byVmid)
  }

  method Bucket(rows: seq<Row>) returns (byVmid: map<int, seq<Row>>)
    ensures Bucketed(rows, byVmid)
  {
    byVmid := map[];
    for i := 0 to |rows|
      invariant Bucketed(rows[..i], byVmid)
    {
      var row := rows[i];
      assert rows[..i + 1] == rows[..i] + [row];
      BucketOne(rows[..i], byVmid, row);
      byVmid := byVmid[row.vmid := (if row.vmid in byVmid then byVmid[row.vmid] else []) + [row]];
    }
    assert rows[..|rows|] == rows;
  }

  lemma BucketOne(rows: seq<Row>, byVmid: map<int, seq<Row>>, row: Row)
    requires Bucketed(rows, byVmid)
    ensures Bucketed(rows + [row], byVmid[row.vmid := (if row.vmid in byVmid then byVmid[row.vmid] else []) + [row]])
  {
    assert (rows + [row])[..|rows|] == rows;
    if row.vmid !in byVmid {
      assert OfVmid(rows, row.vmid) == [] by {
        if OfVmid(rows, row.vmid) != [] {
          assert OfVmid(rows, row.vmid)[0] in OfVmid(rows, row.vmid);
        }
      }
    }
  }
}
