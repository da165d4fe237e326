/** The statistics query over the committed rows of the engine. */
module Stats {
  import opened Lifecycle
  import Engine

  datatype Counts = Counts(
    total: nat, success: nat, failed: nat, inProgress: nat, pending: nat, retrying: nat, bytes: int)

  function Zero(): Counts { Counts(0, 0, 0, 0, 0, 0, 0) }

  function Plus(a: Counts, b: Counts): Counts {
    Counts(a.total + b.total, a.success + b.success, a.failed + b.failed, a.inProgress + b.inProgress,
           a.pending + b.pending, a.retrying + b.retrying, a.bytes + b.bytes)
  }

  function CountIf(b: bool): nat { if b then 1 else 0 }

  /** What one row adds to the aggregates. */
  function OfRow(r: Row): Counts {
    Counts(1, CountIf(r.status.Success?), CountIf(r.status.Failed?), CountIf(r.status.InProgress?),
           CountIf(r.status.Pending?), CountIf(r.status.Retrying?), r.bytes)
  }

  /** The aggregates over the rows that satisfy the WHERE clause. */
  function Aggregate(rows: seq<Row>, sel: Row -> bool): Counts {
    if rows == [] then Zero() else
      AddIf(sel(rows[|rows| - 1]), Aggregate(rows[..|rows| - 1], sel), OfRow(rows[|rows| - 1]))
  }

  function AddIf(b: bool, a: Counts, c: Counts): Counts { if b then Plus(a, c) else a }

  /** The WHERE clause: empty arguments do not filter; a group filter joins the apps table. */
  predicate Selected(apps: map<string, string>, app: string, grp: string, r: Row) {
    && (app != "" ==> r.app == app)
    && (grp != "" ==> r.app in apps && apps[r.app] == grp)
  }

  function GetStats(rows: seq<Row>, apps: map<string, string>, app: string, grp: string): Counts {
    Aggregate(rows, (r: Row) => Selected(apps, app, grp, r))
  }

  /** The table's rows: the committed row of every job that has one. */
  function Rows(jobs: seq<Job>): seq<Row> {
    if jobs == [] then [] else
      Rows(jobs[..|jobs| - 1]) + (if jobs[|jobs| - 1].db.Some? then [jobs[|jobs| - 1].db.value] else [])
  }

  function SuccessSizes(rows: seq<Row>, sel: Row -> bool): int {
    if rows == [] then 0 else
      var r := rows[|rows| - 1];
      SuccessSizes(rows[..|rows| - 1], sel) + (if sel(r) && r.status.Success? then r.size else 0)
  }

  lemma {:induction false} CountsAddUp(rows: seq<Row>, sel: Row -> bool)
    requires forall i :: 0 <= i < |rows| ==> RowOk(rows[i])
    ensures var c := Aggregate(rows, sel);
            && c.total == c.success + c.failed + c.inProgress + c.pending + c.retrying
            && c.bytes == SuccessSizes(rows, sel)
  {
    if rows != [] {
      assert RowOk(rows[|rows| - 1]);
      CountsAddUp(rows[..|rows| - 1], sel);
    }
  }

  lemma {:induction false} RowsAreConsistent(jobs: seq<Job>)
    requires forall i :: 0 <= i < |jobs| ==> JobInv(jobs[i])
    ensures forall i :: 0 <= i < |Rows(jobs)| ==> RowOk(Rows(jobs)[i])
  {
    if jobs != [] {
      RowsAreConsistent(jobs[..|jobs| - 1]);
    }
  }

  predicate Shows(j: Job, sel: Row -> bool, st: Status) {
    j.db.Some? && sel(j.db.value) && j.db.value.status == st
  }

  /** The jobs whose committed row the filter selects and whose status is that one. */
  function JobsWith(jobs: seq<Job>, sel: Row -> bool, st: Status): set<nat> {
    set id: nat | id < |jobs| && Shows(jobs[id], sel, st)
  }

  lemma OneMoreJob(jobs: seq<Job>, j: Job, sel: Row -> bool, st: Status)
    ensures |JobsWith(jobs + [j], sel, st)| == |JobsWith(jobs, sel, st)| + CountIf(Shows(j, sel, st))
  {
    var before := JobsWith(jobs, sel, st);
    assert JobsWith(jobs + [j], sel, st) == before + (if Shows(j, sel, st) then {|jobs|} else {});
  }

  function Column(c: Counts, st: Status): nat {
    match st
    case Success => c.success
    case Failed => c.failed
    case InProgress => c.inProgress
    case Pending => c.pending
    case Retrying => c.retrying
  }

  lemma ColumnAdds(rows: seq<Row>, sel: Row -> bool, r: Row, st: Status)
    ensures Column(Aggregate(rows + [r], sel), st)
         == Column(Aggregate(rows, sel), st) + CountIf(sel(r) && r.status == st)
  {
    assert (rows + [r])[..|rows|] == rows;
  }

  /** A column counts the jobs of its status, each once. */
  lemma {:induction false} ColumnCountsJobs(jobs: seq<Job>, sel: Row -> bool, st: Status)
    ensures Column(Aggregate(Rows(jobs), sel), st) == |JobsWith(jobs, sel, st)|
  {
    if jobs != [] {
      var n := |jobs| - 1;
      ColumnCountsJobs(jobs[..n], sel, st);
      assert jobs == jobs[..n] + [jobs[n]];
      OneMoreJob(jobs[..n], jobs[n], sel, st);
      if jobs[n].db.Some? {
        ColumnAdds(Rows(jobs[..n]), sel, jobs[n].db.value, st);
      } else {
        assert Rows(jobs) == Rows(jobs[..n]);
      }
    }
  }

  lemma CountsAreOfJobs(jobs: seq<Job>, sel: Row -> bool)
    ensures var c := Aggregate(Rows(jobs), sel);
            && c.success == |JobsWith(jobs, sel, Success)| && c.failed == |JobsWith(jobs, sel, Failed)|
            && c.inProgress == |JobsWith(jobs, sel, InProgress)| && c.pending == |JobsWith(jobs, sel, Pending)|
            && c.retrying == |JobsWith(jobs, sel, Retrying)|
  {
    ColumnCountsJobs(jobs, sel, Success);
    ColumnCountsJobs(jobs, sel, Failed);
    ColumnCountsJobs(jobs, sel, InProgress);
    ColumnCountsJobs(jobs, sel, Pending);
    ColumnCountsJobs(jobs, sel, Retrying);
  }

  /** In every reachable store and for every filter: each count is the number of selected jobs with that status, the
      five counts add up to the total, and the transferred bytes are the sizes of the successful transfers. */
  lemma StatsConserved(workers: nat, acts: seq<Engine.Action>, apps: map<string, string>, app: string, grp: string)
    requires Engine.IsRun(Engine.Init(workers), acts)
    ensures var rows := Rows(Engine.After(Engine.Init(workers), acts).jobs); var c := GetStats(rows, apps, app, grp);
            && c.total == c.success + c.failed + c.inProgress + c.pending + c.retrying
            && c.bytes == SuccessSizes(rows, (r: Row) => Selected(apps, app, grp, r))
    ensures var jobs := Engine.After(Engine.Init(workers), acts).jobs; var c := GetStats(Rows(jobs), apps, app, grp);
            var sel := (r: Row) => Selected(apps, app, grp, r);
            && c.success == |JobsWith(jobs, sel, Success)| && c.failed == |JobsWith(jobs, sel, Failed)|
            && c.inProgress == |JobsWith(jobs, sel, InProgress)| && c.pending == |JobsWith(jobs, sel, Pending)|
            && c.retrying == |JobsWith(jobs, sel, Retrying)|
  {
    Engine.InitInv(workers);
    Engine.RunKeepsInv(Engine.Init(workers), acts);
    var jobs := Engine.After(Engine.Init(workers), acts).jobs;
    RowsAreConsistent(jobs);
    CountsAddUp(Rows(jobs), (r: Row) => Selected(apps, app, grp, r));
    CountsAreOfJobs(jobs, (r: Row) => Selected(apps, app, grp, r));
  }

  // ---- per-app figures add up ----

  /** The per-app figures of a list of apps, added. */
  function SumOver(rows: seq<Row>, apps: map<string, string>, ids: seq<string>): Counts {
    if ids == [] then Zero() else
      Plus(SumOver(rows, apps, ids[..|ids| - 1]), GetStats(rows, apps, ids[|ids| - 1], ""))
  }

  ghost predicate Distinct(ids: seq<string>) {
    forall i, k :: 0 <= i < k < |ids| ==> ids[i] != ids[k]
  }

  lemma {:induction false} SameSelection(rows: seq<Row>, f: Row -> bool, g: Row -> bool)
    requires forall i :: 0 <= i < |rows| ==> f(rows[i]) == g(rows[i])
    ensures Aggregate(rows, f) == Aggregate(rows, g)
  {
    if rows != [] {
      SameSelection(rows[..|rows| - 1], f, g);
    }
  }

  lemma PlusZero(a: Counts, z: Counts)
    requires z == Zero()
    ensures Plus(a, z) == a
  {
  }

  lemma AddToOne(a: Counts, b: Counts, c: Counts, inA: bool, inB: bool)
    requires !(inA && inB)
    ensures AddIf(inA || inB, Plus(a, b), c) == Plus(AddIf(inA, a, c), AddIf(inB, b, c))
  {
  }

  predicate Splits(f: Row -> bool, g: Row -> bool, either: Row -> bool, r: Row) {
    !(f(r) && g(r)) && either(r) == (f(r) || g(r))
  }

  lemma {:induction false} DisjointSelections(rows: seq<Row>, f: Row -> bool, g: Row -> bool, either: Row -> bool)
    requires forall i :: 0 <= i < |rows| ==> Splits(f, g, either, rows[i])
    ensures Aggregate(rows, either) == Plus(Aggregate(rows, f), Aggregate(rows, g))
  {
    if rows == [] {
      PlusZero(Aggregate(rows, f), Aggregate(rows, g));
    } else {
      var n := |rows| - 1;
      var r := rows[n];
      assert Splits(f, g, either, r);
      DisjointSelections(rows[..n], f, g, either);
      var a, b, c := Aggregate(rows[..n], f), Aggregate(rows[..n], g), OfRow(r);
      AddToOne(a, b, c, f(r), g(r));
      calc {
        Aggregate(rows, either);
        AddIf(either(r), Aggregate(rows[..n], either), c);
        AddIf(f(r) || g(r), Plus(a, b), c);
        Plus(AddIf(f(r), a, c), AddIf(g(r), b, c));
      }
    }
  }

  lemma {:induction false} NoneSelected(rows: seq<Row>, f: Row -> bool)
    requires forall i :: 0 <= i < |rows| ==> !f(rows[i])
    ensures Aggregate(rows, f) == Zero()
  {
    if rows != [] {
      NoneSelected(rows[..|rows| - 1], f);
    }
  }

  function InApps(ids: seq<string>): Row -> bool {
    (r: Row) => r.app in ids
  }

  lemma InLonger(ids: seq<string>, a: string)
    requires ids != []
    ensures a in ids <==> a in ids[..|ids| - 1] || a == ids[|ids| - 1]
  {
  }

  /** Adding the figures of distinct apps gives the figures of all rows that belong to one of them. */
  lemma {:induction false} AppsPartition(rows: seq<Row>, apps: map<string, string>, ids: seq<string>)
    requires Distinct(ids) && "" !in ids
    ensures SumOver(rows, apps, ids) == Aggregate(rows, InApps(ids))
  {
    if ids == [] {
      NoneSelected(rows, InApps(ids));
    } else {
      var n := |ids| - 1;
      var last := ids[n];
      AppsPartition(rows, apps, ids[..n]);
      assert last != "" && last !in ids[..n];
      var before, latest, either := InApps(ids[..n]), (r: Row) => Selected(apps, last, "", r), InApps(ids);
      forall i | 0 <= i < |rows|
        ensures Splits(before, latest, either, rows[i])
      {
        InLonger(ids, rows[i].app);
      }
      DisjointSelections(rows, before, latest, either);
    }
  }

  /** A group's figures are the sum of its apps' figures. */
  lemma GroupIsSumOfApps(rows: seq<Row>, apps: map<string, string>, grp: string, ids: seq<string>)
    requires grp != "" && "" !in apps && Distinct(ids)
    requires forall a :: a in ids <==> a in apps && apps[a] == grp
    ensures GetStats(rows, apps, "", grp) == SumOver(rows, apps, ids)
  {
    AppsPartition(rows, apps, ids);
    SameSelection(rows, (r: Row) => Selected(apps, "", grp, r), InApps(ids));
  }

  /** The overall figures are the sum over all apps exactly as long as every transfer's app exists: otherwise the total
      exceeds the sum. */
  lemma TotalIsSumOfAppsIff(rows: seq<Row>, apps: map<string, string>, ids: seq<string>)
    requires "" !in apps && Distinct(ids) && forall a :: a in ids <==> a in apps
    ensures GetStats(rows, apps, "", "").total == SumOver(rows, apps, ids).total <==> NoOrphan(rows, apps)
    ensures NoOrphan(rows, apps) ==> GetStats(rows, apps, "", "") == SumOver(rows, apps, ids)
  {
    AppsPartition(rows, apps, ids);
    var all, known := (r: Row) => Selected(apps, "", "", r), InApps(ids);
    SplitOrphans(rows, all, known, OutsideApps(ids));
    if NoOrphan(rows, apps) {
      SameSelection(rows, all, known);
    } else {
      var r :| r in rows && r.app !in apps;
      SomeSelected(rows, OutsideApps(ids), r);
    }
  }

  ghost predicate NoOrphan(rows: seq<Row>, apps: map<string, string>) { forall r :: r in rows ==> r.app in apps }

  function OutsideApps(ids: seq<string>): Row -> bool {
    (r: Row) => r.app !in ids
  }

  lemma SplitOrphans(rows: seq<Row>, all: Row -> bool, known: Row -> bool, orphan: Row -> bool)
    requires forall r :: all(r) && (orphan(r) <==> !known(r))
    ensures Aggregate(rows, all).total == Aggregate(rows, known).total + Aggregate(rows, orphan).total
  {
  }

  lemma {:induction false} SomeSelected(rows: seq<Row>, f: Row -> bool, r: Row)
    requires r in rows && f(r)
    ensures Aggregate(rows, f).total > 0
  {
    var n := |rows| - 1;
    if rows[n] != r {
      SomeSelected(rows[..n], f, r);
    }
  }

  // ---- the foreign key ----

  /** The apps table, from id to group, and the transfers table. */
  datatype Tables = Tables(apps: map<string, string>, rows: seq<Row>)

  datatype Statement =
    | InsertApp(id: string, grp: string)
    | DeleteApp(id: string)
    | DeleteGroup(grp: string)       // cascades to the group's apps
    | InsertTransfer(row: Row)
    | UpdateTransfer(i: nat, row: Row)

  function AppsOf(apps: map<string, string>, grp: string): set<string> { set a | a in apps && apps[a] == grp }

  predicate Referenced(rows: seq<Row>, ids: set<string>) { exists i :: 0 <= i < |rows| && rows[i].app in ids }

  /** SQLite with foreign keys on refuses a statement that would leave a transfer without its app. */
  function Executed(t: Tables, st: Statement): Tables {
    match st
    case InsertApp(id, grp) => if id in t.apps then t else t.(apps := t.apps[id := grp])
    case DeleteApp(id) => if Referenced(t.rows, {id}) then t else t.(apps := t.apps - {id})
    case DeleteGroup(grp) =>
      if Referenced(t.rows, AppsOf(t.apps, grp)) then t else t.(apps := t.apps - AppsOf(t.apps, grp))
    case InsertTransfer(row) => if row.app in t.apps then t.(rows := t.rows + [row]) else t
    case UpdateTransfer(i, row) => if i < |t.rows| then t.(rows := t.rows[i := Updated(t.rows[i], row)]) else t
  }

  /** What a statement asks for, apart from the foreign key. */
  function Asked(t: Tables, st: Statement): Tables {
    match st
    case InsertApp(id, grp) => if id in t.apps then t else t.(apps := t.apps[id := grp])
    case DeleteApp(id) => t.(apps := t.apps - {id})
    case DeleteGroup(grp) => t.(apps := map a | a in t.apps && t.apps[a] != grp :: t.apps[a])
    case InsertTransfer(row) => t.(rows := t.rows + [row])
    case UpdateTransfer(i, row) => if i < |t.rows| then t.(rows := t.rows[i := Updated(t.rows[i], row)]) else t
  }

  /** A statement is refused if and only if what it asks for would leave a transfer without its app. */
  lemma RefusedIff(t: Tables, st: Statement)
    requires NoOrphan(t.rows, t.apps)
    ensures Executed(t, st) == if NoOrphan(Asked(t, st).rows, Asked(t, st).apps) then Asked(t, st) else t
  {
    var u := Asked(t, st);
    match st
    case DeleteApp(id) =>
      if i :| 0 <= i < |t.rows| && t.rows[i].app in {id} {
        assert t.rows[i] in u.rows && t.rows[i].app !in u.apps;
      }
    case DeleteGroup(grp) =>
      assert u.apps == t.apps - AppsOf(t.apps, grp);
      if i :| 0 <= i < |t.rows| && t.rows[i].app in AppsOf(t.apps, grp) {
        assert t.rows[i] in u.rows && t.rows[i].app !in u.apps;
      }
    case InsertTransfer(row) => assert row in u.rows;
    case _ => StatementKeepsKey(t, st);
  }

  function AfterAll(sts: seq<Statement>): Tables {
    if sts == [] then Tables(map[], []) else Executed(AfterAll(sts[..|sts| - 1]), sts[|sts| - 1])
  }

  lemma StatementKeepsKey(t: Tables, st: Statement)
    requires NoOrphan(t.rows, t.apps)
    ensures NoOrphan(Executed(t, st).rows, Executed(t, st).apps)
  {
    var u := Executed(t, st);
    forall r | r in u.rows
      ensures r.app in u.apps
    {
      var i :| 0 <= i < |u.rows| && u.rows[i] == r;
      assert i < |t.rows| ==> t.rows[i].app == r.app && t.rows[i] in t.rows;
    }
  }

  lemma {:induction false} KeyHolds(sts: seq<Statement>)
    ensures NoOrphan(AfterAll(sts).rows, AfterAll(sts).apps)
  {
    if sts != [] {
      KeyHolds(sts[..|sts| - 1]);
      StatementKeepsKey(AfterAll(sts[..|sts| - 1]), sts[|sts| - 1]);
    }
  }

  /** So after any statements whatsoever, refused ones included, the overall figures are the sum over all apps. */
  lemma TotalIsSumOfApps(sts: seq<Statement>, ids: seq<string>)
    requires var t := AfterAll(sts); "" !in t.apps && Distinct(ids) && forall a :: a in ids <==> a in t.apps
    ensures var t := AfterAll(sts); GetStats(t.rows, t.apps, "", "") == SumOver(t.rows, t.apps, ids)
  {
    KeyHolds(sts);
    TotalIsSumOfAppsIff(AfterAll(sts).rows, AfterAll(sts).apps, ids);
  }
}
