/** A whole run of the sync script: every valid file's challenge ends with its exam. */
module SyncAndExams {
  import opened ChallengeSync
  import opened SyncTheorems

  /** Row ids are distinct, and none is still to be issued. */
  ghost predicate IdsDistinct(t: Table) {
    && (forall i :: 0 <= i < |t.rows| ==> t.rows[i].id < t.next)
    && (forall i, j :: 0 <= i < j < |t.rows| ==> t.rows[i].id != t.rows[j].id)
  }

  ghost predicate ExamIdsDistinct(x: Exams) {
    && (forall i :: 0 <= i < |x.rows| ==> x.rows[i].id < x.next)
    && (forall i, j :: 0 <= i < j < |x.rows| ==> x.rows[i].id != x.rows[j].id)
  }

  lemma {:induction false} SyncKeepsIdsDistinct(t: Table, files: seq<File>, admin: string)
    requires IdsDistinct(t)
    ensures IdsDistinct(Sync(t, files, admin))
    decreases |files|
  {
    if files != [] {
      SyncKeepsIdsDistinct(t, files[..|files| - 1], admin);
    }
  }

  lemma {:induction false} ExamsKeepIdsDistinct(x: Exams, rows: seq<Row>, ids: seq<nat>, title: string, s: Settings,
                                                clock: nat -> int, admin: string)
    requires ExamIdsDistinct(x)
    ensures ExamIdsDistinct(CreateExams(x, rows, ids, title, s, clock, admin))
    decreases |ids|
  {
    if ids != [] {
      ExamsKeepIdsDistinct(x, rows, ids[..|ids| - 1], title, s, clock, admin);
    }
  }

  lemma {:induction false} FindsId(rows: seq<Row>, c: nat)
    requires c < |rows| && forall i, j :: 0 <= i < j < |rows| ==> rows[i].id != rows[j].id
    ensures FindId(rows, rows[c].id) == c
    decreases |rows|
  {
    var n := |rows| - 1;
    if c < n {
      FindsId(rows[..n], c);
    } else {
      FindsNoId(rows[..n], rows[c].id);
    }
  }

  lemma {:induction false} FindsNoId(rows: seq<Row>, id: nat)
    requires forall i :: 0 <= i < |rows| ==> rows[i].id != id
    ensures FindId(rows, id) == -1
    decreases |rows|
  {
    if rows != [] {
      FindsNoId(rows[..|rows| - 1], id);
    }
  }

  lemma TitleInjective(title: string, a: string, b: string)
    ensures ExamTitle(title, a) == ExamTitle(title, b) <==> a == b
  {
    assert ExamTitle(title, a)[|title| + 2..] == a && ExamTitle(title, b)[|title| + 2..] == b;
  }

  /** Wherever the exam of the title came from, it is for the challenge, if the requests for the title all are. */
  ghost predicate Linked(x: Exams, t: string, id: nat) {
    FindTitle(x.rows, t) != -1 ==> x.rows[FindTitle(x.rows, t)].challengeId == id
  }

  /** All requests with the title are for the one challenge. */
  ghost predicate OnlyFor(rows: seq<Row>, ids: seq<nat>, title: string, t: string, id: nat) {
    forall k :: 0 <= k < |ids| && FindId(rows, ids[k]) != -1 && ExamTitle(title, rows[FindId(rows, ids[k])].name) == t
      ==> ids[k] == id
  }

  lemma ExamOneLinked(x: Exams, rows: seq<Row>, id: nat, title: string, s: Settings, now: int, admin: string,
                      t: string, want: nat)
    requires FindId(rows, id) != -1 && ExamTitle(title, rows[FindId(rows, id)].name) == t ==> id == want
    ensures Linked(x, t, want) ==> Linked(ExamOne(x, rows, id, title, s, now, admin), t, want)
    ensures FindTitle(x.rows, t) != -1 ==>
              var y := ExamOne(x, rows, id, title, s, now, admin);
              FindTitle(y.rows, t) == FindTitle(x.rows, t)
              && y.rows[FindTitle(y.rows, t)].challengeId == x.rows[FindTitle(x.rows, t)].challengeId
  {
    var y := ExamOne(x, rows, id, title, s, now, admin);
    FindsTitle(x.rows, t);
    FindsTitle(y.rows, t);
    assert forall k :: 0 <= k < |x.rows| ==>
      y.rows[k].title == x.rows[k].title && y.rows[k].challengeId == x.rows[k].challengeId;
  }

  /** An exam that was there keeps its challenge; one made now is for the challenge that was asked for. */
  lemma {:induction false} ExamsLinked(x: Exams, rows: seq<Row>, ids: seq<nat>, title: string, s: Settings,
                                       clock: nat -> int, admin: string, t: string, want: nat)
    requires OnlyFor(rows, ids, title, t, want)
    ensures var y := CreateExams(x, rows, ids, title, s, clock, admin);
            && (Linked(x, t, want) ==> Linked(y, t, want))
            && (FindTitle(x.rows, t) != -1 ==>
                  FindTitle(y.rows, t) == FindTitle(x.rows, t)
                  && y.rows[FindTitle(y.rows, t)].challengeId == x.rows[FindTitle(x.rows, t)].challengeId)
    decreases |ids|
  {
    if ids != [] {
      var n := |ids| - 1;
      assert OnlyFor(rows, ids[..n], title, t, want) by {
        assert forall k :: 0 <= k < n ==> ids[..n][k] == ids[k];
      }
      ExamsLinked(x, rows, ids[..n], title, s, clock, admin, t, want);
      var y := CreateExams(x, rows, ids[..n], title, s, clock, admin);
      ExamOneLinked(y, rows, ids[n], title, s, clock(n), admin, t, want);
    }
  }

  /** Every reported id is that of the row its name has, and finds it. */
  lemma {:induction false} ReportedFound(t: Table, files: seq<File>, admin: string, k: nat)
    requires UniqueNames(t.rows) && IdsDistinct(t) && k < |ValidNames(files)|
    ensures var u, ids := Sync(t, files, admin), SyncedIds(t, files, admin);
            && |ids| == |ValidNames(files)|
            && FindName(u.rows, ValidNames(files)[k]) != -1
            && ids[k] == u.rows[FindName(u.rows, ValidNames(files)[k])].id
            && FindId(u.rows, ids[k]) == FindName(u.rows, ValidNames(files)[k])
            && u.rows[FindId(u.rows, ids[k])].name == ValidNames(files)[k]
  {
    var u := Sync(t, files, admin);
    SyncedReportsFinalIds(t, files, admin);
    SyncKeepsIdsDistinct(t, files, admin);
    assert SyncedList(t, files, admin)[k].name == ValidNames(files)[k];
    FindsName(u.rows, ValidNames(files)[k]);
    FindsId(u.rows, FindName(u.rows, ValidNames(files)[k]));
  }

  /** All reported ids whose exam has the title of one name belong to that name's row. */
  lemma {:induction false} ReportedOnlyFor(t: Table, files: seq<File>, admin: string, title: string, k: nat)
    requires UniqueNames(t.rows) && IdsDistinct(t) && k < |ValidNames(files)|
    ensures |SyncedIds(t, files, admin)| == |ValidNames(files)|
    ensures OnlyFor(Sync(t, files, admin).rows, SyncedIds(t, files, admin), title,
                    ExamTitle(title, ValidNames(files)[k]), SyncedIds(t, files, admin)[k])
  {
    var u, ids, names := Sync(t, files, admin), SyncedIds(t, files, admin), ValidNames(files);
    ReportedFound(t, files, admin, k);
    forall i | 0 <= i < |ids| && FindId(u.rows, ids[i]) != -1
               && ExamTitle(title, u.rows[FindId(u.rows, ids[i])].name) == ExamTitle(title, names[k])
      ensures ids[i] == ids[k]
    {
      ReportedFound(t, files, admin, i);
      TitleInjective(title, names[i], names[k]);
    }
  }

  /** The challenge of the name has its exam, configured as wanted. */
  ghost predicate HasExam(u: Table, y: Exams, title: string, s: Settings, name: string) {
    var c, i := FindName(u.rows, name), FindTitle(y.rows, ExamTitle(title, name));
    c != -1 && i != -1 && Configured(y.rows[i], s)
  }

  /** The exam points to the challenge of the name. */
  ghost predicate PointsTo(u: Table, y: Exams, title: string, name: string) {
    var c, i := FindName(u.rows, name), FindTitle(y.rows, ExamTitle(title, name));
    c != -1 && i != -1 && y.rows[i].challengeId == u.rows[c].id
  }

  /**
   * After the script, the challenge of every valid file has its exam, and the exam points to it unless an
   * exam of that title was there before and pointed elsewhere, as when the challenge was made anew.
   */
  lemma {:induction false} EveryChallengeExamined(t: Table, x: Exams, files: seq<File>, title: string, s: Settings,
                                                  clock: nat -> int, admin: string, k: nat)
    requires UniqueNames(t.rows) && IdsDistinct(t) && k < |ValidNames(files)|
    ensures var name, u := ValidNames(files)[k], Sync(t, files, admin);
            var y := CreateExams(x, u.rows, SyncedIds(t, files, admin), title, s, clock, admin);
            && HasExam(u, y, title, s, name)
            && (PointsTo(u, y, title, name)
                <==> FindTitle(x.rows, ExamTitle(title, name)) == -1 || PointsTo(u, x, title, name))
  {
    var name, u, ids := ValidNames(files)[k], Sync(t, files, admin), SyncedIds(t, files, admin);
    ReportedFound(t, files, admin, k);
    ReportedOnlyFor(t, files, admin, title, k);
    ExamsReady(x, u.rows, ids, title, s, clock, admin);
    assert Ready(CreateExams(x, u.rows, ids, title, s, clock, admin), u.rows, ids[k], title, s);
    ExamsLinked(x, u.rows, ids, title, s, clock, admin, ExamTitle(title, name), ids[k]);
  }

  /** And names, titles and row ids stay unique in both tables, so different challenges have different exams. */
  lemma {:induction false} TablesStayUnique(t: Table, x: Exams, files: seq<File>, title: string, s: Settings,
                                            clock: nat -> int, admin: string)
    requires UniqueNames(t.rows) && IdsDistinct(t) && UniqueTitles(x.rows) && ExamIdsDistinct(x)
    ensures var u := Sync(t, files, admin);
            var y := CreateExams(x, u.rows, SyncedIds(t, files, admin), title, s, clock, admin);
            && UniqueNames(u.rows) && IdsDistinct(u) && UniqueTitles(y.rows) && ExamIdsDistinct(y)
            && forall a, b :: FindTitle(y.rows, ExamTitle(title, a)) == FindTitle(y.rows, ExamTitle(title, b)) != -1
                 ==> a == b
  {
    var u := Sync(t, files, admin);
    var y := CreateExams(x, u.rows, SyncedIds(t, files, admin), title, s, clock, admin);
    SyncUpserts(t, files, admin);
    SyncKeepsIdsDistinct(t, files, admin);
    ExamsReady(x, u.rows, SyncedIds(t, files, admin), title, s, clock, admin);
    ExamsKeepIdsDistinct(x, u.rows, SyncedIds(t, files, admin), title, s, clock, admin);
    forall a, b | FindTitle(y.rows, ExamTitle(title, a)) == FindTitle(y.rows, ExamTitle(title, b)) != -1
      ensures a == b
    {
      FindsTitle(y.rows, ExamTitle(title, a));
      FindsTitle(y.rows, ExamTitle(title, b));
      TitleInjective(title, a, b);
    }
  }
}
