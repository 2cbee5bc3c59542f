/** The exam loop column by column: what each pass leaves in the exams table. */
module ExamsByField {
  import opened Decimal
  import opened ChallengeSync
  import opened SyncTheorems

  /** Pass k is for a challenge of the table, under this title. */
  predicate Asks(rows: seq<Row>, ids: seq<nat>, title: string, k: int, examTitle: string) {
    0 <= k < |ids| && FindId(rows, ids[k]) != -1 && examTitle == title + ": " + rows[FindId(rows, ids[k])].name
  }

  /** A pass for another title, or for no challenge, leaves an exam alone. */
  lemma OtherPass(x: Exams, rows: seq<Row>, id: nat, title: string, s: Settings, now: int, admin: string, i: nat)
    requires i < |x.rows|
    requires FindId(rows, id) != -1 ==> x.rows[i].title != title + ": " + rows[FindId(rows, id)].name
    ensures var y := ExamOne(x, rows, id, title, s, now, admin);
            i < |y.rows| && y.rows[i] == x.rows[i]
  {
    if FindId(rows, id) != -1 {
      FindsTitle(x.rows, title + ": " + rows[FindId(rows, id)].name);
    }
  }

  /** A pass configures and publishes the first exam of its title and keeps its other columns. */
  lemma OwnPass(x: Exams, rows: seq<Row>, id: nat, title: string, s: Settings, now: int, admin: string, i: nat)
    requires i < |x.rows| && forall j :: 0 <= j < i ==> x.rows[j].title != x.rows[i].title
    requires FindId(rows, id) != -1 && x.rows[i].title == title + ": " + rows[FindId(rows, id)].name
    ensures var y := ExamOne(x, rows, id, title, s, now, admin);
            && i < |y.rows|
            && y.rows[i].settings == s && y.rows[i].passThreshold == 0.6
            && y.rows[i].isPublished && y.rows[i].publishedAt == now
  {
    FindsTitle(x.rows, x.rows[i].title);
  }

  /** Whatever the pass, an exam keeps the columns that are written on insert only. */
  lemma PassKeeps(x: Exams, rows: seq<Row>, id: nat, title: string, s: Settings, now: int, admin: string, i: nat)
    requires i < |x.rows|
    ensures var y := ExamOne(x, rows, id, title, s, now, admin);
            && i < |y.rows|
            && y.rows[i].id == x.rows[i].id && y.rows[i].title == x.rows[i].title
            && y.rows[i].description == x.rows[i].description && y.rows[i].challengeId == x.rows[i].challengeId
            && y.rows[i].fullscreenRequired == x.rows[i].fullscreenRequired
            && y.rows[i].tabSwitchLogging == x.rows[i].tabSwitchLogging
            && y.rows[i].pasteDisabled == x.rows[i].pasteDisabled && y.rows[i].createdBy == x.rows[i].createdBy
  {
  }

  /** An exam that was there keeps every column that is written on insert only. */
  lemma {:induction false} OldExamByField(x: Exams, rows: seq<Row>, ids: seq<nat>, title: string, s: Settings,
                                          clock: nat -> int, admin: string, i: nat)
    requires i < |x.rows|
    ensures var y := CreateExams(x, rows, ids, title, s, clock, admin);
            && i < |y.rows|
            && y.rows[i].id == x.rows[i].id && y.rows[i].title == x.rows[i].title
            && y.rows[i].description == x.rows[i].description && y.rows[i].challengeId == x.rows[i].challengeId
            && y.rows[i].fullscreenRequired == x.rows[i].fullscreenRequired
            && y.rows[i].tabSwitchLogging == x.rows[i].tabSwitchLogging
            && y.rows[i].pasteDisabled == x.rows[i].pasteDisabled && y.rows[i].createdBy == x.rows[i].createdBy
    decreases |ids|
  {
    if ids != [] {
      var n := |ids| - 1;
      OldExamByField(x, rows, ids[..n], title, s, clock, admin, i);
      PassKeeps(CreateExams(x, rows, ids[..n], title, s, clock, admin), rows, ids[n], title, s, clock(n), admin, i);
    }
  }

  /** The insert of a pass: its columns, each as the script writes it. */
  ghost predicate Inserted(e: Exam, rows: seq<Row>, ids: seq<nat>, title: string, s: Settings, admin: string, k: int) {
    && Asks(rows, ids, title, k, e.title)
    && e.challengeId == ids[k]
    && e.description == "Coding assessment for " + rows[FindId(rows, ids[k])].name + ". You have "
                        + Dec(s.timeLimit) + " minutes and " + Dec(s.maxAttempts) + " attempts."
    && e.fullscreenRequired && e.tabSwitchLogging && !e.pasteDisabled && e.createdBy == admin
  }

  /** An exam that was not there has the next free id and the columns of a pass that asked for its title. */
  lemma {:induction false} NewExamByField(x: Exams, rows: seq<Row>, ids: seq<nat>, title: string, s: Settings,
                                          clock: nat -> int, admin: string, i: nat)
    requires |x.rows| <= i < |CreateExams(x, rows, ids, title, s, clock, admin).rows|
    ensures var y := CreateExams(x, rows, ids, title, s, clock, admin);
            && y.rows[i].id == x.next + (i - |x.rows|)
            && exists k :: Inserted(y.rows[i], rows, ids, title, s, admin, k)
    decreases |ids|
  {
    var n := |ids| - 1;
    var u := CreateExams(x, rows, ids[..n], title, s, clock, admin);
    var y := CreateExams(x, rows, ids, title, s, clock, admin);
    NextExam(x, rows, ids[..n], title, s, clock, admin);
    if i < |u.rows| {
      NewExamByField(x, rows, ids[..n], title, s, clock, admin, i);
      var k :| Inserted(u.rows[i], rows, ids[..n], title, s, admin, k);
      PassKeeps(u, rows, ids[n], title, s, clock(n), admin, i);
      assert Inserted(y.rows[i], rows, ids, title, s, admin, k);
    } else {
      assert Inserted(y.rows[i], rows, ids, title, s, admin, n);
    }
  }

  lemma {:induction false} NextExam(x: Exams, rows: seq<Row>, ids: seq<nat>, title: string, s: Settings,
                                    clock: nat -> int, admin: string)
    ensures var y := CreateExams(x, rows, ids, title, s, clock, admin);
            |y.rows| >= |x.rows| && y.next == x.next + (|y.rows| - |x.rows|)
    decreases |ids|
  {
    if ids != [] {
      NextExam(x, rows, ids[..|ids| - 1], title, s, clock, admin);
    }
  }

  /** The last pass that asks for an exam's title configures and publishes it; without one it is as before. */
  lemma {:induction false} ConfiguredByField(x: Exams, rows: seq<Row>, ids: seq<nat>, title: string, s: Settings,
                                             clock: nat -> int, admin: string, i: nat, m: int)
    requires i < |CreateExams(x, rows, ids, title, s, clock, admin).rows|
    requires forall a, b :: 0 <= a < b < |x.rows| ==> x.rows[a].title != x.rows[b].title
    requires var t := CreateExams(x, rows, ids, title, s, clock, admin).rows[i].title;
             && (m == -1 || Asks(rows, ids, title, m, t))
             && forall j :: m < j < |ids| ==> !Asks(rows, ids, title, j, t)
    ensures var e := CreateExams(x, rows, ids, title, s, clock, admin).rows[i];
            if m == -1 then i < |x.rows| && e == x.rows[i]
            else e.settings == s && e.passThreshold == 0.6 && e.isPublished && e.publishedAt == clock(m)
    decreases |ids|
  {
    if ids != [] {
      var n := |ids| - 1;
      var u := CreateExams(x, rows, ids[..n], title, s, clock, admin);
      var t := CreateExams(x, rows, ids, title, s, clock, admin).rows[i].title;
      ExamsReady(x, rows, ids[..n], title, s, clock, admin);
      assert forall k :: 0 <= k < n ==> Asks(rows, ids[..n], title, k, t) == Asks(rows, ids, title, k, t);
      if i < |u.rows| {
        PassKeeps(u, rows, ids[n], title, s, clock(n), admin, i);
        if m == n {
          OwnPass(u, rows, ids[n], title, s, clock(n), admin, i);
        } else {
          assert !Asks(rows, ids, title, n, t);
          OtherPass(u, rows, ids[n], title, s, clock(n), admin, i);
          ConfiguredByField(x, rows, ids[..n], title, s, clock, admin, i, m);
        }
      } else {
        assert Asks(rows, ids, title, n, t);
      }
    }
  }
}
