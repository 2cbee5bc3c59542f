/** The sync is an idempotent upsert in which the last file of a name wins, but for a runner it does not give. */
module SyncTheorems {
  import opened Wrappers
  import opened ChallengeSync

  ghost predicate UniqueNames(rows: seq<Row>) {
    forall i, j :: 0 <= i < j < |rows| ==> rows[i].name != rows[j].name
  }

  predicate Carries(f: File, name: string) {
    IsValid(f) && f.c.name == name
  }

  /** The content of the last file that carries the name. */
  function LastContent(files: seq<File>, name: string): Option<Content> {
    if files == [] then None
    else
      var f := files[|files| - 1];
      if Carries(f, name) then Some(ContentOf(f.c)) else LastContent(files[..|files| - 1], name)
  }

  /** The runner of the last file that carries the name and has one. */
  function LastRunner(files: seq<File>, name: string): Option<string> {
    if files == [] then None
    else
      var f := files[|files| - 1];
      if Carries(f, name) && f.c.runner.Some? then f.c.runner else LastRunner(files[..|files| - 1], name)
  }

  function RunnerAfter(files: seq<File>, name: string, before: Option<string>): Option<string> {
    if LastRunner(files, name).Some? then LastRunner(files, name) else before
  }

  /** The content of the last file, with the last runner any file gave. */
  function FinalContent(files: seq<File>, name: string, before: Option<string>): Option<Content> {
    var last := LastContent(files, name);
    if last.Some? then Some(last.value.(runner := RunnerAfter(files, name, before))) else None
  }

  function Updated(r: Row, files: seq<File>): Row {
    var last := FinalContent(files, r.name, r.content.runner);
    if last.Some? then r.(content := last.value) else r
  }

  ghost predicate OldRows(s: Table, t: Table, files: seq<File>) {
    |s.rows| <= |t.rows| && forall i :: 0 <= i < |s.rows| ==> t.rows[i] == Updated(s.rows[i], files)
  }

  /** A row that was not there: the next free id, and the content its files leave. */
  ghost predicate IsNewRow(r: Row, id: int, files: seq<File>, admin: string) {
    r.id == id && r.createdBy == admin && FinalContent(files, r.name, None) == Some(r.content)
  }

  ghost predicate NewRows(s: Table, t: Table, files: seq<File>, admin: string) {
    && t.next == s.next + |t.rows| - |s.rows|
    && forall i :: |s.rows| <= i < |t.rows| ==> IsNewRow(t.rows[i], s.next + i - |s.rows|, files, admin)
  }

  /**
   * t is what becomes of s: the old rows stay in place with only their content replaced, by the files of
   * their name if there are any; the new rows follow, one for each name that was not there.
   */
  ghost predicate Upserted(s: Table, t: Table, files: seq<File>, admin: string) {
    OldRows(s, t, files) && NewRows(s, t, files, admin) && UniqueNames(t.rows) && Covers(t.rows, files)
  }

  /** Every name a valid file carries has a row. */
  ghost predicate Covers(rows: seq<Row>, files: seq<File>) {
    forall name :: LastContent(files, name).Some? ==> FindName(rows, name) != -1
  }

  lemma CoversMore(rows: seq<Row>, more: seq<Row>, files: seq<File>, f: File)
    requires Covers(rows, files) && IsValid(f) && |rows| <= |more|
    requires forall k :: 0 <= k < |rows| ==> more[k].name == rows[k].name
    requires exists k :: 0 <= k < |more| && more[k].name == f.c.name
    ensures Covers(more, files + [f])
  {
    assert (files + [f])[..|files|] == files;
    forall name | LastContent(files + [f], name).Some?
      ensures FindName(more, name) != -1
    {
      FindsName(rows, name);
      FindsName(more, name);
    }
  }

  lemma LastContentAppend(files: seq<File>, f: File)
    requires IsValid(f)
    ensures forall name :: LastContent(files + [f], name)
                        == if name == f.c.name then Some(ContentOf(f.c)) else LastContent(files, name)
  {
    assert (files + [f])[..|files|] == files;
  }

  lemma LastRunnerAppend(files: seq<File>, f: File)
    requires IsValid(f)
    ensures forall name :: LastRunner(files + [f], name)
                        == if name == f.c.name && f.c.runner.Some? then f.c.runner else LastRunner(files, name)
  {
    assert (files + [f])[..|files|] == files;
  }

  /** Where no file gave a content, none gave a runner. */
  lemma {:induction false} RunnerNeedsContent(files: seq<File>, name: string)
    ensures LastContent(files, name) == None ==> LastRunner(files, name) == None
    decreases |files|
  {
    if files != [] {
      RunnerNeedsContent(files[..|files| - 1], name);
    }
  }

  /** One more file of the name writes its content over what the files before it left. */
  lemma FinalOwn(files: seq<File>, f: File, before: Option<string>)
    requires IsValid(f)
    ensures FinalContent(files + [f], f.c.name, before)
         == Some(ContentOver(f.c, RunnerAfter(files, f.c.name, before)))
  {
    LastContentAppend(files, f);
    LastRunnerAppend(files, f);
  }

  lemma FinalOther(files: seq<File>, f: File, name: string, before: Option<string>)
    requires IsValid(f) && name != f.c.name
    ensures FinalContent(files + [f], name, before) == FinalContent(files, name, before)
  {
    LastContentAppend(files, f);
    LastRunnerAppend(files, f);
  }

  /** A file of the row's name is written over the updated row. */
  lemma RowWritten(r: Row, files: seq<File>, f: File)
    requires IsValid(f) && r.name == f.c.name
    ensures Updated(r, files + [f])
         == Updated(r, files).(content := ContentOver(f.c, Updated(r, files).content.runner))
  {
    FinalOwn(files, f, r.content.runner);
    RunnerNeedsContent(files, r.name);
  }

  lemma RowLeft(r: Row, files: seq<File>, f: File)
    requires IsValid(f) && r.name != f.c.name
    ensures Updated(r, files + [f]) == Updated(r, files)
  {
    FinalOther(files, f, r.name, r.content.runner);
  }

  lemma NewRowWritten(r: Row, id: int, files: seq<File>, f: File, admin: string)
    requires IsValid(f) && r.name == f.c.name && IsNewRow(r, id, files, admin)
    ensures IsNewRow(r.(content := ContentOver(f.c, r.content.runner)), id, files + [f], admin)
  {
    FinalOwn(files, f, None);
  }

  lemma NewRowLeft(r: Row, id: int, files: seq<File>, f: File, admin: string)
    requires IsValid(f) && r.name != f.c.name && IsNewRow(r, id, files, admin)
    ensures IsNewRow(r, id, files + [f], admin)
  {
    FinalOther(files, f, r.name, None);
  }

  lemma ReplaceRows(s: Table, t: Table, files: seq<File>, f: File, admin: string, i: nat, r: Row)
    requires OldRows(s, t, files) && NewRows(s, t, files, admin) && UniqueNames(t.rows) && IsValid(f)
    requires i < |t.rows| && t.rows[i].name == f.c.name
    requires r == t.rows[i].(content := ContentOver(f.c, t.rows[i].content.runner))
    ensures OldRows(s, t.(rows := t.rows[i := r]), files + [f])
    ensures NewRows(s, t.(rows := t.rows[i := r]), files + [f], admin)
  {
    var u := t.(rows := t.rows[i := r]);
    assert forall k :: 0 <= k < |t.rows| && k != i ==> t.rows[k].name != f.c.name;
    forall k | 0 <= k < |s.rows|
      ensures u.rows[k] == Updated(s.rows[k], files + [f])
    {
      if k == i {
        RowWritten(s.rows[k], files, f);
      } else {
        RowLeft(s.rows[k], files, f);
      }
    }
    forall k | |s.rows| <= k < |u.rows|
      ensures IsNewRow(u.rows[k], s.next + k - |s.rows|, files + [f], admin)
    {
      if k == i {
        NewRowWritten(t.rows[k], s.next + k - |s.rows|, files, f, admin);
      } else {
        NewRowLeft(t.rows[k], s.next + k - |s.rows|, files, f, admin);
      }
    }
  }

  lemma ReplaceUpserted(s: Table, t: Table, files: seq<File>, f: File, admin: string, i: nat, r: Row)
    requires Upserted(s, t, files, admin) && IsValid(f)
    requires i < |t.rows| && t.rows[i].name == f.c.name
    requires r == t.rows[i].(content := ContentOver(f.c, t.rows[i].content.runner))
    ensures Upserted(s, t.(rows := t.rows[i := r]), files + [f], admin)
  {
    var u := t.(rows := t.rows[i := r]);
    ReplaceRows(s, t, files, f, admin, i, r);
    assert forall k :: 0 <= k < |t.rows| ==> u.rows[k].name == t.rows[k].name;
    CoversMore(t.rows, u.rows, files, f);
  }

  lemma AppendRows(s: Table, t: Table, files: seq<File>, f: File, admin: string, r: Row)
    requires OldRows(s, t, files) && NewRows(s, t, files, admin) && IsValid(f)
    requires LastContent(files, f.c.name) == None && r == Row(t.next, f.c.name, ContentOf(f.c), admin)
    requires forall k :: 0 <= k < |t.rows| ==> t.rows[k].name != f.c.name
    ensures OldRows(s, Table(t.rows + [r], t.next + 1), files + [f])
    ensures NewRows(s, Table(t.rows + [r], t.next + 1), files + [f], admin)
  {
    var u := Table(t.rows + [r], t.next + 1);
    forall k | 0 <= k < |s.rows|
      ensures u.rows[k] == Updated(s.rows[k], files + [f])
    {
      assert t.rows[k].name == s.rows[k].name;
      RowLeft(s.rows[k], files, f);
    }
    forall k | |s.rows| <= k < |u.rows|
      ensures IsNewRow(u.rows[k], s.next + k - |s.rows|, files + [f], admin)
    {
      if k < |t.rows| {
        NewRowLeft(t.rows[k], s.next + k - |s.rows|, files, f, admin);
      } else {
        RunnerNeedsContent(files, f.c.name);
        FinalOwn(files, f, None);
      }
    }
  }

  lemma AppendUpserted(s: Table, t: Table, files: seq<File>, f: File, admin: string, r: Row)
    requires Upserted(s, t, files, admin) && IsValid(f) && FindName(t.rows, f.c.name) == -1
    requires r == Row(t.next, f.c.name, ContentOf(f.c), admin)
    ensures Upserted(s, Table(t.rows + [r], t.next + 1), files + [f], admin)
  {
    FindsName(t.rows, f.c.name);
    assert LastContent(files, f.c.name) == None;
    AppendRows(s, t, files, f, admin, r);
    assert (t.rows + [r])[|t.rows|].name == f.c.name;
    CoversMore(t.rows, t.rows + [r], files, f);
  }

  lemma SkipUpserted(s: Table, t: Table, files: seq<File>, f: File, admin: string)
    requires Upserted(s, t, files, admin) && !IsValid(f)
    ensures Upserted(s, t, files + [f], admin)
  {
    assert (files + [f])[..|files|] == files;
    assert forall name :: LastContent(files + [f], name) == LastContent(files, name);
    assert forall name :: LastRunner(files + [f], name) == LastRunner(files, name);
  }

  /** From at most one row per name, a run leaves exactly that. */
  lemma {:induction false} SyncUpserts(t: Table, files: seq<File>, admin: string)
    requires UniqueNames(t.rows)
    ensures Upserted(t, Sync(t, files, admin), files, admin)
    decreases |files|
  {
    if files != [] {
      var init, f := files[..|files| - 1], files[|files| - 1];
      SyncUpserts(t, init, admin);
      var u := Sync(t, init, admin);
      assert files == init + [f];
      if !IsValid(f) {
        SkipUpserted(t, u, init, f, admin);
      } else {
        FindsName(u.rows, f.c.name);
        if FindName(u.rows, f.c.name) == -1 {
          AppendUpserted(t, u, init, f, admin, Row(u.next, f.c.name, ContentOf(f.c), admin));
        } else {
          var i := FindName(u.rows, f.c.name);
          ReplaceUpserted(t, u, init, f, admin, i,
                          u.rows[i].(content := ContentOver(f.c, u.rows[i].content.runner)));
        }
      }
    }
  }

  lemma {:induction false} NothingNew(t: Table, files: seq<File>, admin: string)
    requires Covers(t.rows, files)
    ensures |Sync(t, files, admin).rows| == |t.rows|
    ensures forall i :: 0 <= i < |t.rows| ==> Sync(t, files, admin).rows[i].name == t.rows[i].name
    decreases |files|
  {
    if files != [] {
      var init, f := files[..|files| - 1], files[|files| - 1];
      forall name | LastContent(init, name).Some?
        ensures FindName(t.rows, name) != -1
      {
        assert LastContent(files, name).Some?;
      }
      NothingNew(t, init, admin);
      if IsValid(f) {
        var u := Sync(t, init, admin);
        assert LastContent(files, f.c.name).Some?;
        FindsName(t.rows, f.c.name);
        FindsName(u.rows, f.c.name);
        assert u.rows[FindName(t.rows, f.c.name)].name == f.c.name;
      }
    }
  }

  /** A second run on the same files changes nothing at all, even when several files carry the same name. */
  lemma SyncIdempotent(t: Table, files: seq<File>, admin: string)
    requires UniqueNames(t.rows)
    ensures Sync(Sync(t, files, admin), files, admin) == Sync(t, files, admin)
  {
    var u := Sync(t, files, admin);
    var v := Sync(u, files, admin);
    SyncUpserts(t, files, admin);
    SyncUpserts(u, files, admin);
    NothingNew(u, files, admin);
    forall i | 0 <= i < |u.rows|
      ensures v.rows[i] == u.rows[i]
    {
      assert v.rows[i] == Updated(u.rows[i], files);
      if i < |t.rows| {
        assert u.rows[i] == Updated(t.rows[i], files);
      }
    }
    assert v.rows == u.rows;
  }

  lemma {:induction false} LastFileRunner(files: seq<File>, name: string)
    ensures LastContent(files, name).Some? && LastContent(files, name).value.runner.Some?
        ==> LastRunner(files, name) == LastContent(files, name).value.runner
    decreases |files|
  {
    if files != [] {
      LastFileRunner(files[..|files| - 1], name);
    }
  }

  /**
   * The last writer wins in every column if and only if it gives a runner or none was there: an update that
   * leaves the runner undefined keeps the one before.
   */
  lemma LastWriterWinsIff(files: seq<File>, name: string, before: Option<string>)
    requires LastContent(files, name).Some?
    ensures FinalContent(files, name, before) == LastContent(files, name)
       <==> LastContent(files, name).value.runner.Some? || RunnerAfter(files, name, before) == None
  {
    LastFileRunner(files, name);
  }

  /** Two files of one name, the second without a runner: the row ends with the first one's. */
  lemma RunnerSurvives(a: Challenge, b: Challenge, admin: string)
    requires a.name == b.name != "" && a.runner.Some? && b.runner == None
    ensures var t := Sync(Table([], 0), [Loaded(a), Loaded(b)], admin);
            && |t.rows| == 1 && t.rows[0].content == ContentOf(b).(runner := a.runner)
            && t.rows[0].content != ContentOf(b)
  {
    var files := [Loaded(a), Loaded(b)];
    assert files[..1] == [Loaded(a)] && [Loaded(a)][..0] == [];
    var t := SyncOne(Table([], 0), Loaded(a), admin);
    assert Sync(Table([], 0), files[..1], admin) == t;
    var row := Row(0, a.name, ContentOf(a), admin);
    assert t.rows == [row] && [row][..0] == [];
    FindsName(t.rows, b.name);
    assert FindName(t.rows, b.name) == 0;
  }

  /** Rows keep their ids and names for ever, so a name keeps the id it was first given. */
  lemma {:induction false} IdStable(t: Table, files: seq<File>, admin: string, name: string)
    requires FindName(t.rows, name) != -1
    ensures FindName(Sync(t, files, admin).rows, name) == FindName(t.rows, name)
    ensures IdFor(Sync(t, files, admin), name) == IdFor(t, name)
    decreases |files|
  {
    if files != [] {
      var init, f := files[..|files| - 1], files[|files| - 1];
      IdStable(t, init, admin, name);
      var u, v := Sync(t, init, admin), Sync(t, files, admin);
      FindsName(u.rows, name);
      FindsName(v.rows, name);
      assert forall k :: 0 <= k < |u.rows| ==> v.rows[k].name == u.rows[k].name && v.rows[k].id == u.rows[k].id;
    }
  }

  function ValidNames(files: seq<File>): seq<string> {
    if files == [] then []
    else
      var f := files[|files| - 1];
      ValidNames(files[..|files| - 1]) + (if IsValid(f) then [f.c.name] else [])
  }

  /** Every valid file is reported once, in order, with the id its name has in the final table. */
  lemma {:induction false} SyncedReportsFinalIds(t: Table, files: seq<File>, admin: string)
    ensures |SyncedList(t, files, admin)| == |ValidNames(files)|
    ensures forall k :: 0 <= k < |ValidNames(files)| ==>
      var s := SyncedList(t, files, admin)[k];
      && s.name == ValidNames(files)[k]
      && FindName(Sync(t, files, admin).rows, s.name) != -1
      && s.id == IdFor(Sync(t, files, admin), s.name)
    decreases |files|
  {
    if files != [] {
      var init, f := files[..|files| - 1], files[|files| - 1];
      var u, v := Sync(t, init, admin), Sync(t, files, admin);
      SyncedReportsFinalIds(t, init, admin);
      assert v == SyncOne(u, f, admin) == Sync(u, [f], admin) by {
        assert [f][..0] == [];
      }
      forall k | 0 <= k < |ValidNames(init)|
        ensures FindName(v.rows, ValidNames(init)[k]) != -1
        ensures IdFor(v, ValidNames(init)[k]) == IdFor(u, ValidNames(init)[k])
      {
        IdStable(u, [f], admin, ValidNames(init)[k]);
      }
      if IsValid(f) {
        FindsName(u.rows, f.c.name);
        FindsName(v.rows, f.c.name);
        var i := FindName(u.rows, f.c.name);
        assert v.rows[if i == -1 then |u.rows| else i].name == f.c.name;
      }
    }
  }

  /** A second run reports the same ids for the same names. */
  lemma SyncedStable(t: Table, files: seq<File>, admin: string)
    requires UniqueNames(t.rows)
    ensures SyncedList(Sync(t, files, admin), files, admin) == SyncedList(t, files, admin)
  {
    SyncIdempotent(t, files, admin);
    SyncedReportsFinalIds(t, files, admin);
    SyncedReportsFinalIds(Sync(t, files, admin), files, admin);
  }

  ghost predicate UniqueTitles(rows: seq<Exam>) {
    forall i, j :: 0 <= i < j < |rows| ==> rows[i].title != rows[j].title
  }

  /** The exam apart from its publication time. */
  function Undated(e: Exam): Exam {
    e.(publishedAt := 0)
  }

  ghost predicate SameButDates(a: Exams, b: Exams) {
    a.next == b.next && |a.rows| == |b.rows|
    && forall i :: 0 <= i < |a.rows| ==> Undated(a.rows[i]) == Undated(b.rows[i])
  }

  predicate Configured(e: Exam, s: Settings) {
    e.settings == s && e.passThreshold == PassThreshold && e.isPublished
  }

  /** The challenge has its exam, and the exam has the wanted settings. */
  ghost predicate Ready(x: Exams, rows: seq<Row>, id: nat, title: string, s: Settings) {
    var c := FindId(rows, id);
    c != -1 ==>
      var i := FindTitle(x.rows, ExamTitle(title, rows[c].name));
      i != -1 && Configured(x.rows[i], s)
  }

  lemma ExamOneReady(x: Exams, rows: seq<Row>, id: nat, title: string, s: Settings, now: int, admin: string)
    ensures Ready(ExamOne(x, rows, id, title, s, now, admin), rows, id, title, s)
    ensures UniqueTitles(x.rows) ==> UniqueTitles(ExamOne(x, rows, id, title, s, now, admin).rows)
  {
    var c, y := FindId(rows, id), ExamOne(x, rows, id, title, s, now, admin);
    if c != -1 {
      var t := ExamTitle(title, rows[c].name);
      FindsTitle(x.rows, t);
      FindsTitle(y.rows, t);
      var i := FindTitle(x.rows, t);
      assert y.rows[if i == -1 then |x.rows| else i].title == t;
    }
  }

  lemma ExamOneKeepsReady(x: Exams, rows: seq<Row>, id: nat, other: nat, title: string, s: Settings,
                          now: int, admin: string)
    requires Ready(x, rows, other, title, s)
    ensures Ready(ExamOne(x, rows, id, title, s, now, admin), rows, other, title, s)
  {
    var c, y := FindId(rows, other), ExamOne(x, rows, id, title, s, now, admin);
    if c != -1 {
      var t := ExamTitle(title, rows[c].name);
      FindsTitle(x.rows, t);
      FindsTitle(y.rows, t);
      assert forall k :: 0 <= k < |x.rows| ==> y.rows[k].title == x.rows[k].title;
      assert FindTitle(y.rows, t) == FindTitle(x.rows, t);
    }
  }

  /** The first n challenges asked for have their exams. */
  ghost predicate ReadyUpTo(x: Exams, rows: seq<Row>, ids: seq<nat>, n: nat, title: string, s: Settings)
    requires n <= |ids|
  {
    forall k :: 0 <= k < n ==> Ready(x, rows, ids[k], title, s)
  }

  lemma OneMoreReady(x: Exams, rows: seq<Row>, ids: seq<nat>, n: nat, title: string, s: Settings, now: int,
                     admin: string)
    requires n < |ids| && ReadyUpTo(x, rows, ids, n, title, s)
    ensures ReadyUpTo(ExamOne(x, rows, ids[n], title, s, now, admin), rows, ids, n + 1, title, s)
  {
    var y := ExamOne(x, rows, ids[n], title, s, now, admin);
    ExamOneReady(x, rows, ids[n], title, s, now, admin);
    forall k | 0 <= k < n
      ensures Ready(y, rows, ids[k], title, s)
    {
      ExamOneKeepsReady(x, rows, ids[n], ids[k], title, s, now, admin);
    }
  }

  lemma ReadyPrefix(x: Exams, rows: seq<Row>, ids: seq<nat>, n: nat, title: string, s: Settings)
    requires n <= |ids| && ReadyUpTo(x, rows, ids[..n], n, title, s)
    ensures ReadyUpTo(x, rows, ids, n, title, s)
  {
    assert forall k :: 0 <= k < n ==> ids[..n][k] == ids[k];
  }

  /** After a run every challenge asked for has exactly one exam of its title, configured as wanted. */
  lemma {:induction false} ExamsReady(x: Exams, rows: seq<Row>, ids: seq<nat>, title: string, s: Settings,
                                      clock: nat -> int, admin: string)
    ensures ReadyUpTo(CreateExams(x, rows, ids, title, s, clock, admin), rows, ids, |ids|, title, s)
    ensures UniqueTitles(x.rows) ==> UniqueTitles(CreateExams(x, rows, ids, title, s, clock, admin).rows)
    decreases |ids|
  {
    if ids != [] {
      var n := |ids| - 1;
      var y := CreateExams(x, rows, ids[..n], title, s, clock, admin);
      ExamsReady(x, rows, ids[..n], title, s, clock, admin);
      ReadyPrefix(y, rows, ids, n, title, s);
      OneMoreReady(y, rows, ids, n, title, s, clock(n), admin);
      ExamOneReady(y, rows, ids[n], title, s, clock(n), admin);
    }
  }

  lemma ExamOneAgain(x: Exams, rows: seq<Row>, id: nat, title: string, s: Settings, now: int, admin: string)
    requires Ready(x, rows, id, title, s)
    ensures SameButDates(ExamOne(x, rows, id, title, s, now, admin), x)
  {
  }

  lemma {:induction false} ExamsAgain(x: Exams, rows: seq<Row>, ids: seq<nat>, title: string, s: Settings,
                                      clock: nat -> int, admin: string)
    requires forall k :: 0 <= k < |ids| ==> Ready(x, rows, ids[k], title, s)
    ensures SameButDates(CreateExams(x, rows, ids, title, s, clock, admin), x)
    ensures forall id: nat :: Ready(x, rows, id, title, s)
                          ==> Ready(CreateExams(x, rows, ids, title, s, clock, admin), rows, id, title, s)
    decreases |ids|
  {
    if ids != [] {
      var n := |ids| - 1;
      var y := CreateExams(x, rows, ids[..n], title, s, clock, admin);
      assert forall k :: 0 <= k < n ==> ids[..n][k] == ids[k];
      ExamsAgain(x, rows, ids[..n], title, s, clock, admin);
      ExamOneAgain(y, rows, ids[n], title, s, clock(n), admin);
      forall id: nat | Ready(x, rows, id, title, s)
        ensures Ready(ExamOne(y, rows, ids[n], title, s, clock(n), admin), rows, id, title, s)
      {
        ExamOneKeepsReady(y, rows, ids[n], id, title, s, clock(n), admin);
      }
    }
  }

  /** A second run of the exam loop changes nothing but publication times. */
  lemma ExamsIdempotent(x: Exams, rows: seq<Row>, ids: seq<nat>, title: string, s: Settings,
                        clock: nat -> int, later: nat -> int, admin: string)
    ensures var y := CreateExams(x, rows, ids, title, s, clock, admin);
            SameButDates(CreateExams(y, rows, ids, title, s, later, admin), y)
  {
    ExamsReady(x, rows, ids, title, s, clock, admin);
    ExamsAgain(CreateExams(x, rows, ids, title, s, clock, admin), rows, ids, title, s, later, admin);
  }

  predicate Wanted(rows: seq<Row>, ids: seq<nat>, title: string, t: string) {
    exists k :: 0 <= k < |ids| && FindId(rows, ids[k]) != -1 && ExamTitle(title, rows[FindId(rows, ids[k])].name) == t
  }

  lemma WantedEarlier(rows: seq<Row>, ids: seq<nat>, n: nat, title: string, t: string)
    requires n <= |ids|
    ensures Wanted(rows, ids[..n], title, t) ==> Wanted(rows, ids, title, t)
  {
    assert forall k :: 0 <= k < n ==> ids[..n][k] == ids[k];
  }

  /** Existing exams keep their place, id, title, challenge and flags; those of other titles are untouched. */
  lemma {:induction false} ExamsFrame(x: Exams, rows: seq<Row>, ids: seq<nat>, title: string, s: Settings,
                                      clock: nat -> int, admin: string)
    ensures var y := CreateExams(x, rows, ids, title, s, clock, admin);
            && |x.rows| <= |y.rows|
            && forall i :: 0 <= i < |x.rows| ==>
                 && y.rows[i].title == x.rows[i].title
                 && Publish(y.rows[i], s, 0) == Publish(x.rows[i], s, 0)
                 && (!Wanted(rows, ids, title, x.rows[i].title) ==> y.rows[i] == x.rows[i])
    decreases |ids|
  {
    if ids != [] {
      var n := |ids| - 1;
      var y := CreateExams(x, rows, ids[..n], title, s, clock, admin);
      ExamsFrame(x, rows, ids[..n], title, s, clock, admin);
      forall i | 0 <= i < |x.rows| && !Wanted(rows, ids, title, x.rows[i].title)
        ensures ExamOne(y, rows, ids[n], title, s, clock(n), admin).rows[i] == x.rows[i]
      {
        WantedEarlier(rows, ids, n, title, x.rows[i].title);
        var c := FindId(rows, ids[n]);
        if c != -1 {
          FindsTitle(y.rows, ExamTitle(title, rows[c].name));
        }
      }
    }
  }
}
