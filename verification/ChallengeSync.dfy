/** Synchronising challenge files with the challenges table, and creating one exam per challenge. */
module ChallengeSync {
  import opened Wrappers
  import opened Decimal

  /** A loaded challenge; json values are kept as text, and an empty or missing text is falsy. */
  datatype Challenge = Challenge(name: string, description: string, starterFiles: string, publicTests: string,
                                 hiddenTests: string, dependencies: Option<string>,
                                 nodeVersion: Option<string>, runner: Option<string>)

  /** What a challenge directory yields: nothing, a module that throws, one without a challenge, or a challenge. */
  datatype File = Missing | Throws | NoChallenge | Loaded(c: Challenge)

  /** The columns the sync writes. */
  datatype Content = Content(description: string, starterFiles: string, publicTests: string, hiddenTests: string,
                             dependencies: string, nodeVersion: string, runner: Option<string>)

  datatype Row = Row(id: nat, name: string, content: Content, createdBy: string)

  function OrText(o: Option<string>, default: string): string {
    if o.Some? && o.value != "" then o.value else default
  }

  function ContentOf(c: Challenge): Content {
    Content(c.description, c.starterFiles, c.publicTests, c.hiddenTests,
            if c.dependencies.Some? then c.dependencies.value else "{}", OrText(c.nodeVersion, "20"), c.runner)
  }

  /** The update leaves out a column that is undefined, so a challenge without a runner keeps the row's. */
  function ContentOver(c: Challenge, runner: Option<string>): Content {
    ContentOf(c).(runner := if c.runner.Some? then c.runner else runner)
  }

  predicate IsValid(f: File) {
    f.Loaded? && f.c.name != ""
  }

  /** The table and the source of fresh row ids. */
  datatype Table = Table(rows: seq<Row>, next: nat)

  /** `findFirst` by name. */
  function FindName(rows: seq<Row>, name: string): (i: int)
    ensures -1 <= i < |rows|
  {
    if rows == [] then -1
    else
      var i := FindName(rows[..|rows| - 1], name);
      if i != -1 then i else if rows[|rows| - 1].name == name then |rows| - 1 else -1
  }

  lemma {:induction false} FindsName(rows: seq<Row>, name: string)
    ensures FindName(rows, name) == -1 <==> forall k :: 0 <= k < |rows| ==> rows[k].name != name
    ensures FindName(rows, name) != -1 ==> rows[FindName(rows, name)].name == name
    ensures forall k :: 0 <= k < FindName(rows, name) ==> rows[k].name != name
    decreases |rows|
  {
    if rows != [] {
      FindsName(rows[..|rows| - 1], name);
    }
  }

  function SyncOne(t: Table, f: File, admin: string): Table {
    if !IsValid(f) then t
    else
      var i := FindName(t.rows, f.c.name);
      if i == -1 then Table(t.rows + [Row(t.next, f.c.name, ContentOf(f.c), admin)], t.next + 1)
      else t.(rows := t.rows[i := t.rows[i].(content := ContentOver(f.c, t.rows[i].content.runner))])
  }

  function Sync(t: Table, files: seq<File>, admin: string): Table {
    if files == [] then t else SyncOne(Sync(t, files[..|files| - 1], admin), files[|files| - 1], admin)
  }

  /** The id reported for a file: the existing row's, or the one just created. */
  function IdFor(t: Table, name: string): nat {
    var i := FindName(t.rows, name);
    if i == -1 then t.next else t.rows[i].id
  }

  datatype Synced = Synced(id: nat, name: string)

  function SyncedList(t: Table, files: seq<File>, admin: string): seq<Synced> {
    if files == [] then []
    else
      var init, f := files[..|files| - 1], files[|files| - 1];
      SyncedList(t, init, admin)
      + (if IsValid(f) then [Synced(IdFor(Sync(t, init, admin), f.c.name), f.c.name)] else [])
  }

  /** The ids of the reported challenges, in order. */
  function SyncedIds(t: Table, files: seq<File>, admin: string): seq<nat> {
    var synced := SyncedList(t, files, admin);
    seq(|synced|, k requires 0 <= k < |synced| => synced[k].id)
  }

  datatype Settings = Settings(timeLimit: nat, maxAttempts: nat)

  datatype Exam = Exam(id: nat, title: string, description: string, challengeId: nat, settings: Settings,
                       passThreshold: real, fullscreenRequired: bool, tabSwitchLogging: bool, pasteDisabled: bool,
                       isPublished: bool, publishedAt: int, createdBy: string)

  datatype Exams = Exams(rows: seq<Exam>, next: nat)

  function FindTitle(rows: seq<Exam>, title: string): (i: int)
    ensures -1 <= i < |rows|
  {
    if rows == [] then -1
    else
      var i := FindTitle(rows[..|rows| - 1], title);
      if i != -1 then i else if rows[|rows| - 1].title == title then |rows| - 1 else -1
  }

  lemma {:induction false} FindsTitle(rows: seq<Exam>, title: string)
    ensures FindTitle(rows, title) == -1 <==> forall k :: 0 <= k < |rows| ==> rows[k].title != title
    ensures FindTitle(rows, title) != -1 ==> rows[FindTitle(rows, title)].title == title
    ensures forall k :: 0 <= k < FindTitle(rows, title) ==> rows[k].title != title
    decreases |rows|
  {
    if rows != [] {
      FindsTitle(rows[..|rows| - 1], title);
    }
  }

  function FindId(rows: seq<Row>, id: nat): (i: int)
    ensures -1 <= i < |rows|
  {
    if rows == [] then -1
    else
      var i := FindId(rows[..|rows| - 1], id);
      if i != -1 then i else if rows[|rows| - 1].id == id then |rows| - 1 else -1
  }

  const PassThreshold := 0.6

  function ExamTitle(title: string, name: string): string {
    title + ": " + name
  }

  function Publish(e: Exam, s: Settings, now: int): Exam {
    e.(settings := s, passThreshold := PassThreshold, isPublished := true, publishedAt := now)
  }

  /** Written on insert only. */
  function ExamDescription(name: string, s: Settings): string {
    "Coding assessment for " + name + ". You have " + Dec(s.timeLimit) + " minutes and " + Dec(s.maxAttempts)
    + " attempts."
  }

  function NewExam(id: nat, title: string, name: string, challengeId: nat, s: Settings, now: int, admin: string): Exam {
    Exam(id, title, ExamDescription(name, s), challengeId, s, PassThreshold, true, true, false, true, now, admin)
  }

  /** One pass of the exam loop; a challenge id without a row is skipped. */
  function ExamOne(x: Exams, rows: seq<Row>, id: nat, title: string, s: Settings, now: int, admin: string): Exams {
    var c := FindId(rows, id);
    if c == -1 then x
    else
      var examTitle := ExamTitle(title, rows[c].name);
      var i := FindTitle(x.rows, examTitle);
      if i == -1 then Exams(x.rows + [NewExam(x.next, examTitle, rows[c].name, id, s, now, admin)], x.next + 1)
      else x.(rows := x.rows[i := Publish(x.rows[i], s, now)])
  }

  /** `clock(k)` is the time of the k-th pass. */
  function CreateExams(x: Exams, rows: seq<Row>, ids: seq<nat>, title: string, s: Settings,
                       clock: nat -> int, admin: string): Exams {
    if ids == [] then x
    else
      var k := |ids| - 1;
      ExamOne(CreateExams(x, rows, ids[..k], title, s, clock, admin), rows, ids[k], title, s, clock(k), admin)
  }

  /** The two tables. */
  class Database {
    var challenges: Table
    var exams: Exams

    method SyncAllChallenges(files: seq<File>, admin: string) returns (synced: seq<Synced>)
      modifies `challenges
      ensures challenges == Sync(old(challenges), files, admin)
      ensures synced == SyncedList(old(challenges), files, admin)
    {
      synced := [];
      var k := 0;
      while k < |files|
        invariant 0 <= k <= |files|
        invariant challenges == Sync(old(challenges), files[..k], admin)
        invariant synced == SyncedList(old(challenges), files[..k], admin)
      {
        assert files[..k + 1][..k] == files[..k];
        var f := files[k];
        k := k + 1;
        if !IsValid(f) {
          continue;
        }
        var existing := FindName(challenges.rows, f.c.name);
        if existing != -1 {
          var row := challenges.rows[existing];
          var content := ContentOver(f.c, row.content.runner);
          challenges := challenges.(rows := challenges.rows[existing := row.(content := content)]);
          synced := synced + [Synced(row.id, f.c.name)];
        } else {
          var created := Row(challenges.next, f.c.name, ContentOf(f.c), admin);
          challenges := Table(challenges.rows + [created], challenges.next + 1);
          synced := synced + [Synced(created.id, f.c.name)];
        }
      }
      assert files[..k] == files;
    }

    method CreateMultiChallengeExam(admin: string, ids: seq<nat>, title: string, s: Settings, clock: nat -> int)
      modifies `exams
      ensures exams == CreateExams(old(exams), challenges.rows, ids, title, s, clock, admin)
    {
      if |ids| == 0 {
        return;
      }
      var k := 0;
      while k < |ids|
        invariant 0 <= k <= |ids|
        invariant exams == CreateExams(old(exams), challenges.rows, ids[..k], title, s, clock, admin)
      {
        assert ids[..k + 1][..k] == ids[..k];
        var c, now := FindId(challenges.rows, ids[k]), clock(k);
        var id := ids[k];
        k := k + 1;
        if c == -1 {
          continue;
        }
        var examTitle := ExamTitle(title, challenges.rows[c].name);
        var existing := FindTitle(exams.rows, examTitle);
        if existing != -1 {
          exams := exams.(rows := exams.rows[existing := Publish(exams.rows[existing], s, now)]);
        } else {
          var created := NewExam(exams.next, examTitle, challenges.rows[c].name, id, s, now, admin);
          exams := Exams(exams.rows + [created], exams.next + 1);
        }
      }
      assert ids[..k] == ids;
    }

    /** Synchronises all challenges, then makes an exam for each one reported. */
    method SyncAndExamine(files: seq<File>, admin: string, title: string, s: Settings, clock: nat -> int)
      modifies `challenges, `exams
      ensures challenges == Sync(old(challenges), files, admin)
      ensures exams == CreateExams(old(exams), Sync(old(challenges), files, admin).rows,
                                   SyncedIds(old(challenges), files, admin), title, s, clock, admin)
    {
      var synced := SyncAllChallenges(files, admin);
      CreateMultiChallengeExam(admin, seq(|synced|, k requires 0 <= k < |synced| => synced[k].id), title, s, clock);
    }
  }
}
