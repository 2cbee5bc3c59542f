/** The sync column by column: what each file leaves in the table, on the files' and rows' own fields. */
module SyncByField {
  import opened Wrappers
  import opened Seqs
  import opened ChallengeSync
  import opened SyncTheorems

  /** File k is the last valid one of its name. */
  lemma {:induction false} LastContentIs(files: seq<File>, k: nat)
    requires k < |files| && files[k].Loaded? && files[k].c.name != ""
    requires forall j :: k < j < |files| && files[j].Loaded? ==> files[j].c.name != files[k].c.name
    ensures LastContent(files, files[k].c.name) == Some(ContentOf(files[k].c))
    decreases |files|
  {
    if k < |files| - 1 {
      LastContentIs(files[..|files| - 1], k);
    }
  }

  /** File k is the last valid one of its name that has a runner. */
  lemma {:induction false} LastRunnerIs(files: seq<File>, k: nat)
    requires k < |files| && files[k].Loaded? && files[k].c.name != "" && files[k].c.runner.Some?
    requires forall j :: k < j < |files| && files[j].Loaded? && files[j].c.name == files[k].c.name
               ==> files[j].c.runner == None
    ensures LastRunner(files, files[k].c.name) == files[k].c.runner
    decreases |files|
  {
    if k < |files| - 1 {
      LastRunnerIs(files[..|files| - 1], k);
    }
  }

  lemma {:induction false} NoRunner(files: seq<File>, name: string)
    requires forall j :: 0 <= j < |files| && files[j].Loaded? && files[j].c.name == name != ""
               ==> files[j].c.runner == None
    ensures LastRunner(files, name) == None
    decreases |files|
  {
    if files != [] {
      NoRunner(files[..|files| - 1], name);
    }
  }

  /** A name has a content exactly if some loaded file carries it; the empty name has none. */
  lemma {:induction false} HasContentIff(files: seq<File>, name: string)
    ensures LastContent(files, name).Some?
       <==> name != "" && exists k :: 0 <= k < |files| && files[k].Loaded? && files[k].c.name == name
    decreases |files|
  {
    if files != [] {
      HasContentIff(files[..|files| - 1], name);
    }
  }

  lemma {:induction false} RowContent(t: Table, files: seq<File>, admin: string, i: nat)
    requires UniqueNames(t.rows) && i < |Sync(t, files, admin).rows|
    ensures var r := Sync(t, files, admin).rows[i];
            var before := if i < |t.rows| then t.rows[i].content.runner else None;
            LastContent(files, r.name).Some? ==> FinalContent(files, r.name, before) == Some(r.content)
  {
    SyncUpserts(t, files, admin);
    if i >= |t.rows| {
      assert IsNewRow(Sync(t, files, admin).rows[i], t.next + i - |t.rows|, files, admin);
    }
  }

  /** In the row of its name, the last valid file of that name has written every column but the runner. */
  lemma {:induction false} ColumnsByField(t: Table, files: seq<File>, admin: string, k: nat)
    requires forall i, j :: 0 <= i < j < |t.rows| ==> t.rows[i].name != t.rows[j].name
    requires k < |files| && files[k].Loaded? && files[k].c.name != ""
    requires forall j :: k < j < |files| && files[j].Loaded? ==> files[j].c.name != files[k].c.name
    ensures var rows, c := Sync(t, files, admin).rows, files[k].c;
            exists i :: 0 <= i < |rows| && rows[i].name == c.name
              && rows[i].content.description == c.description
              && rows[i].content.starterFiles == c.starterFiles
              && rows[i].content.publicTests == c.publicTests
              && rows[i].content.hiddenTests == c.hiddenTests
              && rows[i].content.dependencies == (if c.dependencies.Some? then c.dependencies.value else "{}")
              && rows[i].content.nodeVersion
                 == (if c.nodeVersion.Some? && c.nodeVersion.value != "" then c.nodeVersion.value else "20")
  {
    SyncUpserts(t, files, admin);
    LastContentIs(files, k);
    var rows := Sync(t, files, admin).rows;
    var i := FindName(rows, files[k].c.name);
    FindsName(rows, files[k].c.name);
    RowContent(t, files, admin, i);
  }

  /**
   * Its runner is that of the last valid file of the name that gives one, at k; if none does, k being -1, it is
   * the row's old one, and a new row has none.
   */
  lemma {:induction false} RunnerByField(t: Table, files: seq<File>, admin: string, i: nat, k: int)
    requires forall a, b :: 0 <= a < b < |t.rows| ==> t.rows[a].name != t.rows[b].name
    requires i < |Sync(t, files, admin).rows| && -1 <= k < |files|
    requires var name := Sync(t, files, admin).rows[i].name;
             && (k != -1 ==> files[k].Loaded? && files[k].c.name == name != "" && files[k].c.runner.Some?)
             && forall j :: k < j < |files| && files[j].Loaded? && files[j].c.name == name != ""
                  ==> files[j].c.runner == None
    ensures Sync(t, files, admin).rows[i].content.runner
         == if k != -1 then files[k].c.runner else if i < |t.rows| then t.rows[i].content.runner else None
  {
    var r := Sync(t, files, admin).rows[i];
    SyncUpserts(t, files, admin);
    RowContent(t, files, admin, i);
    RunnerNeedsContent(files, r.name);
    if k != -1 {
      LastRunnerIs(files, k);
    } else {
      NoRunner(files, r.name);
    }
    if i < |t.rows| {
      assert r == Updated(t.rows[i], files);
    } else {
      assert IsNewRow(r, t.next + i - |t.rows|, files, admin);
    }
  }

  /**
   * Old rows stay in place with their id, name and creator, unchanged if no valid file carries their name; the
   * others follow under the next free ids, created by the admin, each for a name that some valid file carries.
   */
  lemma {:induction false} RowsByField(t: Table, files: seq<File>, admin: string, i: nat)
    requires forall a, b :: 0 <= a < b < |t.rows| ==> t.rows[a].name != t.rows[b].name
    requires i < |Sync(t, files, admin).rows|
    ensures var u := Sync(t, files, admin);
            && |u.rows| >= |t.rows| && u.next == t.next + (|u.rows| - |t.rows|)
            && var carried := u.rows[i].name != ""
                 && exists k :: 0 <= k < |files| && files[k].Loaded? && files[k].c.name == u.rows[i].name;
               if i < |t.rows| then
                 && u.rows[i].id == t.rows[i].id && u.rows[i].name == t.rows[i].name
                 && u.rows[i].createdBy == t.rows[i].createdBy
                 && (!carried ==> u.rows[i] == t.rows[i])
               else
                 u.rows[i].id == t.next + (i - |t.rows|) && u.rows[i].createdBy == admin && carried
  {
    var r := Sync(t, files, admin).rows[i];
    SyncUpserts(t, files, admin);
    HasContentIff(files, r.name);
    if i < |t.rows| {
      assert r == Updated(t.rows[i], files);
    } else {
      assert IsNewRow(r, t.next + i - |t.rows|, files, admin);
    }
  }

  function NameOf(f: File): string {
    if f.Loaded? then f.c.name else ""
  }

  lemma {:induction false} ValidNamesInOrder(files: seq<File>)
    ensures ValidNames(files) == Map(Filter(files, IsValid), NameOf)
    decreases |files|
  {
    if files != [] {
      var init, f := files[..|files| - 1], files[|files| - 1];
      ValidNamesInOrder(init);
      var kept := Filter(init, IsValid);
      if IsValid(f) {
        assert Map(kept + [f], NameOf) == Map(kept, NameOf) + [f.c.name];
      } else {
        assert kept + [] == kept && ValidNames(init) + [] == ValidNames(init);
      }
    }
  }

  /** File k, if it is valid, is reported after the valid ones before it, with the id of the row of its name. */
  lemma {:induction false} ReportedByField(t: Table, files: seq<File>, admin: string, k: nat, earlier: set<nat>)
    requires k < |files| && files[k].Loaded? && files[k].c.name != ""
    requires forall j: nat :: j in earlier <==> j < k && files[j].Loaded? && files[j].c.name != ""
    ensures var synced, rows := SyncedList(t, files, admin), Sync(t, files, admin).rows;
            && |earlier| < |synced| && synced[|earlier|].name == files[k].c.name
            && exists i :: 0 <= i < |rows| && rows[i].name == files[k].c.name && rows[i].id == synced[|earlier|].id
  {
    SyncedReportsFinalIds(t, files, admin);
    ValidNamesInOrder(files);
    FilterRank(files, IsValid, k, earlier);
    var rows, name := Sync(t, files, admin).rows, files[k].c.name;
    assert ValidNames(files)[|earlier|] == name;
    FindsName(rows, name);
    var i := FindName(rows, name);
    assert SyncedList(t, files, admin)[|earlier|].id == IdFor(Sync(t, files, admin), name) == rows[i].id;
    assert rows[i].name == name;
  }

  /** Nothing else is reported. */
  lemma {:induction false} ReportedCount(t: Table, files: seq<File>, admin: string, valid: set<nat>)
    requires forall j: nat :: j in valid <==> j < |files| && files[j].Loaded? && files[j].c.name != ""
    ensures |SyncedList(t, files, admin)| == |valid|
  {
    SyncedReportsFinalIds(t, files, admin);
    ValidNamesInOrder(files);
    FilterSize(files, IsValid, valid);
  }
}
