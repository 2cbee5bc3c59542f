/** When updates that carry an id make records of the expense store unreachable. */
module ExpenseIds {
  import opened Wrappers
  import opened Seqs
  import opened ExpenseStore
  import opened ExpenseTheorems

  /** Every record is the one its id finds. */
  ghost predicate AllFound(rows: seq<Data>) {
    forall k :: 0 <= k < |rows| ==> FindIndex(rows, rows[k].id) == k
  }

  /** No record hides another exactly when the ids are distinct. */
  lemma AllFoundIff(rows: seq<Data>)
    ensures AllFound(rows) <==> Distinct(Ids(rows))
  {
    assert forall k :: 0 <= k < |rows| ==> Ids(rows)[k] == rows[k].id;
    forall k | 0 <= k < |rows|
      ensures Distinct(Ids(rows)) ==> FindIndex(rows, rows[k].id) == k
    {
      FindsFirst(rows, rows[k].id);
    }
  }

  /** The ids after an update that found a record. */
  lemma UpdatedIds(s: Store, id: string, u: Updates)
    requires FindIndex(s.rows, id) != -1
    ensures Ids(s.rows)[FindIndex(s.rows, id)] == id
    ensures Ids(Step(s, Update(id, u)).rows) == Ids(s.rows)[FindIndex(s.rows, id) := Or(u.id, id)]
  {
    FindsFirst(s.rows, id);
  }

  /** Replacing one of distinct values keeps them distinct exactly when the new value is the old or not there. */
  lemma ReplaceDistinctIff(ids: seq<string>, i: nat, x: string)
    requires i < |ids| && Distinct(ids)
    ensures Distinct(ids[i := x]) <==> x == ids[i] || x !in ids
  {
    var t := ids[i := x];
    if x != ids[i] && x in ids {
      var k :| 0 <= k < |ids| && ids[k] == x;
      assert t[k] == t[i] && k != i;
    }
  }

  /**
   * From distinct ids, an update leaves every record reachable if and only if it finds nothing, carries no
   * id or the record's own, or carries an id no record has.
   */
  lemma UpdateHidesIff(s: Store, id: string, u: Updates)
    requires AllFound(s.rows)
    ensures AllFound(Step(s, Update(id, u)).rows)
       <==> FindIndex(s.rows, id) == -1 || u.id == None || u.id == Some(id) || u.id.value !in Ids(s.rows)
  {
    AllFoundIff(s.rows);
    AllFoundIff(Step(s, Update(id, u)).rows);
    if FindIndex(s.rows, id) != -1 {
      UpdatedIds(s, id, u);
      ReplaceDistinctIff(Ids(s.rows), FindIndex(s.rows, id), Or(u.id, id));
    }
  }

  /** The counter will hand the id out later. */
  ghost predicate Future(s: Store, x: string) {
    exists n: nat :: n > s.counter && x == ExpenseId(n)
  }

  /** The ids are distinct, and none of them is still to be handed out. */
  ghost predicate Healthy(s: Store) {
    Distinct(Ids(s.rows)) && forall x | x in Ids(s.rows) :: !Future(s, x)
  }

  /** An update that changes an id takes one that no record has and the counter will not reach. */
  ghost predicate SafeOp(s: Store, op: Op) {
    op.Update? && FindIndex(s.rows, op.id) != -1 && op.u.id.Some? && op.u.id.value != op.id ==>
      op.u.id.value !in Ids(s.rows) && !Future(s, op.u.id.value)
  }

  lemma CreateHealthy(s: Store, f: Fields, now: string)
    requires Healthy(s)
    ensures Healthy(Step(s, Create(f, now)))
  {
    var t, x := Step(s, Create(f, now)), ExpenseId(s.counter + 1);
    IdsAppend(s.rows, Created(f, s.counter + 1, now));
    assert Future(s, x) && Ids(t.rows) == Ids(s.rows) + [x];
    forall y | y in Ids(t.rows)
      ensures !Future(t, y)
    {
      if y in Ids(s.rows) {
        assert Future(t, y) ==> Future(s, y);
      }
      forall n: nat | n > t.counter ensures x != ExpenseId(n) {
        IdInjective(s.counter + 1, n);
      }
    }
  }

  lemma DeleteHealthy(s: Store, id: string)
    requires Healthy(s)
    ensures Healthy(Step(s, Delete(id)))
  {
    var i, t := FindIndex(s.rows, id), Step(s, Delete(id));
    if i != -1 {
      IdsRemove(s.rows, i);
      var ids := Ids(s.rows);
      assert Ids(t.rows) == ids[..i] + ids[i + 1..];
      assert forall x | x in Ids(t.rows) :: x in ids;
      assert forall x :: Future(t, x) <==> Future(s, x);
    }
  }

  lemma UpdateHealthyIff(s: Store, id: string, u: Updates)
    requires Healthy(s)
    ensures Healthy(Step(s, Update(id, u))) <==> SafeOp(s, Update(id, u))
  {
    var i, t := FindIndex(s.rows, id), Step(s, Update(id, u));
    if i != -1 {
      UpdatedIds(s, id, u);
      var ids, x := Ids(s.rows), Or(u.id, id);
      ReplaceDistinctIff(ids, i, x);
      assert Ids(t.rows)[i] == x && ids[i] == id && id in ids;
      assert forall y :: Future(t, y) <==> Future(s, y);
      forall y | y in Ids(t.rows)
        ensures y == x || y in ids
      {
        var k :| 0 <= k < |ids| && Ids(t.rows)[k] == y;
      }
    }
  }

  /** A healthy store stays healthy exactly under safe operations; only id-changing updates can be unsafe. */
  lemma StepHealthyIff(s: Store, op: Op)
    requires Healthy(s)
    ensures Healthy(Step(s, op)) <==> SafeOp(s, op)
  {
    match op
    case Create(f, now) => CreateHealthy(s, f, now);
    case Update(id, u) => UpdateHealthyIff(s, id, u);
    case Delete(id) => DeleteHealthy(s, id);
    case Clear =>
  }

  ghost predicate SafeRun(ops: seq<Op>) {
    ops == [] || (SafeRun(ops[..|ops| - 1]) && SafeOp(Play(Store([], 0), ops[..|ops| - 1]), ops[|ops| - 1]))
  }

  ghost predicate AlwaysHealthy(ops: seq<Op>) {
    Healthy(Play(Store([], 0), ops)) && (ops != [] ==> AlwaysHealthy(ops[..|ops| - 1]))
  }

  /** Over a whole run: the store was healthy all along if and only if every operation was safe when it came. */
  lemma {:induction false} RunHealthyIff(ops: seq<Op>)
    ensures AlwaysHealthy(ops) <==> SafeRun(ops)
    decreases |ops|
  {
    if ops != [] {
      var init := ops[..|ops| - 1];
      RunHealthyIff(init);
      if AlwaysHealthy(init) {
        AlwaysIsNow(init);
        StepHealthyIff(Play(Store([], 0), init), ops[|ops| - 1]);
      }
    }
  }

  lemma AlwaysIsNow(ops: seq<Op>)
    requires AlwaysHealthy(ops)
    ensures Healthy(Play(Store([], 0), ops))
  {
  }

  /** Creating k more records. */
  function Creates(s: Store, f: Fields, now: string, k: nat): Store {
    if k == 0 then s else Step(Creates(s, f, now, k - 1), Create(f, now))
  }

  lemma {:induction false} CreatesRows(s: Store, f: Fields, now: string, k: nat)
    ensures Creates(s, f, now, k).counter == s.counter + k
    ensures |Creates(s, f, now, k).rows| == |s.rows| + k
    ensures forall i :: 0 <= i < |s.rows| ==> Creates(s, f, now, k).rows[i] == s.rows[i]
    ensures k > 0 ==> Creates(s, f, now, k).rows[|s.rows| + k - 1].id == ExpenseId(s.counter + k)
    decreases k
  {
    if k > 0 {
      CreatesRows(s, f, now, k - 1);
    }
  }

  lemma {:induction false} CreatesHealthy(s: Store, f: Fields, now: string, k: nat)
    requires Healthy(s)
    ensures Healthy(Creates(s, f, now, k))
    decreases k
  {
    if k > 0 {
      CreatesHealthy(s, f, now, k - 1);
      CreateHealthy(Creates(s, f, now, k - 1), f, now);
    }
  }

  /** Every record is found by its id after k more have been created. */
  ghost predicate FoundAfter(s: Store, f: Fields, now: string, k: nat) {
    AllFound(Creates(s, f, now, k).rows)
  }

  /** Being healthy is what it takes for every record to stay reachable however many more are created. */
  lemma HealthyIff(s: Store, f: Fields, now: string)
    ensures Healthy(s) <==> forall k: nat :: FoundAfter(s, f, now, k)
  {
    if Healthy(s) {
      forall k: nat
        ensures FoundAfter(s, f, now, k)
      {
        CreatesHealthy(s, f, now, k);
        AllFoundIff(Creates(s, f, now, k).rows);
      }
    } else if Distinct(Ids(s.rows)) {
      FutureCollides(s, f, now);
    } else {
      AllFoundIff(s.rows);
      var none: nat := 0;
      assert Creates(s, f, now, none) == s;
      assert !FoundAfter(s, f, now, none);
    }
  }

  lemma FutureCollides(s: Store, f: Fields, now: string)
    requires exists x :: x in Ids(s.rows) && Future(s, x)
    ensures exists k: nat :: !FoundAfter(s, f, now, k)
  {
    var x :| x in Ids(s.rows) && Future(s, x);
    var n: nat :| n > s.counter && x == ExpenseId(n);
    var i :| 0 <= i < |s.rows| && Ids(s.rows)[i] == x;
    var k: nat := n - s.counter;
    CreatesRows(s, f, now, k);
    var rows := Creates(s, f, now, k).rows;
    assert rows[i].id == rows[|s.rows| + k - 1].id;
    assert !FoundAfter(s, f, now, k);
  }

  lemma PlayAppend(s: Store, ops: seq<Op>, op: Op)
    ensures Play(s, ops + [op]) == Step(Play(s, ops), op)
  {
    assert (ops + [op])[..|ops|] == ops;
  }

  /** Create, give the record the id the counter will hand out next, create: the new record is unreachable. */
  lemma NextIdHides(f: Fields, g: Fields, now: string, later: string)
    ensures var u := Updates(Some(ExpenseId(2)), None, None, None, None, None);
            var rows := Play(Store([], 0), [Create(f, now)] + [Update(ExpenseId(1), u)] + [Create(g, later)]).rows;
            && |rows| == 2 && rows[0].id == rows[1].id == ExpenseId(2)
            && FindIndex(rows, ExpenseId(2)) == 0 && FindIndex(rows, ExpenseId(1)) == -1
  {
    var u := Updates(Some(ExpenseId(2)), None, None, None, None, None);
    PlayAppend(Store([], 0), [], Create(f, now));
    assert [] + [Create(f, now)] == [Create(f, now)];
    PlayAppend(Store([], 0), [Create(f, now)], Update(ExpenseId(1), u));
    PlayAppend(Store([], 0), [Create(f, now)] + [Update(ExpenseId(1), u)], Create(g, later));
    var first, second := Created(f, 1, now), Created(g, 2, later);
    var s1 := Step(Store([], 0), Create(f, now));
    assert s1.rows == [first] && s1.counter == 1;
    FindsFirst(s1.rows, ExpenseId(1));
    assert s1.rows[0].id == ExpenseId(1);
    var s2 := Step(s1, Update(ExpenseId(1), u));
    assert s2.rows == [Merge(first, u)] && s2.counter == 1;
    var rows := Step(s2, Create(g, later)).rows;
    assert rows == [Merge(first, u)] + [second];
    assert rows[0].id == ExpenseId(2) && rows[1].id == ExpenseId(2);
    FindsFirst(rows, ExpenseId(2));
    FindsFirst(rows, ExpenseId(1));
    IdInjective(1, 2);
  }
}
