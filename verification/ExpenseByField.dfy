/** What an id finds after a run, field by field: the last update that carried the field, or the creation. */
module ExpenseByField {
  import opened Wrappers
  import opened Decimal
  import opened ExpenseStore
  import opened ExpenseTheorems

  /** The counter is the number of creates since the store was last cleared. */
  lemma {:induction false} CounterByField(ops: seq<Op>, creates: set<nat>)
    requires forall j: nat :: j in creates <==>
               j < |ops| && ops[j].Create? && forall l :: j < l < |ops| ==> !ops[l].Clear?
    ensures Play(Store([], 0), ops).counter == |creates|
    decreases |ops|
  {
    if ops == [] {
      assert creates == {};
    } else {
      var n := |ops| - 1;
      if ops[n].Clear? {
        assert creates == {};
      } else {
        CounterByField(ops[..n], creates - {n});
      }
    }
  }

  /** The id was given out by the create at c, and neither it nor the whole store was removed since. */
  ghost predicate Stands(ops: seq<Op>, id: string, c: nat) {
    && c < |ops| && ops[c].Create?
    && id == "exp_" + Dec(Play(Store([], 0), ops[..c]).counter + 1)
    && forall j :: c < j < |ops| ==> !ops[j].Clear? && !(ops[j].Delete? && ops[j].id == id)
  }

  /** One field of the record, and what an update says of it. */
  ghost predicate IsField<T(!new)>(field: Data -> T, carried: Updates -> Option<T>) {
    forall d, u :: field(Merge(d, u)) == if carried(u).Some? then carried(u).value else field(d)
  }

  /** The last operation since the create at c that wrote the field: an update that carries it, or the create. */
  ghost predicate Writes<T>(ops: seq<Op>, id: string, c: nat, k: nat, carried: Updates -> Option<T>) {
    && c <= k < |ops|
    && (k == c || (ops[k].Update? && ops[k].id == id && carried(ops[k].u).Some?))
    && forall j :: k < j < |ops| && ops[j].Update? && ops[j].id == id ==> carried(ops[j].u) == None
  }

  /** An id in use is not given out again. */
  lemma {:induction false} InUseIsNotNew(ops: seq<Op>, id: string)
    requires forall i :: 0 <= i < |ops| ==> CarriesNoId(ops[i])
    requires id in PlayMap(ops).data
    ensures id != ExpenseId(Play(Store([], 0), ops).counter + 1)
  {
    var s := Play(Store([], 0), ops);
    RunOrdered(ops);
    FreshId(s);
    FoundInMap(ops, ExpenseId(s.counter + 1));
  }

  lemma {:induction false} PlayMapLast(ops: seq<Op>)
    requires ops != []
    ensures var init := ops[..|ops| - 1];
            PlayMap(ops) == MapStep(PlayMap(init), Play(Store([], 0), init).counter + 1, ops[|ops| - 1])
  {
  }

  lemma MapStepField<T(!new)>(m: OrderedMap, n: nat, op: Op, id: string, field: Data -> T,
                              carried: Updates -> Option<T>)
    requires IsField(field, carried) && id in m.data
    requires !op.Clear? && !(op.Delete? && op.id == id) && (op.Create? ==> id != ExpenseId(n))
    ensures id in MapStep(m, n, op).data
    ensures field(MapStep(m, n, op).data[id])
         == if op.Update? && op.id == id && carried(op.u).Some? then carried(op.u).value else field(m.data[id])
  {
  }

  /** One more operation, none that removes the id. */
  lemma {:induction false} FieldStep<T(!new)>(ops: seq<Op>, id: string, field: Data -> T, carried: Updates -> Option<T>)
    requires ops != [] && (forall i :: 0 <= i < |ops| ==> CarriesNoId(ops[i])) && IsField(field, carried)
    requires id in PlayMap(ops[..|ops| - 1]).data
    requires !ops[|ops| - 1].Clear? && !(ops[|ops| - 1].Delete? && ops[|ops| - 1].id == id)
    ensures var op, before := ops[|ops| - 1], PlayMap(ops[..|ops| - 1]).data[id];
            && id in PlayMap(ops).data
            && field(PlayMap(ops).data[id])
               == if op.Update? && op.id == id && carried(op.u).Some? then carried(op.u).value else field(before)
  {
    var init := ops[..|ops| - 1];
    InUseIsNotNew(init, id);
    PlayMapLast(ops);
    MapStepField(PlayMap(init), Play(Store([], 0), init).counter + 1, ops[|ops| - 1], id, field, carried);
  }

  lemma {:induction false} FieldCreated(ops: seq<Op>, id: string)
    requires ops != [] && Stands(ops, id, |ops| - 1)
    ensures var op, n := ops[|ops| - 1], Play(Store([], 0), ops[..|ops| - 1]).counter + 1;
            id in PlayMap(ops).data && PlayMap(ops).data[id] == Created(op.f, n, op.now)
  {
    PlayMapLast(ops);
  }

  lemma {:induction false} StandsBefore(ops: seq<Op>, id: string, c: nat)
    requires Stands(ops, id, c) && c < |ops| - 1
    ensures Stands(ops[..|ops| - 1], id, c) && ops[..|ops| - 1][..c] == ops[..c]
    ensures !ops[|ops| - 1].Clear? && !(ops[|ops| - 1].Delete? && ops[|ops| - 1].id == id)
  {
    assert ops[..|ops| - 1][..c] == ops[..c];
  }

  /** What was created at c, or carried at k. */
  ghost function Written<T>(ops: seq<Op>, c: nat, k: nat, field: Data -> T, carried: Updates -> Option<T>): T
    requires c <= k < |ops| && ops[c].Create? && (k != c ==> ops[k].Update? && carried(ops[k].u).Some?)
  {
    if k == c then field(Created(ops[c].f, Play(Store([], 0), ops[..c]).counter + 1, ops[c].now))
    else carried(ops[k].u).value
  }

  /** Without the last operation, the one that wrote the field is another only if the last one was it. */
  lemma {:induction false} WriteBefore<T>(ops: seq<Op>, id: string, c: nat, k: nat, field: Data -> T,
                                          carried: Updates -> Option<T>)
    returns (l: nat)
    requires Stands(ops, id, c) && c < |ops| - 1 && Writes(ops, id, c, k, carried)
    ensures Stands(ops[..|ops| - 1], id, c) && Writes(ops[..|ops| - 1], id, c, l, carried)
    ensures var op := ops[|ops| - 1];
            Written(ops, c, k, field, carried)
            == if op.Update? && op.id == id && carried(op.u).Some? then carried(op.u).value
               else Written(ops[..|ops| - 1], c, l, field, carried)
  {
    StandsBefore(ops, id, c);
    l := PreviousWrite(ops[..|ops| - 1], id, c, carried);
    if k < |ops| - 1 {
      SameWrite(ops[..|ops| - 1], id, c, k, l, carried);
    }
  }

  lemma {:induction false} FieldOfLast<T(!new)>(ops: seq<Op>, id: string, c: nat, k: nat, field: Data -> T,
                                                carried: Updates -> Option<T>)
    requires forall i :: 0 <= i < |ops| ==> CarriesNoId(ops[i])
    requires Stands(ops, id, c) && Writes(ops, id, c, k, carried) && IsField(field, carried)
    ensures id in PlayMap(ops).data && field(PlayMap(ops).data[id]) == Written(ops, c, k, field, carried)
    decreases |ops|
  {
    if c == |ops| - 1 {
      FieldCreated(ops, id);
    } else {
      var l := WriteBefore(ops, id, c, k, field, carried);
      FieldOfLast(ops[..|ops| - 1], id, c, l, field, carried);
      StandsBefore(ops, id, c);
      FieldStep(ops, id, field, carried);
    }
  }

  /** It is only one. */
  lemma SameWrite<T>(ops: seq<Op>, id: string, c: nat, k: nat, l: nat, carried: Updates -> Option<T>)
    requires Writes(ops, id, c, k, carried) && Writes(ops, id, c, l, carried)
    ensures k == l
  {
  }

  /** There is always a last operation that wrote the field. */
  lemma {:induction false} PreviousWrite<T>(ops: seq<Op>, id: string, c: nat, carried: Updates -> Option<T>)
    returns (k: nat)
    requires Stands(ops, id, c)
    ensures Writes(ops, id, c, k, carried)
    decreases |ops|
  {
    k := |ops| - 1;
    while k > c && !(ops[k].Update? && ops[k].id == id && carried(ops[k].u).Some?)
      invariant c <= k < |ops|
      invariant forall j :: k < j < |ops| && ops[j].Update? && ops[j].id == id ==> carried(ops[j].u) == None
    {
      k := k - 1;
    }
  }

  /** The record an id finds is the one the map has. */
  lemma {:induction false} FoundInMap(ops: seq<Op>, id: string)
    requires forall i :: 0 <= i < |ops| ==> CarriesNoId(ops[i])
    ensures var rows := Play(Store([], 0), ops).rows;
            && (FindIndex(rows, id) != -1 <==> id in PlayMap(ops).data)
            && (FindIndex(rows, id) != -1 ==> rows[FindIndex(rows, id)] == PlayMap(ops).data[id])
  {
    RunRefinesOrderedMap(ops);
    LookupIsMap(Play(Store([], 0), ops).rows, id);
  }

  /** An id finds a record exactly if some create gave it out and it was not deleted or cleared since. */
  lemma {:induction false} FoundIffStands(ops: seq<Op>, id: string)
    requires forall i :: 0 <= i < |ops| ==> CarriesNoId(ops[i])
    ensures FindIndex(Play(Store([], 0), ops).rows, id) != -1 <==> exists c :: Stands(ops, id, c)
  {
    FoundInMap(ops, id);
    if c :| Stands(ops, id, c) {
      var k := PreviousWrite(ops, id, c, (u: Updates) => u.amount);
      FieldOfLast(ops, id, c, k, (d: Data) => d.amount, (u: Updates) => u.amount);
    }
    if id in PlayMap(ops).data {
      var c := CreatedBy(ops, id);
    }
  }

  lemma MapStepKeys(m: OrderedMap, n: nat, op: Op, id: string)
    requires id in MapStep(m, n, op).data
    ensures (op.Create? && id == ExpenseId(n)) || (id in m.data && !op.Clear? && !(op.Delete? && op.id == id))
  {
  }

  lemma {:induction false} StandsAfter(ops: seq<Op>, id: string, c: nat)
    requires ops != [] && Stands(ops[..|ops| - 1], id, c)
    requires !ops[|ops| - 1].Clear? && !(ops[|ops| - 1].Delete? && ops[|ops| - 1].id == id)
    ensures Stands(ops, id, c)
  {
    assert ops[..|ops| - 1][..c] == ops[..c];
  }

  lemma {:induction false} LastKeys(ops: seq<Op>, id: string)
    requires ops != [] && id in PlayMap(ops).data
    ensures var op, init := ops[|ops| - 1], ops[..|ops| - 1];
            || (op.Create? && id == ExpenseId(Play(Store([], 0), init).counter + 1))
            || (id in PlayMap(init).data && !op.Clear? && !(op.Delete? && op.id == id))
  {
    PlayMapLast(ops);
    MapStepKeys(PlayMap(ops[..|ops| - 1]), Play(Store([], 0), ops[..|ops| - 1]).counter + 1, ops[|ops| - 1], id);
  }

  lemma {:induction false} CreatedBy(ops: seq<Op>, id: string) returns (c: nat)
    requires id in PlayMap(ops).data
    ensures Stands(ops, id, c)
    decreases |ops|
  {
    var n := |ops| - 1;
    LastKeys(ops, id);
    if ops[n].Create? && id == ExpenseId(Play(Store([], 0), ops[..n]).counter + 1) {
      c := n;
    } else {
      c := CreatedBy(ops[..n], id);
      StandsAfter(ops, id, c);
    }
  }

  /** The amount an id finds is that of the last update of it that carried one, at k, or of its creation, at c. */
  lemma {:induction false} AmountByRun(ops: seq<Op>, id: string, c: nat, k: nat)
    requires forall i :: 0 <= i < |ops| && ops[i].Update? ==> ops[i].u.id == None
    requires Stands(ops, id, c) && c <= k < |ops|
    requires k == c || (ops[k].Update? && ops[k].id == id && ops[k].u.amount.Some?)
    requires forall j :: k < j < |ops| && ops[j].Update? && ops[j].id == id ==> ops[j].u.amount == None
    ensures var rows := Play(Store([], 0), ops).rows;
            && FindIndex(rows, id) != -1
            && rows[FindIndex(rows, id)].amount == if k == c then ops[c].f.amount else ops[k].u.amount.value
  {
    FieldOfLast(ops, id, c, k, (d: Data) => d.amount, (u: Updates) => u.amount);
    FoundInMap(ops, id);
  }

  lemma {:induction false} DescriptionByRun(ops: seq<Op>, id: string, c: nat, k: nat)
    requires forall i :: 0 <= i < |ops| && ops[i].Update? ==> ops[i].u.id == None
    requires Stands(ops, id, c) && c <= k < |ops|
    requires k == c || (ops[k].Update? && ops[k].id == id && ops[k].u.description.Some?)
    requires forall j :: k < j < |ops| && ops[j].Update? && ops[j].id == id ==> ops[j].u.description == None
    ensures var rows := Play(Store([], 0), ops).rows;
            && FindIndex(rows, id) != -1
            && rows[FindIndex(rows, id)].description
               == if k != c then ops[k].u.description.value
                  else if ops[c].f.description.Some? then ops[c].f.description.value else ""
  {
    FieldOfLast(ops, id, c, k, (d: Data) => d.description, (u: Updates) => u.description);
    FoundInMap(ops, id);
  }

  lemma {:induction false} CategoryByRun(ops: seq<Op>, id: string, c: nat, k: nat)
    requires forall i :: 0 <= i < |ops| && ops[i].Update? ==> ops[i].u.id == None
    requires Stands(ops, id, c) && c <= k < |ops|
    requires k == c || (ops[k].Update? && ops[k].id == id && ops[k].u.categoryId.Some?)
    requires forall j :: k < j < |ops| && ops[j].Update? && ops[j].id == id ==> ops[j].u.categoryId == None
    ensures var rows := Play(Store([], 0), ops).rows;
            && FindIndex(rows, id) != -1
            && rows[FindIndex(rows, id)].categoryId == if k == c then ops[c].f.categoryId else ops[k].u.categoryId.value
  {
    FieldOfLast(ops, id, c, k, (d: Data) => d.categoryId, (u: Updates) => u.categoryId);
    FoundInMap(ops, id);
  }

  lemma {:induction false} DateByRun(ops: seq<Op>, id: string, c: nat, k: nat)
    requires forall i :: 0 <= i < |ops| && ops[i].Update? ==> ops[i].u.id == None
    requires Stands(ops, id, c) && c <= k < |ops|
    requires k == c || (ops[k].Update? && ops[k].id == id && ops[k].u.date.Some?)
    requires forall j :: k < j < |ops| && ops[j].Update? && ops[j].id == id ==> ops[j].u.date == None
    ensures var rows := Play(Store([], 0), ops).rows;
            && FindIndex(rows, id) != -1
            && rows[FindIndex(rows, id)].date == if k == c then ops[c].f.date else ops[k].u.date.value
  {
    FieldOfLast(ops, id, c, k, (d: Data) => d.date, (u: Updates) => u.date);
    FoundInMap(ops, id);
  }

  lemma {:induction false} CreationTimeByRun(ops: seq<Op>, id: string, c: nat, k: nat)
    requires forall i :: 0 <= i < |ops| && ops[i].Update? ==> ops[i].u.id == None
    requires Stands(ops, id, c) && c <= k < |ops|
    requires k == c || (ops[k].Update? && ops[k].id == id && ops[k].u.createdAt.Some?)
    requires forall j :: k < j < |ops| && ops[j].Update? && ops[j].id == id ==> ops[j].u.createdAt == None
    ensures var rows := Play(Store([], 0), ops).rows;
            && FindIndex(rows, id) != -1
            && rows[FindIndex(rows, id)].createdAt == if k == c then ops[c].now else ops[k].u.createdAt.value
  {
    FieldOfLast(ops, id, c, k, (d: Data) => d.createdAt, (u: Updates) => u.createdAt);
    FoundInMap(ops, id);
  }
}
