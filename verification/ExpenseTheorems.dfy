/** What the expense store guarantees about ids and lookups, and exactly when. */
module ExpenseTheorems {
  import opened Wrappers
  import opened Decimal
  import opened Seqs
  import opened ExpenseStore

  lemma IdInjective(m: nat, n: nat)
    ensures ExpenseId(m) == ExpenseId(n) <==> m == n
  {
    DecInjective(m, n);
    assert ExpenseId(m)[4..] == Dec(m) && ExpenseId(n)[4..] == Dec(n);
  }

  /** The rows carry generated ids with strictly increasing numbers, none above the counter. */
  ghost predicate Numbered(s: Store, nums: seq<nat>) {
    && |nums| == |s.rows|
    && (forall i :: 0 <= i < |nums| ==> s.rows[i].id == ExpenseId(nums[i]) && nums[i] <= s.counter)
    && (forall i, j :: 0 <= i < j < |nums| ==> nums[i] < nums[j])
  }

  ghost predicate Ordered(s: Store) {
    exists nums :: Numbered(s, nums)
  }

  predicate CarriesNoId(op: Op) {
    op.Update? ==> op.u.id == None
  }

  lemma DeleteNumbered(s: Store, nums: seq<nat>, i: nat)
    requires Numbered(s, nums) && i < |s.rows|
    ensures Numbered(s.(rows := s.rows[..i] + s.rows[i + 1..]), nums[..i] + nums[i + 1..])
  {
  }

  lemma CreateNumbered(s: Store, nums: seq<nat>, f: Fields, now: string)
    requires Numbered(s, nums)
    ensures Numbered(Step(s, Create(f, now)), nums + [s.counter + 1])
  {
  }

  lemma UpdateNumbered(s: Store, nums: seq<nat>, id: string, u: Updates)
    requires Numbered(s, nums) && u.id == None
    ensures Numbered(Step(s, Update(id, u)), nums)
  {
  }

  lemma StepOrdered(s: Store, op: Op)
    requires Ordered(s) && CarriesNoId(op)
    ensures Ordered(Step(s, op))
  {
    var nums: seq<nat> :| Numbered(s, nums);
    match op
    case Create(f, now) => CreateNumbered(s, nums, f, now);
    case Update(id, u) => UpdateNumbered(s, nums, id, u);
    case Delete(id) =>
      var i := FindIndex(s.rows, id);
      if i == -1 {
        assert Numbered(Step(s, op), nums);
      } else {
        DeleteNumbered(s, nums, i);
      }
    case Clear => assert Numbered(Step(s, op), []);
  }

  /** Over any run in which no update carries an id, ids strictly increase along the list. */
  lemma {:induction false} RunOrdered(ops: seq<Op>)
    requires forall i :: 0 <= i < |ops| ==> CarriesNoId(ops[i])
    ensures Ordered(Play(Store([], 0), ops))
    decreases |ops|
  {
    if ops == [] {
      assert Numbered(Store([], 0), []);
    } else {
      RunOrdered(ops[..|ops| - 1]);
      StepOrdered(Play(Store([], 0), ops[..|ops| - 1]), ops[|ops| - 1]);
    }
  }

  function Ids(rows: seq<Data>): seq<string> {
    Map(rows, (d: Data) => d.id)
  }

  lemma OrderedDistinct(s: Store)
    requires Ordered(s)
    ensures Distinct(Ids(s.rows))
    ensures ExpenseId(s.counter + 1) !in Ids(s.rows)
  {
    var nums: seq<nat> :| Numbered(s, nums);
    forall i, j | 0 <= i < j < |s.rows|
      ensures Ids(s.rows)[i] != Ids(s.rows)[j]
    {
      IdInjective(nums[i], nums[j]);
    }
    forall i | 0 <= i < |s.rows|
      ensures Ids(s.rows)[i] != ExpenseId(s.counter + 1)
    {
      IdInjective(nums[i], s.counter + 1);
    }
  }

  /** An update keeps the list of ids exactly when it finds nothing, carries no id, or carries the same id. */
  lemma UpdateKeepsIdsIff(s: Store, id: string, u: Updates)
    ensures Ids(Step(s, Update(id, u)).rows) == Ids(s.rows)
       <==> FindIndex(s.rows, id) == -1 || u.id == None || u.id == Some(id)
  {
    var i := FindIndex(s.rows, id);
    FindsFirst(s.rows, id);
    if i != -1 {
      var t := Step(s, Update(id, u));
      assert Ids(t.rows)[i] == Or(u.id, id) && Ids(s.rows)[i] == id;
    }
  }

  /** The ids handed out by a run, in order. */
  function Issued(s: Store, ops: seq<Op>): seq<string> {
    if ops == [] then []
    else
      var op := ops[|ops| - 1];
      Issued(s, ops[..|ops| - 1])
      + (if op.Create? then [ExpenseId(Play(s, ops[..|ops| - 1]).counter + 1)] else [])
  }

  lemma {:induction false} IssuedByCounter(ops: seq<Op>)
    requires forall i :: 0 <= i < |ops| ==> !ops[i].Clear?
    ensures |Issued(Store([], 0), ops)| == Play(Store([], 0), ops).counter
    ensures forall k :: 0 <= k < |Issued(Store([], 0), ops)| ==> Issued(Store([], 0), ops)[k] == ExpenseId(k + 1)
    decreases |ops|
  {
    if ops != [] {
      IssuedByCounter(ops[..|ops| - 1]);
    }
  }

  /** Without `clear`, whatever is updated or deleted, no id is ever handed out twice. */
  lemma IdsNeverReused(ops: seq<Op>)
    requires forall i :: 0 <= i < |ops| ==> !ops[i].Clear?
    ensures Distinct(Issued(Store([], 0), ops))
  {
    IssuedByCounter(ops);
    var ids := Issued(Store([], 0), ops);
    forall i, j | 0 <= i < j < |ids|
      ensures ids[i] != ids[j]
    {
      IdInjective(i + 1, j + 1);
    }
  }

  /** The store as a map from ids to records, by first match. */
  function AsMap(rows: seq<Data>): map<string, Data> {
    map d | d in rows && FindIndex(rows, d.id) != -1 :: d.id := rows[FindIndex(rows, d.id)]
  }

  function Lookup(rows: seq<Data>, id: string): Option<Data> {
    var i := FindIndex(rows, id);
    if i == -1 then None else Some(rows[i])
  }

  lemma LookupIsMap(rows: seq<Data>, id: string)
    ensures id in AsMap(rows) <==> Lookup(rows, id).Some?
    ensures id in AsMap(rows) ==> Lookup(rows, id) == Some(AsMap(rows)[id])
  {
    FindsFirst(rows, id);
    var i := FindIndex(rows, id);
    if i != -1 {
      assert rows[i] in rows;
    }
  }

  /** A map that remembers the order in which its keys were first put. */
  datatype OrderedMap = OrderedMap(order: seq<string>, data: map<string, Data>)

  function Abstract(s: Store): OrderedMap {
    OrderedMap(Ids(s.rows), AsMap(s.rows))
  }

  function Unless(id: string): string -> bool {
    (x: string) => x != id
  }

  function MapStep(m: OrderedMap, n: nat, op: Op): OrderedMap {
    match op
    case Create(f, now) =>
      OrderedMap(m.order + [ExpenseId(n)], m.data[ExpenseId(n) := Created(f, n, now)])
    case Update(id, u) =>
      if id in m.data then OrderedMap(m.order, m.data[id := Merge(m.data[id], u)]) else m
    case Delete(id) => OrderedMap(Filter(m.order, Unless(id)), m.data - {id})
    case Clear => OrderedMap([], map[])
  }

  lemma SameMap(a: map<string, Data>, b: map<string, Data>)
    requires forall id :: id in a <==> id in b
    requires forall id | id in a && id in b :: a[id] == b[id]
    ensures a == b
  {
    assert a.Keys == b.Keys;
  }

  lemma CreateLookup(rows: seq<Data>, d: Data, q: string)
    requires FindIndex(rows, d.id) == -1
    ensures Lookup(rows + [d], q) == if q == d.id then Some(d) else Lookup(rows, q)
  {
    assert (rows + [d])[..|rows|] == rows;
    FindsFirst(rows, d.id);
  }

  lemma UpdateLookup(rows: seq<Data>, i: nat, d: Data, q: string)
    requires i < |rows| && FindIndex(rows, d.id) == i
    ensures Lookup(rows[i := d], q) == if q == d.id then Some(d) else Lookup(rows, q)
  {
    var t, j := rows[i := d], FindIndex(rows, q);
    FindsFirst(rows, q);
    FindsFirst(t, q);
    FindsFirst(rows, d.id);
    assert forall k :: 0 <= k < |t| ==> t[k].id == rows[k].id;
    assert FindIndex(t, q) == j;
  }

  lemma LookupConcat(a: seq<Data>, b: seq<Data>, q: string)
    ensures Lookup(a + b, q) == if Lookup(a, q).Some? then Lookup(a, q) else Lookup(b, q)
  {
    var i, j, k := FindIndex(a + b, q), FindIndex(a, q), FindIndex(b, q);
    FindsFirst(a + b, q);
    FindsFirst(a, q);
    FindsFirst(b, q);
    assert forall l :: 0 <= l < |a| ==> (a + b)[l] == a[l];
    assert forall l :: 0 <= l < |b| ==> (a + b)[|a| + l] == b[l];
    assert j != -1 ==> i == j;
    assert j == -1 && k != -1 ==> i == |a| + k;
  }

  lemma OnlyHere(rows: seq<Data>, i: nat)
    requires i < |rows| && Distinct(Ids(rows))
    ensures Lookup(rows[..i], rows[i].id) == None && Lookup(rows[i + 1..], rows[i].id) == None
    ensures Lookup([rows[i]], rows[i].id) == Some(rows[i])
  {
    assert forall k :: 0 <= k < |rows| ==> Ids(rows)[k] == rows[k].id;
    FindsFirst(rows[..i], rows[i].id);
    FindsFirst(rows[i + 1..], rows[i].id);
    FindsFirst([rows[i]], rows[i].id);
    assert [rows[i]][0].id == rows[i].id;
  }

  lemma DeleteLookup(rows: seq<Data>, i: nat, q: string)
    requires i < |rows| && Distinct(Ids(rows))
    ensures Lookup(rows[..i] + rows[i + 1..], q) == if q == rows[i].id then None else Lookup(rows, q)
  {
    assert rows == (rows[..i] + [rows[i]]) + rows[i + 1..];
    LookupConcat(rows[..i] + [rows[i]], rows[i + 1..], q);
    LookupConcat(rows[..i], [rows[i]], q);
    LookupConcat(rows[..i], rows[i + 1..], q);
    OnlyHere(rows, i);
  }

  lemma {:induction false} RemoveFromOrder(ids: seq<string>, i: nat)
    requires i < |ids| && Distinct(ids)
    ensures Filter(ids, Unless(ids[i])) == ids[..i] + ids[i + 1..]
  {
    assert ids == (ids[..i] + [ids[i]]) + ids[i + 1..];
    FilterSplit(ids[..i], ids[i], ids[i + 1..], Unless(ids[i]));
    KeepAll(ids[..i], ids[i]);
    KeepAll(ids[i + 1..], ids[i]);
  }

  lemma {:induction false} KeepAll(ids: seq<string>, id: string)
    requires id !in ids
    ensures Filter(ids, Unless(id)) == ids
    decreases |ids|
  {
    if ids != [] {
      KeepAll(ids[..|ids| - 1], id);
    }
  }

  lemma LookupsAre(rows: seq<Data>, m: map<string, Data>)
    requires forall q :: Lookup(rows, q) == if q in m then Some(m[q]) else None
    ensures AsMap(rows) == m
  {
    forall q
      ensures q in AsMap(rows) <==> q in m
      ensures q in AsMap(rows) ==> AsMap(rows)[q] == m[q]
    {
      LookupIsMap(rows, q);
    }
    SameMap(AsMap(rows), m);
  }

  lemma LookupFrom(rows: seq<Data>, q: string)
    ensures Lookup(rows, q) == if q in AsMap(rows) then Some(AsMap(rows)[q]) else None
  {
    LookupIsMap(rows, q);
  }

  lemma AppendMap(rows: seq<Data>, d: Data)
    requires FindIndex(rows, d.id) == -1
    ensures AsMap(rows + [d]) == AsMap(rows)[d.id := d]
  {
    var m := AsMap(rows)[d.id := d];
    forall q
      ensures Lookup(rows + [d], q) == if q in m then Some(m[q]) else None
    {
      CreateLookup(rows, d, q);
      LookupFrom(rows, q);
    }
    LookupsAre(rows + [d], m);
  }

  lemma ReplaceMap(rows: seq<Data>, i: nat, d: Data)
    requires i < |rows| && FindIndex(rows, d.id) == i
    ensures AsMap(rows[i := d]) == AsMap(rows)[d.id := d]
  {
    var m := AsMap(rows)[d.id := d];
    forall q
      ensures Lookup(rows[i := d], q) == if q in m then Some(m[q]) else None
    {
      UpdateLookup(rows, i, d, q);
      LookupFrom(rows, q);
    }
    LookupsAre(rows[i := d], m);
  }

  lemma RemoveMap(rows: seq<Data>, i: nat)
    requires i < |rows| && Distinct(Ids(rows))
    ensures AsMap(rows[..i] + rows[i + 1..]) == AsMap(rows) - {rows[i].id}
  {
    var m := AsMap(rows) - {rows[i].id};
    forall q
      ensures Lookup(rows[..i] + rows[i + 1..], q) == if q in m then Some(m[q]) else None
    {
      DeleteLookup(rows, i, q);
      LookupFrom(rows, q);
    }
    LookupsAre(rows[..i] + rows[i + 1..], m);
  }

  lemma NotFound(rows: seq<Data>, id: string)
    ensures FindIndex(rows, id) == -1 <==> id !in Ids(rows)
    ensures FindIndex(rows, id) == -1 <==> id !in AsMap(rows)
  {
    assert forall k :: 0 <= k < |rows| ==> rows[k].id == Ids(rows)[k];
    FindsFirst(rows, id);
    LookupFrom(rows, id);
  }

  lemma FreshId(s: Store)
    requires Ordered(s)
    ensures FindIndex(s.rows, ExpenseId(s.counter + 1)) == -1 && Distinct(Ids(s.rows))
  {
    OrderedDistinct(s);
    NotFound(s.rows, ExpenseId(s.counter + 1));
  }

  lemma IdsAppend(rows: seq<Data>, d: Data)
    ensures Ids(rows + [d]) == Ids(rows) + [d.id]
  {
  }

  lemma IdsRemove(rows: seq<Data>, i: nat)
    requires i < |rows|
    ensures Ids(rows[..i] + rows[i + 1..]) == Ids(rows)[..i] + Ids(rows)[i + 1..]
    ensures Ids(rows)[i] == rows[i].id
  {
  }

  lemma CreatedRows(s: Store, f: Fields, now: string, d: Data)
    requires d == Created(f, s.counter + 1, now) && FindIndex(s.rows, d.id) == -1
    ensures Ids(s.rows + [d]) == Ids(s.rows) + [d.id] && AsMap(s.rows + [d]) == AsMap(s.rows)[d.id := d]
    ensures Step(s, Create(f, now)).rows == s.rows + [d] && d.id == ExpenseId(s.counter + 1)
  {
    AppendMap(s.rows, d);
    IdsAppend(s.rows, d);
  }

  lemma CreateRefines(s: Store, f: Fields, now: string)
    requires FindIndex(s.rows, ExpenseId(s.counter + 1)) == -1
    ensures Abstract(Step(s, Create(f, now))) == MapStep(Abstract(s), s.counter + 1, Create(f, now))
  {
    CreatedRows(s, f, now, Created(f, s.counter + 1, now));
  }

  lemma UpdateRefines(s: Store, id: string, u: Updates)
    requires u.id == None
    ensures Abstract(Step(s, Update(id, u))) == MapStep(Abstract(s), s.counter + 1, Update(id, u))
  {
    var i := FindIndex(s.rows, id);
    LookupFrom(s.rows, id);
    FindsFirst(s.rows, id);
    if i != -1 {
      ReplaceMap(s.rows, i, Merge(s.rows[i], u));
      UpdateKeepsIdsIff(s, id, u);
    }
  }

  lemma DeleteFound(rows: seq<Data>, i: nat)
    requires i < |rows| && Distinct(Ids(rows))
    ensures AsMap(rows[..i] + rows[i + 1..]) == AsMap(rows) - {rows[i].id}
    ensures Ids(rows[..i] + rows[i + 1..]) == Filter(Ids(rows), Unless(rows[i].id))
  {
    RemoveMap(rows, i);
    IdsRemove(rows, i);
    RemoveFromOrder(Ids(rows), i);
  }

  lemma DeleteMissing(rows: seq<Data>, id: string)
    requires FindIndex(rows, id) == -1
    ensures AsMap(rows) - {id} == AsMap(rows)
    ensures Filter(Ids(rows), Unless(id)) == Ids(rows)
  {
    NotFound(rows, id);
    KeepAll(Ids(rows), id);
  }

  lemma DeletedRows(s: Store, id: string)
    requires Distinct(Ids(s.rows))
    ensures AsMap(Step(s, Delete(id)).rows) == AsMap(s.rows) - {id}
    ensures Ids(Step(s, Delete(id)).rows) == Filter(Ids(s.rows), Unless(id))
  {
    var i, t := FindIndex(s.rows, id), Step(s, Delete(id));
    FindsFirst(s.rows, id);
    if i == -1 {
      assert t.rows == s.rows;
      DeleteMissing(s.rows, id);
    } else {
      assert t.rows == s.rows[..i] + s.rows[i + 1..] && s.rows[i].id == id;
      DeleteFound(s.rows, i);
    }
  }

  lemma DeleteRefines(s: Store, id: string)
    requires Distinct(Ids(s.rows))
    ensures Abstract(Step(s, Delete(id))) == MapStep(Abstract(s), s.counter + 1, Delete(id))
  {
    DeletedRows(s, id);
  }

  function PlayMap(ops: seq<Op>): OrderedMap {
    if ops == [] then OrderedMap([], map[])
    else
      var init := ops[..|ops| - 1];
      MapStep(PlayMap(init), Play(Store([], 0), init).counter + 1, ops[|ops| - 1])
  }

  /** Over any run without id-carrying updates the array behaves as an insertion-ordered map. */
  lemma {:induction false} RunRefinesOrderedMap(ops: seq<Op>)
    requires forall i :: 0 <= i < |ops| ==> CarriesNoId(ops[i])
    ensures Abstract(Play(Store([], 0), ops)) == PlayMap(ops)
    decreases |ops|
  {
    if ops != [] {
      var init, op := ops[..|ops| - 1], ops[|ops| - 1];
      RunRefinesOrderedMap(init);
      RunOrdered(init);
      var s := Play(Store([], 0), init);
      FreshId(s);
      assert CarriesNoId(op);
      match op
      case Create(f, now) => CreateRefines(s, f, now);
      case Update(id, u) => UpdateRefines(s, id, u);
      case Delete(id) => DeleteRefines(s, id);
      case Clear =>
    }
  }
}
