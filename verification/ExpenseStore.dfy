/** The expense model of the expense-tracker starter: an array of records and an id counter. */
module ExpenseStore {
  import opened Wrappers
  import opened Decimal

  datatype Fields = Fields(amount: real, description: Option<string>, categoryId: string, date: string)

  datatype Data = Data(id: string, amount: real, description: string, categoryId: string, date: string,
                       createdAt: string)

  /** The `updates` object: None for a property it does not have. */
  datatype Updates = Updates(id: Option<string>, amount: Option<real>, description: Option<string>,
                             categoryId: Option<string>, date: Option<string>, createdAt: Option<string>)

  function Or<T>(o: Option<T>, default: T): T {
    if o.Some? then o.value else default
  }

  /** `{ ...record, ...updates }`. */
  function Merge(d: Data, u: Updates): Data {
    Data(Or(u.id, d.id), Or(u.amount, d.amount), Or(u.description, d.description),
         Or(u.categoryId, d.categoryId), Or(u.date, d.date), Or(u.createdAt, d.createdAt))
  }

  function ExpenseId(n: nat): string {
    "exp_" + Dec(n)
  }

  datatype Store = Store(rows: seq<Data>, counter: nat)

  /** `findIndex(e => e.id === id)`. */
  function FindIndex(rows: seq<Data>, id: string): (i: int)
    ensures -1 <= i < |rows|
  {
    if rows == [] then -1
    else
      var i := FindIndex(rows[..|rows| - 1], id);
      if i != -1 then i else if rows[|rows| - 1].id == id then |rows| - 1 else -1
  }

  /** It is the first position with that id, or -1 when there is none. */
  lemma {:induction false} FindsFirst(rows: seq<Data>, id: string)
    ensures FindIndex(rows, id) == -1 <==> forall k :: 0 <= k < |rows| ==> rows[k].id != id
    ensures FindIndex(rows, id) != -1 ==>
      rows[FindIndex(rows, id)].id == id && forall k :: 0 <= k < FindIndex(rows, id) ==> rows[k].id != id
    decreases |rows|
  {
    if rows != [] {
      FindsFirst(rows[..|rows| - 1], id);
    }
  }

  function Created(f: Fields, n: nat, now: string): Data {
    Data(ExpenseId(n), f.amount, Or(f.description, ""), f.categoryId, f.date, now)
  }

  datatype Op =
    | Create(f: Fields, now: string)
    | Update(id: string, u: Updates)
    | Delete(id: string)
    | Clear

  function Step(s: Store, op: Op): Store {
    match op
    case Create(f, now) => Store(s.rows + [Created(f, s.counter + 1, now)], s.counter + 1)
    case Update(id, u) =>
      var i := FindIndex(s.rows, id);
      if i == -1 then s else s.(rows := s.rows[i := Merge(s.rows[i], u)])
    case Delete(id) =>
      var i := FindIndex(s.rows, id);
      if i == -1 then s else s.(rows := s.rows[..i] + s.rows[i + 1..])
    case Clear => Store([], 0)
  }

  class Expense {
    var data: Data

    constructor (d: Data)
      ensures data == d
    {
      data := d;
    }
  }

  ghost function Rows(s: seq<Expense>): seq<Data>
    reads s
  {
    seq(|s|, i requires 0 <= i < |s| reads s => s[i].data)
  }

  class ExpenseModel {
    var expenses: seq<Expense>
    var idCounter: nat

    ghost function Value(): Store
      reads this, expenses
    {
      Store(Rows(expenses), idCounter)
    }

    constructor ()
      ensures Value() == Store([], 0)
    {
      expenses, idCounter := [], 0;
    }

    method GenerateId() returns (id: string)
      modifies `idCounter
      ensures idCounter == old(idCounter) + 1 && id == ExpenseId(idCounter)
    {
      idCounter := idCounter + 1;
      id := "exp_" + Dec(idCounter);
    }

    method Create(f: Fields, now: string) returns (e: Expense)
      modifies this
      ensures Value() == Step(old(Value()), Op.Create(f, now))
      ensures fresh(e) && expenses == old(expenses) + [e]
      ensures e.data.id == "exp_" + Dec(old(idCounter) + 1) && e.data.createdAt == now
      ensures e.data.amount == f.amount && e.data.categoryId == f.categoryId && e.data.date == f.date
      ensures e.data.description == if f.description.Some? then f.description.value else ""
    {
      var id := GenerateId();
      e := new Expense(Data(id, f.amount, Or(f.description, ""), f.categoryId, f.date, now));
      ghost var before := Rows(expenses);
      expenses := expenses + [e];
      assert Rows(expenses) == before + [e.data];
    }

    /** A copy of the array; the records in it are the store's own objects. */
    method GetAll() returns (list: seq<Expense>)
      ensures list == expenses
    {
      list := expenses;
    }

    method IndexOfId(id: string) returns (index: int)
      ensures index == FindIndex(Rows(expenses), id)
    {
      FindsFirst(Rows(expenses), id);
      index := 0;
      while index < |expenses|
        invariant 0 <= index <= |expenses|
        invariant forall k :: 0 <= k < index ==> expenses[k].data.id != id
      {
        if expenses[index].data.id == id {
          assert Rows(expenses)[index].id == id;
          return;
        }
        index := index + 1;
      }
      index := -1;
    }

    method FindById(id: string) returns (e: Expense?)
      ensures e == null <==> FindIndex(Rows(expenses), id) == -1
      ensures e != null ==> e == expenses[FindIndex(Rows(expenses), id)]
    {
      var index := IndexOfId(id);
      e := if index == -1 then null else expenses[index];
    }

    /** Puts a new record into the slot; the record that was there is left as it was. */
    method Update(id: string, u: Updates) returns (e: Expense?)
      modifies `expenses
      ensures Value() == Step(old(Value()), Op.Update(id, u))
      ensures e == null <==> FindIndex(old(Rows(expenses)), id) == -1
      ensures e != null ==> fresh(e) && expenses == old(expenses)[FindIndex(old(Rows(expenses)), id) := e]
      ensures e != null ==>
                var d := old(Rows(expenses))[FindIndex(old(Rows(expenses)), id)];
                && e.data.id == (if u.id.Some? then u.id.value else d.id)
                && e.data.amount == (if u.amount.Some? then u.amount.value else d.amount)
                && e.data.description == (if u.description.Some? then u.description.value else d.description)
                && e.data.categoryId == (if u.categoryId.Some? then u.categoryId.value else d.categoryId)
                && e.data.date == (if u.date.Some? then u.date.value else d.date)
                && e.data.createdAt == (if u.createdAt.Some? then u.createdAt.value else d.createdAt)
    {
      var index := IndexOfId(id);
      if index == -1 {
        return null;
      }
      var merged := new Expense(Merge(expenses[index].data, u));
      ghost var before := Rows(expenses);
      expenses := expenses[index := merged];
      assert Rows(expenses) == before[index := merged.data];
      e := merged;
    }

    method Delete(id: string) returns (found: bool)
      modifies `expenses
      ensures Value() == Step(old(Value()), Op.Delete(id))
      ensures found <==> FindIndex(old(Rows(expenses)), id) != -1
    {
      var index := IndexOfId(id);
      if index == -1 {
        return false;
      }
      ghost var before := Rows(expenses);
      expenses := expenses[..index] + expenses[index + 1..];
      assert Rows(expenses) == before[..index] + before[index + 1..];
      found := true;
    }

    method Clear()
      modifies this
      ensures Value() == Step(old(Value()), Op.Clear)
    {
      expenses := [];
      idCounter := 0;
    }

    method Do(op: Op)
      modifies this
      ensures Value() == Step(old(Value()), op)
    {
      match op
      case Create(f, now) => var _ := Create(f, now);
      case Update(id, u) => var _ := Update(id, u);
      case Delete(id) => var _ := Delete(id);
      case Clear => Clear();
    }

    /** A list handed out by `getAll` shows the same records whatever is done to the store afterwards. */
    method ListUnaffected(ops: seq<Op>) returns (list: seq<Expense>)
      modifies this
      ensures list == old(expenses) && Rows(list) == old(Rows(expenses))
      ensures Value() == Play(old(Value()), ops)
    {
      list := GetAll();
      var i := 0;
      while i < |ops|
        invariant 0 <= i <= |ops|
        invariant Value() == Play(old(Value()), ops[..i])
      {
        Do(ops[i]);
        assert ops[..i + 1][..i] == ops[..i];
        i := i + 1;
      }
      assert ops[..i] == ops;
    }
  }

  function Play(s: Store, ops: seq<Op>): Store {
    if ops == [] then s else Step(Play(s, ops[..|ops| - 1]), ops[|ops| - 1])
  }
}
