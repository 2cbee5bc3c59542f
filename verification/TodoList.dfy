/** The TodoList component embedded in the benchmarks: shared todo objects and a filtered view. */
module TodoList {
  import opened TextTrim

  datatype Choice = All | Active | Completed

  datatype Item = Item(text: string, completed: bool)

  predicate Visible(f: Choice, completed: bool) {
    match f
    case All => true
    case Active => !completed
    case Completed => completed
  }

  /** The positions of the rows the view shows, in order. */
  function Positions(items: seq<Item>, f: Choice): seq<nat> {
    if items == [] then []
    else
      var n := |items| - 1;
      Positions(items[..n], f) + (if Visible(f, items[n].completed) then [n] else [])
  }

  lemma {:induction false} PositionsExact(items: seq<Item>, f: Choice)
    ensures forall i: nat :: i in Positions(items, f) <==> i < |items| && Visible(f, items[i].completed)
    ensures forall k, l :: 0 <= k < l < |Positions(items, f)| ==> Positions(items, f)[k] < Positions(items, f)[l]
    decreases |items|
  {
    if items != [] {
      var n := |items| - 1;
      PositionsExact(items[..n], f);
      var p := Positions(items[..n], f);
      forall i: nat
        ensures i in Positions(items, f) <==> i < |items| && Visible(f, items[i].completed)
      {
        assert i in p <==> i < n && Visible(f, items[..n][i].completed);
      }
      forall k | 0 <= k < |p|
        ensures p[k] < n
      {
        assert p[k] in p;
      }
    }
  }

  /** What the page shows: the list, the text being typed and the filter. */
  datatype Page = Page(items: seq<Item>, input: string, filter: Choice)

  function ToggleAt(items: seq<Item>, i: nat): seq<Item>
    requires i < |items|
  {
    items[i := items[i].(completed := !items[i].completed)]
  }

  function DeleteAt(items: seq<Item>, i: nat): seq<Item>
    requires i < |items|
  {
    items[..i] + items[i + 1..]
  }

  datatype Event =
    | Type(text: string)
    | ClickAdd
    | Key(name: string)
    | Choose(f: Choice)
    | ToggleRow(k: nat)
    | DeleteRow(k: nat)

  function AddTo(p: Page): Page {
    if Trim(p.input) == "" then p else Page(p.items + [Item(Trim(p.input), false)], "", p.filter)
  }

  /** The item behind row k of the view. */
  function RowAt(p: Page, k: nat): (i: nat)
    requires k < |Positions(p.items, p.filter)|
    ensures i < |p.items|
  {
    PositionsExact(p.items, p.filter);
    assert Positions(p.items, p.filter)[k] in Positions(p.items, p.filter);
    Positions(p.items, p.filter)[k]
  }

  /** A row that is not shown cannot be clicked; such an event changes nothing. */
  function Next(p: Page, e: Event): Page {
    match e
    case Type(text) => p.(input := text)
    case ClickAdd => AddTo(p)
    case Key(name) => if name == "Enter" then AddTo(p) else p
    case Choose(f) => p.(filter := f)
    case ToggleRow(k) =>
      if k < |Positions(p.items, p.filter)| then p.(items := ToggleAt(p.items, RowAt(p, k))) else p
    case DeleteRow(k) =>
      if k < |Positions(p.items, p.filter)| then p.(items := DeleteAt(p.items, RowAt(p, k))) else p
  }

  class Todo {
    const text: string
    var completed: bool

    constructor (text: string)
      ensures this.text == text && !completed
    {
      this.text := text;
      completed := false;
    }

    ghost function Value(): Item
      reads this
    {
      Item(text, completed)
    }
  }

  ghost predicate DistinctTodos(s: seq<Todo>) {
    forall i, j :: 0 <= i < j < |s| ==> s[i] != s[j]
  }

  predicate ProperTodos(s: seq<Todo>) {
    forall i :: 0 <= i < |s| ==> ProperText(s[i].text)
  }

  lemma AppendTodo(s: seq<Todo>, t: Todo)
    requires DistinctTodos(s) && ProperTodos(s) && t !in s && ProperText(t.text)
    ensures DistinctTodos(s + [t]) && ProperTodos(s + [t])
    ensures Values(s + [t]) == Values(s) + [t.Value()]
  {
  }

  lemma RemoveTodo(s: seq<Todo>, i: nat)
    requires i < |s|
    ensures DistinctTodos(s) ==> DistinctTodos(s[..i] + s[i + 1..])
    ensures ProperTodos(s) ==> ProperTodos(s[..i] + s[i + 1..])
    ensures Values(s[..i] + s[i + 1..]) == DeleteAt(Values(s), i)
  {
  }

  ghost function Values(s: seq<Todo>): seq<Item>
    reads s
  {
    seq(|s|, i requires 0 <= i < |s| reads s => s[i].Value())
  }

  class Component {
    var todos: seq<Todo>
    var input: string
    var filter: Choice

    /** The todos are pairwise distinct objects with proper texts. */
    ghost predicate Valid()
      reads this
    {
      DistinctTodos(todos) && ProperTodos(todos)
    }

    ghost function Value(): Page
      reads this, todos
    {
      Page(Values(todos), input, filter)
    }

    constructor ()
      ensures Valid() && Value() == Page([], "", All)
    {
      todos, input, filter := [], "", All;
    }

    method AddTodo()
      requires Valid()
      modifies this
      ensures Valid() && Value() == AddTo(old(Value()))
      ensures old(todos) <= todos && fresh(todos[|old(todos)|..])
    {
      TrimProper(input);
      if Trim(input) == "" {
        return;
      }
      var todo := new Todo(Trim(input));
      AppendTodo(todos, todo);
      todos := todos + [todo];
      input := "";
    }

    /** `todos.filter(...)`, by reference. */
    method FilteredTodos() returns (view: seq<Todo>)
      ensures |view| == |Positions(Values(todos), filter)|
      ensures forall k :: 0 <= k < |view| ==>
                Positions(Values(todos), filter)[k] < |todos| && view[k] == todos[Positions(Values(todos), filter)[k]]
    {
      view := [];
      var i := 0;
      while i < |todos|
        invariant 0 <= i <= |todos|
        invariant |view| == |Positions(Values(todos)[..i], filter)|
        invariant forall k :: 0 <= k < |view| ==>
                    Positions(Values(todos)[..i], filter)[k] < i
                    && view[k] == todos[Positions(Values(todos)[..i], filter)[k]]
      {
        assert Values(todos)[..i + 1][..i] == Values(todos)[..i];
        if Visible(filter, todos[i].completed) {
          view := view + [todos[i]];
        }
        i := i + 1;
      }
      assert Values(todos)[..i] == Values(todos);
    }

    /** `todos.indexOf(todo)`: the first position holding this very object, or -1. */
    method IndexOf(todo: Todo) returns (index: int)
      ensures index == -1 ==> todo !in todos
      ensures index != -1 ==> 0 <= index < |todos| && todos[index] == todo && todo !in todos[..index]
    {
      index := 0;
      while index < |todos|
        invariant 0 <= index <= |todos| && todo !in todos[..index]
      {
        if todos[index] == todo {
          return;
        }
        index := index + 1;
      }
      index := -1;
    }

    /** The new array holds the same objects; the todo itself is changed in place. */
    method ToggleTodo(index: int)
      requires Valid() && 0 <= index < |todos|
      modifies todos, `todos
      ensures Valid() && todos == old(todos)
      ensures Values(todos) == ToggleAt(old(Values(todos)), index)
      ensures forall t | t in old(todos) && t != old(todos)[index] :: t.completed == old(t.completed)
    {
      var newTodos := todos;
      newTodos[index].completed := !newTodos[index].completed;
      todos := newTodos;
    }

    /** `todos.filter((_, i) => i !== index)`. */
    method AllBut(index: int) returns (kept: seq<Todo>)
      requires 0 <= index < |todos|
      ensures kept == todos[..index] + todos[index + 1..]
    {
      kept := [];
      var i := 0;
      while i < |todos|
        invariant 0 <= i <= |todos|
        invariant kept == if i <= index then todos[..i] else todos[..index] + todos[index + 1..i]
      {
        if i != index {
          kept := kept + [todos[i]];
        }
        i := i + 1;
      }
    }

    method DeleteTodo(index: int)
      requires Valid() && 0 <= index < |todos|
      modifies `todos
      ensures Valid()
      ensures todos == old(todos)[..index] + old(todos)[index + 1..]
      ensures Values(todos) == DeleteAt(old(Values(todos)), index)
    {
      RemoveTodo(todos, index);
      todos := AllBut(index);
    }

    /** Row k's handler finds the position of its todo again by reference. */
    method RowIndex(k: nat) returns (shown: bool, index: int)
      requires Valid()
      ensures shown <==> k < |Positions(Values(todos), filter)|
      ensures shown ==> 0 <= index < |todos| && index == Positions(Values(todos), filter)[k]
    {
      var view := FilteredTodos();
      shown, index := k < |view|, -1;
      if shown {
        index := IndexOf(view[k]);
      }
    }

    method ClickToggle(k: nat)
      requires Valid()
      modifies todos, `todos
      ensures Valid() && Value() == Next(old(Value()), ToggleRow(k))
      ensures todos == old(todos)
    {
      var shown, index := RowIndex(k);
      if shown {
        ToggleTodo(index);
      }
    }

    method ClickDelete(k: nat)
      requires Valid()
      modifies `todos
      ensures Valid() && Value() == Next(old(Value()), DeleteRow(k))
    {
      var shown, index := RowIndex(k);
      if shown {
        DeleteTodo(index);
      }
    }

    /** One event of the page, with the handlers of the current rendering. */
    method Handle(e: Event)
      requires Valid()
      modifies this, todos
      ensures Valid() && Value() == Next(old(Value()), e)
    {
      match e
      case Type(text) => input := text;
      case ClickAdd => AddTodo();
      case Key(name) =>
        if name == "Enter" {
          AddTodo();
        }
      case Choose(f) => filter := f;
      case ToggleRow(k) => ClickToggle(k);
      case DeleteRow(k) => ClickDelete(k);
    }
  }
}
