/** What a user of the TodoList sees, whatever the texts and the filter. */
module TodoTheorems {
  import opened Seqs
  import opened TextTrim
  import opened TodoList

  function Shown(f: Choice): Item -> bool {
    (item: Item) => Visible(f, item.completed)
  }

  /** The rows on the screen. */
  function View(p: Page): seq<Item> {
    Filter(p.items, Shown(p.filter))
  }

  /** Row k shows the item at position k of the visible positions, with k rows above it. */
  lemma {:induction false} RowShows(items: seq<Item>, f: Choice, k: nat)
    requires k < |Positions(items, f)|
    ensures |Filter(items, Shown(f))| == |Positions(items, f)|
    ensures Positions(items, f)[k] < |items|
    ensures Filter(items, Shown(f))[k] == items[Positions(items, f)[k]]
    ensures |Filter(items[..Positions(items, f)[k]], Shown(f))| == k
    decreases |items|
  {
    var n := |items| - 1;
    RowCount(items[..n], f);
    if k < |Positions(items[..n], f)| {
      RowShows(items[..n], f, k);
      assert items[..n][..Positions(items, f)[k]] == items[..Positions(items, f)[k]];
    }
  }

  lemma {:induction false} RowCount(items: seq<Item>, f: Choice)
    ensures |Filter(items, Shown(f))| == |Positions(items, f)|
    decreases |items|
  {
    if items != [] {
      RowCount(items[..|items| - 1], f);
    }
  }

  /** Every text on the page is trimmed and not empty. */
  ghost predicate ProperPage(p: Page) {
    forall i :: 0 <= i < |p.items| ==> ProperText(p.items[i].text)
  }

  lemma NextProper(p: Page, e: Event)
    requires ProperPage(p)
    ensures ProperPage(Next(p, e))
  {
    TrimProper(p.input);
  }

  /** The text without the white space around it, which is not empty. */
  ghost predicate Core(s: string, t: string) {
    && t != "" && !IsSpace(t[0]) && !IsSpace(t[|t| - 1])
    && exists a, b :: s == a + t + b && Blank(a) && Blank(b)
  }

  /**
   * Adding a text that is not blank puts one active item at the end, its text the core of the typed one, clears
   * the input and keeps the filter; adding a blank text changes nothing.
   */
  lemma AddByField(p: Page, e: Event)
    requires e == ClickAdd || e == Key("Enter")
    ensures var q, n := Next(p, e), |p.items|;
            if Blank(p.input) then q == p
            else
              && |q.items| == n + 1 && q.items[..n] == p.items
              && !q.items[n].completed && Core(p.input, q.items[n].text)
              && q.input == "" && q.filter == p.filter
  {
    TrimProper(p.input);
  }

  /** The core runs from the first to the last character that is not white space. */
  lemma CoreSpan(s: string, t: string) returns (m: nat)
    requires Core(s, t)
    ensures m + |t| <= |s| && t == s[m..m + |t|]
    ensures !IsSpace(s[m]) && !IsSpace(s[m + |t| - 1])
    ensures forall i :: 0 <= i < |s| && !IsSpace(s[i]) ==> m <= i < m + |t|
  {
    var a, b :| s == a + t + b && Blank(a) && Blank(b);
    m := |a|;
    assert s[m..m + |t|] == t;
    assert s[..m] == a && s[m + |t|..] == b;
  }

  /** A text has one core, so that is the only text the new item can have. */
  lemma CoreUnique(s: string, t: string, u: string)
    requires Core(s, t) && Core(s, u)
    ensures t == u
  {
    var m := CoreSpan(s, t);
    var n := CoreSpan(s, u);
    assert m == n;
  }

  function Play(events: seq<Event>): Page {
    if events == [] then Page([], "", All) else Next(Play(events[..|events| - 1]), events[|events| - 1])
  }

  /** Whatever the user does, no blank or untrimmed todo is ever on the list. */
  lemma {:induction false} AlwaysProper(events: seq<Event>)
    ensures ProperPage(Play(events))
    decreases |events|
  {
    if events != [] {
      AlwaysProper(events[..|events| - 1]);
      NextProper(Play(events[..|events| - 1]), events[|events| - 1]);
    }
  }

  /** Row k shows an item the filter lets through, and acting on it touches that item only. */
  lemma ToggleTouchesOneItem(p: Page, k: nat)
    requires k < |Positions(p.items, p.filter)|
    ensures var q, i := Next(p, ToggleRow(k)), RowAt(p, k);
            && k < |View(p)| && View(p)[k] == p.items[i] && Visible(p.filter, p.items[i].completed)
            && |q.items| == |p.items|
            && q.items[i] == Item(p.items[i].text, !p.items[i].completed)
            && (forall l :: 0 <= l < |p.items| && l != i ==> q.items[l] == p.items[l])
            && q.input == p.input && q.filter == p.filter
  {
    PositionsExact(p.items, p.filter);
    RowShows(p.items, p.filter, k);
    assert RowAt(p, k) in Positions(p.items, p.filter);
  }

  /** Deleting row k takes exactly that item out and keeps the order of the others, on the list and in the view. */
  lemma DeleteTakesOneRow(p: Page, k: nat)
    requires k < |Positions(p.items, p.filter)|
    ensures var q, i := Next(p, DeleteRow(k)), RowAt(p, k);
            && q.items == p.items[..i] + p.items[i + 1..]
            && k < |View(p)| && View(q) == View(p)[..k] + View(p)[k + 1..]
  {
    var i := RowAt(p, k);
    RowShows(p.items, p.filter, k);
    PositionsExact(p.items, p.filter);
    assert i in Positions(p.items, p.filter);
    DeletedView(p.items, Shown(p.filter), i, k);
  }

  lemma DeletedView(items: seq<Item>, show: Item -> bool, i: nat, k: nat)
    requires i < |items| && show(items[i]) && |Filter(items[..i], show)| == k
    ensures k < |Filter(items, show)|
    ensures Filter(DeleteAt(items, i), show) == Filter(items, show)[..k] + Filter(items, show)[k + 1..]
  {
    assert (items[..i] + [items[i]]) + items[i + 1..] == items;
    ViewWithout(items[..i], items[i], items[i + 1..], show);
  }

  /** Taking out one shown item takes its row out of the view. */
  lemma ViewWithout(before: seq<Item>, x: Item, after: seq<Item>, show: Item -> bool)
    requires show(x)
    ensures var k, view := |Filter(before, show)|, Filter(before + [x] + after, show);
            k < |view| && Filter(before + after, show) == view[..k] + view[k + 1..]
  {
    FilterSplit(before, x, after, show);
    FilterConcat(before, after, show);
  }

  /** The active and the completed rows share no item and together are all items. */
  lemma {:induction false} ViewsPartition(items: seq<Item>)
    ensures forall i: nat :: i < |items| ==> (i in Positions(items, Active) <==> i !in Positions(items, Completed))
    ensures |Positions(items, Active)| + |Positions(items, Completed)| == |items|
    ensures Positions(items, All) == seq(|items|, i requires 0 <= i < |items| => i)
    decreases |items|
  {
    PositionsExact(items, Active);
    PositionsExact(items, Completed);
    if items != [] {
      ViewsPartition(items[..|items| - 1]);
    }
  }

  /** `todos.filter(t => !t.completed).length`. */
  function Remaining(items: seq<Item>): nat {
    if items == [] then 0
    else Remaining(items[..|items| - 1]) + (if items[|items| - 1].completed then 0 else 1)
  }

  /** The remaining count is the length of the active view. */
  lemma {:induction false} RemainingIsActive(items: seq<Item>)
    ensures Remaining(items) == |Positions(items, Active)|
    decreases |items|
  {
    if items != [] {
      RemainingIsActive(items[..|items| - 1]);
    }
  }

  /**
   * Clicking the same row twice restores the page exactly under the filter "all". Under the other filters
   * the first click takes the item out of the view, so the second one acts on another item or on none.
   */
  lemma ToggleRowTwiceRestoresIff(p: Page, k: nat)
    requires k < |Positions(p.items, p.filter)|
    ensures Next(Next(p, ToggleRow(k)), ToggleRow(k)) == p <==> p.filter == All
  {
    var i, q := RowAt(p, k), Next(p, ToggleRow(k));
    PositionsExact(p.items, p.filter);
    PositionsExact(q.items, q.filter);
    assert i in Positions(p.items, p.filter);
    if p.filter == All {
      ViewsPartition(p.items);
      ViewsPartition(q.items);
      assert RowAt(q, k) == i;
      assert ToggleAt(ToggleAt(p.items, i), i) == p.items;
    } else {
      assert i !in Positions(q.items, q.filter);
      var r := Next(q, ToggleRow(k));
      if k < |Positions(q.items, q.filter)| {
        assert RowAt(q, k) in Positions(q.items, q.filter);
        assert RowAt(q, k) != i;
      }
      assert r.items[i].completed != p.items[i].completed;
    }
  }
}
