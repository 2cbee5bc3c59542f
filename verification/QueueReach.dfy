/** What a run of the grading queue can still come to. */
module QueueReach {
  import opened GradingQueue

  /** The actions can be taken one after another from the state. */
  ghost predicate IsPath(cfg: Config, s: State, acts: seq<Action>)
    decreases |acts|
  {
    acts == [] || (Enabled(s, acts[0]) && IsPath(cfg, Apply(cfg, s, acts[0]), acts[1..]))
  }

  ghost function End(cfg: Config, s: State, acts: seq<Action>): State
    requires IsPath(cfg, s, acts)
    decreases |acts|
  {
    if acts == [] then s else End(cfg, Apply(cfg, s, acts[0]), acts[1..])
  }

  /** Some path from the state ends where the goal holds. */
  ghost predicate Leads(cfg: Config, s: State, goal: State -> bool) {
    exists acts :: IsPath(cfg, s, acts) && goal(End(cfg, s, acts))
  }

  /** Some continuation of the run ends where the goal holds. */
  ghost predicate CanReach(cfg: Config, run: seq<Action>, goal: State -> bool) {
    exists more :: IsRun(cfg, run + more) && goal(After(cfg, run + more))
  }

  lemma LeadsNow(cfg: Config, s: State, goal: State -> bool)
    requires goal(s)
    ensures Leads(cfg, s, goal)
  {
    assert IsPath(cfg, s, []) && End(cfg, s, []) == s;
  }

  lemma LeadsStep(cfg: Config, s: State, a: Action, goal: State -> bool)
    requires Enabled(s, a) && Leads(cfg, Apply(cfg, s, a), goal)
    ensures Leads(cfg, s, goal)
  {
    var t := Apply(cfg, s, a);
    var acts :| IsPath(cfg, t, acts) && goal(End(cfg, t, acts));
    var longer := [a] + acts;
    assert longer[0] == a && longer[1..] == acts;
    assert IsPath(cfg, s, longer) && End(cfg, s, longer) == End(cfg, t, acts);
  }

  lemma {:induction false} PathExtendsRun(cfg: Config, run: seq<Action>, acts: seq<Action>)
    requires IsRun(cfg, run) && IsPath(cfg, After(cfg, run), acts)
    ensures IsRun(cfg, run + acts) && After(cfg, run + acts) == End(cfg, After(cfg, run), acts)
    decreases |acts|
  {
    if acts == [] {
      assert run + acts == run;
    } else {
      var longer := run + [acts[0]];
      assert longer[..|longer| - 1] == run && longer[|longer| - 1] == acts[0];
      assert run + acts == longer + acts[1..];
      PathExtendsRun(cfg, longer, acts[1..]);
    }
  }

  lemma {:induction false} PathAppend(cfg: Config, s: State, acts: seq<Action>, a: Action)
    requires IsPath(cfg, s, acts) && Enabled(End(cfg, s, acts), a)
    ensures IsPath(cfg, s, acts + [a]) && End(cfg, s, acts + [a]) == Apply(cfg, End(cfg, s, acts), a)
    decreases |acts|
  {
    var longer := acts + [a];
    if acts == [] {
      assert longer[1..] == [];
    } else {
      PathAppend(cfg, Apply(cfg, s, acts[0]), acts[1..], a);
      assert longer[1..] == acts[1..] + [a];
    }
  }

  lemma {:induction false} RunIsPath(cfg: Config, run: seq<Action>, more: seq<Action>)
    requires IsRun(cfg, run + more)
    ensures IsRun(cfg, run) && IsPath(cfg, After(cfg, run), more)
    ensures End(cfg, After(cfg, run), more) == After(cfg, run + more)
    decreases |more|
  {
    if more == [] {
      assert run + more == run;
    } else {
      var all, shorter, a := run + more, more[..|more| - 1], more[|more| - 1];
      assert all[..|all| - 1] == run + shorter && all[|all| - 1] == a && more == shorter + [a];
      RunIsPath(cfg, run, shorter);
      PathAppend(cfg, After(cfg, run), shorter, a);
    }
  }

  lemma {:induction false} ReachIsLeads(cfg: Config, run: seq<Action>, goal: State -> bool)
    requires IsRun(cfg, run)
    ensures CanReach(cfg, run, goal) <==> Leads(cfg, After(cfg, run), goal)
  {
    if CanReach(cfg, run, goal) {
      var more :| IsRun(cfg, run + more) && goal(After(cfg, run + more));
      RunIsPath(cfg, run, more);
    }
    if Leads(cfg, After(cfg, run), goal) {
      var acts :| IsPath(cfg, After(cfg, run), acts) && goal(End(cfg, After(cfg, run), acts));
      PathExtendsRun(cfg, run, acts);
    }
  }

  /** Some number is not among finitely many. */
  lemma {:induction false} FreshNumber(keys: set<nat>) returns (n: nat)
    ensures forall k | k in keys :: k < n
    decreases |keys|
  {
    if keys == {} {
      n := 0;
    } else {
      var k :| k in keys;
      n := FreshNumber(keys - {k});
      n := if k < n then n else k + 1;
      assert forall i | i in keys :: i == k || i in keys - {k};
    }
  }
}
