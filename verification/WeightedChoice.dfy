/** The weighted random choice of the Azure load test, over exact numbers. */
module WeightedChoice {
  import opened Wrappers

  /** The sum of the first n weights. */
  function Prefix(w: seq<real>, n: nat): real
    requires n <= |w|
  {
    if n == 0 then 0.0 else Prefix(w, n - 1) + w[n - 1]
  }

  /**
   * The loop of `weightedRandom` for the draw `Math.random() * totalWeight`: the first item whose
   * cumulated weight reaches the draw, or the last one as the fallback; an empty list has no answer.
   */
  method WeightedRandom(w: seq<real>, draw: real) returns (choice: Option<nat>)
    ensures choice == None <==> w == []
    ensures choice.Some? ==> choice.value < |w|
    ensures choice.Some? ==> forall k: nat | 0 < k <= choice.value :: Prefix(w, k) < draw
    ensures choice.Some? ==> draw <= Prefix(w, choice.value + 1) || choice.value == |w| - 1
  {
    var random := draw;
    var i: nat := 0;
    while i < |w|
      invariant i <= |w| && random == draw - Prefix(w, i)
      invariant forall k: nat | 0 < k <= i :: Prefix(w, k) < draw
    {
      random := random - w[i];
      if random <= 0.0 {
        return Some(i);
      }
      i := i + 1;
    }
    choice := if w == [] then None else Some(|w| - 1);
  }

  ghost predicate NonNegative(w: seq<real>) {
    forall i :: 0 <= i < |w| ==> w[i] >= 0.0
  }

  /** What the loop promises about its answer. */
  ghost predicate IsChoice(w: seq<real>, draw: real, i: nat) {
    && i < |w|
    && (forall k: nat | 0 < k <= i :: Prefix(w, k) < draw)
    && (draw <= Prefix(w, i + 1) || i == |w| - 1)
  }

  lemma {:induction false} PrefixMonotone(w: seq<real>, m: nat, n: nat)
    requires NonNegative(w) && m <= n <= |w|
    ensures Prefix(w, m) <= Prefix(w, n)
    decreases n
  {
    if m < n {
      PrefixMonotone(w, m, n - 1);
    }
  }

  /**
   * With non-negative weights the positive draws up to the total are divided into one interval per item,
   * (Prefix(i), Prefix(i + 1)], as long as the item's weight, and the draw selects the item of its interval.
   */
  lemma IntervalSelects(w: seq<real>, draw: real, i: nat)
    requires NonNegative(w) && i < |w| && 0.0 < draw <= Prefix(w, |w|)
    ensures IsChoice(w, draw, i) <==> Prefix(w, i) < draw <= Prefix(w, i + 1)
    ensures Prefix(w, i + 1) - Prefix(w, i) == w[i]
  {
    if Prefix(w, i) < draw {
      forall k: nat | 0 < k <= i
        ensures Prefix(w, k) < draw
      {
        PrefixMonotone(w, k, i);
      }
    }
  }

  /** Every draw selects exactly one item, and the fallback is never needed. */
  lemma ChoiceUnique(w: seq<real>, draw: real, i: nat, j: nat)
    requires NonNegative(w) && 0.0 <= draw <= Prefix(w, |w|)
    requires IsChoice(w, draw, i) && IsChoice(w, draw, j)
    ensures i == j && draw <= Prefix(w, i + 1)
    ensures draw == 0.0 ==> i == 0
  {
    PrefixMonotone(w, 0, 1);
    PrefixMonotone(w, i + 1, |w|);
    PrefixMonotone(w, j + 1, |w|);
    assert i > 0 ==> Prefix(w, 1) < draw;
  }
}
