/** Which client address each user of the realistic load test gets in its two phases. */
module Addresses {
  import opened Seqs
  import opened FakeIp
  import opened Batches

  /** Phase 1 registers user i from FakeIP(i); its users are listed as their registrations completed. */
  function RegisteredFrom(completed: seq<nat>): seq<string> {
    Map(completed, FakeIP)
  }

  /** Phase 2 logs in the user at position k of that list from FakeIP(k). */
  function LoggedInFrom(completed: seq<nat>): seq<string> {
    Map(Range(0, |completed|), FakeIP)
  }

  lemma OrderDistinct(order: seq<nat>, n: nat)
    requires multiset(order) == multiset(Range(0, n))
    ensures Distinct(order)
  {
    forall i, j | 0 <= i < j < |order|
      ensures order[i] != order[j]
    {
      RangeOnce(n, order[i]);
      CountsTwice(order, i, j);
    }
  }

  lemma CountsTwice(s: seq<nat>, i: nat, j: nat)
    requires i < j < |s|
    ensures s[i] == s[j] ==> multiset(s)[s[i]] >= 2
  {
    assert s == s[..i] + [s[i]] + s[i + 1..j] + [s[j]] + s[j + 1..];
  }

  lemma {:induction false} RangeOnce(n: nat, x: nat)
    ensures multiset(Range(0, n))[x] == if x < n then 1 else 0
    decreases n
  {
    if n > 0 {
      RangeOnce(n - 1, x);
      assert Range(0, n) == Range(0, n - 1) + [n - 1];
    }
  }

  /** Whatever order the registrations complete in, no two users share an address within a phase. */
  lemma AddressesDistinctPerPhase(completed: seq<nat>, n: nat)
    requires multiset(completed) == multiset(Range(0, n))
    ensures Distinct(RegisteredFrom(completed)) && Distinct(LoggedInFrom(completed))
  {
    OrderDistinct(completed, n);
    forall i, j | 0 <= i < j < |completed|
      ensures RegisteredFrom(completed)[i] != RegisteredFrom(completed)[j]
      ensures LoggedInFrom(completed)[i] != LoggedInFrom(completed)[j]
    {
      FakeIPInjective(completed[i], completed[j]);
      FakeIPInjective(i, j);
    }
  }

  /** Every user keeps the address exactly when the registrations completed in the order of the indices. */
  lemma SameAddressIff(completed: seq<nat>)
    ensures RegisteredFrom(completed) == LoggedInFrom(completed) <==> completed == Range(0, |completed|)
  {
    forall k | 0 <= k < |completed|
      ensures RegisteredFrom(completed)[k] == LoggedInFrom(completed)[k] <==> completed[k] == k
    {
      FakeIPInjective(completed[k], k);
    }
    if RegisteredFrom(completed) == LoggedInFrom(completed) {
      forall k | 0 <= k < |completed|
        ensures completed[k] == Range(0, |completed|)[k]
      {
        assert RegisteredFrom(completed)[k] == LoggedInFrom(completed)[k];
      }
    }
  }
}
