/** How the aggressive load test pairs its results with the requests they came from. */
module SessionPairing {
  import opened Wrappers
  import opened Seqs

  datatype Reply<V> = Reply(success: bool, value: V)

  function Successes<V>(results: seq<Reply<V>>): seq<Reply<V>> {
    Filter(results, (r: Reply<V>) => r.success)
  }

  /** `results.filter(r => r.success).map((r, i) => ({ ...keys[i], ... }))`. */
  function FilterThenIndex<K, V>(keys: seq<K>, results: seq<Reply<V>>): seq<(K, V)>
    requires |keys| == |results|
  {
    var ok := Successes(results);
    seq(|ok|, i requires 0 <= i < |ok| => (keys[i], ok[i].value))
  }

  /** Each successful result with the key of the request it answers. */
  function IndexPreserving<K, V>(keys: seq<K>, results: seq<Reply<V>>): (r: seq<(K, V)>)
    requires |keys| == |results|
    ensures |r| <= |keys|
  {
    if keys == [] then []
    else
      var n := |keys| - 1;
      IndexPreserving(keys[..n], results[..n]) + (if results[n].success then [(keys[n], results[n].value)] else [])
  }

  /** No failed result precedes a successful one. */
  ghost predicate FailuresLast<V>(results: seq<Reply<V>>) {
    forall i, j :: 0 <= i < j < |results| && results[j].success ==> results[i].success
  }

  lemma {:induction false} SuccessCount<K, V>(keys: seq<K>, results: seq<Reply<V>>)
    requires |keys| == |results|
    ensures |IndexPreserving(keys, results)| == |Successes(results)|
    ensures forall i :: 0 <= i < |Successes(results)| ==>
              IndexPreserving(keys, results)[i].1 == Successes(results)[i].value
    decreases |keys|
  {
    if keys != [] {
      SuccessCount(keys[..|keys| - 1], results[..|keys| - 1]);
    }
  }

  lemma {:induction false} AllSucceed<K, V>(keys: seq<K>, results: seq<Reply<V>>)
    requires |keys| == |results| && forall i :: 0 <= i < |results| ==> results[i].success
    ensures Successes(results) == results
    ensures forall i :: 0 <= i < |keys| ==>
              i < |IndexPreserving(keys, results)| && IndexPreserving(keys, results)[i].0 == keys[i]
    decreases |keys|
  {
    SuccessCount(keys, results);
    if keys != [] {
      AllSucceed(keys[..|keys| - 1], results[..|keys| - 1]);
    }
  }

  /** With the failures last, the i-th success is the i-th result. */
  lemma {:induction false} FailuresLastAgree<K, V>(keys: seq<K>, results: seq<Reply<V>>)
    requires |keys| == |results| && FailuresLast(results)
    ensures forall i :: 0 <= i < |IndexPreserving(keys, results)| ==> IndexPreserving(keys, results)[i].0 == keys[i]
    decreases |keys|
  {
    if keys != [] {
      var n := |keys| - 1;
      if results[n].success {
        AllSucceed(keys, results);
        SuccessCount(keys, results);
      } else {
        FailuresLastAgree(keys[..n], results[..n]);
        assert IndexPreserving(keys, results) == IndexPreserving(keys[..n], results[..n]);
      }
    }
  }

  /** Otherwise some success stands at a later position than its number, and gets another key. */
  lemma {:induction false} FailureShifts<K, V>(keys: seq<K>, results: seq<Reply<V>>)
    requires |keys| == |results| && Distinct(keys) && !FailuresLast(results)
    ensures exists i :: 0 <= i < |IndexPreserving(keys, results)| && IndexPreserving(keys, results)[i].0 != keys[i]
    decreases |keys|
  {
    var n := |keys| - 1;
    var init := IndexPreserving(keys[..n], results[..n]);
    SuccessCount(keys, results);
    SuccessCount(keys[..n], results[..n]);
    if !FailuresLast(results[..n]) {
      FailureShifts(keys[..n], results[..n]);
      var i :| 0 <= i < |init| && init[i].0 != keys[..n][i];
      assert IndexPreserving(keys, results)[i].0 != keys[i];
    } else {
      SomeFailure(results);
      FewerSuccesses(results[..n]);
      assert |init| < n;
      assert IndexPreserving(keys, results)[|init|].0 == keys[n] != keys[|init|];
    }
  }

  lemma SomeFailure<V>(results: seq<Reply<V>>)
    requires !FailuresLast(results) && FailuresLast(results[..|results| - 1])
    ensures results[|results| - 1].success
    ensures exists i :: 0 <= i < |results| - 1 && !results[i].success
  {
    var n := |results| - 1;
    forall i, j | 0 <= i < j < n && results[j].success
      ensures results[i].success
    {
      assert results[..n][j].success;
    }
    var i, j :| 0 <= i < j < |results| && results[j].success && !results[i].success;
  }

  lemma {:induction false} FewerSuccesses<V>(results: seq<Reply<V>>)
    requires exists i :: 0 <= i < |results| && !results[i].success
    ensures |Successes(results)| < |results|
    decreases |results|
  {
    var n := |results| - 1;
    if results[n].success {
      var i :| 0 <= i < |results| && !results[i].success;
      assert results[..n][i] == results[i];
      FewerSuccesses(results[..n]);
    }
  }

  /**
   * For distinct keys the filter-then-index pairing is the right one exactly when no failed result
   * precedes a successful one.
   */
  lemma {:induction false} PairingCorrectIff<K, V>(keys: seq<K>, results: seq<Reply<V>>)
    requires |keys| == |results| && Distinct(keys)
    ensures FilterThenIndex(keys, results) == IndexPreserving(keys, results) <==> FailuresLast(results)
  {
    SuccessCount(keys, results);
    if FailuresLast(results) {
      FailuresLastAgree(keys, results);
      var a, b := FilterThenIndex(keys, results), IndexPreserving(keys, results);
      forall i | 0 <= i < |a|
        ensures a[i] == b[i]
      {
        assert a[i].0 == b[i].0 && a[i].1 == b[i].1;
      }
    } else {
      FailureShifts(keys, results);
      var i :| 0 <= i < |IndexPreserving(keys, results)| && IndexPreserving(keys, results)[i].0 != keys[i];
      assert FilterThenIndex(keys, results)[i].0 == keys[i];
    }
  }

  type Token = Option<string>

  /** Test 1: the sessions (email, token) handed on. */
  function ConcurrentLogins(emails: seq<string>, results: seq<Reply<Token>>): seq<(string, Token)>
    requires |emails| == |results|
  {
    FilterThenIndex(emails, results)
  }

  /** Test 2: the sessions extended with their attempt ids. */
  function ConcurrentExamStart(sessions: seq<(string, Token)>, results: seq<Reply<Token>>)
    : seq<((string, Token), Token)>
    requires |sessions| == |results|
  {
    FilterThenIndex(sessions, results)
  }

  /** Whatever the replies, the sessions handed on have distinct emails. */
  lemma SessionsDistinct(emails: seq<string>, results: seq<Reply<Token>>)
    requires |emails| == |results| && Distinct(emails)
    ensures Distinct(ConcurrentLogins(emails, results))
  {
    var s := ConcurrentLogins(emails, results);
    forall i, j | 0 <= i < j < |s|
      ensures s[i] != s[j]
    {
      assert s[i].0 == emails[i] && s[j].0 == emails[j];
    }
  }

  /**
   * Tokens stay with their credentials exactly when no failed login precedes a successful one; and then,
   * whatever happened at login, attempts stay with their sessions exactly under the same condition on the
   * second set of replies.
   */
  lemma BothStages(emails: seq<string>, logins: seq<Reply<Token>>, starts: seq<Reply<Token>>)
    requires |emails| == |logins| && Distinct(emails)
    requires |starts| == |ConcurrentLogins(emails, logins)|
    ensures ConcurrentLogins(emails, logins) == IndexPreserving(emails, logins) <==> FailuresLast(logins)
    ensures var sessions := ConcurrentLogins(emails, logins);
            ConcurrentExamStart(sessions, starts) == IndexPreserving(sessions, starts) <==> FailuresLast(starts)
  {
    PairingCorrectIff(emails, logins);
    SessionsDistinct(emails, logins);
    PairingCorrectIff(ConcurrentLogins(emails, logins), starts);
  }
}
