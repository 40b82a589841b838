/** Small notions that several components share. */
module Prelude {
  datatype Option<+T> = None | Some(value: T) {
    predicate IsFailure() { None? }

    function PropagateFailure<U>(): Option<U>
      requires None?
    {
      None
    }

    function Extract(): T
      requires Some?
    {
      value
    }

    function UnwrapOr(default: T): T {
      if Some? then value else default
    }
  }

  function Sum(xs: seq<real>): real {
    if xs == [] then 0.0 else Sum(xs[..|xs| - 1]) + xs[|xs| - 1]
  }

  /** The last n elements, or all of them. */
  ghost function Last<T>(xs: seq<T>, n: nat): seq<T> {
    if |xs| <= n then xs else xs[|xs| - n..]
  }

  /** Times recorded by a clock that does not run backwards. */
  ghost predicate Ordered(times: seq<int>) {
    forall i, j | 0 <= i < j < |times| :: times[i] <= times[j]
  }

  lemma Regroup<T>(a: seq<T>, b: seq<T>, c: seq<T>)
    ensures (a + b) + c == a + (b + c)
  {
  }

  ghost predicate NoRepeats<T>(xs: seq<T>) {
    forall i, j | 0 <= i < j < |xs| :: xs[i] != xs[j]
  }

  // ----- counters by key; a missing key counts as zero -----

  function Tally<K>(counters: map<K, nat>, k: K): nat {
    if k in counters then counters[k] else 0
  }

  function Bump<K>(counters: map<K, nat>, k: K): map<K, nat> {
    counters[k := Tally(counters, k) + 1]
  }

  function BumpAll<K>(counters: map<K, nat>, ks: seq<K>): map<K, nat> {
    if ks == [] then counters else Bump(BumpAll(counters, ks[..|ks| - 1]), ks[|ks| - 1])
  }

  lemma {:induction false} BumpAllTally<K>(counters: map<K, nat>, ks: seq<K>, k: K)
    ensures Tally(BumpAll(counters, ks), k) == Tally(counters, k) + multiset(ks)[k]
  {
    if ks == [] {
    } else {
      BumpAllTally(counters, ks[..|ks| - 1], k);
      assert ks == ks[..|ks| - 1] + [ks[|ks| - 1]];
    }
  }
}
