/**
 The two loops that wait for the Elixir server: a `while` loop in one server, a `for` loop in
 the other.
 */
module Backoff {
  import opened Common

  /** What a caller sees of a wait: the result, the number of attempts, and the sleeps. */
  datatype Wait = Wait(connected: bool, attempts: nat, sleeps: seq<real>)

  function Min(a: real, b: real): real {
    if a <= b then a else b
  }

  /** The first `n` delays. */
  function Delays(initial: real, n: nat): (delays: seq<real>)
    ensures |delays| == n
  {
    if n == 0 then [] else Delays(initial, n - 1) + [DelayAt(initial, n - 1)]
  }

  function DelayAt(initial: real, k: nat): real {
    if k == 0 then initial else Min(DelayAt(initial, k - 1) * 2.0, 2.0)
  }

  /** `n` is the position of the first ping that is answered. */
  predicate FirstAnswer(pings: nat -> bool, n: nat) {
    pings(n) && forall i :: 0 <= i < n ==> !pings(i)
  }

  /** The wait when `tries >= 1` attempts are allowed. */
  ghost predicate Expected(pings: nat -> bool, tries: nat, initial: real, w: Wait)
    requires tries >= 1
  {
    if exists n :: 0 <= n < tries && pings(n) then
      w.connected && 1 <= w.attempts <= tries && FirstAnswer(pings, w.attempts - 1)
      && w.sleeps == Delays(initial, w.attempts - 1)
    else
      w == Wait(false, tries, Delays(initial, tries - 1))
  }

  lemma ExpectedIsUnique(pings: nat -> bool, tries: nat, initial: real, v: Wait, w: Wait)
    requires tries >= 1 && Expected(pings, tries, initial, v) && Expected(pings, tries, initial, w)
    ensures v == w
  {
    if exists n :: 0 <= n < tries && pings(n) {
      var m, n := v.attempts - 1, w.attempts - 1;
      assert FirstAnswer(pings, m) && FirstAnswer(pings, n);
      assert !(m < n) && !(n < m);
    }
  }

  /** The `while` loop.  Without a bound it ends only if the server comes up. */
  method WaitWhile(pings: nat -> bool, maxRetries: Option<int>, initial: real) returns (w: Wait)
    requires maxRetries.None? ==> exists n :: pings(n)
    ensures maxRetries.Some? && maxRetries.value >= 1 ==> Expected(pings, maxRetries.value, initial, w)
    ensures maxRetries.Some? && maxRetries.value < 1 ==> w == Wait(pings(0), 1, [])
    ensures maxRetries.None? ==>
              w.connected && w.attempts >= 1 && FirstAnswer(pings, w.attempts - 1)
              && w.sleeps == Delays(initial, w.attempts - 1)
  {
    ghost var bound: nat;
    if maxRetries.None? {
      bound :| pings(bound);
    } else {
      bound := if maxRetries.value >= 1 then maxRetries.value else 1;
    }
    var delay := initial;
    var attempt := 1;
    var sleeps := [];
    while true
      invariant 1 <= attempt <= bound + 1
      invariant forall i :: 0 <= i < attempt - 1 ==> !pings(i)
      invariant delay == DelayAt(initial, attempt - 1) && sleeps == Delays(initial, attempt - 1)
      invariant maxRetries.Some? && attempt > 1 ==> attempt <= maxRetries.value
      decreases bound + 1 - attempt
    {
      if pings(attempt - 1) {
        assert FirstAnswer(pings, attempt - 1);
        return Wait(true, attempt, sleeps);
      }
      if maxRetries.Some? && attempt >= maxRetries.value {
        return Wait(false, attempt, sleeps);
      }
      sleeps := sleeps + [delay];
      delay := Min(delay * 2.0, 2.0);
      attempt := attempt + 1;
    }
  }

  /** The `for` loop. */
  method WaitFor(pings: nat -> bool, maxRetries: int, initial: real) returns (w: Wait)
    ensures maxRetries >= 1 ==> Expected(pings, maxRetries, initial, w)
    ensures maxRetries < 1 ==> w == Wait(false, 0, [])
  {
    var delay := initial;
    var sleeps := [];
    var attempt := 1;
    while attempt <= maxRetries
      invariant attempt == 1 || attempt <= maxRetries
      invariant attempt >= 1 && forall i :: 0 <= i < attempt - 1 ==> !pings(i)
      invariant delay == DelayAt(initial, attempt - 1) && sleeps == Delays(initial, attempt - 1)
      decreases maxRetries - attempt
    {
      if pings(attempt - 1) {
        assert FirstAnswer(pings, attempt - 1);
        return Wait(true, attempt, sleeps);
      }
      if attempt < maxRetries {
        sleeps := sleeps + [delay];
        delay := Min(delay * 2.0, 2.0);
      } else {
        return Wait(false, attempt, sleeps);
      }
      attempt := attempt + 1;
    }
    return Wait(false, 0, []);
  }

  /** The loops agree on all sequences of pings if and only if at least one retry is allowed:
      otherwise the `while` loop still pings once, and the `for` loop does not. */
  method LoopsAgreeIff(pings: nat -> bool, maxRetries: int, initial: real) returns (v: Wait, w: Wait)
    ensures v == w <==> maxRetries >= 1
  {
    v := WaitWhile(pings, Some(maxRetries), initial);
    w := WaitFor(pings, maxRetries, initial);
    if maxRetries >= 1 {
      ExpectedIsUnique(pings, maxRetries, initial, v, w);
    }
  }

  function Power(n: nat): nat {
    if n == 0 then 1 else 2 * Power(n - 1)
  }

  function Doubled(initial: real, k: nat): real {
    if k == 0 then initial else 2.0 * Doubled(initial, k - 1)
  }

  lemma {:induction false} DoubledIsPower(initial: real, k: nat)
    ensures Doubled(initial, k) == initial * Power(k) as real
  {
    if k > 0 {
      DoubledIsPower(initial, k - 1);
    }
  }

  /** For an initial delay of at most two seconds, the k-th sleep is the initial delay doubled k
      times, or two seconds if that is less. */
  lemma {:induction false} DelayIsCappedDoubling(initial: real, k: nat)
    requires 0.0 <= initial <= 2.0
    ensures DelayAt(initial, k) == Min(Doubled(initial, k), 2.0)
    ensures Doubled(initial, k) == initial * Power(k) as real
    ensures 0.0 <= DelayAt(initial, k) <= 2.0
  {
    DoubledIsPower(initial, k);
    if k > 0 {
      DelayIsCappedDoubling(initial, k - 1);
    }
  }

  /** The sleeps of a wait, one for each attempt but the last: the k-th is the initial delay doubled
      k times, or two seconds if that is less. */
  lemma SleepsOfWait(pings: nat -> bool, tries: nat, initial: real, w: Wait)
    requires 0.0 <= initial <= 2.0 && tries >= 1 && Expected(pings, tries, initial, w)
    ensures |w.sleeps| == w.attempts - 1
    ensures forall k :: 0 <= k < |w.sleeps| ==>
              w.sleeps[k] == if initial * Power(k) as real <= 2.0 then initial * Power(k) as real else 2.0
  {
    forall k | 0 <= k < |w.sleeps|
      ensures w.sleeps[k] == if initial * Power(k) as real <= 2.0 then initial * Power(k) as real else 2.0
    {
      DelaysInOrder(initial, |w.sleeps|, k);
      DelayIsCappedDoubling(initial, k);
    }
  }

  lemma {:induction false} DelaysInOrder(initial: real, n: nat, k: nat)
    requires k < n
    ensures Delays(initial, n)[k] == DelayAt(initial, k)
  {
    if k < n - 1 {
      DelaysInOrder(initial, n - 1, k);
    }
  }

  lemma {:induction false} PowerLaws(n: nat)
    ensures Power(0) == 1 && Power(n + 1) == 2 * Power(n) && Power(n) >= 1
  {
    if n > 0 {
      PowerLaws(n - 1);
    }
  }

  lemma {:induction false} NoDelayIsShorter(initial: real, k: nat)
    requires 0.0 <= initial <= 2.0
    ensures initial <= DelayAt(initial, k) <= 2.0
  {
    if k > 0 {
      NoDelayIsShorter(initial, k - 1);
    }
  }

  function Sum(delays: seq<real>): real {
    if delays == [] then 0.0 else Sum(delays[..|delays| - 1]) + delays[|delays| - 1]
  }

  /** So a wait of n attempts sleeps for at most 2 (n - 1) seconds, and for no less than the initial
      delay if it sleeps at all. */
  lemma {:induction false} TotalSleepIsBounded(initial: real, n: nat)
    requires 0.0 <= initial <= 2.0
    ensures 0.0 <= Sum(Delays(initial, n)) <= 2.0 * n as real
    ensures n > 0 ==> initial <= Sum(Delays(initial, n))
  {
    if n > 0 {
      TotalSleepIsBounded(initial, n - 1);
      NoDelayIsShorter(initial, n - 1);
      assert Delays(initial, n)[..n - 1] == Delays(initial, n - 1);
    }
  }

  /** Sums add up over any division. */
  lemma {:induction false} SumConcat(front: seq<real>, back: seq<real>)
    ensures Sum([]) == 0.0 && (|back| == 1 ==> Sum(back) == back[0])
    ensures Sum(front + back) == Sum(front) + Sum(back)
    decreases |back|
  {
    if back == [] {
      assert front + back == front;
    } else {
      var init := back[..|back| - 1];
      SumConcat(front, init);
      assert (front + back)[..|front + back| - 1] == front + init;
    }
  }
}
