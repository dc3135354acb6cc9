/** The retry schedule of `pollFetch`. */
module Backoff {
  import opened Wrappers

  const MAX_POLL_FAILURES: nat := 4
  const MAX_POLL_BACKOFF_MS: nat := 15000

  function Min(a: nat, b: nat): nat {
    if a < b then a else b
  }

  /** `baseMs * 2 ** n`. */
  function Doubled(baseMs: nat, n: nat): nat {
    if n == 0 then baseMs else 2 * Doubled(baseMs, n - 1)
  }

  /** The wait after the `failures`-th failure of one call. */
  function BackoffMs(baseMs: nat, failures: nat): nat
    requires failures >= 1
  {
    Min(Doubled(baseMs, failures - 1), MAX_POLL_BACKOFF_MS)
  }

  function Sum(s: seq<nat>): nat {
    if s == [] then 0 else Sum(s[..|s| - 1]) + s[|s| - 1]
  }

  /** The waits a call makes that fails `n` times before it settles. */
  function Waits(baseMs: nat, n: nat): (w: seq<nat>)
    ensures |w| == n
    ensures forall k :: 0 <= k < n ==> w[k] == BackoffMs(baseMs, k + 1)
  {
    if n == 0 then [] else Waits(baseMs, n - 1) + [BackoffMs(baseMs, n)]
  }

  lemma {:induction false} DoubledGrows(baseMs: nat, m: nat, n: nat)
    requires m <= n
    ensures Doubled(baseMs, m) <= Doubled(baseMs, n)
  {
    if m < n {
      DoubledGrows(baseMs, m, n - 1);
    }
  }

  /** Waits never shrink. */
  lemma WaitsNondecreasing(baseMs: nat, n: nat, j: nat, k: nat)
    requires j <= k < n
    ensures Waits(baseMs, n)[j] <= Waits(baseMs, n)[k] <= 15000
  {
    DoubledGrows(baseMs, j, k);
  }

  /** However a call goes, it waits at most 15 base intervals, and at most a minute, in total. */
  lemma TotalWaitBounded(baseMs: nat, n: nat)
    requires n <= 4
    ensures Sum(Waits(baseMs, n)) <= Min(15 * baseMs, 60000)
  {
    hide Sum, Waits;
    FirstWaits(baseMs);
    SumStep(baseMs, 0);
    SumStep(baseMs, 1);
    SumStep(baseMs, 2);
    SumStep(baseMs, 3);
  }

  lemma FirstWaits(baseMs: nat)
    ensures BackoffMs(baseMs, 1) == Min(baseMs, 15000)
    ensures BackoffMs(baseMs, 2) == Min(2 * baseMs, 15000)
    ensures BackoffMs(baseMs, 3) == Min(4 * baseMs, 15000)
    ensures BackoffMs(baseMs, 4) == Min(8 * baseMs, 15000)
  {
    assert Doubled(baseMs, 1) == 2 * baseMs;
    assert Doubled(baseMs, 2) == 4 * baseMs;
    assert Doubled(baseMs, 3) == 8 * baseMs;
  }

  lemma SumStep(baseMs: nat, n: nat)
    ensures Sum(Waits(baseMs, 0)) == 0
    ensures Sum(Waits(baseMs, n + 1)) == Sum(Waits(baseMs, n)) + BackoffMs(baseMs, n + 1)
  {
    var w := Waits(baseMs, n + 1);
    assert w[..|w| - 1] == Waits(baseMs, n);
  }

  /** How the attempts of one call go: the answers the injected `fetchJson` would give, in order. */
  type Attempts<T, E> = nat -> Result<T, E>

  /**
    One call of `pollFetch` in a run that is never superseded. It settles with the first answer that succeeds,
    or with the fifth failure; `attempts` and `waits` are what it did on the way.
   */
  method PollFetch<T, E>(answers: Attempts<T, E>, baseMs: nat)
    returns (settled: Result<T, E>, attempts: nat, waits: seq<nat>)
    ensures 1 <= attempts <= 5
    ensures settled == answers(attempts - 1)
    ensures forall i :: 0 <= i < attempts - 1 ==> answers(i).Err?
    ensures settled.Err? <==> attempts == 5 && answers(4).Err?
    ensures |waits| == attempts - 1
    ensures forall k :: 0 <= k < |waits| ==> waits[k] == Min([1, 2, 4, 8][k] * baseMs, 15000)
    ensures Sum(waits) <= Min(15 * baseMs, 60000)
  {
    hide Sum, Min, BackoffMs;
    var failures := 0;
    attempts, waits := 0, [];
    while true
      invariant failures == attempts <= MAX_POLL_FAILURES
      invariant forall i :: 0 <= i < attempts ==> answers(i).Err?
      invariant waits == Waits(baseMs, failures)
      decreases MAX_POLL_FAILURES + 1 - attempts
    {
      settled := answers(attempts);
      attempts := attempts + 1;
      if settled.Ok? {
        break;
      }
      failures := failures + 1;
      if failures > MAX_POLL_FAILURES {
        break;
      }
      waits := waits + [BackoffMs(baseMs, failures)];
    }
    FirstWaits(baseMs);
    TotalWaitBounded(baseMs, attempts - 1);
  }
}
