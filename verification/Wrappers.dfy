/** Option and Result, and an append-only log used as a history of what happened. */
module Wrappers {

  datatype Option<+T> = None | Some(value: T) {
    function GetOr(default: T): T {
      if Some? then value else default
    }
  }

  datatype Result<+T, +E> = Ok(value: T) | Err(error: E)
}

/** Append-only histories. `Snoc` adds at the end, so the last thing that happened is outermost. */
module Histories {

  datatype Log<T> = Empty | Snoc(past: Log<T>, last: T)

  /** `pattern` occurs in `log` in this order (not necessarily adjacent). */
  predicate InOrder<T(==)>(pattern: seq<T>, log: Log<T>)
    decreases log
  {
    if pattern == [] then true
    else
      match log
      case Empty => false
      case Snoc(past, last) =>
        || InOrder(pattern, past)
        || (pattern[|pattern| - 1] == last && InOrder(pattern[..|pattern| - 1], past))
  }

  /** Histories only grow, and what was in order stays in order. */
  lemma InOrderPush<T>(pattern: seq<T>, log: Log<T>, x: T)
    ensures InOrder(pattern, log) ==> InOrder(pattern, Snoc(log, x))
    ensures InOrder(pattern, log) ==> InOrder(pattern + [x], Snoc(log, x))
  {
    assert (pattern + [x])[..|pattern|] == pattern;
  }

  predicate Contains<T(==)>(log: Log<T>, x: T) {
    match log
    case Empty => false
    case Snoc(past, last) => last == x || Contains(past, x)
  }

  /** Events at distinct places of a log: what `InOrder` means, spelled out for two neighbours. */
  lemma {:induction false} InOrderContains<T>(pattern: seq<T>, log: Log<T>, i: nat)
    requires InOrder(pattern, log) && i < |pattern|
    ensures Contains(log, pattern[i])
    decreases log
  {
    match log
    case Empty =>
    case Snoc(past, last) =>
      if InOrder(pattern, past) {
        InOrderContains(pattern, past, i);
      } else if i < |pattern| - 1 {
        InOrderContains(pattern[..|pattern| - 1], past, i);
      }
  }
}
