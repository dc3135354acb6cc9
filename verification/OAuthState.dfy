/** The single-use, expiring `state` values of the consent flow, with a background sweeper. Times in milliseconds. */
module OAuthState {
  import opened Wrappers
  import opened Histories

  const STATE_TTL: int := 10 * 60 * 1000

  datatype Entry = Entry(user: string, expiresAt: int)

  type Entries = map<string, Entry>

  datatype Op =
    | Create(state: string, user: string, now: int)
    | Consume(state: string, now: int)
    | Sweep(now: int)

  // ----- what each operation does to the map -----

  predicate Alive(e: Entry, now: int) {
    now <= e.expiresAt
  }

  function Created(m: Entries, state: string, user: string, now: int): Entries {
    m[state := Entry(user, now + STATE_TTL)]
  }

  function ConsumeResult(m: Entries, state: string, now: int): Option<string> {
    if state in m && Alive(m[state], now) then Some(m[state].user) else None
  }

  function Swept(m: Entries, now: int): Entries {
    map state | state in m && Alive(m[state], now) :: m[state]
  }

  function Apply(m: Entries, op: Op): Entries {
    match op
    case Create(state, user, now) => Created(m, state, user, now)
    case Consume(state, _) => m - {state}
    case Sweep(now) => Swept(m, now)
  }

  function After(log: Log<Op>): Entries {
    match log
    case Empty => map[]
    case Snoc(past, op) => Apply(After(past), op)
  }

  // ----- the store -----

  class StateStore {
    var entries: Entries

    constructor ()
      ensures entries == map[]
    {
      entries := map[];
    }

    /** `random` is the fresh state, if the random source delivers one. */
    method Create(user: string, random: Option<string>, now: int) returns (r: Result<string, string>)
      modifies this
      ensures random.None? ==> r.Err? && entries == old(entries)
      ensures random.Some? ==> r == Ok(random.value) && entries == old(entries)[random.value := Entry(user, now + 600000)]
      ensures random.Some? ==> entries == Apply(old(entries), Op.Create(random.value, user, now))
    {
      match random
      case None => return Err("no randomness");
      case Some(state) =>
        entries := entries[state := Entry(user, now + STATE_TTL)];
        return Ok(state);
    }

    method Consume(state: string, now: int) returns (user: string, ok: bool)
      modifies this
      ensures entries == old(entries) - {state}
      ensures ok <==> state in old(entries) && now <= old(entries)[state].expiresAt
      ensures ok ==> user == old(entries)[state].user
      ensures entries == Apply(old(entries), Op.Consume(state, now))
      ensures (if ok then Some(user) else None) == ConsumeResult(old(entries), state, now)
      ensures !ok ==> user == ""
    {
      if state !in entries {
        return "", false;
      }
      var e := entries[state];
      entries := entries - {state};
      if now > e.expiresAt {
        return "", false;
      }
      return e.user, true;
    }

    /** Deletes while it ranges over the keys, in any order. */
    method Sweep(now: int)
      modifies this
      ensures forall state :: state in entries <==> state in old(entries) && now <= old(entries)[state].expiresAt
      ensures forall state <- entries :: entries[state] == old(entries)[state]
      ensures entries == Apply(old(entries), Op.Sweep(now))
    {
      var rest := entries.Keys;
      while rest != {}
        invariant rest <= entries.Keys <= old(entries).Keys
        invariant forall k <- old(entries) ::
            if k in rest || Alive(old(entries)[k], now) then k in entries && entries[k] == old(entries)[k] else k !in entries
        decreases |rest|
      {
        var k :| k in rest;
        rest := rest - {k};
        if now > entries[k].expiresAt {
          entries := entries - {k};
        }
      }
    }
  }

  // ----- the meaning of a history, without any map and without sweeps -----

  /** To whom a state was issued, and when. */
  datatype Issue = Issue(user: string, at: int) {
    /** Ten minutes have not passed. */
    predicate InTime(now: int) {
      now <= at + 600000
    }
  }

  /** The issue that a consume of `state` would use up: the last one, if it was not used up yet. */
  function Outstanding(log: Log<Op>, state: string): Option<Issue> {
    match log
    case Empty => None
    case Snoc(past, Create(s, user, now)) => if s == state then Some(Issue(user, now)) else Outstanding(past, state)
    case Snoc(past, Consume(s, _)) => if s == state then None else Outstanding(past, state)
    case Snoc(past, Sweep(_)) => Outstanding(past, state)
  }

  /** A sweep since the outstanding issue saw a clock more than ten minutes later. */
  predicate SweptAway(log: Log<Op>, state: string) {
    match log
    case Empty => false
    case Snoc(past, Create(s, _, _)) => s != state && SweptAway(past, state)
    case Snoc(past, Consume(s, _)) => s != state && SweptAway(past, state)
    case Snoc(past, Sweep(now)) =>
      SweptAway(past, state) || (Outstanding(past, state).Some? && !Outstanding(past, state).value.InTime(now))
  }

  /** The map holds exactly the outstanding issues that no sweep has caught. */
  lemma {:induction false} EntriesAre(log: Log<Op>, state: string)
    ensures var held := Outstanding(log, state);
            && (state in After(log) <==> held.Some? && !SweptAway(log, state))
            && (state in After(log) ==> After(log)[state] == Entry(held.value.user, held.value.at + 600000))
    decreases log
  {
    if log.Snoc? {
      EntriesAre(log.past, state);
    }
  }

  /**
    Whatever the clock does: a consume succeeds for `user` exactly if the last issue of the state was to `user`, was not
    used up, has not expired, and no sweep in between saw a clock beyond its expiry.
   */
  lemma ConsumeSucceedsIff(log: Log<Op>, state: string, now: int, user: string)
    ensures ConsumeResult(After(log), state, now) == Some(user) <==>
            && Outstanding(log, state).Some? && Outstanding(log, state).value.user == user
            && Outstanding(log, state).value.InTime(now) && !SweptAway(log, state)
  {
    EntriesAre(log, state);
  }

  function Clock(op: Op): int {
    op.now
  }

  /** Clocks do not go back; none in `log` is beyond `now`. */
  predicate Monotone(log: Log<Op>, now: int) {
    match log
    case Empty => true
    case Snoc(past, op) => Clock(op) <= now && Monotone(past, Clock(op))
  }

  lemma {:induction false} SweptAwayIsExpired(log: Log<Op>, state: string, now: int)
    requires Monotone(log, now) && Outstanding(log, state).Some? && SweptAway(log, state)
    ensures !Outstanding(log, state).value.InTime(now)
    decreases log
  {
    if SweptAway(log.past, state) && Outstanding(log.past, state) == Outstanding(log, state) {
      SweptAwayIsExpired(log.past, state, Clock(log.last));
    }
  }

  /** Under a monotone clock the sweeper does not matter, and states need not even be fresh. */
  lemma ConsumeMeans(log: Log<Op>, state: string, now: int)
    requires Monotone(log, now)
    ensures ConsumeResult(After(log), state, now) ==
            match Outstanding(log, state)
            case None => None
            case Some(issue) => if issue.InTime(now) then Some(issue.user) else None
  {
    EntriesAre(log, state);
    if Outstanding(log, state).Some? && SweptAway(log, state) {
      SweptAwayIsExpired(log, state, now);
    }
  }

  // ----- sweeping is unobservable -----

  function WithoutSweeps(log: Log<Op>): Log<Op> {
    match log
    case Empty => Empty
    case Snoc(past, op) => if op.Sweep? then WithoutSweeps(past) else Snoc(WithoutSweeps(past), op)
  }

  /** What the consumes of a history returned, in order. */
  function Returned(log: Log<Op>): seq<Option<string>> {
    match log
    case Empty => []
    case Snoc(past, Consume(state, now)) => Returned(past) + [ConsumeResult(After(past), state, now)]
    case Snoc(past, _) => Returned(past)
  }

  lemma {:induction false} SameOutstanding(log: Log<Op>, state: string)
    ensures Outstanding(WithoutSweeps(log), state) == Outstanding(log, state)
    ensures !SweptAway(WithoutSweeps(log), state)
    decreases log
  {
    if log.Snoc? {
      SameOutstanding(log.past, state);
    }
  }

  /** For every history with a monotone clock: all consumes return the same with all sweeps removed. */
  lemma {:induction false} SweepingIsUnobservable(log: Log<Op>, now: int)
    requires Monotone(log, now)
    ensures Returned(log) == Returned(WithoutSweeps(log))
    decreases log
  {
    if log.Snoc? {
      SweepingIsUnobservable(log.past, Clock(log.last));
      if log.last.Consume? {
        SameConsume(log.past, log.last.state, log.last.now);
      }
    }
  }

  lemma SameConsume(log: Log<Op>, state: string, now: int)
    requires Monotone(log, now)
    ensures ConsumeResult(After(log), state, now) == ConsumeResult(After(WithoutSweeps(log)), state, now)
  {
    ConsumeMeans(log, state, now);
    SameOutstanding(log, state);
    EntriesAre(WithoutSweeps(log), state);
  }

  /** On any clock: a consume sees the sweeper exactly if it comes before the expiry and a sweep has seen a later clock. */
  lemma SweepSeenIff(log: Log<Op>, state: string, now: int)
    ensures ConsumeResult(After(log), state, now) != ConsumeResult(After(WithoutSweeps(log)), state, now) <==>
            Outstanding(log, state).Some? && Outstanding(log, state).value.InTime(now) && SweptAway(log, state)
  {
    EntriesAre(log, state);
    SameOutstanding(log, state);
    EntriesAre(WithoutSweeps(log), state);
  }

  /** A clock that goes back makes the sweeper observable: the condition cannot be dropped. */
  lemma SweepSeenWhenClockGoesBack(state: string, user: string)
    ensures var log := Snoc(Snoc(Snoc(Empty, Create(state, user, 0)), Sweep(600001)), Consume(state, 0));
            Returned(log) == [None] && Returned(WithoutSweeps(log)) == [Some(user)]
  {
    var created := Snoc(Empty, Create(state, user, 0));
    assert After(created) == map[state := Entry(user, 600000)];
    assert WithoutSweeps(created) == created && Returned(created) == [];
    assert WithoutSweeps(Snoc(created, Sweep(600001))) == created;
  }

  // ----- single use -----

  function Issues(log: Log<Op>, state: string): nat {
    match log
    case Empty => 0
    case Snoc(past, op) => Issues(past, state) + if op.Create? && op.state == state then 1 else 0
  }

  /** Successful consumes of `state`. */
  function Wins(log: Log<Op>, state: string): nat {
    match log
    case Empty => 0
    case Snoc(past, op) =>
      Wins(past, state)
      + if op.Consume? && op.state == state && ConsumeResult(After(past), state, op.now).Some? then 1 else 0
  }

  /** Whatever the clock does, a state is consumed successfully at most as often as it was issued. */
  lemma {:induction false} WinsNeedIssues(log: Log<Op>, state: string)
    ensures Wins(log, state) + (if state in After(log) then 1 else 0) <= Issues(log, state)
    decreases log
  {
    if log.Snoc? {
      WinsNeedIssues(log.past, state);
    }
  }

  /**
    A consume that succeeds yields the user of an issue of that state, at most ten minutes after it; where states are
    fresh, it is the only success of that state there is.
   */
  lemma {:induction false} SuccessNamesTheIssue(log: Log<Op>, state: string, now: int)
    requires ConsumeResult(After(log), state, now).Some?
    ensures exists issued ::
              && now <= issued + 600000
              && Contains(log, Create(state, ConsumeResult(After(log), state, now).value, issued))
    ensures Issues(log, state) <= 1 ==> Wins(log, state) == 0 && Wins(Snoc(log, Consume(state, now)), state) == 1
  {
    EntriesAre(log, state);
    OutstandingWasIssued(log, state);
    WinsNeedIssues(log, state);
  }

  lemma {:induction false} OutstandingWasIssued(log: Log<Op>, state: string)
    requires Outstanding(log, state).Some?
    ensures var issue := Outstanding(log, state).value; Contains(log, Create(state, issue.user, issue.at))
    decreases log
  {
    if !(log.last.Create? && log.last.state == state) {
      OutstandingWasIssued(log.past, state);
    }
  }
}
