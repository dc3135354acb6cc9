/** Picker sessions: the phase the server derives, and the loop that waits for a selection. */
module SessionPolling {
  import opened Wrappers

  /** `expireTime` is None where Google's is absent or does not parse. */
  datatype Session = Session(mediaItemsSet: bool, expireTime: Option<int>)

  datatype Phase = Pending | Ready | Expired

  function SessionPhase(s: Session, now: int): Phase {
    if s.mediaItemsSet then Ready
    else if s.expireTime.Some? && now >= s.expireTime.value then Expired
    else Pending
  }

  /** What may happen to a session: its deadline is fixed, and a selection is not taken back. */
  predicate Later(s: Session, t: Session) {
    t.expireTime == s.expireTime && (s.mediaItemsSet ==> t.mediaItemsSet)
  }

  /** Over time the phase moves from pending to expired to ready, perhaps skipping expired, and never back. */
  lemma PhaseNeverGoesBack(s: Session, now: int, t: Session, later: int)
    requires Later(s, t) && now <= later
    ensures SessionPhase(s, now).Ready? ==> SessionPhase(t, later).Ready?
    ensures SessionPhase(s, now).Expired? ==> !SessionPhase(t, later).Pending?
    ensures SessionPhase(t, later).Pending? ==> SessionPhase(s, now).Pending?
    ensures SessionPhase(s, now).Expired? && SessionPhase(t, later).Ready? ==> t.mediaItemsSet && !s.mediaItemsSet
  {
  }

  /** A session whose deadline is missing or does not parse never expires. */
  lemma NoDeadlineNeverExpires(s: Session, now: int)
    ensures (forall later :: !SessionPhase(s, later).Expired?) <==> s.mediaItemsSet || s.expireTime.None?
  {
    if !s.mediaItemsSet && s.expireTime.Some? {
      assert SessionPhase(s, s.expireTime.value).Expired?;
    }
  }

  /** `gap / d`, rounded up; nothing for a gap that is not positive. */
  function CeilDiv(gap: int, d: nat): nat
    requires d > 0
    decreases gap
  {
    if gap <= 0 then 0 else 1 + CeilDiv(gap - d, d)
  }

  lemma {:induction false} CeilDivGrows(a: int, b: int, d: nat)
    requires d > 0 && a <= b
    ensures CeilDiv(a, d) <= CeilDiv(b, d)
    decreases b
  {
    if a > 0 {
      CeilDivGrows(a - d, b - d, d);
    }
  }

  /** It is the least number of steps of `d` that covers the gap. */
  lemma {:induction false} CeilDivIsLeast(gap: int, d: nat, k: nat)
    requires d > 0
    ensures CeilDiv(gap, d) <= k <==> gap <= k * d
    decreases k
  {
    if k > 0 {
      CeilDivIsLeast(gap - d, d, k - 1);
      assert (k - 1) * d == k * d - d;
      if gap > 0 {
        assert CeilDiv(gap, d) == 1 + CeilDiv(gap - d, d);
      }
    }
  }

  /** What round `i` of the loop meets: the server's clock and the session, or nothing if fetching failed for good. */
  datatype Round = Round(now: int, session: Session)

  datatype End = Selected | SessionExpired | FetchFailed

  /** One deadline, and at least `d` on the server's clock from one answer to the next. */
  ghost predicate Runs(rounds: nat -> Option<Round>, expire: int, d: nat) {
    forall i: nat :: rounds(i).Some? ==>
      && rounds(i).value.session.expireTime == Some(expire)
      && (rounds(i + 1).Some? ==> rounds(i).value.now + d <= rounds(i + 1).value.now)
  }

  /**
    `pollSession` in a run that is not superseded: it ends with the first round that is not pending, and if nothing else
    ends it the deadline does, after as many rounds as steps of `d` fit before it, and one.
   */
  method PollSession(rounds: nat -> Option<Round>, expire: int, d: nat) returns (end: End, n: nat)
    requires d > 0 && Runs(rounds, expire, d)
    ensures n >= 1
    ensures forall i: nat :: i < n - 1 ==> rounds(i).Some? && SessionPhase(rounds(i).value.session, rounds(i).value.now).Pending?
    ensures var last := rounds(n - 1);
            && (end.FetchFailed? <==> last.None?)
            && (end.Selected? <==> last.Some? && last.value.session.mediaItemsSet)
            && (end.SessionExpired? <==> last.Some? && !last.value.session.mediaItemsSet && last.value.now >= expire)
    ensures rounds(0).Some? ==> n <= CeilDiv(expire - rounds(0).value.now, d) + 1
  {
    n := 0;
    while true
      invariant forall i: nat :: i < n ==> rounds(i).Some? && SessionPhase(rounds(i).value.session, rounds(i).value.now).Pending?
      invariant n > 0 && rounds(n).Some? ==>
                  n + CeilDiv(expire - rounds(n).value.now, d) <= CeilDiv(expire - rounds(0).value.now, d)
      invariant n > 0 ==> n <= CeilDiv(expire - rounds(0).value.now, d)
      decreases if rounds(0).None? then 1 else CeilDiv(expire - rounds(0).value.now, d) + 1 - n
    {
      var answer := rounds(n);
      n := n + 1;
      if answer.None? {
        return FetchFailed, n;
      }
      match SessionPhase(answer.value.session, answer.value.now)
      case Ready => return Selected, n;
      case Expired => return SessionExpired, n;
      case Pending =>
        if rounds(n).Some? {
          CeilDivGrows(expire - rounds(n).value.now, expire - answer.value.now - d, d);
        }
    }
  }
}
