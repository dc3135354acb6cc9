/** What holds of the flow in every reachable state, whatever the order of events. */
module FlowInvariants {
  import opened Wrappers
  import opened Histories
  import opened Backoff
  import opened FlowTypes
  import opened FlowModel

  /** How long the delay a run waits in has been armed for. */
  function DelayMs(config: Config, pc: Pc): nat
    requires DelayTimer(pc).Some? && FailuresBounded(pc)
  {
    match pc
    case AwaitBackoff(loop, failures, _) => BackoffMs(PollMs(config, loop), failures)
    case AwaitInterval(loop, _) => PollMs(config, loop)
  }

  /** The failure counter of a call never passes the retry budget. */
  predicate FailuresBounded(pc: Pc) {
    match pc
    case AwaitPoll(_, failures) => failures <= MAX_POLL_FAILURES
    case PollFailed(_, failures, _) => failures <= MAX_POLL_FAILURES
    case AwaitBackoff(_, failures, _) => 1 <= failures <= MAX_POLL_FAILURES
    case BackoffOver(_, failures) => 1 <= failures <= MAX_POLL_FAILURES
    case _ => true
  }

  /** The run is on its way to ending with the cancellation marker. */
  predicate BeingCancelled(pc: Pc) {
    match pc
    case GotConsentUrl(Err(e)) => e.FlowCancelled?
    case OAuthSettled(Some(e)) => e.FlowCancelled?
    case GotSession(Err(e)) => e.FlowCancelled?
    case GotImport(_, Err(e)) => e.FlowCancelled?
    case PollFailed(_, _, e) => e.FlowCancelled?
    case Throwing(_, e) => e.FlowCancelled?
    case _ => false
  }

  /** Run numbers come from the counter; only superseded runs are being cancelled. */
  ghost predicate RunsOk(f: Flow) {
    forall r <- f.runs ::
      && 1 <= r <= f.runId
      && FailuresBounded(f.runs[r])
      && (BeingCancelled(f.runs[r]) ==> r != f.runId)
  }

  /**
    `waiters` is exactly the set of delays that have not settled: one for each run suspended in a delay, each with its
    timer armed for the time that delay calls for, and no timer is armed that nobody waits for.
   */
  ghost predicate DelaysOk(f: Flow) {
    && f.waiters == f.timers.Keys
    && (forall t <- f.timers ::
          && t < f.nextTimer
          && f.timers[t].run in f.runs
          && FailuresBounded(f.runs[f.timers[t].run])
          && DelayTimer(f.runs[f.timers[t].run]) == Some(t)
          && f.timers[t].ms == DelayMs(f.config, f.runs[f.timers[t].run]))
    && (forall r <- f.runs | DelayTimer(f.runs[r]).Some? ::
          DelayTimer(f.runs[r]).value in f.timers && f.timers[DelayTimer(f.runs[r]).value].run == r)
  }

  /** A run waiting for OAuth holds a listener, a watchdog and a timeout; a run that does not wait holds none. */
  ghost predicate OAuthOk(f: Flow) {
    && f.listeners == f.intervals == f.timeouts
    && forall r: nat :: r in f.listeners <==> r in f.runs && f.runs[r].AwaitOAuth?
  }

  ghost predicate DoneHasResult(f: Flow) {
    f.state.phase.Done? ==> f.state.result.Some?
  }

  ghost predicate Inv(f: Flow) {
    RunsOk(f) && DelaysOk(f) && OAuthOk(f) && DoneHasResult(f)
  }

  lemma InitInv(config: Config)
    ensures Inv(Init(config))
  {
  }

  /** Moving a run between points that are neither delays nor OAuth waits. */
  lemma MoveInv(f: Flow, g: Flow, r: nat)
    requires Inv(f)
    requires g.config == f.config && g.runId == f.runId && g.nextTimer == f.nextTimer
    requires g.waiters == f.waiters && g.timers == f.timers
    requires g.listeners == f.listeners && g.intervals == f.intervals && g.timeouts == f.timeouts
    requires DoneHasResult(g)
    requires r in f.runs ==> DelayTimer(f.runs[r]).None? && !f.runs[r].AwaitOAuth?
    requires g.runs.Keys - {r} == f.runs.Keys - {r} && forall q <- g.runs :: q != r ==> q in f.runs && g.runs[q] == f.runs[q]
    requires r in g.runs ==>
               && 1 <= r <= g.runId
               && DelayTimer(g.runs[r]).None? && !g.runs[r].AwaitOAuth?
               && FailuresBounded(g.runs[r]) && (BeingCancelled(g.runs[r]) ==> r != g.runId)
    ensures Inv(g)
  {
    forall t <- g.timers
      ensures g.timers[t].run in g.runs && g.runs[g.timers[t].run] == f.runs[f.timers[t].run]
    {
      assert DelayTimer(f.runs[f.timers[t].run]) == Some(t);
      assert f.timers[t].run in f.runs.Keys - {r};
    }
    forall q: nat
      ensures q in g.listeners <==> q in g.runs && g.runs[q].AwaitOAuth?
    {
      if q != r {
        assert q in g.runs.Keys - {r} <==> q in f.runs.Keys - {r};
      }
    }
    forall q <- g.runs
      ensures q != r ==> q in f.runs
    {
      if q != r {
        assert q in f.runs.Keys - {r};
      }
    }
  }

  /** A call takes a new number; no run carries it yet. */
  lemma BumpInv(f: Flow, g: Flow)
    requires Inv(f)
    requires g == f.(runId := f.runId + 1, state := g.state, popup := g.popup, log := g.log)
    requires DoneHasResult(g)
    ensures Inv(g) && g.runId !in g.runs
  {
    assert forall r <- g.runs :: r in f.runs;
  }

  lemma ConnectInv(f: Flow, gotWindow: bool)
    requires Inv(f)
    ensures Inv(Connect(f, gotWindow))
  {
    hide RunsOk, DelaysOk, OAuthOk;
    var r := f.runId + 1;
    var g := SetState(f.(runId := r), r, f.state.(phase := Connecting, error := None, expired := false));
    BumpInv(f, g);
    MoveInv(g, Connect(f, gotWindow), r);
  }

  lemma StartInv(f: Flow, gotWindow: bool)
    requires Inv(f)
    ensures Inv(Start(f, gotWindow))
  {
    hide RunsOk, DelaysOk, OAuthOk;
    var r := f.runId + 1;
    var g := f.(runId := r);
    BumpInv(f, g);
    MoveInv(g, Start(f, gotWindow), r);
  }

  lemma ClearTimersInv(f: Flow)
    requires f.runId >= 1 && Inv(f.(runId := f.runId - 1))
    ensures Inv(ClearTimers(f))
    ensures ClearTimers(f).timers == map[]
  {
    var g := ClearTimers(f);
    assert g.timers.Keys == {};
  }

  lemma CancelInv(f: Flow)
    requires Inv(f)
    ensures Inv(Cancel(f))
  {
    var g := f.(runId := f.runId + 1);
    assert g.(runId := g.runId - 1) == f;
    ClearTimersInv(g);
  }

  lemma SettleFetchInv(f: Flow, r: nat, reply: Reply)
    requires Inv(f)
    ensures Inv(SettleFetch(f, r, reply))
  {
    if SettleFetch(f, r, reply) != f {
      MoveInv(f, SettleFetch(f, r, reply), r);
    }
  }

  lemma FireTimerInv(f: Flow, t: nat)
    requires Inv(f)
    ensures Inv(FireTimer(f, t))
  {
    if t in f.timers {
      var g := FireTimer(f, t);
      var r := f.timers[t].run;
      forall u <- g.timers
        ensures g.timers[u].run in g.runs && g.runs[g.timers[u].run] == f.runs[f.timers[u].run]
      {
        assert DelayTimer(f.runs[f.timers[u].run]) == Some(u);
      }
      assert DelaysOk(g);
    }
  }

  lemma SettleOAuthInv(f: Flow, r: nat, refusal: Option<Thrown>)
    requires Inv(f) && r in f.listeners
    requires refusal == Some(FlowCancelled) ==> f.runId != r
    ensures Inv(SettleOAuth(f, r, refusal))
  {
    var g := SettleOAuth(f, r, refusal);
    assert r in f.runs && f.runs[r].AwaitOAuth?;
    forall u <- g.timers
      ensures g.timers[u].run in g.runs && g.runs[g.timers[u].run] == f.runs[f.timers[u].run]
    {
      assert DelayTimer(f.runs[f.timers[u].run]) == Some(u);
    }
  }

  /** A live run enters a delay from a point that holds nothing. */
  lemma DelayInv(f: Flow, r: nat, pc: Pc)
    requires Inv(f) && r in f.runs
    requires DelayTimer(f.runs[r]).None? && !f.runs[r].AwaitOAuth?
    requires DelayTimer(pc) == Some(f.nextTimer) && FailuresBounded(pc)
    ensures Inv(Delay(f, r, pc, DelayMs(f.config, pc)))
  {
    var g := Delay(f, r, pc, DelayMs(f.config, pc));
    forall u <- g.timers | u != f.nextTimer
      ensures g.timers[u].run in g.runs && g.runs[g.timers[u].run] == f.runs[f.timers[u].run] && u in f.timers
    {
      assert DelayTimer(f.runs[f.timers[u].run]) == Some(u);
    }
  }

  lemma WaitForOAuthInv(f: Flow, r: nat)
    requires Inv(f) && r in f.runs && DelayTimer(f.runs[r]).None?
    ensures Inv(WaitForOAuth(f, r))
  {
    var g := WaitForOAuth(f, r);
    forall u <- g.timers
      ensures g.timers[u].run in g.runs && g.runs[g.timers[u].run] == f.runs[f.timers[u].run]
    {
      assert DelayTimer(f.runs[f.timers[u].run]) == Some(u);
    }
  }

  /** A state write keeps everything that is not about the state. */
  lemma SetStateInv(f: Flow, r: nat, state: FlowState)
    requires Inv(f) && (state.phase.Done? ==> state.result.Some?)
    ensures Inv(SetState(f, r, state))
  {
  }

  lemma ClosePopupInv(f: Flow)
    requires Inv(f)
    ensures Inv(ClosePopup(f))
  {
  }

  lemma InvParts(f: Flow)
    requires Inv(f)
    ensures RunsOk(f) && DelaysOk(f) && OAuthOk(f)
  {
  }

  lemma RunFacts(f: Flow, r: nat)
    requires Inv(f) && r in f.runs
    ensures 1 <= r <= f.runId && FailuresBounded(f.runs[r])
    ensures BeingCancelled(f.runs[r]) ==> r < f.runId
    ensures DoneHasResult(f)
  {
  }

  /** A continuation is local: no other run moves, and the counter stands still. */
  lemma ResumeLocal(f: Flow, r: nat, windowClosed: bool)
    ensures var g := Resume(f, r, windowClosed);
            && g.runId == f.runId
            && g.runs.Keys <= f.runs.Keys
            && forall q <- f.runs :: q != r ==> q in g.runs && g.runs[q] == f.runs[q]
  {
    if r in f.runs {
      ResumeShape(f, r, windowClosed);
      hide Resume;
    }
  }

  /** `g` is `f` with run `r` moved or gone. */
  ghost predicate OnlyMoves(f: Flow, g: Flow, r: nat) {
    g.runId == f.runId && g.runs == if r in g.runs then f.runs[r := g.runs[r]] else f.runs - {r}
  }

  lemma ResumePollShape(f: Flow, r: nat, windowClosed: bool)
    requires r in f.runs && (f.runs[r].GotStatus? || f.runs[r].GotJob? || f.runs[r].PollFailed?)
    ensures OnlyMoves(f, Resume(f, r, windowClosed), r)
  {
    hide BackoffMs, PollMs, ResultOf, JobError;
  }

  lemma ResumeShape(f: Flow, r: nat, windowClosed: bool)
    requires r in f.runs
    ensures OnlyMoves(f, Resume(f, r, windowClosed), r)
  {
    match f.runs[r]
    case GotStatus(_, _) => ResumePollShape(f, r, windowClosed);
    case GotJob(_, _) => ResumePollShape(f, r, windowClosed);
    case PollFailed(_, _, _) => ResumePollShape(f, r, windowClosed);
    case _ =>
      if f.runs[r].Suspended() {
        assert f.runs[r := f.runs[r]] == f.runs;
      }
      hide ResumeStatus, ResumeJob, ResumePollFailed, RequestAt;
  }

  lemma ResumeNobody(f: Flow, r: nat, windowClosed: bool)
    requires r !in f.runs
    ensures Resume(f, r, windowClosed) == f
  {
  }

  /** A run that holds neither a delay nor an OAuth wait. */
  predicate Unattached(f: Flow, r: nat) {
    r in f.runs && DelayTimer(f.runs[r]).None? && !f.runs[r].AwaitOAuth?
  }

  lemma CatchInv(f: Flow, r: nat, e: Thrown)
    requires Inv(f) && Unattached(f, r)
    ensures Inv(Catch(f, r, e))
  {
    MoveInv(f, Catch(f, r, e), r);
  }

  lemma EndInv(f: Flow, r: nat, outcome: Outcome)
    requires Inv(f) && Unattached(f, r)
    ensures Inv(End(f, r, outcome))
  {
    MoveInv(f, End(f, r, outcome), r);
  }

  lemma QueueInv(f: Flow, r: nat, pc: Pc)
    requires Inv(f) && Unattached(f, r)
    requires DelayTimer(pc).None? && !pc.AwaitOAuth? && FailuresBounded(pc)
    requires BeingCancelled(pc) ==> r != f.runId
    ensures Inv(Queue(f, r, pc))
  {
    MoveInv(f, Queue(f, r, pc), r);
  }

  lemma AskInv(f: Flow, r: nat, pc: Pc)
    requires Inv(f) && Unattached(f, r)
    requires RequestAt(pc).Some? && FailuresBounded(pc)
    ensures Inv(Ask(f, r, pc))
  {
    MoveInv(f, Ask(f, r, pc), r);
  }

  lemma ResumePollFailedInv(f: Flow, r: nat)
    requires Inv(f) && r in f.runs && f.runs[r].PollFailed?
    ensures Inv(Resume(f, r, false))
  {
    hide Inv;
    RunFacts(f, r);
    var PollFailed(loop, failures, e) := f.runs[r];
    if f.runId == r && failures < MAX_POLL_FAILURES {
      DelayInv(f, r, AwaitBackoff(loop, failures + 1, f.nextTimer));
    } else {
      QueueInv(f, r, Resume(f, r, false).runs[r]);
    }
  }

  lemma ResumeStatusInv(f: Flow, r: nat)
    requires Inv(f) && r in f.runs && f.runs[r].GotStatus?
    ensures Inv(Resume(f, r, false))
  {
    hide Inv;
    var GotStatus(sessionId, status) := f.runs[r];
    if f.runId == r && status.SessionPending? {
      DelayInv(f, r, AwaitInterval(SessionLoop(sessionId), f.nextTimer));
    } else {
      QueueInv(f, r, Resume(f, r, false).runs[r]);
    }
  }

  lemma ResumeJobInv(f: Flow, r: nat)
    requires Inv(f) && r in f.runs && f.runs[r].GotJob?
    ensures Inv(Resume(f, r, false))
  {
    hide Inv;
    RunFacts(f, r);
    var GotJob(jobId, view) := f.runs[r];
    if f.runId != r {
      QueueInv(f, r, Throwing(JobLoop(jobId), FlowCancelled));
    } else {
      var g := SetState(f, r, f.state.(progress := Some(CountsOf(view))));
      SetStateInv(f, r, g.state);
      if view.status.JobPending? || view.status.JobRunning? {
        DelayInv(g, r, AwaitInterval(JobLoop(jobId), g.nextTimer));
      } else {
        QueueInv(g, r, Resume(f, r, false).runs[r]);
      }
    }
  }

  /** The replies to the one-off requests, and errors on their way out. */
  lemma ResumeOnceInv(f: Flow, r: nat, windowClosed: bool)
    requires Inv(f) && r in f.runs
    ensures var pc := f.runs[r];
            pc.GotConsentUrl? || pc.GotSession? || pc.GotImport? || pc.Throwing? ==> Inv(Resume(f, r, windowClosed))
  {
    RunFacts(f, r);
    hide Inv;
    match f.runs[r]
    case GotConsentUrl(Err(e)) => CatchInv(f, r, e);
    case GotConsentUrl(Ok(_)) =>
      if f.runId == r && !windowClosed {
        WaitForOAuthInv(f, r);
      } else {
        CatchInv(f, r, if f.runId != r then FlowCancelled else OAUTH_WINDOW_CLOSED);
      }
    case GotSession(Err(e)) => CatchInv(f, r, e);
    case GotSession(Ok(sessionId)) =>
      if f.runId == r && !windowClosed {
        SetStateInv(f, r, f.state.(phase := Picking));
        AskInv(SetState(f, r, f.state.(phase := Picking)), r, AwaitPoll(SessionLoop(sessionId), 0));
      } else {
        CatchInv(f, r, if f.runId != r then FlowCancelled else PICKER_CLOSED);
      }
    case GotImport(_, Err(e)) => CatchInv(f, r, e);
    case GotImport(_, Ok(jobId)) =>
      if f.runId == r {
        AskInv(f, r, AwaitPoll(JobLoop(jobId), 0));
      } else {
        CatchInv(f, r, FlowCancelled);
      }
    case Throwing(_, e) => CatchInv(f, r, e);
    case _ =>
  }

  /** The unguarded resume points. */
  lemma ResumeUnguardedInv(f: Flow, r: nat)
    requires Inv(f) && r in f.runs
    ensures var pc := f.runs[r];
            pc.OAuthSettled? || pc.SessionDone? || pc.JobDone? || pc.BackoffOver? || pc.IntervalOver? ==> Inv(Resume(f, r, false))
  {
    RunFacts(f, r);
    ClosePopupInv(f);
    hide Inv;
    var g := ClosePopup(f);
    match f.runs[r]
    case OAuthSettled(Some(e)) => CatchInv(f, r, e);
    case OAuthSettled(None) =>
      SetStateInv(g, r, f.state.(phase := Idle, connected := Some(true)));
      EndInv(SetState(g, r, f.state.(phase := Idle, connected := Some(true))), r, ConnectResolved);
    case SessionDone(sessionId) =>
      SetStateInv(g, r, f.state.(phase := Importing));
      AskInv(SetState(g, r, f.state.(phase := Importing)), r, AwaitImport(sessionId));
    case JobDone(_, result) =>
      SetStateInv(f, r, f.state.(phase := Done, result := Some(result)));
      EndInv(SetState(f, r, f.state.(phase := Done, result := Some(result))), r, StartResolved(result));
    case BackoffOver(loop, failures) => AskInv(f, r, AwaitPoll(loop, failures));
    case IntervalOver(loop) => AskInv(f, r, AwaitPoll(loop, 0));
    case _ =>
  }

  lemma ResumeInv(f: Flow, r: nat, windowClosed: bool)
    requires Inv(f)
    ensures Inv(Resume(f, r, windowClosed))
  {
    if r !in f.runs {
      ResumeNobody(f, r, windowClosed);
    } else {
      ResumeOnceInv(f, r, windowClosed);
      ResumeUnguardedInv(f, r);
      hide Inv;
      match f.runs[r]
      case GotStatus(_, _) => ResumeStatusInv(f, r);
      case GotJob(_, _) => ResumeJobInv(f, r);
      case PollFailed(_, _, _) => ResumePollFailedInv(f, r);
      case _ =>
    }
  }

  lemma StepInv(f: Flow, e: Event)
    requires Inv(f)
    ensures Inv(Step(f, e))
  {
    hide Resume;
    match e
    case ConnectCall(gotWindow) => ConnectInv(f, gotWindow);
    case StartCall(gotWindow) => StartInv(f, gotWindow);
    case CancelCall => CancelInv(f);
    case StatusSettles(_) => SetStateInv(f, 0, Step(f, e).state);
    case DisconnectSettles(_) => SetStateInv(f, 0, Step(f, e).state);
    case FetchSettles(r, reply) => SettleFetchInv(f, r, reply);
    case TimerFires(t) => FireTimerInv(f, t);
    case MessageArrives(r, origin, data) =>
      if Step(f, e) != f {
        SettleOAuthInv(f, r, if f.runId != r then Some(FlowCancelled) else RefusalOf(data.value));
      }
    case WatchdogTicks(r) =>
      if Step(f, e) != f {
        SettleOAuthInv(f, r, Some(FlowCancelled));
      }
    case OAuthTimesOut(r) =>
      if Step(f, e) != f {
        SettleOAuthInv(f, r, Some(OAUTH_TIMED_OUT));
      }
    case Continue(r, windowClosed) => ResumeInv(f, r, windowClosed);
  }

  /** Every reachable state satisfies the invariant. */
  lemma {:induction false} RunInv(f: Flow, events: seq<Event>)
    requires Inv(f)
    ensures Inv(Run(f, events))
    decreases |events|
  {
    if events != [] {
      StepInv(f, events[0]);
      RunInv(Step(f, events[0]), events[1..]);
    }
  }
}
