/** The class itself: fields updated in place, each method proved against the transition system. */
module GooglePhotosFlowClass {
  import opened Wrappers
  import opened Histories
  import opened Backoff
  import opened FlowTypes
  import M = FlowModel
  import opened FlowInvariants
  import L = FlowLaws

  class GooglePhotosFlow {
    const config: Config
    var state: FlowState
    var runId: nat
    var popup: Option<nat>
    var waiters: set<nat>
    // the suspended coroutines, and what they hold in the browser
    var runs: map<nat, Pc>
    var timers: map<nat, Timer>
    var nextTimer: nat
    var listeners: set<nat>
    var intervals: set<nat>
    var timeouts: set<nat>
    ghost var log: History

    ghost function View(): M.Flow
      reads this
    {
      M.Flow(config, state, runId, popup, waiters, runs, timers, nextTimer, listeners, intervals, timeouts, log)
    }

    ghost predicate Valid()
      reads this
    {
      Inv(View())
    }

    constructor (config: Config)
      ensures state == FlowState(Idle, None, None, None, None, false)
      ensures runId == 0 && popup == None && waiters == {} && runs == map[] && timers == map[]
      ensures listeners == intervals == timeouts == {} && log == Empty
      ensures Valid() && View() == M.Init(config)
    {
      this.config := config;
      state, runId, popup, waiters := INITIAL, 0, None, {};
      runs, timers, nextTimer := map[], map[], 0;
      listeners, intervals, timeouts := {}, {}, {};
      log := Empty;
    }

    /** Everything but the state, the window, the runs and the run counter is as it was. */
    twostate predicate WaitsUntouched()
      reads this
    {
      unchanged(this`waiters, this`timers, this`nextTimer, this`listeners, this`intervals, this`timeouts)
    }

    method SetState(run: nat, next: FlowState)
      modifies this
      ensures View() == M.SetState(old(View()), run, next)
    {
      state := next;
      log := Snoc(log, Wrote(run, next));
    }

    method ClosePopup()
      modifies this
      ensures View() == M.ClosePopup(old(View()))
    {
      popup := None;
    }

    /** Visits the waiters in any order, disarms each and rejects the promise its run waits for. */
    method ClearTimers()
      requires DelaysOk(View())
      modifies this
      ensures View() == M.ClearTimers(old(View()))
    {
      ghost var f := View();
      var pending := waiters;
      NoneRejected(runs);
      assert f.waiters - pending == {};
      hide DelaysOk, RejectedIn;
      while pending != {}
        modifies `timers, `runs
        invariant pending <= f.waiters
        invariant timers == f.timers - (f.waiters - pending)
        invariant runs == RejectedIn(f.runs, f.waiters - pending)
        decreases pending
      {
        var t :| t in pending;
        TimerIsOwned(f, t);
        var r := timers[t].run;
        OneMoreRejected(f, f.waiters - pending, t);
        assert f.waiters - (pending - {t}) == (f.waiters - pending) + {t};
        pending, timers := pending - {t}, timers - {t};
        runs := runs[r := M.DelayOver(runs[r], false)];
      }
      assert f.waiters - pending == f.waiters;
      AllRejected(f);
      log := Snoc(log, DelaysSettled(waiters));
      waiters := {};
    }

    static function RejectedIn(runs: map<nat, Pc>, timers: set<nat>): (m: map<nat, Pc>)
      ensures m.Keys == runs.Keys
    {
      map r | r in runs :: M.AfterDelays(runs[r], timers, false)
    }

    static lemma AllRejected(f: M.Flow)
      ensures M.ClearTimers(f).runs == RejectedIn(f.runs, f.waiters)
    {
    }

    static lemma NoneRejected(runs: map<nat, Pc>)
      ensures RejectedIn(runs, {}) == runs
    {
    }

    /** Rejecting the owner of one more timer. */
    static lemma OneMoreRejected(f: M.Flow, timers: set<nat>, t: nat)
      requires DelaysOk(f) && t in f.waiters && t !in timers
      ensures t in f.timers && f.timers[t].run in f.runs
      ensures var r := f.timers[t].run;
              var rejected := RejectedIn(f.runs, timers);
              RejectedIn(f.runs, timers + {t}) == rejected[r := M.DelayOver(rejected[r], false)]
    {
      TimerIsOwned(f, t);
      hide DelaysOk;
    }

    /** A timer belongs to one run, and no other run waits for it. */
    static lemma TimerIsOwned(f: M.Flow, t: nat)
      requires DelaysOk(f) && t in f.waiters
      ensures t in f.timers && f.timers[t].run in f.runs
      ensures forall r <- f.runs :: M.DelayTimer(f.runs[r]) == Some(t) <==> r == f.timers[t].run
    {
    }

    method End(r: nat, outcome: Outcome)
      modifies this
      ensures View() == M.End(old(View()), r, outcome)
    {
      runs := runs - {r};
      log := Snoc(log, Finished(r, outcome));
    }

    method HandleError(r: nat, e: Thrown)
      modifies this
      ensures e.FlowCancelled? || runId != r ==> View() == old(View())
      ensures !e.FlowCancelled? && runId == r ==>
                && state == old(state).(phase := Error, error := Some(e.message), expired := e.expired)
                && View() == old(View()).(state := state, log := Snoc(old(log), Wrote(r, state)))
      ensures View() == M.HandleError(old(View()), r, e)
    {
      if e.FlowCancelled? || runId != r {
        return;
      }
      SetState(r, state.(phase := Error, error := Some(e.message), expired := e.expired));
    }

    method Catch(r: nat, e: Thrown)
      modifies this
      ensures popup == None && runs == old(runs) - {r} && runId == old(runId) && WaitsUntouched()
      ensures log.Snoc? && log.last == Finished(r, Rejected(e))
      ensures e.FlowCancelled? || runId != r ==> state == old(state) && log.past == old(log)
      ensures !e.FlowCancelled? && runId == r ==>
                state == old(state).(phase := Error, error := Some(e.message), expired := e.expired)
      ensures View() == M.Catch(old(View()), r, e)
    {
      ClosePopup();
      HandleError(r, e);
      End(r, Rejected(e));
    }

    method Ask(r: nat, pc: Pc)
      requires M.RequestAt(pc).Some?
      modifies this
      ensures View() == M.Ask(old(View()), r, pc)
    {
      runs := runs[r := pc];
      log := Snoc(log, Asked(r, M.RequestAt(pc).value));
    }

    method Delay(r: nat, pc: Pc, ms: nat)
      modifies this
      ensures View() == M.Delay(old(View()), r, pc, ms)
    {
      waiters := waiters + {nextTimer};
      timers := timers[nextTimer := Timer(r, ms)];
      nextTimer := nextTimer + 1;
      runs := runs[r := pc];
    }

    method Cancel()
      requires Valid()
      modifies this
      ensures Valid() && View() == M.Step(old(View()), M.CancelCall)
      ensures runId == old(runId) + 1 && runId !in runs
      ensures waiters == {} && timers == map[] && popup == None
      ensures state == if old(state).phase.Done? || old(state).phase.Error? then old(state)
                       else old(state).(phase := Idle, progress := None)
    {
      StepInv(View(), M.CancelCall);
      runId := runId + 1;
      ClearTimers();
      ClosePopup();
      if !state.phase.Done? && !state.phase.Error? {
        SetState(0, state.(phase := Idle, progress := None));
      }
    }

    /** The call with the newest number ends with `error` at once: it is published, and no window is open. */
    ghost predicate EndsWith(before: M.Flow, error: string)
      reads this
    {
      && state == before.state.(phase := Error, error := Some(error), expired := false) && popup == None
      && runs == before.runs - {runId} && log.Snoc? && log.last == Finished(runId, Rejected(Failure(error, false)))
    }

    method Connect(gotWindow: bool)
      requires Valid()
      modifies this
      ensures runId == old(runId) + 1 && WaitsUntouched()
      ensures gotWindow ==>
                && state == old(state).(phase := Connecting, error := None, expired := false) && popup == Some(runId)
                && runs == old(runs)[runId := AwaitConsentUrl]
                && log == Snoc(Snoc(old(log), Wrote(runId, state)), Asked(runId, ConsentRequest))
      ensures !gotWindow ==> EndsWith(old(View()), "Popup blocked — allow popups and retry.")
      ensures Valid() && View() == M.Step(old(View()), M.ConnectCall(gotWindow))
    {
      hide Inv, M.Catch;
      StepInv(View(), M.ConnectCall(gotWindow));
      runId := runId + 1;
      var myRun := runId;
      SetState(myRun, state.(phase := Connecting, error := None, expired := false));
      if !gotWindow {
        Catch(myRun, M.POPUP_BLOCKED);
        return;
      }
      popup := Some(myRun);
      Ask(myRun, AwaitConsentUrl);
    }

    method Start(gotWindow: bool)
      requires Valid()
      modifies this
      ensures runId == old(runId) + 1 && WaitsUntouched()
      ensures old(state).connected == Some(false) ==>
                EndsWith(old(View()).(state := old(state).(expired := false)), "Not connected to Google Photos — connect first.")
      ensures old(state).connected != Some(false) && gotWindow ==>
                && state == FlowState(Creating, old(state).connected, None, None, None, false) && popup == Some(runId)
                && runs == old(runs)[runId := AwaitSession]
                && log == Snoc(Snoc(old(log), Wrote(runId, state)), Asked(runId, SessionRequest))
      ensures old(state).connected != Some(false) && !gotWindow ==>
                EndsWith(old(View()).(state := FlowState(Creating, old(state).connected, None, None, None, false)),
                         "Popup blocked — allow popups and retry.")
      ensures Valid() && View() == M.Step(old(View()), M.StartCall(gotWindow))
    {
      hide Inv, M.Catch;
      StepInv(View(), M.StartCall(gotWindow));
      runId := runId + 1;
      var myRun := runId;
      if state.connected == Some(false) {
        Catch(myRun, M.NOT_CONNECTED);
        return;
      }
      SetState(myRun, state.(phase := Creating, error := None, expired := false, result := None, progress := None));
      if !gotWindow {
        Catch(myRun, M.POPUP_BLOCKED);
        return;
      }
      popup := Some(myRun);
      Ask(myRun, AwaitSession);
    }

    /** A failed request counts as disconnected, and leaves the error that is shown. */
    method RefreshStatusSettles(connected: Option<bool>)
      requires Valid()
      modifies this
      ensures connected.Some? ==> state.connected == connected && state.error == None
      ensures connected.None? ==> state.connected == Some(false) && state.error == old(state).error
      ensures state == old(state).(connected := state.connected, error := state.error)
      ensures View() == old(View()).(state := state, log := Snoc(old(log), Wrote(0, state)))
      ensures Valid() && View() == M.Step(old(View()), M.StatusSettles(connected))
    {
      StepInv(View(), M.StatusSettles(connected));
      match connected
      case Some(c) => SetState(0, state.(connected := Some(c), error := None));
      case None => SetState(0, state.(connected := Some(false)));
    }

    method DisconnectSettles(error: Option<string>)
      requires Valid()
      modifies this
      ensures error.None? ==> state.connected == Some(false) && state.error == None
      ensures error.Some? ==> state.connected == old(state).connected && state.error == error
      ensures state == old(state).(connected := state.connected, error := state.error)
      ensures View() == old(View()).(state := state, log := Snoc(old(log), Wrote(0, state)))
      ensures Valid() && View() == M.Step(old(View()), M.DisconnectSettles(error))
    {
      StepInv(View(), M.DisconnectSettles(error));
      match error
      case None => SetState(0, state.(connected := Some(false), error := None));
      case Some(message) => SetState(0, state.(error := Some(message)));
    }

    /** A run at `before` that is given `reply` stands at `after`: with that answer, or with that error, or where it was. */
    static ghost predicate AnswerReaches(before: Pc, reply: Reply, after: Pc) {
      match reply
      case FetchFailed(message, expired) =>
        var e := Failure(message, expired);
        (match before
         case AwaitConsentUrl => after == GotConsentUrl(Err(e))
         case AwaitSession => after == GotSession(Err(e))
         case AwaitImport(sessionId) => after == GotImport(sessionId, Err(e))
         case AwaitPoll(loop, failures) => after == PollFailed(loop, failures, e)
         case _ => after == before)
      case ConsentReply(url) => after == if before.AwaitConsentUrl? then GotConsentUrl(Ok(url)) else before
      case SessionReply(sessionId) => after == if before.AwaitSession? then GotSession(Ok(sessionId)) else before
      case StartedReply(jobId) => after == if before.AwaitImport? then GotImport(before.sessionId, Ok(jobId)) else before
      case StatusReply(status) =>
        after == if before.AwaitPoll? && before.loop.SessionLoop? then GotStatus(before.loop.sessionId, status) else before
      case JobReply(job) => after == if before.AwaitPoll? && before.loop.JobLoop? then GotJob(before.loop.jobId, job) else before
    }

    static lemma ReplyReaches(pc: Pc, reply: Reply)
      ensures AnswerReaches(pc, reply, if M.RequestAt(pc).Some? then M.AfterReply(pc, reply).GetOr(pc) else pc)
    {
    }

    /**
      A request settles: its run is queued with the answer, or with the error that came instead, and nothing else moves.
      A poll keeps its count of failures.
     */
    method FetchSettles(r: nat, reply: Reply)
      requires Valid()
      modifies this
      ensures View() == old(View()).(runs := runs, log := log)
      ensures runs.Keys == old(runs).Keys && forall q <- runs :: q != r ==> runs[q] == old(runs)[q]
      ensures runs == old(runs) ==> log == old(log)
      ensures r in runs ==> AnswerReaches(old(runs[r]), reply, runs[r])
      ensures Valid() && View() == M.Step(old(View()), M.FetchSettles(r, reply))
    {
      StepInv(View(), M.FetchSettles(r, reply));
      hide Inv, AnswerReaches, M.RequestAt, M.AfterReply;
      if r in runs {
        ReplyReaches(runs[r], reply);
      }
      if r in runs && M.RequestAt(runs[r]).Some? && M.AfterReply(runs[r], reply).Some? {
        log := Snoc(log, Replied(r, M.RequestAt(runs[r]).value, reply));
        runs := runs[r := M.AfterReply(runs[r], reply).value];
      }
    }

    /** The callback of a delay's timer: the run goes on if it is current, and is cancelled otherwise. */
    method OnTimer(t: nat)
      requires Valid()
      modifies this
      ensures t !in old(timers) ==> View() == old(View())
      ensures t in old(timers) ==>
                var r := old(timers[t]).run;
                && r in old(runs) && r in runs && waiters == old(waiters) - {t} && timers == old(timers) - {t}
                && runs == old(runs)[r := runs[r]] && state == old(state) && popup == old(popup)
                && (runId != r ==> runs[r].Throwing? && runs[r].error.FlowCancelled?)
                && (runId == r ==>
                      match old(runs[r])
                      case AwaitBackoff(loop, failures, timer) => timer == t && runs[r] == BackoffOver(loop, failures)
                      case AwaitInterval(loop, timer) => timer == t && runs[r] == IntervalOver(loop)
                      case _ => false)
      ensures Valid() && View() == M.Step(old(View()), M.TimerFires(t))
    {
      hide Inv, RunsOk, OAuthOk, DoneHasResult;
      StepInv(View(), M.TimerFires(t));
      InvParts(View());
      if t in timers {
        var r := timers[t].run;
        TimerIsOwned(View(), t);
        waiters, timers := waiters - {t}, timers - {t};
        runs := runs[r := M.DelayOver(runs[r], runId == r)];
        log := Snoc(log, DelaysSettled({t}));
      }
    }

    /** Releases what the wait holds, then settles it. */
    method SettleOAuth(r: nat, refusal: Option<Thrown>)
      modifies this
      ensures View() == M.SettleOAuth(old(View()), r, refusal)
    {
      intervals := intervals - {r};
      timeouts := timeouts - {r};
      listeners := listeners - {r};
      runs := runs[r := OAuthSettled(refusal)];
      log := Snoc(log, OAuthWaitSettled(r));
    }

    /** The OAuth wait of run `r` is over with `refusal`, or with success, and holds nothing any more. */
    ghost predicate WaitOver(before: M.Flow, r: nat, refusal: Option<Thrown>)
      reads this
    {
      && View() == before.(runs := before.runs[r := OAuthSettled(refusal)], listeners := before.listeners - {r},
                   intervals := before.intervals - {r}, timeouts := before.timeouts - {r},
                   log := Snoc(before.log, OAuthWaitSettled(r)))
    }

    /** Messages of the wrong origin or type pass through untouched. */
    method OnMessage(r: nat, origin: string, data: Option<OAuthData>)
      requires Valid()
      modifies this
      ensures r in old(listeners) && runId != r ==> WaitOver(old(View()), r, Some(FlowCancelled))
      ensures r !in old(listeners)
              || (runId == r && (config.expectedOrigin.GetOr(origin) != origin || data.None?
                                 || data.value.messageType != config.messageType)) ==>
                View() == old(View())
      ensures r in old(listeners) && runId == r && config.expectedOrigin.GetOr(origin) == origin
              && data.Some? && data.value.messageType == config.messageType ==>
                if data.value.status == "success" then WaitOver(old(View()), r, None)
                else if data.value.message.GetOr("") == "" then
                  WaitOver(old(View()), r, Some(Failure("Google authorisation failed.", false)))
                else WaitOver(old(View()), r, Some(Failure(data.value.message.value, false)))
      ensures Valid() && View() == M.Step(old(View()), M.MessageArrives(r, origin, data))
    {
      StepInv(View(), M.MessageArrives(r, origin, data));
      if r !in listeners {
        return;
      }
      if runId != r {
        SettleOAuth(r, Some(FlowCancelled));
        return;
      }
      if config.expectedOrigin.Some? && origin != config.expectedOrigin.value {
        return;
      }
      if data.None? || data.value.messageType != config.messageType {
        return;
      }
      SettleOAuth(r, M.RefusalOf(data.value));
    }

    method OnWatchdog(r: nat)
      requires Valid()
      modifies this
      ensures r in old(intervals) && runId != r ==> WaitOver(old(View()), r, Some(FlowCancelled))
      ensures r !in old(intervals) || runId == r ==> View() == old(View())
      ensures Valid() && View() == M.Step(old(View()), M.WatchdogTicks(r))
    {
      StepInv(View(), M.WatchdogTicks(r));
      if r in intervals && runId != r {
        SettleOAuth(r, Some(FlowCancelled));
      }
    }

    method OnOAuthTimeout(r: nat)
      requires Valid()
      modifies this
      ensures r in old(timeouts) ==>
                WaitOver(old(View()), r, Some(Failure("Google authorisation timed out — please try again.", false)))
      ensures r !in old(timeouts) ==> View() == old(View())
      ensures Valid() && View() == M.Step(old(View()), M.OAuthTimesOut(r))
    {
      StepInv(View(), M.OAuthTimesOut(r));
      if r in timeouts {
        SettleOAuth(r, Some(M.OAUTH_TIMED_OUT));
      }
    }

    /** Run `r` waits at `pc` for a new delay of `ms`, and that is all that has changed since `before`. */
    ghost predicate Waits(before: M.Flow, r: nat, pc: Pc, ms: nat)
      reads this
    {
      && View() == before.(runs := before.runs[r := pc], waiters := waiters, timers := timers, nextTimer := nextTimer)
      && M.DelayTimer(pc) == Some(before.nextTimer) && nextTimer == before.nextTimer + 1
      && waiters == before.waiters + {before.nextTimer} && timers == before.timers[before.nextTimer := Timer(r, ms)]
    }

    /** The catch block of `pollFetch`: it waits and tries again, or throws; nothing is published. */
    method ResumePollFailed(r: nat, loop: Loop, failures: nat, e: Thrown)
      modifies this
      ensures runId == r && !e.FlowCancelled? && failures < 4 ==>
                Waits(old(View()), r, AwaitBackoff(loop, failures + 1, old(nextTimer)),
                      L.Capped([1, 2, 4, 8][failures] * L.Interval(config, loop)))
      ensures runId == r && (e.FlowCancelled? || failures >= 4) ==>
                View() == old(View()).(runs := old(runs)[r := Throwing(loop, e)])
      ensures runId != r ==> View() == old(View()).(runs := old(runs)[r := Throwing(loop, FlowCancelled)])
      ensures View() == M.ResumePollFailed(old(View()), r, loop, failures, e)
    {
      if e.FlowCancelled? {
        runs := runs[r := Throwing(loop, e)];
        return;
      }
      if runId != r {
        runs := runs[r := Throwing(loop, FlowCancelled)];
        return;
      }
      var failed := failures + 1;
      if failed > MAX_POLL_FAILURES {
        runs := runs[r := Throwing(loop, e)];
        return;
      }
      FirstWaits(M.PollMs(config, loop));
      Delay(r, AwaitBackoff(loop, failed, nextTimer), BackoffMs(M.PollMs(config, loop), failed));
    }

    /** One round of `pollSession`, from the reply on: only the run itself moves; it waits only while the session is pending. */
    method ResumeStatus(r: nat, sessionId: string, status: SessionStatus)
      modifies this
      ensures runId == r && status == SessionPending ==>
                Waits(old(View()), r, AwaitInterval(SessionLoop(sessionId), old(nextTimer)), config.sessionPollMs.GetOr(2000))
      ensures runId != r || status != SessionPending ==> View() == old(View()).(runs := runs) && runs.Keys == old(runs).Keys + {r}
      ensures forall q <- old(runs) :: q != r ==> runs[q] == old(runs)[q]
      ensures runs[r] == SessionDone(sessionId) <==> runId == r && status == SessionReady
      ensures runs[r].Throwing? && runs[r].error.Failure? <==> runId == r && status == SessionExpired
      ensures runs[r].Throwing? && runs[r].error.Failure? ==>
                runs[r].error == Failure("The Google Photos session expired before you confirmed a selection.", true)
      ensures runs[r] == Throwing(SessionLoop(sessionId), FlowCancelled) <==> runId != r
      ensures View() == M.ResumeStatus(old(View()), r, sessionId, status)
    {
      var loop := SessionLoop(sessionId);
      if runId != r {
        runs := runs[r := Throwing(loop, FlowCancelled)];
      } else if status == SessionReady {
        runs := runs[r := SessionDone(sessionId)];
      } else if status == SessionExpired {
        runs := runs[r := Throwing(loop, M.SESSION_EXPIRED)];
      } else {
        Delay(r, AwaitInterval(loop, nextTimer), M.PollMs(config, loop));
      }
    }

    /** One round of `pollJob`, from the reply on: the current run publishes the counts, a superseded one nothing. */
    method ResumeJob(r: nat, jobId: string, job: JobView)
      modifies this
      ensures runs.Keys == old(runs).Keys + {r} && runId == old(runId)
      ensures runId != r ==> View() == old(View()).(runs := old(runs)[r := Throwing(JobLoop(jobId), FlowCancelled)])
      ensures runId == r ==>
                && state == old(state).(progress := Some(Progress(job.total, job.completed, job.failed)))
                && log == Snoc(old(log), Wrote(r, state)) && popup == old(popup)
      ensures runs[r].JobDone? <==> runId == r && job.status == JobComplete
      ensures runs[r].JobDone? ==>
                runs[r] == JobDone(jobId, CompleteResult(job.savedIds.GetOr([]), job.total, job.completed, job.failed))
      ensures runs[r].Throwing? && runs[r].error.Failure? <==> runId == r && job.status == JobFailed
      ensures runs[r].Throwing? && runs[r].error.Failure? ==> runs[r].error == Failure(L.FailureMessage(job), false)
      ensures runs[r].AwaitInterval? <==> runId == r && (job.status == JobPending || job.status == JobRunning)
      ensures runs[r].AwaitInterval? ==>
                && runs[r] == AwaitInterval(JobLoop(jobId), old(nextTimer)) && waiters == old(waiters) + {old(nextTimer)}
                && timers == old(timers)[old(nextTimer) := Timer(r, config.jobPollMs.GetOr(1500))]
      ensures !runs[r].AwaitInterval? ==> waiters == old(waiters) && timers == old(timers)
      ensures View() == M.ResumeJob(old(View()), r, jobId, job)
    {
      var loop := JobLoop(jobId);
      if runId != r {
        runs := runs[r := Throwing(loop, FlowCancelled)];
        return;
      }
      SetState(r, state.(progress := Some(CountsOf(job))));
      if job.status == JobComplete {
        runs := runs[r := JobDone(jobId, ResultOf(job))];
        return;
      }
      if job.status == JobFailed {
        runs := runs[r := Throwing(loop, M.JobError(job))];
        return;
      }
      Delay(r, AwaitInterval(loop, nextTimer), M.PollMs(config, loop));
    }

    /** What the continuation of `connect()` comes to when it goes wrong, and when it resolves. */
    static lemma ConnectUnfolds(f: M.Flow, r: nat, windowClosed: bool)
      requires r in f.runs && (f.runs[r].GotConsentUrl? || f.runs[r].OAuthSettled?)
      ensures M.Resume(f, r, windowClosed) ==
              match f.runs[r]
              case GotConsentUrl(Err(e)) => M.Catch(f, r, e)
              case GotConsentUrl(Ok(_)) =>
                if f.runId != r then M.Catch(f, r, FlowCancelled)
                else if windowClosed then M.Catch(f, r, M.OAUTH_WINDOW_CLOSED)
                else M.WaitForOAuth(f, r)
              case OAuthSettled(Some(e)) => M.Catch(f, r, e)
              case _ =>
                M.End(M.SetState(M.ClosePopup(f), r, f.state.(phase := Idle, connected := Some(true))), r, ConnectResolved)
    {
      hide M.Catch, M.WaitForOAuth, M.End;
    }

    /**
      `connect()` after its awaits. It goes on to wait for the message, or it is over and the window closed. A superseded
      run writes nothing, unless its message had arrived.
     */
    method ResumeConnect(r: nat, windowClosed: bool)
      requires r in runs && (runs[r].GotConsentUrl? || runs[r].OAuthSettled?)
      modifies this
      ensures r in runs <==> old(runs[r]).GotConsentUrl? && old(runs[r]).consent.Ok? && runId == r && !windowClosed
      ensures r in runs ==> runs[r] == AwaitOAuth && r in listeners && r in intervals && r in timeouts
      ensures r in runs ==> state == old(state) && popup == old(popup) && log == old(log)
      ensures r !in runs ==> popup == None && log.Snoc? && log.last.Finished? && log.last.run == r
      ensures old(runs[r]) == OAuthSettled(None) ==>
                state == old(state).(phase := Idle, connected := Some(true)) && log.last.outcome == ConnectResolved
      ensures old(runs[r]) != OAuthSettled(None) && runId != r ==> state == old(state)
      ensures old(runs[r]) != OAuthSettled(None) && r !in runs ==>
                log.last.outcome == Rejected(match old(runs[r])
                                             case GotConsentUrl(Err(e)) => e
                                             case OAuthSettled(Some(e)) => e
                                             case _ => if runId != r then FlowCancelled
                                                       else Failure("Authorisation window was closed.", false))
      ensures View() == M.Resume(old(View()), r, windowClosed)
    {
      ConnectUnfolds(View(), r, windowClosed);
      hide M.Catch, M.Resume, WaitsUntouched;
      match runs[r]
      case GotConsentUrl(Err(e)) => Catch(r, e);
      case GotConsentUrl(Ok(_)) =>
        if runId != r {
          Catch(r, FlowCancelled);
        } else if windowClosed {
          Catch(r, M.OAUTH_WINDOW_CLOSED);
        } else {
          listeners, intervals, timeouts := listeners + {r}, intervals + {r}, timeouts + {r};
          runs := runs[r := AwaitOAuth];
        }
      case OAuthSettled(Some(e)) => Catch(r, e);
      case OAuthSettled(None) =>
        ClosePopup();
        SetState(r, state.(phase := Idle, connected := Some(true)));
        End(r, ConnectResolved);
    }

    /**
      `start()` up to the picker's poll loop. It goes on to poll the session it was given, or it rejects with the window
      closed; a superseded run writes nothing.
     */
    method ResumePicking(r: nat, windowClosed: bool)
      requires r in runs && (runs[r].GotSession? || runs[r].Throwing?)
      modifies this
      ensures r in runs <==> old(runs[r]).GotSession? && old(runs[r]).session.Ok? && runId == r && !windowClosed
      ensures r in runs ==> state == old(state).(phase := Picking) && popup == old(popup)
      ensures r in runs ==> log.Snoc? && log.last == Asked(r, PollSessionRequest(old(runs[r]).session.value))
      ensures r !in runs ==>
                && popup == None && log.Snoc?
                && log.last == Finished(r, Rejected(match old(runs[r])
                                                    case GotSession(Err(e)) => e
                                                    case Throwing(_, e) => e
                                                    case _ => if runId != r then FlowCancelled
                                                              else Failure("Picker window was closed.", false)))
      ensures runId != r ==> state == old(state)
      ensures View() == M.Resume(old(View()), r, windowClosed)
    {
      hide M.Catch, M.ResumePollFailed, M.ResumeStatus, M.ResumeJob;
      match runs[r]
      case GotSession(Err(e)) => Catch(r, e);
      case GotSession(Ok(sessionId)) =>
        if runId != r {
          Catch(r, FlowCancelled);
        } else if windowClosed {
          Catch(r, M.PICKER_CLOSED);
        } else {
          SetState(r, state.(phase := Picking));
          Ask(r, AwaitPoll(SessionLoop(sessionId), 0));
        }
      case Throwing(_, e) => Catch(r, e);
    }

    /**
      `start()` after the session loop and after the job loop: it goes on, or is done with its result, and writes so,
      whether or not it is current.
     */
    method ResumeImporting(r: nat, windowClosed: bool)
      requires r in runs && (runs[r].SessionDone? || runs[r].JobDone?)
      modifies this
      ensures old(runs[r]).SessionDone? ==>
                && popup == None && state == old(state).(phase := Importing)
                && log.Snoc? && log.last == Asked(r, ImportRequest(old(runs[r]).sessionId))
      ensures old(runs[r]).JobDone? ==>
                && r !in runs && state == old(state).(phase := Done, result := Some(old(runs[r]).result))
                && log.Snoc? && log.last == Finished(r, StartResolved(old(runs[r]).result))
      ensures View() == M.Resume(old(View()), r, windowClosed)
    {
      hide M.Catch, M.ResumePollFailed, M.ResumeStatus, M.ResumeJob, M.Delay, M.WaitForOAuth;
      match runs[r]
      case SessionDone(sessionId) =>
        ClosePopup();
        SetState(r, state.(phase := Importing));
        Ask(r, AwaitImport(sessionId));
      case JobDone(_, result) =>
        SetState(r, state.(phase := Done, result := Some(result)));
        End(r, StartResolved(result));
    }

    /** `start()` after its import request: only the current run goes on, to poll the job it was given. */
    method ResumeStarted(r: nat, windowClosed: bool)
      requires r in runs && runs[r].GotImport?
      modifies this
      ensures r in runs <==> old(runs[r]).job.Ok? && runId == r
      ensures r in runs ==> state == old(state) && log == Snoc(old(log), Asked(r, PollJobRequest(old(runs[r]).job.value)))
      ensures r !in runs ==>
                && popup == None && log.Snoc?
                && log.last == Finished(r, Rejected(match old(runs[r]).job
                                                    case Err(e) => e
                                                    case Ok(_) => FlowCancelled))
      ensures runId != r ==> state == old(state)
      ensures View() == M.Resume(old(View()), r, windowClosed)
    {
      hide M.Catch, M.ResumePollFailed, M.ResumeStatus, M.ResumeJob;
      match runs[r].job
      case Err(e) => Catch(r, e);
      case Ok(jobId) =>
        if runId != r {
          Catch(r, FlowCancelled);
        } else {
          Ask(r, AwaitPoll(JobLoop(jobId), 0));
        }
    }

    /** What the continuations without a method of their own come to. */
    static lemma ResumeUnfolds(f: M.Flow, r: nat, windowClosed: bool)
      requires r in f.runs
      ensures var g := M.Resume(f, r, windowClosed);
              match f.runs[r]
              case GotStatus(sessionId, status) => g == M.ResumeStatus(f, r, sessionId, status)
              case GotJob(jobId, job) => g == M.ResumeJob(f, r, jobId, job)
              case PollFailed(loop, failures, e) => g == M.ResumePollFailed(f, r, loop, failures, e)
              case BackoffOver(loop, failures) => g == M.Ask(f, r, AwaitPoll(loop, failures))
              case IntervalOver(loop) => g == M.Ask(f, r, AwaitPoll(loop, 0))
              case pc => pc.Suspended() ==> g == f
    {
      hide M.ResumePollFailed, M.ResumeStatus, M.ResumeJob, M.Catch, M.Ask;
    }

    /** The continuation of run `r`, whose awaited promise has settled. */
    method Continue(r: nat, windowClosed: bool)
      requires Valid()
      modifies this
      ensures Valid() && View() == M.Step(old(View()), M.Continue(r, windowClosed))
    {
      StepInv(View(), M.Continue(r, windowClosed));
      hide Inv, Waits, M.Resume, M.ResumePollFailed, M.ResumeStatus, M.ResumeJob, M.Ask;
      if r !in runs {
        ResumeNobody(View(), r, windowClosed);
      } else {
        ResumeUnfolds(View(), r, windowClosed);
        match runs[r]
        case GotConsentUrl(_) => ResumeConnect(r, windowClosed);
        case OAuthSettled(_) => ResumeConnect(r, windowClosed);
        case GotStatus(sessionId, status) => ResumeStatus(r, sessionId, status);
        case GotJob(jobId, job) => ResumeJob(r, jobId, job);
        case PollFailed(loop, failures, e) => ResumePollFailed(r, loop, failures, e);
        case BackoffOver(loop, failures) => Ask(r, AwaitPoll(loop, failures));
        case IntervalOver(loop) => Ask(r, AwaitPoll(loop, 0));
        case GotSession(_) => ResumePicking(r, windowClosed);
        case SessionDone(_) => ResumeImporting(r, windowClosed);
        case GotImport(_, _) => ResumeStarted(r, windowClosed);
        case JobDone(_, _) => ResumeImporting(r, windowClosed);
        case Throwing(_, _) => ResumePicking(r, windowClosed);
        case _ =>
      }
    }
  }
}
