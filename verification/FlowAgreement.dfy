/**
  The published phase and the coroutines: when they agree. Some continuations write without looking at the run counter,
  so the agreement rests on no call superseding a run that stands at such a point. Between tasks of the event loop no
  run stands there.
 */
module FlowAgreement {
  import opened Wrappers
  import opened Histories
  import opened Backoff
  import opened FlowTypes
  import opened FlowModel
  import opened FlowInvariants

  /** The phase a run stands for while it is at `pc`. */
  function PhaseOf(pc: Pc): Phase {
    match pc
    case AwaitConsentUrl | GotConsentUrl(_) | AwaitOAuth | OAuthSettled(_) => Connecting
    case AwaitSession | GotSession(_) => Creating
    case AwaitPoll(loop, _) => LoopPhase(loop)
    case AwaitBackoff(loop, _, _) => LoopPhase(loop)
    case AwaitInterval(loop, _) => LoopPhase(loop)
    case PollFailed(loop, _, _) => LoopPhase(loop)
    case BackoffOver(loop, _) => LoopPhase(loop)
    case IntervalOver(loop) => LoopPhase(loop)
    case Throwing(loop, _) => LoopPhase(loop)
    case GotStatus(_, _) | SessionDone(_) => Picking
    case AwaitImport(_) | GotImport(_, _) | GotJob(_, _) | JobDone(_, _) => Importing
  }

  function LoopPhase(loop: Loop): Phase {
    match loop
    case SessionLoop(_) => Picking
    case JobLoop(_) => Importing
  }

  predicate Active(phase: Phase) {
    phase.Connecting? || phase.Creating? || phase.Picking? || phase.Importing?
  }

  /** The next continuation writes the state without checking the run counter (lines 152, 195, 211 of the source). */
  predicate Armed(pc: Pc) {
    match pc
    case OAuthSettled(None) => true
    case SessionDone(_) => true
    case JobDone(_, _) => true
    case _ => false
  }

  /** The next continuation writes or asks without checking the run counter. */
  predicate Committed(pc: Pc) {
    Armed(pc) || pc.BackoffOver? || pc.IntervalOver?
  }

  predicate IsCall(e: Event) {
    e.ConnectCall? || e.StartCall? || e.CancelCall?
  }

  /** `e` does not take the run counter away from a run that is about to write without checking it. */
  predicate Polite(f: Flow, e: Event) {
    IsCall(e) && f.runId in f.runs ==> !Armed(f.runs[f.runId])
  }

  /** No superseded run stands at an unguarded write. */
  ghost predicate StaleHarmless(f: Flow) {
    forall r <- f.runs :: r != f.runId ==> !Armed(f.runs[r])
  }

  /** An active phase means that the run with the current number is live and stands at an await of that phase. */
  predicate PhaseAgrees(f: Flow) {
    if f.runId in f.runs then f.state.phase == PhaseOf(f.runs[f.runId])
    else !Active(f.state.phase)
  }

  /** The window kept is the one the current run opened, and only while that run still needs it. */
  predicate PopupAgrees(f: Flow) {
    f.popup.Some? ==>
      && f.popup.value == f.runId
      && (f.state.phase.Connecting? || f.state.phase.Creating? || f.state.phase.Picking?)
  }

  /** Before `done` is written the counts it will carry are already published as progress. */
  predicate ResultAgrees(f: Flow) {
    && (f.state.phase.Done? ==> f.state.result.Some? && f.state.progress == Some(ResultCounts(f.state.result.value)))
    && (f.runId in f.runs && f.runs[f.runId].JobDone? ==>
          f.state.progress == Some(ResultCounts(f.runs[f.runId].result)))
  }

  /** A `start()` shows nothing of an earlier one. */
  predicate StartsAfresh(f: Flow) {
    && (f.state.phase.Creating? || f.state.phase.Picking? ==> f.state.result == None && f.state.progress == None)
    && (f.state.phase.Importing? ==> f.state.result == None)
  }

  ghost predicate Agreement(f: Flow) {
    && StaleHarmless(f)
    && PhaseAgrees(f)
    && PopupAgrees(f)
    && ResultAgrees(f)
    && StartsAfresh(f)
    && (f.state.expired ==> f.state.phase.Error?)
  }

  lemma InitAgreement(config: Config)
    ensures Agreement(Init(config))
  {
  }

  /** A call's number is new, and every run it supersedes checks the counter before it writes. */
  lemma PoliteCall(f: Flow, e: Event)
    requires RunsOk(f) && StaleHarmless(f) && IsCall(e) && Polite(f, e)
    ensures f.runId + 1 !in f.runs
    ensures forall r <- f.runs :: !Armed(f.runs[r])
  {
  }

  lemma ConnectAgreement(f: Flow, gotWindow: bool)
    requires RunsOk(f) && Agreement(f) && Polite(f, ConnectCall(gotWindow))
    ensures Agreement(Connect(f, gotWindow))
  {
    PoliteCall(f, ConnectCall(gotWindow));
    hide Armed, RunsOk;
  }

  lemma StartAgreement(f: Flow, gotWindow: bool)
    requires RunsOk(f) && Agreement(f) && Polite(f, StartCall(gotWindow))
    ensures Agreement(Start(f, gotWindow))
  {
    PoliteCall(f, StartCall(gotWindow));
    hide Armed, RunsOk;
  }

  lemma CancelAgreement(f: Flow)
    requires RunsOk(f) && Agreement(f) && Polite(f, CancelCall)
    ensures Agreement(Cancel(f))
  {
    PoliteCall(f, CancelCall);
    hide RunsOk;
    forall pc: Pc
      ensures Armed(AfterDelays(pc, f.waiters, false)) ==> Armed(pc)
    {
    }
    hide Armed, AfterDelays;
  }

  /** One run moves from `f.runs[r]` to `pc` without touching the state. */
  lemma MoveAgreement(f: Flow, g: Flow, r: nat)
    requires Agreement(f) && r in f.runs && r in g.runs
    requires g.runId == f.runId && g.state == f.state && g.popup == f.popup
    requires g.runs == f.runs[r := g.runs[r]]
    requires r == f.runId ==> PhaseOf(g.runs[r]) == PhaseOf(f.runs[r]) && !g.runs[r].JobDone?
    requires r != f.runId ==> !Armed(g.runs[r])
    ensures Agreement(g)
  {
    hide Armed, PhaseOf;
  }

  /** A promise settles: nobody's state changes, and a superseded run moves towards its end only. */
  lemma SettleFetchAgreement(f: Flow, r: nat, reply: Reply)
    requires Agreement(f)
    ensures Agreement(SettleFetch(f, r, reply)) && SettleFetch(f, r, reply).state == f.state
  {
    var g := SettleFetch(f, r, reply);
    if g != f {
      assert PhaseOf(g.runs[r]) == PhaseOf(f.runs[r]) && !Armed(g.runs[r]);
      hide Agreement;
      MoveAgreement(f, g, r);
    }
  }

  lemma FireTimerAgreement(f: Flow, t: nat)
    requires DelaysOk(f) && Agreement(f)
    ensures Agreement(FireTimer(f, t)) && FireTimer(f, t).state == f.state
  {
    var g := FireTimer(f, t);
    if t in f.timers {
      var r := f.timers[t].run;
      assert r in f.runs && DelayTimer(f.runs[r]) == Some(t);
      hide Agreement, DelaysOk;
      MoveAgreement(f, g, r);
    }
  }

  lemma SettleOAuthAgreement(f: Flow, r: nat, refusal: Option<Thrown>)
    requires Agreement(f) && r in f.runs && f.runs[r].AwaitOAuth?
    requires refusal == None ==> r == f.runId
    ensures Agreement(SettleOAuth(f, r, refusal)) && SettleOAuth(f, r, refusal).state == f.state
  {
    hide Agreement;
    MoveAgreement(f, SettleOAuth(f, r, refusal), r);
  }

  predicate Settles(e: Event) {
    e.FetchSettles? || e.TimerFires? || e.MessageArrives? || e.WatchdogTicks? || e.OAuthTimesOut?
  }

  lemma SettleAgreement(f: Flow, e: Event)
    requires Inv(f) && Agreement(f) && Settles(e)
    ensures Agreement(Step(f, e))
    ensures Step(f, e).state == f.state && Step(f, e).runId == f.runId
    ensures Step(f, e).runs.Keys == f.runs.Keys
  {
    SettledKeys(f, e);
    hide Agreement, DelaysOk, AfterReply, MessageAccepted;
    match e
    case FetchSettles(r, reply) => SettleFetchAgreement(f, r, reply);
    case TimerFires(t) => FireTimerAgreement(f, t);
    case MessageArrives(r, _, data) =>
      if Step(f, e) != f {
        SettleOAuthAgreement(f, r, if f.runId != r then Some(FlowCancelled) else RefusalOf(data.value));
      }
    case WatchdogTicks(r) =>
      if Step(f, e) != f {
        SettleOAuthAgreement(f, r, Some(FlowCancelled));
      }
    case OAuthTimesOut(r) =>
      if Step(f, e) != f {
        SettleOAuthAgreement(f, r, Some(OAUTH_TIMED_OUT));
      }
    case _ =>
  }

  /** A settled promise neither starts nor ends a run. */
  lemma SettledKeys(f: Flow, e: Event)
    requires Inv(f) && Settles(e)
    ensures Step(f, e).runs.Keys == f.runs.Keys && Step(f, e).runId == f.runId
  {
    hide AfterReply, AfterDelays, MessageAccepted, DelaysOk, RunsOk;
  }

  lemma StatusAgreement(f: Flow, e: Event)
    requires Inv(f) && Agreement(f)
    requires e.StatusSettles? || e.DisconnectSettles?
    ensures Agreement(Step(f, e))
  {
  }

  /** Ending a run by an error: a superseded one leaves the state alone, the current one leaves it in `error`. */
  lemma CatchAgreement(f: Flow, r: nat, e: Thrown)
    requires Agreement(f) && r in f.runs
    requires e.FlowCancelled? ==> r != f.runId
    ensures Agreement(Catch(f, r, e))
    ensures r != f.runId ==> Catch(f, r, e).state == f.state
  {
  }

  /** A superseded run's continuation never touches the state. */
  lemma StaleContinueAgreement(f: Flow, r: nat, windowClosed: bool)
    requires Inv(f) && Agreement(f) && r in f.runs && r != f.runId
    ensures Agreement(Resume(f, r, windowClosed))
    ensures Resume(f, r, windowClosed).state == f.state
  {
    hide Inv;
    assert !Armed(f.runs[r]);
    match f.runs[r]
    case GotConsentUrl(Err(e)) => CatchAgreement(f, r, e);
    case GotConsentUrl(Ok(_)) => CatchAgreement(f, r, FlowCancelled);
    case OAuthSettled(Some(e)) => CatchAgreement(f, r, e);
    case GotSession(Err(e)) => CatchAgreement(f, r, e);
    case GotSession(Ok(_)) => CatchAgreement(f, r, FlowCancelled);
    case GotImport(_, Err(e)) => CatchAgreement(f, r, e);
    case GotImport(_, Ok(_)) => CatchAgreement(f, r, FlowCancelled);
    case Throwing(_, e) => CatchAgreement(f, r, e);
    case _ =>
  }

  /** The current run writes `state` and moves on to a point that belongs to it. */
  lemma AdvanceAgreement(f: Flow, g: Flow)
    requires Agreement(f) && f.runId in f.runs && !f.runs[f.runId].JobDone?
    requires OnlyMoves(f, g, f.runId) && f.runId in g.runs
    requires g.popup == f.popup && g.state == f.state.(progress := g.state.progress)
    requires PhaseOf(g.runs[g.runId]) == PhaseOf(f.runs[f.runId])
    requires g.state.progress != f.state.progress ==> PhaseOf(f.runs[f.runId]).Importing?
    requires g.runs[g.runId].JobDone? ==> g.state.progress == Some(ResultCounts(g.runs[g.runId].result))
    ensures Agreement(g)
  {
    assert forall q <- f.runs | q != f.runId :: !Armed(f.runs[q]);
    assert Active(PhaseOf(f.runs[f.runId]));
    hide Armed, PhaseOf;
  }

  lemma CurrentPollAgreement(f: Flow)
    requires Agreement(f) && f.runId in f.runs
    requires f.runs[f.runId].GotStatus? || f.runs[f.runId].GotJob? || f.runs[f.runId].PollFailed?
    ensures Agreement(Resume(f, f.runId, false))
  {
    ResumePollShape(f, f.runId, false);
    hide Agreement, BackoffMs, PollMs;
    AdvanceAgreement(f, Resume(f, f.runId, false));
  }

  lemma CurrentErrorAgreement(f: Flow, windowClosed: bool)
    requires Inv(f) && Agreement(f) && f.runId in f.runs
    ensures var pc := f.runs[f.runId];
            pc.GotConsentUrl? || pc.GotSession? || pc.GotImport? || pc.OAuthSettled? || pc.Throwing? ==>
              Agreement(Resume(f, f.runId, windowClosed))
  {
    var r := f.runId;
    RunFacts(f, r);
    hide Inv;
    match f.runs[r]
    case GotConsentUrl(Err(e)) => hide Agreement; CatchAgreement(f, r, e);
    case GotConsentUrl(Ok(_)) => if windowClosed { hide Agreement; CatchAgreement(f, r, OAUTH_WINDOW_CLOSED); }
    case OAuthSettled(Some(e)) => hide Agreement; CatchAgreement(f, r, e);
    case OAuthSettled(None) =>
    case GotSession(Err(e)) => hide Agreement; CatchAgreement(f, r, e);
    case GotSession(Ok(_)) => if windowClosed { hide Agreement; CatchAgreement(f, r, PICKER_CLOSED); }
    case GotImport(_, Err(e)) => hide Agreement; CatchAgreement(f, r, e);
    case GotImport(_, Ok(_)) =>
    case Throwing(_, e) => hide Agreement; CatchAgreement(f, r, e);
    case _ =>
  }

  lemma CurrentContinueAgreement(f: Flow, windowClosed: bool)
    requires Inv(f) && Agreement(f) && f.runId in f.runs
    ensures Agreement(Resume(f, f.runId, windowClosed))
  {
    CurrentErrorAgreement(f, windowClosed);
    hide Inv;
    match f.runs[f.runId]
    case GotStatus(_, _) => CurrentPollAgreement(f);
    case GotJob(_, _) => CurrentPollAgreement(f);
    case PollFailed(_, _, _) => CurrentPollAgreement(f);
    case SessionDone(_) =>
    case JobDone(_, _) =>
    case BackoffOver(_, _) =>
    case IntervalOver(_) =>
    case _ =>
  }

  lemma StepAgreement(f: Flow, e: Event)
    requires Inv(f) && Agreement(f) && Polite(f, e)
    ensures Agreement(Step(f, e))
  {
    hide Inv, Agreement, Resume, Connect, Start, Cancel, Message, SettleFetch, FireTimer;
    match e
    case ConnectCall(gotWindow) => InvParts(f); ConnectAgreement(f, gotWindow);
    case StartCall(gotWindow) => InvParts(f); StartAgreement(f, gotWindow);
    case CancelCall => InvParts(f); CancelAgreement(f);
    case StatusSettles(_) | DisconnectSettles(_) => StatusAgreement(f, e);
    case Continue(r, windowClosed) =>
      if r !in f.runs {
        ResumeNobody(f, r, windowClosed);
      } else if r == f.runId {
        CurrentContinueAgreement(f, windowClosed);
      } else {
        StaleContinueAgreement(f, r, windowClosed);
      }
    case _ => SettleAgreement(f, e);
  }

  /** No call of this run of events supersedes a run that stands at an unguarded write. */
  predicate AllPolite(f: Flow, events: seq<Event>)
    decreases |events|
  {
    events == [] || (Polite(f, events[0]) && AllPolite(Step(f, events[0]), events[1..]))
  }

  /**
    Phase and coroutines agree in every state reached by any number of overlapping calls, replies, timers and messages
    in any order, provided no call cuts in at an unguarded write.
   */
  lemma {:induction false} RunAgreement(f: Flow, events: seq<Event>)
    requires Inv(f) && Agreement(f) && AllPolite(f, events)
    ensures Inv(Run(f, events)) && Agreement(Run(f, events))
    decreases |events|
  {
    if events != [] {
      StepInv(f, events[0]);
      StepAgreement(f, events[0]);
      RunAgreement(Step(f, events[0]), events[1..]);
    }
  }

  // ----- tasks of the event loop -----

  /** No continuation is queued: the microtask queue has drained. */
  ghost predicate Quiescent(f: Flow) {
    forall r <- f.runs :: f.runs[r].Suspended()
  }

  /** Every event that is not a continuation starts a task, and a task starts only when the last one has drained. */
  ghost predicate TaskByTask(f: Flow, events: seq<Event>)
    decreases |events|
  {
    events == [] || ((events[0].Continue? || Quiescent(f)) && TaskByTask(Step(f, events[0]), events[1..]))
  }

  /** At task granularity nothing cuts in at an unguarded write, so everything above applies. */
  lemma {:induction false} TasksArePolite(f: Flow, events: seq<Event>)
    requires TaskByTask(f, events)
    ensures AllPolite(f, events)
    decreases |events|
  {
    if events != [] {
      TasksArePolite(Step(f, events[0]), events[1..]);
    }
  }

  /**
    Everything above, for every reachable state: from a new flow, whatever calls, replies, timers and messages come in
    whatever order, as long as each task of the event loop runs to its end. Between tasks the phase is active exactly if
    the run with the current number is live, and that run is suspended at an await of that phase.
   */
  lemma PhaseMeansRun(config: Config, events: seq<Event>)
    requires TaskByTask(Init(config), events)
    ensures var f := Run(Init(config), events);
            && Inv(f) && Agreement(f)
            && (Quiescent(f) ==>
                  && (Active(f.state.phase) <==> f.runId in f.runs)
                  && (f.runId in f.runs ==> f.runs[f.runId].Suspended() && f.state.phase == PhaseOf(f.runs[f.runId])))
  {
    hide Run, Inv, StaleHarmless, PopupAgrees, ResultAgrees, StartsAfresh, TaskByTask, AllPolite;
    InitInv(config);
    InitAgreement(config);
    TasksArePolite(Init(config), events);
    RunAgreement(Init(config), events);
  }

  /** Steps a queued continuation still has before its run is suspended or has ended. */
  function HopsLeft(pc: Pc): nat {
    match pc
    case GotStatus(_, _) | GotJob(_, _) | PollFailed(_, _, _) => 2
    case _ => if pc.Suspended() then 0 else 1
  }

  /** A microtask drain ends: each continuation moves its own run strictly closer to a suspension or its end. */
  lemma DrainProgress(f: Flow, r: nat, windowClosed: bool)
    requires r in f.runs && !f.runs[r].Suspended()
    ensures var g := Resume(f, r, windowClosed); r in g.runs ==> HopsLeft(g.runs[r]) < HopsLeft(f.runs[r])
  {
  }

  /** Runs `r`'s queued continuations until it is suspended or gone. */
  function Drain(f: Flow, r: nat): Flow
    decreases if r in f.runs then HopsLeft(f.runs[r]) else 0
  {
    if r !in f.runs || f.runs[r].Suspended() then f
    else
      DrainProgress(f, r, false);
      Drain(Resume(f, r, false), r)
  }

  /** The superseded run `r` is woken by `e`. */
  predicate Wakes(f: Flow, r: nat, e: Event) {
    match e
    case FetchSettles(q, reply) => q == r && r in f.runs && RequestAt(f.runs[r]).Some? && AfterReply(f.runs[r], reply).Some?
    case TimerFires(t) => r in f.runs && DelayTimer(f.runs[r]) == Some(t)
    case MessageArrives(q, _, _) => q == r && r in f.runs && f.runs[r].AwaitOAuth?
    case WatchdogTicks(q) => q == r && r in f.runs && f.runs[r].AwaitOAuth?
    case OAuthTimesOut(q) => q == r && r in f.runs && f.runs[r].AwaitOAuth?
    case _ => false
  }

  /**
    A superseded run that is woken, by whatever it was waiting for, ends within that task and changes no state. That it
    asks for nothing either is `WaitingStaleRunIsSilent`.
   */
  lemma StaleWakeEnds(f: Flow, r: nat, e: Event)
    requires Inv(f) && r != f.runId && Wakes(f, r, e)
    ensures r !in Drain(Step(f, e), r).runs
    ensures Drain(Step(f, e), r).state == f.state
  {
    var g := Step(f, e);
    assert r in g.runs && g.runId == f.runId && g.state == f.state;
    assert !g.runs[r].Suspended() && !Committed(g.runs[r]);
    StaleDrains(g, r);
  }

  lemma {:induction false} StaleDrains(f: Flow, r: nat)
    requires r in f.runs && r != f.runId && !f.runs[r].Suspended() && !Committed(f.runs[r])
    ensures r !in Drain(f, r).runs
    ensures Drain(f, r).state == f.state
    decreases HopsLeft(f.runs[r])
  {
    var g := Resume(f, r, false);
    DrainProgress(f, r, false);
    if r in g.runs {
      StaleDrains(g, r);
    }
  }

  // ----- after cancel() -----

  /** `refreshStatus()` or `disconnect()` settles. */
  predicate IsStatus(e: Event) {
    e.StatusSettles? || e.DisconnectSettles?
  }

  /** The part of the state that only runs and calls write. */
  predicate SameButConnection(s: FlowState, t: FlowState) {
    s.(connected := t.connected, error := t.error) == t
  }

  /**
    After `cancel()` no field of the state moves until the next `connect()` or `start()`, but for what `refreshStatus()`
    and `disconnect()` write.
   */
  lemma {:induction false} QuietAfterCancel(f: Flow, events: seq<Event>)
    requires Inv(f) && Agreement(f) && f.runId !in f.runs
    requires forall e <- events :: !IsCall(e)
    ensures Run(f, events).runId !in Run(f, events).runs
    ensures SameButConnection(f.state, Run(f, events).state)
    ensures (forall e <- events :: !IsStatus(e)) ==> Run(f, events).state == f.state
    ensures !Active(Run(f, events).state.phase)
    decreases |events|
  {
    if events != [] {
      StepInv(f, events[0]);
      StepAgreement(f, events[0]);
      QuietStep(f, events[0]);
      QuietAfterCancel(Step(f, events[0]), events[1..]);
    }
  }

  lemma QuietStep(f: Flow, e: Event)
    requires Inv(f) && Agreement(f) && f.runId !in f.runs && !IsCall(e)
    ensures var g := Step(f, e); g.runId == f.runId && f.runId !in g.runs && SameButConnection(f.state, g.state)
    ensures !IsStatus(e) ==> Step(f, e).state == f.state
  {
    match e
    case StatusSettles(_) | DisconnectSettles(_) => hide Inv, Agreement;
    case Continue(r, windowClosed) =>
      ResumeLocal(f, r, windowClosed);
      if r in f.runs {
        StaleContinueAgreement(f, r, windowClosed);
      }
      hide Inv, Agreement, Resume;
    case _ =>
      SettleAgreement(f, e);
      hide Inv, Agreement, Message, SettleFetch, FireTimer, Watchdog, OAuthTimeout;
  }

  /** `cancel()` itself leaves no current run, and leaves a terminal phase alone. */
  lemma CancelIdles(f: Flow)
    requires Inv(f) && Agreement(f) && Polite(f, CancelCall)
    ensures var g := Cancel(f);
            && Inv(g) && Agreement(g) && g.runId !in g.runs
            && g.waiters == {} && g.timers == map[] && g.popup == None
            && g.state.phase == (if f.state.phase.Done? || f.state.phase.Error? then f.state.phase else Idle)
  {
    StepInv(f, CancelCall);
    CancelAgreement(f);
    ClearTimersInv(f.(runId := f.runId + 1));
  }

  // ----- nobody is stuck -----

  /** The events that can move a run on, wherever it is. */
  ghost predicate CanMove(f: Flow, r: nat, e: Event) {
    r in f.runs && (Wakes(f, r, e) || (e.Continue? && e.run == r)) && Step(f, e) != f
  }

  /**
    Every live run can go on: a request can settle, a delay's timer is armed, an OAuth wait has its timeout, and a
    queued continuation can run. With `PhaseAgrees`: an active phase is always driven by a run that can go on.
   */
  lemma NobodyStuck(f: Flow, r: nat) returns (e: Event)
    requires Inv(f) && r in f.runs
    ensures CanMove(f, r, e)
  {
    var pc := f.runs[r];
    if DelayTimer(pc).Some? {
      e := TimerFires(DelayTimer(pc).value);
      assert DelayTimer(pc).value in f.timers;
      assert DelayTimer(pc).value !in Step(f, e).timers;
    } else if pc.AwaitOAuth? {
      e := OAuthTimesOut(r);
      assert r in f.timeouts && r !in Step(f, e).timeouts;
    } else if pc.Suspended() {
      e := FetchSettles(r, FetchFailed("", false));
      assert Step(f, e).runs[r] != f.runs[r];
    } else {
      e := Continue(r, false);
      DrainProgress(f, r, false);
    }
  }
}
