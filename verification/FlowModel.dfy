/** The values `GooglePhotosFlow` publishes and exchanges with its surroundings. */
module FlowTypes {
  import opened Wrappers
  import opened Histories

  datatype Phase = Idle | Connecting | Creating | Picking | Importing | Done | Error

  datatype Progress = Progress(total: int, completed: int, failed: int)

  datatype CompleteResult = CompleteResult(savedIds: seq<string>, total: int, completed: int, failed: int)

  datatype FlowState = FlowState(
    phase: Phase,
    connected: Option<bool>,
    progress: Option<Progress>,
    result: Option<CompleteResult>,
    error: Option<string>,
    expired: bool)

  const INITIAL := FlowState(Idle, None, None, None, None, false)

  datatype SessionStatus = SessionPending | SessionReady | SessionExpired

  datatype JobStatus = JobPending | JobRunning | JobComplete | JobFailed

  /** The job record as the import endpoint serves it. `savedIds` and `error` may be missing. */
  datatype JobView = JobView(
    status: JobStatus,
    total: int,
    completed: int,
    failed: int,
    savedIds: Option<seq<string>>,
    error: Option<string>)

  function CountsOf(job: JobView): Progress {
    Progress(job.total, job.completed, job.failed)
  }

  function ResultOf(job: JobView): CompleteResult {
    CompleteResult(job.savedIds.GetOr([]), job.total, job.completed, job.failed)
  }

  function ResultCounts(result: CompleteResult): Progress {
    Progress(result.total, result.completed, result.failed)
  }

  /** What a run can throw: the internal cancellation marker, or an error with a message and the expiry flag. */
  datatype Thrown = FlowCancelled | Failure(message: string, expired: bool)

  datatype Request =
    | ConsentRequest
    | SessionRequest
    | PollSessionRequest(sessionId: string)
    | ImportRequest(sessionId: string)
    | PollJobRequest(jobId: string)

  /** How a request settles. A failed request throws anything but the flow's own cancellation marker. */
  datatype Reply =
    | ConsentReply(consentUrl: string)
    | SessionReply(sessionId: string)
    | StatusReply(status: SessionStatus)
    | StartedReply(jobId: string)
    | JobReply(job: JobView)
    | FetchFailed(message: string, expired: bool)

  datatype OAuthData = OAuthData(messageType: string, status: string, message: Option<string>)

  datatype Config = Config(
    messageType: string,
    expectedOrigin: Option<string>,
    sessionPollMs: Option<nat>,
    jobPollMs: Option<nat>)

  const DEFAULT_SESSION_POLL_MS: nat := 2000
  const DEFAULT_JOB_POLL_MS: nat := 1500

  /** The two poll loops of a `start()` run. */
  datatype Loop = SessionLoop(sessionId: string) | JobLoop(jobId: string)

  /**
    Where a run is. The `Await` points are suspended: something outside has to happen. At the others the awaited
    promise has settled and the continuation is queued; it runs later, and other code may run first.
   */
  datatype Pc =
    | AwaitConsentUrl
    | AwaitOAuth
    | AwaitSession
    | AwaitImport(sessionId: string)
    | AwaitPoll(loop: Loop, failures: nat)
    | AwaitBackoff(loop: Loop, failures: nat, timer: nat)
    | AwaitInterval(loop: Loop, timer: nat)
      // queued continuations
    | GotConsentUrl(consent: Result<string, Thrown>)
    | OAuthSettled(refusal: Option<Thrown>)
    | GotSession(session: Result<string, Thrown>)
    | GotImport(sessionId: string, job: Result<string, Thrown>)
    | PollFailed(loop: Loop, failures: nat, error: Thrown)
    | GotStatus(sessionId: string, status: SessionStatus)
    | GotJob(jobId: string, view: JobView)
    | BackoffOver(loop: Loop, failures: nat)
    | IntervalOver(loop: Loop)
    | SessionDone(sessionId: string)
    | JobDone(jobId: string, result: CompleteResult)
    | Throwing(loop: Loop, error: Thrown)
  {
    /** Nothing of this run is queued: it waits for a reply, a timer or a message. */
    predicate Suspended() {
      AwaitConsentUrl? || AwaitOAuth? || AwaitSession? || AwaitImport? || AwaitPoll? || AwaitBackoff? || AwaitInterval?
    }
  }

  /** How the promise of `connect()` or `start()` settled. */
  datatype Outcome = ConnectResolved | StartResolved(result: CompleteResult) | Rejected(error: Thrown)

  /** What a run does that others can see. Writer 0 stands for writes that belong to no run. */
  datatype Obs =
    | Wrote(run: nat, state: FlowState)
    | Asked(run: nat, request: Request)
    | Replied(run: nat, request: Request, reply: Reply)
    | DelaysSettled(timers: set<nat>)
    | OAuthWaitSettled(run: nat)
    | Finished(run: nat, outcome: Outcome)

  type History = Log<Obs>

  /** An armed `setTimeout` of a cancellable delay. */
  datatype Timer = Timer(run: nat, ms: nat)
}

/**
  `GooglePhotosFlow` as a transition system over values. One step is one event: a call, a settled request, a timer,
  a message, or the continuation of a run whose promise has settled. A run is identified by the number it took from
  the shared counter, and its window by the run that opened it.
 */
module FlowModel {
  import opened Wrappers
  import opened Histories
  import opened Backoff
  import opened FlowTypes

  datatype Flow = Flow(
    config: Config,
    state: FlowState,
    runId: nat,
    popup: Option<nat>,
    waiters: set<nat>,        // pending cancellable delays, by timer handle
    runs: map<nat, Pc>,       // the calls of connect() and start() that have not settled
    timers: map<nat, Timer>,  // delay timers armed in the browser
    nextTimer: nat,
    listeners: set<nat>,      // OAuth waits by run: message listener, watchdog interval, timeout
    intervals: set<nat>,
    timeouts: set<nat>,
    log: History)

  function Init(config: Config): Flow {
    Flow(config, INITIAL, 0, None, {}, map[], map[], 0, {}, {}, {}, Empty)
  }

  datatype Event =
    | ConnectCall(gotWindow: bool)
    | StartCall(gotWindow: bool)
    | CancelCall
    | StatusSettles(connected: Option<bool>)
    | DisconnectSettles(error: Option<string>)
    | FetchSettles(run: nat, reply: Reply)
    | TimerFires(timer: nat)
    | MessageArrives(run: nat, origin: string, data: Option<OAuthData>)
    | WatchdogTicks(run: nat)
    | OAuthTimesOut(run: nat)
    | Continue(run: nat, windowClosed: bool)

  // ----- pieces of the class -----

  function Remember(f: Flow, o: Obs): Flow {
    f.(log := Snoc(f.log, o))
  }

  function SetState(f: Flow, run: nat, state: FlowState): Flow {
    Remember(f.(state := state), Wrote(run, state))
  }

  function ClosePopup(f: Flow): Flow {
    f.(popup := None)
  }

  /** The timer of the delay a run waits in, if it waits in one. */
  function DelayTimer(pc: Pc): Option<nat> {
    match pc
    case AwaitBackoff(_, _, timer) => Some(timer)
    case AwaitInterval(_, timer) => Some(timer)
    case _ => None
  }

  /** The promise of the delay a run waits in settles. */
  function DelayOver(pc: Pc, resolved: bool): Pc {
    match pc
    case AwaitBackoff(loop, failures, _) => if resolved then BackoffOver(loop, failures) else Throwing(loop, FlowCancelled)
    case AwaitInterval(loop, _) => if resolved then IntervalOver(loop) else Throwing(loop, FlowCancelled)
    case _ => pc
  }

  /** Where a run is once the delays in `timers` have settled. */
  function AfterDelays(pc: Pc, timers: set<nat>, resolved: bool): Pc {
    if DelayTimer(pc).Some? && DelayTimer(pc).value in timers then DelayOver(pc, resolved) else pc
  }

  /** Every pending delay is disarmed and rejected. */
  function ClearTimers(f: Flow): Flow {
    Remember(
      f.(waiters := {},
      timers := f.timers - f.waiters,
      runs := map r | r in f.runs :: AfterDelays(f.runs[r], f.waiters, false)),
      DelaysSettled(f.waiters))
  }

  function PollMs(config: Config, loop: Loop): nat {
    match loop
    case SessionLoop(_) => config.sessionPollMs.GetOr(DEFAULT_SESSION_POLL_MS)
    case JobLoop(_) => config.jobPollMs.GetOr(DEFAULT_JOB_POLL_MS)
  }

  /** The run registers a delay and waits for it at `pc`, which names the new timer. */
  function Delay(f: Flow, r: nat, pc: Pc, ms: nat): Flow {
    f.(waiters := f.waiters + {f.nextTimer},
    timers := f.timers[f.nextTimer := Timer(r, ms)],
    nextTimer := f.nextTimer + 1,
    runs := f.runs[r := pc])
  }

  function RequestAt(pc: Pc): Option<Request> {
    match pc
    case AwaitConsentUrl => Some(ConsentRequest)
    case AwaitSession => Some(SessionRequest)
    case AwaitImport(sessionId) => Some(ImportRequest(sessionId))
    case AwaitPoll(SessionLoop(sessionId), _) => Some(PollSessionRequest(sessionId))
    case AwaitPoll(JobLoop(jobId), _) => Some(PollJobRequest(jobId))
    case _ => None
  }

  /** The run issues the request that belongs to `pc` and waits for it there. */
  function Ask(f: Flow, r: nat, pc: Pc): Flow
    requires RequestAt(pc).Some?
  {
    Remember(f.(runs := f.runs[r := pc]), Asked(r, RequestAt(pc).value))
  }

  /** The run goes on to `pc` in a later microtask. */
  function Queue(f: Flow, r: nat, pc: Pc): Flow {
    f.(runs := f.runs[r := pc])
  }

  function End(f: Flow, r: nat, outcome: Outcome): Flow {
    Remember(f.(runs := f.runs - {r}), Finished(r, outcome))
  }

  function HandleError(f: Flow, r: nat, e: Thrown): Flow {
    if e.FlowCancelled? || f.runId != r then f
    else SetState(f, r, f.state.(phase := Error, error := Some(e.message), expired := e.expired))
  }

  /** The catch block of `connect()` and `start()`: the window is closed before anything is checked. */
  function Catch(f: Flow, r: nat, e: Thrown): Flow {
    End(HandleError(ClosePopup(f), r, e), r, Rejected(e))
  }

  // ----- calls -----

  const POPUP_BLOCKED := Failure("Popup blocked — allow popups and retry.", false)
  const NOT_CONNECTED := Failure("Not connected to Google Photos — connect first.", false)
  const OAUTH_WINDOW_CLOSED := Failure("Authorisation window was closed.", false)
  const PICKER_CLOSED := Failure("Picker window was closed.", false)
  const SESSION_EXPIRED := Failure("The Google Photos session expired before you confirmed a selection.", true)
  const OAUTH_TIMED_OUT := Failure("Google authorisation timed out — please try again.", false)

  function Cancel(f: Flow): Flow {
    var f := ClosePopup(ClearTimers(f.(runId := f.runId + 1)));
    if f.state.phase.Done? || f.state.phase.Error? then f
    else SetState(f, 0, f.state.(phase := Idle, progress := None))
  }

  function Connect(f: Flow, gotWindow: bool): Flow {
    var r := f.runId + 1;
    var f := SetState(f.(runId := r), r, f.state.(phase := Connecting, error := None, expired := false));
    if !gotWindow then Catch(f, r, POPUP_BLOCKED)
    else Ask(f.(popup := Some(r)), r, AwaitConsentUrl)
  }

  function Start(f: Flow, gotWindow: bool): Flow {
    var r := f.runId + 1;
    var f := f.(runId := r);
    if f.state.connected == Some(false) then Catch(f, r, NOT_CONNECTED)
    else
      var f := SetState(f, r, f.state.(phase := Creating, error := None, expired := false, result := None, progress := None));
      if !gotWindow then Catch(f, r, POPUP_BLOCKED)
      else Ask(f.(popup := Some(r)), r, AwaitSession)
  }

  /** `refreshStatus()` and `disconnect()` write without being runs. */
  function SettleStatus(f: Flow, connected: Option<bool>): Flow {
    SetState(f, 0, match connected
                   case Some(c) => f.state.(connected := Some(c), error := None)
                   case None => f.state.(connected := Some(false)))
  }

  function SettleDisconnect(f: Flow, error: Option<string>): Flow {
    SetState(f, 0, match error
                   case None => f.state.(connected := Some(false), error := None)
                   case Some(message) => f.state.(error := Some(message)))
  }

  // ----- promises settle -----

  /** Where a run waiting at `pc` goes when its request settles with `reply`; None if that reply is not for it. */
  function AfterReply(pc: Pc, reply: Reply): Option<Pc> {
    match (pc, reply)
    case (AwaitConsentUrl, ConsentReply(url)) => Some(GotConsentUrl(Ok(url)))
    case (AwaitConsentUrl, FetchFailed(m, x)) => Some(GotConsentUrl(Err(Failure(m, x))))
    case (AwaitSession, SessionReply(sessionId)) => Some(GotSession(Ok(sessionId)))
    case (AwaitSession, FetchFailed(m, x)) => Some(GotSession(Err(Failure(m, x))))
    case (AwaitImport(sessionId), StartedReply(jobId)) => Some(GotImport(sessionId, Ok(jobId)))
    case (AwaitImport(sessionId), FetchFailed(m, x)) => Some(GotImport(sessionId, Err(Failure(m, x))))
    case (AwaitPoll(SessionLoop(sessionId), _), StatusReply(status)) => Some(GotStatus(sessionId, status))
    case (AwaitPoll(JobLoop(jobId), _), JobReply(view)) => Some(GotJob(jobId, view))
    case (AwaitPoll(loop, failures), FetchFailed(m, x)) => Some(PollFailed(loop, failures, Failure(m, x)))
    case _ => None
  }

  function SettleFetch(f: Flow, r: nat, reply: Reply): Flow {
    if r in f.runs && RequestAt(f.runs[r]).Some? && AfterReply(f.runs[r], reply).Some? then
      Remember(Queue(f, r, AfterReply(f.runs[r], reply).value), Replied(r, RequestAt(f.runs[r]).value, reply))
    else f
  }

  /** The callback of a delay's timer. A cleared timer is not armed and never fires. */
  function FireTimer(f: Flow, t: nat): Flow {
    if t !in f.timers then f
    else
      var r := f.timers[t].run;
      Remember(
        f.(waiters := f.waiters - {t}, timers := f.timers - {t},
        runs := if r in f.runs then f.runs[r := AfterDelays(f.runs[r], {t}, f.runId == r)] else f.runs),
        DelaysSettled({t}))
  }

  /** `finish()` of an OAuth wait, then its promise settles. */
  function SettleOAuth(f: Flow, r: nat, refusal: Option<Thrown>): Flow {
    Remember(
      f.(listeners := f.listeners - {r}, intervals := f.intervals - {r}, timeouts := f.timeouts - {r},
      runs := f.runs[r := OAuthSettled(refusal)]),
      OAuthWaitSettled(r))
  }

  predicate OriginAccepted(config: Config, origin: string) {
    config.expectedOrigin == None || config.expectedOrigin == Some(origin)
  }

  predicate MessageAccepted(config: Config, origin: string, data: Option<OAuthData>) {
    OriginAccepted(config, origin) && data.Some? && data.value.messageType == config.messageType
  }

  function RefusalOf(data: OAuthData): Option<Thrown> {
    if data.status == "success" then None
    else Some(Failure(if data.message.GetOr("") != "" then data.message.value else "Google authorisation failed.", false))
  }

  function Message(f: Flow, r: nat, origin: string, data: Option<OAuthData>): Flow {
    if r !in f.listeners then f
    else if f.runId != r then SettleOAuth(f, r, Some(FlowCancelled))
    else if !MessageAccepted(f.config, origin, data) then f
    else SettleOAuth(f, r, RefusalOf(data.value))
  }

  function Watchdog(f: Flow, r: nat): Flow {
    if r in f.intervals && f.runId != r then SettleOAuth(f, r, Some(FlowCancelled)) else f
  }

  function OAuthTimeout(f: Flow, r: nat): Flow {
    if r in f.timeouts then SettleOAuth(f, r, Some(OAUTH_TIMED_OUT)) else f
  }

  // ----- continuations -----

  function WaitForOAuth(f: Flow, r: nat): Flow {
    f.(listeners := f.listeners + {r}, intervals := f.intervals + {r}, timeouts := f.timeouts + {r},
    runs := f.runs[r := AwaitOAuth])
  }

  function ResumePollFailed(f: Flow, r: nat, loop: Loop, failures: nat, e: Thrown): Flow {
    if e.FlowCancelled? then Queue(f, r, Throwing(loop, e))
    else if f.runId != r then Queue(f, r, Throwing(loop, FlowCancelled))
    else if failures + 1 > MAX_POLL_FAILURES then Queue(f, r, Throwing(loop, e))
    else
      Delay(f, r, AwaitBackoff(loop, failures + 1, f.nextTimer), BackoffMs(PollMs(f.config, loop), failures + 1))
  }

  function ResumeStatus(f: Flow, r: nat, sessionId: string, status: SessionStatus): Flow {
    var loop := SessionLoop(sessionId);
    if f.runId != r then Queue(f, r, Throwing(loop, FlowCancelled))
    else
      match status
      case SessionReady => Queue(f, r, SessionDone(sessionId))
      case SessionExpired => Queue(f, r, Throwing(loop, SESSION_EXPIRED))
      case SessionPending => Delay(f, r, AwaitInterval(loop, f.nextTimer), PollMs(f.config, loop))
  }

  function JobError(view: JobView): Thrown {
    Failure(if view.error.GetOr("") != "" then view.error.value else "Import failed.", false)
  }

  function ResumeJob(f: Flow, r: nat, jobId: string, view: JobView): Flow {
    var loop := JobLoop(jobId);
    if f.runId != r then Queue(f, r, Throwing(loop, FlowCancelled))
    else
      var f := SetState(f, r, f.state.(progress := Some(CountsOf(view))));
      match view.status
      case JobComplete => Queue(f, r, JobDone(jobId, ResultOf(view)))
      case JobFailed => Queue(f, r, Throwing(loop, JobError(view)))
      case _ => Delay(f, r, AwaitInterval(loop, f.nextTimer), PollMs(f.config, loop))
  }

  /** The queued continuation of run `r` runs up to its next await, its next frame, or its end. */
  function Resume(f: Flow, r: nat, windowClosed: bool): Flow {
    if r !in f.runs then f
    else
      match f.runs[r]
      case GotConsentUrl(Err(e)) => Catch(f, r, e)
      case GotConsentUrl(Ok(_)) =>
        if f.runId != r then Catch(f, r, FlowCancelled)
        else if windowClosed then Catch(f, r, OAUTH_WINDOW_CLOSED)
        else WaitForOAuth(f, r)
      case OAuthSettled(Some(e)) => Catch(f, r, e)
      case OAuthSettled(None) =>
        var f := ClosePopup(f);
        End(SetState(f, r, f.state.(phase := Idle, connected := Some(true))), r, ConnectResolved)
      case GotSession(Err(e)) => Catch(f, r, e)
      case GotSession(Ok(sessionId)) =>
        if f.runId != r then Catch(f, r, FlowCancelled)
        else if windowClosed then Catch(f, r, PICKER_CLOSED)
        else Ask(SetState(f, r, f.state.(phase := Picking)), r, AwaitPoll(SessionLoop(sessionId), 0))
      case GotStatus(sessionId, status) => ResumeStatus(f, r, sessionId, status)
      case SessionDone(sessionId) =>
        var f := ClosePopup(f);
        Ask(SetState(f, r, f.state.(phase := Importing)), r, AwaitImport(sessionId))
      case GotImport(_, Err(e)) => Catch(f, r, e)
      case GotImport(_, Ok(jobId)) =>
        if f.runId != r then Catch(f, r, FlowCancelled)
        else Ask(f, r, AwaitPoll(JobLoop(jobId), 0))
      case GotJob(jobId, view) => ResumeJob(f, r, jobId, view)
      case JobDone(jobId, result) =>
        End(SetState(f, r, f.state.(phase := Done, result := Some(result))), r, StartResolved(result))
      case PollFailed(loop, failures, e) => ResumePollFailed(f, r, loop, failures, e)
      case BackoffOver(loop, failures) => Ask(f, r, AwaitPoll(loop, failures))
      case IntervalOver(loop) => Ask(f, r, AwaitPoll(loop, 0))
      case Throwing(_, e) => Catch(f, r, e)
      case _ => f
  }

  // ----- the whole system -----

  /** An event that cannot happen in `f` leaves `f` as it is. */
  function Step(f: Flow, e: Event): Flow {
    match e
    case ConnectCall(gotWindow) => Connect(f, gotWindow)
    case StartCall(gotWindow) => Start(f, gotWindow)
    case CancelCall => Cancel(f)
    case StatusSettles(connected) => SettleStatus(f, connected)
    case DisconnectSettles(error) => SettleDisconnect(f, error)
    case FetchSettles(r, reply) => SettleFetch(f, r, reply)
    case TimerFires(t) => FireTimer(f, t)
    case MessageArrives(r, origin, data) => Message(f, r, origin, data)
    case WatchdogTicks(r) => Watchdog(f, r)
    case OAuthTimesOut(r) => OAuthTimeout(f, r)
    case Continue(r, windowClosed) => Resume(f, r, windowClosed)
  }

  function Run(f: Flow, events: seq<Event>): Flow
    decreases |events|
  {
    if events == [] then f else Run(Step(f, events[0]), events[1..])
  }
}
