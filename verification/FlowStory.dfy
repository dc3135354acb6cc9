/** How a run gets to `done`, and how it gives up: what must have happened before, and in which order. */
module FlowStory {
  import opened Wrappers
  import opened Histories
  import opened Backoff
  import opened FlowTypes
  import opened FlowModel
  import opened FlowInvariants
  import opened FlowAgreement
  import opened FlowHistory

  // ----- what run r has been told, in order -----

  function Created(r: nat, sessionId: string): seq<Obs> {
    [Replied(r, SessionRequest, SessionReply(sessionId))]
  }

  function Picked(r: nat, sessionId: string): seq<Obs> {
    Created(r, sessionId) + [Replied(r, PollSessionRequest(sessionId), StatusReply(SessionReady))]
  }

  function Started(r: nat, sessionId: string, jobId: string): seq<Obs> {
    Picked(r, sessionId) + [Replied(r, ImportRequest(sessionId), StartedReply(jobId))]
  }

  function Polled(r: nat, sessionId: string, jobId: string, view: JobView): seq<Obs> {
    Started(r, sessionId, jobId) + [Replied(r, PollJobRequest(jobId), JobReply(view))]
  }

  ghost predicate JobStarted(log: History, r: nat, jobId: string) {
    exists sessionId :: InOrder(Started(r, sessionId, jobId), log)
  }

  ghost predicate JobPolled(log: History, r: nat, jobId: string, view: JobView) {
    exists sessionId :: InOrder(Polled(r, sessionId, jobId, view), log)
  }

  ghost predicate LoopEntered(log: History, r: nat, loop: Loop) {
    match loop
    case SessionLoop(sessionId) => InOrder(Created(r, sessionId), log)
    case JobLoop(jobId) => JobStarted(log, r, jobId)
  }

  /** What the log must contain for run `r` to stand at `pc`. */
  ghost predicate Told(log: History, r: nat, pc: Pc) {
    match pc
    case GotSession(Ok(sessionId)) => InOrder(Created(r, sessionId), log)
    case AwaitPoll(loop, _) => LoopEntered(log, r, loop)
    case AwaitBackoff(loop, _, _) => LoopEntered(log, r, loop)
    case AwaitInterval(loop, _) => LoopEntered(log, r, loop)
    case PollFailed(loop, _, _) => LoopEntered(log, r, loop)
    case BackoffOver(loop, _) => LoopEntered(log, r, loop)
    case IntervalOver(loop) => LoopEntered(log, r, loop)
    case GotStatus(sessionId, status) =>
      InOrder(Created(r, sessionId), log) && (status.SessionReady? ==> InOrder(Picked(r, sessionId), log))
    case SessionDone(sessionId) => InOrder(Picked(r, sessionId), log)
    case AwaitImport(sessionId) => InOrder(Picked(r, sessionId), log)
    case GotImport(sessionId, Ok(jobId)) => InOrder(Started(r, sessionId, jobId), log)
    case GotJob(jobId, view) => JobStarted(log, r, jobId) && JobPolled(log, r, jobId, view)
    case JobDone(jobId, result) => ResultBacked(log, r, jobId, result)
    case _ => true
  }

  /** `result` is what a poll of run `r`'s own job said when it said `complete`. */
  ghost predicate ResultBacked(log: History, r: nat, jobId: string, result: CompleteResult) {
    exists view :: JobPolled(log, r, jobId, view) && view.status.JobComplete? && result == ResultOf(view)
  }

  /**
    A `start()` that resolves resolves with the result of its own job, and has just published that result as `done`:
    what `past` must look like when `o` is logged.
   */
  ghost predicate Ending(past: History, o: Obs) {
    o.Finished? && o.outcome.StartResolved? ==>
      && past.Snoc? && past.last.Wrote? && past.last.run == o.run
      && past.last.state.phase.Done? && past.last.state.result == Some(o.outcome.result)
      && exists jobId :: ResultBacked(past.past, o.run, jobId, o.outcome.result)
  }

  ghost predicate EndingsTold(log: History) {
    match log
    case Empty => true
    case Snoc(past, o) => EndingsTold(past) && Ending(past, o)
  }

  ghost predicate StoryOk(f: Flow) {
    && (forall r <- f.runs :: Told(f.log, r, f.runs[r]))
    && EndingsTold(f.log)
  }

  // ----- logs only grow -----

  ghost predicate Grew(past: History, log: History) {
    log == past || (log.Snoc? && Grew(past, log.past))
  }

  lemma {:induction false} InOrderGrew(pattern: seq<Obs>, past: History, log: History)
    requires Grew(past, log) && InOrder(pattern, past)
    ensures InOrder(pattern, log)
    decreases log
  {
    if log != past {
      InOrderGrew(pattern, past, log.past);
      InOrderPush(pattern, log.past, log.last);
    }
  }

  lemma JobPolledGrew(past: History, log: History, r: nat, jobId: string, view: JobView)
    requires Grew(past, log) && JobPolled(past, r, jobId, view)
    ensures JobPolled(log, r, jobId, view)
  {
    var sessionId :| InOrder(Polled(r, sessionId, jobId, view), past);
    InOrderGrew(Polled(r, sessionId, jobId, view), past, log);
  }

  lemma LoopGrew(past: History, log: History, r: nat, loop: Loop)
    requires Grew(past, log) && LoopEntered(past, r, loop)
    ensures LoopEntered(log, r, loop)
  {
    match loop
    case SessionLoop(sessionId) => InOrderGrew(Created(r, sessionId), past, log);
    case JobLoop(jobId) =>
      var sessionId :| InOrder(Started(r, sessionId, jobId), past);
      InOrderGrew(Started(r, sessionId, jobId), past, log);
  }

  lemma ToldGrew(past: History, log: History, r: nat, pc: Pc)
    requires Grew(past, log) && Told(past, r, pc)
    ensures Told(log, r, pc)
  {
    hide Grew, InOrder, LoopEntered;
    match pc
    case GotSession(Ok(sessionId)) => InOrderGrew(Created(r, sessionId), past, log);
    case AwaitPoll(loop, _) => LoopGrew(past, log, r, loop);
    case AwaitBackoff(loop, _, _) => LoopGrew(past, log, r, loop);
    case AwaitInterval(loop, _) => LoopGrew(past, log, r, loop);
    case PollFailed(loop, _, _) => LoopGrew(past, log, r, loop);
    case BackoffOver(loop, _) => LoopGrew(past, log, r, loop);
    case IntervalOver(loop) => LoopGrew(past, log, r, loop);
    case GotStatus(sessionId, status) =>
      InOrderGrew(Created(r, sessionId), past, log);
      if status.SessionReady? {
        InOrderGrew(Picked(r, sessionId), past, log);
      }
    case SessionDone(sessionId) => InOrderGrew(Picked(r, sessionId), past, log);
    case AwaitImport(sessionId) => InOrderGrew(Picked(r, sessionId), past, log);
    case GotImport(sessionId, Ok(jobId)) => InOrderGrew(Started(r, sessionId, jobId), past, log);
    case GotJob(jobId, view) =>
      var sessionId :| InOrder(Started(r, sessionId, jobId), past);
      InOrderGrew(Started(r, sessionId, jobId), past, log);
      JobPolledGrew(past, log, r, jobId, view);
    case JobDone(jobId, result) =>
      var view :| JobPolled(past, r, jobId, view) && view.status.JobComplete? && result == ResultOf(view);
      JobPolledGrew(past, log, r, jobId, view);
    case _ =>
  }

  lemma {:induction false} SpokeGrew(past: History, log: History, r: nat)
    requires Spoke(past, log, r)
    ensures Grew(past, log)
    ensures EndingsTold(past) ==> EndingsTold(log)
    decreases log
  {
    if log != past {
      SpokeGrew(past, log.past, r);
    }
  }

  // ----- one step -----

  /** A reply is logged in the same breath as its run moves on. */
  lemma ReplyTold(f: Flow, r: nat, reply: Reply)
    requires r in f.runs && Told(f.log, r, f.runs[r])
    requires RequestAt(f.runs[r]).Some? && AfterReply(f.runs[r], reply).Some?
    ensures Told(Snoc(f.log, Replied(r, RequestAt(f.runs[r]).value, reply)), r, AfterReply(f.runs[r], reply).value)
  {
    var pc := f.runs[r];
    var x := Replied(r, RequestAt(pc).value, reply);
    var log := Snoc(f.log, x);
    assert Grew(f.log, log);
    match (pc, reply)
    case (AwaitSession, SessionReply(sessionId)) =>
      InOrderPush([], f.log, x);
      assert [] + [x] == Created(r, sessionId);
    case (AwaitImport(sessionId), StartedReply(jobId)) => InOrderPush(Picked(r, sessionId), f.log, x);
    case (AwaitPoll(SessionLoop(sessionId), _), StatusReply(status)) =>
      InOrderPush(Created(r, sessionId), f.log, x);
    case (AwaitPoll(JobLoop(jobId), _), JobReply(view)) =>
      var sessionId :| InOrder(Started(r, sessionId, jobId), f.log);
      InOrderPush(Started(r, sessionId, jobId), f.log, x);
      assert InOrder(Polled(r, sessionId, jobId, view), log);
    case (AwaitPoll(loop, _), FetchFailed(_, _)) => LoopGrew(f.log, log, r, loop);
    case _ =>
  }

  /** Where a continuation leads, its run has been told what is needed there. */
  lemma ResumeTold(f: Flow, r: nat, windowClosed: bool)
    requires r in f.runs && Told(f.log, r, f.runs[r])
    ensures var g := Resume(f, r, windowClosed); r in g.runs ==> Told(f.log, r, g.runs[r])
  {
    hide InOrder, BackoffMs, PollMs, JobError, ResultOf;
    match f.runs[r]
    case GotStatus(_, _) =>
    case GotJob(jobId, view) =>
    case PollFailed(_, _, _) =>
    case _ => hide JobPolled, ResumeStatus, ResumeJob, ResumePollFailed;
  }

  lemma ResumeEndings(f: Flow, r: nat, windowClosed: bool)
    requires r in f.runs && Told(f.log, r, f.runs[r]) && EndingsTold(f.log)
    ensures Grew(f.log, Resume(f, r, windowClosed).log) && EndingsTold(Resume(f, r, windowClosed).log)
  {
    var g := Resume(f, r, windowClosed);
    ResumeLog(f, r, windowClosed);
    if r in g.runs {
      SpokeGrew(f.log, g.log, r);
    } else {
      SpokeGrew(f.log, g.log.past, r);
      ResumeOutcome(f, r, windowClosed);
      hide Resume, Spoke;
    }
  }

  /** Only a finished job makes a `start()` resolve. */
  lemma ResumeOutcome(f: Flow, r: nat, windowClosed: bool)
    requires r in f.runs
    ensures var g := Resume(f, r, windowClosed);
            r !in g.runs && g.log.Snoc? && g.log.last.Finished? && g.log.last.outcome.StartResolved? ==>
              && f.runs[r].JobDone? && g.log.last.outcome.result == f.runs[r].result
              && g.log.past == Snoc(f.log, Wrote(r, g.state))
              && g.state.phase.Done? && g.state.result == Some(f.runs[r].result)
  {
    match f.runs[r]
    case GotStatus(_, _) =>
    case GotJob(_, _) =>
    case PollFailed(_, _, _) =>
    case _ => hide ResumeStatus, ResumeJob, ResumePollFailed, RequestAt;
  }

  lemma ContinueStory(f: Flow, r: nat, windowClosed: bool)
    requires StoryOk(f)
    ensures StoryOk(Resume(f, r, windowClosed))
  {
    if r !in f.runs {
      ResumeNobody(f, r, windowClosed);
    } else {
      var g := Resume(f, r, windowClosed);
      ResumeEndings(f, r, windowClosed);
      ResumeTold(f, r, windowClosed);
      ResumeLocal(f, r, windowClosed);
      hide Resume, Told, EndingsTold, Grew;
      forall q <- g.runs
        ensures Told(g.log, q, g.runs[q])
      {
        ToldGrew(f.log, g.log, q, g.runs[q]);
      }
    }
  }

  /** Steps in which no run goes on by itself. */
  lemma OthersStory(f: Flow, g: Flow)
    requires StoryOk(f) && Grew(f.log, g.log) && EndingsTold(g.log)
    requires forall q <- g.runs :: Told(f.log, q, g.runs[q])
    ensures StoryOk(g)
  {
    hide Told, Grew, EndingsTold;
    forall q <- g.runs
      ensures Told(g.log, q, g.runs[q])
    {
      ToldGrew(f.log, g.log, q, g.runs[q]);
    }
  }

  lemma CallStory(f: Flow, e: Event)
    requires e.ConnectCall? || e.StartCall?
    requires StoryOk(f)
    ensures StoryOk(Step(f, e))
  {
    var g := Step(f, e);
    var r := f.runId + 1;
    CallLog(f, e);
    CallMoves(f, e);
    CallOutcome(f, e);
    SpokeGrew(f.log, if r in g.runs then g.log else g.log.past, r);
    hide Step, Spoke;
    OthersStory(f, g);
  }

  /** A call that fails at once rejects. */
  lemma CallOutcome(f: Flow, e: Event)
    requires e.ConnectCall? || e.StartCall?
    ensures var g := Step(f, e); g.runId !in g.runs && g.log.Snoc? && g.log.last.Finished? ==> g.log.last.outcome.Rejected?
  {
  }

  lemma CancelStory(f: Flow)
    requires StoryOk(f)
    ensures StoryOk(Cancel(f))
  {
    var g := ClearTimers(f.(runId := f.runId + 1));
    assert Grew(f.log, g.log);
    assert Cancel(f).log == g.log || (Cancel(f).log.Snoc? && Cancel(f).log.past == g.log);
    assert EndingsTold(g.log);
    CancelMoves(f);
    hide ClearTimers, Grew;
    OthersStory(f, Cancel(f));
  }

  lemma FetchStory(f: Flow, r: nat, reply: Reply)
    requires StoryOk(f)
    ensures StoryOk(SettleFetch(f, r, reply))
  {
    var g := SettleFetch(f, r, reply);
    if g != f {
      ReplyTold(f, r, reply);
      assert Grew(f.log, g.log);
      hide AfterReply, RequestAt, Told, Grew;
      forall q <- g.runs
        ensures Told(g.log, q, g.runs[q])
      {
        if q != r {
          ToldGrew(f.log, g.log, q, g.runs[q]);
        }
      }
    }
  }

  lemma SettleStory(f: Flow, e: Event)
    requires Settles(e) && !e.FetchSettles? && StoryOk(f)
    ensures StoryOk(Step(f, e))
  {
    var g := Step(f, e);
    assert Grew(f.log, g.log);
    assert EndingsTold(g.log);
    hide Grew, EndingsTold, LoopEntered, InOrder, MessageAccepted, RefusalOf, JobPolled, ResultBacked;
    OthersStory(f, g);
  }

  lemma StepStory(f: Flow, e: Event)
    requires StoryOk(f)
    ensures StoryOk(Step(f, e))
  {
    hide StoryOk, Resume, Cancel, Connect, Start, SettleFetch;
    match e
    case ConnectCall(_) | StartCall(_) => CallStory(f, e);
    case CancelCall => CancelStory(f);
    case StatusSettles(_) | DisconnectSettles(_) => StatusStory(f, e);
    case FetchSettles(r, reply) => FetchStory(f, r, reply);
    case Continue(r, windowClosed) => ContinueStory(f, r, windowClosed);
    case _ => SettleStory(f, e);
  }

  lemma StatusStory(f: Flow, e: Event)
    requires e.StatusSettles? || e.DisconnectSettles?
    requires StoryOk(f)
    ensures StoryOk(Step(f, e))
  {
    var g := Step(f, e);
    assert Grew(f.log, g.log);
    hide Told, Grew;
    OthersStory(f, g);
  }

  lemma {:induction false} RunStory(f: Flow, events: seq<Event>)
    requires StoryOk(f)
    ensures StoryOk(Run(f, events))
    decreases |events|
  {
    if events != [] {
      StepStory(f, events[0]);
      RunStory(Step(f, events[0]), events[1..]);
    }
  }

  /**
    Over any events whatever: when `start()` of run `r` resolves, its session was created for it, a poll of that session
    said `ready`, the import of that session returned a job, and a poll of that job said `complete`, in this order;
    the result is what that poll said, and it is the `result` of the `done` state written just before.
   */
  lemma ResolvedStartWasEarned(config: Config, events: seq<Event>, r: nat, result: CompleteResult)
    requires var log := Run(Init(config), events).log; log.Snoc? && log.last == Finished(r, StartResolved(result))
    ensures var f := Run(Init(config), events);
            && f.log.past.Snoc? && f.log.past.last.Wrote?
            && f.log.past.last.state.phase.Done? && f.log.past.last.state.result == Some(result)
            && exists sessionId, jobId, view ::
                 && InOrder(Polled(r, sessionId, jobId, view), f.log)
                 && view.status.JobComplete? && ResultOf(view) == result
  {
    var f := Run(Init(config), events);
    RunStory(Init(config), events);
    assert Ending(f.log.past, f.log.last);
    var jobId :| ResultBacked(f.log.past.past, r, jobId, result);
    var view :| JobPolled(f.log.past.past, r, jobId, view) && view.status.JobComplete? && result == ResultOf(view);
    var sessionId :| InOrder(Polled(r, sessionId, jobId, view), f.log.past.past);
    assert Grew(f.log.past.past, f.log);
    InOrderGrew(Polled(r, sessionId, jobId, view), f.log.past.past, f.log);
  }

  /** `done` is entered only by the continuation of a finished job poll, and that ends the run. */
  lemma DoneEnteredOnlyByJobDone(f: Flow, e: Event)
    requires !f.state.phase.Done? && Step(f, e).state.phase.Done?
    ensures e.Continue? && e.run in f.runs && f.runs[e.run].JobDone? && e.run !in Step(f, e).runs
    ensures Step(f, e).state.result == Some(f.runs[e.run].result)
  {
    hide Resume, Connect, Start, Cancel;
    match e
    case ConnectCall(_) | StartCall(_) | CancelCall => CallNeverDone(f, e);
    case Continue(r, windowClosed) => ContinueDone(f, r, windowClosed);
    case _ => hide AfterReply, AfterDelays, MessageAccepted, RefusalOf;
  }

  /** Run `r` writes `done`. */
  predicate WritesDone(f: Flow, e: Event, r: nat) {
    e.Continue? && e.run == r && r in f.runs && f.runs[r].JobDone?
  }

  function DoneWrites(f: Flow, events: seq<Event>, r: nat): nat
    decreases |events|
  {
    if events == [] then 0
    else (if WritesDone(f, events[0], r) then 1 else 0) + DoneWrites(Step(f, events[0]), events[1..], r)
  }

  /** A number that was taken and is not live is never live again. */
  lemma NumbersAreTakenOnce(f: Flow, e: Event, r: nat)
    requires Inv(f) && r !in f.runs && r <= f.runId
    ensures r !in Step(f, e).runs && r <= Step(f, e).runId
  {
    hide Inv, Resume, Connect, Start, Cancel, SettleFetch, FireTimer, Message, Watchdog, OAuthTimeout;
    match e
    case ConnectCall(_) | StartCall(_) | CancelCall =>
      CallMoves(f, e);
      assert r in Step(f, e).runs.Keys - {Step(f, e).runId} <==> r in f.runs.Keys - {Step(f, e).runId};
    case Continue(q, windowClosed) => ResumeLocal(f, q, windowClosed);
    case StatusSettles(_) | DisconnectSettles(_) =>
    case _ => SettledKeys(f, e);
  }

  lemma JobDoneEnds(f: Flow, e: Event, r: nat)
    requires Inv(f) && WritesDone(f, e, r)
    ensures r !in Step(f, e).runs && r <= Step(f, e).runId && Step(f, e).state.phase.Done?
  {
    RunFacts(f, r);
    hide Inv;
  }

  lemma {:induction false} DoneWritesLeft(f: Flow, events: seq<Event>, r: nat)
    requires Inv(f)
    ensures DoneWrites(f, events, r) <= if r in f.runs || r > f.runId then 1 else 0
    decreases |events|
  {
    hide Inv, Step;
    if events != [] {
      StepInv(f, events[0]);
      DoneWritesLeft(Step(f, events[0]), events[1..], r);
      if WritesDone(f, events[0], r) {
        JobDoneEnds(f, events[0], r);
      } else if r !in f.runs && r <= f.runId {
        NumbersAreTakenOnce(f, events[0], r);
      }
    }
  }

  /** Over all events from a new flow each run writes `done` at most once; by the lemma above nothing else enters it. */
  lemma DoneAtMostOncePerRun(config: Config, events: seq<Event>, r: nat)
    ensures DoneWrites(Init(config), events, r) <= 1
  {
    InitInv(config);
    DoneWritesLeft(Init(config), events, r);
  }

  lemma CallNeverDone(f: Flow, e: Event)
    requires IsCall(e) && !f.state.phase.Done?
    ensures !Step(f, e).state.phase.Done?
  {
  }

  lemma ContinueDone(f: Flow, r: nat, windowClosed: bool)
    requires !f.state.phase.Done? && Resume(f, r, windowClosed).state.phase.Done?
    ensures r in f.runs && f.runs[r].JobDone? && r !in Resume(f, r, windowClosed).runs
    ensures Resume(f, r, windowClosed).state.result == Some(f.runs[r].result)
  {
    match f.runs[r]
    case GotStatus(_, _) =>
    case GotJob(_, _) =>
    case PollFailed(_, _, _) =>
    case _ => hide ResumeStatus, ResumeJob, ResumePollFailed, RequestAt;
  }

  // ----- giving up -----

  /** How many of run `r`'s requests have failed since one last succeeded. */
  function FailuresInARow(log: History, r: nat): nat {
    match log
    case Empty => 0
    case Snoc(past, o) =>
      if o.Replied? && o.run == r then (if o.reply.FetchFailed? then 1 + FailuresInARow(past, r) else 0)
      else FailuresInARow(past, r)
  }

  /** How many of its requests in a row a run at `pc` takes to have failed; None where it does not go on. */
  function Counted(pc: Pc): Option<nat> {
    match pc
    case AwaitPoll(_, failures) => Some(failures)
    case AwaitBackoff(_, failures, _) => Some(failures)
    case BackoffOver(_, failures) => Some(failures)
    case PollFailed(_, failures, _) => Some(failures + 1)
    case AwaitSession | AwaitImport(_) | AwaitInterval(_, _) | IntervalOver(_) => Some(0)
    case GotSession(Ok(_)) | GotStatus(_, _) | SessionDone(_) | GotImport(_, Ok(_)) | GotJob(_, _) => Some(0)
    case _ => None
  }

  /** The counter of a run is what the log says. */
  predicate CountsRight(f: Flow, r: nat) {
    && (r in f.runs && Counted(f.runs[r]).Some? ==> Counted(f.runs[r]).value == FailuresInARow(f.log, r))
    && (r > f.runId ==> r !in f.runs && FailuresInARow(f.log, r) == 0)
  }

  lemma {:induction false} SpokeKeepsFailures(past: History, log: History, q: nat, r: nat)
    requires Spoke(past, log, q)
    ensures FailuresInARow(log, r) == FailuresInARow(past, r)
    decreases log
  {
    if log != past {
      SpokeKeepsFailures(past, log.past, q, r);
    }
  }

  lemma ContinueCounts(f: Flow, q: nat, windowClosed: bool, r: nat)
    requires CountsRight(f, r)
    ensures CountsRight(Resume(f, q, windowClosed), r)
  {
    if q !in f.runs {
      ResumeNobody(f, q, windowClosed);
    } else {
      var g := Resume(f, q, windowClosed);
      ResumeLog(f, q, windowClosed);
      SpokeKeepsFailures(f.log, if q in g.runs then g.log else g.log.past, q, r);
      ResumeLocal(f, q, windowClosed);
      ResumeCounted(f, q, windowClosed);
      hide Resume;
    }
  }

  lemma ResumeCounted(f: Flow, q: nat, windowClosed: bool)
    requires q in f.runs
    ensures var g := Resume(f, q, windowClosed); q in g.runs && Counted(g.runs[q]).Some? ==> Counted(f.runs[q]) == Counted(g.runs[q])
  {
    match f.runs[q]
    case GotStatus(_, _) =>
    case GotJob(_, _) =>
    case PollFailed(_, _, _) => hide BackoffMs, PollMs;
    case _ => hide ResumeStatus, ResumeJob, ResumePollFailed, RequestAt;
  }

  lemma CallCounted(f: Flow, e: Event, r: nat)
    requires IsCall(e) && CountsRight(f, r)
    ensures CountsRight(Step(f, e), r)
  {
    CallMoves(f, e);
    hide Catch;
    if e.CancelCall? {
      assert FailuresInARow(ClearTimers(f.(runId := f.runId + 1)).log, r) == FailuresInARow(f.log, r);
      assert FailuresInARow(Cancel(f).log, r) == FailuresInARow(f.log, r);
    } else {
      var g := Step(f, e);
      CallLog(f, e);
      SpokeKeepsFailures(f.log, if f.runId + 1 in g.runs then g.log else g.log.past, f.runId + 1, r);
    }
    hide Cancel, Connect, Start;
  }

  /** A failed request counts one more, one that succeeds starts again. */
  lemma ReplyCounted(pc: Pc, reply: Reply)
    requires RequestAt(pc).Some? && AfterReply(pc, reply).Some? && Counted(AfterReply(pc, reply).value).Some?
    ensures Counted(pc).Some?
    ensures Counted(AfterReply(pc, reply).value).value == if reply.FetchFailed? then Counted(pc).value + 1 else 0
  {
  }

  lemma FetchCounted(f: Flow, q: nat, reply: Reply, r: nat)
    requires CountsRight(f, r)
    ensures CountsRight(SettleFetch(f, q, reply), r)
  {
    hide Counted, RequestAt, AfterReply;
    if q in f.runs && RequestAt(f.runs[q]).Some? && AfterReply(f.runs[q], reply).Some?
       && Counted(AfterReply(f.runs[q], reply).value).Some? {
      ReplyCounted(f.runs[q], reply);
    }
  }

  lemma SettleCounted(f: Flow, e: Event, r: nat)
    requires Inv(f) && Settles(e) && CountsRight(f, r)
    ensures CountsRight(Step(f, e), r)
  {
    SettledKeys(f, e);
    hide Inv, MessageAccepted, RefusalOf, SettleFetch;
    match e
    case FetchSettles(q, reply) => FetchCounted(f, q, reply, r);
    case _ =>
  }

  lemma StepCounts(f: Flow, e: Event, r: nat)
    requires Inv(f) && CountsRight(f, r)
    ensures CountsRight(Step(f, e), r)
  {
    hide Inv, CountsRight, Resume, Cancel, Connect, Start, SettleFetch;
    match e
    case Continue(q, windowClosed) => ContinueCounts(f, q, windowClosed, r);
    case ConnectCall(_) | StartCall(_) | CancelCall => CallCounted(f, e, r);
    case StatusSettles(_) | DisconnectSettles(_) => StatusCounted(f, e, r);
    case _ => SettleCounted(f, e, r);
  }

  lemma StatusCounted(f: Flow, e: Event, r: nat)
    requires e.StatusSettles? || e.DisconnectSettles?
    requires CountsRight(f, r)
    ensures CountsRight(Step(f, e), r)
  {
  }

  lemma {:induction false} RunCounts(f: Flow, events: seq<Event>, r: nat)
    requires Inv(f) && CountsRight(f, r)
    ensures CountsRight(Run(f, events), r)
    decreases |events|
  {
    if events != [] {
      StepInv(f, events[0]);
      StepCounts(f, events[0], r);
      RunCounts(Step(f, events[0]), events[1..], r);
    }
  }

  /**
    In every reachable state: a current run whose poll has failed leaves its loop, with the error of that request, if and
    only if five of its requests in a row have failed, however many earlier ones failed and recovered; with fewer it waits
    and tries again.
   */
  lemma GivesUpIffFiveFailures(config: Config, events: seq<Event>)
    requires var f := Run(Init(config), events); f.runId in f.runs && f.runs[f.runId].PollFailed?
    ensures var f := Run(Init(config), events); var r := f.runId; var g := Resume(f, r, false);
            && r in g.runs
            && (g.runs[r] == Throwing(f.runs[r].loop, f.runs[r].error) <==> FailuresInARow(f.log, r) >= 5)
            && (g.runs[r].AwaitBackoff? <==> FailuresInARow(f.log, r) < 5)
            && (g.runs[r].AwaitBackoff? ==> g.runs[r].failures == FailuresInARow(f.log, r))
  {
    var f := Run(Init(config), events);
    InitInv(config);
    RunInv(Init(config), events);
    RunFacts(f, f.runId);
    RunCounts(Init(config), events, f.runId);
    hide Run, Inv;
  }
}
