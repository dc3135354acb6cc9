/**
  What a user sees of an answer: laws across several steps, from what comes in to what is published. Messages, times and
  limits are written out.
 */
module FlowLaws {
  import opened Wrappers
  import opened Histories
  import opened Backoff
  import opened FlowTypes
  import opened FlowModel
  import opened FlowInvariants

  /** The call with the newest number has ended with `error`, which is published, and no window is open. */
  ghost predicate EndedBadly(f: Flow, r: nat, message: string, expired: bool) {
    && f.state.phase.Error? && f.state.error == Some(message) && f.state.expired == expired
    && f.popup == None && r !in f.runs
    && f.log.Snoc? && f.log.last == Finished(r, Rejected(Failure(message, expired)))
  }

  // ----- the connection status decides what start() does -----

  /** `start()` has opened its window and asked for a session. */
  ghost predicate Started(f: Flow, r: nat) {
    && f.runId == r && f.state.phase.Creating? && f.popup == Some(r)
    && r in f.runs && f.runs[r] == AwaitSession && f.log.Snoc? && f.log.last == Asked(r, SessionRequest)
  }

  /** A user known to be disconnected: `start()` rejects, whether or not a window could be opened. */
  lemma StartNeedsConnection(f: Flow, gotWindow: bool)
    requires Inv(f) && f.state.connected == Some(false)
    ensures EndedBadly(Step(f, StartCall(gotWindow)), f.runId + 1, "Not connected to Google Photos — connect first.", false)
  {
  }

  /** Otherwise: `start()` asks for a session if and only if it gets its window. */
  lemma StartNeedsWindow(f: Flow, gotWindow: bool)
    requires Inv(f) && f.state.connected != Some(false)
    ensures var g := Step(f, StartCall(gotWindow));
            && (Started(g, f.runId + 1) <==> gotWindow)
            && (EndedBadly(g, f.runId + 1, "Popup blocked — allow popups and retry.", false) <==> !gotWindow)
  {
  }

  /** After an answer about the connection the next `start()` goes by that answer; a failed one counts as disconnected. */
  lemma StatusDecidesStart(f: Flow, answer: Option<bool>)
    requires Inv(f)
    ensures var g := Step(Step(f, StatusSettles(answer)), StartCall(true));
            if answer == Some(true) then Started(g, f.runId + 1)
            else EndedBadly(g, f.runId + 1, "Not connected to Google Photos — connect first.", false)
  {
    var h := Step(f, StatusSettles(answer));
    StepInv(f, StatusSettles(answer));
    assert h.runId == f.runId && h.state.connected == Some(answer == Some(true));
    hide Inv, Step, EndedBadly, Started;
    if answer == Some(true) {
      StartNeedsWindow(h, true);
    } else {
      StartNeedsConnection(h, true);
    }
  }

  /** After a `disconnect()` that succeeded the next `start()` rejects; one that failed leaves the connection as it was. */
  lemma DisconnectDecidesStart(f: Flow, error: Option<string>, gotWindow: bool)
    requires Inv(f)
    ensures var h := Step(f, DisconnectSettles(error));
            && (error.None? ==> h.state.error == None && EndedBadly(Step(h, StartCall(gotWindow)), f.runId + 1,
                                                             "Not connected to Google Photos — connect first.", false))
            && (error.Some? ==> h.state == f.state.(error := error))
  {
    var h := Step(f, DisconnectSettles(error));
    StepInv(f, DisconnectSettles(error));
    if error.None? {
      assert h.runId == f.runId && h.state.connected == Some(false) && h.state.error == None;
      hide Inv, Step, EndedBadly;
      StartNeedsConnection(h, gotWindow);
    }
  }

  /** `connect()` asks for the consent URL if and only if it gets its window. */
  lemma ConnectNeedsWindow(f: Flow, gotWindow: bool)
    requires Inv(f)
    ensures var g := Step(f, ConnectCall(gotWindow)); var r := f.runId + 1;
            && (gotWindow ==>
                  && g.state == f.state.(phase := Connecting, error := None, expired := false) && g.popup == Some(r)
                  && r in g.runs && g.runs[r] == AwaitConsentUrl && g.log.Snoc? && g.log.last == Asked(r, ConsentRequest))
            && (!gotWindow ==> EndedBadly(g, r, "Popup blocked — allow popups and retry.", false))
  {
  }

  // ----- what goes wrong is published -----

  /** A request that is made once fails: the run ends with the error of that request. */
  lemma FailedRequestIsPublished(f: Flow, r: nat, message: string, expired: bool, windowClosed: bool)
    requires r == f.runId && r in f.runs
    requires f.runs[r].AwaitConsentUrl? || f.runs[r].AwaitSession? || f.runs[r].AwaitImport?
    ensures EndedBadly(Step(Step(f, FetchSettles(r, FetchFailed(message, expired))), Continue(r, windowClosed)),
                       r, message, expired)
  {
    var g := Step(f, FetchSettles(r, FetchFailed(message, expired)));
    assert g.runId == r && r in g.runs;
    assert match g.runs[r]
           case GotConsentUrl(e) => e == Err(Failure(message, expired))
           case GotSession(e) => e == Err(Failure(message, expired))
           case GotImport(_, e) => e == Err(Failure(message, expired))
           case _ => false;
    hide SettleFetch;
  }

  /** An error on its way out of a poll loop. */
  lemma ThrownIsPublished(f: Flow, r: nat, loop: Loop, message: string, expired: bool)
    requires r == f.runId && r in f.runs && f.runs[r] == Throwing(loop, Failure(message, expired))
    ensures EndedBadly(Step(f, Continue(r, false)), r, message, expired)
    ensures Step(f, Continue(r, false)).state.progress == f.state.progress
  {
    hide ResumeStatus, ResumeJob, ResumePollFailed;
  }

  /** The fifth poll in a row fails: the run ends with the error of that poll. */
  lemma FifthFailureIsPublished(f: Flow, r: nat, loop: Loop, message: string, expired: bool)
    requires r == f.runId && r in f.runs && f.runs[r] == AwaitPoll(loop, 4)
    ensures EndedBadly(Step(Step(Step(f, FetchSettles(r, FetchFailed(message, expired))), Continue(r, false)), Continue(r, false)),
                       r, message, expired)
  {
    var g := Step(f, FetchSettles(r, FetchFailed(message, expired)));
    assert g.runId == r && r in g.runs && g.runs[r] == PollFailed(loop, 4, Failure(message, expired));
    hide SettleFetch, EndedBadly, ResumeStatus, ResumeJob;
    ThrownIsPublished(Step(g, Continue(r, false)), r, loop, message, expired);
  }

  /** The picker session has expired before a selection was confirmed. */
  lemma ExpiryIsPublished(f: Flow, r: nat, sessionId: string, failures: nat)
    requires r == f.runId && r in f.runs && f.runs[r] == AwaitPoll(SessionLoop(sessionId), failures)
    ensures EndedBadly(Step(Step(Step(f, FetchSettles(r, StatusReply(SessionExpired))), Continue(r, false)), Continue(r, false)),
                       r, "The Google Photos session expired before you confirmed a selection.", true)
  {
    var g := Step(f, FetchSettles(r, StatusReply(SessionExpired)));
    assert g.runId == r && r in g.runs && g.runs[r] == GotStatus(sessionId, SessionExpired);
    hide SettleFetch, EndedBadly, ResumePollFailed, ResumeJob;
    ThrownIsPublished(Step(g, Continue(r, false)), r, SessionLoop(sessionId),
                      "The Google Photos session expired before you confirmed a selection.", true);
  }

  /** The message of a failed job, or a default. */
  function FailureMessage(job: JobView): string {
    match job.error
    case Some(message) => if message == "" then "Import failed." else message
    case None => "Import failed."
  }

  lemma JobAnswerIsQueued(f: Flow, r: nat, jobId: string, failures: nat, job: JobView)
    requires r in f.runs && f.runs[r] == AwaitPoll(JobLoop(jobId), failures)
    ensures var g := Step(f, FetchSettles(r, JobReply(job)));
            g == f.(runs := g.runs, log := g.log) && r in g.runs && g.runs[r] == GotJob(jobId, job)
  {
  }

  /** An answer about the job: its counts are published, and the run goes where its status sends it. */
  lemma JobArrives(f: Flow, r: nat, jobId: string, failures: nat, job: JobView)
    requires r == f.runId && r in f.runs && f.runs[r] == AwaitPoll(JobLoop(jobId), failures)
    ensures var g := Step(Step(f, FetchSettles(r, JobReply(job))), Continue(r, false));
            && g.runId == r && r in g.runs
            && g.state == f.state.(progress := Some(Progress(job.total, job.completed, job.failed)))
            && g.runs[r] ==
               match job.status
               case JobComplete =>
                 JobDone(jobId, CompleteResult(job.savedIds.GetOr([]), job.total, job.completed, job.failed))
               case JobFailed => Throwing(JobLoop(jobId), Failure(FailureMessage(job), false))
               case _ => AwaitInterval(JobLoop(jobId), f.nextTimer)
  {
    hide SettleFetch, ResumePollFailed, ResumeStatus, PollMs;
    JobAnswerIsQueued(f, r, jobId, failures, job);
  }

  /** The job has failed: its counts are published, and its message. */
  lemma FailedJobIsPublished(f: Flow, r: nat, jobId: string, failures: nat, job: JobView)
    requires r == f.runId && r in f.runs && f.runs[r] == AwaitPoll(JobLoop(jobId), failures) && job.status.JobFailed?
    ensures var g := Step(Step(Step(f, FetchSettles(r, JobReply(job))), Continue(r, false)), Continue(r, false));
            && EndedBadly(g, r, FailureMessage(job), false)
            && g.state.progress == Some(Progress(job.total, job.completed, job.failed))
  {
    hide Step, FailureMessage, EndedBadly;
    JobArrives(f, r, jobId, failures, job);
    ThrownIsPublished(Step(Step(f, FetchSettles(r, JobReply(job))), Continue(r, false)), r, JobLoop(jobId),
                      FailureMessage(job), false);
  }

  /** A result on its way out of the job loop. */
  lemma DoneIsPublished(f: Flow, r: nat, jobId: string, result: CompleteResult)
    requires r in f.runs && f.runs[r] == JobDone(jobId, result)
    ensures var g := Step(f, Continue(r, false));
            && g.state == f.state.(phase := Done, result := Some(result)) && r !in g.runs
            && g.log.Snoc? && g.log.last == Finished(r, StartResolved(result))
  {
    hide ResumeStatus, ResumeJob, ResumePollFailed;
  }

  /** The job is complete: its counts and its result are published, and the call resolves with that result. */
  lemma CompleteJobIsPublished(f: Flow, r: nat, jobId: string, failures: nat, job: JobView)
    requires r == f.runId && r in f.runs && f.runs[r] == AwaitPoll(JobLoop(jobId), failures) && job.status.JobComplete?
    ensures var g := Step(Step(Step(f, FetchSettles(r, JobReply(job))), Continue(r, false)), Continue(r, false));
            var result := CompleteResult(job.savedIds.GetOr([]), job.total, job.completed, job.failed);
            && g.state == f.state.(phase := Done, progress := Some(Progress(job.total, job.completed, job.failed)), result := Some(result))
            && r !in g.runs && g.log.Snoc? && g.log.last == Finished(r, StartResolved(result))
  {
    hide Step, FailureMessage;
    JobArrives(f, r, jobId, failures, job);
    DoneIsPublished(Step(Step(f, FetchSettles(r, JobReply(job))), Continue(r, false)), r, jobId,
                    CompleteResult(job.savedIds.GetOr([]), job.total, job.completed, job.failed));
  }

  /** Google's page reports a refusal, with a message or without. */
  lemma RefusalIsPublished(f: Flow, r: nat, origin: string, data: OAuthData)
    requires Inv(f) && r == f.runId && r in f.runs && f.runs[r].AwaitOAuth?
    requires MessageAccepted(f.config, origin, Some(data)) && data.status != "success"
    ensures EndedBadly(Step(Step(f, MessageArrives(r, origin, Some(data))), Continue(r, false)), r,
                       if data.message.Some? && data.message.value != "" then data.message.value
                       else "Google authorisation failed.", false)
  {
    var g := Step(f, MessageArrives(r, origin, Some(data)));
    assert g.runId == r && r in g.runs && g.runs[r].OAuthSettled?;
    hide Inv;
  }

  /** The user leaves the consent page alone for too long. */
  lemma TimeoutIsPublished(f: Flow, r: nat)
    requires Inv(f) && r == f.runId && r in f.runs && f.runs[r].AwaitOAuth?
    ensures EndedBadly(Step(Step(f, OAuthTimesOut(r)), Continue(r, false)), r,
                       "Google authorisation timed out — please try again.", false)
  {
    var g := Step(f, OAuthTimesOut(r));
    assert g.runId == r && r in g.runs && g.runs[r].OAuthSettled?;
    hide Inv;
  }

  /** The user has closed the window before it could be pointed anywhere. */
  lemma ClosedWindowIsPublished(f: Flow, r: nat)
    requires r == f.runId && r in f.runs
    ensures f.runs[r].GotConsentUrl? && f.runs[r].consent.Ok? ==>
              EndedBadly(Step(f, Continue(r, true)), r, "Authorisation window was closed.", false)
    ensures f.runs[r].GotSession? && f.runs[r].session.Ok? ==>
              EndedBadly(Step(f, Continue(r, true)), r, "Picker window was closed.", false)
  {
    hide ResumeStatus, ResumeJob, ResumePollFailed;
  }

  /** Consent succeeds: the user is connected, the window closed, the call resolved. */
  lemma ConsentConnects(f: Flow, r: nat, origin: string, data: OAuthData)
    requires Inv(f) && r == f.runId && r in f.runs && f.runs[r].AwaitOAuth?
    requires MessageAccepted(f.config, origin, Some(data)) && data.status == "success"
    ensures var g := Step(Step(f, MessageArrives(r, origin, Some(data))), Continue(r, false));
            && g.state == f.state.(phase := Idle, connected := Some(true)) && g.popup == None && r !in g.runs
            && g.log.Snoc? && g.log.last == Finished(r, ConnectResolved)
  {
    var g := Step(f, MessageArrives(r, origin, Some(data)));
    assert g.runId == r && r in g.runs && g.runs[r] == OAuthSettled(None) && g.state == f.state;
    hide Inv, Message;
  }

  // ----- how long is waited -----

  /** The configured time between polls, or the default. */
  function Interval(config: Config, loop: Loop): nat {
    match loop
    case SessionLoop(_) => if config.sessionPollMs.Some? then config.sessionPollMs.value else 2000
    case JobLoop(_) => if config.jobPollMs.Some? then config.jobPollMs.value else 1500
  }

  function Capped(ms: nat): nat {
    if ms < 15000 then ms else 15000
  }

  /** In every state with the invariant: between polls the interval is waited, after failures it is doubled up to 15 seconds. */
  lemma DelaysAreTimed(f: Flow, r: nat)
    requires Inv(f) && r in f.runs && DelayTimer(f.runs[r]).Some?
    ensures DelayTimer(f.runs[r]).value in f.timers
    ensures var ms := f.timers[DelayTimer(f.runs[r]).value].ms;
            match f.runs[r]
            case AwaitInterval(loop, _) => ms == Interval(f.config, loop)
            case AwaitBackoff(loop, failures, _) =>
              1 <= failures <= 4 && ms == Capped([1, 2, 4, 8][failures - 1] * Interval(f.config, loop))
            case _ => false
  {
    var pc := f.runs[r];
    assert f.timers[DelayTimer(pc).value].run == r;
    hide RunsOk, OAuthOk, BackoffMs;
    FirstWaits(PollMs(f.config, if pc.AwaitBackoff? then pc.loop else JobLoop("")));
  }
}
