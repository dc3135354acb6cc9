/** What whole runs of the flow leave in the log, at the granularity of single continuations. */
module FlowHistory {
  import opened Wrappers
  import opened Histories
  import opened Backoff
  import opened FlowTypes
  import opened FlowModel
  import opened FlowInvariants
  import opened FlowAgreement

  datatype Query =
    | WritesOf(run: nat)
    | ErrorWritesOf(run: nat)
    | RequestsOf(run: nat)
    | FinishesOf(run: nat)
    | SettlesOf(timer: nat)
    | OAuthSettlesOf(run: nat)
  {
    predicate Matches(o: Obs) {
      match this
      case WritesOf(r) => o.Wrote? && o.run == r
      case ErrorWritesOf(r) => o.Wrote? && o.run == r && o.state.phase.Error?
      case RequestsOf(r) => o.Asked? && o.run == r
      case FinishesOf(r) => o.Finished? && o.run == r
      case SettlesOf(t) => o.DelaysSettled? && t in o.timers
      case OAuthSettlesOf(r) => o.OAuthWaitSettled? && o.run == r
    }
  }

  function Count(log: History, q: Query): nat {
    match log
    case Empty => 0
    case Snoc(past, o) => Count(past, q) + if q.Matches(o) then 1 else 0
  }

  function Tally(o: Obs, q: Query): nat {
    if q.Matches(o) then 1 else 0
  }

  lemma CountTwo(log: History, q: Query)
    ensures forall a: Obs, b: Obs :: Count(Snoc(Snoc(log, a), b), q) == Count(log, q) + Tally(a, q) + Tally(b, q)
  {
    forall a: Obs, b: Obs
      ensures Count(Snoc(Snoc(log, a), b), q) == Count(log, q) + Tally(a, q) + Tally(b, q)
    {
      assert Count(Snoc(log, a), q) == Count(log, q) + Tally(a, q);
    }
  }

  // ----- who speaks in a step -----

  /** From `past` to `log` run `r` wrote and asked, and nobody else did anything. */
  ghost predicate Spoke(past: History, log: History, r: nat) {
    log == past || (log.Snoc? && (log.last.Wrote? || log.last.Asked?) && log.last.run == r && Spoke(past, log.past, r))
  }

  /** `r` spoke, and if it is over it said so last. */
  ghost predicate SpokeAs(f: Flow, g: Flow, r: nat) {
    if r in g.runs then Spoke(f.log, g.log, r)
    else g.log.Snoc? && g.log.last.Finished? && g.log.last.run == r && Spoke(f.log, g.log.past, r)
  }

  lemma {:induction false} SpokeCounts(past: History, log: History, r: nat, q: Query)
    requires Spoke(past, log, r)
    requires q.FinishesOf? || q.SettlesOf? || q.OAuthSettlesOf? || q.run != r
    ensures Count(log, q) == Count(past, q)
    decreases log
  {
    if log != past {
      SpokeCounts(past, log.past, r, q);
    }
  }

  lemma CatchLog(f: Flow, r: nat, e: Thrown)
    ensures SpokeAs(f, Catch(f, r, e), r)
  {
  }

  lemma ResumePollLog(f: Flow, r: nat, windowClosed: bool)
    requires r in f.runs && (f.runs[r].GotStatus? || f.runs[r].GotJob? || f.runs[r].PollFailed?)
    ensures SpokeAs(f, Resume(f, r, windowClosed), r)
  {
    SaysOne(f.log, r, Wrote(r, Resume(f, r, windowClosed).state));
    hide BackoffMs, PollMs, ResultOf, JobError;
  }

  lemma ResumeLog(f: Flow, r: nat, windowClosed: bool)
    requires r in f.runs
    ensures SpokeAs(f, Resume(f, r, windowClosed), r)
  {
    hide ResumeStatus, ResumeJob, ResumePollFailed, Catch;
    var g := Resume(f, r, windowClosed);
    match f.runs[r]
    case GotConsentUrl(Err(e)) => CatchLog(f, r, e);
    case GotConsentUrl(Ok(_)) => CatchLog(f, r, FlowCancelled); CatchLog(f, r, OAUTH_WINDOW_CLOSED);
    case OAuthSettled(Some(e)) => CatchLog(f, r, e);
    case GotSession(Err(e)) => CatchLog(f, r, e);
    case GotSession(Ok(sessionId)) =>
      CatchLog(f, r, FlowCancelled);
      CatchLog(f, r, PICKER_CLOSED);
      SaysTwo(f.log, r, Wrote(r, g.state), Asked(r, PollSessionRequest(sessionId)));
    case SessionDone(sessionId) =>
      SaysTwo(f.log, r, Wrote(r, g.state), Asked(r, ImportRequest(sessionId)));
    case GotImport(_, Err(e)) => CatchLog(f, r, e);
    case GotImport(_, Ok(jobId)) =>
      CatchLog(f, r, FlowCancelled);
      SaysOne(f.log, r, Asked(r, PollJobRequest(jobId)));
    case Throwing(_, e) => CatchLog(f, r, e);
    case GotStatus(_, _) => ResumePollLog(f, r, windowClosed);
    case GotJob(_, _) => ResumePollLog(f, r, windowClosed);
    case PollFailed(_, _, _) => ResumePollLog(f, r, windowClosed);
    case OAuthSettled(None) => SaysOne(f.log, r, Wrote(r, g.state));
    case JobDone(_, _) => SaysOne(f.log, r, Wrote(r, g.state));
    case BackoffOver(loop, failures) => SaysOne(f.log, r, Asked(r, RequestAt(AwaitPoll(loop, failures)).value));
    case IntervalOver(loop) => SaysOne(f.log, r, Asked(r, RequestAt(AwaitPoll(loop, 0)).value));
    case _ =>
  }

  predicate Speech(o: Obs, r: nat) {
    (o.Wrote? || o.Asked?) && o.run == r
  }

  lemma SaysOne(log: History, r: nat, a: Obs)
    requires Speech(a, r)
    ensures Spoke(log, Snoc(log, a), r)
  {
  }

  lemma SaysTwo(log: History, r: nat, a: Obs, b: Obs)
    requires Speech(a, r) && Speech(b, r)
    ensures Spoke(log, Snoc(Snoc(log, a), b), r)
  {
    SaysOne(log, r, a);
  }

  /** What a continuation of `r` leaves in the log about anything but `r`'s writes and requests. */
  lemma ResumeCounts(f: Flow, r: nat, windowClosed: bool, q: Query)
    requires r in f.runs
    requires q.FinishesOf? || q.SettlesOf? || q.OAuthSettlesOf? || q.run != r
    ensures var g := Resume(f, r, windowClosed);
            Count(g.log, q) == Count(f.log, q) + if q == FinishesOf(r) && r !in g.runs then 1 else 0
  {
    ResumeLog(f, r, windowClosed);
    hide Resume;
    var g := Resume(f, r, windowClosed);
    SpokeCounts(f.log, if r in g.runs then g.log else g.log.past, r, q);
  }

  lemma {:induction false} SpokeOn(a: History, b: History, c: History, r: nat)
    requires Spoke(a, b, r) && Spoke(b, c, r)
    ensures Spoke(a, c, r)
    decreases c
  {
    if c != b {
      SpokeOn(a, b, c.past, r);
    }
  }

  /** `connect()` and `start()` speak for their own new run. */
  lemma CallLog(f: Flow, e: Event)
    requires e.ConnectCall? || e.StartCall?
    ensures var g := Step(f, e); var r := f.runId + 1;
            if r in g.runs then Spoke(f.log, g.log, r)
            else g.log.Snoc? && g.log.last.Finished? && g.log.last.run == r && Spoke(f.log, g.log.past, r)
  {
    var r := f.runId + 1;
    var g := Step(f, e);
    var wrote := if e.ConnectCall? then SetState(f.(runId := r), r, f.state.(phase := Connecting, error := None, expired := false))
    else SetState(f.(runId := r), r, f.state.(phase := Creating, error := None, expired := false, result := None, progress := None));
    assert Spoke(f.log, wrote.log, r);
    CatchLog(wrote, r, POPUP_BLOCKED);
    CatchLog(f.(runId := r), r, NOT_CONNECTED);
    hide Spoke, Catch, SpokeAs;
    if r in g.runs {
      assert Spoke(wrote.log, Snoc(wrote.log, Asked(r, if e.ConnectCall? then ConsentRequest else SessionRequest)), r) by {
        AskedSpoke(wrote.log, r, if e.ConnectCall? then ConsentRequest else SessionRequest);
      }
      SpokeOn(f.log, wrote.log, g.log, r);
    } else if e.StartCall? && f.state.connected == Some(false) {
    } else {
      SpokeOn(f.log, wrote.log, g.log.past, r);
    }
  }

  lemma AskedSpoke(log: History, r: nat, request: Request)
    ensures Spoke(log, Snoc(log, Asked(r, request)), r)
  {
  }

  lemma CallCounts(f: Flow, e: Event, q: Query)
    requires e.ConnectCall? || e.StartCall?
    requires q.FinishesOf? || q.SettlesOf? || q.OAuthSettlesOf? || q.run != f.runId + 1
    ensures var g := Step(f, e); var r := f.runId + 1;
            Count(g.log, q) == Count(f.log, q) + if q == FinishesOf(r) && r !in g.runs then 1 else 0
  {
    CallLog(f, e);
    hide Step;
    var g := Step(f, e);
    var r := f.runId + 1;
    SpokeCounts(f.log, if r in g.runs then g.log else g.log.past, r, q);
  }

  /** `cancel()` settles every pending delay, and writes for nobody. */
  lemma CancelCounts(f: Flow, q: Query)
    requires q.WritesOf? || q.ErrorWritesOf? ==> q.run != 0
    ensures Count(Cancel(f).log, q) == Count(f.log, q) + if q.SettlesOf? && q.timer in f.waiters then 1 else 0
  {
    var g := ClearTimers(f.(runId := f.runId + 1));
    assert Count(g.log, q) == Count(f.log, q) + if q.SettlesOf? && q.timer in f.waiters then 1 else 0;
    hide ClearTimers;
  }

  /** What a call does to the coroutines. */
  ghost predicate CalledFrom(f: Flow, g: Flow, cancelled: bool) {
    && g.runId == f.runId + 1
    && g.nextTimer == f.nextTimer && g.waiters == (if cancelled then {} else f.waiters)
    && g.runs.Keys - {g.runId} == f.runs.Keys - {g.runId}
    && (cancelled ==> g.runs.Keys == f.runs.Keys)
    && (g.runId in g.runs && !cancelled ==> g.runs[g.runId].AwaitConsentUrl? || g.runs[g.runId].AwaitSession?)
    && forall q <- f.runs :: q != g.runId ==>
         q in g.runs && g.runs[q] == if cancelled then AfterDelays(f.runs[q], f.waiters, false) else f.runs[q]
  }

  lemma CallMoves(f: Flow, e: Event)
    requires IsCall(e)
    ensures CalledFrom(f, Step(f, e), e.CancelCall?)
  {
    hide AfterDelays, CalledFrom, Connect, Start, Cancel;
    match e
    case ConnectCall(gotWindow) => ConnectMoves(f, gotWindow);
    case StartCall(gotWindow) => StartMoves(f, gotWindow);
    case CancelCall => CancelMoves(f);
  }

  lemma ConnectMoves(f: Flow, gotWindow: bool)
    ensures CalledFrom(f, Connect(f, gotWindow), false)
  {
    hide AfterDelays;
  }

  lemma StartMoves(f: Flow, gotWindow: bool)
    ensures CalledFrom(f, Start(f, gotWindow), false)
  {
    hide AfterDelays;
  }

  lemma CancelMoves(f: Flow)
    ensures CalledFrom(f, Cancel(f), true)
  {
    hide AfterDelays;
  }

  // ----- superseded runs -----

  /** State writes a superseded run still has ahead of it. */
  function WritesLeft(f: Flow, r: nat): nat {
    if r in f.runs && Armed(f.runs[r]) then 1 else 0
  }

  /** Requests a superseded run still has ahead of it. */
  function RequestsLeft(f: Flow, r: nat): nat {
    if r in f.runs && Committed(f.runs[r]) && !f.runs[r].OAuthSettled? && !f.runs[r].JobDone? then 1 else 0
  }

  /** From `f` to `g` the superseded run `r` spent at most what it had left, and wrote no error. */
  ghost predicate Spends(f: Flow, g: Flow, r: nat) {
    && Count(g.log, WritesOf(r)) + WritesLeft(g, r) <= Count(f.log, WritesOf(r)) + WritesLeft(f, r)
    && Count(g.log, RequestsOf(r)) + RequestsLeft(g, r) <= Count(f.log, RequestsOf(r)) + RequestsLeft(f, r)
    && Count(g.log, ErrorWritesOf(r)) == Count(f.log, ErrorWritesOf(r))
  }

  lemma CallSpends(f: Flow, e: Event, r: nat)
    requires IsCall(e) && 1 <= r <= f.runId
    ensures Spends(f, Step(f, e), r)
  {
    CallMoves(f, e);
    CallKeeps(f, e, WritesOf(r));
    CallKeeps(f, e, RequestsOf(r));
    CallKeeps(f, e, ErrorWritesOf(r));
    hide Step;
  }

  /** A call leaves the writes and requests of other runs alone. */
  lemma CallKeeps(f: Flow, e: Event, q: Query)
    requires IsCall(e) && (q.WritesOf? || q.RequestsOf? || q.ErrorWritesOf?) && 1 <= q.run <= f.runId
    ensures Count(Step(f, e).log, q) == Count(f.log, q)
  {
    if e.CancelCall? {
      CancelCounts(f, q);
    } else {
      CallCounts(f, e, q);
    }
    hide Connect, Start, Cancel;
  }

  lemma SettleSpends(f: Flow, e: Event, r: nat)
    requires Inv(f) && Settles(e) && 1 <= r < f.runId
    ensures Spends(f, Step(f, e), r)
  {
    if e.TimerFires? && e.timer in f.timers {
      TimerOwner(f, e.timer);
    }
    hide Inv, RunsOk, DelaysOk, OAuthOk, MessageAccepted, RefusalOf, Committed;
  }

  /** The owner of an armed timer is suspended in that delay. */
  lemma TimerOwner(f: Flow, t: nat)
    requires DelaysOk(f) && t in f.timers
    ensures f.timers[t].run in f.runs && DelayTimer(f.runs[f.timers[t].run]) == Some(t)
  {
  }

  lemma ContinueSpends(f: Flow, q: nat, windowClosed: bool, r: nat)
    requires 1 <= r < f.runId
    ensures Spends(f, Resume(f, q, windowClosed), r)
  {
    if q == r && r in f.runs {
      StaleContinueSpends(f, r, windowClosed);
    } else if q in f.runs {
      OtherContinueSpends(f, q, windowClosed, r);
    }
  }

  lemma StaleContinueSpends(f: Flow, r: nat, windowClosed: bool)
    requires 1 <= r < f.runId && r in f.runs
    ensures Spends(f, Resume(f, r, windowClosed), r)
  {
    hide Spends, Resume;
    if Committed(f.runs[r]) {
      StaleUnguardedSpends(f, r, windowClosed);
    } else {
      StaleGuardedSpends(f, r, windowClosed);
    }
  }

  lemma StaleUnguardedSpends(f: Flow, r: nat, windowClosed: bool)
    requires 1 <= r < f.runId && r in f.runs && Committed(f.runs[r])
    ensures Spends(f, Resume(f, r, windowClosed), r)
  {
    CountTwo(f.log, WritesOf(r));
    CountTwo(f.log, RequestsOf(r));
    CountTwo(f.log, ErrorWritesOf(r));
    var g := Resume(f, r, windowClosed);
    match f.runs[r]
    case OAuthSettled(None) =>
      assert g.log == Snoc(Snoc(f.log, Wrote(r, g.state)), Finished(r, ConnectResolved));
    case SessionDone(sessionId) =>
      assert g.log == Snoc(Snoc(f.log, Wrote(r, g.state)), Asked(r, ImportRequest(sessionId)));
    case JobDone(_, result) =>
      assert g.log == Snoc(Snoc(f.log, Wrote(r, g.state)), Finished(r, StartResolved(result)));
    case _ =>
  }

  lemma StaleGuardedSpends(f: Flow, r: nat, windowClosed: bool)
    requires 1 <= r < f.runId && r in f.runs && !Committed(f.runs[r])
    ensures Spends(f, Resume(f, r, windowClosed), r)
  {
    hide BackoffMs, PollMs, ResultOf, JobError;
  }

  lemma OtherContinueSpends(f: Flow, q: nat, windowClosed: bool, r: nat)
    requires q in f.runs && q != r
    ensures Spends(f, Resume(f, q, windowClosed), r)
  {
    ResumeCounts(f, q, windowClosed, WritesOf(r));
    ResumeCounts(f, q, windowClosed, RequestsOf(r));
    ResumeCounts(f, q, windowClosed, ErrorWritesOf(r));
    ResumeLocal(f, q, windowClosed);
    hide Resume;
  }

  lemma StepSpends(f: Flow, e: Event, r: nat)
    requires Inv(f) && 1 <= r < f.runId
    ensures Spends(f, Step(f, e), r) && r < Step(f, e).runId
  {
    hide Inv;
    match e
    case Continue(q, windowClosed) =>
      ContinueSpends(f, q, windowClosed, r);
      ResumeLocal(f, q, windowClosed);
    case StatusSettles(_) | DisconnectSettles(_) =>
    case ConnectCall(_) | StartCall(_) | CancelCall => CallSpends(f, e, r); 
    case _ => SettleSpends(f, e, r); SettledKeys(f, e);
  }

  lemma {:induction false} RunSpends(f: Flow, events: seq<Event>, r: nat)
    requires Inv(f) && 1 <= r < f.runId
    ensures Spends(f, Run(f, events), r)
    decreases |events|
  {
    if events != [] {
      StepInv(f, events[0]);
      StepSpends(f, events[0], r);
      RunSpends(Step(f, events[0]), events[1..], r);
    }
  }

  /**
    However events interleave, a run makes at most one more state write and one more request once it has been
    superseded, and never writes an error.
   */
  lemma SupersededRunIsAlmostSilent(f: Flow, events: seq<Event>, r: nat)
    requires Inv(f) && 1 <= r < f.runId
    ensures Count(Run(f, events).log, WritesOf(r)) <= Count(f.log, WritesOf(r)) + 1
    ensures Count(Run(f, events).log, RequestsOf(r)) <= Count(f.log, RequestsOf(r)) + 1
    ensures Count(Run(f, events).log, ErrorWritesOf(r)) == Count(f.log, ErrorWritesOf(r))
  {
    RunSpends(f, events, r);
  }

  /** And if it is waiting then, as it is between tasks, or over, it never writes and never asks for anything again. */
  lemma WaitingStaleRunIsSilent(f: Flow, events: seq<Event>, r: nat)
    requires Inv(f) && 1 <= r < f.runId
    requires r in f.runs ==> f.runs[r].Suspended()
    ensures Count(Run(f, events).log, WritesOf(r)) <= Count(f.log, WritesOf(r))
    ensures Count(Run(f, events).log, RequestsOf(r)) <= Count(f.log, RequestsOf(r))
  {
    RunSpends(f, events, r);
  }

  /**
    A run cut off by a call writes again in some continuation of events if and only if the call cut in at an unguarded
    write: between a successful OAuth message, a `ready` poll or a `complete` poll and the code that awaited it.
   */
  lemma CutOffRunWritesIff(f: Flow, call: Event)
    requires Inv(f) && IsCall(call) && f.runId in f.runs
    ensures (exists events :: Count(Run(Step(f, call), events).log, WritesOf(f.runId)) > Count(f.log, WritesOf(f.runId)))
            <==> Armed(f.runs[f.runId])
  {
    var r := f.runId;
    var g := Step(f, call);
    RunFacts(f, r);
    StepInv(f, call);
    CallKeeps(f, call, WritesOf(r));
    CallKeepsArmed(f, call, r);
    hide Step, Inv, Armed;
    if Armed(f.runs[r]) {
      ArmedWrites(g, r);
      var events := [Continue(r, false)];
      RunOne(g, events[0]);
      assert Count(Run(g, events).log, WritesOf(f.runId)) > Count(f.log, WritesOf(f.runId));
    } else {
      forall events: seq<Event>
        ensures Count(Run(g, events).log, WritesOf(r)) <= Count(f.log, WritesOf(r))
      {
        RunSpends(g, events, r);
      }
    }
  }

  lemma CallKeepsArmed(f: Flow, call: Event, r: nat)
    requires IsCall(call) && r in f.runs && 1 <= r <= f.runId
    ensures var g := Step(f, call);
            && g.runId == f.runId + 1 && r in g.runs
            && (Armed(f.runs[r]) ==> g.runs[r] == f.runs[r])
            && (!Armed(f.runs[r]) ==> !Armed(g.runs[r]))
  {
    CallMoves(f, call);
    hide Step;
  }

  lemma RunOne(f: Flow, e: Event)
    ensures Run(f, [e]) == Step(f, e)
  {
    assert [e][1..] == [];
    hide Step;
  }

  lemma RunTwo(f: Flow, e: Event, d: Event)
    ensures Run(f, [e, d]) == Step(Step(f, e), d)
  {
    assert [e, d][1..] == [d];
    RunOne(Step(f, e), d);
    hide Step;
  }

  lemma ArmedWrites(f: Flow, r: nat)
    requires r in f.runs && Armed(f.runs[r])
    ensures Count(Step(f, Continue(r, false)).log, WritesOf(r)) == Count(f.log, WritesOf(r)) + 1
    ensures var p := Step(f, Continue(r, false)).state.phase; p.Idle? || p.Importing? || p.Done?
  {
  }

  /**
    That is what `Polite` rules out, and it has to: a `connect()` that gets its window and cuts in at an unguarded write
    leaves the phase saying something else than the run that is live.
   */
  lemma CuttingInBreaksAgreement(f: Flow)
    requires Inv(f) && f.runId in f.runs && Armed(f.runs[f.runId])
    ensures !PhaseAgrees(Run(f, [ConnectCall(true), Continue(f.runId, false)]))
  {
    hide Inv, Step, Armed;
    var r := f.runId;
    RunFacts(f, r);
    CallKeepsArmed(f, ConnectCall(true), r);
    var g := Step(f, ConnectCall(true));
    ConnectConnects(f);
    ArmedWrites(g, r);
    RunTwo(f, ConnectCall(true), Continue(r, false));
    ContinueKeeps(g, r, r + 1);
  }

  lemma ConnectConnects(f: Flow)
    ensures var g := Step(f, ConnectCall(true));
            g.runId == f.runId + 1 && g.runId in g.runs && g.runs[g.runId] == AwaitConsentUrl
  {
  }

  /**
    Exactly when the agreement survives: phase and coroutines agree after any call now, and after whatever follows
    politely, if and only if the current run does not stand at an unguarded write.
   */
  lemma AgreementSurvivesCallsIff(f: Flow)
    requires Inv(f) && Agreement(f) && f.runId in f.runs
    ensures (forall call: Event, events: seq<Event> | IsCall(call) && AllPolite(Step(f, call), events) ::
               PhaseAgrees(Run(Step(f, call), events)))
            <==> !Armed(f.runs[f.runId])
  {
    hide Step, Inv, Armed, PhaseAgrees;
    if Armed(f.runs[f.runId]) {
      var late := Continue(f.runId, false);
      CuttingInBreaksAgreement(f);
      RunTwo(f, ConnectCall(true), late);
      RunOne(Step(f, ConnectCall(true)), late);
      assert AllPolite(Step(f, ConnectCall(true)), [late]);
    } else {
      forall call: Event, events: seq<Event> | IsCall(call) && AllPolite(Step(f, call), events)
        ensures PhaseAgrees(Run(Step(f, call), events))
      {
        StepInv(f, call);
        StepAgreement(f, call);
        RunAgreement(Step(f, call), events);
      }
    }
  }

  lemma ContinueKeeps(f: Flow, r: nat, q: nat)
    requires q in f.runs && q != r
    ensures var g := Step(f, Continue(r, false)); g.runId == f.runId && q in g.runs && g.runs[q] == f.runs[q]
  {
    ResumeLocal(f, r, false);
    hide Resume;
  }

  // ----- everything settles at most once -----

  /** A call settles at most once, and while it is live it has not settled. */
  predicate FinishesOnce(f: Flow, r: nat) {
    && Count(f.log, FinishesOf(r)) + (if r in f.runs then 1 else 0) <= 1
    && (r > f.runId ==> r !in f.runs && Count(f.log, FinishesOf(r)) == 0)
  }

  /** A registered delay is either pending or has settled exactly once. */
  predicate SettlesOnce(f: Flow, t: nat) {
    Count(f.log, SettlesOf(t)) + (if t in f.waiters then 1 else 0) == if t < f.nextTimer then 1 else 0
  }

  /** A run has its OAuth wait ahead of it, or in progress. */
  predicate OAuthAhead(f: Flow, r: nat) {
    r > f.runId || (r in f.runs && (f.runs[r].AwaitConsentUrl? || f.runs[r].GotConsentUrl? || f.runs[r].AwaitOAuth?))
  }

  predicate OAuthSettlesOnce(f: Flow, r: nat) {
    Count(f.log, OAuthSettlesOf(r)) + (if OAuthAhead(f, r) then 1 else 0) <= 1
  }

  lemma CallFinishesOnce(f: Flow, e: Event, r: nat)
    requires IsCall(e) && FinishesOnce(f, r)
    ensures FinishesOnce(Step(f, e), r)
  {
    CallMoves(f, e);
    if e.CancelCall? {
      CancelCounts(f, FinishesOf(r));
    } else {
      CallCounts(f, e, FinishesOf(r));
    }
    hide Connect, Start, Cancel;
  }

  lemma SettleFinishesOnce(f: Flow, e: Event, r: nat)
    requires Inv(f) && Settles(e) && FinishesOnce(f, r)
    ensures FinishesOnce(Step(f, e), r)
  {
    SettledKeys(f, e);
    hide Inv, AfterReply, AfterDelays, MessageAccepted;
  }

  lemma StepFinishesOnce(f: Flow, e: Event, r: nat)
    requires Inv(f) && FinishesOnce(f, r)
    ensures FinishesOnce(Step(f, e), r)
  {
    hide Inv, FinishesOnce, Resume, Connect, Start, Cancel;
    match e
    case Continue(q, windowClosed) =>
      if q !in f.runs {
        ResumeNobody(f, q, windowClosed);
      } else {
        ContinueFinishesOnce(f, q, windowClosed, r);
      }
    case ConnectCall(_) | StartCall(_) | CancelCall => CallFinishesOnce(f, e, r);
    case StatusSettles(_) | DisconnectSettles(_) => StatusSettlesNothing(f, e, r, 0);
    case _ => SettleFinishesOnce(f, e, r);
  }

  lemma ContinueFinishesOnce(f: Flow, q: nat, windowClosed: bool, r: nat)
    requires q in f.runs && FinishesOnce(f, r)
    ensures FinishesOnce(Resume(f, q, windowClosed), r)
  {
    ResumeCounts(f, q, windowClosed, FinishesOf(r));
    ResumeLocal(f, q, windowClosed);
    hide Resume;
  }

  lemma StatusSettlesNothing(f: Flow, e: Event, r: nat, t: nat)
    requires e.StatusSettles? || e.DisconnectSettles?
    ensures FinishesOnce(f, r) ==> FinishesOnce(Step(f, e), r)
    ensures SettlesOnce(f, t) ==> SettlesOnce(Step(f, e), t)
    ensures OAuthSettlesOnce(f, r) ==> OAuthSettlesOnce(Step(f, e), r)
  {
  }

  lemma CallSettlesOnce(f: Flow, e: Event, t: nat)
    requires IsCall(e) && SettlesOnce(f, t) && forall u <- f.waiters :: u < f.nextTimer
    ensures SettlesOnce(Step(f, e), t)
  {
    CallMoves(f, e);
    if e.CancelCall? {
      CancelCounts(f, SettlesOf(t));
    } else {
      CallCounts(f, e, SettlesOf(t));
    }
    hide Connect, Start, Cancel;
  }

  lemma SettleSettlesOnce(f: Flow, e: Event, t: nat)
    requires f.waiters == f.timers.Keys && Settles(e) && SettlesOnce(f, t)
    ensures SettlesOnce(Step(f, e), t)
  {
    hide AfterReply, AfterDelays, MessageAccepted;
  }

  lemma StepSettlesOnce(f: Flow, e: Event, t: nat)
    requires Inv(f) && SettlesOnce(f, t)
    ensures SettlesOnce(Step(f, e), t)
  {
    assert f.waiters == f.timers.Keys && forall u <- f.timers :: u < f.nextTimer;
    hide Inv, SettlesOnce, Resume, Connect, Start, Cancel;
    match e
    case Continue(r, windowClosed) =>
      if r !in f.runs {
        ResumeNobody(f, r, windowClosed);
      } else {
        ContinueSettlesOnce(f, r, windowClosed, t);
      }
    case ConnectCall(_) | StartCall(_) | CancelCall => CallSettlesOnce(f, e, t);
    case StatusSettles(_) | DisconnectSettles(_) => StatusSettlesNothing(f, e, 0, t);
    case _ => SettleSettlesOnce(f, e, t);
  }

  lemma ContinueSettlesOnce(f: Flow, r: nat, windowClosed: bool, t: nat)
    requires r in f.runs && SettlesOnce(f, t) && forall u <- f.waiters :: u < f.nextTimer
    ensures SettlesOnce(Resume(f, r, windowClosed), t)
  {
    ResumeCounts(f, r, windowClosed, SettlesOf(t));
    ResumeTimers(f, r, windowClosed);
    hide Resume;
  }

  /** `g` has the delays of `f`, and at most one more under a new handle. */
  predicate OneMoreDelay(f: Flow, g: Flow) {
    || (g.waiters == f.waiters && g.nextTimer == f.nextTimer)
    || (g.waiters == f.waiters + {f.nextTimer} && g.nextTimer == f.nextTimer + 1)
  }

  lemma ResumePollTimers(f: Flow, r: nat, windowClosed: bool)
    requires r in f.runs && (f.runs[r].GotStatus? || f.runs[r].GotJob? || f.runs[r].PollFailed?)
    ensures OneMoreDelay(f, Resume(f, r, windowClosed))
  {
    hide BackoffMs, PollMs, ResultOf, JobError;
  }

  lemma ResumeTimers(f: Flow, r: nat, windowClosed: bool)
    requires r in f.runs
    ensures OneMoreDelay(f, Resume(f, r, windowClosed))
  {
    match f.runs[r]
    case GotStatus(_, _) => ResumePollTimers(f, r, windowClosed);
    case GotJob(_, _) => ResumePollTimers(f, r, windowClosed);
    case PollFailed(_, _, _) => ResumePollTimers(f, r, windowClosed);
    case _ => hide ResumeStatus, ResumeJob, ResumePollFailed, RequestAt;
  }

  lemma CallOAuthSettlesOnce(f: Flow, e: Event, r: nat)
    requires RunsOk(f) && IsCall(e) && OAuthSettlesOnce(f, r)
    ensures OAuthSettlesOnce(Step(f, e), r)
  {
    CallMoves(f, e);
    if e.CancelCall? {
      CancelCounts(f, OAuthSettlesOf(r));
    } else {
      CallCounts(f, e, OAuthSettlesOf(r));
    }
    hide Connect, Start, Cancel;
  }

  lemma SettleOAuthSettlesOnce(f: Flow, e: Event, r: nat)
    requires Inv(f) && Settles(e) && OAuthSettlesOnce(f, r)
    ensures OAuthSettlesOnce(Step(f, e), r)
  {
    if e.TimerFires? && e.timer in f.timers {
      TimerOwner(f, e.timer);
    }
    hide RunsOk, DelaysOk, MessageAccepted;
  }

  lemma StepOAuthSettlesOnce(f: Flow, e: Event, r: nat)
    requires Inv(f) && OAuthSettlesOnce(f, r)
    ensures OAuthSettlesOnce(Step(f, e), r)
  {
    InvParts(f);
    hide Inv, OAuthSettlesOnce, Resume, Connect, Start, Cancel, RunsOk, DelaysOk, OAuthOk;
    match e
    case Continue(q, windowClosed) =>
      if q !in f.runs {
        ResumeNobody(f, q, windowClosed);
      } else {
        ContinueOAuthSettlesOnce(f, q, windowClosed, r);
      }
    case ConnectCall(_) | StartCall(_) | CancelCall => CallOAuthSettlesOnce(f, e, r);
    case StatusSettles(_) | DisconnectSettles(_) => StatusSettlesNothing(f, e, r, 0);
    case _ => SettleOAuthSettlesOnce(f, e, r);
  }

  lemma ContinueOAuthSettlesOnce(f: Flow, q: nat, windowClosed: bool, r: nat)
    requires q in f.runs && OAuthSettlesOnce(f, r)
    ensures OAuthSettlesOnce(Resume(f, q, windowClosed), r)
  {
    ResumeLocal(f, q, windowClosed);
    ResumeCounts(f, q, windowClosed, OAuthSettlesOf(r));
    ResumeOAuthAhead(f, q, windowClosed);
    hide Resume;
  }

  lemma ResumeOAuthAhead(f: Flow, q: nat, windowClosed: bool)
    requires q in f.runs
    ensures var g := Resume(f, q, windowClosed); q in g.runs && OAuthAhead(g, q) ==> OAuthAhead(f, q)
  {
    hide BackoffMs, PollMs, ResultOf, JobError, RequestAt;
    match f.runs[q]
    case GotStatus(_, _) => hide ResumeJob, ResumePollFailed;
    case GotJob(_, _) => hide ResumeStatus, ResumePollFailed;
    case PollFailed(_, _, _) => hide ResumeStatus, ResumeJob;
    case _ => hide ResumeStatus, ResumeJob, ResumePollFailed;
  }

  /** In every run of events: each call settles at most once, each delay and each OAuth wait too. */
  lemma {:induction false} SettlesOnceThroughout(f: Flow, events: seq<Event>, r: nat, t: nat)
    requires Inv(f) && FinishesOnce(f, r) && SettlesOnce(f, t) && OAuthSettlesOnce(f, r)
    ensures var g := Run(f, events);
            Inv(g) && FinishesOnce(g, r) && SettlesOnce(g, t) && OAuthSettlesOnce(g, r)
    decreases |events|
  {
    if events != [] {
      StepInv(f, events[0]);
      StepFinishesOnce(f, events[0], r);
      StepSettlesOnce(f, events[0], t);
      StepOAuthSettlesOnce(f, events[0], r);
      SettlesOnceThroughout(Step(f, events[0]), events[1..], r, t);
    }
  }

  lemma InitSettlesOnce(config: Config, r: nat, t: nat)
    ensures var f := Init(config); FinishesOnce(f, r) && SettlesOnce(f, t) && OAuthSettlesOnce(f, r)
  {
  }

  /** A wait for OAuth resolves on exactly one thing: an accepted success message to a run that is current. */
  lemma OAuthResolvesIff(f: Flow, e: Event, r: nat)
    requires Inv(f) && r in f.runs && f.runs[r].AwaitOAuth?
    ensures r in Step(f, e).runs && Step(f, e).runs[r] == OAuthSettled(None)
            <==> e.MessageArrives? && e.run == r && r == f.runId
                 && MessageAccepted(f.config, e.origin, e.data) && e.data.value.status == "success"
    ensures r in Step(f, e).runs && Step(f, e).runs[r].OAuthSettled? ==>
              r !in Step(f, e).listeners && r !in Step(f, e).intervals && r !in Step(f, e).timeouts
  {
    InvParts(f);
    hide Inv, RunsOk;
    match e
    case Continue(q, windowClosed) =>
      ResumeLocal(f, q, windowClosed);
      hide OAuthOk, DelaysOk;
    case TimerFires(t) =>
      if t in f.timers {
        TimerOwner(f, t);
      }
      hide DelaysOk;
    case _ => hide DelaysOk;
  }

  /**
    In every reachable state: a call has settled at most once, and not while it is live; a delay that was registered has
    settled exactly once or is pending, and no other has; an OAuth wait has settled at most once.
   */
  lemma EverythingSettlesOnce(config: Config, events: seq<Event>, r: nat, t: nat)
    ensures var f := Run(Init(config), events);
            && Count(f.log, FinishesOf(r)) + (if r in f.runs then 1 else 0) <= 1
            && Count(f.log, SettlesOf(t)) == (if t < f.nextTimer && t !in f.waiters then 1 else 0)
            && Count(f.log, OAuthSettlesOf(r)) <= 1
            && (r in f.listeners ==> Count(f.log, OAuthSettlesOf(r)) == 0)
  {
    hide Run, Inv, Count;
    InitInv(config);
    InitSettlesOnce(config, r, t);
    SettlesOnceThroughout(Init(config), events, r, t);
    ListeningUnsettled(Run(Init(config), events), r, t);
  }

  lemma ListeningUnsettled(f: Flow, r: nat, t: nat)
    requires Inv(f) && SettlesOnce(f, t) && OAuthSettlesOnce(f, r)
    ensures r in f.listeners ==> Count(f.log, OAuthSettlesOf(r)) == 0
    ensures Count(f.log, OAuthSettlesOf(r)) <= 1
    ensures t in f.waiters ==> t < f.nextTimer
  {
    hide Count;
  }
}
