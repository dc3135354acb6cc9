/**
  A `Get` deletes the final record it reads, so an answer that gets lost can take the result with it; and a run can stop
  asking. Exactly when a finished job's result is out of reach, and a run of browser and pipeline in which that happens.
 */
module LostResults {
  import opened Wrappers
  import opened Histories
  import opened FlowTypes
  import opened Backoff
  import opened Ledgers
  import opened EndToEnd
  import F = FlowModel
  import FI = FlowInvariants
  import FA = FlowAgreement
  import FH = FlowHistory
  import FS = FlowStory
  import P = Pipeline
  import PI = PipelineInvariants
  import PH = PipelineHistory

  // ----- when a result is lost -----

  predicate SaysComplete(pc: P.PollerPc) {
    Carried(pc).Some? && Carried(pc).value.status.Complete?
  }

  /** If the request is still awaited, its answer will not say that the job is complete. */
  ghost predicate NothingToSay(w: World, p: nat) {
    p in w.tickets && p in w.back.pollers && Live(w.flow, w.tickets[p]) ==> !SaysComplete(w.back.pollers[p])
  }

  /** At this point the run has been given job `id`, and if it is current it will ask for it or has its record. */
  predicate Polls(pc: Pc, id: string) {
    match pc
    case GotImport(_, Ok(job)) => job == id
    case AwaitPoll(JobLoop(job), _) => job == id
    case AwaitBackoff(JobLoop(job), _, _) => job == id
    case AwaitInterval(JobLoop(job), _) => job == id
    case BackoffOver(JobLoop(job), _) => job == id
    case IntervalOver(JobLoop(job)) => job == id
    case PollFailed(JobLoop(job), failures, _) => job == id && failures < MAX_POLL_FAILURES
    case GotJob(job, view) => job == id && !view.status.JobFailed?
    case _ => false
  }

  predicate PollsNow(f: F.Flow, id: string) {
    f.runId in f.runs && Polls(f.runs[f.runId], id)
  }

  /** The current run can be told job `id` as the one its import has created. */
  predicate AwaitsImport(w: World, id: string) {
    id in w.imports && Pending(w.flow, w.imports[id]) && w.imports[id].run == w.flow.runId
  }

  /** The current run is on its way to ask for job `id`. */
  predicate OnTrack(w: World, id: string) {
    PollsNow(w.flow, id) || AwaitsImport(w, id)
  }

  /**
    The job's row is deleted or the current run will not ask for it; no answer under way to the current run says that the
    job is complete; and no run has been told so that will not be stopped.
   */
  ghost predicate LostForGood(w: World, id: string) {
    && id in w.back.origins && (id in w.back.table ==> !OnTrack(w, id))
    && (forall p <- w.tickets :: w.tickets[p].job == id && w.tickets[p].run == w.flow.runId ==> NothingToSay(w, p))
    && (forall r <- w.flow.runs :: !Holds(w.flow, r, id))
  }

  /** Some run is about to enter `done` with this job. */
  ghost predicate ReachesDone(w: World, id: string) {
    exists r <- w.flow.runs :: w.flow.runs[r].JobDone? && w.flow.runs[r].jobId == id
  }

  // ----- the current run does not come back on track -----

  /** The current run is told that its import has created job `id`. */
  predicate TellsStart(f: F.Flow, e: F.Event, id: string) {
    e == F.FetchSettles(f.runId, StartedReply(id)) && f.runId in f.runs && f.runs[f.runId].AwaitImport?
  }

  lemma ResumeTracks(f: F.Flow, r: nat, windowClosed: bool, id: string)
    requires r == f.runId && r in f.runs
    ensures var g := F.Resume(f, r, windowClosed);
            && (r in g.runs && Polls(g.runs[r], id) ==> Polls(f.runs[r], id))
            && (r in g.runs && g.runs[r].AwaitImport? ==> g.runs[r] == f.runs[r] || Asks(g, r) > Asks(f, r))
  {
    match f.runs[r]
    case GotStatus(_, _) => hide F.ResumeJob, F.ResumePollFailed;
    case GotJob(_, _) => hide F.ResumeStatus, F.ResumePollFailed;
    case PollFailed(_, _, _) => hide F.ResumeStatus, F.ResumeJob;
    case SessionDone(_) =>
      ImportIsAsked(f, r, windowClosed);
      hide F.Resume, Asks;
    case _ => hide F.ResumeStatus, F.ResumeJob, F.ResumePollFailed;
  }

  lemma ImportIsAsked(f: F.Flow, r: nat, windowClosed: bool)
    requires r in f.runs && f.runs[r].SessionDone?
    ensures var g := F.Resume(f, r, windowClosed);
            r in g.runs && g.runs[r].AwaitImport? && Asks(g, r) == Asks(f, r) + 1
  {
    var g := F.Resume(f, r, windowClosed);
    var wrote, asked := g.log.past.last, g.log.last;
    assert g.log == Snoc(Snoc(f.log, wrote), asked) && wrote.Wrote? && asked.Asked? && asked.run == r;
    hide F.Resume;
    FH.CountTwo(f.log, FH.RequestsOf(r));
    assert FH.Tally(wrote, FH.RequestsOf(r)) == 0 && FH.Tally(asked, FH.RequestsOf(r)) == 1;
  }

  lemma SettleTracks(f: F.Flow, e: F.Event, id: string)
    requires FI.Inv(f) && FA.Settles(e) && f.runId in f.runs && f.runId in F.Step(f, e).runs
    ensures var g := F.Step(f, e); var r := f.runId;
            && (Polls(g.runs[r], id) ==> Polls(f.runs[r], id) || TellsStart(f, e, id))
            && (g.runs[r].AwaitImport? ==> g.runs[r] == f.runs[r])
  {
    hide FI.RunsOk, FI.DelaysOk, F.MessageAccepted, F.RefusalOf;
  }

  /** Only by being told does the current run come to poll job `id`; and it comes to await an import only by asking anew. */
  ghost predicate Tracks(f: F.Flow, g: F.Flow, id: string, told: bool) {
    g.runId in g.runs ==>
      && (Polls(g.runs[g.runId], id) ==> told || PollsNow(f, id))
      && (g.runs[g.runId].AwaitImport? ==>
            || Asks(g, g.runId) > Asks(f, g.runId)
            || (g.runId == f.runId && g.runId in f.runs && f.runs[g.runId] == g.runs[g.runId]))
  }

  lemma StepTracks(f: F.Flow, e: F.Event, id: string)
    requires FI.Inv(f)
    ensures Tracks(f, F.Step(f, e), id, TellsStart(f, e, id))
  {
    var r := f.runId;
    FI.InvParts(f);
    hide FI.Inv, Polls, F.Resume, F.Connect, F.Start, F.Cancel, F.SettleFetch, F.FireTimer, F.Message, F.Watchdog,
      F.OAuthTimeout, Asks;
    match e
    case Continue(q, windowClosed) =>
      FI.ResumeLocal(f, q, windowClosed);
      if q == r && r in f.runs {
        ResumeTracks(f, r, windowClosed, id);
      }
    case ConnectCall(_) | StartCall(_) | CancelCall => CallTracks(f, e, id);
    case StatusSettles(_) | DisconnectSettles(_) =>
    case _ =>
      FA.SettledKeys(f, e);
      if r in f.runs {
        SettleTracks(f, e, id);
      }
  }

  /** A call starts off another run, which has no job yet. */
  lemma CallTracks(f: F.Flow, e: F.Event, id: string)
    requires FI.RunsOk(f) && FA.IsCall(e)
    ensures var g := F.Step(f, e);
            g.runId in g.runs ==> !Polls(g.runs[g.runId], id) && !g.runs[g.runId].AwaitImport?
  {
    hide F.Step;
    FH.CallMoves(f, e);
  }

  lemma FlowOffTrack(w: World, e: F.Event, id: string)
    requires FI.Inv(w.flow) && ImportsOk(w.user, w.back, w.flow, w.imports) && !OnTrack(w, id)
    requires !TellsStart(w.flow, e, id)
    ensures !OnTrack(w.(flow := F.Step(w.flow, e)), id)
  {
    hide FI.Inv, F.Step, Polls, Asks;
    StepTracks(w.flow, e, id);
    StepGoes(w.flow, e, F.Step(w.flow, e).runId, id);
  }

  lemma FlowStaysLost(w: World, e: F.Event, id: string)
    requires FI.Inv(w.flow) && Ordered(w) && ImportsOk(w.user, w.back, w.flow, w.imports) && LostForGood(w, id)
    requires e.FetchSettles? ==> !Tells(w.flow, e, e.run, id)
    requires id in w.back.table ==> !TellsStart(w.flow, e, id)
    ensures LostForGood(w.(flow := F.Step(w.flow, e)), id)
  {
    var v := w.(flow := F.Step(w.flow, e));
    hide FI.Inv, F.Step, JobOf, Holds, RowLater, Carried, OnTrack, ImportsOk, TellsStart;
    if id in w.back.table {
      FlowOffTrack(w, e, id);
    }
    forall r <- v.flow.runs
      ensures !Holds(v.flow, r, id)
    {
      StepGoes(w.flow, e, r, id);
      HoldsLive(w.flow, r, id);
    }
    forall p <- w.tickets | w.tickets[p].job == id && w.tickets[p].run == v.flow.runId
      ensures NothingToSay(v, p)
    {
      assert TicketOk(w, p, w.tickets[p]);
      StepGoes(w.flow, e, w.tickets[p].run, id);
      assert NothingToSay(w, p);
    }
  }

  lemma HoldsLive(f: F.Flow, r: nat, id: string)
    ensures Holds(f, r, id) ==> r in f.runs
  {
  }

  lemma BackStaysLost(w: World, b: P.Event, id: string)
    requires PI.Inv(w.back) && LostForGood(w, id) && !OwnPoller(w, b) && Ordered(w)
    ensures LostForGood(w.(back := P.Step(w.back, b)), id)
  {
    hide PI.Inv, P.Step, Holds, RowLater, Carried, PH.LastRecord, SeenOk, Asks, AwaitsJob, Polls;
    var v := w.(back := P.Step(w.back, b));
    PH.StepLater(w.back, b);
    PollersCarry(w.back, b);
    forall p <- w.tickets | w.tickets[p].job == id && w.tickets[p].run == v.flow.runId
      ensures NothingToSay(v, p)
    {
      assert TicketOk(w, p, w.tickets[p]) && NothingToSay(w, p);
    }
  }

  lemma StaysLost(w: World, e: Event, id: string)
    requires Inv(w) && Ordered(w) && LostForGood(w, id)
    ensures LostForGood(Step(w, e), id)
  {
    hide Ordered, FS.StoryOk, LogBacked, FI.Inv, PI.Inv, F.Step, P.Step, Holds, Carried, AwaitsJob, ImportsOk, StartedOnce, LostForGood;
    match e
    case Front(e) =>
      if !FromPipeline(e) {
        FlowStaysLost(w, e, id);
      }
    case Back(b) =>
      if !OwnPoller(w, b) {
        BackStaysLost(w, b, id);
      }
    case Create(r, other, metadata, now) =>
      if CanCreate(w, r, other) {
        CreateStaysLost(w, r, other, metadata, now, id);
      }
    case Accept(other) =>
      if CanAccept(w, other) {
        AcceptStaysLost(w, other, id);
      }
    case Serve(p, r) =>
      if CanServe(w, p, r) {
        ServeStaysLost(w, p, r, id);
      }
    case Deliver(p) =>
      if CanDeliver(w, p) {
        DeliverStaysLost(w, p, id);
      }
  }

  /** What is lost does not depend on other jobs' imports, nor on those that have been answered. */
  lemma LostWithImports(w: World, imports: map<string, Import>, id: string)
    requires LostForGood(w, id)
    requires id in imports && !imports[id].answered ==> id in w.imports && w.imports[id] == imports[id]
    ensures LostForGood(w.(imports := imports), id)
  {
    hide Holds, Asks, AwaitsJob, Carried, Polls;
    var v := w.(imports := imports);
    forall p <- v.tickets | v.tickets[p].job == id && v.tickets[p].run == v.flow.runId
      ensures NothingToSay(v, p)
    {
      assert NothingToSay(w, p);
    }
  }

  lemma CreateStaysLost(w: World, r: nat, other: string, metadata: Option<map<string, string>>, now: nat, id: string)
    requires Inv(w) && Ordered(w) && LostForGood(w, id) && CanCreate(w, r, other)
    ensures LostForGood(Step(w, Create(r, other, metadata, now)), id)
  {
    hide Ordered, FS.StoryOk, LogBacked, FI.Inv, PI.Inv, P.Step, ImportsOk, StartedOnce, Asks;
    assert other != id by {
      LostHasOrigin(w, id);
    }
    hide LostForGood;
    BackStaysLost(w, Creation(w, r, other, metadata, now), id);
    LostWithImports(w.(back := P.Step(w.back, Creation(w, r, other, metadata, now))),
                    Step(w, Create(r, other, metadata, now)).imports, id);
  }

  lemma LostHasOrigin(w: World, id: string)
    requires LostForGood(w, id)
    ensures id in w.back.origins
  {
  }

  lemma AcceptStaysLost(w: World, other: string, id: string)
    requires Inv(w) && Ordered(w) && LostForGood(w, id) && CanAccept(w, other)
    ensures LostForGood(Step(w, Accept(other)), id)
  {
    hide Ordered, FS.StoryOk, LogBacked, FI.Inv, PI.Inv, F.Step, ImportsOk, StartedOnce, Holds, NothingToSay, Asks, Polls;
    var e := F.FetchSettles(w.imports[other].run, StartedReply(other));
    FlowStaysLost(w, e, id);
    hide LostForGood;
    LostWithImports(w.(flow := F.Step(w.flow, e)), Step(w, Accept(other)).imports, id);
  }

  lemma ServeStaysLost(w: World, p: nat, r: nat, id: string)
    requires Inv(w) && Ordered(w) && LostForGood(w, id) && CanServe(w, p, r)
    ensures LostForGood(Step(w, Serve(p, r)), id)
  {
    hide Ordered, FS.StoryOk, LogBacked, FI.Inv, PI.Inv, F.Step, P.Step, Holds, Carried, PH.LastRecord, ImportsOk, StartedOnce;
    var job := w.flow.runs[r].loop.jobId;
    var u := w.(back := P.Step(w.back, P.Select(p, w.user, job)));
    BackStaysLost(w, P.Select(p, w.user, job), id);
    SelectCarries(w.back, p, w.user, job);
    var v := Step(w, Serve(p, r));
    assert id in v.back.table ==> !OnTrack(v, id) by {
      assert OnTrack(v, id) ==> OnTrack(u, id);
    }
    forall q <- v.tickets | v.tickets[q].job == id && v.tickets[q].run == v.flow.runId
      ensures NothingToSay(v, q)
    {
      if q != p {
        assert NothingToSay(u, q);
      } else {
        assert PollsNow(w.flow, id);
      }
    }
  }

  lemma DeliverStaysLost(w: World, p: nat, id: string)
    requires Inv(w) && Ordered(w) && LostForGood(w, id) && CanDeliver(w, p)
    ensures LostForGood(Answered(w, p), id)
  {
    hide Ordered, FS.StoryOk, LogBacked, FI.Inv, PI.Inv, F.Step, P.Step, Holds, Asks, ImportsOk, StartedOnce, Polls, LostForGood;
    var ticket := w.tickets[p];
    var u := w.(tickets := w.tickets - {p});
    TicketOff(w, p);
    OneTicketLess(w, p, id);
    var e := match w.back.pollers[p].found
      case None => F.FetchSettles(ticket.run, FetchFailed("not found", false))
      case Some(row) => F.FetchSettles(ticket.run, JobReply(ViewOf(row)));
    if w.back.pollers[p].found.Some? {
      NotToldComplete(w, p, id);
    }
    FlowStaysLost(u, e, id);
    FlowOrdered(u, e);
    var v := u.(flow := F.Step(w.flow, e), back := P.Step(w.back, P.Answer(p)));
    BackStaysLost(u.(flow := F.Step(w.flow, e)), P.Answer(p), id);
    LostWhateverSeen(v, Answered(w, p).seen, id);
  }

  lemma LostWhateverSeen(w: World, seen: map<nat, Seen>, id: string)
    requires LostForGood(w, id)
    ensures LostForGood(w.(seen := seen), id)
  {
    hide Holds, Asks, AwaitsJob, Carried, Polls;
    var v := w.(seen := seen);
    forall p <- v.tickets | v.tickets[p].job == id && v.tickets[p].run == v.flow.runId
      ensures NothingToSay(v, p)
    {
      assert NothingToSay(w, p);
    }
  }

  lemma OneTicketLess(w: World, p: nat, id: string)
    requires LostForGood(w, id) && p in w.tickets
    ensures LostForGood(w.(tickets := w.tickets - {p}), id)
  {
    hide Holds, Asks, AwaitsJob, Carried, Polls;
    var u := w.(tickets := w.tickets - {p});
    forall q <- u.tickets | u.tickets[q].job == id && u.tickets[q].run == u.flow.runId
      ensures NothingToSay(u, q)
    {
      assert NothingToSay(w, q);
    }
  }

  /** An answer that says `complete` is about another job, or for a run that is not current. */
  lemma NotToldComplete(w: World, p: nat, id: string)
    requires LostForGood(w, id) && CanDeliver(w, p) && w.back.pollers[p].found.Some?
    ensures var e := F.FetchSettles(w.tickets[p].run, JobReply(ViewOf(w.back.pollers[p].found.value)));
            !Tells(w.flow, e, w.tickets[p].run, id)
  {
    assert w.tickets[p].job == id && w.tickets[p].run == w.flow.runId ==> NothingToSay(w, p);
    hide Holds, Asks;
  }

  /** Once the result is lost, no run ever comes to enter `done` with this job, whatever happens. */
  lemma {:induction false} LostReadNeverDone(w: World, events: seq<Event>, id: string)
    requires Inv(w) && Ordered(w) && LostForGood(w, id)
    ensures LostForGood(Run(w, events), id) && !ReachesDone(Run(w, events), id)
    decreases |events|
  {
    hide Inv, Ordered, Step, LostForGood, ReachesDone;
    if events != [] {
      StepInv(w, events[0]);
      StaysLost(w, events[0], id);
      LostReadNeverDone(Step(w, events[0]), events[1..], id);
    } else {
      LostNotDone(w, id);
    }
  }

  lemma LostNotDone(w: World, id: string)
    requires LostForGood(w, id)
    ensures !ReachesDone(w, id)
  {
    forall r <- w.flow.runs
      ensures !(w.flow.runs[r].JobDone? && w.flow.runs[r].jobId == id)
    {
      assert !Holds(w.flow, r, id);
    }
  }

  // ----- and when it is not -----

  lemma RunOne(w: World, e: Event, events: seq<Event>)
    ensures Run(w, [e] + events) == Run(Step(w, e), events)
  {
    assert ([e] + events)[1..] == events;
    hide Step;
  }

  /** What `w` can reach after one event it can reach. */
  lemma ReachesAfter(w: World, e: Event, id: string)
    requires exists events :: ReachesDone(Run(Step(w, e), events), id)
    ensures exists events :: ReachesDone(Run(w, events), id)
  {
    hide ReachesDone, Step;
    var events :| ReachesDone(Run(Step(w, e), events), id);
    RunOne(w, e, events);
    assert ReachesDone(Run(w, [e] + events), id);
  }

  /** An answer that says `complete` and is awaited by the current run: it is delivered, and the run goes on. */
  lemma AnswerReaches(w: World, p: nat)
    requires CanDeliver(w, p) && w.tickets[p].run == w.flow.runId && SaysComplete(w.back.pollers[p])
    ensures exists events :: ReachesDone(Run(w, events), w.tickets[p].job)
  {
    var id, r := w.tickets[p].job, w.flow.runId;
    var view := ViewOf(w.back.pollers[p].found.value);
    var v := Step(w, Deliver(p));
    ToldComplete(w.flow, id, view);
    assert v.flow == F.Step(w.flow, F.FetchSettles(r, JobReply(view)));
    hide F.Step, P.Step;
    var u := Step(v, Front(F.Continue(r, false)));
    assert r in u.flow.runs && u.flow.runs[r].JobDone? && u.flow.runs[r].jobId == id;
    assert ReachesDone(Run(u, []), id);
    ReachesAfter(v, Front(F.Continue(r, false)), id);
    ReachesAfter(w, Deliver(p), id);
  }

  lemma ToldComplete(f: F.Flow, id: string, view: JobView)
    requires AwaitsJob(f, f.runId, id) && view.status.JobComplete?
    ensures var r := f.runId;
            var g := F.Step(F.Step(f, F.FetchSettles(r, JobReply(view))), F.Continue(r, false));
            r in g.runs && g.runs[r] == JobDone(id, ResultOf(view))
  {
    var r := f.runId;
    var h := F.Step(f, F.FetchSettles(r, JobReply(view)));
    assert h.runs[r] == GotJob(id, view) && h.runId == r;
    hide F.SettleFetch;
  }

  /** A live request of the current run whose poller carries the complete row. */
  lemma TicketReaches(w: World, p: nat)
    requires Ordered(w) && p in w.tickets && Live(w.flow, w.tickets[p]) && w.tickets[p].run == w.flow.runId
    requires p in w.back.pollers && SaysComplete(w.back.pollers[p])
    ensures exists events :: ReachesDone(Run(w, events), w.tickets[p].job)
  {
    assert TicketOk(w, p, w.tickets[p]);
    hide Ordered, TicketOk, Live, ReachesDone;
    if w.back.pollers[p].Answering? {
      AnswerReaches(w, p);
    } else {
      var e := Back(P.Delete(p, false));
      NotDeleted(w.back, p);
      AnswerReaches(Step(w, e), p);
      ReachesAfter(w, e, w.tickets[p].job);
    }
  }

  lemma NotDeleted(s: P.Sys, p: nat)
    requires p in s.pollers && s.pollers[p].Deleting?
    ensures var t := P.Step(s, P.Delete(p, false));
            p in t.pollers && t.pollers[p] == P.Answering(s.pollers[p].user, s.pollers[p].id, Some(s.pollers[p].row))
  {
  }

  /** The row is still there: the current run's poll can be served once more. */
  lemma RowReaches(w: World, id: string)
    requires Inv(w) && Ordered(w) && AwaitsJob(w.flow, w.flow.runId, id)
    requires id in w.back.ledgers && w.back.ledgers[id].end == Some(Succeeded) && id in w.back.table
    ensures exists events :: ReachesDone(Run(w, events), id)
  {
    hide FI.Inv, PI.Inv, LogBacked, FS.StoryOk, Ordered, ReachesDone, P.Step, RowOf, ImportsOk, StartedOnce;
    var p := FreshPoller(w.back.pollers.Keys + w.tickets.Keys);
    var r := w.flow.runId;
    OwnJob(w, id);
    CompleteRow(w.back, id);
    SelectSees(w.back, p, w.user, id);
    StepInv(w, Serve(p, r));
    var v := Step(w, Serve(p, r));
    assert p in v.tickets && Live(v.flow, v.tickets[p]);
    TicketReaches(v, p);
    ReachesAfter(w, Serve(p, r), id);
  }

  /** How many events the current run is away from its next poll, or from the end of its loop. */
  function Distance(pc: Pc): nat {
    match pc
    case AwaitImport(_) => 2
    case GotImport(_, _) => 1
    case PollFailed(_, _, _) => 3
    case AwaitBackoff(_, _, _) => 2
    case BackoffOver(_, _) => 1
    case GotJob(_, _) => 3
    case AwaitInterval(_, _) => 2
    case IntervalOver(_) => 1
    case _ => 0
  }

  /** What takes the current run on. */
  function Onward(w: World, id: string): Event
    requires w.flow.runId in w.flow.runs
  {
    var r := w.flow.runId;
    match w.flow.runs[r]
    case AwaitImport(_) => Accept(id)
    case AwaitBackoff(_, _, timer) => Front(F.TimerFires(timer))
    case AwaitInterval(_, timer) => Front(F.TimerFires(timer))
    case _ => Front(F.Continue(r, false))
  }

  /** A run on track gets closer to its next poll, stays on track, and nothing happens to the job. */
  lemma OnwardStays(w: World, id: string)
    requires Inv(w) && OnTrack(w, id) && !AwaitsJob(w.flow, w.flow.runId, id) && !Holds(w.flow, w.flow.runId, id)
    ensures var v := Step(w, Onward(w, id));
            && v.back == w.back && v.flow.runId == w.flow.runId && OnTrack(v, id)
            && Distance(v.flow.runs[v.flow.runId]) < Distance(w.flow.runs[w.flow.runId])
  {
    hide FS.StoryOk, PI.Inv, LogBacked, ImportsOk, StartedOnce, Asks, FI.Inv, F.Step;
    var r := w.flow.runId;
    if AwaitsImport(w, id) {
      ToldStart(w.flow, id);
    } else {
      FI.RunFacts(w.flow, r);
      FlowOnward(w.flow, id);
    }
  }

  lemma ToldStart(f: F.Flow, id: string)
    requires f.runId in f.runs && f.runs[f.runId].AwaitImport?
    ensures var g := F.Step(f, F.FetchSettles(f.runId, StartedReply(id)));
            g.runId == f.runId && f.runId in g.runs && g.runs[f.runId] == GotImport(f.runs[f.runId].sessionId, Ok(id))
  {
  }

  function FlowEvent(f: F.Flow): F.Event
    requires f.runId in f.runs
  {
    match F.DelayTimer(f.runs[f.runId])
    case Some(timer) => F.TimerFires(timer)
    case None => F.Continue(f.runId, false)
  }

  lemma FlowOnward(f: F.Flow, id: string)
    requires FI.Inv(f) && PollsNow(f, id) && !AwaitsJob(f, f.runId, id) && !Holds(f, f.runId, id)
    ensures var g := F.Step(f, FlowEvent(f));
            && g.runId == f.runId && PollsNow(g, id)
            && Distance(g.runs[f.runId]) < Distance(f.runs[f.runId])
  {
    var r := f.runId;
    FI.RunFacts(f, r);
    FI.InvParts(f);
    hide FI.Inv, FI.RunsOk, FI.OAuthOk;
    match f.runs[r]
    case AwaitBackoff(_, _, _) => hide F.Resume;
    case AwaitInterval(_, _) => hide F.Resume;
    case GotJob(_, _) => hide F.ResumeStatus, F.ResumePollFailed, FI.DelaysOk;
    case PollFailed(_, _, _) => hide F.ResumeStatus, F.ResumeJob, FI.DelaysOk;
    case _ => hide F.ResumeStatus, F.ResumeJob, F.ResumePollFailed, FI.DelaysOk;
  }

  /** With the row still there, a run on track gets to `done`. */
  lemma {:induction false} TrackReaches(w: World, id: string)
    requires Inv(w) && Ordered(w) && OnTrack(w, id)
    requires id in w.back.ledgers && w.back.ledgers[id].end == Some(Succeeded) && id in w.back.table
    ensures exists events :: ReachesDone(Run(w, events), id)
    decreases Distance(w.flow.runs[w.flow.runId])
  {
    hide Inv, Ordered, ReachesDone, Holds, AwaitsJob, Asks;
    if AwaitsJob(w.flow, w.flow.runId, id) {
      RowReaches(w, id);
    } else if Holds(w.flow, w.flow.runId, id) {
      HoldsReaches(w, w.flow.runId, id);
    } else {
      OnwardStays(w, id);
      StepInv(w, Onward(w, id));
      TrackReaches(Step(w, Onward(w, id)), id);
      ReachesAfter(w, Onward(w, id), id);
    }
  }

  /** A run that has been told gets to `done`. */
  lemma HoldsReaches(w: World, r: nat, id: string)
    requires Holds(w.flow, r, id)
    ensures exists events :: ReachesDone(Run(w, events), id)
  {
    if w.flow.runs[r].JobDone? {
      assert ReachesDone(Run(w, []), id);
    } else {
      var e := Front(F.Continue(r, false));
      var v := Step(w, e);
      assert r in v.flow.runs && v.flow.runs[r].JobDone? && v.flow.runs[r].jobId == id;
      hide F.Step;
      assert ReachesDone(Run(v, []), id);
      ReachesAfter(w, e, id);
    }
  }

  lemma FreshPoller(used: set<nat>) returns (p: nat)
    ensures p !in used
  {
    p := Above(used);
  }

  /** A number above all of a set. */
  lemma {:induction false} Above(used: set<nat>) returns (p: nat)
    ensures forall q <- used :: q < p
    decreases |used|
  {
    if used == {} {
      p := 0;
    } else {
      var q :| q in used;
      var rest := Above(used - {q});
      p := if rest <= q then q + 1 else rest;
      forall x <- used
        ensures x < p
      {
        assert x != q ==> x in used - {q};
      }
    }
  }

  /** The job a run polls was created for its user. */
  lemma OwnJob(w: World, id: string)
    requires FS.StoryOk(w.flow) && LogBacked(w.back, w.imports, w.flow.log) && AwaitsJob(w.flow, w.flow.runId, id)
    requires ImportsOk(w.user, w.back, w.flow, w.imports)
    ensures id in w.back.origins && w.back.origins[id].user == w.user
  {
    var r := w.flow.runId;
    assert FS.Told(w.flow.log, r, w.flow.runs[r]);
    var sessionId :| InOrder(FS.Started(r, sessionId, id), w.flow.log);
    InOrderContains(FS.Started(r, sessionId, id), w.flow.log, 2);
    hide LogBacked, InOrder, FS.StoryOk, Asks;
    LogBackedContains(w.back, w.imports, w.flow.log, Replied(r, ImportRequest(sessionId), StartedReply(id)));
  }

  lemma CompleteRow(s: P.Sys, id: string)
    requires PI.Inv(s) && id in s.ledgers && s.ledgers[id].end == Some(Succeeded) && id in s.table
    ensures id in s.origins && s.table[id].status.Complete? && s.table[id].user == s.origins[id].user
  {
    hide PI.WorkersOk, PI.PollersOk, PI.ClaimsOk, LedgerOk;
  }

  lemma SelectSees(s: P.Sys, p: nat, user: string, id: string)
    requires p !in s.pollers && id in s.table && s.table[id].user == user && s.table[id].status.Terminal()
    ensures var t := P.Step(s, P.Select(p, user, id));
            p in t.pollers && t.pollers[p] == P.Deleting(user, id, s.table[id])
  {
  }

  /**
    Exactly when a result is lost. For every reachable state, and every job that has succeeded: some continuation of events takes a run
    to `done` with it if and only if it is not lost for good, that is, as long as its row is in the table and the current run
    is on its way to ask for it, or an answer with it is under way to that run, or a run has been told and is not stopped.
   */
  lemma DoneReachableIff(w: World, id: string)
    requires Inv(w) && Ordered(w)
    requires id in w.back.ledgers && w.back.ledgers[id].end == Some(Succeeded)
    ensures (exists events :: ReachesDone(Run(w, events), id)) <==> !LostForGood(w, id)
  {
    hide Inv, Ordered, ReachesDone, Carried;
    if LostForGood(w, id) {
      forall events
        ensures !ReachesDone(Run(w, events), id)
      {
        LostReadNeverDone(w, events, id);
      }
    } else {
      NotLost(w, id);
    }
  }

  lemma NotLost(w: World, id: string)
    requires Inv(w) && Ordered(w) && !LostForGood(w, id)
    requires id in w.back.ledgers && w.back.ledgers[id].end == Some(Succeeded)
    ensures exists events :: ReachesDone(Run(w, events), id)
  {
    HasOrigin(w, id);
    hide Inv, Ordered, Carried, Holds, AwaitsJob, ReachesDone, Asks, OnTrack;
    if id in w.back.table && OnTrack(w, id) {
      TrackReaches(w, id);
    } else if p :| p in w.tickets && w.tickets[p].job == id && w.tickets[p].run == w.flow.runId && !NothingToSay(w, p) {
      TicketReaches(w, p);
    } else {
      var r :| r in w.flow.runs && Holds(w.flow, r, id);
      HoldsReaches(w, r, id);
    }
  }

  /**
    So after the fifth failure in a row the row is no use any more, unless another run has got past its job loop with it: the
    run gives up, although the job has succeeded.
   */
  lemma FifthFailureLoses(w: World, id: string, error: Thrown)
    requires Inv(w) && Ordered(w) && id in w.back.origins && w.flow.runId in w.flow.runs
    requires w.flow.runs[w.flow.runId] == PollFailed(JobLoop(id), MAX_POLL_FAILURES, error)
    requires forall r <- w.flow.runs :: !(w.flow.runs[r].JobDone? && w.flow.runs[r].jobId == id)
    ensures LostForGood(w, id)
  {
    hide Inv, Ordered, Carried, Asks;
  }

  /** And so is it for a run that is superseded, whatever it was waiting for. */
  lemma SupersededLoses(w: World, call: F.Event, id: string)
    requires Inv(w) && Ordered(w) && id in w.back.origins && FA.IsCall(call)
    requires forall r <- w.flow.runs :: !(w.flow.runs[r].JobDone? && w.flow.runs[r].jobId == id)
    ensures LostForGood(Step(w, Front(call)), id)
  {
    hide FS.StoryOk, PI.Inv, LogBacked, ImportsOk, StartedOnce, Carried, Polls, Asks, RowLater, PH.LastRecord, F.Step, SeenOk;
    var v := Step(w, Front(call));
    FI.InvParts(w.flow);
    CallTracks(w.flow, call, id);
    FH.CallMoves(w.flow, call);
    hide FI.Inv;
    forall r <- v.flow.runs
      ensures !Holds(v.flow, r, id)
    {
      StepGoes(w.flow, call, r, id);
      SupersededHolds(w.flow, call, r, id);
    }
    forall p <- v.tickets
      ensures v.tickets[p].run <= w.flow.runId
    {
      assert TicketOk(w, p, w.tickets[p]);
    }
  }

  lemma SupersededHolds(f: F.Flow, call: F.Event, r: nat, id: string)
    requires FI.RunsOk(f) && FA.IsCall(call) && r in F.Step(f, call).runs
    ensures var g := F.Step(f, call);
            Holds(g, r, id) ==> r in f.runs && f.runs[r].JobDone? && f.runs[r].jobId == id
  {
    hide F.Step;
    FH.CallMoves(f, call);
    var g := F.Step(f, call);
    assert r in g.runs.Keys - {g.runId} <==> r in f.runs.Keys - {g.runId};
  }

  lemma HasOrigin(w: World, id: string)
    requires Inv(w) && id in w.back.ledgers
    ensures id in w.back.origins
  {
    hide FI.Inv, FS.StoryOk, LogBacked, PI.WorkersOk, PI.PollersOk, PI.ClaimsOk, LedgerOk, RowOf, ImportsOk, StartedOnce;
  }

  /** The request of the only answer that says `complete` fails in the browser: with the row deleted, that loses the result. */
  lemma LosingTheOnlyAnswer(w: World, p: nat, message: string)
    requires Inv(w) && Ordered(w) && CanDeliver(w, p)
    requires var id := w.tickets[p].job;
             && id in w.back.origins && id !in w.back.table
             && (forall q <- w.tickets :: q != p && w.tickets[q].job == id && w.tickets[q].run == w.flow.runId ==> NothingToSay(w, q))
             && (forall r <- w.flow.runs :: !Holds(w.flow, r, id))
    ensures LostForGood(Step(w, Front(F.FetchSettles(w.tickets[p].run, FetchFailed(message, false)))), w.tickets[p].job)
  {
    hide FS.StoryOk, LogBacked, FI.Inv, PI.Inv, F.Step, Holds, Carried, RowLater, PH.LastRecord, ImportsOk, StartedOnce, OnTrack;
    var id := w.tickets[p].job;
    var e := F.FetchSettles(w.tickets[p].run, FetchFailed(message, false));
    var v := Step(w, Front(e));
    forall r <- v.flow.runs
      ensures !Holds(v.flow, r, id)
    {
      StepGoes(w.flow, e, r, id);
      HoldsLive(w.flow, r, id);
    }
    FailedAway(w.flow, w.tickets[p].run, id, message);
    forall q <- w.tickets | w.tickets[q].job == id && w.tickets[q].run == v.flow.runId
      ensures NothingToSay(v, q)
    {
      assert TicketOk(w, q, w.tickets[q]);
      StepGoes(w.flow, e, w.tickets[q].run, id);
      if q != p {
        assert NothingToSay(w, q);
      }
    }
  }

  lemma FailedAway(f: F.Flow, r: nat, id: string, message: string)
    requires AwaitsJob(f, r, id)
    ensures var g := F.Step(f, F.FetchSettles(r, FetchFailed(message, false)));
            !AwaitsJob(g, r, id) && g.runId == f.runId
  {
  }

  // ----- it does happen -----

  function Fronts(events: seq<F.Event>): seq<Event> {
    if events == [] then [] else [Front(events[0])] + Fronts(events[1..])
  }

  function Backs(events: seq<P.Event>): seq<Event> {
    if events == [] then [] else [Back(events[0])] + Backs(events[1..])
  }

  lemma {:induction false} RunConcat(w: World, a: seq<Event>, b: seq<Event>)
    ensures Run(w, a + b) == Run(Run(w, a), b)
    decreases |a|
  {
    hide Step;
    if a == [] {
      assert a + b == b;
    } else {
      assert (a + b)[1..] == a[1..] + b;
      RunConcat(Step(w, a[0]), a[1..], b);
    }
  }

  lemma {:induction false} FrontRun(w: World, events: seq<F.Event>)
    requires forall e <- events :: !FromPipeline(e)
    ensures Run(w, Fronts(events)) == w.(flow := F.Run(w.flow, events))
    decreases |events|
  {
    hide F.Step, FromPipeline;
    if events != [] {
      var v := w.(flow := F.Step(w.flow, events[0]));
      assert events[0] in events && Step(w, Front(events[0])) == v;
      FrontRun(v, events[1..]);
      RunOne(w, Front(events[0]), Fronts(events[1..]));
    }
  }

  lemma {:induction false} BackRun(w: World, events: seq<P.Event>)
    requires forall b <- events :: !b.Select? && !b.Answer?
    ensures Run(w, Backs(events)) == w.(back := P.Run(w.back, events))
    decreases |events|
  {
    hide P.Step;
    if events != [] {
      var v := w.(back := P.Step(w.back, events[0]));
      assert events[0] in events && Step(w, Back(events[0])) == v;
      BackRun(v, events[1..]);
      RunOne(w, Back(events[0]), Backs(events[1..]));
    }
  }

  /** A `start()` up to its import request. */
  function PickEvents(sessionId: string): seq<F.Event> {
    [F.StartCall(true), F.FetchSettles(1, SessionReply(sessionId)), F.Continue(1, false)]
    + [F.FetchSettles(1, StatusReply(SessionReady)), F.Continue(1, false), F.Continue(1, false)]
  }

  /** A flow with one run, which is current. */
  predicate Alone(f: F.Flow, pc: Pc) {
    f.runs == map[1 := pc] && f.runId == 1
  }

  lemma StartAsks(config: Config)
    ensures Alone(F.Step(F.Init(config), F.StartCall(true)), AwaitSession)
  {
  }

  lemma SessionComes(f: F.Flow, sessionId: string)
    requires Alone(f, AwaitSession)
    ensures Alone(F.Step(F.Step(f, F.FetchSettles(1, SessionReply(sessionId))), F.Continue(1, false)),
                  AwaitPoll(SessionLoop(sessionId), 0))
  {
    var g := F.Step(f, F.FetchSettles(1, SessionReply(sessionId)));
    assert Alone(g, GotSession(Ok(sessionId)));
    hide F.SettleFetch;
  }

  lemma PickedPoll(f: F.Flow, sessionId: string)
    requires Alone(f, AwaitPoll(SessionLoop(sessionId), 0))
    ensures Alone(F.Step(F.Step(f, F.FetchSettles(1, StatusReply(SessionReady))), F.Continue(1, false)), SessionDone(sessionId))
  {
    var g := F.Step(f, F.FetchSettles(1, StatusReply(SessionReady)));
    assert Alone(g, GotStatus(sessionId, SessionReady));
    hide F.SettleFetch;
  }

  lemma ImportAsked(f: F.Flow, sessionId: string)
    requires Alone(f, SessionDone(sessionId))
    ensures Alone(F.Step(f, F.Continue(1, false)), AwaitImport(sessionId))
  {
  }

  lemma JobComes(f: F.Flow, sessionId: string, id: string)
    requires Alone(f, AwaitImport(sessionId))
    ensures Alone(F.Step(F.Step(f, F.FetchSettles(1, StartedReply(id))), F.Continue(1, false)), AwaitPoll(JobLoop(id), 0))
  {
    var g := F.Step(f, F.FetchSettles(1, StartedReply(id)));
    assert Alone(g, GotImport(sessionId, Ok(id)));
    hide F.SettleFetch;
  }

  lemma FlowRunTwo(f: F.Flow, e: F.Event, d: F.Event, rest: seq<F.Event>)
    ensures F.Run(f, [e, d] + rest) == F.Run(F.Step(F.Step(f, e), d), rest)
  {
    var events := [e, d] + rest;
    assert events[1..] == [d] + rest;
    assert events[1..][1..] == rest;
    hide F.Step;
  }

  lemma Picks(config: Config, sessionId: string)
    ensures Alone(F.Run(F.Init(config), PickEvents(sessionId)), AwaitImport(sessionId))
  {
    hide F.Step, Alone;
    var f := F.Step(F.Init(config), F.StartCall(true));
    StartAsks(config);
    var go := F.Continue(1, false);
    var session, ready := F.FetchSettles(1, SessionReply(sessionId)), F.FetchSettles(1, StatusReply(SessionReady));
    var g := F.Step(F.Step(f, session), go);
    SessionComes(f, sessionId);
    var h := F.Step(F.Step(g, ready), go);
    PickedPoll(g, sessionId);
    ImportAsked(h, sessionId);
    FlowRunTwo(f, session, go, [ready, go, go]);
    FlowRunTwo(g, ready, go, [go]);
    assert F.Run(h, [go]) == F.Step(h, go);
    assert PickEvents(sessionId)[1..] == [session, go] + [ready, go, go];
    assert [ready, go, go] == [ready, go] + [go];
  }

  /** The worker takes a job that was just created to its end. */
  function WorkEvents(id: string, user: string, sessionId: string): seq<P.Event> {
    PH.EmptyJob(id, user, sessionId)[1..]
  }

  /** A user picks, the worker imports (an empty listing), and the run comes to poll the job, which is complete. */
  function ImportEvents(user: string, sessionId: string, id: string): seq<Event> {
    Fronts(PickEvents(sessionId)) + [Create(1, id, None, 0)] + Backs(WorkEvents(id, user, sessionId))
    + [Accept(id), Front(F.Continue(1, false))]
  }

  lemma Imports(user: string, config: Config, sessionId: string, id: string)
    ensures var w := Run(Init(user, config), ImportEvents(user, sessionId, id));
            && w.user == user && w.flow.runId == 1 && AwaitsJob(w.flow, 1, id) && w.flow.runs.Keys == {1}
            && w.tickets == map[] && w.back.pollers == map[]
            && id in w.back.origins && id in w.back.table && w.back.table[id].user == user
            && w.back.table[id].status.Complete? && id in w.back.ledgers && w.back.ledgers[id].end == Some(Succeeded)
  {
    hide F.Step, F.Run, P.Run, P.Step, PI.Inv, Asks, Run, ImportEvents, Picked, Worked;
    var c := Picked(user, config, sessionId, id);
    var u := Worked(user, config, sessionId, id);
    PickedFacts(user, config, sessionId, id);
    WorkedFacts(user, config, sessionId, id);
    ImportRun(user, config, sessionId, id);
    assert CanAccept(u, id);
    JobComes(u.flow, sessionId, id);
    Polling(F.Step(F.Step(u.flow, F.FetchSettles(1, StartedReply(id))), F.Continue(1, false)), id);
  }

  /** The user has picked, and the import request has been served. */
  function Picked(user: string, config: Config, sessionId: string, id: string): World {
    Step(Run(Init(user, config), Fronts(PickEvents(sessionId))), Create(1, id, None, 0))
  }

  /** The worker has finished the job. */
  function Worked(user: string, config: Config, sessionId: string, id: string): World {
    Run(Picked(user, config, sessionId, id), Backs(WorkEvents(id, user, sessionId)))
  }

  lemma PickedFacts(user: string, config: Config, sessionId: string, id: string)
    ensures var c := Picked(user, config, sessionId, id);
            && c.user == user && Alone(c.flow, AwaitImport(sessionId)) && c.tickets == map[]
            && c.back == P.Step(P.INIT, P.CreateJob(id, user, sessionId, None, 0, true))
            && c.imports == map[id := Import(1, Asks(c.flow, 1), sessionId, false)]
  {
    hide F.Step, F.Run, P.Step, Asks;
    Picks(config, sessionId);
    FrontRun(Init(user, config), PickEvents(sessionId));
    hide Run, Fronts, PickEvents;
  }

  lemma WorkedFacts(user: string, config: Config, sessionId: string, id: string)
    ensures var c := Picked(user, config, sessionId, id); var u := Worked(user, config, sessionId, id);
            && u == c.(back := u.back)
            && id in u.back.table && u.back.table[id].user == user && u.back.table[id].status.Complete?
            && id in u.back.origins && id in u.back.ledgers && u.back.ledgers[id].end == Some(Succeeded)
            && u.back.pollers == map[]
  {
    hide Picked, P.Step, Run, Backs, WorkEvents, Asks, Alone;
    PickedFacts(user, config, sessionId, id);
    Works(Picked(user, config, sessionId, id), user, sessionId, id);
  }

  lemma ImportRun(user: string, config: Config, sessionId: string, id: string)
    ensures Run(Init(user, config), ImportEvents(user, sessionId, id))
            == Step(Step(Worked(user, config, sessionId, id), Accept(id)), Front(F.Continue(1, false)))
  {
    hide Step, Run, Init, Fronts, Backs, PickEvents, WorkEvents;
    var w := Init(user, config);
    var picked := Fronts(PickEvents(sessionId));
    var created, worked := [Create(1, id, None, 0)], Backs(WorkEvents(id, user, sessionId));
    RunConcat(w, picked, created);
    RunSingle(Run(w, picked), Create(1, id, None, 0));
    RunConcat(w, picked + created, worked);
    RunConcat(w, picked + created + worked, [Accept(id), Front(F.Continue(1, false))]);
    RunTwo(Worked(user, config, sessionId, id), Accept(id), Front(F.Continue(1, false)));
  }

  lemma RunSingle(w: World, e: Event)
    ensures Run(w, [e]) == Step(w, e)
  {
    hide Step;
    assert Run(Step(w, e), []) == Step(w, e);
  }

  lemma Works(c: World, user: string, sessionId: string, id: string)
    requires c.back == P.Step(P.INIT, P.CreateJob(id, user, sessionId, None, 0, true))
    ensures var u := Run(c, Backs(WorkEvents(id, user, sessionId)));
            && u == c.(back := u.back)
            && id in u.back.table && u.back.table[id].user == user && u.back.table[id].status.Complete?
            && id in u.back.origins && id in u.back.ledgers && u.back.ledgers[id].end == Some(Succeeded)
            && u.back.pollers == map[]
  {
    hide P.Step, PI.Inv;
    PH.EmptyJobCompletes(id, user, sessionId);
    BackRun(c, WorkEvents(id, user, sessionId));
    assert P.Run(P.INIT, PH.EmptyJob(id, user, sessionId)) == P.Run(c.back, WorkEvents(id, user, sessionId));
  }

  lemma Polling(f: F.Flow, id: string)
    requires Alone(f, AwaitPoll(JobLoop(id), 0))
    ensures AwaitsJob(f, 1, id) && f.runs.Keys == {1} && f.runId == 1
  {
  }

  lemma RunTwo(w: World, e: Event, d: Event)
    ensures Run(w, [e, d]) == Step(Step(w, e), d)
  {
    assert [e, d][1..] == [d] && Run(Step(w, e), [d]) == Step(Step(w, e), d);
    hide Step;
  }

  /** The poll is served, the DELETE takes effect, and the answer does not reach the browser. */
  function LosingEvents(): seq<Event> {
    [Serve(1, 1), Back(P.Delete(1, true))] + [Front(F.FetchSettles(1, FetchFailed("", false)))]
  }

  /**
    From a new flow and an empty table: before the poll is served the result can reach `done`; after its only answer is lost
    it cannot, although the job has succeeded and the run still goes on.
   */
  lemma ResultCanBeLost(user: string, config: Config, sessionId: string, id: string)
    ensures var before := Run(Init(user, config), ImportEvents(user, sessionId, id));
            var after := Run(Init(user, config), ImportEvents(user, sessionId, id) + LosingEvents());
            && AwaitsJob(before.flow, before.flow.runId, id) && !LostForGood(before, id)
            && LostForGood(after, id) && id in after.back.ledgers && after.back.ledgers[id].end == Some(Succeeded)
            && after.flow.runId == 1 && 1 in after.flow.runs && after.flow.runs[1].PollFailed?
  {
    hide F.Step, P.Step, Inv, Ordered, ImportEvents, LostForGood;
    var w := Run(Init(user, config), ImportEvents(user, sessionId, id));
    Imports(user, config, sessionId, id);
    Reachable(user, config, ImportEvents(user, sessionId, id));
    NotLostYet(w, id);
    RunConcat(Init(user, config), ImportEvents(user, sessionId, id), LosingEvents());
    hide Run;
    Loses(w, id);
  }

  lemma NotLostYet(w: World, id: string)
    requires id in w.back.table && AwaitsJob(w.flow, w.flow.runId, id)
    ensures !LostForGood(w, id)
  {
  }

  lemma Loses(w: World, id: string)
    requires Inv(w) && Ordered(w) && w.flow.runId == 1 && AwaitsJob(w.flow, 1, id) && w.flow.runs.Keys == {1}
    requires w.tickets == map[] && w.back.pollers == map[]
    requires id in w.back.origins && id in w.back.table && w.back.table[id].user == w.user
    requires w.back.table[id].status.Complete? && id in w.back.ledgers
    ensures var v := Run(w, LosingEvents());
            && LostForGood(v, id) && v.back.ledgers == w.back.ledgers
            && v.flow.runId == 1 && 1 in v.flow.runs && v.flow.runs[1].PollFailed?
  {
    hide F.Step, P.Step, Inv, Ordered, LostForGood, Asks, PH.LastRecord;
    var lost := Front(F.FetchSettles(1, FetchFailed("", false)));
    var a := Step(w, Serve(1, 1));
    var b := Step(a, Back(P.Delete(1, true)));
    StepInv(w, Serve(1, 1));
    StepInv(a, Back(P.Delete(1, true)));
    SelectSees(w.back, 1, w.user, id);
    SelectKeeps(w.back, 1, w.user, id);
    DeleteTakes(a.back, 1, id);
    PollFails(w.flow, id);
    RunConcat(w, [Serve(1, 1), Back(P.Delete(1, true))], [lost]);
    RunTwo(w, Serve(1, 1), Back(P.Delete(1, true)));
    assert Run(b, [lost]) == Step(b, lost);
    hide Run;
    assert CanDeliver(b, 1) && b.tickets.Keys == {1};
    forall r <- b.flow.runs
      ensures !Holds(b.flow, r, id)
    {
    }
    LosingTheOnlyAnswer(b, 1, "");
  }

  lemma SelectKeeps(s: P.Sys, p: nat, user: string, id: string)
    ensures var t := P.Step(s, P.Select(p, user, id)); t == s.(pollers := t.pollers)
  {
  }

  lemma DeleteTakes(s: P.Sys, p: nat, id: string)
    requires p in s.pollers && s.pollers[p].Deleting? && s.pollers[p].id == id
    requires id in s.table && s.table[id].user == s.pollers[p].user
    ensures var t := P.Step(s, P.Delete(p, true));
            && t == s.(table := s.table - {id}, pollers := t.pollers)
            && p in t.pollers && t.pollers[p] == P.Answering(s.pollers[p].user, id, Some(s.pollers[p].row))
  {
  }

  lemma PollFails(f: F.Flow, id: string)
    requires AwaitsJob(f, 1, id) && f.runId == 1
    ensures var g := F.Step(f, F.FetchSettles(1, FetchFailed("", false)));
            g.runId == 1 && 1 in g.runs && g.runs[1].PollFailed?
  {
  }
}
