/**
  The browser flow of one user against the import pipeline. Each `startImport` request that is served creates a job of its
  own, job polls are `Get`s; requests may be served more than once, and answers may be late or lost.
 */
module EndToEnd {
  import opened Wrappers
  import opened Histories
  import opened FlowTypes
  import opened Ledgers
  import F = FlowModel
  import FI = FlowInvariants
  import FA = FlowAgreement
  import FH = FlowHistory
  import FS = FlowStory
  import P = Pipeline
  import PI = PipelineInvariants
  import PH = PipelineHistory
  import T = ImportTypes

  /** A served request: whose it was, and how many requests that run had made when it was served. */
  datatype Ticket = Ticket(run: nat, asked: nat, job: string)

  /** The last row that reached a run. */
  datatype Seen = Seen(job: string, row: T.Row)

  /** A job that was created for an import request: whose that was, as for a ticket, and whether the run has been told. */
  datatype Import = Import(run: nat, asked: nat, session: string, answered: bool)

  datatype World = World(
    user: string,
    flow: F.Flow,
    back: P.Sys,
    imports: map<string, Import>,
    tickets: map<nat, Ticket>,
    seen: map<nat, Seen>)

  function Init(user: string, config: Config): World {
    World(user, F.Init(config), P.INIT, map[], map[], map[])
  }

  datatype Event =
    | Front(e: F.Event)
    | Back(b: P.Event)
    | Create(run: nat, id: string, metadata: Option<map<string, string>>, now: nat)
    | Accept(id: string)
    | Serve(poller: nat, run: nat)
    | Deliver(poller: nat)

  function ViewOf(row: T.Row): JobView {
    JobView(match row.status
            case Pending => JobPending
            case Running => JobRunning
            case Complete => JobComplete
            case Failed => JobFailed,
            row.total, row.completed, row.failed, Some(row.savedIds), row.error)
  }

  function Asks(f: F.Flow, r: nat): nat {
    FH.Count(f.log, FH.RequestsOf(r))
  }

  /** Replies that only the pipeline can give. */
  predicate FromPipeline(e: F.Event) {
    e.FetchSettles? && (e.reply.StartedReply? || e.reply.JobReply?)
  }

  /** Pollers of the flow are answered through `Deliver`. */
  predicate OwnPoller(w: World, b: P.Event) {
    (b.Select? || b.Answer?) && b.poller in w.tickets
  }

  /** Run `r` waits for an answer about job `id`. */
  predicate AwaitsJob(f: F.Flow, r: nat, id: string) {
    r in f.runs && f.runs[r].AwaitPoll? && f.runs[r].loop == JobLoop(id)
  }

  /** The import request of run `r` is served, under an id that was never used. */
  predicate CanCreate(w: World, r: nat, id: string) {
    r in w.flow.runs && w.flow.runs[r].AwaitImport? && id !in w.back.origins
  }

  function Creation(w: World, r: nat, id: string, metadata: Option<map<string, string>>, now: nat): P.Event
    requires CanCreate(w, r, id)
  {
    P.CreateJob(id, w.user, w.flow.runs[r].sessionId, metadata, now, true)
  }

  /** The import request is the one its run is waiting for. */
  predicate Pending(f: F.Flow, i: Import) {
    !i.answered && i.run in f.runs && f.runs[i.run] == AwaitImport(i.session) && i.asked == Asks(f, i.run)
  }

  predicate CanAccept(w: World, id: string) {
    id in w.imports && Pending(w.flow, w.imports[id])
  }

  predicate CanServe(w: World, p: nat, r: nat) {
    && p !in w.back.pollers && p !in w.tickets
    && r in w.flow.runs && w.flow.runs[r].AwaitPoll? && w.flow.runs[r].loop.JobLoop?
  }

  /** The request is the one its run is waiting for. */
  predicate Live(f: F.Flow, ticket: Ticket) {
    AwaitsJob(f, ticket.run, ticket.job) && ticket.asked == Asks(f, ticket.run)
  }

  predicate CanDeliver(w: World, p: nat) {
    && p in w.tickets && p in w.back.pollers && w.back.pollers[p].Answering?
    && Live(w.flow, w.tickets[p])
  }

  function Answered(w: World, p: nat): World
    requires CanDeliver(w, p)
  {
    var ticket := w.tickets[p];
    var rest := w.(back := P.Step(w.back, P.Answer(p)), tickets := w.tickets - {p});
    match w.back.pollers[p].found
    case None => rest.(flow := F.Step(w.flow, F.FetchSettles(ticket.run, FetchFailed("not found", false))))
    case Some(row) =>
      rest.(flow := F.Step(w.flow, F.FetchSettles(ticket.run, JobReply(ViewOf(row)))),
      seen := w.seen[ticket.run := Seen(ticket.job, row)])
  }

  /** An event that cannot happen leaves the world as it is. */
  function Step(w: World, e: Event): World {
    match e
    case Front(e) => if FromPipeline(e) then w else w.(flow := F.Step(w.flow, e))
    case Back(b) => if OwnPoller(w, b) then w else w.(back := P.Step(w.back, b))
    case Create(r, id, metadata, now) =>
      if CanCreate(w, r, id) then
        w.(back := P.Step(w.back, Creation(w, r, id, metadata, now)),
        imports := w.imports[id := Import(r, Asks(w.flow, r), w.flow.runs[r].sessionId, false)])
      else w
    case Accept(id) =>
      if CanAccept(w, id) then
        w.(flow := F.Step(w.flow, F.FetchSettles(w.imports[id].run, StartedReply(id))),
        imports := w.imports[id := w.imports[id].(answered := true)])
      else w
    case Serve(p, r) =>
      if CanServe(w, p, r) then
        var id := w.flow.runs[r].loop.jobId;
        w.(back := P.Step(w.back, P.Select(p, w.user, id)), tickets := w.tickets[p := Ticket(r, Asks(w.flow, r), id)])
      else w
    case Deliver(p) => if CanDeliver(w, p) then Answered(w, p) else w
  }

  function Run(w: World, events: seq<Event>): World
    decreases |events|
  {
    if events == [] then w else Run(Step(w, events[0]), events[1..])
  }

  // ----- what the flow has been told is true -----

  /** `view` is a record of job `id`, and if it is terminal it is the final one. */
  ghost predicate Backed(back: P.Sys, id: string, view: JobView) {
    exists row: T.Row ::
      view == ViewOf(row) && id in back.origins && (row.status.Terminal() ==> PI.FinalRecord(back, id, row))
  }

  /** Job `id` was created for this user and this session. */
  predicate CreatedFor(back: P.Sys, user: string, sessionId: string, id: string) {
    id in back.origins && back.origins[id].user == user && back.origins[id].session == sessionId
  }

  /** Job `id` was created by the import request of run `r` for this session, and the run has been told. */
  predicate IsImportOf(imports: map<string, Import>, r: nat, sessionId: string, id: string) {
    id in imports && imports[id].answered && imports[id].run == r && imports[id].session == sessionId
  }

  /** An answer to a job poll is a record of that job; an import is told the job it has created. */
  ghost predicate EntryBacked(back: P.Sys, imports: map<string, Import>, o: Obs) {
    && (o.Replied? && o.request.PollJobRequest? && o.reply.JobReply? ==> Backed(back, o.request.jobId, o.reply.job))
    && (o.Replied? && o.request.ImportRequest? && o.reply.StartedReply? ==>
          IsImportOf(imports, o.run, o.request.sessionId, o.reply.jobId))
  }

  ghost predicate LogBacked(back: P.Sys, imports: map<string, Import>, log: History) {
    match log
    case Empty => true
    case Snoc(past, o) => LogBacked(back, imports, past) && EntryBacked(back, imports, o)
  }

  lemma BackedLater(s: P.Sys, t: P.Sys, id: string, view: JobView)
    requires Backed(s, id, view) && PH.Later(s, t)
    ensures Backed(t, id, view)
  {
    var row: T.Row :| view == ViewOf(row) && id in s.origins && (row.status.Terminal() ==> PI.FinalRecord(s, id, row));
    if row.status.Terminal() {
      PH.FinalStaysFinal(s, t, id, row);
    }
    hide PI.FinalRecord;
    assert id in t.origins;
  }

  lemma {:induction false} LogBackedLater(s: P.Sys, t: P.Sys, imports: map<string, Import>, log: History)
    requires LogBacked(s, imports, log) && PH.Later(s, t)
    ensures LogBacked(t, imports, log)
    decreases log
  {
    match log
    case Empty =>
    case Snoc(past, o) =>
      hide Backed;
      LogBackedLater(s, t, imports, past);
      if o.Replied? && o.request.PollJobRequest? && o.reply.JobReply? {
        BackedLater(s, t, o.request.jobId, o.reply.job);
      }
  }

  /** Imports are added, and answered; what has been told does not change. */
  lemma {:induction false} LogBackedImports(back: P.Sys, a: map<string, Import>, b: map<string, Import>, log: History)
    requires LogBacked(back, a, log) && forall id <- a | a[id].answered :: id in b && b[id] == a[id]
    ensures LogBacked(back, b, log)
    decreases log
  {
    hide Backed;
    if log.Snoc? {
      LogBackedImports(back, a, b, log.past);
    }
  }

  /** How often a run has been told that its import started job `id`. */
  function Starts(log: History, id: string): nat {
    match log
    case Empty => 0
    case Snoc(past, o) => Starts(past, id) + if o.Replied? && o.reply == StartedReply(id) then 1 else 0
  }

  lemma {:induction false} NoNewsStarts(past: History, log: History, id: string)
    requires NoNews(past, log)
    ensures Starts(log, id) == Starts(past, id)
    decreases log
  {
    if log != past {
      NoNewsStarts(past, log.past, id);
    }
  }

  /** No job is started twice. */
  ghost predicate StartedOnce(imports: map<string, Import>, log: History) {
    forall id: string :: Starts(log, id) <= if id in imports && imports[id].answered then 1 else 0
  }

  lemma {:induction false} LogBackedContains(back: P.Sys, imports: map<string, Import>, log: History, o: Obs)
    requires LogBacked(back, imports, log) && Contains(log, o)
    ensures EntryBacked(back, imports, o)
    decreases log
  {
    match log
    case Empty =>
    case Snoc(past, last) =>
      if last != o {
        LogBackedContains(back, imports, past, o);
      }
  }

  /** An answer only the pipeline can give. */
  predicate IsNews(o: Obs) {
    o.Replied? && (o.reply.JobReply? || o.reply.StartedReply?)
  }

  /** Everything `log` has beyond `past` is something other than an answer of the pipeline. */
  ghost predicate NoNews(past: History, log: History) {
    log == past || (log.Snoc? && !IsNews(log.last) && NoNews(past, log.past))
  }

  lemma {:induction false} NoNewsBacked(back: P.Sys, imports: map<string, Import>, past: History, log: History)
    requires LogBacked(back, imports, past) && NoNews(past, log)
    ensures LogBacked(back, imports, log)
    decreases log
  {
    if log != past {
      NoNewsBacked(back, imports, past, log.past);
    }
  }

  lemma {:induction false} SpokeNoNews(past: History, log: History, r: nat)
    requires FH.Spoke(past, log, r)
    ensures NoNews(past, log)
    decreases log
  {
    if log != past {
      SpokeNoNews(past, log.past, r);
    }
  }

  lemma FrontNoNews(f: F.Flow, e: F.Event)
    requires !FromPipeline(e)
    ensures NoNews(f.log, F.Step(f, e).log)
  {
    match e
    case Continue(r, windowClosed) =>
      if r in f.runs {
        FH.ResumeLog(f, r, windowClosed);
        hide F.Resume;
        var g := F.Resume(f, r, windowClosed);
        SpokeNoNews(f.log, if r in g.runs then g.log else g.log.past, r);
      }
    case ConnectCall(_) | StartCall(_) =>
      FH.CallLog(f, e);
      hide F.Connect, F.Start;
      var g := F.Step(f, e);
      SpokeNoNews(f.log, if f.runId + 1 in g.runs then g.log else g.log.past, f.runId + 1);
    case CancelCall =>
      var g := F.ClearTimers(f.(runId := f.runId + 1));
      assert NoNews(f.log, g.log);
    case _ => hide F.Resume, F.Connect, F.Start, F.Cancel, F.AfterReply, F.MessageAccepted;
  }

  // ----- the invariant -----

  /** A run that polls a job keeps polling that job. */
  function JobOf(pc: Pc): Option<string> {
    match pc
    case GotJob(id, _) => Some(id)
    case JobDone(id, _) => Some(id)
    case AwaitPoll(JobLoop(id), _) => Some(id)
    case AwaitBackoff(JobLoop(id), _, _) => Some(id)
    case AwaitInterval(JobLoop(id), _) => Some(id)
    case PollFailed(JobLoop(id), _, _) => Some(id)
    case BackoffOver(JobLoop(id), _) => Some(id)
    case IntervalOver(JobLoop(id)) => Some(id)
    case Throwing(JobLoop(id), _) => Some(id)
    case _ => None
  }

  /** What a poller carries for a served request, if it carries a row. */
  function Carried(pc: P.PollerPc): Option<T.Row> {
    match pc
    case Deleting(_, _, row) => Some(row)
    case Answering(_, _, found) => found
  }

  ghost predicate Inv(w: World) {
    && FI.Inv(w.flow) && FS.StoryOk(w.flow) && PI.Inv(w.back)
    && LogBacked(w.back, w.imports, w.flow.log) && ImportsOk(w.user, w.back, w.flow, w.imports)
    && StartedOnce(w.imports, w.flow.log)
  }

  /** A job that was created for an import request was created for this user and that session. */
  ghost predicate ImportsOk(user: string, back: P.Sys, f: F.Flow, imports: map<string, Import>) {
    forall id <- imports ::
      && CreatedFor(back, user, imports[id].session, id)
      && imports[id].asked <= Asks(f, imports[id].run)
  }

  lemma InitInv(user: string, config: Config)
    ensures Inv(Init(user, config))
  {
    FI.InitInv(config);
    PI.InitInv();
  }

  lemma FrontInv(w: World, e: F.Event)
    requires Inv(w) && !FromPipeline(e)
    ensures Inv(w.(flow := F.Step(w.flow, e)))
  {
    hide FI.Inv, FS.StoryOk, PI.Inv, LogBacked, F.Step, ImportsOk, StartedOnce;
    FI.StepInv(w.flow, e);
    FS.StepStory(w.flow, e);
    FrontNoNews(w.flow, e);
    NoNewsBacked(w.back, w.imports, w.flow.log, F.Step(w.flow, e).log);
    FlowImports(w, e);
    NoNewsOnce(w.imports, w.flow.log, F.Step(w.flow, e).log);
  }

  lemma NoNewsOnce(imports: map<string, Import>, past: History, log: History)
    requires StartedOnce(imports, past) && NoNews(past, log)
    ensures StartedOnce(imports, log)
  {
    forall id: string
      ensures Starts(log, id) == Starts(past, id)
    {
      NoNewsStarts(past, log, id);
    }
  }

  lemma FlowImports(w: World, e: F.Event)
    requires FI.Inv(w.flow) && ImportsOk(w.user, w.back, w.flow, w.imports)
    ensures ImportsOk(w.user, w.back, F.Step(w.flow, e), w.imports)
  {
    hide FI.Inv, F.Step, AwaitsJob, Holds, JobOf, Tells;
    forall id <- w.imports
      ensures w.imports[id].asked <= Asks(F.Step(w.flow, e), w.imports[id].run)
    {
      StepGoes(w.flow, e, w.imports[id].run, id);
    }
  }

  lemma BackInv(w: World, b: P.Event)
    requires Inv(w)
    ensures Inv(w.(back := P.Step(w.back, b)))
    ensures PH.Later(w.back, P.Step(w.back, b))
  {
    hide FI.Inv, FS.StoryOk, PI.Inv, LogBacked, P.Step, StartedOnce, Asks;
    PI.StepInv(w.back, b);
    PH.StepLater(w.back, b);
    LogBackedLater(w.back, P.Step(w.back, b), w.imports, w.flow.log);
  }

  /** What a poller with an answer carries is a record of its job. */
  lemma AnswerBacked(s: P.Sys, p: nat)
    requires PI.Inv(s) && p in s.pollers && s.pollers[p].Answering? && s.pollers[p].found.Some?
    ensures Backed(s, s.pollers[p].id, ViewOf(s.pollers[p].found.value))
  {
    assert PI.PollerOk(s, s.pollers[p]);
    hide PI.Inv, PI.FinalRecord;
  }

  lemma JobReplyLog(f: F.Flow, r: nat, view: JobView, id: string)
    requires AwaitsJob(f, r, id)
    ensures F.Step(f, F.FetchSettles(r, JobReply(view))).log == Snoc(f.log, Replied(r, PollJobRequest(id), JobReply(view)))
  {
  }

  lemma DeliverInv(w: World, p: nat)
    requires Inv(w) && CanDeliver(w, p) && w.back.pollers[p].id == w.tickets[p].job
    ensures Inv(Answered(w, p))
  {
    hide FI.Inv, FS.StoryOk, PI.Inv, LogBacked, F.Step, P.Step, ImportsOk, StartedOnce;
    var ticket := w.tickets[p];
    match w.back.pollers[p].found
    case None =>
      FrontInv(w, F.FetchSettles(ticket.run, FetchFailed("not found", false)));
      BackInv(w.(flow := F.Step(w.flow, F.FetchSettles(ticket.run, FetchFailed("not found", false)))), P.Answer(p));
    case Some(row) =>
      var e := F.FetchSettles(ticket.run, JobReply(ViewOf(row)));
      FI.StepInv(w.flow, e);
      FS.StepStory(w.flow, e);
      AnswerBacked(w.back, p);
      JobReplyLog(w.flow, ticket.run, ViewOf(row), ticket.job);
      OneMoreBacked(w.back, w.imports, w.flow.log, ticket.run, ticket.job, ViewOf(row));
      FlowImports(w, e);
      BackInv(w.(flow := F.Step(w.flow, e)), P.Answer(p));
  }

  lemma OneMoreBacked(back: P.Sys, imports: map<string, Import>, log: History, r: nat, id: string, view: JobView)
    requires LogBacked(back, imports, log) && Backed(back, id, view)
    ensures LogBacked(back, imports, Snoc(log, Replied(r, PollJobRequest(id), JobReply(view))))
    ensures StartedOnce(imports, log) ==> StartedOnce(imports, Snoc(log, Replied(r, PollJobRequest(id), JobReply(view))))
  {
    hide Backed;
  }

  /** An import request is served. */
  lemma CreateInv(w: World, r: nat, id: string, metadata: Option<map<string, string>>, now: nat)
    requires Inv(w) && CanCreate(w, r, id)
    ensures Inv(Step(w, Create(r, id, metadata, now)))
  {
    hide FI.Inv, FS.StoryOk, PI.Inv, LogBacked, P.Step;
    var b := Creation(w, r, id, metadata, now);
    var v := Step(w, Create(r, id, metadata, now));
    BackInv(w, b);
    CreatesFor(w, r, id, metadata, now);
    assert id !in w.imports;
    LogBackedImports(v.back, w.imports, v.imports, w.flow.log);
  }

  lemma CreatesFor(w: World, r: nat, id: string, metadata: Option<map<string, string>>, now: nat)
    requires CanCreate(w, r, id)
    ensures CreatedFor(P.Step(w.back, Creation(w, r, id, metadata, now)), w.user, w.flow.runs[r].sessionId, id)
  {
  }

  /** The run is told which job its import has created. */
  lemma AcceptInv(w: World, id: string)
    requires Inv(w) && CanAccept(w, id)
    ensures Inv(Step(w, Accept(id)))
  {
    hide FI.Inv, FS.StoryOk, PI.Inv, F.Step, Backed, LogBacked;
    var r := w.imports[id].run;
    var e := F.FetchSettles(r, StartedReply(id));
    var v := Step(w, Accept(id));
    FI.StepInv(w.flow, e);
    FS.StepStory(w.flow, e);
    StartedReplyLog(w.flow, r, id);
    FlowImports(w, e);
    LogBackedImports(w.back, w.imports, v.imports, w.flow.log);
    OneMoreStarted(w.back, v.imports, w.flow.log, r, w.imports[id].session, id);
  }

  lemma OneMoreStarted(back: P.Sys, imports: map<string, Import>, log: History, r: nat, sessionId: string, id: string)
    requires LogBacked(back, imports, log) && IsImportOf(imports, r, sessionId, id)
    ensures LogBacked(back, imports, Snoc(log, Replied(r, ImportRequest(sessionId), StartedReply(id))))
  {
    hide Backed;
  }

  lemma StartedReplyLog(f: F.Flow, r: nat, id: string)
    requires r in f.runs && f.runs[r].AwaitImport?
    ensures F.Step(f, F.FetchSettles(r, StartedReply(id))).log
            == Snoc(f.log, Replied(r, ImportRequest(f.runs[r].sessionId), StartedReply(id)))
  {
  }

  // ----- requests in flight, and what a run has seen -----

  /** A served request has a poller for its job, which carries nothing newer than the job's record. */
  ghost predicate TicketOk(w: World, p: nat, ticket: Ticket) {
    && ticket.run <= w.flow.runId && ticket.asked <= Asks(w.flow, ticket.run)
    && p in w.back.pollers && w.back.pollers[p].id == ticket.job && w.back.pollers[p].user == w.user
    && var row := Carried(w.back.pollers[p]);
      (row.Some? ==> ticket.job in w.back.origins && RowLater(row.value, PH.LastRecord(w.back, ticket.job)))
  }

  /** The answer poller `p` carries, if it carries one, is a later record than `row`. */
  ghost predicate CarriesLater(back: P.Sys, p: nat, row: T.Row) {
    p in back.pollers ==>
      match Carried(back.pollers[p])
      case None => true
      case Some(next) => RowLater(row, next)
  }

  /** What a run has seen of its job is behind the job's record, and behind every answer still under way to it. */
  ghost predicate SeenOk(w: World, r: nat, seen: Seen) {
    && r <= w.flow.runId
    && (r in w.flow.runs ==> JobOf(w.flow.runs[r]) == Some(seen.job))
    && seen.job in w.back.origins && RowLater(seen.row, PH.LastRecord(w.back, seen.job))
    && (AwaitsJob(w.flow, r, seen.job) ==>
          forall p <- w.tickets | w.tickets[p].run == r && w.tickets[p].asked == Asks(w.flow, r) ::
            CarriesLater(w.back, p, seen.row))
  }

  ghost predicate Ordered(w: World) {
    && (forall p <- w.tickets :: TicketOk(w, p, w.tickets[p]))
    && (forall r <- w.seen :: SeenOk(w, r, w.seen[r]))
  }

  lemma InitOrdered(user: string, config: Config)
    ensures Ordered(Init(user, config))
  {
  }

  lemma {:induction false} NoNewsCounts(past: History, log: History, q: FH.Query)
    requires NoNews(past, log)
    ensures FH.Count(log, q) >= FH.Count(past, q)
    decreases log
  {
    if log != past {
      NoNewsCounts(past, log.past, q);
    }
  }

  // ----- what a step of the flow does to one run -----

  /**
    A run keeps its job; it comes to wait for an answer only by asking again; and it comes to hold a result only by being
    told one.
   */
  ghost predicate Goes(f: F.Flow, g: F.Flow, r: nat, id: string, told: bool) {
    && f.runId <= g.runId && Asks(g, r) >= Asks(f, r)
    && (r in g.runs && r <= f.runId ==> r in f.runs)
    && (r in g.runs && r in f.runs && JobOf(f.runs[r]) == Some(id) ==> JobOf(g.runs[r]) == Some(id))
    && (AwaitsJob(g, r, id) ==> AwaitsJob(f, r, id) || Asks(g, r) > Asks(f, r))
    && (Holds(g, r, id) ==> told || Holds(f, r, id))
  }

  /** The run has a `complete` answer about job `id` in hand, and will not be stopped on its way to `done`. */
  predicate Holds(f: F.Flow, r: nat, id: string) {
    r in f.runs &&
    match f.runs[r]
    case GotJob(job, view) => r == f.runId && job == id && view.status.JobComplete?
    case JobDone(job, _) => job == id
    case _ => false
  }

  /** The current run `r`, which awaits it, is told that job `id` is complete. */
  predicate Tells(f: F.Flow, e: F.Event, r: nat, id: string) {
    && e.FetchSettles? && e.run == r == f.runId && e.reply.JobReply? && e.reply.job.status.JobComplete?
    && AwaitsJob(f, r, id)
  }

  /** A run that does not move goes nowhere. */
  lemma StandsStill(f: F.Flow, g: F.Flow, r: nat, id: string)
    requires NoNews(f.log, g.log) && f.runId == g.runId
    requires r in f.runs <==> r in g.runs
    requires r in f.runs ==> g.runs[r] == f.runs[r]
    ensures Goes(f, g, r, id, false)
  {
    NoNewsCounts(f.log, g.log, FH.RequestsOf(r));
    hide JobOf;
  }

  lemma ResumeGoes(f: F.Flow, r: nat, windowClosed: bool, id: string)
    requires r in f.runs
    ensures Goes(f, F.Resume(f, r, windowClosed), r, id, false)
  {
    var g := F.Resume(f, r, windowClosed);
    FrontNoNews(f, F.Continue(r, windowClosed));
    NoNewsCounts(f.log, g.log, FH.RequestsOf(r));
    FI.ResumeLocal(f, r, windowClosed);
    ResumeMoves(f, r, windowClosed, id);
    if AwaitsJob(g, r, id) {
      ResumeAsks(f, r, windowClosed, id);
    }
    hide F.Resume, JobOf, Holds;
  }

  lemma ResumeMoves(f: F.Flow, r: nat, windowClosed: bool, id: string)
    requires r in f.runs
    ensures var g := F.Resume(f, r, windowClosed);
            r in g.runs ==>
              && (JobOf(f.runs[r]) == Some(id) ==> JobOf(g.runs[r]) == Some(id))
              && (Holds(g, r, id) ==> Holds(f, r, id))
  {
    match f.runs[r]
    case GotStatus(_, _) =>
    case GotJob(_, _) =>
    case PollFailed(_, _, _) =>
    case _ => hide F.ResumeStatus, F.ResumeJob, F.ResumePollFailed, F.RequestAt;
  }

  lemma ResumeAsks(f: F.Flow, r: nat, windowClosed: bool, id: string)
    requires r in f.runs && AwaitsJob(F.Resume(f, r, windowClosed), r, id)
    ensures AwaitsJob(f, r, id) || Asks(F.Resume(f, r, windowClosed), r) > Asks(f, r)
  {
    match f.runs[r]
    case GotStatus(_, _) =>
    case GotJob(_, _) =>
    case PollFailed(_, _, _) =>
    case _ => hide F.ResumeStatus, F.ResumeJob, F.ResumePollFailed;
  }

  lemma CallGoes(f: F.Flow, e: F.Event, r: nat, id: string)
    requires FI.RunsOk(f) && FA.IsCall(e)
    ensures Goes(f, F.Step(f, e), r, id, false)
  {
    hide F.Step, NoNews;
    FrontNoNews(f, e);
    FH.CallMoves(f, e);
    var g := F.Step(f, e);
    NoNewsCounts(f.log, g.log, FH.RequestsOf(r));
    assert r in g.runs.Keys - {g.runId} <==> r in f.runs.Keys - {g.runId};
  }

  /** The promise of an await settles: of a delay, an OAuth wait, or a request that is not a job poll. */
  lemma SettleGoes(f: F.Flow, e: F.Event, r: nat, id: string)
    requires FI.Inv(f) && FA.Settles(e)
    ensures Goes(f, F.Step(f, e), r, id, Tells(f, e, r, id))
  {
    FA.SettledKeys(f, e);
    SettleCounts(f, e, r);
    if r in f.runs {
      SettleMoves(f, e, r, id);
    }
    hide F.Step, FI.Inv, JobOf, Holds, Tells;
  }

  lemma SettleCounts(f: F.Flow, e: F.Event, r: nat)
    requires FA.Settles(e)
    ensures Asks(F.Step(f, e), r) == Asks(f, r)
  {
    hide F.AfterReply, F.AfterDelays, F.MessageAccepted, F.RequestAt;
  }

  lemma SettleMoves(f: F.Flow, e: F.Event, r: nat, id: string)
    requires FI.Inv(f) && FA.Settles(e) && r in f.runs && r in F.Step(f, e).runs
    ensures var g := F.Step(f, e);
            && (JobOf(f.runs[r]) == Some(id) ==> JobOf(g.runs[r]) == Some(id))
            && (g.runs[r].AwaitPoll? ==> g.runs[r] == f.runs[r])
            && (Holds(g, r, id) ==> Holds(f, r, id) || Tells(f, e, r, id))
  {
    hide FI.RunsOk, FI.DelaysOk, F.MessageAccepted, F.RefusalOf;
  }

  lemma StepGoes(f: F.Flow, e: F.Event, r: nat, id: string)
    requires FI.Inv(f)
    ensures Goes(f, F.Step(f, e), r, id, Tells(f, e, r, id))
  {
    FI.InvParts(f);
    hide FI.Inv, Goes, F.Resume, F.Connect, F.Start, F.Cancel, F.SettleFetch, F.FireTimer, F.Message;
    match e
    case Continue(q, windowClosed) =>
      if q == r && r in f.runs {
        ResumeGoes(f, r, windowClosed, id);
      } else {
        FrontNoNews(f, e);
        FI.ResumeLocal(f, q, windowClosed);
        StandsStill(f, F.Step(f, e), r, id);
      }
    case ConnectCall(_) | StartCall(_) | CancelCall => CallGoes(f, e, r, id);
    case StatusSettles(_) | DisconnectSettles(_) =>
      FrontNoNews(f, e);
      StandsStill(f, F.Step(f, e), r, id);
    case _ => SettleGoes(f, e, r, id);
  }

  // ----- order is kept -----

  /** The flow moves, and the back end stands still. */
  lemma FlowOrdered(w: World, e: F.Event)
    requires FI.Inv(w.flow) && Ordered(w)
    ensures Ordered(w.(flow := F.Step(w.flow, e)))
  {
    var v := w.(flow := F.Step(w.flow, e));
    hide FI.Inv, F.Step, RowLater, JobOf;
    forall p <- w.tickets
      ensures TicketOk(v, p, w.tickets[p])
    {
      assert TicketOk(w, p, w.tickets[p]);
      StepGoes(w.flow, e, w.tickets[p].run, "");
    }
    forall r <- w.seen
      ensures SeenOk(v, r, w.seen[r])
    {
      assert SeenOk(w, r, w.seen[r]);
      StepGoes(w.flow, e, r, w.seen[r].job);
      if AwaitsJob(v.flow, r, w.seen[r].job) && Asks(v.flow, r) > Asks(w.flow, r) {
        NoTicketYet(w, r);
      }
    }
  }

  /** A request that was just made has not been served. */
  lemma NoTicketYet(w: World, r: nat)
    requires Ordered(w)
    ensures forall p <- w.tickets | w.tickets[p].run == r :: w.tickets[p].asked <= Asks(w.flow, r)
  {
    hide RowLater, JobOf;
    forall p <- w.tickets | w.tickets[p].run == r
      ensures w.tickets[p].asked <= Asks(w.flow, r)
    {
      assert TicketOk(w, p, w.tickets[p]);
    }
  }

  /** The back end moves; pollers in use keep what they carry. */
  lemma BackOrdered(w: World, b: P.Event)
    requires PI.Inv(w.back) && Ordered(w) && !OwnPoller(w, b)
    ensures Ordered(w.(back := P.Step(w.back, b)))
  {
    hide PI.Inv, P.Step, RowLater, JobOf, PH.Later, PH.LastRecord, Carried;
    var v := w.(back := P.Step(w.back, b));
    PI.StepInv(w.back, b);
    PH.StepLater(w.back, b);
    PollersCarry(w.back, b);
    forall p <- w.tickets
      ensures TicketOk(v, p, w.tickets[p])
    {
      assert TicketOk(w, p, w.tickets[p]);
      TicketKept(w, v, p);
    }
    hide TicketOk;
    forall r <- w.seen
      ensures SeenOk(v, r, w.seen[r])
    {
      assert SeenOk(w, r, w.seen[r]);
      SeenKept(w, v, r);
    }
  }

  /** What was seen stays behind the job's record and the answers under way. */
  lemma SeenKept(w: World, v: World, r: nat)
    requires PI.Inv(w.back) && PI.Inv(v.back) && PH.Later(w.back, v.back)
    requires v == w.(back := v.back)
    requires r in w.seen && SeenOk(w, r, w.seen[r])
    requires forall p <- w.tickets :: p in w.back.pollers && p in v.back.pollers
                                      && Carried(v.back.pollers[p]) == Carried(w.back.pollers[p])
    ensures SeenOk(v, r, w.seen[r])
  {
    hide PI.Inv, P.Step, RowLater, JobOf, PH.Later, PH.LastRecord, Carried;
    var id := w.seen[r].job;
    PH.RecordLater(w.back, v.back, id);
    RowLaterOn(w.seen[r].row, PH.LastRecord(w.back, id), PH.LastRecord(v.back, id));
  }

  /** From `s` to `t` the pollers of `s` keep what they carry, except those that may be gone. */
  ghost predicate Carry(s: P.Sys, t: P.Sys, except: set<nat>) {
    forall p <- s.pollers | p !in except ::
      p in t.pollers && t.pollers[p].id == s.pollers[p].id && t.pollers[p].user == s.pollers[p].user
      && Carried(t.pollers[p]) == Carried(s.pollers[p])
  }

  lemma PollersCarry(s: P.Sys, b: P.Event)
    ensures Carry(s, P.Step(s, b), if b.Answer? then {b.poller} else {})
  {
    if b.Answer? || b.Select? || b.Delete? || b.CreateJob? || b.LockOldest? || b.CommitClaim? {
      hide P.WorkerStep, P.Lock, P.Commit, P.Create;
      CarryOthers(s, b);
    } else {
      WorkersKeepPollers(s, b.worker, b);
    }
  }

  lemma CarryOthers(s: P.Sys, b: P.Event)
    requires b.Answer? || b.Select? || b.Delete? || b.CreateJob? || b.LockOldest? || b.CommitClaim?
    ensures Carry(s, P.Step(s, b), if b.Answer? then {b.poller} else {})
  {
  }

  lemma WorkersKeepPollers(s: P.Sys, v: nat, b: P.Event)
    ensures P.WorkerStep(s, v, b).pollers == s.pollers
  {
    hide Items, T.SetTotal, T.MarkFailed, T.MarkComplete, T.RecordItemSuccess, T.RecordItemFailure;
  }

  lemma TicketKept(w: World, v: World, p: nat)
    requires PI.Inv(w.back) && PI.Inv(v.back) && PH.Later(w.back, v.back)
    requires v.user == w.user && v.flow == w.flow
    requires p in w.tickets && TicketOk(w, p, w.tickets[p])
    requires p in v.back.pollers && v.back.pollers[p].id == w.back.pollers[p].id
    requires v.back.pollers[p].user == w.back.pollers[p].user
    requires Carried(v.back.pollers[p]) == Carried(w.back.pollers[p])
    ensures TicketOk(v, p, w.tickets[p])
  {
    hide PI.Inv, PH.Later, RowLater;
    var id := w.tickets[p].job;
    var row := Carried(w.back.pollers[p]);
    if row.Some? {
      PH.RecordLater(w.back, v.back, id);
      RowLaterOn(row.value, PH.LastRecord(w.back, id), PH.LastRecord(v.back, id));
    }
  }

  lemma RowLaterRefl(a: T.Row)
    ensures RowLater(a, a)
  {
  }

  /** A freshly served request carries the job's record as it is now. */
  lemma ServeOrdered(w: World, p: nat, r: nat)
    requires FI.Inv(w.flow) && PI.Inv(w.back) && Ordered(w) && CanServe(w, p, r)
    ensures Ordered(Step(w, Serve(p, r)))
  {
    hide FI.Inv, PI.Inv, P.Step, RowLater, JobOf, Carried, PH.LastRecord;
    FI.RunFacts(w.flow, r);
    var v := Step(w, Serve(p, r));
    var id := w.flow.runs[r].loop.jobId;
    var u := w.(back := P.Step(w.back, P.Select(p, w.user, id)));
    BackOrdered(w, P.Select(p, w.user, id));
    SelectCarries(w.back, p, w.user, id);
    var found := Carried(v.back.pollers[p]);
    if found.Some? {
      RowLaterRefl(found.value);
    }
    forall q <- v.tickets
      ensures TicketOk(v, q, v.tickets[q])
    {
      if q != p {
        assert TicketOk(u, q, w.tickets[q]);
      }
    }
    hide TicketOk;
    forall q <- w.seen
      ensures SeenOk(v, q, w.seen[q])
    {
      assert SeenOk(u, q, w.seen[q]);
    }
  }

  lemma SelectCarries(s: P.Sys, p: nat, user: string, id: string)
    requires PI.Inv(s) && p !in s.pollers
    ensures var t := P.Step(s, P.Select(p, user, id));
            && p in t.pollers && t.pollers[p].id == id && t.pollers[p].user == user
            && t.origins == s.origins && t.ledgers == s.ledgers && t.table == s.table
            && (Carried(t.pollers[p]).Some? ==> id in s.origins && Carried(t.pollers[p]).value == PH.LastRecord(s, id) == PH.LastRecord(t, id))
            && (id !in s.table ==> Carried(t.pollers[p]) == None)
  {
    hide PI.WorkersOk, PI.ClaimsOk, PI.PollersOk, LedgerOk, RowOf;
  }

  /** What reaches a run is a later record of its job than what reached it before. */
  lemma DeliveredIsLater(w: World, p: nat)
    requires Ordered(w) && CanDeliver(w, p) && w.back.pollers[p].found.Some?
    requires w.tickets[p].run in w.seen
    ensures var seen := w.seen[w.tickets[p].run];
            seen.job == w.tickets[p].job && RowLater(seen.row, w.back.pollers[p].found.value)
  {
    var r := w.tickets[p].run;
    assert SeenOk(w, r, w.seen[r]);
    assert CarriesLater(w.back, p, w.seen[r].row);
    hide RowLater;
  }

  lemma DeliverOrdered(w: World, p: nat)
    requires Inv(w) && Ordered(w) && CanDeliver(w, p)
    ensures Ordered(Answered(w, p))
  {
    hide FI.Inv, PI.Inv, FS.StoryOk, LogBacked, F.Step, P.Step, Ordered, RowLater;
    var ticket := w.tickets[p];
    var u := w.(tickets := w.tickets - {p});
    TicketOff(w, p);
    match w.back.pollers[p].found
    case None =>
      var e := F.FetchSettles(ticket.run, FetchFailed("not found", false));
      FlowOrdered(u, e);
      BackOrdered(u.(flow := F.Step(w.flow, e)), P.Answer(p));
    case Some(row) =>
      var e := F.FetchSettles(ticket.run, JobReply(ViewOf(row)));
      FlowOrdered(u, e);
      var v := u.(flow := F.Step(w.flow, e));
      SeeMore(w, v, p, row);
      BackOrdered(v.(seen := w.seen[ticket.run := Seen(ticket.job, row)]), P.Answer(p));
  }

  lemma TicketOff(w: World, p: nat)
    requires Ordered(w) && p in w.tickets
    ensures Ordered(w.(tickets := w.tickets - {p})) && TicketOk(w, p, w.tickets[p])
  {
    hide RowLater, JobOf;
    var u := w.(tickets := w.tickets - {p});
    forall q <- u.tickets
      ensures TicketOk(u, q, u.tickets[q])
    {
      assert TicketOk(w, q, w.tickets[q]);
    }
    forall r <- u.seen
      ensures SeenOk(u, r, u.seen[r])
    {
      assert SeenOk(w, r, w.seen[r]);
    }
  }

  lemma SeeMore(w: World, v: World, p: nat, row: T.Row)
    requires FI.Inv(w.flow) && CanDeliver(w, p) && w.back.pollers[p].found == Some(row)
    requires TicketOk(w, p, w.tickets[p]) && Ordered(v)
    requires v == w.(tickets := w.tickets - {p}, flow := F.Step(w.flow, F.FetchSettles(w.tickets[p].run, JobReply(ViewOf(row)))))
    ensures Ordered(v.(seen := v.seen[w.tickets[p].run := Seen(w.tickets[p].job, row)]))
  {
    var r := w.tickets[p].run;
    var u := v.(seen := v.seen[r := Seen(w.tickets[p].job, row)]);
    assert v.flow.runs[r] == GotJob(w.tickets[p].job, ViewOf(row)) && v.flow.runId == w.flow.runId && r <= w.flow.runId;
    hide RowLater, F.Step, FI.Inv, ViewOf;
    forall q <- u.tickets
      ensures TicketOk(u, q, u.tickets[q])
    {
      assert TicketOk(v, q, v.tickets[q]);
    }
    forall q <- u.seen
      ensures SeenOk(u, q, u.seen[q])
    {
      if q != r {
        assert SeenOk(v, q, v.seen[q]);
      }
    }
  }

  lemma StepInv(w: World, e: Event)
    requires Inv(w) && Ordered(w)
    ensures Inv(Step(w, e)) && Ordered(Step(w, e))
  {
    hide Ordered, FS.StoryOk, LogBacked, FI.Inv, PI.Inv, F.Step, P.Step, Answered, ImportsOk, StartedOnce, Asks;
    match e
    case Front(e) =>
      if !FromPipeline(e) {
        FrontInv(w, e);
        FlowOrdered(w, e);
      }
    case Back(b) =>
      if !OwnPoller(w, b) {
        BackInv(w, b);
        BackOrdered(w, b);
      }
    case Create(r, id, metadata, now) =>
      if CanCreate(w, r, id) {
        CreateInv(w, r, id, metadata, now);
        BackOrdered(w, Creation(w, r, id, metadata, now));
        OrderedWithImports(w.(back := P.Step(w.back, Creation(w, r, id, metadata, now))), Step(w, e).imports);
      }
    case Accept(id) =>
      if CanAccept(w, id) {
        var settles := F.FetchSettles(w.imports[id].run, StartedReply(id));
        AcceptInv(w, id);
        FlowOrdered(w, settles);
        OrderedWithImports(w.(flow := F.Step(w.flow, settles)), Step(w, e).imports);
      }
    case Serve(p, r) =>
      if CanServe(w, p, r) {
        BackInv(w, P.Select(p, w.user, w.flow.runs[r].loop.jobId));
        ServeOrdered(w, p, r);
      }
    case Deliver(p) =>
      if CanDeliver(w, p) {
        TicketOff(w, p);
        DeliverInv(w, p);
        DeliverOrdered(w, p);
      }
  }

  /** The order of what is seen does not depend on imports. */
  lemma OrderedWithImports(w: World, imports: map<string, Import>)
    requires Ordered(w)
    ensures Ordered(w.(imports := imports))
  {
    hide RowLater, JobOf, PH.LastRecord, Carried, Asks;
    var v := w.(imports := imports);
    forall p <- v.tickets
      ensures TicketOk(v, p, v.tickets[p])
    {
      assert TicketOk(w, p, w.tickets[p]);
    }
    hide TicketOk;
    forall r <- v.seen
      ensures SeenOk(v, r, v.seen[r])
    {
      assert SeenOk(w, r, w.seen[r]);
    }
  }

  lemma {:induction false} RunInv(w: World, events: seq<Event>)
    requires Inv(w) && Ordered(w)
    ensures Inv(Run(w, events)) && Ordered(Run(w, events))
    decreases |events|
  {
    if events != [] {
      StepInv(w, events[0]);
      hide Inv, Ordered, Step;
      RunInv(Step(w, events[0]), events[1..]);
    }
  }

  lemma {:induction false} SameUser(w: World, events: seq<Event>)
    ensures Run(w, events).user == w.user
    decreases |events|
  {
    if events != [] {
      SameUser(Step(w, events[0]), events[1..]);
    }
  }

  lemma Reachable(user: string, config: Config, events: seq<Event>)
    ensures var w := Run(Init(user, config), events); Inv(w) && Ordered(w) && w.user == user
  {
    hide Run, Inv, Ordered;
    InitInv(user, config);
    InitOrdered(user, config);
    RunInv(Init(user, config), events);
    SameUser(Init(user, config), events);
  }

  /** Over all events: a run is told only of jobs its own import has created, for this user, and of each at most once. */
  lemma EachImportHasItsOwnJob(user: string, config: Config, events: seq<Event>, r: nat, sessionId: string, id: string)
    ensures var w := Run(Init(user, config), events);
            && Starts(w.flow.log, id) <= 1
            && (Contains(w.flow.log, Replied(r, ImportRequest(sessionId), StartedReply(id))) ==>
                  IsImportOf(w.imports, r, sessionId, id) && CreatedFor(w.back, user, sessionId, id))
  {
    hide Run, Init, Ordered, FI.Inv, FS.StoryOk, PI.Inv, Backed, Starts, Asks;
    var w := Run(Init(user, config), events);
    Reachable(user, config, events);
    var told := Replied(r, ImportRequest(sessionId), StartedReply(id));
    if Contains(w.flow.log, told) {
      hide LogBacked;
      LogBackedContains(w.back, w.imports, w.flow.log, told);
    }
  }

  // ----- no failing store calls -----

  predicate Faultless(e: Event) {
    e.Back? ==> PH.Faultless(e.b)
  }

  /** The counts of a record: within the total, and equal to it in the end. */
  predicate Fits(row: T.Row) {
    && row.completed == |row.savedIds| && row.completed + row.failed <= row.total
    && (row.status.Complete? ==> row.completed + row.failed == row.total)
  }

  /** Every row a poller carries fits. */
  ghost predicate CarriedFits(s: P.Sys) {
    forall p <- s.pollers :: Carried(s.pollers[p]).Some? ==> Fits(Carried(s.pollers[p]).value)
  }

  ghost predicate Sound(w: World) {
    PH.Lossless(w.back) && CarriedFits(w.back)
  }

  lemma RecordFits(s: P.Sys, id: string)
    requires PI.Inv(s) && PH.Lossless(s) && id in s.origins
    ensures Fits(PH.LastRecord(s, id))
  {
    if id in s.ledgers {
      hide PI.Inv, PH.Lossless;
      PH.LosslessRecord(s, id);
    } else {
      assert PI.BlankRow(s.origins[id]);
      hide PI.WorkersOk, PI.PollersOk, PI.ClaimsOk, RowOf, LedgerOk;
    }
  }

  lemma NoOtherPollers(s: P.Sys, b: P.Event)
    ensures P.Step(s, b).pollers.Keys <= s.pollers.Keys + if b.Select? then {b.poller} else {}
  {
    if b.Answer? || b.Select? || b.Delete? || b.CreateJob? || b.LockOldest? || b.CommitClaim? {
      hide P.WorkerStep, P.Lock, P.Commit, P.Create;
    } else {
      WorkersKeepPollers(s, b.worker, b);
      hide P.WorkerStep;
    }
  }

  lemma BackSound(s: P.Sys, b: P.Event)
    requires PI.Inv(s) && PH.Lossless(s) && CarriedFits(s) && PH.Faultless(b)
    ensures PH.Lossless(P.Step(s, b)) && CarriedFits(P.Step(s, b))
  {
    hide PI.Inv, PH.Lossless, P.Step, Fits, Carried, PH.LastRecord;
    var t := P.Step(s, b);
    PH.StepLossless(s, b);
    PollersCarry(s, b);
    NoOtherPollers(s, b);
    forall p <- t.pollers | Carried(t.pollers[p]).Some?
      ensures Fits(Carried(t.pollers[p]).value)
    {
      if p !in s.pollers {
        SelectCarries(s, p, b.user, b.id);
        RecordFits(s, b.id);
      } else if b.Answer? && p == b.poller {
        AnswerRemoves(s, p);
      }
    }
  }

  /** An answer that is given is gone; one that is not given is still there. */
  lemma AnswerRemoves(s: P.Sys, p: nat)
    ensures var t := P.Step(s, P.Answer(p)); p in t.pollers ==> t == s
  {
  }

  lemma StepSound(w: World, e: Event)
    requires Inv(w) && Sound(w) && Faultless(e)
    ensures Sound(Step(w, e))
  {
    hide FI.Inv, FS.StoryOk, LogBacked, PI.Inv, F.Step, P.Step, PH.Lossless, CarriedFits;
    match e
    case Front(_) =>
    case Back(b) => BackSound(w.back, b);
    case Create(r, id, metadata, now) =>
      if CanCreate(w, r, id) {
        BackSound(w.back, Creation(w, r, id, metadata, now));
      }
    case Accept(_) =>
    case Serve(p, r) =>
      if CanServe(w, p, r) {
        BackSound(w.back, P.Select(p, w.user, w.flow.runs[r].loop.jobId));
      }
    case Deliver(p) => BackSound(w.back, P.Answer(p));
  }

  lemma {:induction false} RunSound(w: World, events: seq<Event>)
    requires Inv(w) && Ordered(w) && Sound(w) && forall e <- events :: Faultless(e)
    ensures Sound(Run(w, events))
    decreases |events|
  {
    hide Inv, Ordered, Sound, Step, Faultless;
    if events != [] {
      StepInv(w, events[0]);
      StepSound(w, events[0]);
      RunSound(Step(w, events[0]), events[1..]);
    }
  }

  lemma InitSound(user: string, config: Config)
    ensures Sound(Init(user, config))
  {
  }

  // ----- what polls see -----

  /**
    In every run of the world: what reaches a run about its job is a later record than what reached it before. The status
    does not go back, counts and saved ids grow, the total is set at most once from 0, and after a terminal record nothing
    changes.
   */
  lemma SuccessivePolls(user: string, config: Config, events: seq<Event>, p: nat)
    requires var w := Run(Init(user, config), events);
             CanDeliver(w, p) && w.back.pollers[p].found.Some? && w.tickets[p].run in w.seen
    ensures var w := Run(Init(user, config), events);
            var seen := w.seen[w.tickets[p].run]; var before := seen.row; var now := w.back.pollers[p].found.value;
            && seen.job == w.tickets[p].job
            && StatusRank(before.status) <= StatusRank(now.status)
            && before.completed <= now.completed && before.failed <= now.failed
            && (before.total == 0 || before.total == now.total)
            && before.savedIds <= now.savedIds
            && (before.status.Terminal() ==> now == before)
  {
    hide Run, Init, Inv, Ordered, CanDeliver;
    Reachable(user, config, events);
    DeliveredIsLater(Run(Init(user, config), events), p);
  }

  /**
    With no failing store call: every record that reaches a run has completed + failed <= total, with equality once it is
    complete, and as many saved ids as completed items.
   */
  lemma PollsWithinTotal(user: string, config: Config, events: seq<Event>, p: nat)
    requires forall e <- events :: Faultless(e)
    requires var w := Run(Init(user, config), events); CanDeliver(w, p) && w.back.pollers[p].found.Some?
    ensures var row := Run(Init(user, config), events).back.pollers[p].found.value;
            && row.completed + row.failed <= row.total && row.completed == |row.savedIds|
            && (row.status.Complete? ==> row.completed + row.failed == row.total)
  {
    hide Run, Init, Inv, Ordered, Faultless, PH.Lossless, Live;
    var w := Run(Init(user, config), events);
    InitInv(user, config);
    InitOrdered(user, config);
    InitSound(user, config);
    RunSound(Init(user, config), events);
    assert Carried(w.back.pollers[p]) == w.back.pollers[p].found;
  }

  // ----- what a resolved start() carries -----

  /**
    `result` is the final record of job `id`, which run `r`'s own import request created for this user and this session, and
    which no other import was ever told.
   */
  ghost predicate FinalResult(w: World, r: nat, sessionId: string, id: string, result: CompleteResult) {
    && CreatedFor(w.back, w.user, sessionId, id)
    && IsImportOf(w.imports, r, sessionId, id) && Starts(w.flow.log, id) == 1
    && id in w.back.ledgers && w.back.ledgers[id].end == Some(Succeeded)
    && result == ResultOf(ViewOf(RowOf(w.back.origins[id], w.back.ledgers[id])))
  }

  /**
    When the `start()` of run `r` resolves, then the run's session was picked, the run's own import of that session started
    a job, and the run's own poll of that job said `complete`, in this order; that job was created by this very import, for
    this user and this session, and no other import was told it; its worker has finished it, and the result is exactly its
    final record: the saved ids are those of the job's history in item order, and the counts add up to the listing but for
    the losses.
   */
  lemma ResultIsFinalRecord(user: string, config: Config, events: seq<Event>, r: nat, result: CompleteResult)
    requires var log := Run(Init(user, config), events).flow.log; log.Snoc? && log.last == Finished(r, StartResolved(result))
    ensures var w := Run(Init(user, config), events);
            && w.user == user
            && exists sessionId, id, view ::
                 && InOrder(FS.Polled(r, sessionId, id, view), w.flow.log)
                 && view.status.JobComplete? && result == ResultOf(view)
                 && FinalResult(w, r, sessionId, id, result)
                 && result.savedIds == SavedIds(w.back.ledgers[id].outcomes)
                 && result.completed == |result.savedIds|
                 && result.completed + result.failed + Losses(w.back.ledgers[id].outcomes) == |Items(w.back.ledgers[id])|
  {
    hide Run, Init, Inv, Ordered;
    var w := Run(Init(user, config), events);
    Reachable(user, config, events);
    var sessionId, id, view := ResolvedRecord(w, r, result);
  }

  lemma ResolvedRecord(w: World, r: nat, result: CompleteResult) returns (sessionId: string, id: string, view: JobView)
    requires Inv(w) && w.flow.log.Snoc? && w.flow.log.last == Finished(r, StartResolved(result))
    ensures InOrder(FS.Polled(r, sessionId, id, view), w.flow.log)
    ensures view.status.JobComplete? && result == ResultOf(view) && FinalResult(w, r, sessionId, id, result)
    ensures var l := w.back.ledgers[id];
            && result.savedIds == SavedIds(l.outcomes) && result.completed == |result.savedIds|
            && result.completed + result.failed + Losses(l.outcomes) == |Items(l)|
  {
    hide FI.Inv, PI.Inv, Backed, InOrder, FS.EndingsTold, SavedIds, Losses, Items, RowOf, Starts, Asks;
    sessionId, id, view := PolledComplete(w.flow.log, r, result);
    var log := w.flow.log;
    InOrderContains(FS.Polled(r, sessionId, id, view), log, 2);
    InOrderContains(FS.Polled(r, sessionId, id, view), log, 3);
    LogBackedContains(w.back, w.imports, log, Replied(r, ImportRequest(sessionId), StartedReply(id)));
    LogBackedContains(w.back, w.imports, log, Replied(r, PollJobRequest(id), JobReply(view)));
    FinalOfBacked(w.back, id, view);
    ContainsStarts(log, r, sessionId, id);
  }

  lemma {:induction false} ContainsStarts(log: History, r: nat, sessionId: string, id: string)
    requires Contains(log, Replied(r, ImportRequest(sessionId), StartedReply(id)))
    ensures Starts(log, id) >= 1
    decreases log
  {
    if log.last != Replied(r, ImportRequest(sessionId), StartedReply(id)) {
      ContainsStarts(log.past, r, sessionId, id);
    }
  }

  lemma PolledComplete(log: History, r: nat, result: CompleteResult)
    returns (sessionId: string, id: string, view: JobView)
    requires FS.EndingsTold(log) && log.Snoc? && log.last == Finished(r, StartResolved(result))
    ensures InOrder(FS.Polled(r, sessionId, id, view), log)
    ensures view.status.JobComplete? && result == ResultOf(view)
  {
    assert FS.Ending(log.past, log.last);
    id :| FS.ResultBacked(log.past.past, r, id, result);
    view :| FS.JobPolled(log.past.past, r, id, view) && view.status.JobComplete? && result == ResultOf(view);
    sessionId :| InOrder(FS.Polled(r, sessionId, id, view), log.past.past);
    hide FS.Polled;
    InOrderPush(FS.Polled(r, sessionId, id, view), log.past.past, log.past.last);
    InOrderPush(FS.Polled(r, sessionId, id, view), log.past, log.last);
  }

  lemma FinalOfBacked(back: P.Sys, id: string, view: JobView)
    requires PI.Inv(back) && Backed(back, id, view) && view.status.JobComplete?
    ensures id in back.origins && id in back.ledgers && back.ledgers[id].end == Some(Succeeded)
    ensures ResultOf(view) == ResultOf(ViewOf(RowOf(back.origins[id], back.ledgers[id])))
    ensures var l := back.ledgers[id]; var result := ResultOf(view);
            && result.savedIds == SavedIds(l.outcomes) && result.completed == |result.savedIds|
            && result.completed + result.failed + Losses(l.outcomes) == |Items(l)|
  {
    var row: T.Row :| view == ViewOf(row) && id in back.origins && (row.status.Terminal() ==> PI.FinalRecord(back, id, row));
    assert LedgerOk(back.ledgers[id]);
    hide PI.Inv;
    CompleteRecordAddsUp(back.origins[id], back.ledgers[id]);
    hide Items;
  }

  /**
    With no failing store call, moreover: the counts of a resolved `start()` add up to its total, which is the length of the
    whole listing, and its saved ids are all the ids the sink returned for the job, in order.
   */
  lemma ResultAddsUp(user: string, config: Config, events: seq<Event>, r: nat, result: CompleteResult)
    requires forall e <- events :: Faultless(e)
    requires var log := Run(Init(user, config), events).flow.log; log.Snoc? && log.last == Finished(r, StartResolved(result))
    ensures var w := Run(Init(user, config), events);
            exists sessionId, id, view ::
              && InOrder(FS.Polled(r, sessionId, id, view), w.flow.log) && FinalResult(w, r, sessionId, id, result)
              && result.completed + result.failed == result.total == |Items(w.back.ledgers[id])|
              && result.savedIds == Kept(w.back.ledgers[id].calls)
  {
    hide Run, Init, Inv, Ordered, Faultless;
    var w := Run(Init(user, config), events);
    Reachable(user, config, events);
    InitInv(user, config);
    InitOrdered(user, config);
    InitSound(user, config);
    RunSound(Init(user, config), events);
    var sessionId, id, view := ResolvedRecord(w, r, result);
    LosslessResult(w, r, sessionId, id, result);
  }

  lemma LosslessResult(w: World, r: nat, sessionId: string, id: string, result: CompleteResult)
    requires Inv(w) && Sound(w) && FinalResult(w, r, sessionId, id, result)
    ensures var l := w.back.ledgers[id];
            && result.completed + result.failed == result.total == |Items(l)| && result.savedIds == Kept(l.calls)
  {
    hide FI.Inv, PI.Inv, FS.StoryOk, LogBacked, PH.Lossless, CarriedFits;
    PH.LosslessRecord(w.back, id);
    hide Items, Kept, SavedIds, Failures, LedgerOk, PH.LosslessLedger, Settled;
  }
}
