/** From the row in the table to what the user sees: one poll answer, all the way. */
module Delivered {
  import opened Wrappers
  import opened Histories
  import opened FlowTypes
  import F = FlowModel
  import L = FlowLaws
  import T = ImportTypes
  import opened EndToEnd

  /** The current run waits for the answer that poller `p` has for it, and that answer is `row`. */
  predicate Brings(w: World, p: nat, row: T.Row) {
    CanDeliver(w, p) && w.tickets[p].run == w.flow.runId && w.back.pollers[p].found == Some(row)
  }

  /** The answer says of the job what the row says, in the words of the endpoint. */
  predicate Says(job: JobView, row: T.Row) {
    && (job.status.JobPending? <==> row.status.Pending?) && (job.status.JobRunning? <==> row.status.Running?)
    && (job.status.JobComplete? <==> row.status.Complete?) && (job.status.JobFailed? <==> row.status.Failed?)
    && job.total == row.total && job.completed == row.completed && job.failed == row.failed
    && job.savedIds == Some(row.savedIds) && job.error == row.error
  }

  /** What a run is told about its job is the row that was read for it, as long as it waits for that very answer. */
  lemma AnswerSaysRow(w: World, p: nat, row: T.Row)
    requires CanDeliver(w, p) && w.back.pollers[p].found == Some(row)
    ensures var log := Step(w, Deliver(p)).flow.log; var ticket := w.tickets[p];
            && log.Snoc? && log.past == w.flow.log
            && log.last.Replied? && log.last.run == ticket.run && log.last.request == PollJobRequest(ticket.job)
            && log.last.reply.JobReply? && Says(log.last.reply.job, row)
  {
  }

  /** The import request of a run creates a job for its user and its session, with the context the caller gave. */
  lemma ImportCreatesJob(w: World, r: nat, id: string, metadata: Option<map<string, string>>, now: nat)
    requires CanCreate(w, r, id)
    ensures var t := Step(w, Create(r, id, metadata, now));
            && id in t.back.table && id in t.back.origins && t.back.table[id] == t.back.origins[id]
            && t.back.origins == w.back.origins[id := t.back.origins[id]] && t.flow == w.flow
            && var row := t.back.origins[id];
              && row.user == w.user && row.session == w.flow.runs[r].sessionId && row.createdAt == now
              && row.metadata == (if metadata.Some? then metadata.value else map[])
  {
  }

  /** The answer arrives, and the run goes on twice. */
  function Arrived(w: World, p: nat): World {
    var r := w.flow.runId;
    Step(Step(Step(w, Deliver(p)), Front(F.Continue(r, false))), Front(F.Continue(r, false)))
  }

  lemma ArrivedFlow(w: World, p: nat, row: T.Row)
    requires Brings(w, p, row)
    ensures var r := w.flow.runId; var f := F.Step(w.flow, F.FetchSettles(r, JobReply(ViewOf(row))));
            && Step(w, Deliver(p)).flow == f
            && Step(Step(w, Deliver(p)), Front(F.Continue(r, false))).flow == F.Step(f, F.Continue(r, false))
            && Arrived(w, p).flow == F.Step(F.Step(f, F.Continue(r, false)), F.Continue(r, false))
    ensures var r := w.flow.runId; r in w.flow.runs && w.flow.runs[r].AwaitPoll? && w.flow.runs[r].loop == JobLoop(w.tickets[p].job)
  {
    hide F.Step, ViewOf;
  }

  /** A complete row becomes the result of the call and of the published state, field by field. */
  lemma CompleteRowIsPublished(w: World, p: nat, row: T.Row)
    requires Brings(w, p, row) && row.status.Complete?
    ensures var r := w.flow.runId; var f := Arrived(w, p).flow;
            var result := CompleteResult(row.savedIds, row.total, row.completed, row.failed);
            && f.state == w.flow.state.(phase := Done, progress := Some(Progress(row.total, row.completed, row.failed)),
                          result := Some(result))
            && r !in f.runs && f.log.Snoc? && f.log.last == Finished(r, StartResolved(result))
  {
    var r := w.flow.runId;
    ArrivedFlow(w, p, row);
    hide F.Step, Step, Brings, Arrived;
    L.CompleteJobIsPublished(w.flow, r, w.flow.runs[r].loop.jobId, w.flow.runs[r].failures, ViewOf(row));
  }

  /** A failed row becomes the error of the call and of the published state: its message, or a default where it has none. */
  lemma FailedRowIsPublished(w: World, p: nat, row: T.Row)
    requires Brings(w, p, row) && row.status.Failed?
    ensures var f := Arrived(w, p).flow;
            && L.EndedBadly(f, w.flow.runId, if row.error.GetOr("") == "" then "Import failed." else row.error.value, false)
            && f.state.progress == Some(Progress(row.total, row.completed, row.failed))
  {
    var r := w.flow.runId;
    ArrivedFlow(w, p, row);
    hide F.Step, Step, Brings, Arrived, L.EndedBadly;
    L.FailedJobIsPublished(w.flow, r, w.flow.runs[r].loop.jobId, w.flow.runs[r].failures, ViewOf(row));
  }

  /** Any other row becomes the published progress, and the run waits. */
  lemma UnfinishedRowIsPublished(w: World, p: nat, row: T.Row)
    requires Brings(w, p, row) && !row.status.Terminal()
    ensures var r := w.flow.runId; var f := Step(Step(w, Deliver(p)), Front(F.Continue(r, false))).flow;
            && f.state == w.flow.state.(progress := Some(Progress(row.total, row.completed, row.failed)))
            && r in f.runs && f.runs[r] == AwaitInterval(JobLoop(w.tickets[p].job), w.flow.nextTimer)
  {
    var r := w.flow.runId;
    ArrivedFlow(w, p, row);
    hide F.Step, Step, Brings, Arrived;
    L.JobArrives(w.flow, r, w.flow.runs[r].loop.jobId, w.flow.runs[r].failures, ViewOf(row));
  }

  /** A job that is not there counts as a failed poll. */
  lemma MissingRowCountsAsFailure(w: World, p: nat)
    requires CanDeliver(w, p) && w.back.pollers[p].found == None
    ensures var r := w.tickets[p].run; var f := Step(w, Deliver(p)).flow;
            && r in f.runs && f.state == w.flow.state
            && f.runs[r] == PollFailed(JobLoop(w.tickets[p].job), w.flow.runs[r].failures, Failure("not found", false))
  {
  }
}
