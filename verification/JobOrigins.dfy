/** What a job takes along from the request that created it, and in which order jobs are taken. */
module JobOrigins {
  import opened Wrappers
  import opened Ledgers
  import opened Pipeline
  import opened PipelineInvariants
  import opened PipelineHistory
  import T = ImportTypes

  /** The event that created the job: the first insert under its id that succeeded. */
  function Creation(events: seq<Event>, id: string): (creation: Option<Event>)
    ensures creation.Some? ==> creation.value.CreateJob? && creation.value.id == id
    decreases |events|
  {
    if events == [] then None
    else if events[0].CreateJob? && events[0].id == id && events[0].ok then Some(events[0])
    else Creation(events[1..], id)
  }

  /** The caller's context; an absent one is stored as an empty object. */
  function ContextOf(e: Event): map<string, string>
    requires e.CreateJob?
  {
    match e.metadata
    case Some(metadata) => metadata
    case None => map[]
  }

  /** The row was written by `e`. */
  predicate WrittenBy(row: T.Row, e: Event) {
    && e.CreateJob?
    && row.user == e.user && row.session == e.session && row.metadata == ContextOf(e) && row.createdAt == e.now
  }

  /** One step creates the job, or it is known before exactly if it is known after, with the same row. */
  lemma StepOrigin(s: Sys, e: Event, id: string)
    requires Inv(s)
    ensures var t := Step(s, e);
            if e.CreateJob? && e.id == id && e.ok && id !in s.origins then id in t.origins && WrittenBy(t.origins[id], e)
            else (id in t.origins <==> id in s.origins) && (id in s.origins ==> t.origins[id] == s.origins[id])
  {
    hide Inv, Commit, Lock, WorkerStep;
    if !e.CreateJob? {
      StepLater(s, e);
      hide Step;
    }
  }

  lemma {:induction false} OriginFrom(s: Sys, events: seq<Event>, id: string)
    requires Inv(s)
    ensures var t := Run(s, events);
            if id in s.origins then id in t.origins && t.origins[id] == s.origins[id]
            else (id in t.origins <==> Creation(events, id).Some?)
                 && (id in t.origins ==> WrittenBy(t.origins[id], Creation(events, id).value))
    decreases |events|
  {
    hide Inv, Step, WrittenBy;
    if events != [] {
      StepInv(s, events[0]);
      StepOrigin(s, events[0], id);
      OriginFrom(Step(s, events[0]), events[1..], id);
    }
  }

  /**
    Over every run: a job is known exactly if an insert of it has succeeded, and whatever has happened to it since, its
    record carries the user, the session, the context and the time of that insert.
   */
  lemma RecordsCarryCreation(events: seq<Event>, id: string)
    ensures var s := Run(INIT, events);
            && (id in s.origins <==> Creation(events, id).Some?)
            && (id in s.origins ==> WrittenBy(LastRecord(s, id), Creation(events, id).value))
            && (id in s.table ==> id in s.origins && s.table[id] == LastRecord(s, id))
  {
    var s := Run(INIT, events);
    InitInv();
    RunInv(INIT, events);
    OriginFrom(INIT, events, id);
    hide Run, Creation, LedgerOk, WorkersOk, PollersOk, ClaimsOk;
  }

  /**
    Over every run: what a worker works on is the job as it was created. The sink is handed the context that the caller
    gave when the job was created, and nothing else.
   */
  lemma WorkersCarryCreation(events: seq<Event>, w: nat)
    requires w in Run(INIT, events).workers && Driving(Run(INIT, events).workers[w])
    ensures var job := Run(INIT, events).workers[w].job; var creation := Creation(events, job.id);
            && creation.Some?
            && job.user == creation.value.user && job.session == creation.value.session
            && job.metadata == ContextOf(creation.value)
  {
    var s := Run(INIT, events);
    InitInv();
    RunInv(INIT, events);
    RecordsCarryCreation(events, s.workers[w].job.id);
    hide Run, Creation, Inv, RowOf, LedgerOk, AtPoint, Extends;
    DrivingFacts(s, w);
  }

  /** A job that is known and not claimed is waiting in the table. */
  lemma UnclaimedWaits(s: Sys, id: string)
    requires Inv(s) && id in s.origins && id !in s.claims
    ensures id in s.table && s.table[id].status.Pending?
  {
    hide WorkersOk, PollersOk, RowOf, LedgerOk;
  }

  /**
    In every reachable state: the job that a worker takes was created no later than any other that is not claimed, unless a
    claim of that other one is being committed.
   */
  lemma OldestIsTaken(events: seq<Event>, w: nat, id: string, other: string)
    requires var s := Run(INIT, events); w !in s.workers && Step(s, LockOldest(w, id)) != s
    requires Creation(events, other).Some? && other !in Run(INIT, events).claims
    ensures var s := Run(INIT, events);
            && Creation(events, id).Some? && id !in s.claims
            && (Creation(events, id).value.now <= Creation(events, other).value.now
                || exists v <- s.workers :: s.workers[v] == Claiming(other))
  {
    var s := Run(INIT, events);
    InitInv();
    RunInv(INIT, events);
    RecordsCarryCreation(events, id);
    RecordsCarryCreation(events, other);
    hide Run, Creation, LastRecord;
    UnclaimedWaits(s, other);
    PendingUnclaimed(s, id);
    assert id !in s.claims;
    hide Inv;
  }
}
