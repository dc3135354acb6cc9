/**
  N workers and any number of pollers on one imports table. One step is one SQL statement, one page, one download, one
  call of the sink. No UPDATE looks at the status of the row it hits.
 */
module Pipeline {
  import opened Wrappers
  import opened Ledgers
  import T = ImportTypes

  datatype Job = Job(id: string, user: string, session: string, metadata: map<string, string>)

  /** Where a worker is. A worker that is not in the map rests. */
  datatype WorkerPc =
    | Claiming(id: string)              // the row is locked, the claim not yet committed
    | Listing(job: Job)
    | Refusing(job: Job, message: string)
    | Totalling(job: Job)
    | Fetching(job: Job, item: nat)
    | Saving(job: Job, item: nat)
    | Recording(job: Job, item: nat, savedId: string)
    | Blaming(job: Job, item: nat, sunk: Option<string>)
    | Completing(job: Job)
    | Cleaning(job: Job)

  /** A `Get` after its SELECT: the DELETE may be outstanding, or only the answer. */
  datatype PollerPc =
    | Deleting(user: string, id: string, row: T.Row)
    | Answering(user: string, id: string, found: Option<T.Row>)

  /** `origins` are the rows as created, `ledgers` the histories of the claimed jobs, `claims` the committed claims. */
  datatype Sys = Sys(
    table: T.Table,
    workers: map<nat, WorkerPc>,
    pollers: map<nat, PollerPc>,
    origins: map<string, T.Row>,
    ledgers: map<string, Ledger>,
    claims: seq<string>)

  const INIT := Sys(map[], map[], map[], map[], map[], [])

  datatype Event =
    | CreateJob(id: string, user: string, session: string, metadata: Option<map<string, string>>, now: nat, ok: bool)
    | LockOldest(worker: nat, id: string)
    | CommitClaim(worker: nat)
    | PageArrives(worker: nat, items: seq<string>, last: bool)
    | PageFails(worker: nat, message: string)
    | MarkFailed(worker: nat, ok: bool)
    | SetTotal(worker: nat, ok: bool)
    | Download(worker: nat, ok: bool)
    | SavePhoto(worker: nat, savedId: Option<string>)
    | RecordSuccess(worker: nat, ok: bool)
    | RecordFailure(worker: nat, ok: bool)
    | MarkComplete(worker: nat, ok: bool)
    | SessionDeleted(worker: nat)
    | WorkerDies(worker: nat)
    | Select(poller: nat, user: string, id: string)
    | Delete(poller: nat, ok: bool)
    | Answer(poller: nat)

  /** Rows locked by claims that are not committed: SKIP LOCKED passes them over. */
  function Locked(s: Sys): set<string> {
    set w | w in s.workers && s.workers[w].Claiming? :: s.workers[w].id
  }

  /** The job a worker is responsible for: the one it is claiming or driving. Cleaning up is after the end. */
  function Held(pc: WorkerPc): Option<string> {
    match pc
    case Claiming(id) => Some(id)
    case Cleaning(_) => None
    case _ => Some(pc.job.id)
  }

  function Rest(s: Sys, w: nat): Sys {
    s.(workers := s.workers - {w})
  }

  function Go(s: Sys, w: nat, pc: WorkerPc): Sys {
    s.(workers := s.workers[w := pc])
  }

  /** Writes to a job's ledger. */
  function Note(s: Sys, id: string, l: Ledger): Sys {
    s.(ledgers := s.ledgers[id := l])
  }

  function LedgerOf(s: Sys, id: string): Ledger {
    if id in s.ledgers then s.ledgers[id] else FRESH
  }

  /** After item `item - 1` the loop goes on, or ends. */
  function NextItem(s: Sys, w: nat, job: Job, item: nat): Sys {
    if item < |Items(LedgerOf(s, job.id))| then Go(s, w, Fetching(job, item)) else Go(s, w, Completing(job))
  }

  function Outcome(s: Sys, w: nat, job: Job, item: nat, o: ItemOutcome): Sys {
    var l := LedgerOf(s, job.id);
    NextItem(Note(s, job.id, l.(outcomes := l.outcomes + [o])), w, job, item + 1)
  }

  function Ended(s: Sys, id: string, end: End): Sys {
    Note(s, id, LedgerOf(s, id).(end := Some(end)))
  }

  // ----- the statements -----

  /** A new job under an id that was never used before. */
  function Create(s: Sys, id: string, row: T.Row): Sys {
    if id in s.origins then s else s.(table := s.table[id := row], origins := s.origins[id := row])
  }

  function Lock(s: Sys, w: nat, id: string): Sys {
    if w !in s.workers && T.Oldest(s.table, Locked(s), id) then Go(s, w, Claiming(id)) else s
  }

  function Commit(s: Sys, w: nat): Sys {
    if w in s.workers && s.workers[w].Claiming? && s.workers[w].id in s.table then
      var id := s.workers[w].id;
      var row := s.table[id];
      Go(Note(s.(table := T.MarkRunning(s.table, id), claims := s.claims + [id]), id, FRESH),
         w, Listing(Job(id, row.user, row.session, row.metadata)))
    else s
  }

  function Page(s: Sys, w: nat, job: Job, items: seq<string>, last: bool): Sys {
    var l := LedgerOf(s, job.id);
    Go(Note(s, job.id, l.(pages := l.pages + [items], listed := last)), w, if last then Totalling(job) else Listing(job))
  }

  function Refuse(s: Sys, w: nat, job: Job, message: string, ok: bool): Sys {
    Rest(if ok then Ended(s.(table := T.MarkFailed(s.table, job.id, message)), job.id, GaveUp(message)) else s, w)
  }

  function Total(s: Sys, w: nat, job: Job, ok: bool): Sys {
    var l := LedgerOf(s, job.id);
    NextItem(if ok then Note(s.(table := T.SetTotal(s.table, job.id, |Items(l)|)), job.id, l.(totalSet := true)) else s,
             w, job, 0)
  }

  function Sink(s: Sys, w: nat, job: Job, item: nat, savedId: Option<string>): Sys {
    var l := LedgerOf(s, job.id);
    Go(Note(s, job.id, l.(calls := l.calls + [Call(item, savedId)])), w,
       match savedId
       case Some(id) => Recording(job, item, id)
       case None => Blaming(job, item, None))
  }

  function Record(s: Sys, w: nat, job: Job, item: nat, savedId: string, ok: bool): Sys {
    if ok then Outcome(s.(table := T.RecordItemSuccess(s.table, job.id, savedId)), w, job, item, Saved(savedId))
    else Go(s, w, Blaming(job, item, Some(savedId)))
  }

  function Blame(s: Sys, w: nat, job: Job, item: nat, sunk: Option<string>, ok: bool): Sys {
    if ok then Outcome(s.(table := T.RecordItemFailure(s.table, job.id)), w, job, item, Counted(sunk))
    else Outcome(s, w, job, item, Lost(sunk))
  }

  function Finish(s: Sys, w: nat, job: Job, ok: bool): Sys {
    Go(if ok then Ended(s.(table := T.MarkComplete(s.table, job.id)), job.id, Succeeded) else s, w, Cleaning(job))
  }

  function Look(s: Sys, p: nat, user: string, id: string): Sys {
    if p in s.pollers then s
    else
      var found := T.Select(s.table, user, id);
      s.(pollers := s.pollers[p := if found.Some? && found.value.status.Terminal() then Deleting(user, id, found.value)
      else Answering(user, id, found)])
  }

  function Remove(s: Sys, p: nat, ok: bool): Sys {
    if p in s.pollers && s.pollers[p].Deleting? then
      var Deleting(user, id, row) := s.pollers[p];
      s.(table := if ok then T.Delete(s.table, user, id) else s.table,
      pollers := s.pollers[p := Answering(user, id, Some(row))])
    else s
  }

  /** A statement of a worker, at the point where the worker issues it. */
  function WorkerStep(s: Sys, w: nat, e: Event): Sys {
    if w !in s.workers then s
    else
      match (e, s.workers[w])
      case (PageArrives(_, items, last), Listing(job)) => Page(s, w, job, items, last)
      case (PageFails(_, message), Listing(job)) => Go(s, w, Refusing(job, message))
      case (MarkFailed(_, ok), Refusing(job, message)) => Refuse(s, w, job, message, ok)
      case (SetTotal(_, ok), Totalling(job)) => Total(s, w, job, ok)
      case (Download(_, ok), Fetching(job, item)) => Go(s, w, if ok then Saving(job, item) else Blaming(job, item, None))
      case (SavePhoto(_, savedId), Saving(job, item)) => Sink(s, w, job, item, savedId)
      case (RecordSuccess(_, ok), Recording(job, item, savedId)) => Record(s, w, job, item, savedId, ok)
      case (RecordFailure(_, ok), Blaming(job, item, sunk)) => Blame(s, w, job, item, sunk, ok)
      case (MarkComplete(_, ok), Completing(job)) => Finish(s, w, job, ok)
      case (SessionDeleted(_), Cleaning(_)) => Rest(s, w)
      case (WorkerDies(_), _) => Rest(s, w)
      case _ => s
  }

  /** An event that cannot happen leaves the system as it is. */
  function Step(s: Sys, e: Event): Sys {
    match e
    case CreateJob(id, user, session, metadata, now, ok) => if ok then Create(s, id, T.NewRow(user, session, metadata, now)) else s
    case LockOldest(w, id) => Lock(s, w, id)
    case CommitClaim(w) => Commit(s, w)
    case Select(p, user, id) => Look(s, p, user, id)
    case Delete(p, ok) => Remove(s, p, ok)
    case Answer(p) => if p in s.pollers && s.pollers[p].Answering? then s.(pollers := s.pollers - {p}) else s
    case _ => WorkerStep(s, e.worker, e)
  }

  function Run(s: Sys, events: seq<Event>): Sys
    decreases |events|
  {
    if events == [] then s else Run(Step(s, events[0]), events[1..])
  }
}

/** The invariant of the pipeline, and what it gives. */
module PipelineInvariants {
  import opened Wrappers
  import opened Ledgers
  import opened Pipeline
  import T = ImportTypes

  // ----- rows and ledgers -----

  /** A created row starts with nothing. */
  predicate BlankRow(row: T.Row) {
    row.status.Pending? && row.total == row.completed == row.failed == 0 && row.savedIds == [] && row.error == None
  }

  /** The row of `id`, computed from its history alone. */
  function RowFromHistory(s: Sys, id: string): T.Row
    requires id in s.origins
  {
    if id in s.ledgers then RowOf(s.origins[id], s.ledgers[id]) else s.origins[id]
  }

  /**
    Every row of the table is the sum of its job's history; a row that is gone had ended; a job has a ledger exactly
    once its claim is committed.
   */
  ghost predicate TableOk(s: Sys) {
    && (forall id <- s.table :: id in s.origins && s.table[id] == RowFromHistory(s, id))
    && (forall id <- s.origins :: BlankRow(s.origins[id]))
    && (forall id <- s.ledgers :: id in s.origins && LedgerOk(s.ledgers[id]))
    && (forall id <- s.origins | id !in s.table :: id in s.ledgers && s.ledgers[id].end.Some?)
  }

  // ----- workers -----

  /** What a worker at `pc` knows about its job. */
  ghost predicate Drives(s: Sys, pc: WorkerPc) {
    match pc
    case Claiming(id) => id in s.table && id !in s.ledgers
    case Cleaning(job) => job.id in s.ledgers
    case _ =>
      && InHand(s, pc.job)
      && AtPoint(s.ledgers[pc.job.id], pc)
  }

  /** The job's row is there and running, and carries what the worker was told when it claimed the job. */
  ghost predicate InHand(s: Sys, job: Job) {
    && job.id in s.table && job.id in s.ledgers && s.ledgers[job.id].end == None
    && s.table[job.id].user == job.user && s.table[job.id].session == job.session && s.table[job.id].metadata == job.metadata
  }

  ghost predicate AtPoint(l: Ledger, pc: WorkerPc) {
    match pc
    case Listing(_) => !l.listed
    case Refusing(_, _) => !l.listed
    case Totalling(_) => l.listed && l.outcomes == [] && l.calls == [] && !l.totalSet
    case Fetching(_, item) => l.listed && |l.outcomes| == item < |Items(l)| && CallsBefore(l, item)
    case Saving(_, item) => l.listed && |l.outcomes| == item < |Items(l)| && CallsBefore(l, item)
    case Recording(_, item, savedId) =>
      l.listed && |l.outcomes| == item < |Items(l)| && AnswerTo(l.calls, item) == Some(savedId)
    case Blaming(_, item, sunk) => l.listed && |l.outcomes| == item < |Items(l)| && AnswerTo(l.calls, item) == sunk
    case Completing(_) => l.listed && |l.outcomes| == |Items(l)|
    case _ => true
  }

  /** The sink has not been called for `item` or anything after it. */
  ghost predicate CallsBefore(l: Ledger, item: nat) {
    forall c <- l.calls :: c.item < item
  }

  /** Every busy worker is where it thinks it is, and no two are responsible for the same job. */
  ghost predicate WorkersOk(s: Sys) {
    && (forall w <- s.workers :: Drives(s, s.workers[w]))
    && (forall v <- s.workers, w <- s.workers ::
          v != w && Held(s.workers[v]).Some? ==> Held(s.workers[v]) != Held(s.workers[w]))
  }

  // ----- claims and pollers -----

  ghost predicate NoRepeats(ids: seq<string>) {
    forall i, j :: 0 <= i < j < |ids| ==> ids[i] != ids[j]
  }

  ghost predicate ClaimsOk(s: Sys) {
    NoRepeats(s.claims) && forall id :: id in s.claims <==> id in s.ledgers
  }

  /** The last record of a job that has ended. */
  ghost predicate FinalRecord(s: Sys, id: string, row: T.Row) {
    id in s.origins && id in s.ledgers && s.ledgers[id].end.Some? && row == RowOf(s.origins[id], s.ledgers[id])
  }

  /** A terminal row a poller carries is the final record of its job, and belongs to the asking user. */
  ghost predicate PollerOk(s: Sys, pc: PollerPc) {
    match pc
    case Deleting(user, id, row) => FinalRecord(s, id, row) && row.user == user
    case Answering(user, id, Some(row)) =>
      row.user == user && id in s.origins && (row.status.Terminal() ==> FinalRecord(s, id, row))
    case _ => true
  }

  ghost predicate PollersOk(s: Sys) {
    forall p <- s.pollers :: PollerOk(s, s.pollers[p])
  }

  ghost predicate Inv(s: Sys) {
    TableOk(s) && WorkersOk(s) && ClaimsOk(s) && PollersOk(s)
  }

  lemma InitInv()
    ensures Inv(INIT)
  {
  }

  // ----- one job moves -----

  /** A worker past its claim and before its cleanup. */
  predicate Driving(pc: WorkerPc) {
    !pc.Claiming? && !pc.Cleaning?
  }

  /** `t` is `s` with worker `w`'s job at ledger `l`, its row at the sum of `l`, and `w` moved on or at rest. */
  ghost predicate JobMoves(s: Sys, t: Sys, w: nat, l: Ledger) {
    && w in s.workers && Driving(s.workers[w])
    && var id := s.workers[w].job.id;
      && id in s.origins
      && t == s.(table := s.table[id := RowOf(s.origins[id], l)], ledgers := s.ledgers[id := l], workers := t.workers)
      && t.workers == if w in t.workers then s.workers[w := t.workers[w]] else s.workers - {w}
  }

  lemma MovedTable(s: Sys, t: Sys, w: nat, l: Ledger)
    requires TableOk(s) && JobMoves(s, t, w, l) && LedgerOk(l)
    requires s.workers[w].job.id in s.table
    ensures TableOk(t)
  {
    hide RowOf, LedgerOk;
  }

  lemma MovedPollers(s: Sys, t: Sys, w: nat, l: Ledger)
    requires PollersOk(s) && JobMoves(s, t, w, l)
    requires s.workers[w].job.id in s.ledgers && s.ledgers[s.workers[w].job.id].end == None
    ensures PollersOk(t)
  {
    hide RowOf;
    forall p <- t.pollers
      ensures PollerOk(t, t.pollers[p])
    {
      assert PollerOk(s, s.pollers[p]);
    }
  }

  /** Somebody else's job did not move. */
  lemma OthersDrive(s: Sys, t: Sys, w: nat, l: Ledger, v: nat)
    requires WorkersOk(s) && JobMoves(s, t, w, l) && v in s.workers && v != w
    requires s.workers[w].job.id in s.ledgers
    ensures Drives(t, s.workers[v])
  {
    assert Drives(s, s.workers[v]);
    assert Held(s.workers[w]) == Some(s.workers[w].job.id) != Held(s.workers[v]);
    hide WorkersOk, RowOf, AtPoint;
  }

  lemma MovedWorkers(s: Sys, t: Sys, w: nat, l: Ledger)
    requires WorkersOk(s) && JobMoves(s, t, w, l)
    requires s.workers[w].job.id in s.ledgers
    requires w in t.workers ==>
               !t.workers[w].Claiming? && t.workers[w].job == s.workers[w].job && Drives(t, t.workers[w])
    ensures WorkersOk(t)
  {
    forall v <- t.workers
      ensures Drives(t, t.workers[v])
    {
      if v != w {
        OthersDrive(s, t, w, l, v);
      }
    }
    assert Held(s.workers[w]) == Some(s.workers[w].job.id);
    hide Drives, RowOf;
  }

  /** Where the worker goes, the moved job is what it should be. */
  lemma MoverDrives(s: Sys, t: Sys, w: nat, l: Ledger)
    requires JobMoves(s, t, w, l) && w in t.workers
    requires TableOk(s) && InHand(s, s.workers[w].job)
    requires !t.workers[w].Claiming? && t.workers[w].job == s.workers[w].job
    requires t.workers[w].Cleaning? || (l.end == None && AtPoint(l, t.workers[w]))
    ensures Drives(t, t.workers[w])
  {
    hide AtPoint, LedgerOk, Items, SavedIds, Failures;
    var id := s.workers[w].job.id;
    assert s.table[id] == RowFromHistory(s, id);
  }

  /** A driving worker's statement keeps the invariant if its own job comes out right. */
  lemma JobMoveInv(s: Sys, t: Sys, w: nat, l: Ledger)
    requires Inv(s) && JobMoves(s, t, w, l) && LedgerOk(l)
    requires w in t.workers ==>
               && !t.workers[w].Claiming? && t.workers[w].job == s.workers[w].job
               && (t.workers[w].Cleaning? || (l.end == None && AtPoint(l, t.workers[w])))
    ensures Inv(t)
  {
    hide RowOf, LedgerOk, AtPoint, TableOk, WorkersOk, ClaimsOk, PollersOk;
    DrivingFacts(s, w);
    if w in t.workers {
      MoverDrives(s, t, w, l);
    }
    hide Drives;
    MovedTable(s, t, w, l);
    MovedPollers(s, t, w, l);
    MovedWorkers(s, t, w, l);
    MovedClaims(s, t, w, l);
  }

  /**
    A good move of driving worker `w`: its job comes out with ledger `l`, which extends the old one, and the worker
    stands where that ledger says, or is done with the job.
   */
  ghost predicate GoodMove(s: Sys, t: Sys, w: nat, l: Ledger) {
    && JobMoves(s, t, w, l) && LedgerOk(l)
    && s.workers[w].job.id in s.ledgers && Extends(s.ledgers[s.workers[w].job.id], l)
    && (w in t.workers ==>
          && !t.workers[w].Claiming? && t.workers[w].job == s.workers[w].job
          && (t.workers[w].Cleaning? || (l.end == None && AtPoint(l, t.workers[w]))))
  }

  ghost predicate Moves(s: Sys, t: Sys, w: nat) {
    exists l :: GoodMove(s, t, w, l)
  }

  lemma GoodMoveInv(s: Sys, t: Sys, w: nat, l: Ledger)
    requires Inv(s) && GoodMove(s, t, w, l)
    ensures Inv(t)
  {
    hide Inv, LedgerOk, AtPoint, Extends, RowOf;
    JobMoveInv(s, t, w, l);
  }

  lemma MovedClaims(s: Sys, t: Sys, w: nat, l: Ledger)
    requires ClaimsOk(s) && JobMoves(s, t, w, l) && s.workers[w].job.id in s.ledgers
    ensures ClaimsOk(t)
  {
    hide RowOf;
    assert t.ledgers.Keys == s.ledgers.Keys;
  }

  /** What the invariant says about a driving worker's job. */
  lemma DrivingFacts(s: Sys, w: nat)
    requires Inv(s) && w in s.workers && Driving(s.workers[w])
    ensures var job := s.workers[w].job; var id := job.id;
            && id in s.table && id in s.ledgers && id in s.origins
            && s.ledgers[id].end == None && LedgerOk(s.ledgers[id])
            && s.table[id] == RowOf(s.origins[id], s.ledgers[id]) && s.table[id].status.Running?
            && AtPoint(s.ledgers[id], s.workers[w])
            && InHand(s, job)
  {
    assert Drives(s, s.workers[w]);
    hide LedgerOk, AtPoint, WorkersOk, ClaimsOk, PollersOk;
  }

  /**
    Every update of a worker hits a row that exists, is running, and belongs to the job it claimed, although no statement
    asks for that.
   */
  lemma UpdatesHitRunningRows(s: Sys, w: nat)
    requires Inv(s) && w in s.workers && Driving(s.workers[w])
    ensures var job := s.workers[w].job;
            && job.id in s.table && s.table[job.id].status.Running?
            && s.table[job.id].user == job.user && s.table[job.id].metadata == job.metadata
  {
    DrivingFacts(s, w);
    hide Inv, AtPoint, LedgerOk;
  }

  // ----- the statements of a worker -----

  lemma {:induction false} FlattenMore(pages: seq<seq<string>>, page: seq<string>)
    ensures Flatten(pages + [page]) == Flatten(pages) + page
  {
    assert (pages + [page])[..|pages|] == pages;
  }

  lemma MoreOutcome(outcomes: seq<ItemOutcome>, o: ItemOutcome)
    ensures SavedIds(outcomes + [o]) == SavedIds(outcomes) + if o.Saved? then [o.id] else []
    ensures Failures(outcomes + [o]) == Failures(outcomes) + if o.Counted? then 1 else 0
    ensures Losses(outcomes + [o]) == Losses(outcomes) + if o.Lost? then 1 else 0
    ensures Mislaid(outcomes + [o]) == Mislaid(outcomes) + if !o.Saved? && Sunk(o).Some? then 1 else 0
  {
    assert (outcomes + [o])[..|outcomes|] == outcomes;
  }

  /** A page comes in: still nothing is counted. */
  lemma PageLedger(l: Ledger, items: seq<string>, last: bool, origin: T.Row)
    requires LedgerOk(l) && !l.listed && l.end == None
    ensures var m := l.(pages := l.pages + [items], listed := last);
            && LedgerOk(m) && Extends(l, m) && RowOf(origin, m) == RowOf(origin, l)
            && m.outcomes == [] && m.calls == [] && !m.totalSet
  {
    FlattenMore(l.pages, items);
  }

  lemma PageMoves(s: Sys, w: nat, items: seq<string>, last: bool)
    requires Inv(s) && w in s.workers && s.workers[w].Listing?
    ensures Moves(s, Page(s, w, s.workers[w].job, items, last), w)
  {
    hide Inv, RowOf, LedgerOk, Extends;
    DrivingFacts(s, w);
    var job := s.workers[w].job;
    var l := s.ledgers[job.id];
    PageLedger(l, items, last, s.origins[job.id]);
    assert s.table[job.id := s.table[job.id]] == s.table;
    assert GoodMove(s, Page(s, w, job, items, last), w, l.(pages := l.pages + [items], listed := last));
  }

  lemma GoMoves(s: Sys, w: nat, pc: WorkerPc)
    requires Inv(s) && w in s.workers && Driving(s.workers[w])
    requires Driving(pc) && pc.job == s.workers[w].job && pc.job.id in s.ledgers && AtPoint(s.ledgers[pc.job.id], pc)
    ensures Moves(s, Go(s, w, pc), w)
  {
    hide Inv, AtPoint, RowOf, LedgerOk, Extends;
    DrivingFacts(s, w);
    var id := pc.job.id;
    assert s.table[id := s.table[id]] == s.table && s.ledgers[id := s.ledgers[id]] == s.ledgers;
    ExtendsRefl(s.ledgers[id]);
    assert GoodMove(s, Go(s, w, pc), w, s.ledgers[id]);
  }

  /** A worker that goes away leaves its job as it is: nobody is responsible for it any more. */
  lemma RestInv(s: Sys, w: nat)
    requires Inv(s)
    ensures Inv(Rest(s, w))
  {
    hide Drives, TableOk, ClaimsOk, PollerOk;
    var t := Rest(s, w);
    forall v <- t.workers
      ensures Drives(t, s.workers[v])
    {
      SameDrives(s, t, s.workers[v]);
    }
    SameTable(s, t);
    forall p <- s.pollers
      ensures PollerOk(t, s.pollers[p])
    {
      SamePoller(s, t, s.pollers[p]);
    }
  }

  lemma SameTable(s: Sys, t: Sys)
    requires t.table == s.table && t.origins == s.origins && t.ledgers == s.ledgers && t.claims == s.claims
    ensures TableOk(s) ==> TableOk(t)
    ensures ClaimsOk(s) ==> ClaimsOk(t)
  {
    hide RowOf, LedgerOk;
  }

  lemma SameDrives(s: Sys, t: Sys, pc: WorkerPc)
    requires Drives(s, pc) && t.table == s.table && t.ledgers == s.ledgers
    ensures Drives(t, pc)
  {
    hide AtPoint;
  }

  lemma SamePoller(s: Sys, t: Sys, pc: PollerPc)
    requires PollerOk(s, pc) && t.origins == s.origins && t.ledgers == s.ledgers
    ensures PollerOk(t, pc)
  {
    hide RowOf;
  }

  lemma GaveUpLedger(l: Ledger, message: string, origin: T.Row)
    requires LedgerOk(l) && !l.listed && l.end == None
    ensures var m := l.(end := Some(GaveUp(message)));
            LedgerOk(m) && Extends(l, m) && RowOf(origin, m) == RowOf(origin, l).(status := T.Failed, error := Some(message))
  {
  }

  lemma RefuseMoves(s: Sys, w: nat, ok: bool)
    requires Inv(s) && w in s.workers && s.workers[w].Refusing?
    ensures Moves(s, Refuse(s, w, s.workers[w].job, s.workers[w].message, ok), w)
  {
    hide Inv, RowOf, LedgerOk, Extends;
    if ok {
      DrivingFacts(s, w);
      var Refusing(job, message) := s.workers[w];
      var l := s.ledgers[job.id];
      GaveUpLedger(l, message, s.origins[job.id]);
      assert GoodMove(s, Refuse(s, w, job, message, ok), w, l.(end := Some(GaveUp(message))));
    } else {
      StayMoves(s, w);
    }
  }

  lemma TotalLedger(l: Ledger, origin: T.Row)
    requires LedgerOk(l) && l.listed && l.end == None
    ensures var m := l.(totalSet := true);
            LedgerOk(m) && Extends(l, m) && RowOf(origin, m) == RowOf(origin, l).(total := |Items(l)|) && Items(m) == Items(l)
  {
  }

  lemma TotalMoves(s: Sys, w: nat, ok: bool)
    requires Inv(s) && w in s.workers && s.workers[w].Totalling?
    ensures Moves(s, Total(s, w, s.workers[w].job, ok), w)
  {
    hide Inv, RowOf, LedgerOk, Extends;
    DrivingFacts(s, w);
    var job := s.workers[w].job;
    var l := s.ledgers[job.id];
    if ok {
      TotalLedger(l, s.origins[job.id]);
      hide Items;
      assert GoodMove(s, Total(s, w, job, ok), w, l.(totalSet := true));
    } else {
      hide Items;
      GoMoves(s, w, if 0 < |Items(l)| then Fetching(job, 0) else Completing(job));
    }
  }

  lemma SinkLedger(l: Ledger, item: nat, answer: Option<string>, origin: T.Row)
    requires LedgerOk(l) && l.listed && l.end == None && |l.outcomes| == item < |Items(l)| && CallsBefore(l, item)
    ensures var m := l.(calls := l.calls + [Call(item, answer)]);
            && LedgerOk(m) && Extends(l, m) && RowOf(origin, m) == RowOf(origin, l) && Items(m) == Items(l)
            && AnswerTo(m.calls, item) == answer
  {
    hide Flatten, AnswerTo, Sunk;
    forall i: nat
      ensures AnswerTo(l.calls + [Call(item, answer)], i) == if i == item then answer else AnswerTo(l.calls, i)
    {
      OneMoreCall(l.calls, Call(item, answer), i);
    }
    assert forall i :: 0 <= i < |l.calls| ==> l.calls[i] in l.calls;
  }

  lemma SinkMoves(s: Sys, w: nat, savedId: Option<string>)
    requires Inv(s) && w in s.workers && s.workers[w].Saving?
    ensures Moves(s, Sink(s, w, s.workers[w].job, s.workers[w].item, savedId), w)
  {
    hide Inv, RowOf, LedgerOk, Extends;
    DrivingFacts(s, w);
    var Saving(job, item) := s.workers[w];
    var l := s.ledgers[job.id];
    SinkLedger(l, item, savedId, s.origins[job.id]);
    hide Items, AnswerTo;
    assert s.table[job.id := s.table[job.id]] == s.table;
    assert GoodMove(s, Sink(s, w, job, item, savedId), w, l.(calls := l.calls + [Call(item, savedId)]));
  }

  /** The row after an item ended with outcome `o`. */
  function After(row: T.Row, o: ItemOutcome): T.Row {
    match o
    case Saved(savedId) => row.(completed := row.completed + 1, savedIds := row.savedIds + [savedId])
    case Counted(_) => row.(failed := row.failed + 1)
    case Lost(_) => row
  }

  lemma OutcomeLedger(l: Ledger, o: ItemOutcome, origin: T.Row)
    requires LedgerOk(l) && l.listed && l.end == None && |l.outcomes| < |Items(l)|
    requires AnswerTo(l.calls, |l.outcomes|) == Sunk(o)
    ensures var m := l.(outcomes := l.outcomes + [o]);
            && LedgerOk(m) && Extends(l, m) && RowOf(origin, m) == After(RowOf(origin, l), o)
            && Items(m) == Items(l) && CallsBefore(m, |m.outcomes|)
  {
    MoreOutcome(l.outcomes, o);
    hide SavedIds, Failures;
  }

  /** An item ends with outcome `o`, and the row has been updated to match. */
  lemma OutcomeMoves(s: Sys, w: nat, row: T.Row, o: ItemOutcome)
    requires Inv(s) && w in s.workers && (s.workers[w].Recording? || s.workers[w].Blaming?)
    requires var id := s.workers[w].job.id; id in s.table && row == After(s.table[id], o)
    requires Sunk(o) == if s.workers[w].Recording? then Some(s.workers[w].savedId) else s.workers[w].sunk
    ensures var job := s.workers[w].job;
            Moves(s, Outcome(s.(table := s.table[job.id := row]), w, job, s.workers[w].item, o), w)
  {
    hide Inv, RowOf, LedgerOk, Extends, After;
    DrivingFacts(s, w);
    var job := s.workers[w].job;
    var l := s.ledgers[job.id];
    OutcomeLedger(l, o, s.origins[job.id]);
    hide Items, CallsBefore;
    assert GoodMove(s, Outcome(s.(table := s.table[job.id := row]), w, job, s.workers[w].item, o), w,
               l.(outcomes := l.outcomes + [o]));
  }

  lemma RecordMoves(s: Sys, w: nat, ok: bool)
    requires Inv(s) && w in s.workers && s.workers[w].Recording?
    ensures Moves(s, Record(s, w, s.workers[w].job, s.workers[w].item, s.workers[w].savedId, ok), w)
  {
    hide Inv, RowOf, LedgerOk, Extends, Outcome;
    DrivingFacts(s, w);
    var Recording(job, item, savedId) := s.workers[w];
    if ok {
      OutcomeMoves(s, w, T.RecordItemSuccess(s.table, job.id, savedId)[job.id], Saved(savedId));
    } else {
      GoMoves(s, w, Blaming(job, item, Some(savedId)));
    }
  }

  lemma BlameMoves(s: Sys, w: nat, ok: bool)
    requires Inv(s) && w in s.workers && s.workers[w].Blaming?
    ensures Moves(s, Blame(s, w, s.workers[w].job, s.workers[w].item, s.workers[w].sunk, ok), w)
  {
    hide Inv, RowOf, LedgerOk, Extends, Outcome;
    DrivingFacts(s, w);
    var Blaming(job, item, sunk) := s.workers[w];
    if ok {
      OutcomeMoves(s, w, T.RecordItemFailure(s.table, job.id)[job.id], Counted(sunk));
    } else {
      assert s.table[job.id := s.table[job.id]] == s.table;
      OutcomeMoves(s, w, s.table[job.id], Lost(sunk));
    }
  }

  lemma SucceededLedger(l: Ledger, origin: T.Row)
    requires LedgerOk(l) && l.listed && l.end == None && |l.outcomes| == |Items(l)|
    ensures var m := l.(end := Some(Succeeded));
            LedgerOk(m) && Extends(l, m) && RowOf(origin, m) == RowOf(origin, l).(status := T.Complete)
  {
  }

  lemma FinishMoves(s: Sys, w: nat, ok: bool)
    requires Inv(s) && w in s.workers && s.workers[w].Completing?
    ensures Moves(s, Finish(s, w, s.workers[w].job, ok), w)
  {
    hide Inv, RowOf, LedgerOk, Extends;
    DrivingFacts(s, w);
    var job := s.workers[w].job;
    var l := s.ledgers[job.id];
    SucceededLedger(l, s.origins[job.id]);
    hide Items;
    if ok {
      assert GoodMove(s, Finish(s, w, job, ok), w, l.(end := Some(Succeeded)));
    } else {
      assert s.table[job.id := s.table[job.id]] == s.table && s.ledgers[job.id := l] == s.ledgers;
      ExtendsRefl(l);
      assert GoodMove(s, Finish(s, w, job, ok), w, l);
    }
  }

  lemma FetchMoves(s: Sys, w: nat, ok: bool)
    requires Inv(s) && w in s.workers && s.workers[w].Fetching?
    ensures var job := s.workers[w].job; var item := s.workers[w].item;
            Moves(s, Go(s, w, if ok then Saving(job, item) else Blaming(job, item, None)), w)
  {
    hide Inv, RowOf, LedgerOk, Extends, Items;
    DrivingFacts(s, w);
    var Fetching(job, item) := s.workers[w];
    NotCalled(s.ledgers[job.id].calls, item, item);
    hide AnswerTo;
    GoMoves(s, w, if ok then Saving(job, item) else Blaming(job, item, None));
  }

  lemma PageFailsMoves(s: Sys, w: nat, message: string)
    requires Inv(s) && w in s.workers && s.workers[w].Listing?
    ensures Moves(s, Go(s, w, Refusing(s.workers[w].job, message)), w)
  {
    hide Inv, RowOf, LedgerOk, Extends, Items;
    DrivingFacts(s, w);
    GoMoves(s, w, Refusing(s.workers[w].job, message));
  }

  lemma StayMoves(s: Sys, w: nat)
    requires Inv(s) && w in s.workers && Driving(s.workers[w])
    ensures Moves(s, s, w) && Moves(s, Rest(s, w), w)
  {
    hide Inv, RowOf, LedgerOk, Extends, AtPoint;
    DrivingFacts(s, w);
    var id := s.workers[w].job.id;
    var l := s.ledgers[id];
    ExtendsRefl(l);
    assert s.table[id := s.table[id]] == s.table && s.ledgers[id := l] == s.ledgers && s.workers[w := s.workers[w]] == s.workers;
    assert GoodMove(s, s, w, l);
    assert GoodMove(s, Rest(s, w), w, l);
  }

  /** Whatever a driving worker does is a good move. */
  lemma DrivingStepMoves(s: Sys, w: nat, e: Event)
    requires Inv(s) && w in s.workers && Driving(s.workers[w])
    ensures Moves(s, WorkerStep(s, w, e), w)
  {
    hide Inv, Moves, Page, Refuse, Total, Sink, Record, Blame, Finish, Go, Rest;
    StayMoves(s, w);
    match (e, s.workers[w])
    case (PageArrives(_, items, last), Listing(job)) => PageMoves(s, w, items, last);
    case (PageFails(_, message), Listing(job)) => PageFailsMoves(s, w, message);
    case (MarkFailed(_, ok), Refusing(job, message)) => RefuseMoves(s, w, ok);
    case (SetTotal(_, ok), Totalling(job)) => TotalMoves(s, w, ok);
    case (Download(_, ok), Fetching(job, item)) => FetchMoves(s, w, ok);
    case (SavePhoto(_, savedId), Saving(job, item)) => SinkMoves(s, w, savedId);
    case (RecordSuccess(_, ok), Recording(job, item, savedId)) => RecordMoves(s, w, ok);
    case (RecordFailure(_, ok), Blaming(job, item, sunk)) => BlameMoves(s, w, ok);
    case (MarkComplete(_, ok), Completing(job)) => FinishMoves(s, w, ok);
    case _ =>
  }

  lemma WorkerStepInv(s: Sys, w: nat, e: Event)
    requires Inv(s)
    ensures Inv(WorkerStep(s, w, e))
  {
    hide Inv, GoodMove;
    if w in s.workers {
      var t := WorkerStep(s, w, e);
      if Driving(s.workers[w]) {
        hide WorkerStep;
        DrivingStepMoves(s, w, e);
        var l :| GoodMove(s, t, w, l);
        GoodMoveInv(s, t, w, l);
      } else {
        RestInv(s, w);
      }
    }
  }

  // ----- creating, claiming, polling -----

  /** A row nobody knew before changes nothing for anybody. */
  lemma CreatedWorkers(s: Sys, id: string, row: T.Row)
    requires WorkersOk(s) && id !in s.table && id !in s.origins
    ensures WorkersOk(Create(s, id, row))
  {
    var t := Create(s, id, row);
    forall w <- t.workers
      ensures Drives(t, t.workers[w])
    {
      assert Drives(s, s.workers[w]);
      hide AtPoint;
    }
    hide Drives;
  }

  lemma CreatedPollers(s: Sys, id: string, row: T.Row)
    requires PollersOk(s) && id !in s.origins
    ensures PollersOk(Create(s, id, row))
  {
    var t := Create(s, id, row);
    hide RowOf;
    forall p <- t.pollers
      ensures PollerOk(t, t.pollers[p])
    {
      assert PollerOk(s, s.pollers[p]);
    }
  }

  lemma CreatedTable(s: Sys, id: string, row: T.Row)
    requires TableOk(s) && BlankRow(row) && id !in s.origins
    ensures id !in s.table && id !in s.ledgers
    ensures TableOk(Create(s, id, row))
  {
    hide LedgerOk, RowOf, BlankRow;
  }

  lemma CreateInv(s: Sys, id: string, row: T.Row)
    requires Inv(s) && BlankRow(row)
    ensures Inv(Create(s, id, row))
  {
    hide TableOk, WorkersOk, PollersOk;
    if id !in s.origins {
      CreatedTable(s, id, row);
      CreatedWorkers(s, id, row);
      CreatedPollers(s, id, row);
    }
  }

  lemma SamePollers(s: Sys, t: Sys)
    requires PollersOk(s) && t.origins == s.origins && t.ledgers == s.ledgers && t.pollers == s.pollers
    ensures PollersOk(t)
  {
    hide PollerOk;
    forall p <- t.pollers
      ensures PollerOk(t, t.pollers[p])
    {
      SamePoller(s, t, s.pollers[p]);
    }
  }

  /** A pending row has not been claimed. */
  lemma PendingUnclaimed(s: Sys, id: string)
    requires TableOk(s) && id in s.table
    ensures id in s.origins && (s.table[id].status.Pending? <==> id !in s.ledgers)
  {
    hide LedgerOk;
  }

  lemma LockInv(s: Sys, w: nat, id: string)
    requires Inv(s)
    ensures Inv(Lock(s, w, id))
  {
    hide TableOk, WorkersOk, PollersOk, ClaimsOk;
    var t := Lock(s, w, id);
    if t != s {
      PendingUnclaimed(s, id);
      LockedAlone(s, w, id);
      SamePollers(s, t);
      SameTable(s, t);
    }
  }

  /** Nobody is responsible for a pending row that is not locked. */
  lemma LockedAlone(s: Sys, w: nat, id: string)
    requires WorkersOk(s) && w !in s.workers && id in s.table && id !in s.ledgers && id !in Locked(s)
    ensures WorkersOk(Go(s, w, Claiming(id)))
  {
    var t := Go(s, w, Claiming(id));
    forall v <- s.workers
      ensures Held(s.workers[v]) != Some(id) && Drives(t, s.workers[v])
    {
      assert Drives(s, s.workers[v]);
      hide AtPoint;
      if s.workers[v].Claiming? {
        assert s.workers[v].id in Locked(s);
      }
    }
    hide Drives;
  }

  /** A claimed row is the blank row, running: the sum of a fresh ledger. */
  lemma FreshRow(origin: T.Row)
    requires BlankRow(origin)
    ensures RowOf(origin, FRESH) == origin.(status := T.Running)
  {
  }

  lemma CommitShape(s: Sys, w: nat)
    requires TableOk(s) && Commit(s, w) != s && s.workers[w].id !in s.ledgers
    ensures var t := Commit(s, w); var id := s.workers[w].id;
            && id in s.table && id in s.origins && t.origins == s.origins
            && t.table == s.table[id := RowOf(s.origins[id], FRESH)] && t.ledgers == s.ledgers[id := FRESH]
  {
    hide RowOf, LedgerOk;
    FreshRow(s.origins[s.workers[w].id]);
  }

  lemma CommittedTable(s: Sys, w: nat)
    requires TableOk(s) && Commit(s, w) != s && s.workers[w].id !in s.ledgers
    ensures TableOk(Commit(s, w))
  {
    hide RowOf, LedgerOk, BlankRow, Commit;
    CommitShape(s, w);
    FreshOk();
  }

  lemma CommittedClaims(s: Sys, w: nat)
    requires ClaimsOk(s) && Commit(s, w) != s && s.workers[w].id !in s.ledgers
    ensures ClaimsOk(Commit(s, w))
  {
    assert s.workers[w].id !in s.claims;
    assert Commit(s, w).ledgers.Keys == s.ledgers.Keys + {s.workers[w].id};
    hide T.MarkRunning;
  }

  lemma CommitInv(s: Sys, w: nat)
    requires Inv(s)
    ensures Inv(Commit(s, w))
  {
    hide TableOk, PollersOk, ClaimsOk, LedgerOk;
    if Commit(s, w) != s {
      assert Drives(s, s.workers[w]);
      hide Commit, WorkersOk;
      CommittedTable(s, w);
      CommittedWorkers(s, w);
      CommittedPollers(s, w);
      CommittedClaims(s, w);
    }
  }

  lemma FreshOk()
    ensures LedgerOk(FRESH)
  {
  }

  lemma CommittedPollers(s: Sys, w: nat)
    requires PollersOk(s) && Commit(s, w) != s && s.workers[w].id !in s.ledgers
    ensures PollersOk(Commit(s, w))
  {
    hide RowOf;
    forall p <- s.pollers
      ensures PollerOk(Commit(s, w), s.pollers[p])
    {
      assert PollerOk(s, s.pollers[p]);
    }
  }

  lemma CommittedWorkers(s: Sys, w: nat)
    requires WorkersOk(s) && Commit(s, w) != s && s.workers[w].id !in s.ledgers
    ensures WorkersOk(Commit(s, w))
  {
    var t := Commit(s, w);
    var id := s.workers[w].id;
    forall v <- s.workers | v != w
      ensures Held(s.workers[v]) != Some(id) && Drives(t, s.workers[v])
    {
      assert Drives(s, s.workers[v]);
      assert Held(s.workers[w]) == Some(id);
      hide AtPoint;
    }
    assert Drives(t, t.workers[w]);
    hide Drives;
  }

  /** What a SELECT finds: a terminal row is a final record. */
  lemma SelectFinds(s: Sys, user: string, id: string)
    requires TableOk(s)
    ensures var found := T.Select(s.table, user, id);
            found.Some? ==> found.value.user == user && id in s.origins
                            && (found.value.status.Terminal() ==> FinalRecord(s, id, found.value))
  {
    hide LedgerOk;
  }

  lemma LookInv(s: Sys, p: nat, user: string, id: string)
    requires Inv(s)
    ensures Inv(Look(s, p, user, id))
  {
    hide TableOk, WorkersOk, ClaimsOk, FinalRecord;
    var t := Look(s, p, user, id);
    SelectFinds(s, user, id);
    OnlyPollers(s, t);
    SameTable(s, t);
    forall q <- t.pollers
      ensures PollerOk(t, t.pollers[q])
    {
      if q in s.pollers {
        SamePoller(s, t, s.pollers[q]);
      } else {
        SameFinal(s, t);
      }
    }
  }

  lemma SameFinal(s: Sys, t: Sys)
    requires t.origins == s.origins && t.ledgers == s.ledgers
    ensures forall id: string, row: T.Row :: FinalRecord(s, id, row) ==> FinalRecord(t, id, row)
  {
    hide RowOf;
  }

  lemma OnlyPollers(s: Sys, t: Sys)
    requires WorkersOk(s) && t == s.(pollers := t.pollers)
    ensures WorkersOk(t)
  {
    forall w <- s.workers
      ensures Drives(t, s.workers[w])
    {
      SameDrives(s, t, s.workers[w]);
    }
    hide Drives;
  }

  /**
    The DELETE of a `Get`, however late it comes, finds either nothing or the final record its SELECT saw, of the user who
    asked.
   */
  lemma DeleteHitsFinalRecord(s: Sys, p: nat)
    requires Inv(s) && p in s.pollers && s.pollers[p].Deleting?
    ensures var Deleting(user, id, row) := s.pollers[p];
            && FinalRecord(s, id, row) && row.user == user && row.status.Terminal()
            && (id in s.table ==> s.table[id] == row)
  {
    assert PollerOk(s, s.pollers[p]);
    hide LedgerOk, WorkersOk;
  }

  lemma RemovedTable(s: Sys, t: Sys, id: string)
    requires TableOk(s) && id in s.ledgers && s.ledgers[id].end.Some?
    requires t == s.(table := t.table, pollers := t.pollers) && (t.table == s.table || t.table == s.table - {id})
    ensures TableOk(t)
  {
    hide RowOf, LedgerOk, BlankRow;
  }

  lemma RemovedPollers(s: Sys, t: Sys, p: nat)
    requires PollersOk(s) && p in s.pollers && s.pollers[p].Deleting?
    requires t == s.(table := t.table, pollers := t.pollers)
    requires t.pollers == s.pollers[p := Answering(s.pollers[p].user, s.pollers[p].id, Some(s.pollers[p].row))]
    ensures PollersOk(t)
  {
    hide RowOf;
    forall q <- t.pollers
      ensures PollerOk(t, t.pollers[q])
    {
      assert PollerOk(s, s.pollers[q]);
    }
  }

  lemma RemoveInv(s: Sys, p: nat, ok: bool)
    requires Inv(s)
    ensures Inv(Remove(s, p, ok))
  {
    var t := Remove(s, p, ok);
    if t != s {
      DeleteHitsFinalRecord(s, p);
      var id := s.pollers[p].id;
      hide TableOk, WorkersOk, PollersOk, RowOf;
      RemovedTable(s, t, id);
      RemovedWorkers(s, t, id);
      RemovedPollers(s, t, p);
    }
  }

  /** No worker is responsible for a job that has ended. */
  lemma RemovedWorkers(s: Sys, t: Sys, id: string)
    requires WorkersOk(s) && id in s.ledgers && s.ledgers[id].end.Some?
    requires t == s.(table := t.table, pollers := t.pollers) && (t.table == s.table || t.table == s.table - {id})
    ensures WorkersOk(t)
  {
    forall w <- s.workers
      ensures Drives(t, s.workers[w])
    {
      assert Drives(s, s.workers[w]);
      hide AtPoint;
    }
    hide Drives;
  }

  lemma AnswerInv(s: Sys, p: nat)
    requires Inv(s)
    ensures Inv(s.(pollers := s.pollers - {p}))
  {
    hide TableOk, WorkersOk, ClaimsOk, PollerOk;
    var t := s.(pollers := s.pollers - {p});
    OnlyPollers(s, t);
    SameTable(s, t);
    forall q <- t.pollers
      ensures PollerOk(t, t.pollers[q])
    {
      SamePoller(s, t, s.pollers[q]);
    }
  }

  lemma StepInv(s: Sys, e: Event)
    requires Inv(s)
    ensures Inv(Step(s, e))
  {
    hide Inv, Create, Lock, Commit, Look, Remove, WorkerStep;
    match e
    case CreateJob(id, user, session, metadata, now, _) => CreateInv(s, id, T.NewRow(user, session, metadata, now));
    case LockOldest(w, id) => LockInv(s, w, id);
    case CommitClaim(w) => CommitInv(s, w);
    case Select(p, user, id) => LookInv(s, p, user, id);
    case Delete(p, ok) => RemoveInv(s, p, ok);
    case Answer(p) => AnswerInv(s, p);
    case _ => WorkerStepInv(s, e.worker, e);
  }

  lemma {:induction false} RunInv(s: Sys, events: seq<Event>)
    requires Inv(s)
    ensures Inv(Run(s, events))
    decreases |events|
  {
    if events != [] {
      StepInv(s, events[0]);
      RunInv(Step(s, events[0]), events[1..]);
    }
  }
}
