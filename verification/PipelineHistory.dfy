/** What whole runs of the pipeline guarantee about a job, over any interleaving of workers and pollers. */
module PipelineHistory {
  import opened Wrappers
  import opened Ledgers
  import opened Pipeline
  import opened PipelineInvariants
  import T = ImportTypes

  /** From `s` on, `t` can follow: histories only grow, and a row that is gone stays gone. */
  ghost predicate Later(s: Sys, t: Sys) {
    && (forall id <- s.origins :: id in t.origins && t.origins[id] == s.origins[id])
    && (forall id <- s.ledgers :: id in t.ledgers && Extends(s.ledgers[id], t.ledgers[id]))
    && (forall id <- s.origins | id !in s.table :: id !in t.table)
    && s.claims <= t.claims
  }

  lemma LaterRefl(s: Sys)
    ensures Later(s, s)
  {
  }

  lemma LaterOn(s: Sys, t: Sys, u: Sys)
    requires Later(s, t) && Later(t, u)
    ensures Later(s, u)
  {
    hide Extends;
    forall id <- s.ledgers
      ensures id in u.ledgers && Extends(s.ledgers[id], u.ledgers[id])
    {
      ExtendsOn(s.ledgers[id], t.ledgers[id], u.ledgers[id]);
    }
  }

  /** A statement of a driving worker: only its job's ledger grows. */
  lemma JobLater(s: Sys, t: Sys, w: nat, l: Ledger)
    requires JobMoves(s, t, w, l) && s.workers[w].job.id in s.ledgers && s.workers[w].job.id in s.table
    requires Extends(s.ledgers[s.workers[w].job.id], l)
    ensures Later(s, t)
  {
    hide Extends, RowOf;
    forall id <- s.ledgers
      ensures Extends(s.ledgers[id], t.ledgers[id])
    {
      ExtendsRefl(s.ledgers[id]);
    }
  }

  /** Steps that leave the histories alone. */
  lemma SameHistoryLater(s: Sys, t: Sys)
    requires t.origins == s.origins && t.ledgers == s.ledgers && t.claims == s.claims
    requires t.table.Keys <= s.table.Keys
    ensures Later(s, t)
  {
    hide Extends;
    forall id <- s.ledgers
      ensures Extends(s.ledgers[id], s.ledgers[id])
    {
      ExtendsRefl(s.ledgers[id]);
    }
  }

  lemma WorkerStepLater(s: Sys, w: nat, e: Event)
    requires Inv(s)
    ensures Later(s, WorkerStep(s, w, e))
    ensures WorkerStep(s, w, e).origins == s.origins
  {
    hide Inv, GoodMove, Later;
    var t := WorkerStep(s, w, e);
    if w in s.workers && Driving(s.workers[w]) {
      hide WorkerStep;
      DrivingFacts(s, w);
      DrivingStepMoves(s, w, e);
      var l :| GoodMove(s, t, w, l);
      GoodMoveLater(s, t, w, l);
    } else {
      SameHistoryLater(s, t);
    }
  }

  lemma GoodMoveLater(s: Sys, t: Sys, w: nat, l: Ledger)
    requires GoodMove(s, t, w, l) && s.workers[w].job.id in s.table
    ensures Later(s, t) && t.origins == s.origins
  {
    hide LedgerOk, AtPoint, RowOf, Extends, Later;
    JobLater(s, t, w, l);
  }

  lemma CommitLater(s: Sys, w: nat)
    requires Inv(s)
    ensures Later(s, Commit(s, w)) && Commit(s, w).origins == s.origins
  {
    hide TableOk, ClaimsOk, PollersOk, RowOf, Extends;
    var t := Commit(s, w);
    if t == s {
      LaterRefl(s);
    } else {
      assert Drives(s, s.workers[w]);
      hide WorkersOk;
      forall id <- s.ledgers
        ensures id in t.ledgers && Extends(s.ledgers[id], t.ledgers[id])
      {
        ExtendsRefl(s.ledgers[id]);
      }
    }
  }

  lemma CreateLater(s: Sys, id: string, row: T.Row)
    ensures Later(s, Create(s, id, row))
  {
    hide Extends;
    forall other <- s.ledgers
      ensures Extends(s.ledgers[other], s.ledgers[other])
    {
      ExtendsRefl(s.ledgers[other]);
    }
  }

  lemma StepLater(s: Sys, e: Event)
    requires Inv(s)
    ensures Later(s, Step(s, e))
    ensures !e.CreateJob? ==> Step(s, e).origins == s.origins
  {
    hide Inv, Later, Create, Commit, WorkerStep;
    match e
    case CreateJob(id, user, session, metadata, now, ok) =>
      CreateLater(s, id, T.NewRow(user, session, metadata, now));
      LaterRefl(s);
    case CommitClaim(w) => CommitLater(s, w);
    case LockOldest(_, _) => SameHistoryLater(s, Step(s, e));
    case Select(_, _, _) => SameHistoryLater(s, Step(s, e));
    case Delete(_, _) => SameHistoryLater(s, Step(s, e));
    case Answer(_) => SameHistoryLater(s, Step(s, e));
    case _ => WorkerStepLater(s, e.worker, e);
  }

  lemma {:induction false} RunLater(s: Sys, events: seq<Event>)
    requires Inv(s)
    ensures Inv(Run(s, events)) && Later(s, Run(s, events))
    decreases |events|
  {
    if events == [] {
      LaterRefl(s);
    } else {
      var t := Step(s, events[0]);
      StepInv(s, events[0]);
      StepLater(s, events[0]);
      RunLater(t, events[1..]);
      LaterOn(s, t, Run(t, events[1..]));
    }
  }

  // ----- the life of one job -----

  /** The last sight of a job: its row if it has one, else the final record it ended with. */
  function LastRecord(s: Sys, id: string): T.Row
    requires id in s.origins
  {
    RowFromHistory(s, id)
  }

  /**
    Whatever happens after `s`: a job's record only moves forward (pending, running, complete or failed), a terminal
    record never changes again, counts never shrink and the total is set at most once; the row itself disappears only
    after the end, and never comes back.
   */
  lemma JobLife(s: Sys, events: seq<Event>, id: string)
    requires Inv(s) && id in s.origins
    ensures var t := Run(s, events);
            && id in t.origins && RowLater(LastRecord(s, id), LastRecord(t, id))
            && (id in s.table ==> s.table[id] == LastRecord(s, id))
            && (id in t.table ==> id in s.table && t.table[id] == LastRecord(t, id))
            && (id !in t.table ==> LastRecord(t, id).status.Terminal())
  {
    var t := Run(s, events);
    RunLater(s, events);
    RecordLater(s, t, id);
    assert id !in t.table ==> LastRecord(t, id).status.Terminal();
    hide RowOf, Run, LedgerOk, WorkersOk;
  }

  lemma RecordLater(s: Sys, t: Sys, id: string)
    requires Inv(s) && Inv(t) && Later(s, t) && id in s.origins
    ensures id in t.origins && RowLater(LastRecord(s, id), LastRecord(t, id))
  {
    assert t.origins[id] == s.origins[id] && BlankRow(s.origins[id]);
    if id in s.ledgers {
      assert LedgerOk(s.ledgers[id]);
      ExtendedRow(s.origins[id], s.ledgers[id], t.ledgers[id]);
    } else if id in t.ledgers {
      ClaimedRow(s.origins[id], t.ledgers[id]);
    }
    hide RowOf, WorkersOk, Extends;
  }

  /** A final record stays the final record. */
  lemma FinalStaysFinal(s: Sys, t: Sys, id: string, row: T.Row)
    requires Later(s, t) && FinalRecord(s, id, row)
    ensures FinalRecord(t, id, row)
  {
    hide RowOf;
  }

  /** Once a DELETE has taken effect every later SELECT of that job finds nothing. */
  lemma DeletedIsGoneForGood(s: Sys, p: nat, events: seq<Event>, user: string)
    requires Inv(s) && p in s.pollers && s.pollers[p].Deleting?
    ensures T.Select(Run(Step(s, Delete(p, true)), events).table, user, s.pollers[p].id) == None
  {
    var t := Step(s, Delete(p, true));
    var id := s.pollers[p].id;
    DeleteHitsFinalRecord(s, p);
    StepInv(s, Delete(p, true));
    assert id !in t.table && id in t.origins;
    hide Inv, Step, FinalRecord;
    RunLater(t, events);
  }

  /** Over a whole run each job is claimed at most once, and each of its items is handed to the sink at most once. */
  lemma ClaimedAndSunkAtMostOnce(events: seq<Event>)
    ensures var s := Run(INIT, events);
            && NoRepeats(s.claims)
            && (forall id <- s.ledgers :: id in s.claims && InItemOrder(s.ledgers[id].calls)
                                          && forall c <- s.ledgers[id].calls :: c.item < |Items(s.ledgers[id])|)
            && (forall v <- s.workers, w <- s.workers ::
                  v != w && Held(s.workers[v]).Some? ==> Held(s.workers[v]) != Held(s.workers[w]))
  {
    InitInv();
    RunInv(INIT, events);
    hide Run, Drives, PollersOk, RowOf;
  }

  /** Locked rows are locked by one claim each. */
  lemma NoTwoClaimersHoldARow(events: seq<Event>, v: nat, w: nat)
    requires var s := Run(INIT, events); v in s.workers && w in s.workers && s.workers[v].Claiming? && s.workers[w] == s.workers[v]
    ensures v == w
  {
    InitInv();
    RunInv(INIT, events);
    hide Run, Drives, TableOk, PollersOk, ClaimsOk;
  }

  // ----- no failing store calls -----

  predicate Faultless(e: Event) {
    match e
    case MarkFailed(_, ok) => ok
    case SetTotal(_, ok) => ok
    case RecordSuccess(_, ok) => ok
    case RecordFailure(_, ok) => ok
    case MarkComplete(_, ok) => ok
    case _ => true
  }

  /** Nothing is lost or mislaid, and the total is known before the first item. */
  predicate LosslessLedger(l: Ledger) {
    && Losses(l.outcomes) == 0 && Mislaid(l.outcomes) == 0
    && (l.outcomes != [] || l.end == Some(Succeeded) ==> l.totalSet)
  }

  /** A worker past its total has recorded it, and blames an item only if the sink does not keep it. */
  predicate LosslessAt(l: Ledger, pc: WorkerPc) {
    (PastTotal(pc) ==> l.totalSet) && (pc.Blaming? ==> pc.sunk == None)
  }

  ghost predicate Lossless(s: Sys) {
    && (forall id <- s.ledgers :: LosslessLedger(s.ledgers[id]))
    && (forall w <- s.workers | PastTotal(s.workers[w]) ::
          s.workers[w].job.id in s.ledgers && LosslessAt(s.ledgers[s.workers[w].job.id], s.workers[w]))
  }

  predicate PastTotal(pc: WorkerPc) {
    pc.Fetching? || pc.Saving? || pc.Recording? || pc.Blaming? || pc.Completing?
  }

  lemma {:induction false} RunLossless(s: Sys, events: seq<Event>)
    requires Inv(s) && Lossless(s) && forall e <- events :: Faultless(e)
    ensures Lossless(Run(s, events))
    decreases |events|
  {
    if events != [] {
      StepInv(s, events[0]);
      StepLossless(s, events[0]);
      RunLossless(Step(s, events[0]), events[1..]);
    }
  }

  lemma StepLossless(s: Sys, e: Event)
    requires Inv(s) && Lossless(s) && Faultless(e)
    ensures Lossless(Step(s, e))
  {
    hide Inv, Lossless, Commit, WorkerStep;
    match e
    case CreateJob(_, _, _, _, _, _) => SameLossless(s, Step(s, e));
    case LockOldest(w, id) => SameLossless(s, Step(s, e));
    case Select(_, _, _) => SameLossless(s, Step(s, e));
    case Delete(_, _) => SameLossless(s, Step(s, e));
    case Answer(_) => SameLossless(s, Step(s, e));
    case CommitClaim(w) => CommitLossless(s, w);
    case _ => WorkerStepLossless(s, e.worker, e);
  }

  /** Ledgers stand still, and no worker comes past its total. */
  lemma SameLossless(s: Sys, t: Sys)
    requires Lossless(s) && t.ledgers == s.ledgers
    requires forall w <- t.workers | PastTotal(t.workers[w]) :: w in s.workers && s.workers[w] == t.workers[w]
    ensures Lossless(t)
  {
    hide LosslessLedger, LosslessAt;
  }

  lemma CommitLossless(s: Sys, w: nat)
    requires Inv(s) && Lossless(s)
    ensures Lossless(Commit(s, w))
  {
    hide TableOk, ClaimsOk, PollersOk, LosslessLedger, LosslessAt;
    if Commit(s, w) != s {
      assert Drives(s, s.workers[w]);
      hide WorkersOk, Drives;
      FreshLossless();
    }
  }

  lemma FreshLossless()
    ensures LosslessLedger(FRESH)
  {
  }

  /** The worker's own job stays lossless, and the others do not move. */
  lemma OwnLossless(s: Sys, t: Sys, w: nat, l: Ledger)
    requires Inv(s) && Lossless(s) && GoodMove(s, t, w, l)
    requires LosslessLedger(l) && (w in t.workers ==> LosslessAt(l, t.workers[w]))
    ensures Lossless(t)
  {
    hide LedgerOk, AtPoint, RowOf, Extends, LosslessLedger, LosslessAt, TableOk, ClaimsOk, PollersOk, Drives;
    forall v <- t.workers | PastTotal(t.workers[v])
      ensures t.workers[v].job.id in t.ledgers && LosslessAt(t.ledgers[t.workers[v].job.id], t.workers[v])
    {
      if v != w {
        assert Held(s.workers[v]) != Held(s.workers[w]);
      }
    }
  }

  lemma LosslessSoFar(s: Sys, w: nat)
    requires Inv(s) && Lossless(s) && w in s.workers && Driving(s.workers[w])
    ensures var id := s.workers[w].job.id;
            id in s.ledgers && LosslessLedger(s.ledgers[id]) && LosslessAt(s.ledgers[id], s.workers[w])
  {
    DrivingFacts(s, w);
    hide Inv, LosslessLedger;
  }

  lemma WorkerStepLossless(s: Sys, w: nat, e: Event)
    requires Inv(s) && Lossless(s) && Faultless(e)
    ensures Lossless(WorkerStep(s, w, e))
  {
    hide Inv, Lossless, GoodMove, LosslessLedger, LosslessAt;
    var t := WorkerStep(s, w, e);
    if w in s.workers && Driving(s.workers[w]) {
      DrivingFacts(s, w);
      DrivingStepMoves(s, w, e);
      var l :| GoodMove(s, t, w, l);
      MovedLedger(s, t, w, l);
      LosslessSoFar(s, w);
      WorkerLossless(s, w, e);
      hide WorkerStep;
      OwnLossless(s, t, w, l);
    } else {
      SameLossless(s, t);
    }
  }

  lemma MovedLedger(s: Sys, t: Sys, w: nat, l: Ledger)
    requires GoodMove(s, t, w, l)
    ensures s.workers[w].job.id in t.ledgers && t.ledgers[s.workers[w].job.id] == l
  {
    hide LedgerOk, AtPoint, RowOf, Extends;
  }

  /** The ledger of `w`'s job is lossless, and so is `w`. */
  predicate LosslessFor(s: Sys, w: nat, id: string) {
    id in s.ledgers && LosslessLedger(s.ledgers[id]) && (w in s.workers ==> LosslessAt(s.ledgers[id], s.workers[w]))
  }

  lemma OutcomeLossless(s: Sys, w: nat, row: T.Row, o: ItemOutcome)
    requires w in s.workers && (s.workers[w].Recording? || s.workers[w].Blaming?)
    requires LosslessFor(s, w, s.workers[w].job.id) && (o.Saved? || o == Counted(None))
    ensures var job := s.workers[w].job;
            LosslessFor(Outcome(s.(table := s.table[job.id := row]), w, job, s.workers[w].item, o), w, job.id)
  {
    MoreOutcome(s.ledgers[s.workers[w].job.id].outcomes, o);
    hide Losses, Mislaid, SavedIds, Failures, Items;
  }

  lemma TotalLossless(s: Sys, w: nat)
    requires w in s.workers && s.workers[w].Totalling? && LosslessFor(s, w, s.workers[w].job.id)
    ensures LosslessFor(Total(s, w, s.workers[w].job, true), w, s.workers[w].job.id)
  {
    hide Losses, Mislaid, Items, T.SetTotal;
  }

  /** What a worker's faultless statement does to a lossless ledger. */
  lemma WorkerLossless(s: Sys, w: nat, e: Event)
    requires w in s.workers && Driving(s.workers[w]) && Faultless(e) && s.workers[w].job.id in s.table
    requires LosslessFor(s, w, s.workers[w].job.id)
    ensures LosslessFor(WorkerStep(s, w, e), w, s.workers[w].job.id)
  {
    hide Losses, Mislaid, Items, Total, Outcome, T.MarkComplete, T.MarkFailed, T.SetTotal, T.RecordItemSuccess, T.RecordItemFailure;
    match (e, s.workers[w])
    case (RecordSuccess(_, ok), Recording(job, item, savedId)) =>
      RecordedRow(s.table, job.id, savedId);
      OutcomeLossless(s, w, T.RecordItemSuccess(s.table, job.id, savedId)[job.id], Saved(savedId));
      hide LosslessFor;
    case (RecordFailure(_, ok), Blaming(job, item, sunk)) =>
      BlamedRow(s.table, job.id);
      OutcomeLossless(s, w, T.RecordItemFailure(s.table, job.id)[job.id], Counted(sunk));
      hide LosslessFor;
    case (SetTotal(_, ok), Totalling(job)) => TotalLossless(s, w);
    case _ =>
  }

  lemma RecordedRow(t: T.Table, id: string, savedId: string)
    requires id in t
    ensures id in T.RecordItemSuccess(t, id, savedId)
    ensures T.RecordItemSuccess(t, id, savedId) == t[id := T.RecordItemSuccess(t, id, savedId)[id]]
  {
  }

  lemma BlamedRow(t: T.Table, id: string)
    requires id in t
    ensures id in T.RecordItemFailure(t, id) && T.RecordItemFailure(t, id) == t[id := T.RecordItemFailure(t, id)[id]]
  {
  }

  /**
    With no failing store call, at every moment of every run: completed + failed <= total for a running job, and the saved
    ids are in order exactly the ids the sink has returned for the items done; a complete job has completed + failed ==
    total == the length of all pages together, and its saved ids are all the sink ever returned.
   */
  lemma CountsAddUp(events: seq<Event>, id: string)
    requires forall e <- events :: Faultless(e)
    requires id in Run(INIT, events).ledgers
    ensures var s := Run(INIT, events);
            && id in s.origins && LedgerOk(s.ledgers[id])
            && var row := LastRecord(s, id);
              && row.completed == |row.savedIds|
              && row.completed + row.failed <= row.total
              && row.savedIds == Kept(Settled(s.ledgers[id]))
              && (row.status.Complete? ==> row.completed + row.failed == row.total == |Items(s.ledgers[id])|
                                           && row.savedIds == Kept(s.ledgers[id].calls))
              && (row.status.Failed? ==> row.total == 0 && row.savedIds == [])
  {
    hide Run, Inv, Lossless;
    var s := Run(INIT, events);
    InitInv();
    RunInv(INIT, events);
    InitLossless();
    RunLossless(INIT, events);
    LosslessRecord(s, id);
  }

  lemma InitLossless()
    ensures Lossless(INIT)
  {
  }

  lemma LosslessRecord(s: Sys, id: string)
    requires Inv(s) && Lossless(s) && id in s.ledgers
    ensures id in s.origins && LedgerOk(s.ledgers[id]) && LosslessLedger(s.ledgers[id])
    ensures var row := LastRecord(s, id);
            && row.completed == |row.savedIds|
            && row.completed + row.failed <= row.total
            && row.savedIds == Kept(Settled(s.ledgers[id]))
            && (row.status.Complete? ==> row.completed + row.failed == row.total == |Items(s.ledgers[id])|
                                         && row.savedIds == Kept(s.ledgers[id].calls))
            && (row.status.Failed? ==> row.total == 0 && row.savedIds == [])
  {
    var l := s.ledgers[id];
    assert id in s.origins && LedgerOk(l) && LosslessLedger(l);
    hide Inv, Lossless;
    OutcomesAddUp(l.outcomes);
    SavedIdsAreKeptIff(l);
    hide Items, Settled, Kept, AsTold;
  }

  // ----- the queue -----

  /**
    The number of pending jobs is a measure for draining: nothing but a new job makes it grow, whoever is working, and a
    committed claim makes it smaller.
   */
  lemma PendingShrinks(s: Sys, e: Event)
    requires Inv(s) && !e.CreateJob?
    ensures T.PendingIds(Step(s, e).table) <= T.PendingIds(s.table)
    ensures |T.PendingIds(Step(s, e).table)| <= |T.PendingIds(s.table)|
    ensures e.CommitClaim? && Step(s, e) != s ==> |T.PendingIds(Step(s, e).table)| < |T.PendingIds(s.table)|
  {
    hide Inv, Later;
    var t := Step(s, e);
    StepInv(s, e);
    StepLater(s, e);
    StillPending(s, t);
    if e.CommitClaim? && t != s {
      CommitTakesOne(s, e.worker);
      hide Step;
      SmallerSet(T.PendingIds(t.table), T.PendingIds(s.table) - {s.workers[e.worker].id});
    } else {
      hide Step;
      SmallerSet(T.PendingIds(t.table), T.PendingIds(s.table));
    }
  }

  lemma CommitTakesOne(s: Sys, w: nat)
    requires Inv(s) && Commit(s, w) != s
    ensures s.workers[w].id in T.PendingIds(s.table) && s.workers[w].id !in T.PendingIds(Commit(s, w).table)
  {
    hide TableOk, PollersOk, ClaimsOk;
    assert Drives(s, s.workers[w]);
    PendingUnclaimed(s, s.workers[w].id);
  }

  lemma StillPending(s: Sys, t: Sys)
    requires Inv(s) && Inv(t) && Later(s, t) && t.origins == s.origins
    ensures T.PendingIds(t.table) <= T.PendingIds(s.table)
  {
    hide WorkersOk, ClaimsOk, PollersOk, Extends, LedgerOk;
    forall id <- T.PendingIds(t.table)
      ensures id in T.PendingIds(s.table)
    {
      PendingUnclaimed(t, id);
      PendingUnclaimed(s, id);
    }
  }

  lemma {:induction false} SmallerSet<X>(a: set<X>, b: set<X>)
    requires a <= b
    ensures |a| <= |b|
    decreases |a|
  {
    if a != {} {
      var x :| x in a;
      SmallerSet(a - {x}, b - {x});
    }
  }

  // ----- readers of a final record -----

  /** The DELETE of a `Get` of job `id` takes effect. */
  predicate DeletesNow(s: Sys, e: Event, id: string) {
    e.Delete? && e.ok && e.poller in s.pollers && s.pollers[e.poller].Deleting? && s.pollers[e.poller].id == id
  }

  predicate Deleted(s: Sys, events: seq<Event>, id: string)
    decreases |events|
  {
    events != [] && (DeletesNow(s, events[0], id) || Deleted(Step(s, events[0]), events[1..], id))
  }

  /** Only a DELETE removes a row. */
  lemma RowStays(s: Sys, e: Event, id: string)
    requires Inv(s) && id in s.table && !DeletesNow(s, e, id)
    ensures id in Step(s, e).table
  {
    hide Inv, WorkerStep, T.Oldest, Locked;
    if !e.CreateJob? && !e.LockOldest? && !e.CommitClaim? && !e.Select? && !e.Delete? && !e.Answer? {
      WorkersKeepRows(s, e.worker, e);
    }
  }

  lemma WorkersKeepRows(s: Sys, w: nat, e: Event)
    requires Inv(s)
    ensures WorkerStep(s, w, e).table.Keys == s.table.Keys
  {
    hide Inv, LedgerOk, AtPoint, Extends, RowOf;
    if w in s.workers && Driving(s.workers[w]) {
      DrivingFacts(s, w);
      DrivingStepMoves(s, w, e);
      hide WorkerStep;
    }
  }

  /** A final record does not change while its row is there. */
  lemma FinalRowStays(s: Sys, e: Event, id: string)
    requires Inv(s) && id in s.table && s.table[id].status.Terminal() && !DeletesNow(s, e, id)
    ensures id in Step(s, e).table && Step(s, e).table[id] == s.table[id]
  {
    hide Inv, Step, LastRecord, DeletesNow;
    RowStays(s, e, id);
    OneStepLife(s, e, id);
  }

  lemma OneStepLife(s: Sys, e: Event, id: string)
    requires Inv(s) && id in s.table && id in Step(s, e).table
    ensures RowLater(s.table[id], Step(s, e).table[id])
  {
    hide Inv, Step, RowLater, LastRecord;
    assert Run(Step(s, e), []) == Step(s, e) && Run(s, [e]) == Step(s, e);
    assert id in s.origins by {
      InTable(s, id);
    }
    JobLife(s, [e], id);
  }

  lemma InTable(s: Sys, id: string)
    requires Inv(s) && id in s.table
    ensures id in s.origins
  {
    hide RowOf, WorkersOk, PollersOk, ClaimsOk;
  }

  lemma GoneAfterDelete(s: Sys, e: Event, id: string)
    requires Inv(s) && DeletesNow(s, e, id)
    ensures id !in Step(s, e).table && id in Step(s, e).origins
  {
    hide Inv, RowOf, WorkerStep;
    DeleteHitsFinalRecord(s, e.poller);
  }

  /**
    Exactly when a reader gets a final record: until the DELETE of some `Get` of that job has taken effect, every SELECT of
    the owner finds it, and afterwards none does, whatever else happens.
   */
  lemma {:induction false} FinalReadIff(s: Sys, events: seq<Event>, user: string, id: string)
    requires Inv(s) && id in s.table && s.table[id].status.Terminal() && s.table[id].user == user
    ensures T.Select(Run(s, events).table, user, id) == if Deleted(s, events, id) then None else Some(s.table[id])
    decreases |events|
  {
    hide Inv, Step, DeletesNow;
    if events != [] {
      var t := Step(s, events[0]);
      StepInv(s, events[0]);
      if DeletesNow(s, events[0], id) {
        GoneAfterDelete(s, events[0], id);
        RunLater(t, events[1..]);
      } else {
        FinalRowStays(s, events[0], id);
        FinalReadIff(t, events[1..], user, id);
      }
    }
  }

  /** A worker takes a new job with nothing to import to its end. */
  function EmptyJob(id: string, user: string, session: string): seq<Event> {
    [CreateJob(id, user, session, None, 0, true), LockOldest(0, id), CommitClaim(0),
     PageArrives(0, [], true), SetTotal(0, true), MarkComplete(0, true)]
  }

  lemma EmptyJobClaimed(id: string, user: string, session: string)
    ensures var s := Run(INIT, EmptyJob(id, user, session)[..3]);
            && s.table.Keys == {id} && s.table[id].user == user && s.origins.Keys == {id} && s.origins[id].user == user
            && s.origins[id].session == session && s.pollers == map[] && s.ledgers == map[id := FRESH]
            && s.workers.Keys == {0} && s.workers[0].Listing? && s.workers[0].job.id == id
  {
    var events := EmptyJob(id, user, session)[..3];
    var a := Step(INIT, events[0]);
    assert a.table == map[id := T.NewRow(user, session, None, 0)];
    var b := Step(a, events[1]);
    assert Locked(a) == {};
    assert T.Oldest(a.table, {}, id);
    assert b == a.(workers := map[0 := Claiming(id)]);
    hide T.Oldest, Locked;
    assert Run(Step(b, events[2]), []) == Step(b, events[2]);
    assert events[1..][1..] == [events[2]] && Run(b, [events[2]]) == Step(b, events[2]);
    assert Run(a, events[1..]) == Run(b, events[1..][1..]);
  }

  lemma EmptyJobCompletes(id: string, user: string, session: string)
    ensures var s := Run(INIT, EmptyJob(id, user, session));
            && Inv(s) && id in s.table && s.table[id].user == user && s.table[id].status.Complete?
            && id in s.origins && s.origins[id].user == user && s.origins[id].session == session
            && id in s.ledgers && s.ledgers[id].end == Some(Succeeded) && s.pollers == map[]
  {
    hide Inv;
    var events := EmptyJob(id, user, session);
    EmptyJobClaimed(id, user, session);
    InitInv();
    RunInv(INIT, events);
    var s := Run(INIT, events[..3]);
    RunSplit(INIT, events, 3);
    FinishEmpty(s, id);
  }

  lemma FinishEmpty(s: Sys, id: string)
    requires id in s.table && id in s.origins && id in s.ledgers && s.ledgers[id] == FRESH && s.pollers == map[]
    requires 0 in s.workers && s.workers[0].Listing? && s.workers[0].job.id == id
    ensures var t := Run(s, [PageArrives(0, [], true), SetTotal(0, true), MarkComplete(0, true)]);
            && id in t.table && t.table[id].user == s.table[id].user && t.table[id].status.Complete?
            && t.origins == s.origins && t.pollers == map[]
            && id in t.ledgers && t.ledgers[id].end == Some(Succeeded)
  {
    var a := Step(s, PageArrives(0, [], true));
    var b := Step(a, SetTotal(0, true));
    EmptyPage(s, id);
    NothingToFetch(a, id);
    Completes(b, id);
    hide Step;
    RunThree(s, PageArrives(0, [], true), SetTotal(0, true), MarkComplete(0, true));
  }

  lemma EmptyPage(s: Sys, id: string)
    requires id in s.ledgers && s.ledgers[id] == FRESH
    requires 0 in s.workers && s.workers[0].Listing? && s.workers[0].job.id == id
    ensures var t := Step(s, PageArrives(0, [], true));
            && t == s.(ledgers := t.ledgers, workers := t.workers)
            && 0 in t.workers && t.workers[0] == Totalling(s.workers[0].job) && id in t.ledgers && Items(t.ledgers[id]) == []
  {
    FlattenMore(FRESH.pages, []);
  }

  lemma NothingToFetch(s: Sys, id: string)
    requires id in s.ledgers && Items(s.ledgers[id]) == [] && id in s.table
    requires 0 in s.workers && s.workers[0].Totalling? && s.workers[0].job.id == id
    ensures var t := Step(s, SetTotal(0, true));
            && t == s.(table := t.table, ledgers := t.ledgers, workers := t.workers)
            && id in t.table && t.table[id].user == s.table[id].user && id in t.ledgers
            && 0 in t.workers && t.workers[0] == Completing(s.workers[0].job)
  {
    hide Flatten;
  }

  lemma Completes(s: Sys, id: string)
    requires id in s.table && id in s.ledgers && 0 in s.workers && s.workers[0].Completing? && s.workers[0].job.id == id
    ensures var t := Step(s, MarkComplete(0, true));
            && t == s.(table := t.table, ledgers := t.ledgers, workers := t.workers)
            && id in t.table && t.table[id].user == s.table[id].user && t.table[id].status.Complete?
            && id in t.ledgers && t.ledgers[id].end == Some(Succeeded)
  {
  }

  lemma RunThree(s: Sys, e: Event, d: Event, c: Event)
    ensures Run(s, [e, d, c]) == Step(Step(Step(s, e), d), c)
  {
    hide Step;
    var t := Step(Step(s, e), d);
    assert [e, d, c][1..] == [d, c] && [d, c][1..] == [c] && [c][1..] == [];
    assert Run(t, [c]) == Run(Step(t, c), []) == Step(t, c);
    assert Run(Step(s, e), [d, c]) == Run(t, [c]);
  }

  lemma {:induction false} RunSplit(s: Sys, events: seq<Event>, n: nat)
    requires n <= |events|
    ensures Run(s, events) == Run(Run(s, events[..n]), events[n..])
    decreases n
  {
    hide Step;
    if n == 0 {
      assert events[0..] == events;
    } else {
      assert events[..n][1..] == events[1..][..n - 1] && events[1..][n - 1..] == events[n..];
      RunSplit(Step(s, events[0]), events[1..], n - 1);
    }
  }

  /**
    So two pollers may both read the final record, if the second SELECT comes before the first DELETE; it does happen in a
    run from the empty table.
   */
  lemma FinalRecordReadTwice(id: string, user: string, session: string)
    ensures var gets := [Select(1, user, id), Select(2, user, id), Delete(1, true), Delete(2, true)];
            var s := Run(INIT, EmptyJob(id, user, session));
            var t := Run(INIT, EmptyJob(id, user, session) + gets);
            && id in s.table && s.table[id].status.Complete? && id !in t.table
            && 1 in t.pollers && t.pollers[1] == Answering(user, id, Some(s.table[id]))
            && 2 in t.pollers && t.pollers[2] == Answering(user, id, Some(s.table[id]))
  {
    hide Inv;
    var trace := EmptyJob(id, user, session);
    var gets := [Select(1, user, id), Select(2, user, id), Delete(1, true), Delete(2, true)];
    EmptyJobCompletes(id, user, session);
    RunSplit(INIT, trace + gets, |trace|);
    assert (trace + gets)[..|trace|] == trace && (trace + gets)[|trace|..] == gets;
    hide EmptyJob;
    TwoReaders(Run(INIT, trace), user, id);
  }

  lemma TwoReaders(s: Sys, user: string, id: string)
    requires s.pollers == map[] && id in s.table && s.table[id].user == user && s.table[id].status.Terminal()
    ensures var t := Run(s, [Select(1, user, id), Select(2, user, id), Delete(1, true), Delete(2, true)]);
            && id !in t.table
            && 1 in t.pollers && t.pollers[1] == Answering(user, id, Some(s.table[id]))
            && 2 in t.pollers && t.pollers[2] == Answering(user, id, Some(s.table[id]))
  {
    var a := Step(s, Select(1, user, id));
    var b := Step(a, Select(2, user, id));
    assert b.pollers == map[1 := Deleting(user, id, s.table[id]), 2 := Deleting(user, id, s.table[id])] && b.table == s.table;
    DeleteBoth(b, user, id);
    hide Step;
    RunThree(a, Select(2, user, id), Delete(1, true), Delete(2, true));
  }

  lemma DeleteBoth(s: Sys, user: string, id: string)
    requires id in s.table && s.table[id].user == user
    requires s.pollers == map[1 := Deleting(user, id, s.table[id]), 2 := Deleting(user, id, s.table[id])]
    ensures var t := Step(Step(s, Delete(1, true)), Delete(2, true));
            && id !in t.table && 1 in t.pollers && 2 in t.pollers
            && t.pollers[1] == t.pollers[2] == Answering(user, id, Some(s.table[id]))
  {
  }
}
