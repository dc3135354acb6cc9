/** Whether a claimed job still comes to an end. Nothing takes a job up again that its worker has left. */
module JobEnds {
  import opened Wrappers
  import opened Ledgers
  import opened Pipeline
  import opened PipelineInvariants
  import opened PipelineHistory
  import T = ImportTypes

  /** The job is claimed and has neither succeeded nor failed. */
  predicate Unfinished(s: Sys, id: string) {
    id in s.ledgers && s.ledgers[id].end == None
  }

  /** Nobody works on it any more. */
  predicate Abandoned(s: Sys, id: string) {
    Unfinished(s, id) && forall w <- s.workers :: Held(s.workers[w]) != Some(id)
  }

  /** It stays abandoned, and its row is there and the same. */
  predicate LeftAlone(s: Sys, t: Sys, id: string) {
    Abandoned(t, id) && id in s.table && id in t.table && t.table[id] == s.table[id]
  }

  predicate HasEnded(s: Sys, id: string) {
    id in s.ledgers && s.ledgers[id].end.Some?
  }

  // ----- an abandoned job stays as it is -----

  lemma AbandonedRow(s: Sys, id: string)
    requires Inv(s) && Unfinished(s, id)
    ensures id in s.table && id in s.origins && s.table[id].status.Running? && id in s.claims
  {
    hide WorkersOk, PollersOk, LedgerOk;
  }

  lemma WorkerLeavesAlone(s: Sys, w: nat, e: Event, id: string)
    requires Inv(s) && Abandoned(s, id)
    ensures LeftAlone(s, WorkerStep(s, w, e), id)
  {
    hide Inv, GoodMove, LedgerOk, AtPoint, RowOf, Extends;
    var t := WorkerStep(s, w, e);
    AbandonedRow(s, id);
    if w in s.workers && Driving(s.workers[w]) {
      hide WorkerStep;
      DrivingStepMoves(s, w, e);
      var l :| GoodMove(s, t, w, l);
      OthersUntouched(s, t, w, l, id);
    }
  }

  lemma OthersUntouched(s: Sys, t: Sys, w: nat, l: Ledger, id: string)
    requires GoodMove(s, t, w, l) && Abandoned(s, id) && id in s.table
    ensures Abandoned(t, id) && id in t.table && t.table[id] == s.table[id]
  {
    hide LedgerOk, AtPoint, RowOf, Extends;
    assert Held(s.workers[w]) == Some(s.workers[w].job.id);
  }

  lemma LookLeavesAlone(s: Sys, p: nat, user: string, other: string, id: string)
    requires Inv(s) && Abandoned(s, id)
    ensures LeftAlone(s, Look(s, p, user, other), id)
  {
    AbandonedRow(s, id);
    hide Inv, Abandoned;
    SamePlace(s, Look(s, p, user, other), id);
  }

  lemma AnswerLeavesAlone(s: Sys, p: nat, id: string)
    requires Inv(s) && Abandoned(s, id)
    ensures LeftAlone(s, s.(pollers := s.pollers - {p}), id) && LeftAlone(s, s, id)
  {
    AbandonedRow(s, id);
    hide Inv, Abandoned;
    SamePlace(s, s.(pollers := s.pollers - {p}), id);
    SamePlace(s, s, id);
  }

  lemma SamePlace(s: Sys, t: Sys, id: string)
    requires Abandoned(s, id) && id in s.table && t == s.(pollers := t.pollers)
    ensures LeftAlone(s, t, id)
  {
  }

  lemma UnfinishedIf(s: Sys, id: string)
    requires Abandoned(s, id)
    ensures Unfinished(s, id) && (Inv(s) ==> id in s.table && id in s.origins && s.table[id].status.Running?)
  {
    if Inv(s) {
      AbandonedRow(s, id);
    }
  }

  lemma DeleteLeavesAlone(s: Sys, p: nat, ok: bool, id: string)
    requires Inv(s) && Abandoned(s, id)
    ensures LeftAlone(s, Remove(s, p, ok), id)
  {
    hide Inv;
    AbandonedRow(s, id);
    if p in s.pollers && s.pollers[p].Deleting? {
      DeleteHitsFinalRecord(s, p);
      assert s.pollers[p].id != id;
    }
    hide RowOf, FinalRecord;
  }

  lemma LockLeavesAlone(s: Sys, w: nat, other: string, id: string)
    requires Inv(s) && Abandoned(s, id)
    ensures LeftAlone(s, Lock(s, w, other), id)
  {
    AbandonedRow(s, id);
    hide Inv, Locked;
    assert T.Oldest(s.table, Locked(s), other) ==> other != id;
    hide T.Oldest;
  }

  lemma CreateLeavesAlone(s: Sys, other: string, row: T.Row, id: string)
    requires Inv(s) && Abandoned(s, id)
    ensures LeftAlone(s, Create(s, other, row), id)
  {
    AbandonedRow(s, id);
    hide Inv;
  }

  lemma CommitLeavesAlone(s: Sys, w: nat, id: string)
    requires Inv(s) && Abandoned(s, id)
    ensures LeftAlone(s, Commit(s, w), id)
  {
    AbandonedRow(s, id);
    if w in s.workers {
      assert Drives(s, s.workers[w]);
    }
    hide Inv;
    OtherCommit(s, w, id);
  }

  lemma OtherCommit(s: Sys, w: nat, id: string)
    requires Abandoned(s, id) && id in s.table
    requires w in s.workers && s.workers[w].Claiming? ==> s.workers[w].id != id
    ensures LeftAlone(s, Commit(s, w), id)
  {
  }

  lemma StepLeavesAlone(s: Sys, e: Event, id: string)
    requires Inv(s) && Abandoned(s, id)
    ensures LeftAlone(s, Step(s, e), id)
  {
    hide Inv, LeftAlone, Abandoned, Unfinished, Create, Lock, Commit, Look, Remove, WorkerStep, T.NewRow;
    match e
    case CreateJob(other, user, session, metadata, now, _) =>
      CreateLeavesAlone(s, other, T.NewRow(user, session, metadata, now), id);
      AnswerLeavesAlone(s, 0, id);
    case LockOldest(w, other) => LockLeavesAlone(s, w, other, id);
    case CommitClaim(w) => CommitLeavesAlone(s, w, id);
    case Select(p, user, other) => LookLeavesAlone(s, p, user, other, id);
    case Delete(p, ok) => DeleteLeavesAlone(s, p, ok, id);
    case Answer(p) => AnswerLeavesAlone(s, p, id);
    case _ => WorkerLeavesAlone(s, e.worker, e, id);
  }

  /**
    Whatever happens to the others, however many workers run: an abandoned job stays running for good. Its record never
    changes again, and its row is never deleted, so whoever polls it is told the same thing for ever.
   */
  lemma {:induction false} AbandonedStaysRunning(s: Sys, events: seq<Event>, id: string)
    requires Inv(s) && Abandoned(s, id)
    ensures var t := Run(s, events);
            && Inv(t) && Abandoned(t, id)
            && id in s.table && id in t.table && t.table[id] == s.table[id] && t.table[id].status.Running?
    decreases |events|
  {
    hide Inv, Step, Abandoned;
    if events == [] {
      UnfinishedIf(s, id);
    } else {
      StepInv(s, events[0]);
      StepLeavesAlone(s, events[0], id);
      AbandonedStaysRunning(Step(s, events[0]), events[1..], id);
    }
  }

  /** How a job comes to be abandoned: its worker dies, or the one statement that should end it fails. */
  lemma LastStatementFails(s: Sys, w: nat, e: Event)
    requires Inv(s) && w in s.workers && Driving(s.workers[w])
    requires || e == WorkerDies(w) || (s.workers[w].Completing? && e == MarkComplete(w, false))
             || (s.workers[w].Refusing? && e == MarkFailed(w, false))
    ensures Abandoned(Step(s, e), s.workers[w].job.id)
  {
    hide Inv, Abandoned, Step, Rest, Go;
    LeavingAbandons(s, w);
    LeavesJob(s, w, e);
  }

  lemma LeavesJob(s: Sys, w: nat, e: Event)
    requires w in s.workers && Driving(s.workers[w])
    requires || e == WorkerDies(w) || (s.workers[w].Completing? && e == MarkComplete(w, false))
             || (s.workers[w].Refusing? && e == MarkFailed(w, false))
    ensures Step(s, e) == if e.MarkComplete? then Go(s, w, Cleaning(s.workers[w].job)) else Rest(s, w)
  {
    hide Page, Total, Sink, Record, Blame, Create, Lock, Commit, Look, Remove, Locked, Go, Rest, Ended;
  }

  lemma LeavingAbandons(s: Sys, w: nat)
    requires Inv(s) && w in s.workers && Driving(s.workers[w])
    ensures var job := s.workers[w].job; Abandoned(Rest(s, w), job.id) && Abandoned(Go(s, w, Cleaning(job)), job.id)
  {
    hide Inv;
    DrivingUnfinished(s, w);
    NobodyElse(s, w);
  }

  lemma DrivingUnfinished(s: Sys, w: nat)
    requires Inv(s) && w in s.workers && Driving(s.workers[w])
    ensures Unfinished(s, s.workers[w].job.id)
  {
    hide Inv, LedgerOk, AtPoint, RowOf, InHand;
    DrivingFacts(s, w);
  }

  lemma NobodyElse(s: Sys, w: nat)
    requires Inv(s) && w in s.workers && Driving(s.workers[w])
    ensures forall v <- s.workers :: v != w ==> Held(s.workers[v]) != Some(s.workers[w].job.id)
  {
    assert Held(s.workers[w]) == Some(s.workers[w].job.id);
    hide TableOk, ClaimsOk, PollersOk, Drives;
  }

  // ----- a job that is worked on can be ended -----

  /** The shortest way on: listing fails, downloads fail, store calls succeed. */
  function Hurry(pc: WorkerPc, w: nat): Event {
    match pc
    case Claiming(_) => CommitClaim(w)
    case Listing(_) => PageFails(w, "")
    case Refusing(_, _) => MarkFailed(w, true)
    case Totalling(_) => SetTotal(w, true)
    case Fetching(_, _) => Download(w, false)
    case Saving(_, _) => SavePhoto(w, None)
    case Recording(_, _, _) => RecordSuccess(w, true)
    case Blaming(_, _, _) => RecordFailure(w, true)
    case Completing(_) => MarkComplete(w, true)
    case Cleaning(_) => SessionDeleted(w)
  }

  /** How far a worker with a job of `n` items is from its end. */
  function Distance(pc: WorkerPc, n: nat): int {
    match pc
    case Refusing(_, _) => 1
    case Listing(_) => 2
    case Completing(_) => 1
    case Fetching(_, item) => 4 * (n - item) + 3
    case Saving(_, item) => 4 * (n - item) + 2
    case Recording(_, item, _) => 4 * (n - item) + 1
    case Blaming(_, item, _) => 4 * (n - item) + 1
    case Totalling(_) => 4 * n + 4
    case _ => 0
  }

  /** The job has ended, or its worker is strictly closer to its end. */
  predicate Closer(s: Sys, t: Sys, w: nat)
    requires w in s.workers && Driving(s.workers[w])
  {
    var id := s.workers[w].job.id;
    && id in s.ledgers
    && (HasEnded(t, id)
        || (w in t.workers && Driving(t.workers[w]) && t.workers[w].job.id == id && id in t.ledgers
            && 0 <= Distance(t.workers[w], |Items(t.ledgers[id])|) < Distance(s.workers[w], |Items(s.ledgers[id])|)))
  }

  lemma HurryMoves(s: Sys, w: nat)
    requires Inv(s) && w in s.workers && Driving(s.workers[w])
    ensures Closer(s, Step(s, Hurry(s.workers[w], w)), w)
  {
    DrivingFacts(s, w);
    hide Inv, LedgerOk, RowOf, Items, InHand;
    match s.workers[w]
    case Refusing(_, _) => HurryEnd(s, w); hide Closer;
    case Completing(_) => HurryEnd(s, w); hide Closer;
    case Recording(_, _, _) => HurryItem(s, w); hide Closer;
    case Blaming(_, _, _) => HurryItem(s, w); hide Closer;
    case Totalling(_) => HurryTotal(s, w); hide Closer;
    case Listing(_) => HurryGo(s, w); hide Closer;
    case Fetching(_, _) => HurryGo(s, w); hide Closer;
    case Saving(_, _) => HurryGo(s, w); hide Closer;
  }

  lemma HurryEnd(s: Sys, w: nat)
    requires w in s.workers && (s.workers[w].Refusing? || s.workers[w].Completing?) && s.workers[w].job.id in s.ledgers
    ensures Closer(s, Step(s, Hurry(s.workers[w], w)), w)
  {
    hide Distance, Items, T.MarkFailed, T.MarkComplete;
  }

  lemma HurryGo(s: Sys, w: nat)
    requires w in s.workers && (s.workers[w].Listing? || s.workers[w].Fetching? || s.workers[w].Saving?)
    requires s.workers[w].job.id in s.ledgers
    requires !s.workers[w].Listing? ==> s.workers[w].item < |Items(s.ledgers[s.workers[w].job.id])|
    ensures Closer(s, Step(s, Hurry(s.workers[w], w)), w)
  {
    hide Flatten, HasEnded;
  }

  lemma HurryItem(s: Sys, w: nat)
    requires w in s.workers && (s.workers[w].Recording? || s.workers[w].Blaming?)
    requires s.workers[w].job.id in s.ledgers && s.workers[w].item < |Items(s.ledgers[s.workers[w].job.id])|
    ensures Closer(s, Step(s, Hurry(s.workers[w], w)), w)
  {
    hide Flatten, T.RecordItemSuccess, T.RecordItemFailure, HasEnded;
  }

  lemma HurryTotal(s: Sys, w: nat)
    requires w in s.workers && s.workers[w].Totalling? && s.workers[w].job.id in s.ledgers
    ensures Closer(s, Step(s, Hurry(s.workers[w], w)), w)
  {
    hide Flatten, T.SetTotal, HasEnded;
  }

  lemma CanEnd(s: Sys, w: nat) returns (events: seq<Event>)
    requires Inv(s) && w in s.workers && Driving(s.workers[w])
    ensures HasEnded(Run(s, events), s.workers[w].job.id)
    decreases var id := s.workers[w].job.id; if id in s.ledgers then Distance(s.workers[w], |Items(s.ledgers[id])|) else 0
  {
    hide Inv, Step, Distance, Items, HasEnded;
    var id := s.workers[w].job.id;
    var e := Hurry(s.workers[w], w);
    var t := Step(s, e);
    HurryMoves(s, w);
    StepInv(s, e);
    if HasEnded(t, id) {
      events := [e];
      OneStep(s, e);
    } else {
      var rest := CanEnd(t, w);
      events := [e] + rest;
      assert events[1..] == rest;
    }
  }

  /**
    In every state with the invariant: a claimed job that has not ended can still end, by some continuation of events, if
    and only if a worker is driving it.
   */
  lemma JobCanEndIff(s: Sys, id: string)
    requires Inv(s) && Unfinished(s, id)
    ensures (exists events :: HasEnded(Run(s, events), id)) <==> exists w <- s.workers :: Held(s.workers[w]) == Some(id)
  {
    if w :| w in s.workers && Held(s.workers[w]) == Some(id) {
      assert Drives(s, s.workers[w]);
      assert Driving(s.workers[w]) && s.workers[w].job.id == id;
      hide Inv, Run;
      var events := CanEnd(s, w);
    } else {
      assert Abandoned(s, id);
      hide Inv, Run;
      forall events: seq<Event>
        ensures !HasEnded(Run(s, events), id)
      {
        AbandonedStaysRunning(s, events, id);
      }
    }
  }

  /** It does happen, in a run from the empty table: a worker claims the job, and dies. */
  lemma JobsAreAbandoned(id: string, user: string, session: string)
    ensures Abandoned(Run(INIT, EmptyJob(id, user, session)[..3] + [WorkerDies(0)]), id)
  {
    var claimed := EmptyJob(id, user, session)[..3];
    var s := Run(INIT, claimed);
    InitInv();
    RunInv(INIT, claimed);
    EmptyJobClaimed(id, user, session);
    hide Inv, Step, Abandoned, EmptyJob, Run;
    LastStatementFails(s, 0, WorkerDies(0));
    RunSplit(INIT, claimed + [WorkerDies(0)], 3);
    assert (claimed + [WorkerDies(0)])[..3] == claimed && (claimed + [WorkerDies(0)])[3..] == [WorkerDies(0)];
    OneStep(s, WorkerDies(0));
  }

  lemma OneStep(s: Sys, e: Event)
    ensures Run(s, [e]) == Step(s, e)
  {
    hide Step;
    assert Run(s, [e]) == Run(Step(s, e), []);
  }
}
