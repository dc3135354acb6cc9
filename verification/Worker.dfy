/** The worker loop on one store, statement after statement. */
module Workers {
  import opened Wrappers
  import opened Ledgers
  import opened Picker
  import T = ImportTypes
  import S = ImportStore

  /**
    How the world answers while one job is processed: the pages, per item whether the download succeeds and what the sink
    returns, and which store calls succeed. The listing ends by request `within`.
   */
  datatype Env = Env(
    answers: Answers,
    within: nat,
    downloads: nat -> bool,
    sink: nat -> Option<string>,
    totalOk: bool,
    recordOk: nat -> bool,
    blameOk: nat -> bool,
    completeOk: bool,
    failOk: bool)

  predicate ListingEnds(env: Env) {
    Ends(env.answers, env.within)
  }

  /** How item `i` ends. */
  function ItemResult(env: Env, i: nat): ItemOutcome {
    var sunk := if env.downloads(i) then env.sink(i) else None;
    if sunk.Some? && env.recordOk(i) then Saved(sunk.value)
    else if env.blameOk(i) then Counted(sunk)
    else Lost(sunk)
  }

  function Results(env: Env, n: nat): (r: seq<ItemOutcome>)
    ensures |r| == n && forall i :: 0 <= i < n ==> r[i] == ItemResult(env, i)
  {
    if n == 0 then [] else Results(env, n - 1) + [ItemResult(env, n - 1)]
  }

  /** Item `i` is handed to the sink if it could be downloaded. */
  function SinkCall(env: Env, i: nat): seq<Call> {
    if env.downloads(i) then [Call(i, env.sink(i))] else []
  }

  /** The calls of the sink for the first `n` items. */
  function SinkCalls(env: Env, n: nat): seq<Call> {
    if n == 0 then [] else SinkCalls(env, n - 1) + SinkCall(env, n - 1)
  }

  lemma {:induction false} SinkCallsInOrder(env: Env, n: nat)
    ensures InItemOrder(SinkCalls(env, n)) && forall c <- SinkCalls(env, n) :: c.item < n
    decreases n
  {
    if n > 0 {
      SinkCallsInOrder(env, n - 1);
      var calls := SinkCalls(env, n - 1);
      assert forall i :: 0 <= i < |calls| ==> calls[i] in calls;
    }
  }

  lemma {:induction false} SinkAnswers(env: Env, n: nat, i: nat)
    requires i < n
    ensures AnswerTo(SinkCalls(env, n), i) == Sunk(ItemResult(env, i))
    decreases n
  {
    hide AnswerTo;
    var calls := SinkCalls(env, n - 1);
    if env.downloads(n - 1) {
      OneMoreCall(calls, Call(n - 1, env.sink(n - 1)), i);
    } else {
      assert calls + [] == calls;
    }
    if i < n - 1 {
      SinkAnswers(env, n - 1, i);
    } else {
      SinkCallsInOrder(env, n - 1);
      NotCalled(calls, n - 1, n - 1);
    }
  }

  /** The history a job gets that is processed to the end in `env`. */
  ghost function FinalLedger(env: Env): Ledger
    requires ListingEnds(env)
  {
    var n := FirstEnd(env.answers, env.within);
    match env.answers(n)
    case Err(message) =>
      Ledger(Pages(env.answers, n), false, false, [], [], if env.failOk then Some(GaveUp(message)) else None)
    case Ok(_) =>
      var pages := Pages(env.answers, n + 1);
      var count := |Flatten(pages)|;
      Ledger(pages, true, env.totalOk, Results(env, count), SinkCalls(env, count),
             if env.completeOk then Some(Succeeded) else None)
  }

  /** It is a ledger as any job has, so everything said about ledgers holds of it. */
  lemma FinalLedgerOk(env: Env)
    requires ListingEnds(env)
    ensures LedgerOk(FinalLedger(env))
  {
    hide SinkCalls, Flatten, AnswerTo, Sunk, ItemResult;
    var n := FirstEnd(env.answers, env.within);
    if env.answers(n).Ok? {
      var count := |Flatten(Pages(env.answers, n + 1))|;
      SinkCallsInOrder(env, count);
      forall i | 0 <= i < count
        ensures AnswerTo(SinkCalls(env, count), i) == Sunk(Results(env, count)[i])
      {
        SinkAnswers(env, count, i);
      }
      hide Results;
    }
  }

  /** What processing adds to a row. */
  function Grown(row: T.Row, l: Ledger): T.Row {
    row.(
    status := match l.end
    case None => row.status
    case Some(Succeeded) => T.Complete
    case Some(GaveUp(_)) => T.Failed,
    total := if l.totalSet then |Items(l)| else row.total,
    completed := row.completed + |SavedIds(l.outcomes)|,
    failed := row.failed + Failures(l.outcomes),
    savedIds := row.savedIds + SavedIds(l.outcomes),
    error := if l.end.Some? && l.end.value.GaveUp? then Some(l.end.value.message) else row.error)
  }

  /** For a row just claimed that is exactly the sum of the ledger, the row the concurrent pipeline arrives at. */
  lemma GrownFromClaim(origin: T.Row, l: Ledger)
    requires origin.status.Pending? && origin.total == origin.completed == origin.failed == 0
    requires origin.savedIds == [] && origin.error == None
    ensures Grown(origin.(status := T.Running), l) == RowOf(origin, l)
  {
    assert [] + SavedIds(l.outcomes) == SavedIds(l.outcomes);
  }

  function Applied(t: T.Table, id: string, l: Ledger): T.Table {
    if id in t then t[id := Grown(t[id], l)] else t
  }

  lemma OneMoreResult(outcomes: seq<ItemOutcome>, o: ItemOutcome)
    ensures SavedIds(outcomes + [o]) == SavedIds(outcomes) + if o.Saved? then [o.id] else []
    ensures Failures(outcomes + [o]) == Failures(outcomes) + if o.Counted? then 1 else 0
  {
    assert (outcomes + [o])[..|outcomes|] == outcomes;
  }

  class Worker {
    const imports: S.PgImportStore

    constructor (imports: S.PgImportStore)
      ensures this.imports == imports
    {
      this.imports := imports;
    }

    /** `failed` unless download, sink and record all went through. */
    method ImportOne(jobId: string, env: Env, i: nat) returns (failed: bool)
      modifies imports
      ensures failed == !ItemResult(env, i).Saved?
      ensures imports.rows ==
              match ItemResult(env, i)
              case Saved(savedId) => T.RecordItemSuccess(old(imports.rows), jobId, savedId)
              case _ => old(imports.rows)
    {
      if !env.downloads(i) {
        return true;
      }
      var savedId := env.sink(i);
      if savedId.None? {
        return true;
      }
      imports.RecordItemSuccess(jobId, savedId.value, env.recordOk(i));
      return !env.recordOk(i);
    }

    /** Runs a claimed job to its end; the error is the listing's. */
    method ProcessJob(job: S.ImportJob, env: Env) returns (error: Option<string>)
      requires ListingEnds(env)
      modifies imports
      ensures imports.rows == Applied(old(imports.rows), job.id, FinalLedger(env))
      ensures error == match env.answers(FirstEnd(env.answers, env.within))
                       case Err(message) => Some(message)
                       case Ok(_) => None
    {
      hide FinalLedger, Applied, SavedIds, Failures, Results, FirstEnd;
      ghost var t := imports.rows;
      var listed, tokens := ListSessionMediaItems(env.answers, env.within);
      if listed.Err? {
        imports.MarkFailed(job.id, listed.error, env.failOk);
        NothingListed(t, job.id, env);
        return Some(listed.error);
      }
      var items := listed.value;
      imports.SetTotal(job.id, |items|, env.totalOk);
      NothingImported(t, job.id, env, |items|);
      var i := 0;
      while i < |items|
        invariant 0 <= i <= |items|
        invariant imports.rows == Imported(t, job.id, env, |items|, i)
      {
        var failed := ImportOne(job.id, env, i);
        if failed {
          imports.RecordItemFailure(job.id, env.blameOk(i));
        }
        ItemImported(t, job.id, env, |items|, i);
        i := i + 1;
      }
      imports.MarkComplete(job.id, env.completeOk);
      AllImported(t, job.id, env);
      return None;
    }

    /** The table once the total is set and the first `i` of `n` items are through. */
    static ghost function Imported(t: T.Table, id: string, env: Env, n: nat, i: nat): T.Table {
      if id in t then t[id := WithResults(t[id].(total := if env.totalOk then n else t[id].total), Results(env, i))] else t
    }

    /** A row with these outcomes added. */
    static function WithResults(row: T.Row, r: seq<ItemOutcome>): T.Row {
      row.(completed := row.completed + |SavedIds(r)|, failed := row.failed + Failures(r), savedIds := row.savedIds + SavedIds(r))
    }

    static lemma WithOneMore(row: T.Row, r: seq<ItemOutcome>, o: ItemOutcome)
      ensures var u := WithResults(row, r);
              WithResults(row, r + [o]) ==
              match o
              case Saved(savedId) => u.(completed := u.completed + 1, savedIds := u.savedIds + [savedId])
              case Counted(_) => u.(failed := u.failed + 1)
              case Lost(_) => u
    {
      OneMoreResult(r, o);
      hide SavedIds, Failures;
      assert SavedIds(r) + [] == SavedIds(r);
      if o.Saved? {
        assert row.savedIds + (SavedIds(r) + [o.id]) == (row.savedIds + SavedIds(r)) + [o.id];
      }
    }

    static lemma NothingImported(t: T.Table, id: string, env: Env, n: nat)
      ensures Imported(t, id, env, n, 0) == if env.totalOk then T.SetTotal(t, id, n) else t
    {
      if id in t {
        assert t[id].savedIds + [] == t[id].savedIds;
        assert t[id := t[id]] == t;
      }
    }

    static lemma ItemImported(t: T.Table, id: string, env: Env, n: nat, i: nat)
      ensures Imported(t, id, env, n, i + 1) ==
              var u := Imported(t, id, env, n, i);
              match ItemResult(env, i)
              case Saved(savedId) => T.RecordItemSuccess(u, id, savedId)
              case Counted(_) => T.RecordItemFailure(u, id)
              case Lost(_) => u
    {
      hide ItemResult, Results, WithResults;
      ResultsMore(env, i);
      if id in t {
        WithOneMore(t[id].(total := if env.totalOk then n else t[id].total), Results(env, i), ItemResult(env, i));
      }
    }

    static lemma ResultsMore(env: Env, i: nat)
      ensures Results(env, i + 1) == Results(env, i) + [ItemResult(env, i)]
    {
    }

    static lemma AllImported(t: T.Table, id: string, env: Env)
      requires ListingEnds(env) && env.answers(FirstEnd(env.answers, env.within)).Ok?
      ensures var l := FinalLedger(env);
              var n := |Flatten(Pages(env.answers, FirstEnd(env.answers, env.within) + 1))|;
              var u := Imported(t, id, env, n, n);
              (if env.completeOk then T.MarkComplete(u, id) else u) == Applied(t, id, l)
    {
      hide SavedIds, Failures, ItemResult, Flatten, Results;
    }

    static lemma NothingListed(t: T.Table, id: string, env: Env)
      requires ListingEnds(env) && env.answers(FirstEnd(env.answers, env.within)).Err?
      ensures (if env.failOk then T.MarkFailed(t, id, env.answers(FirstEnd(env.answers, env.within)).error) else t)
              == Applied(t, id, FinalLedger(env))
    {
      if id in t && !env.failOk {
        assert t[id].savedIds + [] == t[id].savedIds;
        assert t[id := t[id]] == t;
      }
      if id in t {
        assert t[id].savedIds + [] == t[id].savedIds;
      }
    }

    /**
      Claims and processes until the queue is empty, a claim fails or the context is done. `processed` are the jobs in
      the order in which they were processed.
     */
    method DrainOnce(envs: string -> Env, done: nat -> bool, claimOk: nat -> bool) returns (processed: seq<string>)
      requires forall id :: ListingEnds(envs(id))
      modifies imports
      ensures Drained(old(imports.rows), imports.rows, processed, envs)
      ensures (forall k :: !done(k) && claimOk(k)) ==> T.PendingIds(imports.rows) == {}
    {
      processed := [];
      ghost var t := imports.rows;
      DrainedNothing(t, envs);
      while true
        invariant Drained(t, imports.rows, processed, envs)
        decreases T.PendingIds(imports.rows)
      {
        if done(|processed|) {
          return;
        }
        ghost var u := imports.rows;
        var claim := imports.ClaimNextPending({}, claimOk(|processed|));
        if claim.Err? {
          return;
        }
        if claim.value.None? {
          assert forall id <- imports.rows :: !imports.rows[id].status.Pending? by {
            assert forall id <- imports.rows :: !T.Claimable(imports.rows, {}, id);
          }
          return;
        }
        var job := claim.value.value;
        var error := ProcessJob(job, envs(job.id));
        OneMoreDrained(t, u, processed, envs, job.id);
        processed := processed + [job.id];
      }
    }
  }

  ghost predicate NoRepeats(ids: seq<string>) {
    forall i, j :: 0 <= i < j < |ids| ==> ids[i] != ids[j]
  }

  /**
    From `t` to `u` exactly the jobs `processed` were processed: each once, oldest first, every one of them older than any
    left pending; each row became what its environment makes of it, and no other row changed.
   */
  ghost predicate Drained(t: T.Table, u: T.Table, processed: seq<string>, envs: string -> Env)
    requires forall id :: ListingEnds(envs(id))
  {
    && u.Keys == t.Keys
    && NoRepeats(processed)
    && (forall id <- processed :: id in t && t[id].status.Pending?)
    && (forall i, j :: 0 <= i < j < |processed| ==> t[processed[i]].createdAt <= t[processed[j]].createdAt)
    && (forall id <- processed, other <- t | t[other].status.Pending? && other !in processed :: t[id].createdAt <= t[other].createdAt)
    && (forall id <- t :: u[id] == if id in processed then Grown(t[id].(status := T.Running), FinalLedger(envs(id))) else t[id])
    && T.PendingIds(u) == T.PendingIds(t) - (set id | id in processed)
  }

  lemma DrainedNothing(t: T.Table, envs: string -> Env)
    requires forall id :: ListingEnds(envs(id))
    ensures Drained(t, t, [], envs)
  {
    hide FinalLedger, Grown;
  }

  /** Processing a claimed row leaves it in a state that is not pending. */
  lemma GrownNotPending(row: T.Row, l: Ledger)
    ensures !Grown(row.(status := T.Running), l).status.Pending?
  {
  }

  /** The oldest pending row is at least as old as every other row left, and younger than those already processed. */
  lemma OldestIsNext(t: T.Table, u: T.Table, processed: seq<string>, envs: string -> Env, id: string)
    requires forall id :: ListingEnds(envs(id))
    requires Drained(t, u, processed, envs) && T.Oldest(u, {}, id)
    ensures id in t && t[id].status.Pending? && id !in processed && u[id] == t[id]
    ensures forall done <- processed :: t[done].createdAt <= t[id].createdAt
    ensures forall other <- t | t[other].status.Pending? && other !in processed :: t[id].createdAt <= t[other].createdAt
  {
    hide FinalLedger, Grown;
    assert id in T.PendingIds(u);
    forall other <- t | t[other].status.Pending? && other !in processed
      ensures t[id].createdAt <= t[other].createdAt
    {
      assert other in T.PendingIds(t) && other in T.PendingIds(u);
      assert T.Claimable(u, {}, other);
    }
  }

  lemma OneMoreInOrder(t: T.Table, processed: seq<string>, id: string)
    requires NoRepeats(processed) && id !in processed && id in t && forall done <- processed :: done in t
    requires forall i, j :: 0 <= i < j < |processed| ==> t[processed[i]].createdAt <= t[processed[j]].createdAt
    requires forall done <- processed :: t[done].createdAt <= t[id].createdAt
    ensures var more := processed + [id];
            && NoRepeats(more) && (forall done <- more :: done in t)
            && forall i, j :: 0 <= i < j < |more| ==> t[more[i]].createdAt <= t[more[j]].createdAt
  {
    var more := processed + [id];
    forall i | 0 <= i < |processed|
      ensures more[i] in processed
    {
    }
  }

  lemma OneMoreDrained(t: T.Table, u: T.Table, processed: seq<string>, envs: string -> Env, id: string)
    requires forall id :: ListingEnds(envs(id))
    requires Drained(t, u, processed, envs) && T.Oldest(u, {}, id)
    ensures var v := Applied(T.MarkRunning(u, id), id, FinalLedger(envs(id)));
            && Drained(t, v, processed + [id], envs)
            && T.PendingIds(v) < T.PendingIds(u)
  {
    hide FinalLedger, Grown;
    OldestIsNext(t, u, processed, envs, id);
    var row := Grown(t[id].(status := T.Running), FinalLedger(envs(id)));
    GrownNotPending(t[id], FinalLedger(envs(id)));
    assert Applied(T.MarkRunning(u, id), id, FinalLedger(envs(id))) == u[id := row];
    hide Applied, T.MarkRunning, T.Oldest;
    assert T.PendingIds(u[id := row]) == T.PendingIds(u) - {id};
    OneMoreInOrder(t, processed, id);
    OneMoreRow(t, u, processed, envs, id, row);
  }

  lemma OneMoreRow(t: T.Table, u: T.Table, processed: seq<string>, envs: string -> Env, id: string, row: T.Row)
    requires forall id :: ListingEnds(envs(id))
    requires Drained(t, u, processed, envs) && id in t && id !in processed
    requires row == Grown(t[id].(status := T.Running), FinalLedger(envs(id)))
    ensures forall other <- t ::
              other in u && u[id := row][other] ==
              if other in processed + [id] then Grown(t[other].(status := T.Running), FinalLedger(envs(other))) else t[other]
  {
    hide FinalLedger, Grown;
  }
}
