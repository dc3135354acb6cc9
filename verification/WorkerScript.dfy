/** The worker loop is one of the behaviours of the concurrent pipeline: the statements it issues, in their order. */
module WorkerScripts {
  import opened Wrappers
  import opened Ledgers
  import opened Pipeline
  import opened PipelineInvariants
  import opened PipelineHistory
  import opened Picker
  import opened Workers
  import T = ImportTypes

  // ----- what the loop issues -----

  /** The first `n` pages, none of them the last. */
  ghost function PageScript(env: Env, w: nat, n: nat): seq<Event>
    requires forall i :: 0 <= i < n ==> env.answers(i).Ok?
  {
    if n == 0 then [] else PageScript(env, w, n - 1) + [PageArrives(w, env.answers(n - 1).value.items, false)]
  }

  function ItemScript(env: Env, w: nat, i: nat): seq<Event> {
    var blame := [RecordFailure(w, env.blameOk(i))];
    if !env.downloads(i) then [Download(w, false)] + blame
    else if env.sink(i).None? then [Download(w, true), SavePhoto(w, None)] + blame
    else
      [Download(w, true), SavePhoto(w, env.sink(i)), RecordSuccess(w, env.recordOk(i))] + if env.recordOk(i) then [] else blame
  }

  function ItemsScript(env: Env, w: nat, n: nat): seq<Event> {
    if n == 0 then [] else ItemsScript(env, w, n - 1) + ItemScript(env, w, n - 1)
  }

  /** From the claim to rest. */
  ghost function Script(env: Env, w: nat): seq<Event>
    requires ListingEnds(env)
  {
    var n := FirstEnd(env.answers, env.within);
    PageScript(env, w, n) +
    match env.answers(n)
    case Err(message) => [PageFails(w, message), MarkFailed(w, env.failOk)]
    case Ok(page) =>
      [PageArrives(w, page.items, true), SetTotal(w, env.totalOk)]
      + ItemsScript(env, w, |Flatten(Pages(env.answers, n + 1))|)
      + [MarkComplete(w, env.completeOk), SessionDeleted(w)]
  }

  // ----- runs of several events -----

  lemma {:induction false} RunConcat(s: Sys, a: seq<Event>, b: seq<Event>)
    ensures Run(s, a + b) == Run(Run(s, a), b)
    decreases |a|
  {
    if a == [] {
      assert a + b == b;
    } else {
      assert (a + b)[1..] == a[1..] + b;
      hide Step;
      RunConcat(Step(s, a[0]), a[1..], b);
    }
  }

  lemma RunOne(s: Sys, e: Event)
    ensures Run(s, [e]) == Step(s, e)
  {
    hide Step;
    assert Run(Step(s, e), []) == Step(s, e);
  }

  lemma RunTwo(s: Sys, e: Event, d: Event)
    ensures Run(s, [e, d]) == Step(Step(s, e), d)
  {
    hide Step;
    assert [e, d] == [e] + [d];
    RunConcat(s, [e], [d]);
    RunOne(s, e);
    RunOne(Step(s, e), d);
  }

  // ----- one worker moves, everybody else stands still -----

  /** The rows are the same, but for what is in the row of `id`. */
  predicate SameOthers(t: T.Table, u: T.Table, id: string) {
    u.Keys == t.Keys && forall other <- t | other != id :: u[other] == t[other]
  }

  /** `t` is `s` with worker `w` at `pc` and its job's ledger at `l`; only the job's row may differ besides. */
  ghost predicate Reached(s: Sys, t: Sys, w: nat, pc: WorkerPc, id: string, l: Ledger) {
    && t == s.(workers := s.workers[w := pc], ledgers := s.ledgers[id := l], table := t.table)
    && SameOthers(s.table, t.table, id)
  }

  /** `w` is at `pc` and its job's ledger at `l`. */
  ghost predicate At(s: Sys, w: nat, pc: WorkerPc, id: string, l: Ledger) {
    w in s.workers && s.workers[w] == pc && id in s.ledgers && s.ledgers[id] == l
  }

  lemma ReachedOn(s: Sys, t: Sys, u: Sys, w: nat, pc: WorkerPc, qc: WorkerPc, id: string, l: Ledger, m: Ledger)
    requires Reached(s, t, w, pc, id, l) && Reached(t, u, w, qc, id, m)
    ensures At(t, w, pc, id, l) && Reached(s, u, w, qc, id, m)
  {
    assert s.workers[w := pc][w := qc] == s.workers[w := qc];
    assert s.ledgers[id := l][id := m] == s.ledgers[id := m];
  }

  lemma StandsAt(s: Sys, w: nat, pc: WorkerPc, id: string, l: Ledger)
    requires At(s, w, pc, id, l)
    ensures Reached(s, s, w, pc, id, l)
  {
    assert s.workers[w := pc] == s.workers && s.ledgers[id := l] == s.ledgers;
  }

  function After(l: Ledger, job: Job, item: nat): WorkerPc {
    if item < |Items(l)| then Fetching(job, item) else Completing(job)
  }

  // ----- an item -----

  lemma DownloadStep(s: Sys, w: nat, job: Job, i: nat, ok: bool, l: Ledger)
    requires At(s, w, Fetching(job, i), job.id, l)
    ensures Reached(s, Step(s, Download(w, ok)), w, if ok then Saving(job, i) else Blaming(job, i, None), job.id, l)
  {
    assert s.ledgers[job.id := l] == s.ledgers;
  }

  lemma SaveStep(s: Sys, w: nat, job: Job, i: nat, answer: Option<string>, l: Ledger)
    requires At(s, w, Saving(job, i), job.id, l)
    ensures Reached(s, Step(s, SavePhoto(w, answer)), w,
                    if answer.Some? then Recording(job, i, answer.value) else Blaming(job, i, None),
                    job.id, l.(calls := l.calls + [Call(i, answer)]))
  {
  }

  lemma RecordStep(s: Sys, w: nat, job: Job, i: nat, savedId: string, ok: bool, l: Ledger)
    requires At(s, w, Recording(job, i, savedId), job.id, l)
    ensures Reached(s, Step(s, RecordSuccess(w, ok)), w,
                    if ok then After(l, job, i + 1) else Blaming(job, i, Some(savedId)),
                    job.id, if ok then l.(outcomes := l.outcomes + [Saved(savedId)]) else l)
  {
    hide Flatten;
    assert s.ledgers[job.id := l] == s.ledgers;
  }

  lemma BlameStep(s: Sys, w: nat, job: Job, i: nat, sunk: Option<string>, ok: bool, l: Ledger)
    requires At(s, w, Blaming(job, i, sunk), job.id, l)
    ensures Reached(s, Step(s, RecordFailure(w, ok)), w, After(l, job, i + 1),
                    job.id, l.(outcomes := l.outcomes + [if ok then Counted(sunk) else Lost(sunk)]))
  {
    hide Flatten;
  }

  /** What an item adds to the ledger. */
  function WithItem(l: Ledger, env: Env, i: nat): Ledger {
    l.(outcomes := l.outcomes + [ItemResult(env, i)], calls := l.calls + SinkCall(env, i))
  }

  /** Statement by statement, one item comes out as the loop's environment has it. */
  lemma ItemRuns(s: Sys, w: nat, job: Job, env: Env, i: nat, l: Ledger)
    requires At(s, w, Fetching(job, i), job.id, l)
    ensures Reached(s, Run(s, ItemScript(env, w, i)), w, After(l, job, i + 1), job.id, WithItem(l, env, i))
  {
    hide Step, Run, After, Reached;
    var a := Step(s, Download(w, env.downloads(i)));
    DownloadStep(s, w, job, i, env.downloads(i), l);
    if !env.downloads(i) {
      var blaming := Blaming(job, i, None);
      RunTwo(s, Download(w, false), RecordFailure(w, env.blameOk(i)));
      assert [Download(w, false)] + [RecordFailure(w, env.blameOk(i))] == [Download(w, false), RecordFailure(w, env.blameOk(i))];
      ReachedAt(s, a, w, blaming, job.id, l);
      BlameStep(a, w, job, i, None, env.blameOk(i), l);
      assert l.calls + [] == l.calls;
      ReachedOn(s, a, Step(a, RecordFailure(w, env.blameOk(i))), w, blaming, After(l, job, i + 1), job.id, l, WithItem(l, env, i));
    } else {
      ReachedAt(s, a, w, Saving(job, i), job.id, l);
      SunkItemRuns(s, a, w, job, env, i, l);
    }
  }

  lemma ReachedAt(s: Sys, t: Sys, w: nat, pc: WorkerPc, id: string, l: Ledger)
    requires Reached(s, t, w, pc, id, l)
    ensures At(t, w, pc, id, l)
  {
  }

  lemma SunkItemRuns(s: Sys, a: Sys, w: nat, job: Job, env: Env, i: nat, l: Ledger)
    requires env.downloads(i) && a == Step(s, Download(w, true))
    requires Reached(s, a, w, Saving(job, i), job.id, l) && At(a, w, Saving(job, i), job.id, l)
    ensures Reached(s, Run(s, ItemScript(env, w, i)), w, After(l, job, i + 1), job.id, WithItem(l, env, i))
  {
    hide Step, Run, After, Reached;
    var answer := env.sink(i);
    var b := Step(a, SavePhoto(w, answer));
    var m := l.(calls := l.calls + [Call(i, answer)]);
    var pc := if answer.Some? then Recording(job, i, answer.value) else Blaming(job, i, None);
    SaveStep(a, w, job, i, answer, l);
    ReachedOn(s, a, b, w, Saving(job, i), pc, job.id, l, m);
    ReachedAt(a, b, w, pc, job.id, m);
    RunTwo(s, Download(w, true), SavePhoto(w, answer));
    AfterSame(l, m, job, i + 1);
    var first := [Download(w, true), SavePhoto(w, answer)];
    var blame := RecordFailure(w, env.blameOk(i));
    if answer.None? {
      BlameStep(b, w, job, i, None, env.blameOk(i), m);
      ReachedOn(s, b, Step(b, blame), w, pc, After(m, job, i + 1), job.id, m, WithItem(l, env, i));
      RunConcat(s, first, [blame]);
      RunOne(b, blame);
    } else {
      var record := RecordSuccess(w, env.recordOk(i));
      var c := Step(b, record);
      RecordStep(b, w, job, i, answer.value, env.recordOk(i), m);
      RunConcat(s, first, [record]);
      RunOne(b, record);
      assert first + [record] == [Download(w, true), SavePhoto(w, answer), record];
      if env.recordOk(i) {
        assert first + [record] + [] == first + [record];
        ReachedOn(s, b, c, w, pc, After(m, job, i + 1), job.id, m, WithItem(l, env, i));
      } else {
        var blaming := Blaming(job, i, answer);
        ReachedOn(s, b, c, w, pc, blaming, job.id, m, m);
        ReachedAt(b, c, w, blaming, job.id, m);
        BlameStep(c, w, job, i, answer, env.blameOk(i), m);
        ReachedOn(s, c, Step(c, blame), w, blaming, After(m, job, i + 1), job.id, m, WithItem(l, env, i));
        RunConcat(s, first + [record], [blame]);
        RunOne(c, blame);
      }
    }
  }

  lemma AfterSame(l: Ledger, m: Ledger, job: Job, i: nat)
    requires m.pages == l.pages
    ensures After(l, job, i) == After(m, job, i)
  {
  }

  /** The ledger with the first `n` items added. */
  function WithItems(l: Ledger, env: Env, n: nat): Ledger {
    l.(outcomes := l.outcomes + Results(env, n), calls := l.calls + SinkCalls(env, n))
  }

  lemma WithOneItem(l: Ledger, env: Env, n: nat)
    ensures WithItem(WithItems(l, env, n), env, n) == WithItems(l, env, n + 1)
    ensures WithItems(l, env, 0) == l
  {
    assert l.outcomes + Results(env, n) + [ItemResult(env, n)] == l.outcomes + Results(env, n + 1);
    assert l.calls + SinkCalls(env, n) + SinkCall(env, n) == l.calls + SinkCalls(env, n + 1);
    hide ItemResult, SinkCall;
  }

  lemma {:induction false} ItemsRun(s: Sys, w: nat, job: Job, env: Env, n: nat, l: Ledger)
    requires At(s, w, After(l, job, 0), job.id, l) && n <= |Items(l)|
    ensures Reached(s, Run(s, ItemsScript(env, w, n)), w, After(l, job, n), job.id, WithItems(l, env, n))
    decreases n
  {
    hide Step, Run, Reached, Results, SinkCalls, WithItem, WithItems, ItemScript, Items;
    if n == 0 {
      StandsAt(s, w, After(l, job, 0), job.id, l);
      WithOneItem(l, env, 0);
      RunNothing(s);
    } else {
      var t := Run(s, ItemsScript(env, w, n - 1));
      var m := WithItems(l, env, n - 1);
      ItemsRun(s, w, job, env, n - 1, l);
      ReachedAt(s, t, w, Fetching(job, n - 1), job.id, m);
      ItemRuns(t, w, job, env, n - 1, m);
      SamePages(l, env, n - 1);
      AfterSame(l, m, job, n);
      WithOneItem(l, env, n - 1);
      RunConcat(s, ItemsScript(env, w, n - 1), ItemScript(env, w, n - 1));
      ReachedOn(s, t, Run(t, ItemScript(env, w, n - 1)), w, Fetching(job, n - 1), After(l, job, n), job.id, m, WithItems(l, env, n));
    }
  }

  lemma RunNothing(s: Sys)
    ensures Run(s, []) == s
  {
  }

  lemma SamePages(l: Ledger, env: Env, n: nat)
    ensures WithItems(l, env, n).pages == l.pages
  {
  }

  // ----- the listing -----

  lemma PageStep(s: Sys, w: nat, job: Job, items: seq<string>, last: bool, l: Ledger)
    requires At(s, w, Listing(job), job.id, l)
    ensures Reached(s, Step(s, PageArrives(w, items, last)), w, if last then Totalling(job) else Listing(job),
                    job.id, l.(pages := l.pages + [items], listed := last))
  {
  }

  lemma {:induction false} PagesRun(s: Sys, w: nat, job: Job, env: Env, n: nat)
    requires At(s, w, Listing(job), job.id, FRESH)
    requires forall i :: 0 <= i < n ==> env.answers(i).Ok?
    ensures Reached(s, Run(s, PageScript(env, w, n)), w, Listing(job), job.id, FRESH.(pages := Pages(env.answers, n)))
    decreases n
  {
    hide Step, Run, Reached, Pages;
    if n == 0 {
      assert Pages(env.answers, 0) == [];
      StandsAt(s, w, Listing(job), job.id, FRESH);
      RunNothing(s);
    } else {
      var t := Run(s, PageScript(env, w, n - 1));
      var m := FRESH.(pages := Pages(env.answers, n - 1));
      var items := env.answers(n - 1).value.items;
      PagesRun(s, w, job, env, n - 1);
      ReachedAt(s, t, w, Listing(job), job.id, m);
      PageStep(t, w, job, items, false, m);
      assert Pages(env.answers, n) == Pages(env.answers, n - 1) + [items];
      RunConcat(s, PageScript(env, w, n - 1), [PageArrives(w, items, false)]);
      RunOne(t, PageArrives(w, items, false));
      ReachedOn(s, t, Step(t, PageArrives(w, items, false)), w, Listing(job), Listing(job), job.id, m,
                FRESH.(pages := Pages(env.answers, n)));
    }
  }

  // ----- the ends -----

  /** `w` is done: it rests, and its job's ledger is `l`. */
  ghost predicate Rested(s: Sys, t: Sys, w: nat, id: string, l: Ledger) {
    && t == s.(workers := s.workers - {w}, ledgers := s.ledgers[id := l], table := t.table)
    && SameOthers(s.table, t.table, id)
  }

  lemma RestedOn(s: Sys, t: Sys, u: Sys, w: nat, pc: WorkerPc, id: string, l: Ledger, m: Ledger)
    requires Reached(s, t, w, pc, id, l) && Rested(t, u, w, id, m)
    ensures Rested(s, u, w, id, m)
  {
    assert s.workers[w := pc] - {w} == s.workers - {w};
    assert s.ledgers[id := l][id := m] == s.ledgers[id := m];
  }

  lemma RefuseSteps(s: Sys, w: nat, job: Job, message: string, ok: bool, l: Ledger)
    requires At(s, w, Listing(job), job.id, l)
    ensures Rested(s, Run(s, [PageFails(w, message), MarkFailed(w, ok)]), w, job.id,
                   l.(end := if ok then Some(GaveUp(message)) else l.end))
  {
    RunTwo(s, PageFails(w, message), MarkFailed(w, ok));
    assert s.workers[w := Refusing(job, message)] - {w} == s.workers - {w};
    assert s.ledgers[job.id := l] == s.ledgers;
  }

  lemma FinishSteps(s: Sys, w: nat, job: Job, ok: bool, l: Ledger)
    requires At(s, w, Completing(job), job.id, l)
    ensures Rested(s, Run(s, [MarkComplete(w, ok), SessionDeleted(w)]), w, job.id,
                   l.(end := if ok then Some(Succeeded) else l.end))
  {
    RunTwo(s, MarkComplete(w, ok), SessionDeleted(w));
    assert s.workers[w := Cleaning(job)] - {w} == s.workers - {w};
    assert s.ledgers[job.id := l] == s.ledgers;
  }

  lemma TotalStep(s: Sys, w: nat, job: Job, ok: bool, l: Ledger)
    requires At(s, w, Totalling(job), job.id, l) && !l.totalSet
    ensures Reached(s, Step(s, SetTotal(w, ok)), w, After(l, job, 0), job.id, l.(totalSet := ok))
  {
    hide Flatten;
    assert s.ledgers[job.id := l] == s.ledgers;
  }

  lemma LoopRests(s: Sys, w: nat, job: Job, env: Env)
    requires ListingEnds(env) && At(s, w, Listing(job), job.id, FRESH)
    ensures Rested(s, Run(s, Script(env, w)), w, job.id, FinalLedger(env))
  {
    hide Step, Run, Reached, Rested, Pages, PageScript, FirstEnd, Results, SinkCalls, ItemsScript, Flatten;
    var n := FirstEnd(env.answers, env.within);
    var pages := PageScript(env, w, n);
    var t := Run(s, pages);
    var m := FRESH.(pages := Pages(env.answers, n));
    PagesRun(s, w, job, env, n);
    ReachedAt(s, t, w, Listing(job), job.id, m);
    match env.answers(n)
    case Err(message) =>
      var rest := [PageFails(w, message), MarkFailed(w, env.failOk)];
      RefuseSteps(t, w, job, message, env.failOk, m);
      RunConcat(s, pages, rest);
      RestedOn(s, t, Run(t, rest), w, Listing(job), job.id, m, FinalLedger(env));
    case Ok(page) =>
      var last := PageArrives(w, page.items, true);
      var total := SetTotal(w, env.totalOk);
      var count := |Flatten(Pages(env.answers, n + 1))|;
      var items := ItemsScript(env, w, count);
      var end := [MarkComplete(w, env.completeOk), SessionDeleted(w)];
      assert Pages(env.answers, n + 1) == Pages(env.answers, n) + [page.items];
      var listed := FRESH.(pages := Pages(env.answers, n + 1), listed := true);
      ListedRests(t, w, job, env, m, page.items);
      RunConcat(s, pages, [last, total] + items + end);
      assert pages + ([last, total] + items + end) == Script(env, w);
      RestedOn(s, t, Run(t, [last, total] + items + end), w, Listing(job), job.id, m, FinalLedger(env));
  }

  lemma ListedRests(s: Sys, w: nat, job: Job, env: Env, l: Ledger, page: seq<string>)
    requires At(s, w, Listing(job), job.id, l) && l == FRESH.(pages := l.pages)
    ensures var pages := l.pages + [page]; var count := |Flatten(pages)|;
            Rested(s, Run(s, [PageArrives(w, page, true), SetTotal(w, env.totalOk)] + ItemsScript(env, w, count)
                             + [MarkComplete(w, env.completeOk), SessionDeleted(w)]), w, job.id,
                   Ledger(pages, true, env.totalOk, Results(env, count), SinkCalls(env, count),
                          if env.completeOk then Some(Succeeded) else None))
  {
    hide Step, Run, Reached, Rested, Results, SinkCalls, ItemsScript, Flatten;
    var first := [PageArrives(w, page, true), SetTotal(w, env.totalOk)];
    var end := [MarkComplete(w, env.completeOk), SessionDeleted(w)];
    var listed := l.(pages := l.pages + [page], listed := true);
    var totalled := listed.(totalSet := env.totalOk);
    var count := |Items(listed)|;
    var t := Step(s, first[0]);
    PageStep(s, w, job, page, true, l);
    ReachedAt(s, t, w, Totalling(job), job.id, listed);
    TotalStep(t, w, job, env.totalOk, listed);
    var u := Step(t, first[1]);
    RunTwo(s, first[0], first[1]);
    AfterSame(listed, totalled, job, 0);
    ReachedOn(s, t, u, w, Totalling(job), After(totalled, job, 0), job.id, listed, totalled);
    ReachedAt(t, u, w, After(totalled, job, 0), job.id, totalled);
    ItemsRun(u, w, job, env, count, totalled);
    var v := Run(u, ItemsScript(env, w, count));
    var through := WithItems(totalled, env, count);
    RunConcat(s, first, ItemsScript(env, w, count));
    ReachedOn(s, u, v, w, After(totalled, job, 0), Completing(job), job.id, totalled, through);
    ReachedAt(u, v, w, Completing(job), job.id, through);
    FinishSteps(v, w, job, env.completeOk, through);
    RunConcat(s, first + ItemsScript(env, w, count), end);
    assert [] + Results(env, count) == Results(env, count) && [] + SinkCalls(env, count) == SinkCalls(env, count);
    RestedOn(s, v, Run(v, end), w, Completing(job), job.id, through, through.(end := if env.completeOk then Some(Succeeded) else None));
  }

  /**
    The worker loop refines the concurrent pipeline: from the committed claim to rest, its statements are a run of the
    pipeline that leaves the job with exactly the final history of the loop, its row with the sum of that history, and
    every other job, worker and poller as they were.
   */
  lemma LoopIsARun(s: Sys, w: nat, job: Job, env: Env)
    requires Inv(s) && ListingEnds(env) && At(s, w, Listing(job), job.id, FRESH)
    ensures var t := Run(s, Script(env, w));
            && Inv(t) && Rested(s, t, w, job.id, FinalLedger(env))
            && job.id in t.table && job.id in t.origins && t.table[job.id] == RowOf(t.origins[job.id], FinalLedger(env))
  {
    hide Inv, Run, FinalLedger, RowOf, Rested;
    var n := FirstEnd(env.answers, env.within);
    LoopRests(s, w, job, env);
    RunInv(s, Script(env, w));
    RowThere(s, Run(s, Script(env, w)), w, job, FinalLedger(env));
  }

  lemma RowThere(s: Sys, t: Sys, w: nat, job: Job, l: Ledger)
    requires Inv(s) && Inv(t) && At(s, w, Listing(job), job.id, FRESH) && Rested(s, t, w, job.id, l)
    ensures job.id in t.table && job.id in t.origins && t.table[job.id] == RowOf(t.origins[job.id], l)
  {
    DrivingFacts(s, w);
  }

  // ----- losses do happen -----

  /** One item, which the sink keeps; then neither its success nor its failure can be recorded. */
  ghost const TROUBLE := Env(
    (n: nat) => Ok(Page(["a"], "")), 0, (i: nat) => true, (i: nat) => Some("x"), true,
    (i: nat) => false, (i: nat) => false, true, true)

  lemma TroubledLedger()
    ensures ListingEnds(TROUBLE)
    ensures FinalLedger(TROUBLE) == Ledger([["a"]], true, true, [Lost(Some("x"))], [Call(0, Some("x"))], Some(Succeeded))
  {
    var pages := Pages(TROUBLE.answers, 1);
    assert pages == [["a"]];
    assert pages[..0] == [];
    assert Flatten(pages) == ["a"];
    assert Results(TROUBLE, 1) == [Lost(Some("x"))];
    assert SinkCalls(TROUBLE, 1) == [Call(0, Some("x"))];
  }

  /**
    A run from the empty table that ends with a complete job whose only item is neither saved nor counted, although the
    sink keeps it.
   */
  lemma LossesDoHappen(id: string, user: string, session: string)
    ensures ListingEnds(TROUBLE)
    ensures var s := Run(INIT, EmptyJob(id, user, session)[..3] + Script(TROUBLE, 0));
            && id in s.table && s.table[id].status.Complete? && s.table[id].total == 1
            && s.table[id].completed == s.table[id].failed == 0 && s.table[id].savedIds == []
            && id in s.ledgers && Kept(s.ledgers[id].calls) == ["x"]
            && Losses(s.ledgers[id].outcomes) == 1 && Mislaid(s.ledgers[id].outcomes) == 1
  {
    TroubledLedger();
    EmptyJobClaimed(id, user, session);
    hide Run, Inv, Script, FinalLedger;
    var claim := EmptyJob(id, user, session)[..3];
    var s := Run(INIT, claim);
    InitInv();
    RunInv(INIT, claim);
    RunConcat(INIT, claim, Script(TROUBLE, 0));
    LoopIsARun(s, 0, s.workers[0].job, TROUBLE);
    TroubledRow(s.origins[id]);
  }

  lemma TroubledRow(origin: T.Row)
    ensures var l := Ledger([["a"]], true, true, [Lost(Some("x"))], [Call(0, Some("x"))], Some(Succeeded));
            var row := RowOf(origin, l);
            && row.status.Complete? && row.total == 1 && row.completed == row.failed == 0 && row.savedIds == []
            && Kept(l.calls) == ["x"] && Losses(l.outcomes) == 1 && Mislaid(l.outcomes) == 1
  {
    var pages := [["a"]];
    assert pages[..0] == [];
    assert Flatten(pages) == ["a"];
    var outcomes := [Lost(Some("x"))];
    assert outcomes[..0] == [];
    var calls := [Call(0, Some("x"))];
    assert calls[..0] == [];
  }
}
