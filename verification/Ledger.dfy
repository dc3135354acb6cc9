/**
  The history of one job, and the row it amounts to. A ledger is written down by whoever drives the job; the row in the
  table has to be the sum of its ledger at any time.
 */
module Ledgers {
  import opened Wrappers
  import opened ImportTypes

  /**
    How one listed item ended. `Saved`: the sink kept it and the row says so. `Counted`: the row counts a failure;
    the sink may still have kept the item under `sunk`. `Lost`: the row counts nothing.
   */
  datatype ItemOutcome =
    | Saved(id: string)
    | Counted(sunk: Option<string>)
    | Lost(sunk: Option<string>)

  datatype End = Succeeded | GaveUp(message: string)

  /** An item was handed to the sink, which answered with the id it keeps the item under, or refused it. */
  datatype Call = Call(item: nat, answer: Option<string>)

  /** `calls` are the calls of the sink, in order. */
  datatype Ledger = Ledger(
    pages: seq<seq<string>>,
    listed: bool,
    totalSet: bool,
    outcomes: seq<ItemOutcome>,
    calls: seq<Call>,
    end: Option<End>)

  const FRESH := Ledger([], false, false, [], [], None)

  function Flatten(pages: seq<seq<string>>): seq<string> {
    if pages == [] then [] else Flatten(pages[..|pages| - 1]) + pages[|pages| - 1]
  }

  function Items(l: Ledger): seq<string> {
    Flatten(l.pages)
  }

  function SavedIds(outcomes: seq<ItemOutcome>): seq<string> {
    if outcomes == [] then []
    else
      var o := outcomes[|outcomes| - 1];
      SavedIds(outcomes[..|outcomes| - 1]) + if o.Saved? then [o.id] else []
  }

  function Failures(outcomes: seq<ItemOutcome>): nat {
    if outcomes == [] then 0
    else Failures(outcomes[..|outcomes| - 1]) + if outcomes[|outcomes| - 1].Counted? then 1 else 0
  }

  function Losses(outcomes: seq<ItemOutcome>): nat {
    if outcomes == [] then 0
    else Losses(outcomes[..|outcomes| - 1]) + if outcomes[|outcomes| - 1].Lost? then 1 else 0
  }

  /** What the sink answered for an item; None if it refused it or was not called. */
  function AnswerTo(calls: seq<Call>, item: nat): Option<string> {
    if calls == [] then None
    else
      var c := calls[|calls| - 1];
      if c.item == item then c.answer else AnswerTo(calls[..|calls| - 1], item)
  }

  /** The id under which the sink keeps an item that ended so. */
  function Sunk(o: ItemOutcome): Option<string> {
    match o
    case Saved(id) => Some(id)
    case Counted(sunk) => sunk
    case Lost(sunk) => sunk
  }

  /** The ids the sink returned, in order. */
  function Kept(calls: seq<Call>): seq<string> {
    if calls == [] then []
    else
      var answer := calls[|calls| - 1].answer;
      Kept(calls[..|calls| - 1]) + if answer.Some? then [answer.value] else []
  }

  /** Items the sink keeps although the row does not say so. */
  function Mislaid(outcomes: seq<ItemOutcome>): nat {
    if outcomes == [] then 0
    else
      var o := outcomes[|outcomes| - 1];
      Mislaid(outcomes[..|outcomes| - 1]) + if !o.Saved? && Sunk(o).Some? then 1 else 0
  }

  /** The row a ledger amounts to, given the row its job was created with. */
  function RowOf(origin: Row, l: Ledger): Row {
    origin.(
    status := match l.end
    case None => Running
    case Some(Succeeded) => Complete
    case Some(GaveUp(_)) => Failed,
    total := if l.totalSet then |Items(l)| else 0,
    completed := |SavedIds(l.outcomes)|,
    failed := Failures(l.outcomes),
    savedIds := SavedIds(l.outcomes),
    error := if l.end.Some? && l.end.value.GaveUp? then Some(l.end.value.message) else None)
  }

  /** What a ledger looks like at any time: nothing happens before the listing is done, and an end is an end. */
  ghost predicate LedgerOk(l: Ledger) {
    && |l.outcomes| <= |Items(l)|
    && (!l.listed ==> l.outcomes == [] && l.calls == [] && !l.totalSet)
    && (l.end == Some(Succeeded) ==> l.listed && |l.outcomes| == |Items(l)|)
    && (l.end.Some? && l.end.value.GaveUp? ==> !l.listed)
    && InItemOrder(l.calls)
    && (forall c <- l.calls :: c.item <= |l.outcomes| && c.item < |Items(l)|)
    && AsTold(l.calls, l.outcomes)
  }

  /** Items are handed to the sink in order, so none is handed to it twice. */
  ghost predicate InItemOrder(calls: seq<Call>) {
    forall i, j :: 0 <= i < j < |calls| ==> calls[i].item < calls[j].item
  }

  /** Every outcome says of the sink what the sink answered for that item. */
  ghost predicate AsTold(calls: seq<Call>, outcomes: seq<ItemOutcome>) {
    forall i :: 0 <= i < |outcomes| ==> AnswerTo(calls, i) == Sunk(outcomes[i])
  }

  ghost predicate Increasing(positions: seq<nat>) {
    forall i, j :: 0 <= i < j < |positions| ==> positions[i] < positions[j]
  }

  lemma OneMoreCall(calls: seq<Call>, c: Call, item: nat)
    ensures AnswerTo(calls + [c], item) == if item == c.item then c.answer else AnswerTo(calls, item)
    ensures Kept(calls + [c]) == Kept(calls) + if c.answer.Some? then [c.answer.value] else []
  {
    assert (calls + [c])[..|calls|] == calls;
  }

  lemma {:induction false} NotCalled(calls: seq<Call>, n: nat, item: nat)
    requires n <= item && forall c <- calls :: c.item < n
    ensures AnswerTo(calls, item) == None
  {
    if calls != [] {
      NotCalled(calls[..|calls| - 1], n, item);
    }
  }

  // ----- conservation -----

  /** Every outcome is counted exactly once, as a saved id, as a failure or as a loss. */
  lemma {:induction false} OutcomesAddUp(outcomes: seq<ItemOutcome>)
    ensures |SavedIds(outcomes)| + Failures(outcomes) + Losses(outcomes) == |outcomes|
  {
    if outcomes != [] {
      OutcomesAddUp(outcomes[..|outcomes| - 1]);
    }
  }

  /** The saved ids are the ids of the saved items, in item order. */
  ghost predicate IdsInItemOrder(outcomes: seq<ItemOutcome>, ids: seq<string>, positions: seq<nat>) {
    && |positions| == |ids|
    && Increasing(positions)
    && (forall k :: 0 <= k < |ids| ==> positions[k] < |outcomes| && outcomes[positions[k]] == Saved(ids[k]))
    && (forall i :: 0 <= i < |outcomes| && outcomes[i].Saved? ==> i in positions)
  }

  lemma {:induction false} SavedIdsInItemOrder(outcomes: seq<ItemOutcome>) returns (positions: seq<nat>)
    ensures IdsInItemOrder(outcomes, SavedIds(outcomes), positions)
  {
    if outcomes == [] {
      positions := [];
    } else {
      var n := |outcomes| - 1;
      var front := outcomes[..n];
      var rest := SavedIdsInItemOrder(front);
      if outcomes[n].Saved? {
        positions := rest + [n];
        forall i | 0 <= i < |outcomes| && outcomes[i].Saved?
          ensures i in positions
        {
          if i < n {
            assert front[i].Saved? && i in rest;
          } else {
            assert positions[|rest|] == n;
          }
        }
      } else {
        positions := rest;
        assert forall i :: 0 <= i < |outcomes| && outcomes[i].Saved? ==> i < n && front[i].Saved?;
      }
    }
  }

  /** Every saved id is what the sink answered for its item, and the ids stand in the order of the items. */
  lemma SavedIdsAreSinkAnswers(l: Ledger) returns (positions: seq<nat>)
    requires LedgerOk(l)
    ensures IdsInItemOrder(l.outcomes, SavedIds(l.outcomes), positions)
    ensures forall k :: 0 <= k < |positions| ==> AnswerTo(l.calls, positions[k]) == Some(SavedIds(l.outcomes)[k])
  {
    positions := SavedIdsInItemOrder(l.outcomes);
    hide SavedIds, AnswerTo, Items;
    forall k | 0 <= k < |positions|
      ensures AnswerTo(l.calls, positions[k]) == Some(SavedIds(l.outcomes)[k])
    {
      assert Sunk(l.outcomes[positions[k]]) == Some(SavedIds(l.outcomes)[k]);
    }
  }

  /** The calls whose item's outcome is known: all but the one in progress. */
  function Settled(l: Ledger): seq<Call> {
    var n := |l.calls|;
    if n > 0 && l.calls[n - 1].item == |l.outcomes| then l.calls[..n - 1] else l.calls
  }

  lemma LastOutcome(outcomes: seq<ItemOutcome>)
    requires outcomes != []
    ensures var n := |outcomes| - 1;
            && SavedIds(outcomes) == SavedIds(outcomes[..n]) + (if outcomes[n].Saved? then [outcomes[n].id] else [])
            && Mislaid(outcomes) == Mislaid(outcomes[..n]) + if !outcomes[n].Saved? && Sunk(outcomes[n]).Some? then 1 else 0
  {
  }

  lemma {:induction false} KeptOrMislaid(calls: seq<Call>, outcomes: seq<ItemOutcome>)
    requires InItemOrder(calls) && AsTold(calls, outcomes)
    requires forall i :: 0 <= i < |calls| ==> calls[i].item < |outcomes|
    ensures |Kept(calls)| == |SavedIds(outcomes)| + Mislaid(outcomes)
    ensures Mislaid(outcomes) == 0 ==> Kept(calls) == SavedIds(outcomes)
    decreases |outcomes|
  {
    if outcomes == [] {
    } else {
      hide SavedIds, Mislaid, Kept, AnswerTo;
      var n := |outcomes| - 1;
      LastOutcome(outcomes);
      assert AnswerTo(calls, n) == Sunk(outcomes[n]);
      if calls != [] && calls[|calls| - 1].item == n {
        var front, last := calls[..|calls| - 1], calls[|calls| - 1];
        assert calls == front + [last];
        OneMoreCall(front, last, n);
        forall i | 0 <= i < n
          ensures AnswerTo(front, i) == Sunk(outcomes[..n][i])
        {
          OneMoreCall(front, last, i);
        }
        KeptOrMislaid(front, outcomes[..n]);
      } else {
        forall c <- calls
          ensures c.item < n
        {
        }
        NotCalled(calls, n, n);
        KeptOrMislaid(calls, outcomes[..n]);
      }
    }
  }

  /**
    At any time the saved ids are, in order, exactly the ids the sink has returned for the items done, if and only if no
    item was mislaid; what is missing otherwise is what was mislaid. Once the job has succeeded that is all the sink ever
    returned.
   */
  lemma SavedIdsAreKeptIff(l: Ledger)
    requires LedgerOk(l)
    ensures SavedIds(l.outcomes) == Kept(Settled(l)) <==> Mislaid(l.outcomes) == 0
    ensures |Kept(Settled(l))| == |SavedIds(l.outcomes)| + Mislaid(l.outcomes)
    ensures l.end == Some(Succeeded) ==> Settled(l) == l.calls
  {
    hide Items, SavedIds, Mislaid, Kept, AnswerTo;
    assert forall i :: 0 <= i < |l.calls| ==> l.calls[i] in l.calls;
    var calls := Settled(l);
    if calls != l.calls {
      var last := l.calls[|calls|];
      forall i | 0 <= i < |l.outcomes|
        ensures AnswerTo(calls, i) == Sunk(l.outcomes[i])
      {
        OneMoreCall(calls, last, i);
        assert calls + [last] == l.calls;
      }
    }
    KeptOrMislaid(calls, l.outcomes);
  }

  /**
    The record of a job that succeeded. Without failing store calls nothing is lost and the total is recorded, and then
    the counts of the row add up to the number of listed items; with failures they fall short by exactly the losses.
   */
  lemma CompleteRecordAddsUp(origin: Row, l: Ledger)
    requires LedgerOk(l) && l.end == Some(Succeeded)
    ensures var row := RowOf(origin, l);
            && row.status.Complete? && row.completed == |row.savedIds|
            && row.completed + row.failed + Losses(l.outcomes) == |Items(l)|
            && (row.completed + row.failed == |Items(l)| <==> Losses(l.outcomes) == 0)
            && (row.total == |Items(l)| <==> l.totalSet || Items(l) == [])
            && (row.completed + row.failed == row.total <==>
                if l.totalSet then Losses(l.outcomes) == 0 else Losses(l.outcomes) == |Items(l)|)
  {
    OutcomesAddUp(l.outcomes);
  }

  /** A job that gave up has saved nothing and counted nothing. */
  lemma FailedRecordIsEmpty(origin: Row, l: Ledger)
    requires LedgerOk(l) && l.end.Some? && l.end.value.GaveUp?
    ensures var row := RowOf(origin, l);
            row.status.Failed? && row.savedIds == [] && row.completed == row.failed == row.total == 0
            && row.error == Some(l.end.value.message) && l.calls == []
  {
  }

  // ----- ledgers only grow -----

  /** What one ledger may become: entries are added, never changed, and nothing is added after the end. */
  ghost predicate Extends(l: Ledger, m: Ledger) {
    && l.pages <= m.pages && l.outcomes <= m.outcomes && l.calls <= m.calls
    && (l.listed ==> m.listed && l.pages == m.pages)
    && (l.totalSet ==> m.totalSet)
    && (l.end.Some? ==> m == l)
  }

  lemma ExtendsRefl(l: Ledger)
    ensures Extends(l, l)
  {
  }

  lemma ExtendsOn(l: Ledger, m: Ledger, n: Ledger)
    requires Extends(l, m) && Extends(m, n)
    ensures Extends(l, n)
  {
  }

  function StatusRank(s: Status): nat {
    match s
    case Pending => 0
    case Running => 1
    case Complete => 2
    case Failed => 2
  }

  /** A later sight of the same job: the status does not go back, counts do not shrink, the total is set once from 0. */
  ghost predicate RowLater(a: Row, b: Row) {
    && a.user == b.user && a.session == b.session && a.metadata == b.metadata && a.createdAt == b.createdAt
    && StatusRank(a.status) <= StatusRank(b.status)
    && (a.status.Terminal() ==> b == a)
    && a.completed <= b.completed && a.failed <= b.failed && a.savedIds <= b.savedIds
    && (a.total == b.total || a.total == 0)
  }

  lemma {:induction false} MoreOutcomes(a: seq<ItemOutcome>, b: seq<ItemOutcome>)
    requires a <= b
    ensures SavedIds(a) <= SavedIds(b) && Failures(a) <= Failures(b)
    decreases |b|
  {
    if |a| < |b| {
      MoreOutcomes(a, b[..|b| - 1]);
    } else {
      assert a == b;
    }
  }

  lemma ExtendedRow(origin: Row, l: Ledger, m: Ledger)
    requires Extends(l, m) && (!l.listed ==> !l.totalSet)
    ensures RowLater(RowOf(origin, l), RowOf(origin, m))
  {
    MoreOutcomes(l.outcomes, m.outcomes);
  }

  /** A claimed row is a later sight of the created one. */
  lemma ClaimedRow(origin: Row, l: Ledger)
    requires origin.status.Pending? && origin.total == origin.completed == origin.failed == 0 && origin.savedIds == []
    ensures RowLater(origin, RowOf(origin, l))
  {
  }

  lemma RowLaterOn(a: Row, b: Row, c: Row)
    requires RowLater(a, b) && RowLater(b, c)
    ensures RowLater(a, c)
  {
  }
}
