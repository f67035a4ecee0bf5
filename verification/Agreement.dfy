/** Where the independent replays of one log agree, and exactly where they do not. */
module Agreement {
  import opened Events
  import opened Log
  import opened WorkerReplay
  import O = OrchestratorReplay
  import opened Rebuild
  import EventStore
  import opened History

  /** Every event about a run sits in that run's own stream. */
  ghost predicate Housed(log: seq<Event>) {
    forall k :: 0 <= k < |log| && RunOf(log[k]).Some? ==> log[k].resourceId == RunOf(log[k]).value
  }

  /** Every item is named by the events of one run only. */
  ghost predicate OneRunPerItem(log: seq<Event>) {
    forall j, k :: 0 <= j < |log| && 0 <= k < |log| && NamesItem(log[j].payload) &&
        Names(log[k].payload, log[j].payload.itemId)
      ==> log[j].payload.runId == log[k].payload.runId
  }

  ghost predicate Unblocked(log: seq<Event>) {
    forall k :: 0 <= k < |log| ==> !log[k].payload.BlockerEncountered?
  }

  // ---- Items ---------------------------------------------------------------------------------

  function ItemOf(items: Items, item: Uuid): Option<Item> {
    if item in items then Some(items[item]) else None
  }

  function StatusOf(items: Items, item: Uuid): Option<ItemStatus> {
    if item in items then Some(items[item].status) else None
  }

  /** Whether the last event of a run that names the item is a `BlockerEncountered`. */
  predicate EndsBlocked(log: seq<Event>, run: Uuid, item: Uuid) {
    log != []
    && if RunOf(Last(log)) == Some(run) && Names(Last(log).payload, item) then Last(log).payload.BlockerEncountered?
       else EndsBlocked(Front(log), run, item)
  }

  /**
   * The worker's replay of the whole log against the orchestrator's replay of the run's own stream:
   * the agents are always the same, and the items are the same exactly when the last word on the
   * item is not a blocker, which the worker's replay does not record on the item.
   */
  lemma {:induction false} WorkerItemsAgree(log: seq<Event>, run: Uuid, item: Uuid)
    requires Housed(log)
    ensures AgentOf(CoreOf(log, run).items, item) == AgentOf(O.FromStream(Stream(log, run)).items, item)
    ensures ItemOf(CoreOf(log, run).items, item) == ItemOf(O.FromStream(Stream(log, run)).items, item)
       <==> !EndsBlocked(log, run, item)
  {
    if log != [] {
      WorkerItemsAgree(Front(log), run, item);
      WorkerNeverStuck(Front(log), run, item);
      StreamNext(log, run);
      OneEventAgrees(CoreOf(Front(log), run), O.FromStream(Stream(Front(log), run)), Last(log).payload, item);
    }
  }

  lemma {:induction false} OneEventAgrees(c: Core, v: O.StreamView, p: Payload, item: Uuid)
    requires AgentOf(c.items, item) == AgentOf(v.items, item) && StatusOf(c.items, item) != Some(Stuck)
    ensures AgentOf(Apply(c, p).items, item) == AgentOf(O.Apply(v, p).items, item)
    ensures Names(p, item) ==>
            (ItemOf(Apply(c, p).items, item) == ItemOf(O.Apply(v, p).items, item) <==> !p.BlockerEncountered?)
    ensures !Names(p, item) ==>
              ItemOf(Apply(c, p).items, item) == ItemOf(c.items, item) &&
                  ItemOf(O.Apply(v, p).items, item) == ItemOf(v.items, item)
  {
  }

  lemma {:induction false} StreamNext(log: seq<Event>, run: Uuid)
    requires log != []
    ensures O.FromStream(Stream(log, run))
         == if Last(log).resourceId == run then O.Apply(O.FromStream(Stream(Front(log), run)), Last(log).payload)
            else O.FromStream(Stream(Front(log), run))
  {
    if Last(log).resourceId == run {
      assert Front(Stream(log, run)) == Stream(Front(log), run);
    } else {
      assert Stream(log, run) == Stream(Front(log), run);
    }
  }

  lemma {:induction false} WorkerNeverStuck(log: seq<Event>, run: Uuid, item: Uuid)
    ensures StatusOf(CoreOf(log, run).items, item) != Some(Stuck)
  {
    if log != [] {
      WorkerNeverStuck(Front(log), run, item);
    }
  }

  /**
   * Global replay is local: in every interleaved log, the rows the rebuild gives a run, with their
   * statuses, are those the run's own stream gives when it is replayed alone.
   */
  lemma {:induction false} RebuiltItemsAgree(log: seq<Event>, run: Uuid, item: Uuid)
    requires Housed(log) && OneRunPerItem(log)
    ensures var row := ItemRowOf(log, item);
            StatusOf(O.FromStream(Stream(log, run)).items, item)
            == if row.Some? && row.value.runId == run then Some(row.value.status) else None
  {
    if log != [] {
      RebuiltItemsAgree(Front(log), run, item);
      StreamNext(log, run);
      RowIsNamed(Front(log), item);
      var row := ItemRowOf(Front(log), item);
      if Names(Last(log).payload, item) && row.Some? {
        var k :| 0 <= k < |Front(log)| && Names(Front(log)[k].payload, item) &&
            Front(log)[k].payload.runId == row.value.runId;
        assert log[k] == Front(log)[k] && log[|log| - 1] == Last(log);
      }
    }
  }

  lemma {:induction false} RowIsNamed(log: seq<Event>, item: Uuid)
    ensures ItemRowOf(log, item).Some? ==>
              exists k :: 0 <= k < |log| && Names(log[k].payload, item) &&
                  log[k].payload.runId == ItemRowOf(log, item).value.runId
  {
    if log != [] && ItemRowOf(log, item).Some? {
      RowIsNamed(Front(log), item);
      if ItemRowOf(Front(log), item).Some? {
        var k :| 0 <= k < |Front(log)| && Names(Front(log)[k].payload, item)
                 && Front(log)[k].payload.runId == ItemRowOf(Front(log), item).value.runId;
        assert log[k] == Front(log)[k];
      } else {
        assert log[|log| - 1] == Last(log);
      }
    }
  }

  // ---- Run status ----------------------------------------------------------------------------

  /** The first event about the run sets its status in the worker's replay. */
  ghost predicate OpensWithStatus(log: seq<Event>, run: Uuid) {
    log == []
    || (OpensWithStatus(Front(log), run)
        && (RunOf(Last(log)) == Some(run) && !Mentions(Front(log), run) ==> SetsWorkerStatus(Last(log).payload)))
  }

  predicate SetsWorkerStatus(p: Payload) {
    p.RunStarted? || p.RunStatusChanged? || p.WorkItemFailed? || p.RunCompleted? || p.BlockerEncountered?
  }

  /** Whether work was recorded for the run after the last event that sets the worker's status. */
  predicate WorkedSince(log: seq<Event>, run: Uuid) {
    log != []
    && if RunOf(Last(log)) == Some(run) && SetsWorkerStatus(Last(log).payload) then false
       else (RunOf(Last(log)) == Some(run) && CarriesWork(Last(log).payload)) || WorkedSince(Front(log), run)
  }

  /** Rebuilt run status in terms of the worker's: recorded work turns the rebuilt row back to running. */
  lemma {:induction false} RebuiltStatus(log: seq<Event>, run: Uuid)
    requires OpensWithStatus(log, run)
    ensures RunRowOf(log, run).Some? <==> Mentions(log, run)
    ensures Mentions(log, run) ==>
              RunRowOf(log, run).value.status == if WorkedSince(log, run) then Running else CoreOf(log, run).status
  {
    if log != [] {
      MentionsNext(log, |log| - 1);
      assert log[..|log|] == log;
      RebuiltStatus(Front(log), run);
    }
  }

  /** The rebuilt status and the worker's agree exactly when no work followed a halting status event. */
  lemma {:induction false} RebuiltStatusAgrees(log: seq<Event>, run: Uuid)
    requires OpensWithStatus(log, run) && Mentions(log, run)
    ensures RunRowOf(log, run).Some?
    ensures RunRowOf(log, run).value.status == CoreOf(log, run).status
       <==> !WorkedSince(log, run) || CoreOf(log, run).status == Running
  {
    RebuiltStatus(log, run);
  }

  /** Whether the last event that sets the worker's status is a failed item. */
  predicate FailedSince(log: seq<Event>, run: Uuid) {
    log != []
    && if RunOf(Last(log)) == Some(run) && SetsWorkerStatus(Last(log).payload) then Last(log).payload.WorkItemFailed?
       else FailedSince(Front(log), run)
  }

  /** Whether, failed items aside, the last event that sets the run's status sets it to blocked. */
  predicate OtherwiseBlocked(log: seq<Event>, run: Uuid) {
    log != []
    && var p := Last(log).payload;
       if RunOf(Last(log)) == Some(run) && SetsWorkerStatus(p) && !p.WorkItemFailed? then
         p.BlockerEncountered? || (p.RunStatusChanged? && p.status == Blocked)
       else OtherwiseBlocked(Front(log), run)
  }

  /**
   * The orchestrator does not see a failed item as blocking the run, and nothing else separates the
   * two: they differ exactly when a failed item came last and nothing else had blocked the run.
   */
  lemma {:induction false} OrchestratorStatusAgrees(log: seq<Event>, run: Uuid)
    requires Housed(log)
    ensures FailedSince(log, run) ==> CoreOf(log, run).status == Blocked
    ensures OtherwiseBlocked(log, run) <==> O.FromStream(Stream(log, run)).status == Blocked
    ensures CoreOf(log, run).status == O.FromStream(Stream(log, run)).status
       <==> !FailedSince(log, run) || OtherwiseBlocked(log, run)
  {
    if log != [] {
      OrchestratorStatusAgrees(Front(log), run);
      StreamNext(log, run);
    }
  }

  // ---- Totals --------------------------------------------------------------------------------

  /** The effort of a run, as the sum over its completion and progress events. */
  function SumEffort(log: seq<Event>, run: Uuid): int {
    if log == [] then 0
    else SumEffort(Front(log), run) + if RunOf(Last(log)) == Some(run) then EffortOf(Last(log).payload) else 0
  }

  function SumCost(log: seq<Event>, run: Uuid): real {
    if log == [] then 0.0
    else SumCost(Front(log), run) + if RunOf(Last(log)) == Some(run) then CostOf(Last(log).payload) else 0.0
  }

  lemma {:induction false} WorkerTotals(log: seq<Event>, run: Uuid)
    ensures CoreOf(log, run).effort == SumEffort(log, run) && CoreOf(log, run).cost == SumCost(log, run)
  {
    if log != [] {
      WorkerTotals(Front(log), run);
    }
  }

  lemma {:induction false} HistoryTotals(log: seq<Event>, run: Uuid)
    requires Housed(log)
    ensures TotalEffort(Stream(log, run)) == SumEffort(log, run) && TotalCost(Stream(log, run)) == SumCost(log, run)
  {
    if log != [] {
      HistoryTotals(Front(log), run);
      if Last(log).resourceId == run {
        assert Front(Stream(log, run)) == Stream(Front(log), run);
      } else {
        assert Stream(log, run) == Stream(Front(log), run);
      }
    }
  }

  /** No event about the run precedes its `RunStarted`, if it has one. */
  ghost predicate NeverRestarts(log: seq<Event>, run: Uuid) {
    log == []
    || (NeverRestarts(Front(log), run)
        && (RunOf(Last(log)) == Some(run) && Last(log).payload.RunStarted? ==> !Mentions(Front(log), run)))
  }

  /** What the run had accumulated before its last `RunStarted`, which resets the rebuilt totals. */
  function EffortBeforeStart(log: seq<Event>, run: Uuid): int {
    if log == [] then 0
    else if RunOf(Last(log)) == Some(run) && Last(log).payload.RunStarted? then SumEffort(Front(log), run)
    else EffortBeforeStart(Front(log), run)
  }

  function CostBeforeStart(log: seq<Event>, run: Uuid): real {
    if log == [] then 0.0
    else if RunOf(Last(log)) == Some(run) && Last(log).payload.RunStarted? then SumCost(Front(log), run)
    else CostBeforeStart(Front(log), run)
  }

  lemma {:induction false} RebuiltTotals(log: seq<Event>, run: Uuid)
    ensures RunRowOf(log, run).None? ==>
              && SumEffort(log, run) == 0 == EffortBeforeStart(log, run)
              && SumCost(log, run) == 0.0 == CostBeforeStart(log, run)
    ensures RunRowOf(log, run).Some? ==>
              && RunRowOf(log, run).value.effort == SumEffort(log, run) - EffortBeforeStart(log, run)
              && RunRowOf(log, run).value.cost == SumCost(log, run) - CostBeforeStart(log, run)
  {
    if log != [] {
      RebuiltTotals(Front(log), run);
    }
  }

  lemma {:induction false} NothingBeforeStart(log: seq<Event>, run: Uuid)
    requires NeverRestarts(log, run)
    ensures EffortBeforeStart(log, run) == 0 && CostBeforeStart(log, run) == 0.0
  {
    if log != [] {
      NothingBeforeStart(Front(log), run);
      if RunOf(Last(log)) == Some(run) && Last(log).payload.RunStarted? {
        UnmentionedIsBlank(Front(log), run);
        WorkerTotals(Front(log), run);
      }
    }
  }

  /** Conservation: four independent accounts of a run's effort and cost are one number each. */
  lemma {:induction false} TotalsConserved(log: seq<Event>, run: Uuid)
    requires Housed(log) && NeverRestarts(log, run)
    ensures CoreOf(log, run).effort == SumEffort(log, run) && CoreOf(log, run).cost == SumCost(log, run)
    ensures RunRowOf(log, run).Some? ==>
              RunRowOf(log, run).value.effort == SumEffort(log, run) &&
                  RunRowOf(log, run).value.cost == SumCost(log, run)
    ensures var points := PointsOf(Stream(log, run));
            points != [] ==> Last(points).effort == SumEffort(log, run) && Last(points).cost == SumCost(log, run)
    ensures PointsOf(Stream(log, run)) == [] ==> SumEffort(log, run) == 0 && SumCost(log, run) == 0.0
  {
    WorkerTotals(log, run);
    RebuiltTotals(log, run);
    NothingBeforeStart(log, run);
    LastPointHoldsTotals(Stream(log, run));
    HistoryTotals(log, run);
  }

  lemma {:induction false} TotalsWithout(log: seq<Event>, k: nat, run: Uuid)
    requires k < |log|
    ensures SumEffort(log, run) == SumEffort(log[..k] + log[k + 1..], run) + SumEffort([log[k]], run)
    ensures SumCost(log, run) == SumCost(log[..k] + log[k + 1..], run) + SumCost([log[k]], run)
  {
    var less := log[..k] + log[k + 1..];
    assert Front([log[k]]) == [];
    if k == |log| - 1 {
      assert less == Front(log);
    } else {
      TotalsWithout(Front(log), k, run);
      assert Front(less) == Front(log)[..k] + Front(log)[k + 1..];
      assert Last(less) == Last(log);
    }
  }

  lemma {:induction false} TotalsIgnoreOrder(a: seq<Event>, b: seq<Event>, run: Uuid)
    requires multiset(a) == multiset(b)
    ensures SumEffort(a, run) == SumEffort(b, run) && SumCost(a, run) == SumCost(b, run)
    decreases |a|
  {
    assert |multiset(a)| == |a| && |multiset(b)| == |b|;
    if a != [] {
      var x := Last(a);
      assert x in multiset(b);
      var k :| 0 <= k < |b| && b[k] == x;
      TotalsWithout(b, k, run);
      TotalsWithout(a, |a| - 1, run);
      assert a[..|a| - 1] + a[|a|..] == Front(a);
      EventStore.FrontMultiset(a);
      WithoutMultiset(b, k);
      TotalsIgnoreOrder(Front(a), b[..k] + b[k + 1..], run);
    }
  }

  lemma {:induction false} WithoutMultiset(b: seq<Event>, k: nat)
    requires k < |b|
    ensures multiset(b[..k] + b[k + 1..]) == multiset(b) - multiset{b[k]}
  {
    assert b == b[..k] + [b[k]] + b[k + 1..];
  }

  /** The rebuild has a row for exactly the runs the log mentions. */
  lemma {:induction false} RowIffMentioned(log: seq<Event>, run: Uuid)
    ensures RunRowOf(log, run).Some? <==> Mentions(log, run)
  {
    if log != [] {
      RowIffMentioned(Front(log), run);
      MentionsNext(log, |log| - 1);
      assert log[..|log|] == log;
    }
  }

  lemma {:induction false} MentionsIgnoresOrder(a: seq<Event>, b: seq<Event>, run: Uuid)
    requires multiset(a) == multiset(b) && Mentions(a, run)
    ensures Mentions(b, run)
  {
    var k :| 0 <= k < |a| && RunOf(a[k]) == Some(run);
    assert a[k] in multiset(b);
    var j :| 0 <= j < |b| && b[j] == a[k];
  }

  /** Neither the rows nor the rebuilt totals depend on the order of the log, as long as no run restarts. */
  lemma {:induction false} RebuiltTotalsIgnoreOrder(a: seq<Event>, b: seq<Event>, run: Uuid)
    requires multiset(a) == multiset(b)
    requires NeverRestarts(a, run) && NeverRestarts(b, run)
    ensures RunRowOf(a, run).Some? <==> RunRowOf(b, run).Some?
    ensures RunRowOf(a, run).Some? ==>
              && RunRowOf(a, run).value.effort == RunRowOf(b, run).value.effort
              && RunRowOf(a, run).value.cost == RunRowOf(b, run).value.cost
  {
    RowIffMentioned(a, run);
    RowIffMentioned(b, run);
    if Mentions(a, run) {
      MentionsIgnoresOrder(a, b, run);
    }
    if Mentions(b, run) {
      MentionsIgnoresOrder(b, a, run);
    }
    RebuiltTotals(a, run);
    RebuiltTotals(b, run);
    NothingBeforeStart(a, run);
    NothingBeforeStart(b, run);
    TotalsIgnoreOrder(a, b, run);
  }
}
