/** Two logs, one tick away from a fresh start, on which the replays show a run in different statuses. */
module Disagreements {
  import opened Events
  import opened Log
  import opened EventStore
  import opened WorkerReplay
  import opened Tick
  import opened TickReplay
  import opened Planner
  import opened Orchestrator
  import opened ControlEffects
  import opened Scenes
  import Rebuild
  import Agreement
  import LoadOrder
  import Harness
  import Protocol
  import Commits
  import opened StatusHistory
  import O = OrchestratorReplay

  const OTHER: Uuid := 10
  const TWO := DEALT + [WorkItem(OTHER, RUN, Stock(""), Some(AGENT), Assigned)]
  const BOTH: Items := ASSIGNED[OTHER := Item(Assigned, Some(AGENT))]
  const CRASH := Job(ITEM, Harness.Crashed("out of memory"))
  const RECOVERY := [CRASH, Job(OTHER, Harness.Executed(true, 5, 1.0, None))]

  /** A log that holds a fresh start of the run. */
  function Started(dealt: seq<WorkItem>): seq<Entry>
    requires forall k :: 0 <= k < |dealt| ==> dealt[k].agent.Some?
  {
    At(StartPayloads(RUN, 7, "", dealt), 0)
  }

  lemma {:induction false} StartedLog(dealt: seq<WorkItem>)
    requires forall k :: 0 <= k < |dealt| ==> dealt[k].agent.Some?
    ensures var log := Rows(Started(dealt), 0);
            && LoadOrder.Kept(log) && IsLoad(log, log) && InStep(log, RUN) && Mentions(log, RUN)
            && CoreOf(log, RUN) == Core(7, Running, 0.0, 0, StartedItems(dealt))
  {
    var es := Started(dealt);
    var log := Rows(es, 0);
    RowsInOrder(es);
    StartedReplay(dealt);
    StartedInStep(dealt);
    assert RunOf(log[0]) == Some(RUN);
  }

  lemma {:induction false} StartedReplay(dealt: seq<WorkItem>)
    requires forall k :: 0 <= k < |dealt| ==> dealt[k].agent.Some?
    ensures CoreOf(Rows(Started(dealt), 0), RUN) == Core(7, Running, 0.0, 0, StartedItems(dealt))
  {
    CoreOfEvents(Rows(Started(dealt), 0), RUN);
    StartOnWorker(RUN, 7, "", dealt);
  }

  lemma {:induction false} StartedInStep(dealt: seq<WorkItem>)
    requires forall k :: 0 <= k < |dealt| ==> dealt[k].agent.Some?
    ensures LoadOrder.Kept(Rows(Started(dealt), 0)) && InStep(Rows(Started(dealt), 0), RUN)
  {
    var es := Started(dealt);
    RowsAppend([], es);
    assert [] + es == es && Rows([], 0) == [];
    StartShaped(dealt);
    assert Payloads(Rows(es, 0)) == StartPayloads(RUN, 7, "", dealt);
    Protocol.AppendedKept([], RUN, Rows(es, 0));
    assert InStep([], RUN);
    ControlKeepsStep([], RUN, Rows(es, 0), RUN);
  }

  lemma {:induction false} StartShaped(dealt: seq<WorkItem>)
    requires forall k :: 0 <= k < |dealt| ==> dealt[k].agent.Some?
    ensures ControlShape(RUN, StartPayloads(RUN, 7, "", dealt))
  {
  }

  lemma {:induction false} TickRows(log: seq<Entry>, c: Core, work: seq<Job>, maxItems: nat) returns (batch: seq<Event>)
    requires Workable(c) && Taken(c, AGENT, true, maxItems, work)
    ensures batch == Rows(At(BatchPayloads(c, AGENT, RUN, work), 1), |log|)
    ensures TickAppends(c, Rows(log, 0), Rows(log + At(BatchPayloads(c, AGENT, RUN, work), 1), 0),
                        AGENT, true, maxItems, RUN, work, batch)
  {
    batch := Rows(At(BatchPayloads(c, AGENT, RUN, work), 1), |log|);
    RowsAppend(log, At(BatchPayloads(c, AGENT, RUN, work), 1));
  }

  lemma {:induction false} TwoItems()
    ensures StartedItems(TWO) == BOTH
    ensures Taken(Core(7, Running, 0.0, 0, BOTH), AGENT, true, 2, RECOVERY) && RecoversAfterFailure(RECOVERY)
  {
    var c := Core(7, Running, 0.0, 0, BOTH);
    assert Front(TWO) == DEALT && Front(DEALT) == [];
    assert StartedItems(DEALT) == ASSIGNED;
    assert Front(RECOVERY) == [CRASH] && Front([CRASH]) == [];
    assert Legal(c, AGENT, true, []) && NoteAll(c, []) == c;
    assert Legal(c, AGENT, true, [CRASH]) && NoteAll(c, [CRASH]) == Note(c, CRASH);
    assert HasFailure([CRASH]);
  }

  /**
   * A run of two items is started, and one tick of two items crashes on the first and succeeds on the
   * second: the rebuilt run is running, the worker's replay has it blocked, in the very same load.
   */
  lemma {:induction false} RebuildDisagreesWithWorker() returns (log: seq<Event>, next: seq<Event>, batch: seq<Event>)
    ensures Payloads(log) == StartPayloads(RUN, 7, "", TWO) && IsLoad(log, log) && Agreed(log, RUN)
    ensures TickAppends(CoreOf(log, RUN), log, next, AGENT, true, 2, RUN, RECOVERY, batch) && IsLoad(next, next)
    ensures Rebuild.RunRowOf(next, RUN).Some? && Rebuild.RunRowOf(next, RUN).value.status == Running
    ensures CoreOf(next, RUN).status == Blocked
  {
    var es := Started(TWO);
    log := Rows(es, 0);
    StartedLog(TWO);
    TwoItems();
    var c := CoreOf(log, RUN);
    assert OTHER in c.items;
    var more := At(BatchPayloads(c, AGENT, RUN, RECOVERY), 1);
    batch := TickRows(es, c, RECOVERY, 2);
    next := Rows(es + more, 0);
    RowsInOrder(es + more);
    TickKeepsStatusExactly(log, next, AGENT, true, 2, RUN, RECOVERY, batch);
    Agreement.RebuiltStatus(next, RUN);
    FailedTickBlocks(log, next, c, RECOVERY, batch);
  }

  /** A tick in which something failed leaves the worker's replay of the run blocked. */
  lemma {:induction false} FailedTickBlocks(log: seq<Event>, next: seq<Event>, c: Core, work: seq<Job>,
                                            batch: seq<Event>)
    requires c == CoreOf(log, RUN) && Workable(c) && HasFailure(work)
    requires TickAppends(c, log, next, AGENT, true, |work|, RUN, work, batch)
    ensures CoreOf(next, RUN).status == Blocked
  {
    Commits.BatchProper(c, AGENT, RUN, work);
    Protocol.AppendedCore(log, RUN, batch, RUN);
    BatchReplay(c, c, AGENT, RUN, work);
    JobsStatus(c, AGENT, work);
    SomeFailed(c, AGENT, true, work);
  }

  /**
   * A run of one item is started, and a tick fails on it: the worker's replay has the run blocked, the
   * orchestrator's replay of the same stream has it running.
   */
  lemma {:induction false} OrchestratorDisagreesWithWorker() returns (log: seq<Event>, next: seq<Event>,
                                                           batch: seq<Event>)
    ensures Payloads(log) == StartPayloads(RUN, 7, "", DEALT) && IsLoad(log, log)
    ensures TickAppends(CoreOf(log, RUN), log, next, AGENT, true, 1, RUN, [CRASH], batch) && IsLoad(next, next)
    ensures CoreOf(next, RUN).status == Blocked && O.FromStream(Stream(next, RUN)).status == Running
    ensures LoadOrder.Kept(next) && Agreement.FailedSince(next, RUN)
  {
    var es := Started(DEALT);
    log := Rows(es, 0);
    StartedLog(DEALT);
    StartEffect();
    CoreOfEvents(log, RUN);
    var c := CoreOf(log, RUN);
    OneCrash(c);
    var more := At(BatchPayloads(c, AGENT, RUN, [CRASH]), 1);
    batch := TickRows(es, c, [CRASH], 1);
    next := Rows(es + more, 0);
    RowsInOrder(es + more);
    FailedTickBlocks(log, next, c, [CRASH], batch);
    Protocol.AppendedKept(log, RUN, batch);
    CrashOnStream(es, more);
  }

  lemma {:induction false} CrashOnStream(es: seq<Entry>, more: seq<Entry>)
    requires Bare(es) == Starting() && Bare(more) == [WorkItemFailed(RUN, ITEM, "out of memory")]
    ensures O.FromStream(Stream(Rows(es + more, 0), RUN)).status == Running
    ensures Agreement.FailedSince(Rows(es + more, 0), RUN)
  {
    assert |Bare(more)| == |more| == 1 && Bare(more)[0] == more[0].payload;
    BareConcat(es, At([PAUSE], 0));
    StreamViews(es, es + At([PAUSE], 0));
    RowsFront(es + more);
    assert Front(es + more) == es;
    Agreement.StreamNext(Rows(es + more, 0), RUN);
  }

  lemma {:induction false} OneCrash(c: Core)
    requires Ready(c)
    ensures Workable(c) && Taken(c, AGENT, true, 1, [CRASH]) && HasFailure([CRASH])
    ensures BatchPayloads(c, AGENT, RUN, [CRASH]) == [WorkItemFailed(RUN, ITEM, "out of memory")]
    ensures Protocol.Proper(BatchPayloads(c, AGENT, RUN, [CRASH]), RUN)
  {
    assert ITEM in c.items && Front([CRASH]) == [];
    assert Legal(c, AGENT, true, []) && NoteAll(c, []) == c && NoteAll(c, [CRASH]) == Note(c, CRASH);
    assert JobPayloads(AGENT, RUN, []) == [];
    assert ITEM in NoteAll(c, [CRASH]).items && NoteAll(c, [CRASH]).items[ITEM].status != Done;
  }
}
