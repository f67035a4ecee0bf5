/** What the rebuilt rows and the worker's books hold, field by field, by the events that say so. */
module RowContents {
  import opened Events
  import opened Log
  import opened WorkerReplay
  import opened Rebuild
  import opened History
  import opened Agreement
  import opened LoadOrder
  import O = OrchestratorReplay

  /**
   * Kinds of events: those that name an item, assign it, or give it to an agent by an assignment or a start;
   * and those about a run, those that set the time of its row (an assignment or a start only enters it), and
   * those that decide the row's status.
   */
  datatype Kind =
    | Naming(item: Uuid)
    | Assigning(item: Uuid)
    | Giving(run: Uuid, item: Uuid)
    | About(run: Uuid)
    | Stamping(run: Uuid)
    | Deciding(run: Uuid)

  predicate Of(e: Event, kind: Kind) {
    match kind
    case Naming(item) => Names(e.payload, item)
    case Assigning(item) => e.payload.WorkItemAssigned? && e.payload.itemId == item
    case Giving(run, item) => GivesAgent(e, run, item)
    case About(run) => RunOf(e) == Some(run)
    case Stamping(run) => RunOf(e) == Some(run) && !e.payload.WorkItemAssigned? && !e.payload.WorkItemStarted?
    case Deciding(run) => RunOf(e) == Some(run) && (SetsWorkerStatus(e.payload) || CarriesWork(e.payload))
  }

  /** No event of the kind. */
  ghost predicate Never(log: seq<Event>, kind: Kind) {
    forall j :: 0 <= j < |log| ==> !Of(log[j], kind)
  }

  /** The last event of the kind, by its position. */
  ghost predicate IsLast(log: seq<Event>, kind: Kind, k: int) {
    0 <= k < |log| && Of(log[k], kind) && forall j :: k < j < |log| ==> !Of(log[j], kind)
  }

  ghost predicate IsFirst(log: seq<Event>, kind: Kind, k: int) {
    0 <= k < |log| && Of(log[k], kind) && forall j :: 0 <= j < k ==> !Of(log[j], kind)
  }

  lemma {:induction false} SomeLast(log: seq<Event>, kind: Kind) returns (k: int)
    ensures k < 0 ==> Never(log, kind)
    ensures k >= 0 ==> IsLast(log, kind, k)
  {
    k := |log| - 1;
    while k >= 0 && !Of(log[k], kind)
      invariant -1 <= k < |log|
      invariant forall j :: k < j < |log| ==> !Of(log[j], kind)
    {
      k := k - 1;
    }
  }

  /** Earlier in the log the last event of a kind is the same one, unless it is the last of all. */
  lemma {:induction false} LastBefore(log: seq<Event>, kind: Kind, k: int)
    requires IsLast(log, kind, k)
    ensures if k == |log| - 1 then log[k] == Last(log) else IsLast(Front(log), kind, k) && !Of(Last(log), kind)
    ensures Front(log) == log[..|log| - 1] && forall j :: 0 <= j < |log| - 1 ==> Front(log)[j] == log[j]
  {
  }

  // ---- The row of an item -------------------------------------------------------------------------------

  /** There is a row exactly for the items that are named. */
  lemma {:induction false} ItemRowExists(log: seq<Event>, item: Uuid)
    ensures ItemRowOf(log, item).None? <==> Never(log, Naming(item))
  {
    if log != [] {
      ItemRowExists(Front(log), item);
      assert Last(log) == log[|log| - 1] && forall j :: 0 <= j < |log| - 1 ==> Front(log)[j] == log[j];
    }
  }

  /** It keeps the run of the first event that named the item. */
  lemma {:induction false} ItemRowRun(log: seq<Event>, item: Uuid, k: int)
    requires IsFirst(log, Naming(item), k)
    ensures ItemRowOf(log, item).Some? && ItemRowOf(log, item).value.runId == log[k].payload.runId
  {
    if k < |log| - 1 {
      assert IsFirst(Front(log), Naming(item), k);
      ItemRowRun(Front(log), item, k);
    } else {
      ItemRowExists(Front(log), item);
    }
  }

  /** The status an event gives the item it names. */
  predicate Gives(p: Payload, status: ItemStatus) {
    || (p.WorkItemAssigned? && status == Assigned) || (p.WorkItemStarted? && status == InProgress)
    || (p.WorkItemCompleted? && status == Done) || (p.WorkItemFailed? && status == Failed)
    || (p.BlockerEncountered? && status == Stuck)
  }

  /** It has the status that the last event naming the item gives. */
  lemma {:induction false} ItemRowStatus(log: seq<Event>, item: Uuid, k: int)
    requires IsLast(log, Naming(item), k)
    ensures ItemRowOf(log, item).Some? && Gives(log[k].payload, ItemRowOf(log, item).value.status)
  {
    LastBefore(log, Naming(item), k);
    if k < |log| - 1 {
      ItemRowStatus(Front(log), item, k);
    }
  }

  /** It has the agent the item was last assigned to; starts do not count. */
  lemma {:induction false} ItemRowAgent(log: seq<Event>, item: Uuid, k: int)
    requires IsLast(log, Assigning(item), k)
    ensures ItemRowOf(log, item).Some? && ItemRowOf(log, item).value.agent == Some(log[k].payload.agentId)
  {
    LastBefore(log, Assigning(item), k);
    if k < |log| - 1 {
      ItemRowAgent(Front(log), item, k);
    }
  }

  /** And none if it was never assigned. */
  lemma {:induction false} ItemRowWithoutAgent(log: seq<Event>, item: Uuid)
    requires Never(log, Assigning(item))
    ensures ItemRowOf(log, item).Some? ==> ItemRowOf(log, item).value.agent == None
  {
    if log != [] {
      assert !Of(log[|log| - 1], Assigning(item)) && forall j :: 0 <= j < |log| - 1 ==> Front(log)[j] == log[j];
      ItemRowWithoutAgent(Front(log), item);
    }
  }

  /** An item that the worker's replay holds for a run was named by an event of that run. */
  lemma {:induction false} HeldWasNamed(log: seq<Event>, run: Uuid, item: Uuid)
    requires item in CoreOf(log, run).items
    ensures exists k :: 0 <= k < |log| && Names(log[k].payload, item) && log[k].payload.runId == run
  {
    if log != [] {
      var last := |log| - 1;
      if RunOf(log[last]) == Some(run) && Names(log[last].payload, item) {
      } else {
        HeldWasNamed(Front(log), run, item);
        var k :| 0 <= k < |Front(log)| && Names(Front(log)[k].payload, item) && Front(log)[k].payload.runId == run;
        assert log[k] == Front(log)[k];
      }
    }
  }

  lemma {:induction false} HeldHasRow(log: seq<Event>, run: Uuid, item: Uuid)
    requires OneRunPerItem(log) && item in CoreOf(log, run).items
    ensures ItemRowOf(log, item).Some? && ItemRowOf(log, item).value.runId == run
  {
    HeldWasNamed(log, run, item);
    ItemRowExists(log, item);
    var k :| 0 <= k < |log| && Names(log[k].payload, item) && log[k].payload.runId == run;
    assert Of(log[k], Naming(item));
    RowIsNamed(log, item);
    var j :| 0 <= j < |log| && Names(log[j].payload, item) && log[j].payload.runId == ItemRowOf(log, item).value.runId;
    assert NamesItem(log[j].payload) && log[j].payload.itemId == item;
  }

  /** Events that assign nothing leave the run and the agent of a row as they are. */
  lemma {:induction false} UnassignedRowKept(log: seq<Event>, rows: seq<Event>, item: Uuid)
    requires ItemRowOf(log, item).Some? && forall k :: 0 <= k < |rows| ==> !rows[k].payload.WorkItemAssigned?
    ensures ItemRowOf(log + rows, item).Some?
    ensures ItemRowOf(log + rows, item).value.runId == ItemRowOf(log, item).value.runId
    ensures ItemRowOf(log + rows, item).value.agent == ItemRowOf(log, item).value.agent
  {
    if rows == [] {
      assert log + rows == log;
    } else {
      assert !rows[|rows| - 1].payload.WorkItemAssigned?;
      UnassignedRowKept(log, Front(rows), item);
      assert Front(log + rows) == log + Front(rows) && Last(log + rows) == Last(rows);
    }
  }

  // ---- The agents of the replays ----------------------------------------------------------------------

  /** In the worker's replay an item has the agent of the last event that assigns or starts it. */
  lemma {:induction false} WorkerAgent(log: seq<Event>, run: Uuid, item: Uuid, k: int)
    requires IsLast(log, Giving(run, item), k)
    ensures AgentOf(CoreOf(log, run).items, item) == Some(log[k].payload.agentId)
  {
    LastBefore(log, Giving(run, item), k);
    if k < |log| - 1 {
      WorkerAgent(Front(log), run, item, k);
    }
  }

  lemma {:induction false} WorkerWithoutAgent(log: seq<Event>, run: Uuid, item: Uuid)
    requires Never(log, Giving(run, item))
    ensures AgentOf(CoreOf(log, run).items, item) == None
  {
    AgentWasGiven(log, run, item);
  }

  /** Whether the last event that gives the item to somebody is a start, by another than it was last assigned to. */
  ghost predicate Displaced(log: seq<Event>, run: Uuid, item: Uuid) {
    exists s :: IsLast(log, Giving(run, item), s) && log[s].payload.WorkItemStarted?
                && forall k :: IsLast(log, Assigning(item), k) ==> log[k].payload.agentId != log[s].payload.agentId
  }

  /**
   * The rebuilt row has the agent that the worker's and the orchestrator's replay have, exactly when the last
   * start since the item was last assigned, if there is one, is by the agent it was assigned to.
   */
  lemma {:induction false} RebuiltAgentAgrees(log: seq<Event>, run: Uuid, item: Uuid)
    requires Housed(log) && OneRunPerItem(log)
    requires ItemRowOf(log, item).Some? && ItemRowOf(log, item).value.runId == run
    ensures ItemRowOf(log, item).value.agent == AgentOf(CoreOf(log, run).items, item) <==> !Displaced(log, run, item)
    ensures AgentOf(O.FromStream(Stream(log, run)).items, item) == AgentOf(CoreOf(log, run).items, item)
  {
    WorkerItemsAgree(log, run, item);
    NamedByOwner(log, run, item);
    var s := SomeLast(log, Giving(run, item));
    var k := SomeLast(log, Assigning(item));
    if s < 0 {
      WorkerWithoutAgent(log, run, item);
      assert k >= 0 ==> Of(log[k], Giving(run, item));
      ItemRowWithoutAgent(log, item);
    } else {
      WorkerAgent(log, run, item, s);
      if k < 0 {
        ItemRowWithoutAgent(log, item);
        assert !Of(log[s], Assigning(item));
      } else {
        ItemRowAgent(log, item, k);
        assert Of(log[k], Giving(run, item));
        assert log[s].payload.WorkItemAssigned? ==> Of(log[s], Assigning(item));
      }
    }
  }

  lemma {:induction false} NamedByOwner(log: seq<Event>, run: Uuid, item: Uuid)
    requires OneRunPerItem(log) && ItemRowOf(log, item).Some? && ItemRowOf(log, item).value.runId == run
    ensures forall j :: 0 <= j < |log| && Names(log[j].payload, item) ==> log[j].payload.runId == run
  {
    RowIsNamed(log, item);
    var k :| 0 <= k < |log| && Names(log[k].payload, item) && log[k].payload.runId == run;
    assert log[k].payload.itemId == item;
  }

  // ---- The row of a run ---------------------------------------------------------------------------------

  lemma {:induction false} RunRowExists(log: seq<Event>, run: Uuid)
    ensures RunRowOf(log, run).None? <==> Never(log, About(run))
  {
    if log != [] {
      RunRowExists(Front(log), run);
      assert Last(log) == log[|log| - 1] && forall j :: 0 <= j < |log| - 1 ==> Front(log)[j] == log[j];
    }
  }

  /** The rebuilt row has the workspace that the worker's replay has: that of the run's last start, if any. */
  lemma {:induction false} RunRowWorkspace(log: seq<Event>, run: Uuid)
    ensures RunRowOf(log, run).Some? ==> RunRowOf(log, run).value.workspaceId == CoreOf(log, run).workspaceId
    ensures RunRowOf(log, run).None? ==> CoreOf(log, run).workspaceId == NIL
  {
    if log != [] {
      RunRowWorkspace(Front(log), run);
    }
  }

  /** The row's time is that of the last event that sets it. */
  lemma {:induction false} RunRowTime(log: seq<Event>, run: Uuid, k: int)
    requires IsLast(log, Stamping(run), k)
    ensures RunRowOf(log, run).Some? && RunRowOf(log, run).value.updatedAt == log[k].occurredAt
  {
    LastBefore(log, Stamping(run), k);
    if k < |log| - 1 {
      RunRowTime(Front(log), run, k);
    }
  }

  /** And if there is none, that of the run's first event. */
  lemma {:induction false} RunRowEntered(log: seq<Event>, run: Uuid, k: int)
    requires Never(log, Stamping(run)) && IsFirst(log, About(run), k)
    ensures RunRowOf(log, run).Some? && RunRowOf(log, run).value.updatedAt == log[k].occurredAt
  {
    assert !Of(log[|log| - 1], Stamping(run)) && forall j :: 0 <= j < |log| - 1 ==> Front(log)[j] == log[j];
    if k < |log| - 1 {
      RunRowEntered(Front(log), run, k);
    } else {
      RunRowExists(Front(log), run);
    }
  }

  /** The row's status is what the last event says that sets it for the worker or records work. */
  lemma {:induction false} RunRowStatus(log: seq<Event>, run: Uuid, k: int)
    requires IsLast(log, Deciding(run), k)
    ensures RunRowOf(log, run).Some?
    ensures RunRowOf(log, run).value.status
         == if CarriesWork(log[k].payload) then Running else StatusSetBy(log[k].payload)
  {
    LastBefore(log, Deciding(run), k);
    if k < |log| - 1 {
      RunRowStatus(Front(log), run, k);
    }
  }

  /** And "running" if there is none. */
  lemma {:induction false} RunRowUndecided(log: seq<Event>, run: Uuid)
    requires Never(log, Deciding(run))
    ensures RunRowOf(log, run).Some? ==> RunRowOf(log, run).value.status == Running
  {
    if log != [] {
      assert !Of(log[|log| - 1], Deciding(run)) && forall j :: 0 <= j < |log| - 1 ==> Front(log)[j] == log[j];
      RunRowUndecided(Front(log), run);
    }
  }

  // ---- The worker's books -------------------------------------------------------------------------------

  /** The replay's time is that of the run's last event. */
  lemma {:induction false} ReplayTime(log: seq<Event>, run: Uuid, k: int)
    requires IsLast(log, About(run), k)
    ensures View(log, run).updatedAt == log[k].occurredAt
  {
    LastBefore(log, About(run), k);
    if k < |log| - 1 {
      ReplayTime(Front(log), run, k);
    }
  }

  /** Its revision is the greatest of the run's events, or zero. */
  lemma {:induction false} ReplayRevision(log: seq<Event>, run: Uuid)
    ensures forall k :: 0 <= k < |log| && RunOf(log[k]) == Some(run) ==> log[k].revision <= View(log, run).latest
    ensures View(log, run).latest == 0
            || exists k :: 0 <= k < |log| && RunOf(log[k]) == Some(run) && log[k].revision == View(log, run).latest
  {
    if log != [] {
      var front := Front(log);
      ReplayRevision(front, run);
      assert Last(log) == log[|log| - 1];
      if k :| 0 <= k < |front| && RunOf(front[k]) == Some(run) && front[k].revision == View(front, run).latest {
        assert log[k] == front[k];
      }
    }
  }
}
