/** The rebuild of both projection tables from the global log. */
module Rebuild {
  import opened Events
  import opened Log
  import EventStore
  import opened ProjectionStore

  function RowOr(row: Option<RunRow>, status: RunStatus, at: int): RunRow {
    if row.Some? then row.value else RunRow(NIL, status, 0.0, 0, at)
  }

  /** The run row after an event about that run. */
  function RunStep(row: Option<RunRow>, e: Event): Option<RunRow> {
    match e.payload
    case RunStarted(workspaceId, _) => Some(RunRow(workspaceId, Running, 0.0, 0, e.occurredAt))
    case RunStatusChanged(_, status, _) =>
      Some(StatusSet(RowOr(row, status, e.occurredAt), status, e.occurredAt))
    case ProgressChunkEmitted(_, _, effort, cost) =>
      Some(WorkDone(RowOr(row, Running, e.occurredAt), effort, cost, e.occurredAt))
    case WorkItemCompleted(_, _, effort, cost) =>
      Some(WorkDone(RowOr(row, Running, e.occurredAt), effort, cost, e.occurredAt))
    case WorkItemAssigned(_, _, _) => Some(RowOr(row, Running, e.occurredAt))
    case WorkItemStarted(_, _, _) => Some(RowOr(row, Running, e.occurredAt))
    case WorkItemFailed(_, _, _) => Some(StatusSet(RowOr(row, Blocked, e.occurredAt), Blocked, e.occurredAt))
    case BlockerEncountered(_, _, _) => Some(StatusSet(RowOr(row, Blocked, e.occurredAt), Blocked, e.occurredAt))
    case RunCompleted(_, _) => Some(StatusSet(RowOr(row, Completed, e.occurredAt), Completed, e.occurredAt))
    case _ => row
  }

  function StatusSet(row: RunRow, status: RunStatus, at: int): RunRow {
    row.(status := status, updatedAt := at)
  }

  function WorkDone(row: RunRow, effort: int, cost: real, at: int): RunRow {
    row.(cost := row.cost + cost, effort := row.effort + effort, status := Running, updatedAt := at)
  }

  /** The item row after an event naming that item; the run of a row is never rewritten. */
  function ItemStep(row: Option<ItemRow>, p: Payload): ItemRow
    requires NamesItem(p)
  {
    var kept := if row.Some? then row.value else ItemRow(p.runId, Unset, None);
    match p
    case WorkItemAssigned(_, _, agent) => kept.(status := Assigned, agent := Some(agent))
    case WorkItemStarted(_, _, _) => kept.(status := InProgress)
    case WorkItemCompleted(_, _, _, _) => kept.(status := Done)
    case WorkItemFailed(_, _, _) => kept.(status := Failed)
    case BlockerEncountered(_, _, _) => kept.(status := Stuck)
  }

  function RunRowOf(log: seq<Event>, run: Uuid): Option<RunRow> {
    if log == [] then None
    else if RunOf(Last(log)) == Some(run) then RunStep(RunRowOf(Front(log), run), Last(log))
    else RunRowOf(Front(log), run)
  }

  predicate Names(p: Payload, item: Uuid) {
    NamesItem(p) && p.itemId == item
  }

  function ItemRowOf(log: seq<Event>, item: Uuid): Option<ItemRow> {
    if log == [] then None
    else if Names(Last(log).payload, item) then Some(ItemStep(ItemRowOf(Front(log), item), Last(log).payload))
    else ItemRowOf(Front(log), item)
  }

  function Lookup<V>(table: map<Uuid, V>, key: Uuid): Option<V> {
    if key in table then Some(table[key]) else None
  }

  ghost predicate RunsShow(runs: map<Uuid, RunRow>, log: seq<Event>) {
    forall run: Uuid :: Lookup(runs, run) == RunRowOf(log, run)
  }

  ghost predicate ItemsShow(items: map<Uuid, ItemRow>, log: seq<Event>) {
    forall item: Uuid :: Lookup(items, item) == ItemRowOf(log, item)
  }

  // ---- The replay in place ------------------------------------------------------------------------

  /** The status a run is entered with when an event other than its start comes first. */
  function EntryStatus(p: Payload): RunStatus {
    match p
    case RunStatusChanged(_, status, _) => status
    case WorkItemFailed(_, _, _) => Blocked
    case BlockerEncountered(_, _, _) => Blocked
    case RunCompleted(_, _) => Completed
    case _ => Running
  }

  class RunProjectionState {
    var workspaceId: Uuid
    var status: RunStatus
    var totalCost: real
    var effortPoints: int
    var updatedAt: int

    constructor (workspaceId: Uuid, status: RunStatus, at: int)
      ensures Row() == RunRow(workspaceId, status, 0.0, 0, at)
    {
      this.workspaceId, this.status, totalCost, effortPoints, updatedAt := workspaceId, status, 0.0, 0, at;
    }

    function Row(): RunRow
      reads this
    {
      RunRow(workspaceId, status, totalCost, effortPoints, updatedAt)
    }

    /** The update of an entered run by any event about it but a start, which enters it afresh. */
    method Absorb(e: Event)
      requires RunOf(e).Some? && !e.payload.RunStarted?
      modifies this
      ensures Some(Row()) == RunStep(Some(old(Row())), e)
      ensures workspaceId == old(workspaceId)
      ensures updatedAt
              == if e.payload.WorkItemAssigned? || e.payload.WorkItemStarted? then old(updatedAt) else e.occurredAt
    {
      match e.payload {
        case RunStatusChanged(_, changed, _) =>
          status := changed;
          updatedAt := e.occurredAt;
        case ProgressChunkEmitted(_, _, effort, cost) =>
          totalCost := totalCost + cost;
          effortPoints := effortPoints + effort;
          status := Running;
          updatedAt := e.occurredAt;
        case WorkItemCompleted(_, _, effort, cost) =>
          status := Running;
          updatedAt := e.occurredAt;
          totalCost := totalCost + cost;
          effortPoints := effortPoints + effort;
        case WorkItemFailed(_, _, _) =>
          status := Blocked;
          updatedAt := e.occurredAt;
        case BlockerEncountered(_, _, _) =>
          status := Blocked;
          updatedAt := e.occurredAt;
        case RunCompleted(_, _) =>
          status := Completed;
          updatedAt := e.occurredAt;
        case _ =>
      }
    }
  }

  class ItemProjectionState {
    var runId: Uuid
    var status: ItemStatus
    var assignedAgent: Option<Uuid>

    constructor (runId: Uuid)
      ensures Row() == ItemRow(runId, Unset, None)
    {
      this.runId, status, assignedAgent := runId, Unset, None;
    }

    function Row(): ItemRow
      reads this
    {
      ItemRow(runId, status, assignedAgent)
    }

    method Absorb(p: Payload)
      requires NamesItem(p)
      modifies this
      ensures Row() == ItemStep(Some(old(Row())), p)
      ensures runId == old(runId)
      ensures assignedAgent == if p.WorkItemAssigned? then Some(p.agentId) else old(assignedAgent)
    {
      match p {
        case WorkItemAssigned(_, _, agent) =>
          status := Assigned;
          assignedAgent := Some(agent);
        case WorkItemStarted(_, _, _) =>
          status := InProgress;
        case WorkItemCompleted(_, _, _, _) =>
          status := Done;
        case WorkItemFailed(_, _, _) =>
          status := Failed;
        case BlockerEncountered(_, _, _) =>
          status := Stuck;
      }
    }
  }

  /** No two entries of a hash map share a value. */
  ghost predicate Unshared<T>(states: map<Uuid, T>) {
    forall a, b :: a in states && b in states && a != b ==> states[a] != states[b]
  }

  ghost function RunEntry(states: map<Uuid, RunProjectionState>, run: Uuid): Option<RunRow>
    reads states.Values
  {
    if run in states then Some(states[run].Row()) else None
  }

  ghost function ItemEntry(states: map<Uuid, ItemProjectionState>, item: Uuid): Option<ItemRow>
    reads states.Values
  {
    if item in states then Some(states[item].Row()) else None
  }

  /** One event over the hash map of runs: insert a start, enter a new run, or update in place. */
  method ReplayRun(states: map<Uuid, RunProjectionState>, e: Event) returns (next: map<Uuid, RunProjectionState>)
    requires Unshared(states)
    modifies states.Values
    ensures Unshared(next) && forall run :: run in next ==> fresh(next[run]) || next[run] in states.Values
    ensures forall run: Uuid :: RunEntry(next, run)
              == if RunOf(e) == Some(run) then RunStep(old(RunEntry(states, run)), e) else old(RunEntry(states, run))
  {
    next := states;
    if e.payload.RunStarted? {
      var state := new RunProjectionState(e.payload.workspaceId, Running, e.occurredAt);
      next := next[e.resourceId := state];
    } else if RunOf(e).Some? {
      var run := RunOf(e).value;
      if run !in next {
        var state := new RunProjectionState(NIL, EntryStatus(e.payload), e.occurredAt);
        next := next[run := state];
      }
      next[run].Absorb(e);
    }
  }

  /** One event over the hash map of items. */
  method ReplayItem(states: map<Uuid, ItemProjectionState>, p: Payload) returns (next: map<Uuid, ItemProjectionState>)
    requires Unshared(states)
    modifies states.Values
    ensures Unshared(next) && forall item :: item in next ==> fresh(next[item]) || next[item] in states.Values
    ensures forall item: Uuid :: ItemEntry(next, item)
              == if Names(p, item) then Some(ItemStep(old(ItemEntry(states, item)), p))
                  else old(ItemEntry(states, item))
  {
    next := states;
    if NamesItem(p) {
      if p.itemId !in next {
        var state := new ItemProjectionState(p.runId);
        next := next[p.itemId := state];
      }
      next[p.itemId].Absorb(p);
    }
  }

  /** The loop of `rebuild_projections` over its two hash maps. */
  method Replay(events: seq<Event>)
      returns (runs: map<Uuid, RunProjectionState>, items: map<Uuid, ItemProjectionState>)
    ensures forall run: Uuid :: RunEntry(runs, run) == RunRowOf(events, run)
    ensures forall item: Uuid :: ItemEntry(items, item) == ItemRowOf(events, item)
    ensures (forall run :: run in runs ==> fresh(runs[run])) && (forall item :: item in items ==> fresh(items[item]))
  {
    runs, items := map[], map[];
    for k := 0 to |events|
      invariant Unshared(runs) && forall run :: run in runs ==> fresh(runs[run])
      invariant Unshared(items) && forall item :: item in items ==> fresh(items[item])
      invariant forall run: Uuid :: RunEntry(runs, run) == RunRowOf(events[..k], run)
      invariant forall item: Uuid :: ItemEntry(items, item) == ItemRowOf(events[..k], item)
    {
      assert Front(events[..k + 1]) == events[..k];
      runs := ReplayRun(runs, events[k]);
      items := ReplayItem(items, events[k].payload);
    }
    assert events[..|events|] == events;
  }

  /** Which accesses to the database fail: the load, either table's deletion, and the k-th row of a table. */
  datatype Faults = Faults(load: bool, clearItems: bool, clearRuns: bool, run: nat -> bool, item: nat -> bool)

  ghost predicate PartOfRuns(runs: map<Uuid, RunRow>, log: seq<Event>) {
    forall run :: run in runs ==> RunRowOf(log, run) == Some(runs[run])
  }

  ghost predicate PartOfItems(items: map<Uuid, ItemRow>, log: seq<Event>) {
    forall item :: item in items ==> ItemRowOf(log, item) == Some(items[item])
  }

  /** The first rows did not fail, and the next one did if not all are written. */
  ghost predicate UpToFault(fails: nat -> bool, written: nat, all: nat) {
    written <= all && (forall k :: 0 <= k < written ==> !fails(k)) && (written < all ==> fails(written))
  }

  /** Write the rows of the runs, in any order, up to the first failure. */
  method WriteRuns(projections: PostgresProjectionStore, runs: map<Uuid, RunProjectionState>, fails: nat -> bool)
      returns (ok: bool)
    requires projections.runs == map[]
    modifies projections`runs
    ensures forall run :: run in projections.runs ==> RunEntry(runs, run) == Some(projections.runs[run])
    ensures UpToFault(fails, |projections.runs|, |runs|)
    ensures ok <==> projections.runs.Keys == runs.Keys
  {
    ghost var rows := map run | run in runs :: runs[run].Row();
    assert rows.Keys == runs.Keys;
    var left, written := runs.Keys, 0;
    while left != {} && !fails(written)
      invariant Partly(projections.runs, rows, left, written, fails)
      decreases left
    {
      var run :| run in left;
      OneMoreRow(projections.runs, rows, left, written, fails, run);
      projections.UpsertRun(run, runs[run].Row());
      left, written := left - {run}, written + 1;
    }
    PartlyWritten(projections.runs, rows, left, written, fails);
    ok := left == {};
  }

  /** Write the rows of the items likewise. */
  method WriteItems(projections: PostgresProjectionStore, items: map<Uuid, ItemProjectionState>, fails: nat -> bool)
      returns (ok: bool)
    requires projections.items == map[]
    modifies projections`items
    ensures forall item :: item in projections.items ==> ItemEntry(items, item) == Some(projections.items[item])
    ensures UpToFault(fails, |projections.items|, |items|)
    ensures ok <==> projections.items.Keys == items.Keys
  {
    ghost var rows := map item | item in items :: items[item].Row();
    assert rows.Keys == items.Keys;
    var left, written := items.Keys, 0;
    while left != {} && !fails(written)
      invariant Partly(projections.items, rows, left, written, fails)
      decreases left
    {
      var item :| item in left;
      OneMoreRow(projections.items, rows, left, written, fails, item);
      projections.UpsertWorkItem(item, items[item].Row());
      left, written := left - {item}, written + 1;
    }
    PartlyWritten(projections.items, rows, left, written, fails);
    ok := left == {};
  }

  /** The rows of a table that are written while those of `left` are not, and none has failed. */
  ghost predicate Partly<T>(table: map<Uuid, T>, rows: map<Uuid, T>, left: set<Uuid>, written: nat,
                            fails: nat -> bool) {
    && left <= rows.Keys && table.Keys == rows.Keys - left
    && (forall key :: key in table ==> table[key] == rows[key])
    && written + |left| == |rows.Keys| && forall k :: 0 <= k < written ==> !fails(k)
  }

  lemma {:induction false} OneMoreRow<T>(table: map<Uuid, T>, rows: map<Uuid, T>, left: set<Uuid>, written: nat,
                                         fails: nat -> bool, key: Uuid)
    requires Partly(table, rows, left, written, fails) && key in left && !fails(written)
    ensures Partly(table[key := rows[key]], rows, left - {key}, written + 1, fails)
  {
  }

  lemma {:induction false} PartlyWritten<T>(table: map<Uuid, T>, rows: map<Uuid, T>, left: set<Uuid>, written: nat,
                                            fails: nat -> bool)
    requires Partly(table, rows, left, written, fails) && (left == {} || fails(written))
    ensures UpToFault(fails, |table|, |rows.Keys|) && (left == {} <==> table.Keys == rows.Keys)
  {
    assert table.Keys + left == rows.Keys;
    assert |table| == |table.Keys| == written;
    if some :| some in left {
      assert some in rows.Keys && some !in table.Keys;
    }
  }

  /** A table with no more than some keys has as many rows exactly when it has them all. */
  lemma {:induction false} AllOrSome<S, T>(table: map<Uuid, S>, all: map<Uuid, T>)
    requires table.Keys <= all.Keys
    ensures |table| <= |all| && (|table| == |all| <==> table.Keys == all.Keys)
  {
    var more := all.Keys - table.Keys;
    assert table.Keys + more == all.Keys;
    assert |table| == |table.Keys| && |all| == |all.Keys| == |table.Keys| + |more|;
  }

  /**
   * `rebuild_projections`: afterwards the tables hold exactly the replay of the log in load order, unless
   * the database fails. Nothing is undone then: rows that were deleted are gone, and the tables hold some
   * of the rebuilt rows, those of the items only after all those of the runs.
   */
  method RebuildProjections(store: EventStore.PostgresEventStore, projections: PostgresProjectionStore, f: Faults)
      returns (count: Option<nat>, ghost all: seq<Event>)
    modifies projections
    ensures f.load || f.clearItems ==>
              count == None && projections.runs == old(projections.runs) && projections.items == old(projections.items)
    ensures !f.load && !f.clearItems && f.clearRuns ==>
              count == None && projections.runs == old(projections.runs) && projections.items == map[]
    ensures !f.load && !f.clearItems && !f.clearRuns ==>
              && EventStore.IsLoad(store.log, all)
              && Rebuilt(projections.runs, projections.items, all, f, count)
  {
    all, count := [], None;
    if f.load {
      return;
    }
    var events := store.LoadAll();
    all := events;
    var cleared := projections.Clear(f.clearItems, f.clearRuns);
    if !cleared {
      return;
    }
    var runs, items := Replay(events);
    count := WriteAll(projections, runs, items, f, all);
  }

  /** Write all rows to empty tables, those of the runs first. */
  method WriteAll(projections: PostgresProjectionStore, runs: map<Uuid, RunProjectionState>,
                  items: map<Uuid, ItemProjectionState>, f: Faults, ghost log: seq<Event>)
      returns (count: Option<nat>)
    requires projections.runs == map[] && projections.items == map[]
    requires forall run: Uuid :: RunEntry(runs, run) == RunRowOf(log, run)
    requires forall item: Uuid :: ItemEntry(items, item) == ItemRowOf(log, item)
    modifies projections
    ensures Rebuilt(projections.runs, projections.items, log, f, count)
  {
    count := None;
    var ok := WriteRuns(projections, runs, f.run);
    SomeRuns(projections.runs, runs, log);
    if !ok {
      return;
    }
    ok := WriteItems(projections, items, f.item);
    SomeItems(projections.items, items, log);
    if ok {
      count := Some(|runs|);
    }
  }

  lemma {:induction false} SomeRuns(table: map<Uuid, RunRow>, runs: map<Uuid, RunProjectionState>, log: seq<Event>)
    requires forall run: Uuid :: RunEntry(runs, run) == RunRowOf(log, run)
    requires forall run :: run in table ==> RunEntry(runs, run) == Some(table[run])
    ensures PartOfRuns(table, log) && (RunsShow(table, log) <==> table.Keys == runs.Keys)
    ensures |table| <= |runs| && (|table| == |runs| <==> table.Keys == runs.Keys)
  {
    forall run: Uuid ensures (Lookup(table, run) == RunRowOf(log, run)) <==> (run in table <==> run in runs) {
      assert RunEntry(runs, run) == RunRowOf(log, run);
      assert run in table ==> RunEntry(runs, run) == Some(table[run]);
    }
    forall run | run in table ensures run in runs {
      assert RunEntry(runs, run) == Some(table[run]);
    }
    AllOrSome(table, runs);
  }

  lemma {:induction false} SomeItems(table: map<Uuid, ItemRow>, items: map<Uuid, ItemProjectionState>, log: seq<Event>)
    requires forall item: Uuid :: ItemEntry(items, item) == ItemRowOf(log, item)
    requires forall item :: item in table ==> ItemEntry(items, item) == Some(table[item])
    ensures PartOfItems(table, log) && (ItemsShow(table, log) <==> table.Keys == items.Keys)
    ensures |table| <= |items| && (|table| == |items| <==> table.Keys == items.Keys)
  {
    forall item: Uuid ensures (Lookup(table, item) == ItemRowOf(log, item)) <==> (item in table <==> item in items) {
      assert ItemEntry(items, item) == ItemRowOf(log, item);
      assert item in table ==> ItemEntry(items, item) == Some(table[item]);
    }
    forall item | item in table ensures item in items {
      assert ItemEntry(items, item) == Some(table[item]);
    }
    AllOrSome(table, items);
  }

  /** What a rebuild leaves in the tables, all of it or up to the first row that fails. */
  ghost predicate Rebuilt(runs: map<Uuid, RunRow>, items: map<Uuid, ItemRow>, log: seq<Event>, f: Faults,
                          count: Option<nat>) {
    && PartOfRuns(runs, log) && PartOfItems(items, log)
    && (forall k :: 0 <= k < |runs| ==> !f.run(k)) && (forall k :: 0 <= k < |items| ==> !f.item(k))
    && (RunsShow(runs, log) || (f.run(|runs|) && items == map[]))
    && (RunsShow(runs, log) ==> ItemsShow(items, log) || f.item(|items|))
    && count == if RunsShow(runs, log) && ItemsShow(items, log) then Some(|runs|) else None
  }
}
