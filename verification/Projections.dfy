/** The projection rows a worker writes after a tick, against a rebuild from the log. */
module Projections {
  import opened Events
  import opened Log
  import opened WorkerReplay
  import opened ProjectionStore
  import opened Rebuild
  import opened Agreement
  import opened Harness
  import opened Tick
  import opened TickReplay
  import opened RowContents
  import Protocol
  import Commits

  /** The row written for one event, if any; completed and failed rows take the agent from memory. */
  function RowFor(memory: Items, run: Uuid, p: Payload): Option<ItemRow> {
    match p
    case WorkItemAssigned(_, _, agent) => Some(ItemRow(run, Assigned, Some(agent)))
    case WorkItemStarted(_, _, agent) => Some(ItemRow(run, InProgress, Some(agent)))
    case WorkItemCompleted(_, item, _, _) => Some(ItemRow(run, Done, AgentOf(memory, item)))
    case WorkItemFailed(_, item, _) => Some(ItemRow(run, Failed, AgentOf(memory, item)))
    case _ => None
  }

  function RowsAfter(rows: map<Uuid, ItemRow>, memory: Items, run: Uuid, ps: seq<Payload>): map<Uuid, ItemRow> {
    if ps == [] then rows
    else
      var before, row := RowsAfter(rows, memory, run, Front(ps)), RowFor(memory, run, Last(ps));
      if row.Some? then before[Last(ps).itemId := row.value] else before
  }

  /** The row of the run after a tick, from what the worker remembers. */
  ghost function RunRowFor(state: RunState): RunRow
    reads state
  {
    RunRow(state.workspaceId, state.status, state.totalCost, state.effortPoints, state.updatedAt)
  }

  /**
   * `update_run_projections`, against a database in which the write for the k-th event fails if
   * `fails(k)`, and the one for the run if `fails(|events|)`. The first failure ends it: the rows
   * before it are written, the others are not.
   */
  method UpdateRunProjections(state: RunState, projections: PostgresProjectionStore, run: Uuid, events: seq<Event>,
                              fails: nat -> bool)
      returns (ok: bool, upTo: nat)
    modifies projections
    ensures upTo <= |events|
    ensures forall k :: 0 <= k < upTo && RowFor(state.items, run, events[k].payload).Some? ==> !fails(k)
    ensures upTo < |events| ==> fails(upTo) && RowFor(state.items, run, events[upTo].payload).Some?
    ensures projections.items == RowsAfter(old(projections.items), state.items, run, Payloads(events[..upTo]))
    ensures forall k :: 0 <= k < upTo && WrittenLast(Payloads(events[..upTo]), k) ==>
              var p := events[k].payload;
              p.itemId in projections.items && Written(projections.items[p.itemId], state.items, run, p)
    ensures ok <==> upTo == |events| && (state.workspaceId == NIL || !fails(|events|))
    ensures projections.runs ==
              if !ok || state.workspaceId == NIL then old(projections.runs)
              else old(projections.runs)[run := RunRowFor(state)]
    ensures ok && state.workspaceId != NIL ==>
              && run in projections.runs
              && projections.runs[run].workspaceId == state.workspaceId
              && projections.runs[run].status == state.status
              && projections.runs[run].cost == state.totalCost && projections.runs[run].effort == state.effortPoints
              && projections.runs[run].updatedAt == state.updatedAt
  {
    upTo := 0;
    while upTo < |events|
      invariant upTo <= |events|
      invariant forall k :: 0 <= k < upTo && RowFor(state.items, run, events[k].payload).Some? ==> !fails(k)
      invariant projections.items == RowsAfter(old(projections.items), state.items, run, Payloads(events[..upTo]))
      invariant projections.runs == old(projections.runs)
    {
      assert Front(Payloads(events[..upTo + 1])) == Payloads(events[..upTo]);
      var row := RowFor(state.items, run, events[upTo].payload);
      if row.Some? {
        if fails(upTo) {
          AllRowsWritten(old(projections.items), state.items, run, Payloads(events[..upTo]));
          return false, upTo;
        }
        projections.UpsertWorkItem(events[upTo].payload.itemId, row.value);
      }
      upTo := upTo + 1;
    }
    AllRowsWritten(old(projections.items), state.items, run, Payloads(events[..upTo]));
    if state.workspaceId == NIL {
      return true, upTo;
    }
    if fails(|events|) {
      return false, upTo;
    }
    var row := RunRow(state.workspaceId, state.status, state.totalCost, state.effortPoints, state.updatedAt);
    projections.UpsertRun(run, row);
    ok := true;
  }

  /** The row an event is written as: in the tick's run, with the agent it gives, or else the one in memory. */
  ghost predicate Written(row: ItemRow, memory: Items, run: Uuid, p: Payload) {
    && NamesItem(p) && row.runId == run && Gives(p, row.status)
    && row.agent == if p.WorkItemAssigned? || p.WorkItemStarted? then Some(p.agentId) else AgentOf(memory, p.itemId)
  }

  /** The last event on its item that is written; blockers are not. */
  ghost predicate WrittenLast(ps: seq<Payload>, k: int) {
    && 0 <= k < |ps| && NamesItem(ps[k]) && !ps[k].BlockerEncountered?
    && forall j :: k < j < |ps| ==> !Names(ps[j], ps[k].itemId) || ps[j].BlockerEncountered?
  }

  /** An item's row is what its last event is written as. */
  lemma {:induction false} LastRowWritten(rows: map<Uuid, ItemRow>, memory: Items, run: Uuid, ps: seq<Payload>, k: nat)
    requires WrittenLast(ps, k)
    ensures var after := RowsAfter(rows, memory, run, ps);
            ps[k].itemId in after && Written(after[ps[k].itemId], memory, run, ps[k])
  {
    if k < |ps| - 1 {
      assert !Names(ps[|ps| - 1], ps[k].itemId) || ps[|ps| - 1].BlockerEncountered?;
      LastRowWritten(rows, memory, run, Front(ps), k);
    }
  }

  lemma {:induction false} AllRowsWritten(rows: map<Uuid, ItemRow>, memory: Items, run: Uuid, ps: seq<Payload>)
    ensures forall k :: WrittenLast(ps, k) ==>
              var after := RowsAfter(rows, memory, run, ps);
              ps[k].itemId in after && Written(after[ps[k].itemId], memory, run, ps[k])
  {
    forall k | WrittenLast(ps, k)
      ensures ps[k].itemId in RowsAfter(rows, memory, run, ps)
      ensures Written(RowsAfter(rows, memory, run, ps)[ps[k].itemId], memory, run, ps[k])
    {
      LastRowWritten(rows, memory, run, ps, k);
    }
  }

  lemma {:induction false} RowsAfterConcat(rows: map<Uuid, ItemRow>, memory: Items, run: Uuid, a: seq<Payload>,
                                           b: seq<Payload>)
    ensures RowsAfter(rows, memory, run, a + b) == RowsAfter(RowsAfter(rows, memory, run, a), memory, run, b)
  {
    if b == [] {
      assert a + b == a;
    } else {
      assert Front(a + b) == a + Front(b);
      RowsAfterConcat(rows, memory, run, a, Front(b));
    }
  }

  lemma {:induction false} JobRow(rows: map<Uuid, ItemRow>, memory: Items, run: Uuid, v: Uuid, j: Job)
    ensures RowsAfter(rows, memory, run, ExecutionPayloads(v, run, j.item, j.outcome))
         == rows[j.item := ItemRow(run, if Succeeds(j.outcome) then Done else Failed, AgentOf(memory, j.item))]
  {
    var ps := ExecutionPayloads(v, run, j.item, j.outcome);
    var started := rows[j.item := ItemRow(run, InProgress, Some(v))];
    if j.outcome.Crashed? {
      assert Front(ps) == [];
    } else {
      assert ps[..1] == [ps[0]] && Front([ps[0]]) == [] && RowsAfter(rows, memory, run, [ps[0]]) == started;
      assert Front([ps[0], ps[1]]) == [ps[0]];
      if j.outcome.success {
        assert Front(ps) == [ps[0], ps[1]];
      } else {
        assert ps == [ps[0], ps[1]];
      }
    }
  }

  /** What a tick writes of the items: every one it touched is completed or failed, and its agent is that in memory. */
  lemma {:induction false} JobRows(rows: map<Uuid, ItemRow>, memory: Items, run: Uuid, v: Uuid, work: seq<Job>, i: Uuid)
    requires Once(work)
    ensures var after := RowsAfter(rows, memory, run, JobPayloads(v, run, work));
            if Touches(work, i) then
              i in after && after[i] == ItemRow(run, if Completes(work, i) then Done else Failed, AgentOf(memory, i))
            else Lookup(after, i) == Lookup(rows, i)
  {
    if work != [] {
      var j, before := Last(work), RowsAfter(rows, memory, run, JobPayloads(v, run, Front(work)));
      JobRows(rows, memory, run, v, Front(work), i);
      RowsAfterConcat(rows, memory, run, JobPayloads(v, run, Front(work)),
                      ExecutionPayloads(v, run, j.item, j.outcome));
      JobRow(before, memory, run, v, j);
      CompletesTouches(Front(work), i);
    }
  }

  lemma {:induction false} BatchRows(rows: map<Uuid, ItemRow>, memory: Items, c: Core, run: Uuid, v: Uuid,
                                     work: seq<Job>)
    ensures RowsAfter(rows, memory, run, BatchPayloads(c, v, run, work))
         == RowsAfter(rows, memory, run, JobPayloads(v, run, work))
  {
    var tail := Closing(c, run, work);
    RowsAfterConcat(rows, memory, run, JobPayloads(v, run, work), tail);
    assert tail != [] ==> Front(tail) == [];
  }

  /** The status the last event naming the item gives it. */
  function LastWord(ps: seq<Payload>, item: Uuid): Option<ItemStatus> {
    if ps == [] then None
    else if Names(Last(ps), item) then Some(ItemStep(None, Last(ps)).status)
    else LastWord(Front(ps), item)
  }

  lemma {:induction false} ProjectedStatus(rows: map<Uuid, ItemRow>, memory: Items, run: Uuid, ps: seq<Payload>,
                                           item: Uuid)
    requires forall k :: 0 <= k < |ps| ==> !ps[k].BlockerEncountered?
    ensures var after := RowsAfter(rows, memory, run, ps);
            if LastWord(ps, item).Some? then item in after && after[item].status == LastWord(ps, item).value
            else Lookup(after, item) == Lookup(rows, item)
  {
    if ps != [] {
      ProjectedStatus(rows, memory, run, Front(ps), item);
      assert Last(ps) == ps[|ps| - 1];
    }
  }

  lemma {:induction false} RebuiltItemStatus(log: seq<Event>, rows: seq<Event>, item: Uuid)
    ensures var after := ItemRowOf(log + rows, item);
            if LastWord(Payloads(rows), item).Some? then
              after.Some? && after.value.status == LastWord(Payloads(rows), item).value
            else after == ItemRowOf(log, item)
  {
    if rows == [] {
      assert log + rows == log;
    } else {
      RebuiltItemStatus(log, Front(rows), item);
      assert Front(log + rows) == log + Front(rows);
      assert Front(Payloads(rows)) == Payloads(Front(rows));
    }
  }

  lemma {:induction false} LastWordConcat(a: seq<Payload>, b: seq<Payload>, item: Uuid)
    ensures LastWord(a + b, item) == if LastWord(b, item).Some? then LastWord(b, item) else LastWord(a, item)
  {
    if b == [] {
      assert a + b == a;
    } else {
      assert Front(a + b) == a + Front(b);
      LastWordConcat(a, Front(b), item);
    }
  }

  lemma {:induction false} LastWordOfJob(v: Uuid, run: Uuid, j: Job, item: Uuid)
    ensures LastWord(ExecutionPayloads(v, run, j.item, j.outcome), item).Some? <==> j.item == item
  {
    var ps := ExecutionPayloads(v, run, j.item, j.outcome);
    NoLastWord(ps, item);
    if j.item == item {
      assert Names(if Succeeds(j.outcome) then Last(Front(ps)) else Last(ps), item);
    }
  }

  lemma {:induction false} NoLastWord(ps: seq<Payload>, item: Uuid)
    ensures (forall k :: 0 <= k < |ps| ==> !Names(ps[k], item)) ==> LastWord(ps, item).None?
  {
    if ps != [] {
      NoLastWord(Front(ps), item);
    }
  }

  lemma {:induction false} LastWordOfJobs(v: Uuid, run: Uuid, work: seq<Job>, item: Uuid)
    ensures LastWord(JobPayloads(v, run, work), item).Some? <==> Touches(work, item)
  {
    if work != [] {
      LastWordOfJobs(v, run, Front(work), item);
      LastWordConcat(JobPayloads(v, run, Front(work)),
                     ExecutionPayloads(v, run, Last(work).item, Last(work).outcome), item);
      LastWordOfJob(v, run, Last(work), item);
    }
  }

  lemma {:induction false} LastWordOfBatch(c: Core, v: Uuid, run: Uuid, work: seq<Job>, item: Uuid)
    ensures LastWord(BatchPayloads(c, v, run, work), item).Some? <==> Touches(work, item)
  {
    LastWordOfJobs(v, run, work, item);
    LastWordConcat(JobPayloads(v, run, work), Closing(c, run, work), item);
    NoLastWord(Closing(c, run, work), item);
  }

  // ---- Totals -------------------------------------------------------------------------------------------

  /** The efforts of the run's completed items alone, without the progress chunks. */
  function CompletedEffort(log: seq<Event>, run: Uuid): int {
    if log == [] then 0
    else CompletedEffort(Front(log), run)
         + if RunOf(Last(log)) == Some(run) && Last(log).payload.WorkItemCompleted? then Last(log).payload.effort else 0
  }

  /** Every progress chunk carries some effort, as `events_for_execution` sees to. */
  ghost predicate ChunksPositive(log: seq<Event>) {
    forall k :: 0 <= k < |log| && log[k].payload.ProgressChunkEmitted? ==> log[k].payload.effort >= 1
  }

  lemma {:induction false} CompletedAtMostTotal(log: seq<Event>, run: Uuid)
    requires ChunksPositive(log)
    ensures CompletedEffort(log, run) <= SumEffort(log, run)
  {
    if log != [] {
      assert Last(log) == log[|log| - 1];
      CompletedAtMostTotal(Front(log), run);
    }
  }

  lemma {:induction false} CompletedAndChunks(log: seq<Event>, rows: seq<Event>, run: Uuid)
    ensures SumEffort(log + rows, run) - CompletedEffort(log + rows, run)
         == SumEffort(log, run) - CompletedEffort(log, run) + SumEffort(rows, run) - CompletedEffort(rows, run)
  {
    if rows == [] {
      assert log + rows == log;
    } else {
      CompletedAndChunks(log, Front(rows), run);
      assert Front(log + rows) == log + Front(rows);
    }
  }

  /** The effort of the progress chunks among some payloads. */
  function ChunkTotal(ps: seq<Payload>): int {
    if ps == [] then 0 else ChunkTotal(Front(ps)) + if Last(ps).ProgressChunkEmitted? then Last(ps).effort else 0
  }

  lemma {:induction false} ChunkTotalConcat(a: seq<Payload>, b: seq<Payload>)
    ensures ChunkTotal(a + b) == ChunkTotal(a) + ChunkTotal(b)
  {
    if b == [] {
      assert a + b == a;
    } else {
      assert Front(a + b) == a + Front(b);
      ChunkTotalConcat(a, Front(b));
    }
  }

  lemma {:induction false} ChunksOfRows(rows: seq<Event>, run: Uuid)
    requires forall k :: 0 <= k < |rows| ==> RunOf(rows[k]) == Some(run)
    ensures SumEffort(rows, run) - CompletedEffort(rows, run) == ChunkTotal(Payloads(rows))
  {
    if rows != [] {
      ChunksOfRows(Front(rows), run);
      assert Front(Payloads(rows)) == Payloads(Front(rows));
      assert Last(rows) == rows[|rows| - 1];
    }
  }

  lemma {:induction false} NoChunks(ps: seq<Payload>)
    requires forall k :: 0 <= k < |ps| ==> !ps[k].ProgressChunkEmitted?
    ensures ChunkTotal(ps) == 0
  {
    if ps != [] {
      NoChunks(Front(ps));
    }
  }

  lemma {:induction false} ChunksOfJobs(v: Uuid, run: Uuid, work: seq<Job>)
    ensures ChunkTotal(JobPayloads(v, run, work)) == ChunkEfforts(work)
  {
    if work != [] {
      ChunksOfJobs(v, run, Front(work));
      ChunkTotalConcat(JobPayloads(v, run, Front(work)),
                       ExecutionPayloads(v, run, Last(work).item, Last(work).outcome));
      ChunkOfJob(v, run, Last(work));
    }
  }

  lemma {:induction false} ChunkOfJob(v: Uuid, run: Uuid, j: Job)
    ensures ChunkTotal(ExecutionPayloads(v, run, j.item, j.outcome))
         == if Succeeds(j.outcome) then ChunkEffort(j.outcome.effort) else 0
  {
    var ps := ExecutionPayloads(v, run, j.item, j.outcome);
    if Succeeds(j.outcome) {
      NoChunks(Front(ps));
    } else {
      NoChunks(ps);
    }
  }

  lemma {:induction false} ChunksOfBatch(c: Core, v: Uuid, run: Uuid, work: seq<Job>)
    ensures ChunkTotal(BatchPayloads(c, v, run, work)) == ChunkEfforts(work)
  {
    ChunksOfJobs(v, run, work);
    ChunkTotalConcat(JobPayloads(v, run, work), Closing(c, run, work));
    NoChunkCloses(c, run, work);
  }

  lemma {:induction false} NoChunkCloses(c: Core, run: Uuid, work: seq<Job>)
    ensures ChunkTotal(Closing(c, run, work)) == 0
  {
    NoChunks(Closing(c, run, work));
  }

  lemma {:induction false} BatchRowsAbout(c: Core, v: Uuid, run: Uuid, work: seq<Job>, batch: seq<Event>)
    requires Payloads(batch) == BatchPayloads(c, v, run, work)
    ensures forall k :: 0 <= k < |batch| ==> RunOf(Stamp(batch, run)[k]) == Some(run)
    ensures forall k :: 0 <= k < |batch| ==> !batch[k].payload.RunStarted? && !batch[k].payload.BlockerEncountered?
  {
    Protocol.JobsProper(v, run, work);
    JobsAbout(v, run, work);
    forall k | 0 <= k < |batch|
      ensures RunOf(Stamp(batch, run)[k]) == Some(run) && !batch[k].payload.RunStarted?
      ensures !batch[k].payload.BlockerEncountered?
    {
      assert batch[k].payload == BatchPayloads(c, v, run, work)[k];
    }
  }

  lemma {:induction false} JobsAbout(v: Uuid, run: Uuid, work: seq<Job>)
    ensures forall k :: 0 <= k < |JobPayloads(v, run, work)| ==>
              var p := JobPayloads(v, run, work)[k]; !p.WorkspaceCreated? && !p.AgentProfileCreated?
  {
    if work != [] {
      JobsAbout(v, run, Front(work));
    }
  }

  lemma {:induction false} RestartsNot(log: seq<Event>, rows: seq<Event>, run: Uuid)
    requires NeverRestarts(log, run) && forall k :: 0 <= k < |rows| ==>
            !(RunOf(rows[k]) == Some(run) && rows[k].payload.RunStarted?)
    ensures NeverRestarts(log + rows, run)
    ensures Mentions(log, run) ==> Mentions(log + rows, run)
  {
    if rows == [] {
      assert log + rows == log;
    } else {
      RestartsNot(log, Front(rows), run);
      assert Front(log + rows) == log + Front(rows);
      MentionsNext(log + rows, |log + rows| - 1);
      assert (log + rows)[..|log + rows| - 1] == Front(log + rows) && (log + rows)[..|log + rows|] == log + rows;
      assert Last(rows) == rows[|rows| - 1];
    }
  }

  /**
   * After an undisturbed tick, what the worker writes incrementally compares with a rebuild of the
   * whole log as follows. Every item row it touched has the rebuilt status. The run row's effort and
   * cost are the rebuilt ones short of exactly the progress chunks of this batch, and its effort is
   * never less than the sum of the efforts of the run's completed items.
   */
  lemma {:induction false} IncrementalAgainstRebuild(log: seq<Event>, next: seq<Event>, v: Uuid, affine: bool,
                                                     maxItems: nat, run: Uuid,
                                                     work: seq<Job>, batch: seq<Event>, rows: map<Uuid, ItemRow>)
    requires NeverRestarts(log, run) && ChunksPositive(log)
    requires Workable(CoreOf(log, run))
    requires TickAppends(CoreOf(log, run), log, next, v, affine, maxItems, run, work, batch)
    ensures var memory := Close(NoteAll(CoreOf(log, run), work));
            var projected := RowsAfter(rows, memory.items, run, Payloads(batch));
            && (forall i :: Touches(work, i) ==>
                  i in projected && ItemRowOf(next, i).Some? && projected[i].status == ItemRowOf(next, i).value.status)
            && (forall i :: !Touches(work, i) ==>
                  Lookup(projected, i) == Lookup(rows, i) && ItemRowOf(next, i) == ItemRowOf(log, i))
            && RunRowOf(next, run).Some?
            && memory.effort == RunRowOf(next, run).value.effort - ChunkEfforts(work)
            && memory.cost == RunRowOf(next, run).value.cost - ChunkCosts(work)
            && memory.effort >= CompletedEffort(next, run)
            && memory.status == CoreOf(next, run).status
  {
    var c := CoreOf(log, run);
    var memory := Close(NoteAll(c, work));
    var stamped := Stamp(batch, run);
    BatchRowsAbout(c, v, run, work, batch);
    Protocol.RebasedPayloads(batch, 0, run);
    forall i
      ensures var projected := RowsAfter(rows, memory.items, run, Payloads(batch));
              if Touches(work, i) then
                i in projected && ItemRowOf(next, i).Some? && projected[i].status == ItemRowOf(next, i).value.status
              else Lookup(projected, i) == Lookup(rows, i) && ItemRowOf(next, i) == ItemRowOf(log, i)
    {
      ProjectedStatus(rows, memory.items, run, Payloads(batch), i);
      RebuiltItemStatus(log, stamped, i);
      LastWordOfBatch(c, v, run, work, i);
    }
    if !Mentions(log, run) {
      UnmentionedIsBlank(log, run);
    }
    TickSimulatesReplay(c, v, affine, run, work);
    Commits.BatchProper(c, v, run, work);
    Protocol.AppendedCore(log, run, batch, run);
    Protocol.StampedAbout(batch, run);
    RestartsNot(log, stamped, run);
    RowIffMentioned(next, run);
    WorkerTotals(next, run);
    RebuiltTotals(next, run);
    NothingBeforeStart(next, run);
    CompletedAndChunks(log, stamped, run);
    ChunksOfRows(stamped, run);
    ChunksOfBatch(c, v, run, work);
    CompletedAtMostTotal(log, run);
  }

  // ---- Whole rows -----------------------------------------------------------------------------------------

  lemma {:induction false} TickAssignsNothing(c: Core, v: Uuid, run: Uuid, work: seq<Job>, batch: seq<Event>)
    requires Payloads(batch) == BatchPayloads(c, v, run, work)
    ensures forall k :: 0 <= k < |batch| ==> !Stamp(batch, run)[k].payload.WorkItemAssigned?
  {
    Protocol.JobsProper(v, run, work);
    forall k | 0 <= k < |batch| ensures !Stamp(batch, run)[k].payload.WorkItemAssigned? {
      assert Stamp(batch, run)[k].payload == BatchPayloads(c, v, run, work)[k];
    }
  }

  /** The row of a touched item after a tick: the run's, completed or failed, and with the agent it was loaded with. */
  lemma {:induction false} ProjectedRow(c: Core, v: Uuid, affine: bool, run: Uuid, work: seq<Job>,
                                        rows: map<Uuid, ItemRow>, i: Uuid)
    requires Legal(c, v, affine, work) && Touches(work, i)
    ensures var memory := Close(NoteAll(c, work)).items;
            var projected := RowsAfter(rows, memory, run, BatchPayloads(c, v, run, work));
            && i in projected
            && projected[i] == ItemRow(run, if Completes(work, i) then Done else Failed, AgentOf(memory, i))
            && AgentOf(memory, i) == AgentOf(c.items, i) && (affine ==> AgentOf(memory, i) == Some(v))
  {
    var memory := Close(NoteAll(c, work)).items;
    LegalJobs(c, v, affine, work, i);
    Remembered(c, work, i);
    BatchRows(rows, memory, c, run, v, work);
    JobRows(rows, memory, run, v, work, i);
  }

  /**
   * After an undisturbed tick the row that the worker wrote for an item is the rebuilt row, whole, exactly when
   * the item had not been started away from the agent it was last assigned to.
   */
  lemma {:induction false} ProjectedRowIsRebuilt(log: seq<Event>, next: seq<Event>, v: Uuid, affine: bool,
                                                 maxItems: nat, run: Uuid, work: seq<Job>, batch: seq<Event>,
                                                 rows: map<Uuid, ItemRow>, i: Uuid)
    requires Housed(log) && OneRunPerItem(log) && Workable(CoreOf(log, run)) && Touches(work, i)
    requires TickAppends(CoreOf(log, run), log, next, v, affine, maxItems, run, work, batch)
    ensures var projected := RowsAfter(rows, Close(NoteAll(CoreOf(log, run), work)).items, run, Payloads(batch));
            && i in projected && ItemRowOf(next, i).Some?
            && (projected[i] == ItemRowOf(next, i).value <==> !Displaced(log, run, i))
  {
    var c, stamped := CoreOf(log, run), Stamp(batch, run);
    ProjectedRow(c, v, affine, run, work, rows, i);
    BatchRowsAbout(c, v, run, work, batch);
    ProjectedStatus(rows, Close(NoteAll(c, work)).items, run, Payloads(batch), i);
    Protocol.RebasedPayloads(batch, 0, run);
    RebuiltItemStatus(log, stamped, i);
    LastWordOfBatch(c, v, run, work, i);
    LegalJobs(c, v, affine, work, i);
    HeldHasRow(log, run, i);
    TickAssignsNothing(c, v, run, work, batch);
    UnassignedRowKept(log, stamped, i);
    RebuiltAgentAgrees(log, run, i);
  }

  /** The row of a run after a tick, and the rebuilt one: in the same workspace, and as of the tick's time. */
  lemma {:induction false} ProjectedRunRow(log: seq<Event>, next: seq<Event>, v: Uuid, affine: bool, maxItems: nat,
                                           run: Uuid, work: seq<Job>, batch: seq<Event>, at: int)
    requires Workable(CoreOf(log, run)) && batch != [] && Timed(batch, at)
    requires TickAppends(CoreOf(log, run), log, next, v, affine, maxItems, run, work, batch)
    ensures var memory := Close(NoteAll(CoreOf(log, run), work));
            && RunRowOf(next, run).Some?
            && RunRowOf(next, run).value.workspaceId == memory.workspaceId == CoreOf(log, run).workspaceId
            && RunRowOf(next, run).value.updatedAt == at
  {
    var c, stamped := CoreOf(log, run), Stamp(batch, run);
    NoteAllKeys(c, work);
    Commits.BatchProper(c, v, run, work);
    Protocol.AppendedCore(log, run, batch, run);
    TickSimulatesReplay(c, v, affine, run, work);
    RunRowWorkspace(next, run);
    BatchRowsAbout(c, v, run, work, batch);
    LastEventStamps(c, v, run, work);
    assert |batch| == |Payloads(batch)| && Last(next) == Last(stamped);
    RunRowTime(next, run, |next| - 1);
  }

  /** The last event of a batch is never a bare start. */
  lemma {:induction false} LastEventStamps(c: Core, v: Uuid, run: Uuid, work: seq<Job>)
    requires BatchPayloads(c, v, run, work) != []
    ensures var p := Last(BatchPayloads(c, v, run, work)); !p.WorkItemAssigned? && !p.WorkItemStarted?
  {
    if Closing(c, run, work) == [] {
      assert BatchPayloads(c, v, run, work) == JobPayloads(v, run, work);
      var ps := ExecutionPayloads(v, run, Last(work).item, Last(work).outcome);
      assert Last(JobPayloads(v, run, work)) == Last(ps);
    }
  }
}
