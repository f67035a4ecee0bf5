/** Whole rows over every trace: when the rebuilt row of an item is what the worker holds and what it writes. */
module ReachableRows {
  import opened Events
  import opened Log
  import opened WorkerReplay
  import opened ProjectionStore
  import opened Rebuild
  import opened Agreement
  import opened LoadOrder
  import opened RowContents
  import opened Tick
  import opened TickReplay
  import opened Orchestrator
  import opened ControlEffects
  import opened Protocol
  import opened Commits
  import opened ReachableLogs
  import EventStore
  import Planner
  import Projections
  import opened Custody

  ghost predicate WasAssigned(log: seq<Event>, run: Uuid, item: Uuid) {
    exists e :: e in log && Of(e, Assigning(item)) && e.payload.runId == run
  }

  /** Whatever a run holds was assigned to somebody once. */
  ghost predicate AllAssigned(log: seq<Event>) {
    forall r, i :: i in CoreOf(log, r).items ==> WasAssigned(log, r, i)
  }

  // ---- Only a start brings items ------------------------------------------------------------------------

  lemma {:induction false} LandedBringsNone(cfg: Config, log: seq<Event>, p: Proposal, latest: int, r: Uuid, i: Uuid)
    requires LogKept(cfg, log) && Shaped(cfg, p) && ReadFrom(log, p.seen)
    ensures i in CoreOf(Landed(log, p, latest), r).items <==> i in CoreOf(log, r).items
  {
    var seen, c := CoreOf(p.seen, p.offer.run), CoreOf(log, p.offer.run);
    LandedCore(cfg, log, p, latest, r);
    BatchReplay(seen, c, p.worker, p.offer.run, p.offer.work);
    LandedItem(cfg, log, p, i);
  }

  lemma {:induction false} RetryBringsNone(cfg: Config, a: World, s: Step, b: World, r: Uuid, i: Uuid)
    requires InCustody(cfg, a) && Next(cfg, a, s, b) && s.RetryRun?
    ensures i in CoreOf(b.log, r).items <==> i in CoreOf(a.log, r).items
  {
    var decided := CoreOf(s.decided, s.run).items;
    PrefixIsRead(s.decided, a.log);
    ItemsAgree(s.decided, s.run);
    RetryProper(s.run, decided, s.order, s.newAgent);
    AppendedCore(a.log, s.run, s.batch, r);
    RetryOnWorker(CoreOf(a.log, s.run), s.run, decided, s.order, s.newAgent);
    RetriedItem(cfg, a.log, s.decided, s.run, s.order, s.newAgent, i);
  }

  lemma {:induction false} StepBringsNone(cfg: Config, a: World, s: Step, b: World, r: Uuid, i: Uuid)
    requires InCustody(cfg, a) && Next(cfg, a, s, b) && !s.StartRun?
    ensures i in CoreOf(b.log, r).items <==> i in CoreOf(a.log, r).items
  {
    match s
    case Attempt(v, latest, link) =>
      LandedBringsNone(cfg, a.log, Proposal(v, a.phases[v].seen, a.phases[v].offer.value), latest, r, i);
    case Surface(p, latest) =>
      LandedBringsNone(cfg, a.log, p, latest, r, i);
    case ChangeStatus(run, decided, status, reason, batch) =>
      StatusEffect(CoreOf(a.log, run), run, status, reason);
      AppendedCore(a.log, run, batch, r);
    case RetryRun(_, _, _, _, _) =>
      RetryBringsNone(cfg, a, s, b, r, i);
    case CreateOther(aggregate, batch) =>
      assert forall k :: 0 <= k < |batch| ==> Payloads(batch)[k] == batch[k].payload;
      NoEffect(CoreOf(a.log, aggregate), Payloads(batch));
      AppendedCore(a.log, aggregate, batch, r);
    case _ =>
  }

  /** And a start assigns every item it brings. */
  lemma {:induction false} StartAssigns(log: seq<Event>, run: Uuid, workspace: Uuid, objective: string,
                                        dealt: seq<Planner.WorkItem>, batch: seq<Event>, r: Uuid, i: Uuid)
    requires Kept(log) && Stream(log, run) == [] && forall k :: 0 <= k < |dealt| ==> dealt[k].agent.Some?
    requires Payloads(batch) == StartPayloads(run, workspace, objective, dealt)
    requires i in CoreOf(Appended(log, run, batch), r).items && i !in CoreOf(log, r).items
    ensures WasAssigned(Appended(log, run, batch), r, i)
  {
    StartProper(run, workspace, objective, dealt);
    AppendedCore(log, run, batch, r);
    EmptyStreamIsBlank(log, run);
    StartOnWorker(run, workspace, objective, dealt);
    StartedItem(dealt, i);
    var k :| 0 <= k < |dealt| && dealt[k].id == i;
    assert |Payloads(batch)| == |batch|;
    var e := Stamp(batch, run)[k + 1];
    assert e.payload == Payloads(batch)[k + 1] == WorkItemAssigned(run, i, dealt[k].agent.value);
    assert e in Appended(log, run, batch);
  }

  lemma {:induction false} AssignedLater(log: seq<Event>, next: seq<Event>, run: Uuid, item: Uuid)
    requires log <= next && WasAssigned(log, run, item)
    ensures WasAssigned(next, run, item)
  {
    PrefixIsRead(log, next);
    var e :| e in log && Of(e, Assigning(item)) && e.payload.runId == run;
    assert e in next;
  }

  lemma {:induction false} StepAssigned(cfg: Config, a: World, s: Step, b: World)
    requires InCustody(cfg, a) && AllAssigned(a.log) && Next(cfg, a, s, b)
    ensures AllAssigned(b.log)
  {
    StepExtends(cfg, a, s, b);
    forall r, i | i in CoreOf(b.log, r).items ensures WasAssigned(b.log, r, i) {
      if i in CoreOf(a.log, r).items {
        AssignedLater(a.log, b.log, r, i);
      } else if s.StartRun? {
        StartAssigns(a.log, s.run, s.workspace, s.objective, s.dealt, s.batch, r, i);
      } else {
        StepBringsNone(cfg, a, s, b, r, i);
      }
    }
  }

  lemma {:induction false} TraceAssigned(cfg: Config, worlds: seq<World>, steps: seq<Step>, k: nat)
    requires Trace(cfg, worlds, steps) && k < |worlds|
    ensures AllAssigned(worlds[k].log)
  {
    if k > 0 {
      TraceAssigned(cfg, worlds, steps, k - 1);
      TraceInCustody(cfg, worlds, steps, k - 1);
      assert Next(cfg, worlds[k - 1], steps[k - 1], worlds[k]);
      StepAssigned(cfg, worlds[k - 1], steps[k - 1], worlds[k]);
    }
  }

  // ---- Whole rows -----------------------------------------------------------------------------------------

  /** The same events, in any order. */
  ghost predicate SameEvents(log: seq<Event>, all: seq<Event>) {
    forall e :: e in all <==> e in log
  }

  /** Where whoever was ever given the item is the agent it has, nobody was displaced, whatever the order. */
  lemma {:induction false} FixedIsNotDisplaced(log: seq<Event>, all: seq<Event>, run: Uuid, item: Uuid)
    requires AgentFixed(log, run, item) && WasAssigned(log, run, item) && SameEvents(log, all)
    requires OneRunPerItem(all)
    ensures !Displaced(all, run, item)
  {
    var e :| e in log && Of(e, Assigning(item)) && e.payload.runId == run;
    var j :| 0 <= j < |all| && all[j] == e;
    var k := SomeLast(all, Assigning(item));
    assert Of(all[j], Assigning(item));
    assert NamesItem(all[k].payload) && Names(all[j].payload, all[k].payload.itemId);
    assert GivesAgent(all[k], run, item) && all[k] in log;
    forall s | IsLast(all, Giving(run, item), s) ensures all[s].payload.agentId == all[k].payload.agentId {
      assert GivesAgent(all[s], run, item) && all[s] in log;
    }
  }

  lemma {:induction false} AssignedRow(log: seq<Event>, all: seq<Event>, run: Uuid, item: Uuid)
    requires WasAssigned(log, run, item) && SameEvents(log, all)
    ensures ItemRowOf(all, item).Some? && ItemRowOf(all, item).value.agent.Some?
  {
    var e :| e in log && Of(e, Assigning(item)) && e.payload.runId == run;
    var j :| 0 <= j < |all| && all[j] == e;
    var k := SomeLast(all, Assigning(item));
    assert Of(all[j], Assigning(item));
    ItemRowAgent(all, item, k);
  }

  /**
   * In every reachable log and on any load of it, each item that a run holds has a rebuilt row of that run, in
   * the same status, with some agent; and the agent is the worker's exactly when the last start since the
   * item's last assignment in the load, if any, was by the agent it was assigned to, which with affinity
   * everywhere is always so.
   */
  lemma {:induction false} LoadedRowsAgree(cfg: Config, worlds: seq<World>, steps: seq<Step>, k: nat, all: seq<Event>,
                                           run: Uuid, item: Uuid)
    requires Trace(cfg, worlds, steps) && k < |worlds| && EventStore.IsLoad(worlds[k].log, all)
    requires item in CoreOf(all, run).items
    ensures ItemRowOf(all, item).Some?
    ensures ItemRowOf(all, item).value.runId == run && ItemRowOf(all, item).value.agent.Some?
    ensures ItemRowOf(all, item).value.status == CoreOf(all, run).items[item].status
    ensures ItemRowOf(all, item).value.agent == CoreOf(all, run).items[item].agent <==> !Displaced(all, run, item)
    ensures Strict(cfg) ==> !Displaced(all, run, item)
  {
    var log := worlds[k].log;
    TraceInCustody(cfg, worlds, steps, k);
    TraceAssigned(cfg, worlds, steps, k);
    LoadedHoused(log, all);
    LoadedOwners(log, all);
    LoadedMembers(log, all);
    LoadKeepsKeys(log, all, run);
    assert item in CoreOf(log, run).items.Keys;
    HeldHasRow(all, run, item);
    LoadedItemsAgree(cfg, worlds, steps, k, all, run, item);
    RebuiltAgentAgrees(all, run, item);
    AssignedRow(log, all, run, item);
    if Strict(cfg) {
      FixedIsNotDisplaced(log, all, run, item);
    }
  }

  /**
   * With affinity everywhere, an undisturbed tick on any reachable log leaves, for every item it touched, exactly
   * the row that a rebuild would.
   */
  lemma {:induction false} TickWritesRebuiltRows(cfg: Config, worlds: seq<World>, steps: seq<Step>, k: nat,
                                                 next: seq<Event>, v: Uuid, run: Uuid, work: seq<Job>,
                                                 batch: seq<Event>, rows: map<Uuid, ItemRow>, item: Uuid)
    requires Strict(cfg) && Trace(cfg, worlds, steps) && k < |worlds| && Workable(CoreOf(worlds[k].log, run))
    requires TickAppends(CoreOf(worlds[k].log, run), worlds[k].log, next, v, true, cfg.maxItems, run, work, batch)
    requires Touches(work, item)
    ensures var memory := Close(NoteAll(CoreOf(worlds[k].log, run), work)).items;
            var projected := Projections.RowsAfter(rows, memory, run, Payloads(batch));
            item in projected && ItemRowOf(next, item) == Some(projected[item])
  {
    var log := worlds[k].log;
    TraceInCustody(cfg, worlds, steps, k);
    TraceAssigned(cfg, worlds, steps, k);
    LegalJobs(CoreOf(log, run), v, true, work, item);
    FixedIsNotDisplaced(log, log, run, item);
    Projections.ProjectedRowIsRebuilt(log, next, v, true, cfg.maxItems, run, work, batch, rows, item);
  }
}
