/**
 * Why the workers need affinity. With any other settings than those for which safety is proved, an item is
 * completed twice, or changes hands, with no retry, no late commit and no load out of order.
 */
module Affinity {
  import opened Events
  import opened Log
  import opened EventStore
  import opened WorkerReplay
  import opened LoadOrder
  import opened RetryAppend
  import opened Planner
  import opened Orchestrator
  import opened ControlEffects
  import opened Protocol
  import opened ProtocolSafety
  import opened Redoing
  import RowContents
  import opened ProjectionStore
  import opened Rebuild
  import Custody
  import opened Scenes

  /** One item, dealt to some agent. */
  function DealtTo(agent: Uuid): seq<WorkItem> {
    [WorkItem(ITEM, RUN, Stock(""), Some(agent), Assigned)]
  }

  /** What the run's replay holds after its start. */
  function Fresh(agent: Uuid): Core {
    Core(7, Running, 0.0, 0, map[ITEM := Item(Assigned, Some(agent))])
  }

  /** The only world at which traces begin. */
  ghost function Origin(cfg: Config): World {
    World([], map v | v in cfg.workers :: Idle, {}, {}, {})
  }

  /** A world whose log holds the start of the run, which is its own load. */
  ghost predicate JustStarted(w: World, agent: Uuid) {
    && CoreOf(w.log, RUN) == Fresh(agent) && IsLoad(w.log, w.log)
    && Completions(Payloads(w.log), RUN, ITEM) == 0
    && ItemRowOf(w.log, ITEM) == Some(ItemRow(RUN, Assigned, Some(agent)))
  }

  lemma {:induction false} StartPayloadsOf(agent: Uuid)
    ensures var ps := StartPayloads(RUN, 7, "", DealtTo(agent));
            && ApplyAll(BLANK.core, ps) == Fresh(agent) && Proper(ps, RUN) && Completions(ps, RUN, ITEM) == 0
  {
    var ps := StartPayloads(RUN, 7, "", DealtTo(agent));
    StartOnWorker(RUN, 7, "", DealtTo(agent));
    assert Front(DealtTo(agent)) == [];
    NoCompletions(ps, RUN, ITEM);
  }

  /** The events of the start, appended to the empty log. */
  lemma {:induction false} StartLog(cfg: Config, agent: Uuid) returns (batch: seq<Event>)
    ensures Payloads(batch) == StartPayloads(RUN, 7, "", DealtTo(agent)) && NewIds(Origin(cfg), batch)
    ensures Accepts([], RUN, batch) && IsLoad(Stamp(batch, RUN), Stamp(batch, RUN))
  {
    var made := FreshBatch(Origin(cfg), StartPayloads(RUN, 7, "", DealtTo(agent)), RUN);
    batch := Rebased(made, 0);
    RebasedPayloads(made, 0, RUN);
    RebasedIds(made, 0, RUN);
    AcceptsRebased([], RUN, made);
    assert Timed(Stamp(batch, RUN), 0);
  }

  lemma {:induction false} Started(cfg: Config, agent: Uuid) returns (worlds: seq<World>, steps: seq<Step>)
    ensures Trace(cfg, worlds, steps) && |worlds| == 2 && steps[0].StartRun?
    ensures JustStarted(worlds[1], agent) && worlds[1].phases == Origin(cfg).phases
  {
    var a := Origin(cfg);
    var batch := StartLog(cfg, agent);
    var b := a.(log := Appended(a.log, RUN, batch), used := a.used + Ids(batch));
    StartPayloadsOf(agent);
    AppendedCore(a.log, RUN, batch, RUN);
    AppendedCompletions(a.log, RUN, batch, RUN, ITEM);
    assert a.log + Stamp(batch, RUN) == Stamp(batch, RUN);
    StartedRow(batch, agent);
    assert Controls(a, b, RUN, batch);
    worlds, steps := [a, b], [StartRun(RUN, 7, "", DealtTo(agent), batch)];
    assert Next(cfg, a, steps[0], b);
  }

  /** A worker loads the fresh run, and may take its item. */
  lemma {:induction false} Loads(cfg: Config, worlds: seq<World>, steps: seq<Step>, v: Uuid, agent: Uuid)
      returns (worlds': seq<World>, steps': seq<Step>)
    requires Trace(cfg, worlds, steps) && JustStarted(Last(worlds), agent) && v in Last(worlds).phases
    requires Last(worlds).phases[v] == Idle && cfg.maxItems > 0 && (v in cfg.affine ==> agent == v)
    ensures Trace(cfg, worlds', steps') && worlds <= worlds' && steps' == steps + [Begin(v, Last(worlds).log)]
    ensures JustStarted(Last(worlds'), agent) && MayTake(cfg, Last(worlds').phases[v], v, RUN, ITEM)
    ensures Last(worlds').phases == Last(worlds).phases[v := Ticking(Last(worlds).log, {}, None)]
  {
    var a := Last(worlds);
    var b := a.(phases := a.phases[v := Ticking(a.log, {}, None)]);
    assert ITEM in Fresh(agent).items;
    worlds', steps' := OneMoreStep(cfg, worlds, steps, Begin(v, a.log), b);
  }

  /** Steps that are no danger to the run where they happen. */
  ghost predicate Harmless(worlds: seq<World>, steps: seq<Step>)
    requires |worlds| == |steps| + 1
  {
    forall k :: 0 <= k < |steps| ==>
      && !steps[k].RetryRun? && !steps[k].Surface?
      && (steps[k].Begin? ==> forall i :: !Finished(CoreOf(worlds[k].log, RUN).items, i))
  }

  lemma {:induction false} HarmlessIsSafe(cfg: Config, worlds: seq<World>, steps: seq<Step>)
    requires |worlds| == |steps| + 1 && Harmless(worlds, steps)
    ensures Safe(cfg, worlds, steps, RUN)
  {
  }

  /** Both of two workers load the fresh run, and may take its item. */
  lemma {:induction false} BothLoad(cfg: Config, x: Uuid, y: Uuid) returns (worlds: seq<World>, steps: seq<Step>)
    requires x in cfg.workers && y in cfg.workers && x != y && x !in cfg.affine && cfg.maxItems > 0
    ensures Trace(cfg, worlds, steps) && Harmless(worlds, steps)
    ensures Completions(Payloads(Last(worlds).log), RUN, ITEM) == 0
    ensures x in Last(worlds).phases && MayTake(cfg, Last(worlds).phases[x], x, RUN, ITEM)
    ensures y in Last(worlds).phases && MayTake(cfg, Last(worlds).phases[y], y, RUN, ITEM)
  {
    worlds, steps := Started(cfg, y);
    worlds, steps := Loads(cfg, worlds, steps, x, y);
    worlds, steps := Loads(cfg, worlds, steps, y, y);
  }

  /**
   * If there is a worker without affinity and another worker of any kind, there is a trace that meets all
   * conditions of safety and completes an item twice: both load the run, and both do its item.
   */
  lemma {:induction false} SharedItemCompletesTwice(cfg: Config, x: Uuid, y: Uuid)
      returns (worlds: seq<World>, steps: seq<Step>)
    requires x in cfg.workers && y in cfg.workers && x != y && x !in cfg.affine && cfg.maxItems > 0
    ensures Trace(cfg, worlds, steps) && Safe(cfg, worlds, steps, RUN)
    ensures Completions(Payloads(Last(worlds).log), RUN, ITEM) == 2
  {
    worlds, steps := BothLoad(cfg, x, y);
    var ws, ss := TakesWhatItSaw(cfg, worlds, steps, x, RUN, ITEM);
    StillHarmless(worlds, steps, ws, ss);
    worlds, steps := TakesWhatItSaw(cfg, ws, ss, y, RUN, ITEM);
    StillHarmless(ws, ss, worlds, steps);
    HarmlessIsSafe(cfg, worlds, steps);
  }

  lemma {:induction false} StillHarmless(worlds: seq<World>, steps: seq<Step>, worlds': seq<World>, steps': seq<Step>)
    requires |worlds| == |steps| + 1 && |worlds'| == |steps'| + 1
    requires Harmless(worlds, steps) && worlds <= worlds' && JustWorks(steps, steps')
    ensures Harmless(worlds', steps')
  {
    forall k | 0 <= k < |steps'|
      ensures !steps'[k].RetryRun? && !steps'[k].Surface?
      ensures steps'[k].Begin? ==> forall i :: !Finished(CoreOf(worlds'[k].log, RUN).items, i)
    {
      if k < |steps| {
        assert steps'[k] == steps[k] && worlds'[k] == worlds[k];
      }
    }
  }

  /**
   * The settings under which items complete at most once, on every trace that is safe for their run, are
   * exactly those in which no two workers can take the same item: affinity everywhere, or a single worker.
   */
  lemma {:induction false} ExclusiveExactly(cfg: Config)
    requires cfg.maxItems > 0
    ensures Exclusive(cfg)
       <==> forall worlds: seq<World>, steps: seq<Step>, run: Uuid, item: Uuid ::
              Trace(cfg, worlds, steps) && Safe(cfg, worlds, steps, run) ==>
                Completions(Payloads(Last(worlds).log), run, item) <= 1
  {
    if Exclusive(cfg) {
      forall worlds: seq<World>, steps: seq<Step>, run: Uuid, item: Uuid |
          Trace(cfg, worlds, steps) && Safe(cfg, worlds, steps, run)
        ensures Completions(Payloads(Last(worlds).log), run, item) <= 1
      {
        CompletedAtMostOnce(cfg, worlds, steps, run, item);
      }
    } else {
      var v, w :| v in cfg.workers && w in cfg.workers && v != w;
      var x :| x in cfg.workers && x !in cfg.affine;
      var worlds, steps := SharedItemCompletesTwice(cfg, x, if x == v then w else v);
    }
  }

  /** The rebuilt row of the item after the start. */
  lemma {:induction false} StartedRow(batch: seq<Event>, agent: Uuid)
    requires Payloads(batch) == StartPayloads(RUN, 7, "", DealtTo(agent))
    ensures ItemRowOf(Stamp(batch, RUN), ITEM) == Some(ItemRow(RUN, Assigned, Some(agent)))
  {
    var rows := Stamp(batch, RUN);
    assert |Payloads(batch)| == |batch| == 2;
    assert rows[1].payload == Payloads(batch)[1] == WorkItemAssigned(RUN, ITEM, agent);
    assert rows[0].payload == Payloads(batch)[0];
    assert Front(rows) == [rows[0]] && Front([rows[0]]) == [];
    assert ItemRowOf([rows[0]], ITEM) == ItemRowOf([], ITEM) == None;
    assert Last(rows) == rows[1];
  }

  /**
   * A worker without affinity takes an item that was dealt to somebody else, and a rebuild does not see it: the
   * row keeps the agent the item was dealt to.
   */
  lemma {:induction false} LooseWorkerTakes(cfg: Config, x: Uuid)
      returns (worlds: seq<World>, steps: seq<Step>, j: nat)
    requires x in cfg.workers && x !in cfg.affine && cfg.maxItems > 0
    ensures Trace(cfg, worlds, steps) && j < |worlds|
    ensures AgentOf(CoreOf(worlds[j].log, RUN).items, ITEM) == Some(x + 1)
    ensures AgentOf(CoreOf(Last(worlds).log, RUN).items, ITEM) == Some(x)
    ensures ItemRowOf(Last(worlds).log, ITEM).Some? && ItemRowOf(Last(worlds).log, ITEM).value.agent == Some(x + 1)
  {
    worlds, steps := Started(cfg, x + 1);
    worlds, steps := Loads(cfg, worlds, steps, x, x + 1);
    j := |worlds| - 1;
    var w := worlds[j];
    worlds, steps := TakesWhatItSaw(cfg, worlds, steps, x, RUN, ITEM);
    assert worlds[j] == w;
    var log, next := w.log, Last(worlds).log;
    assert next == log + next[|log|..];
    RowContents.UnassignedRowKept(log, next[|log|..], ITEM);
  }

  /** Items keep their agents on every trace exactly where every worker has affinity. */
  lemma {:induction false} StrictExactly(cfg: Config)
    requires cfg.maxItems > 0
    ensures Strict(cfg)
       <==> forall worlds: seq<World>, steps: seq<Step>, j: nat, run: Uuid, item: Uuid ::
              Trace(cfg, worlds, steps) && j < |worlds| && item in CoreOf(worlds[j].log, run).items ==>
                AgentOf(CoreOf(Last(worlds).log, run).items, item) == AgentOf(CoreOf(worlds[j].log, run).items, item)
  {
    if Strict(cfg) {
      forall worlds: seq<World>, steps: seq<Step>, j: nat, run: Uuid, item: Uuid |
          Trace(cfg, worlds, steps) && j < |worlds| && item in CoreOf(worlds[j].log, run).items
        ensures AgentOf(CoreOf(Last(worlds).log, run).items, item) == AgentOf(CoreOf(worlds[j].log, run).items, item)
      {
        Custody.TraceIsKin(cfg, worlds, steps, j, |steps|, run);
      }
    } else {
      var x :| x in cfg.workers && x !in cfg.affine;
      var worlds, steps, j := LooseWorkerTakes(cfg, x);
      assert ITEM in CoreOf(worlds[j].log, RUN).items;
    }
  }
}
