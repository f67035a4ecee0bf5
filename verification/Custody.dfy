/**
 * Who has which item. On every trace, whatever retries are decided on and whatever loads show, a run
 * never gains or loses items, and with affinity everywhere no item ever changes hands.
 */
module Custody {
  import opened Events
  import opened Log
  import opened WorkerReplay
  import opened Agreement
  import opened LoadOrder
  import opened Tick
  import opened TickReplay
  import opened RetryAppend
  import opened Orchestrator
  import opened ControlEffects
  import opened Protocol
  import opened Commits
  import EventStore
  import Planner
  import Rebuild
  import opened ReachableLogs

  /** The same items as before, once there are any, and with affinity everywhere under the same agents. */
  ghost predicate Kin(strict: bool, was: Items, now: Items) {
    && (was != map[] ==> now.Keys == was.Keys)
    && (strict ==> forall i :: i in was ==> i in now && now[i].agent == was[i].agent)
  }

  ghost predicate Held(items: Items) {
    forall i :: i in items ==> items[i].agent.Some?
  }

  ghost predicate LogKept(cfg: Config, log: seq<Event>) {
    Kept(log) && (forall r :: Held(CoreOf(log, r).items)) && (Strict(cfg) ==> forall r, i :: AgentFixed(log, r, i))
  }

  ghost predicate InCustody(cfg: Config, w: World) {
    && Tidy(cfg, w) && LogKept(cfg, w.log)
    && forall d, r :: d in w.loaded ==> Held(CoreOf(d, r).items)
  }

  lemma {:induction false} KinTrans(strict: bool, a: Items, b: Items, c: Items)
    requires Kin(strict, a, b) && Kin(strict, b, c)
    ensures Kin(strict, a, c)
  {
    if a != map[] {
      var i :| i in a;
      assert i in b.Keys;
    }
  }

  // ---- What is read is still so -----------------------------------------------------------------------

  lemma {:induction false} NamedIsHeld(log: seq<Event>, run: Uuid, item: Uuid)
    requires Unblocked(log) && NamedBy(log, run, item)
    ensures item in CoreOf(log, run).items
  {
    var t := ItemTopic(run, item);
    LastWordOnItem(log, run, item);
    LastOnIsOn(log, t);
    var k :| 0 <= k < |log| && Rebuild.Names(log[k].payload, item) && log[k].payload.runId == run;
    assert log[k] in log && On(t, log[k]);
  }

  /** An item read from the log is in the log. */
  lemma {:induction false} ReadItem(log: seq<Event>, seen: seq<Event>, run: Uuid, item: Uuid)
    requires Unblocked(log) && ReadFrom(log, seen) && item in CoreOf(seen, run).items
    ensures item in CoreOf(log, run).items
  {
    HeldIsNamed(seen, run, item);
    NamedLater(seen, log, run, item);
    NamedIsHeld(log, run, item);
  }

  /** An agent read from the log is the agent in the log. */
  lemma {:induction false} ReadAgent(log: seq<Event>, seen: seq<Event>, run: Uuid, item: Uuid)
    requires AgentFixed(log, run, item) && ReadFrom(log, seen)
    ensures AgentOf(CoreOf(seen, run).items, item).Some? ==>
              AgentOf(CoreOf(log, run).items, item) == AgentOf(CoreOf(seen, run).items, item)
  {
    AgentWasGiven(seen, run, item);
  }

  // ---- One append ---------------------------------------------------------------------------------------

  /** Whoever the payloads give an item to is who has it in the end. */
  ghost predicate GivesAsHeld(ps: seq<Payload>, items: Items) {
    forall k :: 0 <= k < |ps| && (ps[k].WorkItemAssigned? || ps[k].WorkItemStarted?) ==>
      AgentOf(items, ps[k].itemId) == Some(ps[k].agentId)
  }

  /** Payloads that keep the run's items and their agents. */
  ghost predicate Custodial(cfg: Config, c: Core, run: Uuid, ps: seq<Payload>) {
    var now := ApplyAll(c, ps).items;
    && Proper(ps, run) && Kin(Strict(cfg), c.items, now) && Held(now)
    && (Strict(cfg) ==> GivesAsHeld(ps, now))
  }

  lemma {:induction false} AppendCustodial(cfg: Config, log: seq<Event>, run: Uuid, batch: seq<Event>)
    requires LogKept(cfg, log) && Proper(Payloads(batch), run)
    requires Accepts(log, run, batch) ==> Custodial(cfg, CoreOf(log, run), run, Payloads(batch))
    ensures LogKept(cfg, Appended(log, run, batch))
    ensures forall r :: Kin(Strict(cfg), CoreOf(log, r).items, CoreOf(Appended(log, run, batch), r).items)
  {
    AppendedKept(log, run, batch);
    if Accepts(log, run, batch) {
      var next := Appended(log, run, batch);
      forall r
        ensures Held(CoreOf(next, r).items) && Kin(Strict(cfg), CoreOf(log, r).items, CoreOf(next, r).items)
      {
        AppendedCore(log, run, batch, r);
      }
      if Strict(cfg) {
        AppendedCore(log, run, batch, run);
        forall r, i ensures AgentFixed(next, r, i) {
          AgentsStay(log, run, batch, r, i);
        }
      }
    }
  }

  lemma {:induction false} AgentsStay(log: seq<Event>, run: Uuid, batch: seq<Event>, r: Uuid, i: Uuid)
    requires AgentFixed(log, r, i) && Proper(Payloads(batch), run) && Accepts(log, run, batch)
    requires var now := CoreOf(Appended(log, run, batch), run).items;
             Kin(true, CoreOf(log, run).items, now) && GivesAsHeld(Payloads(batch), now)
    ensures AgentFixed(Appended(log, run, batch), r, i)
  {
    var next := Appended(log, run, batch);
    AppendedCore(log, run, batch, r);
    forall e | e in next && GivesAgent(e, r, i) ensures AgentOf(CoreOf(next, r).items, i) == Some(e.payload.agentId) {
      if e !in log {
        var k :| 0 <= k < |batch| && Stamp(batch, run)[k] == e;
        assert e.payload == Payloads(batch)[k] && About(Payloads(batch)[k], run);
      } else if r == run {
        assert i in CoreOf(log, run).items;
      }
    }
  }

  // ---- Batches of workers -------------------------------------------------------------------------------

  lemma {:induction false} JobsGive(v: Uuid, run: Uuid, work: seq<Job>, k: nat)
    requires k < |JobPayloads(v, run, work)|
    ensures var p := JobPayloads(v, run, work)[k]; p.WorkItemStarted? ==> Touches(work, p.itemId) && p.agentId == v
  {
    if work != [] && k < |JobPayloads(v, run, Front(work))| {
      JobsGive(v, run, Front(work), k);
    }
  }

  /** An item a proposal touches is in the log, and with affinity everywhere it is its worker's. */
  lemma {:induction false} TouchedIsHeld(cfg: Config, log: seq<Event>, p: Proposal, i: Uuid)
    requires LogKept(cfg, log) && Shaped(cfg, p) && ReadFrom(log, p.seen) && Touches(p.offer.work, i)
    ensures var items := CoreOf(log, p.offer.run).items;
            i in items && (Strict(cfg) ==> items[i].agent == Some(p.worker))
  {
    var run := p.offer.run;
    LegalJobs(CoreOf(p.seen, run), p.worker, p.worker in cfg.affine, p.offer.work, i);
    ReadItem(log, p.seen, run, i);
    if Strict(cfg) {
      ReadAgent(log, p.seen, run, i);
    }
  }

  lemma {:induction false} LandedItem(cfg: Config, log: seq<Event>, p: Proposal, i: Uuid)
    requires LogKept(cfg, log) && Shaped(cfg, p) && ReadFrom(log, p.seen)
    ensures var c := CoreOf(log, p.offer.run);
            var now := ReplayedAll(c, p.worker, p.offer.work).items;
            && (i in now <==> i in c.items)
            && (i in now ==> now[i].agent.Some? && (Strict(cfg) ==> now[i].agent == c.items[i].agent))
  {
    var run := p.offer.run;
    LegalJobs(CoreOf(p.seen, run), p.worker, p.worker in cfg.affine, p.offer.work, i);
    ReplayedItem(CoreOf(log, run), p.worker, p.offer.work, i);
    if Touches(p.offer.work, i) {
      TouchedIsHeld(cfg, log, p, i);
    }
  }

  lemma {:induction false} LandCustodial(cfg: Config, log: seq<Event>, p: Proposal)
    requires LogKept(cfg, log) && Shaped(cfg, p) && ReadFrom(log, p.seen)
    ensures Custodial(cfg, CoreOf(log, p.offer.run), p.offer.run, Payloads(p.offer.batch))
  {
    var run, c, seen := p.offer.run, CoreOf(log, p.offer.run), CoreOf(p.seen, p.offer.run);
    var ps := BatchPayloads(seen, p.worker, run, p.offer.work);
    var now := ApplyAll(c, ps).items;
    BatchReplay(seen, c, p.worker, run, p.offer.work);
    BatchProper(seen, p.worker, run, p.offer.work);
    forall i
      ensures i in now <==> i in c.items
      ensures i in now ==> now[i].agent.Some? && (Strict(cfg) ==> now[i].agent == c.items[i].agent)
    {
      LandedItem(cfg, log, p, i);
    }
    assert now.Keys == c.items.Keys;
    if Strict(cfg) {
      LandGives(cfg, log, p, now);
    }
  }

  lemma {:induction false} LandGives(cfg: Config, log: seq<Event>, p: Proposal, now: Items)
    requires Strict(cfg) && LogKept(cfg, log) && Shaped(cfg, p) && ReadFrom(log, p.seen)
    requires Kin(true, CoreOf(log, p.offer.run).items, now)
    ensures GivesAsHeld(BatchPayloads(CoreOf(p.seen, p.offer.run), p.worker, p.offer.run, p.offer.work), now)
  {
    var run, work := p.offer.run, p.offer.work;
    var ps := BatchPayloads(CoreOf(p.seen, run), p.worker, run, work);
    JobsProper(p.worker, run, work);
    forall k | 0 <= k < |ps| && (ps[k].WorkItemAssigned? || ps[k].WorkItemStarted?)
      ensures AgentOf(now, ps[k].itemId) == Some(ps[k].agentId)
    {
      assert ps[k] == JobPayloads(p.worker, run, work)[k];
      JobsGive(p.worker, run, work, k);
      TouchedIsHeld(cfg, log, p, ps[k].itemId);
    }
  }

  // ---- Batches of control operations --------------------------------------------------------------------

  lemma {:induction false} StartCustodial(cfg: Config, log: seq<Event>, run: Uuid, workspace: Uuid, objective: string,
                                          dealt: seq<Planner.WorkItem>)
    requires LogKept(cfg, log) && Stream(log, run) == [] && DistinctItems(dealt)
    requires forall k :: 0 <= k < |dealt| ==> dealt[k].agent.Some?
    ensures Custodial(cfg, CoreOf(log, run), run, StartPayloads(run, workspace, objective, dealt))
  {
    EmptyStreamIsBlank(log, run);
    StartOnWorker(run, workspace, objective, dealt);
    forall i ensures i in StartedItems(dealt) ==> StartedItems(dealt)[i].agent.Some? {
      StartedItem(dealt, i);
    }
    StartProper(run, workspace, objective, dealt);
    StartGives(run, workspace, objective, dealt);
  }

  lemma {:induction false} StartGives(run: Uuid, workspace: Uuid, objective: string, dealt: seq<Planner.WorkItem>)
    requires DistinctItems(dealt) && forall k :: 0 <= k < |dealt| ==> dealt[k].agent.Some?
    ensures GivesAsHeld(StartPayloads(run, workspace, objective, dealt), StartedItems(dealt))
  {
    var ps := StartPayloads(run, workspace, objective, dealt);
    forall k | 0 < k < |ps| ensures AgentOf(StartedItems(dealt), ps[k].itemId) == Some(ps[k].agentId) {
      StartedAgent(dealt, k - 1);
    }
  }

  /** What a retry decided on some earlier read makes of one item. */
  lemma {:induction false} RetriedItem(cfg: Config, log: seq<Event>, decided: seq<Event>, run: Uuid, order: seq<Uuid>,
                                       newAgent: Uuid -> Uuid, i: Uuid)
    requires LogKept(cfg, log) && ReadFrom(log, decided) && Held(CoreOf(decided, run).items)
    requires Enumerates(order, CoreOf(decided, run).items)
    ensures var was := CoreOf(log, run).items;
            var now := Reassigned(was, CoreOf(decided, run).items, order, newAgent);
            && (i in now <==> i in was)
            && (i in now ==> now[i].agent.Some? && (Strict(cfg) ==> now[i].agent == was[i].agent))
  {
    var items := CoreOf(decided, run).items;
    ReassignedItem(CoreOf(log, run).items, items, order, newAgent, i);
    if i in order {
      assert Unfinished(items, i);
      ReadItem(log, decided, run, i);
      if Strict(cfg) {
        ReadAgent(log, decided, run, i);
      }
    }
  }

  lemma {:induction false} RetryCustodial(cfg: Config, log: seq<Event>, decided: seq<Event>, run: Uuid,
                                          order: seq<Uuid>, newAgent: Uuid -> Uuid)
    requires LogKept(cfg, log) && ReadFrom(log, decided) && Held(CoreOf(decided, run).items)
    requires Enumerates(order, CoreOf(decided, run).items)
    ensures Custodial(cfg, CoreOf(log, run), run, RetryPayloads(run, CoreOf(decided, run).items, order, newAgent))
  {
    var was, items := CoreOf(log, run).items, CoreOf(decided, run).items;
    var now := Reassigned(was, items, order, newAgent);
    RetryOnWorker(CoreOf(log, run), run, items, order, newAgent);
    RetryProper(run, items, order, newAgent);
    forall i
      ensures i in now <==> i in was
      ensures i in now ==> now[i].agent.Some? && (Strict(cfg) ==> now[i].agent == was[i].agent)
    {
      RetriedItem(cfg, log, decided, run, order, newAgent, i);
    }
    assert now.Keys == was.Keys;
    RetryGives(run, was, items, order, newAgent);
  }

  lemma {:induction false} RetryGives(run: Uuid, was: Items, decided: Items, order: seq<Uuid>, newAgent: Uuid -> Uuid)
    ensures GivesAsHeld(RetryPayloads(run, decided, order, newAgent), Reassigned(was, decided, order, newAgent))
  {
    var ps := RetryPayloads(run, decided, order, newAgent);
    forall k | 0 < k < |ps|
      ensures AgentOf(Reassigned(was, decided, order, newAgent), ps[k].itemId) == Some(ps[k].agentId)
    {
      assert ps[k] == WorkItemAssigned(run, order[k - 1], RetryAgent(decided, order[k - 1], newAgent));
      ReassignedItem(was, decided, order, newAgent, order[k - 1]);
    }
  }

  // ---- Steps and traces -----------------------------------------------------------------------------------

  /** What a step makes of the log and of every run's items. */
  lemma {:induction false} StepLog(cfg: Config, a: World, s: Step, b: World)
    requires InCustody(cfg, a) && Next(cfg, a, s, b)
    ensures LogKept(cfg, b.log)
    ensures forall r :: Kin(Strict(cfg), CoreOf(a.log, r).items, CoreOf(b.log, r).items)
  {
    match s
    case Attempt(v, latest, link) =>
      LandLog(cfg, a.log, Proposal(v, a.phases[v].seen, a.phases[v].offer.value), latest);
    case Surface(p, latest) =>
      LandLog(cfg, a.log, p, latest);
    case StartRun(run, workspace, objective, dealt, batch) =>
      StartCustodial(cfg, a.log, run, workspace, objective, dealt);
      AppendCustodial(cfg, a.log, run, batch);
    case ChangeStatus(run, decided, status, reason, batch) =>
      StatusEffect(CoreOf(a.log, run), run, status, reason);
      AppendCustodial(cfg, a.log, run, batch);
    case RetryRun(run, decided, order, newAgent, batch) =>
      PrefixIsRead(decided, a.log);
      ItemsAgree(decided, run);
      RetryCustodial(cfg, a.log, decided, run, order, newAgent);
      AppendCustodial(cfg, a.log, run, batch);
    case CreateOther(aggregate, batch) =>
      NoEffect(CoreOf(a.log, aggregate), Payloads(batch));
      AppendCustodial(cfg, a.log, aggregate, batch);
    case _ =>
  }

  lemma {:induction false} LandLog(cfg: Config, log: seq<Event>, p: Proposal, latest: int)
    requires LogKept(cfg, log) && Shaped(cfg, p) && ReadFrom(log, p.seen)
    ensures LogKept(cfg, Landed(log, p, latest))
    ensures forall r :: Kin(Strict(cfg), CoreOf(log, r).items, CoreOf(Landed(log, p, latest), r).items)
  {
    LandCustodial(cfg, log, p);
    RebasedPayloads(p.offer.batch, latest, p.offer.run);
    AppendCustodial(cfg, log, p.offer.run, Rebased(p.offer.batch, latest));
  }

  lemma {:induction false} StepInCustody(cfg: Config, a: World, s: Step, b: World)
    requires InCustody(cfg, a) && Next(cfg, a, s, b)
    ensures InCustody(cfg, b)
    ensures forall r :: Kin(Strict(cfg), CoreOf(a.log, r).items, CoreOf(b.log, r).items)
  {
    StepTidy(cfg, a, s, b);
    StepLog(cfg, a, s, b);
  }

  lemma {:induction false} TraceInCustody(cfg: Config, worlds: seq<World>, steps: seq<Step>, k: nat)
    requires Trace(cfg, worlds, steps) && k < |worlds|
    ensures InCustody(cfg, worlds[k])
  {
    if k > 0 {
      TraceInCustody(cfg, worlds, steps, k - 1);
      assert Next(cfg, worlds[k - 1], steps[k - 1], worlds[k]);
      StepInCustody(cfg, worlds[k - 1], steps[k - 1], worlds[k]);
    } else {
      TraceIsTidy(cfg, worlds, steps, 0);
    }
  }

  lemma {:induction false} KinAt(cfg: Config, worlds: seq<World>, steps: seq<Step>, k: nat, run: Uuid)
    requires Trace(cfg, worlds, steps) && k < |steps|
    ensures Kin(Strict(cfg), CoreOf(worlds[k].log, run).items, CoreOf(worlds[k + 1].log, run).items)
  {
    TraceInCustody(cfg, worlds, steps, k);
    assert Next(cfg, worlds[k], steps[k], worlds[k + 1]);
    StepInCustody(cfg, worlds[k], steps[k], worlds[k + 1]);
  }

  lemma {:induction false} TraceIsKin(cfg: Config, worlds: seq<World>, steps: seq<Step>, j: nat, k: nat, run: Uuid)
    requires Trace(cfg, worlds, steps) && j <= k < |worlds|
    ensures Kin(Strict(cfg), CoreOf(worlds[j].log, run).items, CoreOf(worlds[k].log, run).items)
    decreases k - j
  {
    if j < k {
      KinAt(cfg, worlds, steps, j, run);
      TraceIsKin(cfg, worlds, steps, j + 1, k, run);
      KinTrans(Strict(cfg), CoreOf(worlds[j].log, run).items, CoreOf(worlds[j + 1].log, run).items,
               CoreOf(worlds[k].log, run).items);
    }
  }

  /** On every trace, for any workers, a run that has items keeps exactly those, each with some agent. */
  lemma {:induction false} ItemsNeverChange(cfg: Config, worlds: seq<World>, steps: seq<Step>, j: nat, k: nat,
                                            run: Uuid)
    requires Trace(cfg, worlds, steps) && j <= k < |worlds| && CoreOf(worlds[j].log, run).items != map[]
    ensures CoreOf(worlds[k].log, run).items.Keys == CoreOf(worlds[j].log, run).items.Keys
    ensures Held(CoreOf(worlds[k].log, run).items)
  {
    TraceIsKin(cfg, worlds, steps, j, k, run);
    TraceInCustody(cfg, worlds, steps, k);
  }

  /**
   * With affinity everywhere, on every trace and without further conditions, an item never changes hands:
   * not through retries decided on old reads, nor through late batches or loads out of order. And every
   * load shows it under the agent it has.
   */
  lemma {:induction false} AgentsNeverChange(cfg: Config, worlds: seq<World>, steps: seq<Step>, j: nat, k: nat,
                                             all: seq<Event>, run: Uuid, item: Uuid)
    requires Strict(cfg) && Trace(cfg, worlds, steps)
    requires j <= k < |worlds| && item in CoreOf(worlds[j].log, run).items && EventStore.IsLoad(worlds[k].log, all)
    ensures AgentOf(CoreOf(worlds[j].log, run).items, item).Some?
    ensures AgentOf(CoreOf(worlds[k].log, run).items, item) == AgentOf(CoreOf(worlds[j].log, run).items, item)
    ensures AgentOf(CoreOf(all, run).items, item) == AgentOf(CoreOf(worlds[j].log, run).items, item)
  {
    TraceIsKin(cfg, worlds, steps, j, k, run);
    TraceInCustody(cfg, worlds, steps, j);
    TraceInCustody(cfg, worlds, steps, k);
    LoadKeepsAgent(worlds[k].log, all, run, item);
  }
}
