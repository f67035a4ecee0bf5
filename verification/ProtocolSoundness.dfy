/** What holds of the protocol for any workers, with or without affinity, and any retries. */
module ProtocolSoundness {
  import opened Events
  import opened Log
  import opened WorkerReplay
  import opened Tick
  import opened Commits
  import LoadOrder
  import TickReplay
  import RetryAppend
  import opened Protocol
  import O = OrchestratorReplay

  predicate Rested(status: ItemStatus) {
    status == Assigned || status == Done || status == Failed
  }

  ghost predicate AllRested(items: Items) {
    forall i :: i in items ==> Rested(items[i].status)
  }

  /** A worker's outstanding batch is one its snapshot allowed, on a run it is done with. */
  ghost predicate OfferShaped(cfg: Config, v: Uuid, phase: Phase) {
    phase.Ticking? && phase.offer.Some? ==>
      phase.offer.value.run in phase.done && Shaped(cfg, Proposal(v, phase.seen, phase.offer.value))
  }

  ghost predicate Sound(cfg: Config, w: World) {
    && LoadOrder.Kept(w.log)
    && (forall r :: AllRested(CoreOf(w.log, r).items))
    && w.phases.Keys == cfg.workers
    && (forall v :: v in cfg.workers ==> OfferShaped(cfg, v, w.phases[v]))
    && forall p :: p in w.adrift ==> Shaped(cfg, p)
  }

  lemma {:induction false} BatchRests(cfg: Config, v: Uuid, run: Uuid, seen: Core, c: Core, work: seq<Job>)
    requires Legal(seen, v, v in cfg.affine, work) && AllRested(c.items)
    ensures AllRested(ApplyAll(c, BatchPayloads(seen, v, run, work)).items)
  {
    var next := ApplyAll(c, BatchPayloads(seen, v, run, work));
    TickReplay.BatchReplay(seen, c, v, run, work);
    forall i | i in next.items ensures Rested(next.items[i].status) {
      TickReplay.LegalJobs(seen, v, v in cfg.affine, work, i);
      TickReplay.ReplayedItem(c, v, work, i);
    }
  }

  predicate IsControl(p: Payload) {
    p.RunStarted? || p.RunStatusChanged? || p.WorkItemAssigned? || IsCreation(p)
  }

  /** Payloads that only assign, start runs or set run statuses leave every item at rest. */
  lemma {:induction false} ControlRests(c: Core, ps: seq<Payload>)
    requires AllRested(c.items)
    requires forall k :: 0 <= k < |ps| ==> IsControl(ps[k])
    ensures AllRested(ApplyAll(c, ps).items)
  {
    if ps != [] {
      ControlRests(c, Front(ps));
    }
  }

  lemma {:induction false} AppendRests(log: seq<Event>, run: Uuid, events: seq<Event>)
    requires Proper(Payloads(events), run)
    requires forall r :: AllRested(CoreOf(log, r).items)
    requires AllRested(ApplyAll(CoreOf(log, run), Payloads(events)).items)
    ensures forall r :: AllRested(CoreOf(Appended(log, run, events), r).items)
  {
    forall r ensures AllRested(CoreOf(Appended(log, run, events), r).items) {
      AppendedCore(log, run, events, r);
    }
  }

  lemma {:induction false} ControlSound(cfg: Config, a: World, b: World, run: Uuid, batch: seq<Event>)
    requires Sound(cfg, a) && Controls(a, b, run, batch)
    requires Proper(Payloads(batch), run)
    requires forall k :: 0 <= k < |batch| ==> IsControl(Payloads(batch)[k])
    ensures Sound(cfg, b)
  {
    AppendedKept(a.log, run, batch);
    ControlRests(CoreOf(a.log, run), Payloads(batch));
    AppendRests(a.log, run, batch);
  }

  lemma {:induction false} LandSound(cfg: Config, a: World, p: Proposal, latest: int)
    requires Sound(cfg, a) && Shaped(cfg, p)
    ensures LoadOrder.Kept(Landed(a.log, p, latest)) && forall r :: AllRested(CoreOf(Landed(a.log, p, latest), r).items)
  {
    var run := p.offer.run;
    BatchRests(cfg, p.worker, run, CoreOf(p.seen, run), CoreOf(a.log, run), p.offer.work);
    LandedCore(cfg, a.log, p, latest, run);
    RebasedPayloads(p.offer.batch, latest, run);
    AppendedKept(a.log, run, RetryAppend.Rebased(p.offer.batch, latest));
    AppendRests(a.log, run, RetryAppend.Rebased(p.offer.batch, latest));
  }

  lemma {:induction false} ControlStepSound(cfg: Config, a: World, s: Step, b: World)
    requires Sound(cfg, a) && Next(cfg, a, s, b) && (s.StartRun? || s.ChangeStatus? || s.RetryRun? || s.CreateOther?)
    ensures Sound(cfg, b)
  {
    if s.RetryRun? {
      RetryProper(s.run, O.FromStream(Stream(s.decided, s.run)).items, s.order, s.newAgent);
    }
    ControlSound(cfg, a, b, if s.CreateOther? then s.aggregate else s.run, s.batch);
  }

  lemma {:induction false} StepSound(cfg: Config, a: World, s: Step, b: World)
    requires Sound(cfg, a) && Next(cfg, a, s, b)
    ensures Sound(cfg, b)
  {
    match s
    case Attempt(v, latest, link) =>
      LandSound(cfg, a, Proposal(v, a.phases[v].seen, a.phases[v].offer.value), latest);
    case Surface(p, latest) =>
      LandSound(cfg, a, p, latest);
    case StartRun(_, _, _, _, _) =>
      ControlStepSound(cfg, a, s, b);
    case ChangeStatus(_, _, _, _, _) =>
      ControlStepSound(cfg, a, s, b);
    case RetryRun(_, _, _, _, _) =>
      ControlStepSound(cfg, a, s, b);
    case CreateOther(_, _) =>
      ControlStepSound(cfg, a, s, b);
    case _ =>
  }

  lemma {:induction false} TraceIsSound(cfg: Config, worlds: seq<World>, steps: seq<Step>, k: nat)
    requires Trace(cfg, worlds, steps) && k < |worlds|
    ensures Sound(cfg, worlds[k])
  {
    if k > 0 {
      TraceIsSound(cfg, worlds, steps, k - 1);
      assert Next(cfg, worlds[k - 1], steps[k - 1], worlds[k]);
      StepSound(cfg, worlds[k - 1], steps[k - 1], worlds[k]);
    }
  }

  /**
   * In every reachable log every stream is numbered 1..n, identifiers are unique, and neither the
   * worker's nor the orchestrator's replay ever shows an item "running": a start is only ever
   * committed together with the completion or failure that follows it.
   */
  lemma {:induction false} NoItemIsEverRunning(cfg: Config, worlds: seq<World>, steps: seq<Step>, k: nat, run: Uuid,
                                               item: Uuid)
    requires Trace(cfg, worlds, steps) && k < |worlds|
    ensures WellKept(worlds[k].log)
    ensures var items := CoreOf(worlds[k].log, run).items; item in items ==>
            items[item].status in {Assigned, Done, Failed}
    ensures O.FromStream(Stream(worlds[k].log, run)).items == CoreOf(worlds[k].log, run).items
  {
    TraceIsSound(cfg, worlds, steps, k);
    assert AllRested(CoreOf(worlds[k].log, run).items);
    ItemsAgree(worlds[k].log, run);
  }
}
