/** The conditions of safety are exact: when one of them fails, a completed item is done again. */
module Redoing {
  import opened Events
  import opened Log
  import opened WorkerReplay
  import opened LoadOrder
  import opened Harness
  import opened Tick
  import opened TickReplay
  import opened RetryAppend
  import opened Orchestrator
  import opened ControlEffects
  import opened Protocol
  import opened Commits
  import opened ReachableLogs
  import EventStore
  import ProtocolSoundness
  import opened ProtocolSafety
  import O = OrchestratorReplay

  // ---- Loads --------------------------------------------------------------------------------------------

  /** Jobs that a load lets the worker do, one of them on an item that is completed in the log. */
  ghost predicate MayRedo(cfg: Config, seen: seq<Event>, log: seq<Event>, v: Uuid, run: Uuid, work: seq<Job>) {
    && Workable(CoreOf(seen, run)) && Legal(CoreOf(seen, run), v, v in cfg.affine, work) && |work| <= cfg.maxItems
    && exists i :: Touches(work, i) && Finished(CoreOf(log, run).items, i)
  }

  lemma {:induction false} OneJobIsLegal(c: Core, v: Uuid, affine: bool, j: Job)
    requires Eligible(c.items, v, affine, j.item)
    ensures Legal(c, v, affine, [j]) && Touches([j], j.item) && Once([j])
    ensures Succeeds(j.outcome) ==> Completes([j], j.item)
  {
    assert Front([j]) == [] && NoteAll(c, []) == c && Legal(c, v, affine, []);
  }

  /**
   * A load lets a worker legally redo a completed item of the run if and only if the item's latest event
   * is its assignment (to this worker, with affinity) and the run's latest status event sets it running.
   */
  lemma {:induction false} LoadTemptsExactly(cfg: Config, a: World, v: Uuid, seen: seq<Event>, run: Uuid)
    requires Tidy(cfg, a) && EventStore.IsLoad(a.log, seen)
    ensures (exists work :: MayRedo(cfg, seen, a.log, v, run, work)) <==> exists i :: Redoable(cfg, a.log, v, run, i)
  {
    var c := CoreOf(seen, run);
    if work :| MayRedo(cfg, seen, a.log, v, run, work) {
      var i :| Touches(work, i) && Finished(CoreOf(a.log, run).items, i);
      LegalJobs(c, v, v in cfg.affine, work, i);
      TemptsExactly(cfg, a.log, seen, v, run, i);
    }
    if i :| Redoable(cfg, a.log, v, run, i) {
      var j := Job(i, Crashed(""));
      TemptsExactly(cfg, a.log, seen, v, run, i);
      OneJobIsLegal(c, v, v in cfg.affine, j);
      assert MayRedo(cfg, seen, a.log, v, run, [j]);
    }
  }

  ghost predicate Identified(w: World, p: Proposal) {
    Ids(p.offer.batch) <= w.used && UniqueIds(p.offer.batch)
  }

  /** Every identifier in the log or in a batch that may get there has been used, and within a batch once. */
  ghost predicate UsesKnown(w: World) {
    && Ids(w.log) <= w.used
    && (forall v :: v in w.phases ==> forall p :: p in Outstanding(v, w.phases[v]) ==> Identified(w, p))
    && forall p :: p in w.adrift ==> Identified(w, p)
  }

  lemma {:induction false} LandedUses(a: World, p: Proposal, latest: int)
    requires Ids(a.log) <= a.used && Identified(a, p)
    ensures Ids(Landed(a.log, p, latest)) <= a.used
  {
    RebasedIds(p.offer.batch, latest, p.offer.run);
    AppendedIds(a.log, p.offer.run, Rebased(p.offer.batch, latest));
  }

  lemma {:induction false} ControlUses(a: World, b: World, home: Uuid, batch: seq<Event>)
    requires UsesKnown(a) && Controls(a, b, home, batch)
    ensures UsesKnown(b)
  {
    AppendedIds(a.log, home, batch);
  }

  lemma {:induction false} StepUses(cfg: Config, a: World, s: Step, b: World)
    requires UsesKnown(a) && Next(cfg, a, s, b)
    ensures UsesKnown(b)
  {
    match s
    case Attempt(v, latest, link) =>
      var p := Proposal(v, a.phases[v].seen, a.phases[v].offer.value);
      assert p in Outstanding(v, a.phases[v]);
      LandedUses(a, p, latest);
    case Surface(p, latest) =>
      LandedUses(a, p, latest);
    case StartRun(run, _, _, _, batch) =>
      ControlUses(a, b, run, batch);
    case ChangeStatus(run, _, _, _, batch) =>
      ControlUses(a, b, run, batch);
    case RetryRun(run, _, _, _, batch) =>
      ControlUses(a, b, run, batch);
    case CreateOther(aggregate, batch) =>
      ControlUses(a, b, aggregate, batch);
    case _ =>
  }

  lemma {:induction false} TraceUses(cfg: Config, worlds: seq<World>, steps: seq<Step>, k: nat)
    requires Trace(cfg, worlds, steps) && k < |worlds|
    ensures UsesKnown(worlds[k])
  {
    if k > 0 {
      TraceUses(cfg, worlds, steps, k - 1);
      assert Next(cfg, worlds[k - 1], steps[k - 1], worlds[k]);
      StepUses(cfg, worlds[k - 1], steps[k - 1], worlds[k]);
    }
  }

  lemma {:induction false} UnusedFrom(used: set<Uuid>) returns (n: Uuid)
    ensures forall id :: id in used ==> id < n
  {
    if used == {} {
      n := 0;
    } else {
      var id :| id in used;
      var m := UnusedFrom(used - {id});
      n := if m <= id then id + 1 else m;
      forall x | x in used ensures x < n {
        assert x == id || x in used - {id};
      }
    }
  }

  /** Events for some payloads, with identifiers nobody has used. */
  lemma {:induction false} FreshBatch(a: World, ps: seq<Payload>, run: Uuid) returns (batch: seq<Event>)
    ensures Payloads(batch) == ps && NewIds(a, batch) && Timed(batch, 0)
  {
    var n := UnusedFrom(a.used);
    batch := seq(|ps|, k requires 0 <= k < |ps| => Event(n + k, 0, NIL, run, 0, ps[k]));
  }

  /** A worker that builds a batch from its load may commit it, if its identifiers are new to the log. */
  lemma {:induction false} CommitNow(cfg: Config, b: World, v: Uuid, run: Uuid, work: seq<Job>, batch: seq<Event>)
      returns (c: World, d: World, latest: int)
    requires v in b.phases && Builds(cfg, b, b.phases[v], v, run, work, batch) && Ids(b.log) <= b.used
    ensures Next(cfg, b, Build(v, run, work, batch), c)
    ensures Next(cfg, c, Attempt(v, latest, EventStore.Healthy), d)
    ensures Lands(b.log, Proposal(v, b.phases[v].seen, Offer(run, work, batch)), latest)
    ensures d.log == Landed(b.log, Proposal(v, b.phases[v].seen, Offer(run, work, batch)), latest)
  {
    var phase := b.phases[v];
    var offered := Ticking(phase.seen, phase.done + {run}, Some(Offer(run, work, batch)));
    latest := Latest(b.log, run);
    c := b.(phases := b.phases[v := offered], used := b.used + Ids(batch));
    d := c.(log := Appended(c.log, run, Rebased(batch, latest)));
    AcceptsRebased(b.log, run, batch);
  }

  lemma {:induction false} OneMoreStep(cfg: Config, worlds: seq<World>, steps: seq<Step>, s: Step, w: World)
      returns (more: seq<World>, next: seq<Step>)
    requires Trace(cfg, worlds, steps) && Next(cfg, Last(worlds), s, w)
    ensures Trace(cfg, more, next) && more == worlds + [w] && next == steps + [s] && Last(more) == w
  {
    more, next := worlds + [w], steps + [s];
    forall k | 0 <= k < |next| ensures Next(cfg, more[k], next[k], more[k + 1]) {
      if k < |steps| {
        assert Next(cfg, worlds[k], steps[k], worlds[k + 1]);
      }
    }
  }

  lemma {:induction false} TwoMoreSteps(cfg: Config, worlds: seq<World>, steps: seq<Step>, s: Step, w: World, s': Step,
                                        w': World)
      returns (more: seq<World>, next: seq<Step>)
    requires Trace(cfg, worlds, steps) && Next(cfg, Last(worlds), s, w) && Next(cfg, w, s', w')
    ensures Trace(cfg, more, next) && worlds <= more && next == steps + [s, s'] && Last(more) == w'
  {
    more, next := OneMoreStep(cfg, worlds, steps, s, w);
    more, next := OneMoreStep(cfg, more, next, s', w');
  }

  /** A worker in a tick that shows it a job to take, on a run it has not come to yet. */
  ghost predicate MayTake(cfg: Config, phase: Phase, v: Uuid, run: Uuid, item: Uuid) {
    && phase.Ticking? && run !in phase.done && cfg.maxItems > 0
    && Workable(CoreOf(phase.seen, run)) && Eligible(CoreOf(phase.seen, run).items, v, v in cfg.affine, item)
  }

  /** The worker has completed the item once more; the other workers are where they were. */
  ghost predicate Took(a: World, b: World, v: Uuid, run: Uuid, item: Uuid) {
    && b.phases.Keys == a.phases.Keys && (forall u :: u in a.phases && u != v ==> b.phases[u] == a.phases[u])
    && Completions(Payloads(b.log), run, item) == Completions(Payloads(a.log), run, item) + 1
    && AgentOf(CoreOf(b.log, run).items, item) == Some(v)
    && a.log <= b.log && forall k :: |a.log| <= k < |b.log| ==> !b.log[k].payload.WorkItemAssigned?
  }

  /** Steps by which a worker does one more job of its tick. */
  ghost predicate JustWorks(steps: seq<Step>, steps': seq<Step>) {
    && steps <= steps'
    && forall k :: |steps| <= k < |steps'| ==> steps'[k].Settle? || steps'[k].Build? || steps'[k].Attempt?
  }

  /**
   * What a worker was shown as open it may complete, whatever has become of it since: a trace that comes to a
   * worker in such a tick goes on to one more completion of the item, by that worker.
   */
  lemma {:induction false} TakesWhatItSaw(cfg: Config, worlds: seq<World>, steps: seq<Step>, v: Uuid, run: Uuid,
                                          item: Uuid)
      returns (worlds': seq<World>, steps': seq<Step>)
    requires Trace(cfg, worlds, steps) && v in Last(worlds).phases && MayTake(cfg, Last(worlds).phases[v], v, run, item)
    ensures Trace(cfg, worlds', steps') && worlds <= worlds' && JustWorks(steps, steps')
    ensures Took(Last(worlds), Last(worlds'), v, run, item)
  {
    var ws, ss := SettleNow(cfg, worlds, steps, v);
    worlds', steps' := TakesNext(cfg, ws, ss, v, run, item);
    assert worlds <= ws <= worlds' && steps <= ss <= steps';
  }

  /** A worker without an outstanding batch. */
  lemma {:induction false} TakesNext(cfg: Config, worlds: seq<World>, steps: seq<Step>, v: Uuid, run: Uuid, item: Uuid)
      returns (worlds': seq<World>, steps': seq<Step>)
    requires Trace(cfg, worlds, steps) && UsesKnown(Last(worlds)) && v in cfg.workers && v in Last(worlds).phases
    requires MayTake(cfg, Last(worlds).phases[v], v, run, item) && Last(worlds).phases[v].offer.None?
    ensures Trace(cfg, worlds', steps') && worlds <= worlds' && JustWorks(steps, steps')
    ensures Took(Last(worlds), Last(worlds'), v, run, item)
  {
    var work, batch, c, latest, d := TakesOne(cfg, Last(worlds), v, run, item);
    worlds', steps' := TwoMoreSteps(cfg, worlds, steps, Build(v, run, work, batch), c,
                                    Attempt(v, latest, EventStore.Healthy), d);
  }

  lemma {:induction false} SettleNow(cfg: Config, worlds: seq<World>, steps: seq<Step>, v: Uuid)
      returns (worlds': seq<World>, steps': seq<Step>)
    requires Trace(cfg, worlds, steps) && v in Last(worlds).phases && Last(worlds).phases[v].Ticking?
    ensures Trace(cfg, worlds', steps') && worlds <= worlds' && steps' == steps + [Settle(v)]
    ensures UsesKnown(Last(worlds')) && v in cfg.workers && Last(worlds').log == Last(worlds).log
    ensures Last(worlds').phases == Last(worlds).phases[v := Last(worlds).phases[v].(offer := None)]
  {
    var a, phase := Last(worlds), Last(worlds).phases[v];
    var b := a.(phases := a.phases[v := phase.(offer := None)], adrift := a.adrift + Outstanding(v, phase));
    worlds', steps' := OneMoreStep(cfg, worlds, steps, Settle(v), b);
    TraceUses(cfg, worlds', steps', |steps'|);
    ProtocolSoundness.TraceIsSound(cfg, worlds, steps, |steps|);
  }

  lemma {:induction false} TakesOne(cfg: Config, b: World, v: Uuid, run: Uuid, item: Uuid)
      returns (work: seq<Job>, batch: seq<Event>, c: World, latest: int, d: World)
    requires UsesKnown(b) && v in cfg.workers && v in b.phases && b.phases[v].Ticking? && b.phases[v].offer.None?
    requires MayTake(cfg, b.phases[v], v, run, item)
    ensures Next(cfg, b, Build(v, run, work, batch), c) && Next(cfg, c, Attempt(v, latest, EventStore.Healthy), d)
    ensures Took(b, d, v, run, item)
  {
    var core, job := CoreOf(b.phases[v].seen, run), Job(item, Executed(true, 1, 0.0, None));
    OneJobIsLegal(core, v, v in cfg.affine, job);
    work := [job];
    ReachesPayload(core, v, run, work);
    batch := FreshBatch(b, BatchPayloads(core, v, run, work), run);
    assert |Payloads(batch)| == |batch|;
    c, d, latest := CommitNow(cfg, b, v, run, work, batch);
    var p := Proposal(v, b.phases[v].seen, Offer(run, work, batch));
    LandedCompletions(cfg, b.log, p, latest, run, item);
    TakenBy(cfg, b.log, p, latest, job);
    LandedAssignsNothing(cfg, b.log, p, latest);
  }

  lemma {:induction false} LandedAssignsNothing(cfg: Config, log: seq<Event>, p: Proposal, latest: int)
    requires Shaped(cfg, p)
    ensures log <= Landed(log, p, latest)
    ensures forall k :: |log| <= k < |Landed(log, p, latest)| ==> !Landed(log, p, latest)[k].payload.WorkItemAssigned?
  {
    var next := Landed(log, p, latest);
    JobsProper(p.worker, p.offer.run, p.offer.work);
    RebasedPayloads(p.offer.batch, latest, p.offer.run);
    forall k | |log| <= k < |next| ensures !next[k].payload.WorkItemAssigned? {
      assert next[k].payload == Payloads(p.offer.batch)[k - |log|];
    }
  }

  /** An item that a batch completes is its worker's. */
  lemma {:induction false} TakenBy(cfg: Config, log: seq<Event>, p: Proposal, latest: int, j: Job)
    requires Shaped(cfg, p) && Lands(log, p, latest) && p.offer.work == [j] && Succeeds(j.outcome)
    ensures AgentOf(CoreOf(Landed(log, p, latest), p.offer.run).items, j.item) == Some(p.worker)
  {
    var run := p.offer.run;
    LandedCore(cfg, log, p, latest, run);
    BatchReplay(CoreOf(p.seen, run), CoreOf(log, run), p.worker, run, [j]);
    assert Front([j]) == [];
    assert ReplayedAll(CoreOf(log, run), p.worker, []) == CoreOf(log, run);
  }

  /**
   * So a completed item that a load leads a worker to take may be done again: every trace that was safe for
   * the run, and ends where a worker is idle to whom such a load may come, goes on to a second completion.
   */
  lemma {:induction false} TemptationCompletesTwice(cfg: Config, worlds: seq<World>, steps: seq<Step>, v: Uuid,
                                                    seen: seq<Event>, run: Uuid, item: Uuid)
      returns (worlds': seq<World>, steps': seq<Step>)
    requires Exclusive(cfg) && Trace(cfg, worlds, steps) && Safe(cfg, worlds, steps, run)
    requires v in Last(worlds).phases && Last(worlds).phases[v].Idle? && EventStore.IsLoad(Last(worlds).log, seen)
    requires Redoable(cfg, Last(worlds).log, v, run, item)
    ensures Trace(cfg, worlds', steps') && worlds <= worlds' && steps + [Begin(v, seen)] <= steps'
    ensures Completions(Payloads(Last(worlds').log), run, item) == 2
  {
    var a := Last(worlds);
    var b := a.(phases := a.phases[v := Ticking(seen, {}, None)]);
    CompletedAtMostOnce(cfg, worlds, steps, run, item);
    TraceIsTidy(cfg, worlds, steps, |steps|);
    TemptsExactly(cfg, a.log, seen, v, run, item);
    worlds', steps' := OneMoreStep(cfg, worlds, steps, Begin(v, seen), b);
    worlds', steps' := TakesWhatItSaw(cfg, worlds', steps', v, run, item);
  }

  /**
   * Whatever a worker has still to do, it may do to a completed item too: one more step of its own, or a few,
   * and the item's status does not tell its completions any more.
   */
  lemma {:induction false} PendingIsRedone(cfg: Config, worlds: seq<World>, steps: seq<Step>, v: Uuid, run: Uuid,
                                           item: Uuid)
      returns (worlds': seq<World>, steps': seq<Step>)
    requires Trace(cfg, worlds, steps) && v in Last(worlds).phases && ItemOk(Last(worlds).log, run, item)
    requires StillToDo(cfg, Last(worlds).phases[v], Last(worlds).log, v, run, item)
    requires Finished(CoreOf(Last(worlds).log, run).items, item)
    ensures Trace(cfg, worlds', steps') && worlds <= worlds' && steps <= steps'
    ensures !ItemOk(Last(worlds').log, run, item)
  {
    var a := Last(worlds);
    if MayTake(cfg, a.phases[v], v, run, item) {
      worlds', steps' := TakesWhatItSaw(cfg, worlds, steps, v, run, item);
    } else {
      TraceUses(cfg, worlds, steps, |steps|);
      ProtocolSoundness.TraceIsSound(cfg, worlds, steps, |steps|);
      var latest, b := OfferedIsRedone(cfg, a, v, run, item);
      worlds', steps' := OneMoreStep(cfg, worlds, steps, Attempt(v, latest, EventStore.Healthy), b);
    }
  }

  lemma {:induction false} OfferedIsRedone(cfg: Config, a: World, v: Uuid, run: Uuid, item: Uuid)
      returns (latest: int, b: World)
    requires ProtocolSoundness.Sound(cfg, a) && UsesKnown(a) && v in a.phases && ItemOk(a.log, run, item)
    requires StillToDo(cfg, a.phases[v], a.log, v, run, item) && !MayTake(cfg, a.phases[v], v, run, item)
    requires Finished(CoreOf(a.log, run).items, item)
    ensures Next(cfg, a, Attempt(v, latest, EventStore.Healthy), b) && !ItemOk(b.log, run, item)
  {
    var p := Proposal(v, a.phases[v].seen, a.phases[v].offer.value);
    assert p in Outstanding(v, a.phases[v]);
    assert ProtocolSoundness.OfferShaped(cfg, v, a.phases[v]);
    latest := Latest(a.log, run);
    b := a.(log := Landed(a.log, p, latest));
    AcceptsRebased(a.log, run, p.offer.batch);
    LandedCompletions(cfg, a.log, p, latest, run, item);
    LandedOnFinished(cfg, a.log, p, latest, item);
  }

  lemma {:induction false} ReachesPayload(c: Core, v: Uuid, run: Uuid, work: seq<Job>)
    requires work != []
    ensures BatchPayloads(c, v, run, work) != []
  {
    assert JobPayloads(v, run, work)
      == JobPayloads(v, run, Front(work)) + ExecutionPayloads(v, run, Last(work).item, Last(work).outcome);
  }

  // ---- Retries ------------------------------------------------------------------------------------------

  /**
   * Of an accepted retry, all items of the run keep a status that matches their completions if and only if
   * no item it reassigns was completed after it was decided.
   */
  lemma {:induction false} RetryKeepsItemsExactly(cfg: Config, a: World, s: Step, b: World)
    requires s.RetryRun? && RunInv(cfg, a, s.run) && Next(cfg, a, s, b) && Accepts(a.log, s.run, s.batch)
    ensures (forall i :: ItemOk(b.log, s.run, i)) <==> SafeRetry(a, s, s.run)
  {
    if SafeRetry(a, s, s.run) {
      RetryCalm(a, s, s.run);
      forall i ensures ItemOk(b.log, s.run, i) {
        assert ItemOk(a.log, s.run, i);
        CalmItem(a.log, s.run, s.batch, s.run, i);
      }
    } else {
      var decided := O.FromStream(Stream(s.decided, s.run)).items;
      var i :| Unfinished(decided, i) && Finished(CoreOf(a.log, s.run).items, i);
      assert ItemOk(a.log, s.run, i);
      UnsafeRetryReopens(a.log, s.run, decided, s.order, s.newAgent, s.batch, i);
      assert !ItemOk(b.log, s.run, i);
    }
  }

  /** An accepted retry puts an item it reassigns back to "assigned", and leaves its completions in the log. */
  lemma {:induction false} UnsafeRetryReopens(log: seq<Event>, run: Uuid, decided: Items, order: seq<Uuid>,
                                              newAgent: Uuid -> Uuid, batch: seq<Event>, i: Uuid)
    requires Enumerates(order, decided) && Unfinished(decided, i)
    requires Payloads(batch) == RetryPayloads(run, decided, order, newAgent) && Accepts(log, run, batch)
    ensures !Finished(CoreOf(Appended(log, run, batch), run).items, i)
    ensures Completions(Payloads(Appended(log, run, batch)), run, i) >= Completions(Payloads(log), run, i)
  {
    var c := CoreOf(log, run);
    RetryOnWorker(c, run, decided, order, newAgent);
    ReassignedItem(c.items, decided, order, newAgent, i);
    RetryProper(run, decided, order, newAgent);
    AppendedCore(log, run, batch, run);
    AppendedCompletions(log, run, batch, run, i);
  }

  // ---- Late commits -------------------------------------------------------------------------------------

  /**
   * Of a batch that takes effect after it was given up, all items of its run keep a status that matches
   * their completions if and only if none of those it touches was completed by then.
   */
  lemma {:induction false} SurfaceKeepsItemsExactly(cfg: Config, a: World, p: Proposal, latest: int, b: World)
    requires RunInv(cfg, a, p.offer.run) && Next(cfg, a, Surface(p, latest), b) && Lands(a.log, p, latest)
    ensures (forall i :: ItemOk(b.log, p.offer.run, i))
       <==> forall i :: Touches(p.offer.work, i) ==> !Finished(CoreOf(a.log, p.offer.run).items, i)
  {
    var run := p.offer.run;
    if forall i :: Touches(p.offer.work, i) ==> !Finished(CoreOf(a.log, run).items, i) {
      forall i ensures ItemOk(b.log, run, i) {
        assert ItemOk(a.log, run, i);
        LandedItemOk(cfg, a.log, p, latest, run, i);
      }
    } else {
      var i :| Touches(p.offer.work, i) && Finished(CoreOf(a.log, run).items, i);
      assert ItemOk(a.log, run, i);
      LandedCompletions(cfg, a.log, p, latest, run, i);
      LandedOnFinished(cfg, a.log, p, latest, i);
      assert !ItemOk(b.log, run, i);
    }
  }

  /**
   * A late commit is safe if and only if it leaves every item's status in step with its completions, and its
   * worker nothing to do to a completed item.
   */
  lemma {:induction false} SurfaceIsSafeExactly(cfg: Config, a: World, p: Proposal, latest: int, b: World)
    requires RunInv(cfg, a, p.offer.run) && Next(cfg, a, Surface(p, latest), b) && Lands(a.log, p, latest)
    ensures SafeSurface(cfg, a, Surface(p, latest), p.offer.run)
       <==> && (forall i :: ItemOk(b.log, p.offer.run, i))
            && forall i :: StillToDo(cfg, b.phases[p.worker], b.log, p.worker, p.offer.run, i) ==>
                 !Finished(CoreOf(b.log, p.offer.run).items, i)
  {
    var run, v := p.offer.run, p.worker;
    SurfaceKeepsItemsExactly(cfg, a, p, latest, b);
    LandedIds(cfg, a.log, p, latest);
    if forall i :: Touches(p.offer.work, i) ==> !Finished(CoreOf(a.log, run).items, i) {
      forall i
        ensures Finished(CoreOf(b.log, run).items, i) <==>
                Finished(CoreOf(a.log, run).items, i) || Completes(p.offer.work, i)
        ensures StillToDo(cfg, b.phases[v], b.log, v, run, i) ==> !Finished(CoreOf(a.log, run).items, i)
      {
        LandedFinished(cfg, a.log, p, latest, run, i);
        if StillToDo(cfg, b.phases[v], b.log, v, run, i) {
          assert StillToDo(cfg, a.phases[v], a.log, v, run, i);
        }
      }
    }
  }

  lemma {:induction false} LandedOnFinished(cfg: Config, log: seq<Event>, p: Proposal, latest: int, i: Uuid)
    requires Shaped(cfg, p) && Lands(log, p, latest) && Touches(p.offer.work, i)
    ensures Finished(CoreOf(Landed(log, p, latest), p.offer.run).items, i) <==> Completes(p.offer.work, i)
  {
    var run := p.offer.run;
    var seen, c := CoreOf(p.seen, run), CoreOf(log, run);
    LandedCore(cfg, log, p, latest, run);
    BatchReplay(seen, c, p.worker, run, p.offer.work);
    LegalJobs(seen, p.worker, p.worker in cfg.affine, p.offer.work, i);
    ReplayedItem(c, p.worker, p.offer.work, i);
  }
}
