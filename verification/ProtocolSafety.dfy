/**
 * Safety of the protocol, run by run: items complete at most once, and completion is final, as long as
 * the retries, loads and late commits of that run are safe; those of other runs do not matter.
 */
module ProtocolSafety {
  import opened Events
  import opened Log
  import opened WorkerReplay
  import opened LoadOrder
  import opened Tick
  import opened TickReplay
  import opened RetryAppend
  import opened Orchestrator
  import opened ControlEffects
  import opened Protocol
  import opened Commits
  import opened ProtocolSoundness
  import opened ReachableLogs
  import Agreement
  import EventStore
  import Planner
  import opened Custody
  import O = OrchestratorReplay

  ghost predicate FinishedStay(was: Items, now: Items) {
    forall i :: Finished(was, i) ==> Finished(now, i)
  }

  /** The status of an item tells exactly whether its completion is in the log, and it is there at most once. */
  ghost predicate ItemOk(log: seq<Event>, run: Uuid, item: Uuid) {
    Completions(Payloads(log), run, item) == if Finished(CoreOf(log, run).items, item) then 1 else 0
  }

  /** A run that was closed had all its items done then, and has them done now. */
  ghost predicate ClosedOk(log: seq<Event>, run: Uuid, k: nat)
    requires k < |log|
  {
    Closes(log[k].payload, run) ==> AllDone(CoreOf(log[..k + 1], run).items) && AllDone(CoreOf(log, run).items)
  }

  predicate Closes(p: Payload, run: Uuid) {
    p.RunCompleted? && p.runId == run
  }

  ghost predicate RunLog(log: seq<Event>, run: Uuid) {
    (forall i :: ItemOk(log, run, i)) && forall k :: 0 <= k < |log| ==> ClosedOk(log, run, k)
  }

  /** A load shows the run's items, and no completion that is not in the log. */
  ghost predicate SeenOk(seen: seq<Event>, log: seq<Event>, run: Uuid) {
    var was, now := CoreOf(seen, run).items, CoreOf(log, run).items;
    Kin(false, was, now) && FinishedStay(was, now)
  }

  ghost predicate WorkerOk(cfg: Config, v: Uuid, phase: Phase, log: seq<Event>, run: Uuid) {
    phase.Ticking? ==>
      && SeenOk(phase.seen, log, run)
      && forall i :: StillToDo(cfg, phase, log, v, run, i) ==> !Finished(CoreOf(log, run).items, i)
  }

  ghost predicate RunInv(cfg: Config, w: World, run: Uuid) {
    && InCustody(cfg, w) && RunLog(w.log, run)
    && (forall v :: v in cfg.workers ==> WorkerOk(cfg, v, w.phases[v], w.log, run))
    && forall p :: p in w.adrift ==> SeenOk(p.seen, w.log, run)
  }

  /** The retries, loads and late commits of the run are safe in this step. */
  ghost predicate SafeStep(cfg: Config, a: World, s: Step, run: Uuid) {
    SafeRetry(a, s, run) && SafeLoad(cfg, a, s, run) && SafeSurface(cfg, a, s, run)
  }

  ghost predicate Safe(cfg: Config, worlds: seq<World>, steps: seq<Step>, run: Uuid)
    requires |worlds| == |steps| + 1
  {
    SafeRetries(worlds, steps, run) && SafeLoads(cfg, worlds, steps, run) && SafeSurfaces(cfg, worlds, steps, run)
  }

  // ---- The log ------------------------------------------------------------------------------------------

  /** An append that completes and closes nothing of the run, and leaves its finished items as they are. */
  ghost predicate Calm(log: seq<Event>, home: Uuid, batch: seq<Event>, run: Uuid) {
    && Proper(Payloads(batch), home)
    && (Accepts(log, home, batch) && home == run ==>
          && (forall k :: 0 <= k < |batch| ==>
                !Payloads(batch)[k].WorkItemCompleted? && !Payloads(batch)[k].RunCompleted?)
          && forall i :: Finished(ApplyAll(CoreOf(log, run), Payloads(batch)).items, i) <==>
               Finished(CoreOf(log, run).items, i))
  }

  lemma {:induction false} CalmItem(log: seq<Event>, home: Uuid, batch: seq<Event>, run: Uuid, i: Uuid)
    requires Calm(log, home, batch, run) && ItemOk(log, run, i)
    ensures ItemOk(Appended(log, home, batch), run, i)
    ensures Finished(CoreOf(Appended(log, home, batch), run).items, i) <==> Finished(CoreOf(log, run).items, i)
  {
    AppendedCore(log, home, batch, run);
    AppendedCompletions(log, home, batch, run, i);
    if Accepts(log, home, batch) {
      forall k | 0 <= k < |batch| ensures !Completion(Payloads(batch)[k], run, i) {
        assert About(Payloads(batch)[k], home);
      }
      NoCompletions(Payloads(batch), run, i);
    }
  }

  lemma {:induction false} AllDoneStays(was: Items, now: Items)
    requires AllDone(was) && Kin(false, was, now) && FinishedStay(was, now)
    ensures AllDone(now)
  {
    var some :| some in was;
    assert some in now.Keys;
    forall i | i in now ensures now[i].status == Done {
      assert i in was.Keys;
      assert Finished(was, i);
    }
  }

  /** Appending never reopens a run that was closed. */
  lemma {:induction false} ClosedStays(log: seq<Event>, next: seq<Event>, run: Uuid, k: nat)
    requires k < |log| && log <= next && ClosedOk(log, run, k)
    requires var was, now := CoreOf(log, run).items, CoreOf(next, run).items;
             Kin(false, was, now) && FinishedStay(was, now)
    ensures ClosedOk(next, run, k)
  {
    assert next[..k + 1] == log[..k + 1];
    if Closes(log[k].payload, run) {
      AllDoneStays(CoreOf(log, run).items, CoreOf(next, run).items);
    }
  }

  lemma {:induction false} CalmLog(log: seq<Event>, home: Uuid, batch: seq<Event>, run: Uuid)
    requires Calm(log, home, batch, run) && RunLog(log, run)
    requires Kin(false, CoreOf(log, run).items, CoreOf(Appended(log, home, batch), run).items)
    ensures RunLog(Appended(log, home, batch), run)
    ensures forall i ::
              Finished(CoreOf(Appended(log, home, batch), run).items, i) <==> Finished(CoreOf(log, run).items, i)
  {
    var next := Appended(log, home, batch);
    forall i
      ensures ItemOk(next, run, i)
      ensures Finished(CoreOf(next, run).items, i) <==> Finished(CoreOf(log, run).items, i)
    {
      assert ItemOk(log, run, i);
      CalmItem(log, home, batch, run, i);
    }
    AppendedIds(log, home, batch);
    forall k | 0 <= k < |next| ensures ClosedOk(next, run, k) {
      if k < |log| {
        ClosedStays(log, next, run, k);
      } else {
        assert next[k].payload == Payloads(batch)[k - |log|] && About(Payloads(batch)[k - |log|], home);
      }
    }
  }

  // ---- A worker's batch on its run ------------------------------------------------------------------------

  /** A proposal for the run whose items are all unfinished. */
  ghost predicate Welcome(cfg: Config, log: seq<Event>, p: Proposal, run: Uuid) {
    && Shaped(cfg, p) && p.offer.run == run && SeenOk(p.seen, log, run)
    && forall i :: Touches(p.offer.work, i) ==> !Finished(CoreOf(log, run).items, i)
  }

  lemma {:induction false} LandedFinished(cfg: Config, log: seq<Event>, p: Proposal, latest: int, run: Uuid, i: Uuid)
    requires Welcome(cfg, log, p, run) && Lands(log, p, latest)
    ensures Finished(CoreOf(Landed(log, p, latest), run).items, i)
            <==> Finished(CoreOf(log, run).items, i) || Completes(p.offer.work, i)
  {
    var seen, c := CoreOf(p.seen, run), CoreOf(log, run);
    LandedCore(cfg, log, p, latest, run);
    BatchReplay(seen, c, p.worker, run, p.offer.work);
    LegalJobs(seen, p.worker, p.worker in cfg.affine, p.offer.work, i);
    ReplayedItem(c, p.worker, p.offer.work, i);
    CompletesTouches(p.offer.work, i);
  }

  lemma {:induction false} LandedCompletions(cfg: Config, log: seq<Event>, p: Proposal, latest: int, r: Uuid, i: Uuid)
    requires Shaped(cfg, p) && Lands(log, p, latest)
    ensures Completions(Payloads(Landed(log, p, latest)), r, i)
         == Completions(Payloads(log), r, i) + if r == p.offer.run && Completes(p.offer.work, i) then 1 else 0
  {
    var seen, o := CoreOf(p.seen, p.offer.run), p.offer;
    AppendedCompletions(log, o.run, Rebased(o.batch, latest), r, i);
    RebasedPayloads(o.batch, latest, o.run);
    LegalJobs(seen, p.worker, p.worker in cfg.affine, o.work, i);
    BatchCompletions(seen, p.worker, o.run, o.work, r, i);
  }

  lemma {:induction false} LandedItemOk(cfg: Config, log: seq<Event>, p: Proposal, latest: int, run: Uuid, i: Uuid)
    requires Welcome(cfg, log, p, run) && Lands(log, p, latest) && ItemOk(log, run, i)
    ensures ItemOk(Landed(log, p, latest), run, i)
  {
    LandedCompletions(cfg, log, p, latest, run, i);
    LandedFinished(cfg, log, p, latest, run, i);
    CompletesTouches(p.offer.work, i);
  }

  /** If memory said every item was done, then after the batch every item is done in the log too. */
  lemma {:induction false} ClosingIsTrue(cfg: Config, log: seq<Event>, p: Proposal, latest: int, run: Uuid)
    requires Welcome(cfg, log, p, run) && Lands(log, p, latest)
    requires Kin(false, CoreOf(log, run).items, CoreOf(Landed(log, p, latest), run).items)
    requires AllDone(NoteAll(CoreOf(p.seen, run), p.offer.work).items)
    ensures AllDone(CoreOf(Landed(log, p, latest), run).items)
  {
    var seen, next := CoreOf(p.seen, run), CoreOf(Landed(log, p, latest), run);
    var memory := NoteAll(seen, p.offer.work).items;
    NoteAllKeys(seen, p.offer.work);
    var some :| some in memory;
    assert some in seen.items.Keys;
    assert some in CoreOf(log, run).items.Keys;
    assert some in next.items.Keys;
    forall i | i in next.items ensures next.items[i].status == Done {
      assert i in CoreOf(log, run).items.Keys;
      assert i in seen.items.Keys;
      LegalJobs(seen, p.worker, p.worker in cfg.affine, p.offer.work, i);
      Remembered(seen, p.offer.work, i);
      assert memory[i].status == Done;
      assert Completes(p.offer.work, i) || Finished(seen.items, i);
      LandedFinished(cfg, log, p, latest, run, i);
      assert Finished(next.items, i);
    }
  }

  lemma {:induction false} LandedClosed(cfg: Config, log: seq<Event>, p: Proposal, latest: int, run: Uuid, k: nat)
    requires Welcome(cfg, log, p, run) && Lands(log, p, latest)
    requires Kin(false, CoreOf(log, run).items, CoreOf(Landed(log, p, latest), run).items)
    requires |log| <= k < |Landed(log, p, latest)|
    ensures ClosedOk(Landed(log, p, latest), run, k)
  {
    var next, o := Landed(log, p, latest), p.offer;
    if Closes(next[k].payload, run) {
      assert next[k].payload == Payloads(o.batch)[k - |log|];
      JobsProper(p.worker, run, o.work);
      assert k == |next| - 1 && AllDone(NoteAll(CoreOf(p.seen, run), o.work).items);
      ClosingIsTrue(cfg, log, p, latest, run);
      assert next[..k + 1] == next;
    }
  }

  lemma {:induction false} LandedLog(cfg: Config, log: seq<Event>, p: Proposal, latest: int, run: Uuid)
    requires Welcome(cfg, log, p, run) && Lands(log, p, latest) && RunLog(log, run)
    requires Kin(false, CoreOf(log, run).items, CoreOf(Landed(log, p, latest), run).items)
    ensures RunLog(Landed(log, p, latest), run)
    ensures FinishedStay(CoreOf(log, run).items, CoreOf(Landed(log, p, latest), run).items)
  {
    var next := Landed(log, p, latest);
    forall i
      ensures ItemOk(next, run, i)
      ensures Finished(CoreOf(log, run).items, i) ==> Finished(CoreOf(next, run).items, i)
    {
      assert ItemOk(log, run, i);
      LandedItemOk(cfg, log, p, latest, run, i);
      LandedFinished(cfg, log, p, latest, run, i);
    }
    LandedIds(cfg, log, p, latest);
    forall k | 0 <= k < |next| ensures ClosedOk(next, run, k) {
      if k < |log| {
        ClosedStays(log, next, run, k);
      } else {
        LandedClosed(cfg, log, p, latest, run, k);
      }
    }
  }

  // ---- The workers ------------------------------------------------------------------------------------------

  /** What a worker may still do is to items it has, and with affinity everywhere nobody else has them. */
  lemma {:induction false} PendingIsMine(cfg: Config, v: Uuid, phase: Phase, log: seq<Event>, run: Uuid, i: Uuid)
    requires LogKept(cfg, log) && OfferShaped(cfg, v, phase) && v in cfg.workers
    requires phase.Ticking? && ReadFrom(log, phase.seen) && StillToDo(cfg, phase, log, v, run, i)
    ensures Strict(cfg) ==> AgentOf(CoreOf(log, run).items, i) == Some(v)
  {
    if Strict(cfg) {
      if phase.offer.Some? && phase.offer.value.run == run && Touches(phase.offer.value.work, i) {
        TouchedIsHeld(cfg, log, Proposal(v, phase.seen, phase.offer.value), i);
      } else {
        ReadAgent(log, phase.seen, run, i);
      }
    }
  }

  /** The items that an append newly finished, none of which the worker has still to do. */
  ghost predicate Spares(cfg: Config, v: Uuid, phase: Phase, log: seq<Event>, next: seq<Event>, run: Uuid) {
    forall i :: Finished(CoreOf(next, run).items, i) && !Finished(CoreOf(log, run).items, i) ==>
      !StillToDo(cfg, phase, next, v, run, i)
  }

  lemma {:induction false} SeenStays(seen: seq<Event>, log: seq<Event>, next: seq<Event>, run: Uuid)
    requires SeenOk(seen, log, run) && SeenOk(log, next, run)
    ensures SeenOk(seen, next, run)
  {
    KinTrans(false, CoreOf(seen, run).items, CoreOf(log, run).items, CoreOf(next, run).items);
  }

  lemma {:induction false} WorkerStays(cfg: Config, v: Uuid, phase: Phase, log: seq<Event>, next: seq<Event>, run: Uuid)
    requires WorkerOk(cfg, v, phase, log, run) && SeenOk(log, next, run) && Ids(log) <= Ids(next)
    requires phase.Ticking? ==> Spares(cfg, v, phase, log, next, run)
    ensures WorkerOk(cfg, v, phase, next, run)
  {
    if phase.Ticking? {
      SeenStays(phase.seen, log, next, run);
      forall i | StillToDo(cfg, phase, next, v, run, i) ensures !Finished(CoreOf(next, run).items, i) {
        assert StillToDo(cfg, phase, log, v, run, i);
      }
    }
  }

  /** The batch of one worker spares every other worker. */
  lemma {:induction false} LandSpares(cfg: Config, a: World, p: Proposal, latest: int, run: Uuid, u: Uuid)
    requires Exclusive(cfg) && InCustody(cfg, a) && u in cfg.workers && u != p.worker && a.phases[u].Ticking?
    requires Welcome(cfg, a.log, p, run) && Lands(a.log, p, latest) && ReadFrom(a.log, p.seen)
    ensures Spares(cfg, u, a.phases[u], a.log, Landed(a.log, p, latest), run)
  {
    var next := Landed(a.log, p, latest);
    LandedIds(cfg, a.log, p, latest);
    forall i | Finished(CoreOf(next, run).items, i) && !Finished(CoreOf(a.log, run).items, i)
      ensures !StillToDo(cfg, a.phases[u], next, u, run, i)
    {
      LandedFinished(cfg, a.log, p, latest, run, i);
      CompletesTouches(p.offer.work, i);
      TouchedIsHeld(cfg, a.log, p, i);
      if StillToDo(cfg, a.phases[u], next, u, run, i) {
        assert StillToDo(cfg, a.phases[u], a.log, u, run, i);
        PendingIsMine(cfg, u, a.phases[u], a.log, run, i);
      }
    }
  }

  // ---- The invariant is inductive -----------------------------------------------------------------------

  /** A step that appends, and leaves the workers as they are. */
  lemma {:induction false} AppendKeeps(cfg: Config, a: World, b: World, run: Uuid)
    requires RunInv(cfg, a, run) && InCustody(cfg, b) && RunLog(b.log, run)
    requires b.phases == a.phases && b.adrift == a.adrift && Ids(a.log) <= Ids(b.log) && SeenOk(a.log, b.log, run)
    requires forall v :: v in cfg.workers && a.phases[v].Ticking? ==> Spares(cfg, v, a.phases[v], a.log, b.log, run)
    ensures RunInv(cfg, b, run)
  {
    forall v | v in cfg.workers ensures WorkerOk(cfg, v, b.phases[v], b.log, run) {
      WorkerStays(cfg, v, a.phases[v], a.log, b.log, run);
    }
    forall p | p in b.adrift ensures SeenOk(p.seen, b.log, run) {
      SeenStays(p.seen, a.log, b.log, run);
    }
  }

  lemma {:induction false} ControlKeeps(cfg: Config, a: World, b: World, home: Uuid, batch: seq<Event>, run: Uuid)
    requires RunInv(cfg, a, run) && InCustody(cfg, b) && Controls(a, b, home, batch)
    requires Kin(Strict(cfg), CoreOf(a.log, run).items, CoreOf(b.log, run).items)
    requires Calm(a.log, home, batch, run)
    ensures RunInv(cfg, b, run) && SeenOk(a.log, b.log, run)
  {
    CalmLog(a.log, home, batch, run);
    AppendedIds(a.log, home, batch);
    AppendKeeps(cfg, a, b, run);
  }

  /** A batch about another run. */
  lemma {:induction false} LandElsewhere(cfg: Config, a: World, b: World, p: Proposal, latest: int, run: Uuid)
    requires RunInv(cfg, a, run) && InCustody(cfg, b) && Shaped(cfg, p) && p.offer.run != run
    requires b == a.(log := Landed(a.log, p, latest))
    requires Kin(Strict(cfg), CoreOf(a.log, run).items, CoreOf(b.log, run).items)
    ensures RunInv(cfg, b, run) && SeenOk(a.log, b.log, run)
  {
    LandedCore(cfg, a.log, p, latest, run);
    CalmLog(a.log, p.offer.run, Rebased(p.offer.batch, latest), run);
    LandedIds(cfg, a.log, p, latest);
    AppendKeeps(cfg, a, b, run);
  }

  /** A batch about the run, none of whose items is finished, or still to be done again by its own worker. */
  lemma {:induction false} LandKeeps(cfg: Config, a: World, b: World, p: Proposal, latest: int, run: Uuid)
    requires Exclusive(cfg) && RunInv(cfg, a, run) && InCustody(cfg, b) && b == a.(log := Landed(a.log, p, latest))
    requires Welcome(cfg, a.log, p, run) && Lands(a.log, p, latest) && ReadFrom(a.log, p.seen)
    requires Kin(Strict(cfg), CoreOf(a.log, run).items, CoreOf(b.log, run).items)
    requires a.phases[p.worker].Ticking? ==> Spares(cfg, p.worker, a.phases[p.worker], a.log, b.log, run)
    ensures RunInv(cfg, b, run) && SeenOk(a.log, b.log, run)
  {
    LandedLog(cfg, a.log, p, latest, run);
    LandedIds(cfg, a.log, p, latest);
    forall u | u in cfg.workers && a.phases[u].Ticking? ensures Spares(cfg, u, a.phases[u], a.log, b.log, run) {
      if u != p.worker {
        LandSpares(cfg, a, p, latest, run, u);
      }
    }
    AppendKeeps(cfg, a, b, run);
  }

  lemma {:induction false} AttemptKeeps(cfg: Config, a: World, s: Step, b: World, run: Uuid)
    requires Exclusive(cfg) && RunInv(cfg, a, run) && InCustody(cfg, b) && Next(cfg, a, s, b) && s.Attempt?
    requires Kin(Strict(cfg), CoreOf(a.log, run).items, CoreOf(b.log, run).items)
    ensures RunInv(cfg, b, run) && SeenOk(a.log, b.log, run)
  {
    var phase := a.phases[s.worker];
    var p := Proposal(s.worker, phase.seen, phase.offer.value);
    if s.link.Down? || !Lands(a.log, p, s.latest) {
    } else if p.offer.run != run {
      LandElsewhere(cfg, a, b, p, s.latest, run);
    } else {
      LandedIds(cfg, a.log, p, s.latest);
      forall i | Touches(p.offer.work, i) ensures !Finished(CoreOf(a.log, run).items, i) {
        assert StillToDo(cfg, phase, a.log, s.worker, run, i);
      }
      LandKeeps(cfg, a, b, p, s.latest, run);
    }
  }

  lemma {:induction false} SurfaceKeeps(cfg: Config, a: World, s: Step, b: World, run: Uuid)
    requires Exclusive(cfg) && RunInv(cfg, a, run) && InCustody(cfg, b) && Next(cfg, a, s, b) && s.Surface?
    requires SafeSurface(cfg, a, s, run)
    requires Kin(Strict(cfg), CoreOf(a.log, run).items, CoreOf(b.log, run).items)
    ensures RunInv(cfg, b, run) && SeenOk(a.log, b.log, run)
  {
    var p := s.lost;
    if !Lands(a.log, p, s.latest) {
    } else if p.offer.run != run {
      LandElsewhere(cfg, a, b, p, s.latest, run);
    } else {
      LandedIds(cfg, a.log, p, s.latest);
      forall i | Finished(CoreOf(b.log, run).items, i) && !Finished(CoreOf(a.log, run).items, i)
        ensures !StillToDo(cfg, a.phases[p.worker], b.log, p.worker, run, i)
      {
        LandedFinished(cfg, a.log, p, s.latest, run, i);
        CompletesTouches(p.offer.work, i);
      }
      LandKeeps(cfg, a, b, p, s.latest, run);
    }
  }

  lemma {:induction false} RetryCalm(a: World, s: Step, run: Uuid)
    requires s.RetryRun? && SafeRetry(a, s, run) && Enumerates(s.order, O.FromStream(Stream(s.decided, s.run)).items)
    requires Payloads(s.batch)
            == RetryPayloads(s.run, O.FromStream(Stream(s.decided, s.run)).items, s.order, s.newAgent)
    ensures Calm(a.log, s.run, s.batch, run)
  {
    var decided, c := O.FromStream(Stream(s.decided, s.run)).items, CoreOf(a.log, s.run);
    RetryProper(s.run, decided, s.order, s.newAgent);
    if Accepts(a.log, s.run, s.batch) && s.run == run {
      RetryOnWorker(c, s.run, decided, s.order, s.newAgent);
      forall i ensures Finished(Reassigned(c.items, decided, s.order, s.newAgent), i) <==> Finished(c.items, i) {
        ReassignedItem(c.items, decided, s.order, s.newAgent, i);
      }
    }
  }

  lemma {:induction false} StartCalm(log: seq<Event>, home: Uuid, workspace: Uuid, objective: string,
                                     dealt: seq<Planner.WorkItem>, batch: seq<Event>, run: Uuid)
    requires Kept(log) && Stream(log, home) == [] && forall k :: 0 <= k < |dealt| ==> dealt[k].agent.Some?
    requires Payloads(batch) == StartPayloads(home, workspace, objective, dealt)
    ensures Calm(log, home, batch, run)
  {
    StartProper(home, workspace, objective, dealt);
    EmptyStreamIsBlank(log, home);
    StartOnWorker(home, workspace, objective, dealt);
    forall i ensures !Finished(StartedItems(dealt), i) {
      StartedItem(dealt, i);
    }
  }

  lemma {:induction false} StatusCalm(log: seq<Event>, home: Uuid, status: RunStatus, reason: string, batch: seq<Event>,
                                      run: Uuid)
    requires Payloads(batch) == [RunStatusChanged(home, status, reason)]
    ensures Calm(log, home, batch, run)
  {
    StatusEffect(CoreOf(log, home), home, status, reason);
  }

  lemma {:induction false} CreationCalm(log: seq<Event>, home: Uuid, batch: seq<Event>, run: Uuid)
    requires forall k :: 0 <= k < |batch| ==> IsCreation(batch[k].payload)
    ensures Calm(log, home, batch, run)
  {
    forall k | 0 <= k < |batch| ensures IsCreation(Payloads(batch)[k]) {}
    NoEffect(CoreOf(log, home), Payloads(batch));
  }

  lemma {:induction false} ControlCalm(cfg: Config, a: World, s: Step, b: World, run: Uuid)
    requires InCustody(cfg, a) && Next(cfg, a, s, b) && SafeRetry(a, s, run)
    requires s.StartRun? || s.ChangeStatus? || s.RetryRun? || s.CreateOther?
    ensures Calm(a.log, if s.CreateOther? then s.aggregate else s.run, s.batch, run)
  {
    match s
    case StartRun(home, workspace, objective, dealt, batch) =>
      StartCalm(a.log, home, workspace, objective, dealt, batch, run);
    case ChangeStatus(home, decided, status, reason, batch) =>
      StatusCalm(a.log, home, status, reason, batch, run);
    case RetryRun(home, decided, order, newAgent, batch) =>
      RetryCalm(a, s, run);
    case CreateOther(aggregate, batch) =>
      CreationCalm(a.log, aggregate, batch, run);
  }

  /** Building a batch leaves the worker with what it had to do. */
  lemma {:induction false} BuildKeeps(cfg: Config, a: World, s: Step, b: World, run: Uuid)
    requires RunInv(cfg, a, run) && InCustody(cfg, b) && Next(cfg, a, s, b) && s.Build?
    ensures RunInv(cfg, b, run)
  {
    var v, phase := s.worker, a.phases[s.worker];
    forall i | StillToDo(cfg, b.phases[v], b.log, v, run, i) ensures !Finished(CoreOf(b.log, run).items, i) {
      if s.run == run && Touches(s.work, i) {
        LegalJobs(CoreOf(phase.seen, run), v, v in cfg.affine, s.work, i);
      }
      assert StillToDo(cfg, phase, a.log, v, run, i);
    }
  }

  lemma {:induction false} QuietKeeps(cfg: Config, a: World, s: Step, b: World, run: Uuid)
    requires RunInv(cfg, a, run) && InCustody(cfg, b) && Next(cfg, a, s, b) && (s.Settle? || s.EndTick? || s.Read?)
    ensures RunInv(cfg, b, run)
  {
    if s.Settle? {
      forall i | StillToDo(cfg, b.phases[s.worker], b.log, s.worker, run, i)
        ensures StillToDo(cfg, a.phases[s.worker], a.log, s.worker, run, i) {}
    }
  }

  // ---- Loads --------------------------------------------------------------------------------------------

  lemma {:induction false} SomeCompletion(ps: seq<Payload>, run: Uuid, item: Uuid, k: nat)
    requires k < |ps| && Completion(ps[k], run, item)
    ensures Completions(ps, run, item) >= 1
  {
    if k < |ps| - 1 {
      SomeCompletion(Front(ps), run, item, k);
    }
  }

  /** A load shows the same items, and no completion that is not in the log. */
  lemma {:induction false} LoadIsSeen(log: seq<Event>, seen: seq<Event>, run: Uuid)
    requires Kept(log) && EventStore.IsLoad(log, seen) && forall i :: ItemOk(log, run, i)
    ensures SeenOk(seen, log, run)
  {
    LoadKeepsKeys(log, seen, run);
    forall i | Finished(CoreOf(seen, run).items, i) ensures Finished(CoreOf(log, run).items, i) {
      LoadShowsFinished(log, seen, run, i);
      var e :| IsLatest(log, ItemTopic(run, i), e) && e.payload.WorkItemCompleted?;
      var k :| 0 <= k < |log| && log[k] == e;
      SomeCompletion(Payloads(log), run, i, k);
      assert ItemOk(log, run, i);
    }
  }

  /** What a load leads a worker to do again is exactly what the log says it may redo. */
  lemma {:induction false} TemptsExactly(cfg: Config, log: seq<Event>, seen: seq<Event>, v: Uuid, run: Uuid, i: Uuid)
    requires Kept(log) && Agreement.NeverRestarts(log, run) && EventStore.IsLoad(log, seen)
    requires Finished(CoreOf(log, run).items, i)
    ensures cfg.maxItems > 0 && Workable(CoreOf(seen, run)) && Eligible(CoreOf(seen, run).items, v, v in cfg.affine, i)
       <==> Redoable(cfg, log, v, run, i)
  {
    var c, t := CoreOf(seen, run), ItemTopic(run, i);
    LoadedHoused(log, seen);
    LoadShowsRunning(log, seen, run);
    LoadKeepsWorkspace(log, seen, run);
    LastWordOnItem(seen, run, i);
    LastAssignment(seen, run, i);
    if LastOn(seen, t).Some? {
      LoadShowsLatest(log, seen, t, LastOn(seen, t).value);
    }
    if e :| IsLatest(log, t, e) && AssignsTo(cfg, e.payload, v) {
      LoadShowsLatest(log, seen, t, e);
    }
  }

  lemma {:induction false} BeginKeeps(cfg: Config, a: World, s: Step, b: World, run: Uuid)
    requires RunInv(cfg, a, run) && InCustody(cfg, b) && Next(cfg, a, s, b) && s.Begin? && SafeLoad(cfg, a, s, run)
    ensures RunInv(cfg, b, run)
  {
    LoadIsSeen(a.log, s.seen, run);
    forall i | StillToDo(cfg, b.phases[s.worker], b.log, s.worker, run, i)
      ensures !Finished(CoreOf(b.log, run).items, i)
    {
      assert !Redoable(cfg, a.log, s.worker, run, i);
      if Finished(CoreOf(b.log, run).items, i) {
        TemptsExactly(cfg, a.log, s.seen, s.worker, run, i);
      }
    }
  }

  // ---- Steps and traces -----------------------------------------------------------------------------------

  lemma {:induction false} StepKeeps(cfg: Config, a: World, s: Step, b: World, run: Uuid)
    requires Exclusive(cfg) && RunInv(cfg, a, run) && Next(cfg, a, s, b) && SafeStep(cfg, a, s, run)
    ensures RunInv(cfg, b, run) && SeenOk(a.log, b.log, run)
  {
    StepInCustody(cfg, a, s, b);
    assert Kin(Strict(cfg), CoreOf(a.log, run).items, CoreOf(b.log, run).items);
    match s
    case Begin(_, _) =>
      BeginKeeps(cfg, a, s, b, run);
    case Build(_, _, _, _) =>
      BuildKeeps(cfg, a, s, b, run);
    case Attempt(_, _, _) =>
      AttemptKeeps(cfg, a, s, b, run);
    case Surface(_, _) =>
      SurfaceKeeps(cfg, a, s, b, run);
    case Settle(_) =>
      QuietKeeps(cfg, a, s, b, run);
    case EndTick(_) =>
      QuietKeeps(cfg, a, s, b, run);
    case Read =>
      QuietKeeps(cfg, a, s, b, run);
    case _ =>
      ControlStepKeeps(cfg, a, s, b, run);
  }

  lemma {:induction false} ControlStepKeeps(cfg: Config, a: World, s: Step, b: World, run: Uuid)
    requires RunInv(cfg, a, run) && InCustody(cfg, b) && Next(cfg, a, s, b) && SafeRetry(a, s, run)
    requires s.StartRun? || s.ChangeStatus? || s.RetryRun? || s.CreateOther?
    requires Kin(Strict(cfg), CoreOf(a.log, run).items, CoreOf(b.log, run).items)
    ensures RunInv(cfg, b, run) && SeenOk(a.log, b.log, run)
  {
    ControlCalm(cfg, a, s, b, run);
    ControlKeeps(cfg, a, b, if s.CreateOther? then s.aggregate else s.run, s.batch, run);
  }

  lemma {:induction false} StartIsSafe(cfg: Config, w: World, run: Uuid)
    requires Start(cfg, w) && InCustody(cfg, w)
    ensures RunInv(cfg, w, run)
  {
  }

  lemma {:induction false} TraceUpTo(cfg: Config, worlds: seq<World>, steps: seq<Step>, k: nat, run: Uuid)
    requires Exclusive(cfg) && Trace(cfg, worlds, steps) && Safe(cfg, worlds, steps, run) && k < |worlds|
    ensures RunInv(cfg, worlds[k], run)
  {
    if k == 0 {
      TraceInCustody(cfg, worlds, steps, 0);
      StartIsSafe(cfg, worlds[0], run);
    } else {
      var j := k - 1;
      TraceUpTo(cfg, worlds, steps, j, run);
      SafeAt(cfg, worlds, steps, j, run);
      StepKeeps(cfg, worlds[j], steps[j], worlds[j + 1], run);
    }
  }

  lemma {:induction false} SafeAt(cfg: Config, worlds: seq<World>, steps: seq<Step>, k: nat, run: Uuid)
    requires Trace(cfg, worlds, steps) && Safe(cfg, worlds, steps, run) && k < |steps|
    ensures Next(cfg, worlds[k], steps[k], worlds[k + 1]) && SafeStep(cfg, worlds[k], steps[k], run)
  {
  }

  // ---- Main results -------------------------------------------------------------------------------------

  /**
   * For any number of affinity workers (or one worker without), under every interleaving of loads,
   * attempts, lost acknowledgements, late commits and control operations, each item of the run is completed
   * at most once, and its replayed status says whether it was; provided that the run's own retries undo
   * nothing, that no load leads a worker to redo one of its items, and that its late commits are safe.
   */
  lemma {:induction false} CompletedAtMostOnce(cfg: Config, worlds: seq<World>, steps: seq<Step>, run: Uuid, item: Uuid)
    requires Exclusive(cfg) && Trace(cfg, worlds, steps) && Safe(cfg, worlds, steps, run)
    ensures Completions(Payloads(Last(worlds).log), run, item) <= 1
    ensures Completions(Payloads(Last(worlds).log), run, item) == 1
            <==> Finished(CoreOf(Last(worlds).log, run).items, item)
  {
    TraceUpTo(cfg, worlds, steps, |steps|, run);
    assert ItemOk(Last(worlds).log, run, item);
  }

  lemma {:induction false} TraceExtends(cfg: Config, worlds: seq<World>, steps: seq<Step>, from: nat, until: nat)
    requires Trace(cfg, worlds, steps) && from <= until <= |steps|
    ensures worlds[from].log <= worlds[until].log
    decreases until - from
  {
    if from < until {
      assert Next(cfg, worlds[from], steps[from], worlds[from + 1]);
      StepExtends(cfg, worlds[from], steps[from], worlds[from + 1]);
      TraceExtends(cfg, worlds, steps, from + 1, until);
    }
  }

  /**
   * Whenever a `RunCompleted` stands in the log, every item of its run was completed at that prefix,
   * although batches are built from stale snapshots, and is completed in every later log; on the same
   * conditions, of that run alone.
   */
  lemma {:induction false} CompletionIsFinal(cfg: Config, worlds: seq<World>, steps: seq<Step>, j: nat, k: nat, at: nat,
                                             run: Uuid)
    requires Exclusive(cfg) && Trace(cfg, worlds, steps) && Safe(cfg, worlds, steps, run)
    requires j <= k < |worlds| && at < |worlds[j].log| && Closes(worlds[j].log[at].payload, run)
    ensures AllDone(CoreOf(worlds[j].log[..at + 1], run).items)
    ensures AllDone(CoreOf(worlds[k].log, run).items)
  {
    TraceUpTo(cfg, worlds, steps, j, run);
    TraceUpTo(cfg, worlds, steps, k, run);
    TraceExtends(cfg, worlds, steps, j, k);
    assert ClosedOk(worlds[j].log, run, at);
    assert worlds[k].log[at] == worlds[j].log[at];
    assert ClosedOk(worlds[k].log, run, at);
  }

  /** Any load of a log shows a run as finished exactly when each of its items has its completion last. */
  lemma {:induction false} LoadShowsRunDone(log: seq<Event>, all: seq<Event>, run: Uuid)
    requires Kept(log) && EventStore.IsLoad(log, all)
    ensures AllDone(CoreOf(all, run).items)
       <==> CoreOf(log, run).items != map[] && forall i :: i in CoreOf(log, run).items ==> CompletedLast(log, run, i)
  {
    var was, now := CoreOf(all, run).items, CoreOf(log, run).items;
    LoadKeepsKeys(log, all, run);
    forall i ensures Finished(was, i) <==> CompletedLast(log, run, i) {
      LoadShowsFinished(log, all, run, i);
    }
    assert forall i :: i in was <==> i in now.Keys;
    assert was == map[] <==> was.Keys == {};
    assert now == map[] <==> now.Keys == {};
    if AllDone(was) {
      assert forall i :: i in was ==> Finished(was, i);
    } else if was != map[] {
      var i :| i in was && was[i].status != Done;
      assert !Finished(was, i) && i in now.Keys;
    }
  }
}
