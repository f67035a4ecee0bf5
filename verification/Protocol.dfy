/**
 * The run protocol: any number of workers and control operations over one log, interleaved in
 * every possible way. A worker's tick is not atomic: it loads the log in time order, builds batches
 * from what it loaded run by run, and each batch is offered to the log by attempts that may be
 * rejected, may lose their acknowledgement, and may be given up (which also covers a crash of the
 * worker). A batch that was given up may still take effect later. Control operations read the stream,
 * read its revision and append; only the last is atomic. One that fails before its append leaves no
 * trace, and is no step.
 */
module Protocol {
  import opened Events
  import opened Log
  import opened WorkerReplay
  import opened LoadOrder
  import opened Harness
  import opened Tick
  import opened TickReplay
  import RetryAppend
  import Planner
  import Orchestrator
  import ControlEffects
  import EventStore
  import Rebuild
  import O = OrchestratorReplay

  /** The worker processes, which of them run with item affinity, and how many items a tick may take. */
  datatype Config = Config(workers: set<Uuid>, affine: set<Uuid>, maxItems: nat)

  datatype Offer = Offer(run: Uuid, work: seq<Job>, batch: seq<Event>)

  datatype Phase = Idle | Ticking(seen: seq<Event>, done: set<Uuid>, offer: Option<Offer>)

  /** A batch, with the worker that built it and the load it was built from. */
  datatype Proposal = Proposal(worker: Uuid, seen: seq<Event>, offer: Offer)

  /**
   * `used` holds every event identifier ever generated, written or not; `loaded` holds every state
   * of the log that a control operation has loaded and may still decide on; `adrift` holds the
   * batches that were given up.
   */
  datatype World = World(log: seq<Event>, phases: map<Uuid, Phase>, used: set<Uuid>, loaded: set<seq<Event>>,
                         adrift: set<Proposal>)

  datatype Step =
    | Begin(worker: Uuid, seen: seq<Event>)
    | Build(worker: Uuid, run: Uuid, work: seq<Job>, batch: seq<Event>)
    | Attempt(worker: Uuid, latest: int, link: EventStore.Link)
    | Settle(worker: Uuid)
    | EndTick(worker: Uuid)
    | Surface(lost: Proposal, latest: int)
    | StartRun(run: Uuid, workspace: Uuid, objective: string, dealt: seq<Planner.WorkItem>, batch: seq<Event>)
    | ChangeStatus(run: Uuid, decided: seq<Event>, status: RunStatus, reason: string, batch: seq<Event>)
    | Read
    | RetryRun(run: Uuid, decided: seq<Event>, order: seq<Uuid>, newAgent: Uuid -> Uuid, batch: seq<Event>)
    | CreateOther(aggregate: Uuid, batch: seq<Event>)

  ghost predicate Start(cfg: Config, w: World) {
    && w.log == [] && w.used == {} && w.loaded == {} && w.adrift == {}
    && w.phases.Keys == cfg.workers && forall v :: v in cfg.workers ==> w.phases[v] == Idle
  }

  /** The worker's snapshot and the run it is working on. */
  ghost predicate Builds(cfg: Config, a: World, phase: Phase, worker: Uuid, run: Uuid, work: seq<Job>,
                         batch: seq<Event>) {
    && phase.Ticking? && phase.offer.None? && run !in phase.done
    && Workable(CoreOf(phase.seen, run))
    && Legal(CoreOf(phase.seen, run), worker, worker in cfg.affine, work) && |work| <= cfg.maxItems
    && Payloads(batch) == BatchPayloads(CoreOf(phase.seen, run), worker, run, work)
    && batch != [] && NewIds(a, batch)
  }

  ghost predicate NewIds(a: World, batch: seq<Event>) {
    UniqueIds(batch) && Ids(batch) !! a.used
  }

  /** A control operation offers a batch; its revisions may come from any earlier read. */
  ghost predicate Controls(a: World, b: World, stream: Uuid, batch: seq<Event>) {
    NewIds(a, batch) && b == a.(log := Appended(a.log, stream, batch), used := a.used + Ids(batch))
  }

  /** An event about no run. */
  predicate IsCreation(p: Payload) {
    p.WorkspaceCreated? || p.AgentProfileCreated?
  }

  /** A fresh item identifier: nothing in the log names it. */
  ghost predicate Unnamed(log: seq<Event>, item: Uuid) {
    forall k :: 0 <= k < |log| ==> !Rebuild.Names(log[k].payload, item)
  }

  /** What a worker leaves behind when it gives up: its offer, which may be in the log or may get there yet. */
  function Outstanding(v: Uuid, phase: Phase): set<Proposal> {
    if phase.Ticking? && phase.offer.Some? then {Proposal(v, phase.seen, phase.offer.value)} else {}
  }

  ghost predicate Next(cfg: Config, a: World, s: Step, b: World) {
    match s
    case Begin(v, seen) =>
      && v in a.phases && a.phases[v].Idle? && EventStore.IsLoad(a.log, seen)
      && b == a.(phases := a.phases[v := Ticking(seen, {}, None)])
    case Build(v, run, work, batch) =>
      && v in a.phases && Builds(cfg, a, a.phases[v], v, run, work, batch)
      && var offered := Ticking(a.phases[v].seen, a.phases[v].done + {run}, Some(Offer(run, work, batch)));
         b == a.(phases := a.phases[v := offered],
                 used := a.used + Ids(batch))
    case Attempt(v, latest, link) =>
      && v in a.phases && a.phases[v].Ticking? && a.phases[v].offer.Some?
      && var p := a.phases[v].offer.value;
         b == a.(log := if link.Down? then a.log else Appended(a.log, p.run, RetryAppend.Rebased(p.batch, latest)))
    case Settle(v) =>
      && v in a.phases && a.phases[v].Ticking?
      && b == a.(phases := a.phases[v := a.phases[v].(offer := None)], adrift := a.adrift + Outstanding(v, a.phases[v]))
    case EndTick(v) =>
      && v in a.phases
      && b == a.(phases := a.phases[v := Idle], adrift := a.adrift + Outstanding(v, a.phases[v]))
    case Surface(x, latest) =>
      && x in a.adrift
      && b == a.(log := Appended(a.log, x.offer.run, RetryAppend.Rebased(x.offer.batch, latest)))
    case StartRun(run, workspace, objective, dealt, batch) =>
      && Stream(a.log, run) == [] && ControlEffects.DistinctItems(dealt)
      && (forall k :: 0 <= k < |dealt| ==> Unnamed(a.log, dealt[k].id))
      && (forall k :: 0 <= k < |dealt| ==> dealt[k].agent.Some?)
      && Payloads(batch) == Orchestrator.StartPayloads(run, workspace, objective, dealt)
      && Controls(a, b, run, batch)
    case ChangeStatus(run, decided, status, reason, batch) =>
      && decided in a.loaded
      && Stream(decided, run) != [] && O.FromStream(Stream(decided, run)).status != status
      && Payloads(batch) == [RunStatusChanged(run, status, reason)]
      && Controls(a, b, run, batch)
    case Read => b == a.(loaded := a.loaded + {a.log})
    case RetryRun(run, decided, order, newAgent, batch) =>
      && decided in a.loaded
      && (var view := O.FromStream(Stream(decided, run));
          && view.status != Running && view.status != Completed
          && Orchestrator.Enumerates(order, view.items) && order != []
          && Payloads(batch) == Orchestrator.RetryPayloads(run, view.items, order, newAgent))
      && Controls(a, b, run, batch)
    case CreateOther(aggregate, batch) =>
      && Stream(a.log, aggregate) == []
      && (forall k :: 0 <= k < |batch| ==> IsCreation(batch[k].payload))
      && Controls(a, b, aggregate, batch)
  }

  ghost predicate Trace(cfg: Config, worlds: seq<World>, steps: seq<Step>) {
    && |worlds| == |steps| + 1
    && Start(cfg, worlds[0])
    && forall k :: 0 <= k < |steps| ==> Next(cfg, worlds[k], steps[k], worlds[k + 1])
  }

  // ---- What the code leaves open, run by run ---------------------------------------------------------

  /**
   * No item of the run that was unfinished when the retry was decided has been completed since. The
   * revision check of the append covers only the second read of the stream, so the code does not ensure this.
   */
  ghost predicate SafeRetry(a: World, s: Step, run: Uuid) {
    s.RetryRun? && s.run == run && Accepts(a.log, run, s.batch) ==>
      forall i :: Orchestrator.Unfinished(O.FromStream(Stream(s.decided, run)).items, i) ==>
        !Finished(CoreOf(a.log, run).items, i)
  }

  /**
   * A completed item that a load may lead the worker to execute again: its latest event is its
   * assignment, to this worker if it runs with affinity, and the run's latest status event sets it running.
   */
  ghost predicate Redoable(cfg: Config, log: seq<Event>, v: Uuid, run: Uuid, item: Uuid) {
    && Finished(CoreOf(log, run).items, item)
    && RunsLast(log, run) && CoreOf(log, run).workspaceId != NIL && cfg.maxItems > 0
    && exists e :: IsLatest(log, ItemTopic(run, item), e) && AssignsTo(cfg, e.payload, v)
  }

  predicate AssignsTo(cfg: Config, p: Payload, v: Uuid) {
    p.WorkItemAssigned? && (v in cfg.affine ==> p.agentId == v)
  }

  /**
   * The load leads the worker to redo no item of the run. Since a batch that is rebased keeps its old
   * times, the code does not ensure this either.
   */
  ghost predicate SafeLoad(cfg: Config, a: World, s: Step, run: Uuid) {
    s.Begin? ==> forall i :: !Redoable(cfg, a.log, s.worker, run, i)
  }

  /** Whether the worker may still append a completion of the item from the tick it is in. */
  ghost predicate StillToDo(cfg: Config, phase: Phase, log: seq<Event>, v: Uuid, run: Uuid, item: Uuid) {
    && phase.Ticking?
    && var seen := CoreOf(phase.seen, run);
       || (cfg.maxItems > 0 && run !in phase.done && Workable(seen) && Eligible(seen.items, v, v in cfg.affine, item))
       || (phase.offer.Some? && phase.offer.value.run == run && Touches(phase.offer.value.work, item)
           && Ids(phase.offer.value.batch) !! Ids(log))
  }

  /**
   * A batch that takes effect after it was given up finds none of its items completed, and completes none
   * that its worker may still complete once more from the tick it is in by now.
   */
  ghost predicate SafeSurface(cfg: Config, a: World, s: Step, run: Uuid) {
    s.Surface? && s.lost.offer.run == run && s.lost.worker in a.phases
    && Accepts(a.log, run, RetryAppend.Rebased(s.lost.offer.batch, s.latest)) ==>
      var v, next := s.lost.worker, Appended(a.log, run, RetryAppend.Rebased(s.lost.offer.batch, s.latest));
      forall i ::
        && (Touches(s.lost.offer.work, i) ==> !Finished(CoreOf(a.log, run).items, i))
        && (Completes(s.lost.offer.work, i) ==> !StillToDo(cfg, a.phases[v], next, v, run, i))
  }

  ghost predicate SafeRetries(worlds: seq<World>, steps: seq<Step>, run: Uuid)
    requires |worlds| == |steps| + 1
  {
    forall k :: 0 <= k < |steps| ==> SafeRetry(worlds[k], steps[k], run)
  }

  ghost predicate SafeLoads(cfg: Config, worlds: seq<World>, steps: seq<Step>, run: Uuid)
    requires |worlds| == |steps| + 1
  {
    forall k :: 0 <= k < |steps| ==> SafeLoad(cfg, worlds[k], steps[k], run)
  }

  ghost predicate SafeSurfaces(cfg: Config, worlds: seq<World>, steps: seq<Step>, run: Uuid)
    requires |worlds| == |steps| + 1
  {
    forall k :: 0 <= k < |steps| ==> SafeSurface(cfg, worlds[k], steps[k], run)
  }

  /** Every worker runs with item affinity. */
  ghost predicate Strict(cfg: Config) {
    cfg.workers <= cfg.affine
  }

  /** No two workers can take the same item: affinity everywhere, or a single worker. */
  ghost predicate Exclusive(cfg: Config) {
    Strict(cfg) || forall v, w :: v in cfg.workers && w in cfg.workers ==> v == w
  }

  // ---- Every step appends at most one batch about one run ------------------------------------------

  /** A payload that, in the stream of `run`, is about that run or about none. */
  predicate About(p: Payload, run: Uuid) {
    match p
    case RunStarted(_, _) => true
    case WorkspaceCreated(_) => true
    case AgentProfileCreated(_, _, _) => true
    case _ => p.runId == run
  }

  /** No event of a batch is a blocker, and all are about the run. */
  ghost predicate Proper(ps: seq<Payload>, run: Uuid) {
    forall k :: 0 <= k < |ps| ==> About(ps[k], run) && !ps[k].BlockerEncountered?
  }

  lemma {:induction false} RebasedPayloads(batch: seq<Event>, latest: int, run: Uuid)
    ensures Payloads(RetryAppend.Rebased(batch, latest)) == Payloads(batch)
    ensures Payloads(Stamp(batch, run)) == Payloads(batch)
  {
  }

  lemma {:induction false} StampedAbout(events: seq<Event>, run: Uuid)
    requires Proper(Payloads(events), run)
    ensures AllAbout(Stamp(events, run), run)
  {
    forall k | 0 <= k < |events| ensures RunOf(Stamp(events, run)[k]) in {Some(run), None} {
      assert About(Payloads(events)[k], run);
    }
  }

  /** The replay of a log after an append, accepted or not. */
  lemma {:induction false} AppendedCore(log: seq<Event>, run: Uuid, events: seq<Event>, r: Uuid)
    requires Proper(Payloads(events), run)
    ensures CoreOf(Appended(log, run, events), r)
         == if Accepts(log, run, events) && r == run then ApplyAll(CoreOf(log, r), Payloads(events)) else CoreOf(log, r)
  {
    if Accepts(log, run, events) {
      StampedAbout(events, run);
      ReplayBatch(log, Stamp(events, run), run, r);
      RebasedPayloads(events, 0, run);
    }
  }

  lemma {:induction false} AppendedKept(log: seq<Event>, run: Uuid, events: seq<Event>)
    requires Kept(log)
    requires Proper(Payloads(events), run)
    ensures Kept(Appended(log, run, events))
  {
    AppendKeepsLog(log, run, events);
    if Accepts(log, run, events) {
      var rows := Stamp(events, run);
      StampedAbout(events, run);
      forall k | 0 <= k < |rows| ensures !rows[k].payload.BlockerEncountered? {
        assert rows[k].payload == Payloads(events)[k];
      }
    }
  }

  lemma {:induction false} UnmentionedInEmptyStream(log: seq<Event>, run: Uuid)
    requires Kept(log) && Stream(log, run) == []
    ensures !Mentions(log, run)
  {
    if Mentions(log, run) {
      var k :| 0 <= k < |log| && RunOf(log[k]) == Some(run);
      StreamHasAll(log, run, k);
      assert false;
    }
  }

  // ---- Counting completions --------------------------------------------------------------------------

  predicate Completion(p: Payload, run: Uuid, item: Uuid) {
    p.WorkItemCompleted? && p.runId == run && p.itemId == item
  }

  function Completions(ps: seq<Payload>, run: Uuid, item: Uuid): nat {
    if ps == [] then 0 else Completions(Front(ps), run, item) + if Completion(Last(ps), run, item) then 1 else 0
  }

  lemma {:induction false} CompletionsConcat(a: seq<Payload>, b: seq<Payload>, run: Uuid, item: Uuid)
    ensures Completions(a + b, run, item) == Completions(a, run, item) + Completions(b, run, item)
  {
    if b == [] {
      assert a + b == a;
    } else {
      assert Front(a + b) == a + Front(b);
      CompletionsConcat(a, Front(b), run, item);
    }
  }

  lemma {:induction false} NoCompletions(ps: seq<Payload>, run: Uuid, item: Uuid)
    requires forall k :: 0 <= k < |ps| ==> !Completion(ps[k], run, item)
    ensures Completions(ps, run, item) == 0
  {
    if ps != [] {
      NoCompletions(Front(ps), run, item);
    }
  }

  lemma {:induction false} AppendedCompletions(log: seq<Event>, run: Uuid, events: seq<Event>, r: Uuid, item: Uuid)
    ensures Completions(Payloads(Appended(log, run, events)), r, item)
         == Completions(Payloads(log), r, item)
            + if Accepts(log, run, events) then Completions(Payloads(events), r, item) else 0
  {
    if Accepts(log, run, events) {
      RebasedPayloads(events, 0, run);
      assert Payloads(log + Stamp(events, run)) == Payloads(log) + Payloads(events);
      CompletionsConcat(Payloads(log), Payloads(events), r, item);
    }
  }

  lemma {:induction false} ExecutionCompletions(worker: Uuid, run: Uuid, j: Job, r: Uuid, item: Uuid)
    ensures Completions(ExecutionPayloads(worker, run, j.item, j.outcome), r, item)
         == if r == run && j.item == item && Succeeds(j.outcome) then 1 else 0
  {
    var ps := ExecutionPayloads(worker, run, j.item, j.outcome);
    if Succeeds(j.outcome) {
      assert ps == [ps[0]] + [ps[1]] + [ps[2]];
      assert Front([ps[0]]) == [] && Front([ps[1]]) == [] && Front([ps[2]]) == [];
      CompletionsConcat([ps[0]] + [ps[1]], [ps[2]], r, item);
      CompletionsConcat([ps[0]], [ps[1]], r, item);
    } else {
      NoCompletions(ps, r, item);
    }
  }

  lemma {:induction false} JobCompletions(worker: Uuid, run: Uuid, work: seq<Job>, r: Uuid, item: Uuid)
    requires Once(work)
    ensures Completions(JobPayloads(worker, run, work), r, item) == if r == run && Completes(work, item) then 1 else 0
  {
    if work != [] {
      JobCompletions(worker, run, Front(work), r, item);
      CompletionsConcat(JobPayloads(worker, run, Front(work)),
                        ExecutionPayloads(worker, run, Last(work).item, Last(work).outcome), r, item);
      ExecutionCompletions(worker, run, Last(work), r, item);
      CompletesTouches(Front(work), item);
    }
  }

  lemma {:induction false} BatchCompletions(seen: Core, worker: Uuid, run: Uuid, work: seq<Job>, r: Uuid, item: Uuid)
    requires Once(work)
    ensures Completions(BatchPayloads(seen, worker, run, work), r, item)
            == if r == run && Completes(work, item) then 1 else 0
  {
    JobCompletions(worker, run, work, r, item);
    CompletionsConcat(JobPayloads(worker, run, work), Closing(seen, run, work), r, item);
    NoCompletions(Closing(seen, run, work), r, item);
  }

  lemma {:induction false} JobsProper(worker: Uuid, run: Uuid, work: seq<Job>)
    ensures Proper(JobPayloads(worker, run, work), run)
    ensures forall k :: 0 <= k < |JobPayloads(worker, run, work)| ==>
              var p := JobPayloads(worker, run, work)[k];
              !p.RunCompleted? && !p.RunStatusChanged? && !p.RunStarted? && !p.WorkItemAssigned?
    ensures |JobPayloads(worker, run, work)| <= 3 * |work|
  {
    if work != [] {
      JobsProper(worker, run, Front(work));
    }
  }

  // ---- Counting closings --------------------------------------------------------------------------------

  function Closings(ps: seq<Payload>): nat {
    if ps == [] then 0 else Closings(Front(ps)) + if Last(ps).RunCompleted? then 1 else 0
  }

  lemma {:induction false} ClosingsConcat(a: seq<Payload>, b: seq<Payload>)
    ensures Closings(a + b) == Closings(a) + Closings(b)
  {
    if b == [] {
      assert a + b == a;
    } else {
      assert Front(a + b) == a + Front(b);
      ClosingsConcat(a, Front(b));
    }
  }

  lemma {:induction false} NoClosings(ps: seq<Payload>)
    requires forall k :: 0 <= k < |ps| ==> !ps[k].RunCompleted?
    ensures Closings(ps) == 0
  {
    if ps != [] {
      NoClosings(Front(ps));
    }
  }

  lemma {:induction false} BatchCloses(c: Core, v: Uuid, run: Uuid, work: seq<Job>)
    ensures Closings(BatchPayloads(c, v, run, work)) == if AllDone(NoteAll(c, work).items) then 1 else 0
  {
    JobsProper(v, run, work);
    NoClosings(JobPayloads(v, run, work));
    ClosingsConcat(JobPayloads(v, run, work), Closing(c, run, work));
    var tail := Closing(c, run, work);
    if tail != [] {
      assert Front(tail) == [];
    }
  }
}
