/** Concrete runs of the protocol: one affinity worker, one run, one item, and a story told step by step. */
module Scenes {
  import opened Events
  import opened Log
  import opened EventStore
  import opened WorkerReplay
  import opened Tick
  import opened Protocol
  import Commits
  import Harness
  import TickReplay
  import RetryAppend
  import Planner
  import Orchestrator
  import ControlEffects
  import AtomicControl
  import O = OrchestratorReplay

  const RUN: Uuid := 5
  const ITEM: Uuid := 9
  const AGENT: Uuid := 1
  const SETUP := Config({AGENT}, {AGENT}, 1)

  // ---- One stream --------------------------------------------------------------------------------------

  datatype Entry = Entry(payload: Payload, at: int)

  function At(ps: seq<Payload>, at: int): (es: seq<Entry>)
    ensures |es| == |ps| && Bare(es) == ps
  {
    seq(|ps|, k requires 0 <= k < |ps| => Entry(ps[k], at))
  }

  function Bare(es: seq<Entry>): seq<Payload> {
    seq(|es|, k requires 0 <= k < |es| => es[k].payload)
  }

  /** The events of one stream from revision `after` on; each has its revision as identifier. */
  function Rows(es: seq<Entry>, after: nat): (rows: seq<Event>)
    ensures |rows| == |es|
    ensures forall k :: 0 <= k < |es| ==>
              rows[k] == Event(after + k + 1, es[k].at, NIL, RUN, after + k + 1, es[k].payload)
    ensures Payloads(rows) == Bare(es)
  {
    seq(|es|, k requires 0 <= k < |es| => Event(after + k + 1, es[k].at, NIL, RUN, after + k + 1, es[k].payload))
  }

  lemma {:induction false} RowsStream(es: seq<Entry>)
    ensures Stream(Rows(es, 0), RUN) == Rows(es, 0) && Latest(Rows(es, 0), RUN) == |es|
  {
    if es != [] {
      RowsStream(Front(es));
      RowsFront(es);
    }
  }

  lemma {:induction false} RowsFront(es: seq<Entry>)
    requires es != []
    ensures Rows(es, 0) != [] && Front(Rows(es, 0)) == Rows(Front(es), 0)
    ensures Rows(es, 0) == Rows(Front(es), 0) + [Last(Rows(es, 0))] && Last(Rows(es, 0)).resourceId == RUN
    ensures Last(Rows(es, 0)).revision == |es| == |Front(es)| + 1
  {
  }

  lemma {:induction false} RowsIds(es: seq<Entry>, after: nat)
    ensures UniqueIds(Rows(es, after))
    ensures forall id :: id in Ids(Rows(es, after)) <==> after < id <= after + |es|
  {
    forall id | after < id <= after + |es| ensures id in Ids(Rows(es, after)) {
      assert Rows(es, after)[id - after - 1].id == id;
    }
  }

  lemma {:induction false} RowsJoin(es: seq<Entry>, more: seq<Entry>)
    ensures Rows(es + more, 0) == Rows(es, 0) + Rows(more, |es|)
    ensures Stamp(Rows(more, |es|), RUN) == Rows(more, |es|) == RetryAppend.Rebased(Rows(more, |es|), |es|)
  {
    var rows := Rows(more, |es|);
    forall k | 0 <= k < |rows| ensures Stamp(rows, RUN)[k] == rows[k] == RetryAppend.Rebased(rows, |es|)[k] {}
  }

  lemma {:induction false} BareConcat(es: seq<Entry>, more: seq<Entry>)
    ensures Bare(es + more) == Bare(es) + Bare(more)
  {
  }

  lemma {:induction false} InOrderConcat(a: seq<Event>, b: seq<Event>)
    requires InLoadOrder(a) && InLoadOrder(b)
    requires forall i, j :: 0 <= i < |a| && 0 <= j < |b| ==> NotAfter(a[i], b[j])
    ensures InLoadOrder(a + b)
  {
  }

  /** A stream whose times never decrease is its own load. */
  lemma {:induction false} RowsInOrder(es: seq<Entry>)
    requires forall j, k :: 0 <= j < k < |es| ==> es[j].at <= es[k].at
    ensures IsLoad(Rows(es, 0), Rows(es, 0))
  {
  }

  lemma {:induction false} RowsAppend(es: seq<Entry>, more: seq<Entry>)
    ensures Accepts(Rows(es, 0), RUN, Rows(more, |es|))
    ensures Appended(Rows(es, 0), RUN, Rows(more, |es|)) == Rows(es + more, 0)
    ensures RetryAppend.Rebased(Rows(more, |es|), |es|) == Rows(more, |es|)
  {
    RowsStream(es);
    RowsJoin(es, more);
    RowsIds(more, |es|);
    RowsIds(es, 0);
  }

  /** The run's replay, whatever the order of its events; other runs are not mentioned. */
  lemma {:induction false} CoreOfEvents(events: seq<Event>, r: Uuid)
    requires Proper(Payloads(events), RUN) && forall k :: 0 <= k < |events| ==> events[k].resourceId == RUN
    ensures CoreOf(events, r) == if r == RUN then ApplyAll(BLANK.core, Payloads(events)) else BLANK.core
  {
    forall k | 0 <= k < |events| ensures RunOf(events[k]) in {Some(RUN), None} {
      assert About(Payloads(events)[k], RUN);
    }
    ReplayBatch([], events, RUN, r);
    assert [] + events == events;
  }

  // ---- The states of the run -----------------------------------------------------------------------------

  const WORK := [Job(ITEM, Harness.Executed(true, 5, 1.0, None))]
  const DEALT := [Planner.WorkItem(ITEM, RUN, Planner.Stock(""), Some(AGENT), Assigned)]
  const ASSIGNED: Items := map[ITEM := Item(Assigned, Some(AGENT))]
  const STARTED := Core(7, Running, 0.0, 0, ASSIGNED)
  const PAUSE := RunStatusChanged(RUN, Paused, "manual pause")

  function Same(id: Uuid): Uuid { id }
  function Starting(): seq<Payload> { Orchestrator.StartPayloads(RUN, 7, "", DEALT) }
  function Work(c: Core): seq<Payload> { BatchPayloads(c, AGENT, RUN, WORK) }
  function Retry(): seq<Payload> { Orchestrator.RetryPayloads(RUN, ASSIGNED, [ITEM], Same) }

  /** The stream after a start at some time. */
  function Opened(t0: int): seq<Entry> { At(Starting(), t0) }

  /** What matters of the run's state where its item may be executed. */
  predicate Ready(c: Core) {
    c.workspaceId == 7 && c.status == Running && c.items == ASSIGNED
  }

  lemma {:induction false} StartEffect()
    ensures Proper(Starting(), RUN) && ApplyAll(BLANK.core, Starting()) == STARTED
  {
    ControlEffects.StartOnWorker(RUN, 7, "", DEALT);
    assert Front(DEALT) == [];
    assert ControlEffects.StartedItems(DEALT) == ASSIGNED;
  }

  lemma {:induction false} OpenedState(t0: int)
    ensures |Opened(t0)| == 2 && Bare(Opened(t0)) == Starting() && Proper(Bare(Opened(t0)), RUN)
    ensures CoreOf(Rows(Opened(t0), 0), RUN) == STARTED
  {
    StartEffect();
    CoreOfEvents(Rows(Opened(t0), 0), RUN);
  }

  lemma {:induction false} ReadyBuilds(c: Core)
    requires Ready(c)
    ensures Workable(c) && Legal(c, AGENT, true, WORK)
    ensures Proper(Work(c), RUN) && Work(c) != []
  {
    assert ITEM in c.items;
    assert Front(WORK) == [] && Last(WORK).item == ITEM;
    assert Legal(c, AGENT, true, Front(WORK));
    assert Eligible(NoteAll(c, Front(WORK)).items, AGENT, true, ITEM);
    Commits.BatchProper(c, AGENT, RUN, WORK);
  }

  lemma {:induction false} WorkLength(c: Core)
    requires Ready(c)
    ensures |Work(c)| == 4
  {
    assert Front(WORK) == [] && NoteAll(c, Front(WORK)) == c;
    assert NoteAll(c, WORK) == Note(c, WORK[0]);
    var done := NoteAll(c, WORK).items;
    assert done == ASSIGNED[ITEM := Item(Done, Some(AGENT))];
    assert ITEM in done && AllDone(done);
    assert JobPayloads(AGENT, RUN, Front(WORK)) == [];
    assert |JobPayloads(AGENT, RUN, WORK)| == 3;
  }

  lemma {:induction false} ReadyCompletes(c: Core)
    requires Ready(c)
    ensures Completions(Work(c), RUN, ITEM) == 1
  {
    ReadyBuilds(c);
    TickReplay.LegalJobs(c, AGENT, true, WORK, ITEM);
    BatchCompletions(c, AGENT, RUN, WORK, RUN, ITEM);
    assert TickReplay.Completes(WORK, ITEM);
  }

  /** The worker's batch completes the item on any state that holds it under the worker. */
  lemma {:induction false} WorkEffect(c: Core)
    requires c.items == ASSIGNED && c.workspaceId == 7
    ensures ApplyAll(c, Work(STARTED)).workspaceId == 7
    ensures ApplyAll(c, Work(STARTED)).items == map[ITEM := Item(Done, Some(AGENT))]
  {
    TickReplay.BatchReplay(STARTED, c, AGENT, RUN, WORK);
    assert Front(WORK) == [];
    assert TickReplay.ReplayedAll(c, AGENT, []) == c;
  }

  lemma {:induction false} PauseEffect(c: Core)
    ensures ApplyAll(c, [PAUSE]) == c.(status := Paused)
  {
    assert Front([PAUSE]) == [];
    assert ApplyAll(c, [PAUSE]) == Apply(c, PAUSE);
  }

  lemma {:induction false} RetryEffect(c: Core)
    requires c.items.Keys == {ITEM} && c.workspaceId == 7
    ensures Ready(ApplyAll(c, Retry())) && Proper(Retry(), RUN)
  {
    ControlEffects.RetryOnWorker(c, RUN, ASSIGNED, [ITEM], Same);
    Commits.RetryProper(RUN, ASSIGNED, [ITEM], Same);
    assert Front([ITEM]) == [];
    assert ControlEffects.Reassigned(c.items, ASSIGNED, [], Same) == c.items;
    assert Orchestrator.RetryAgent(ASSIGNED, ITEM, Same) == AGENT;
  }

  lemma {:induction false} ControlCompletesNothing()
    ensures Completions(Starting(), RUN, ITEM) == 0 && Completions([PAUSE], RUN, ITEM) == 0
    ensures Completions(Retry(), RUN, ITEM) == 0
  {
    NoCompletions(Starting(), RUN, ITEM);
    NoCompletions([PAUSE], RUN, ITEM);
    NoCompletions(Retry(), RUN, ITEM);
  }

  lemma {:induction false} StreamViewOf(es: seq<Entry>)
    ensures O.FromStream(Stream(Rows(es, 0), RUN)) == O.ApplyAll(O.StreamView(Pending, map[]), Bare(es))
  {
    RowsStream(es);
    O.FromLongerStream([], Rows(es, 0));
    assert [] + Rows(es, 0) == Rows(es, 0);
  }

  lemma {:induction false} StartView()
    ensures O.ApplyAll(O.StreamView(Pending, map[]), Starting()) == O.StreamView(Running, ASSIGNED)
  {
    var p, q := RunStarted(7, ""), WorkItemAssigned(RUN, ITEM, AGENT);
    assert Starting() == [p, q] && Front(Starting()) == [p] && Front([p]) == [];
    assert O.ApplyAll(O.StreamView(Pending, map[]), [p]) == O.StreamView(Running, map[]);
  }

  /** The orchestrator's view of the stream after the start, and after the pause. */
  lemma {:induction false} StreamViews(started: seq<Entry>, paused: seq<Entry>)
    requires Bare(started) == Starting() && Bare(paused) == Starting() + [PAUSE]
    ensures O.FromStream(Stream(Rows(started, 0), RUN)) == O.StreamView(Running, ASSIGNED)
    ensures O.FromStream(Stream(Rows(paused, 0), RUN)) == O.StreamView(Paused, ASSIGNED)
  {
    StartView();
    StreamViewOf(started);
    StreamViewOf(paused);
    assert Front(Starting() + [PAUSE]) == Starting();
  }

  // ---- Telling a story -------------------------------------------------------------------------------

  datatype Story = Story(worlds: seq<World>, steps: seq<Step>)

  /** A world whose log is one stream, given by its entries, and whose worker is in some phase. */
  datatype Scene = Scene(log: seq<Entry>, used: set<Uuid>, phase: Phase, loaded: set<seq<Event>>,
                         adrift: set<Proposal>)

  function WorldOf(sc: Scene): World {
    World(Rows(sc.log, 0), map[AGENT := sc.phase], sc.used, sc.loaded, sc.adrift)
  }

  /** Which of the conditions of safety a story keeps for the run: all retries atomic, all loads safe, and so on. */
  datatype Claims = Claims(retries: bool, loads: bool, surfaces: bool)

  ghost predicate Fits(c: Claims, a: World, s: Step) {
    && (c.retries ==> AtomicControl.AtomicRetry(a, s, RUN))
    && (c.loads ==> SafeLoad(SETUP, a, s, RUN))
    && (c.surfaces ==> SafeSurface(SETUP, a, s, RUN))
  }

  /** A story that has come to some scene and has kept what it claims. */
  ghost predicate Reached(t: Story, sc: Scene, c: Claims) {
    && Trace(SETUP, t.worlds, t.steps) && Last(t.worlds) == WorldOf(sc)
    && forall k :: 0 <= k < |t.steps| ==> Fits(c, t.worlds[k], t.steps[k])
  }

  /** What a story claims, told of its trace. */
  lemma {:induction false} Claimed(t: Story, sc: Scene, c: Claims)
    requires Reached(t, sc, c)
    ensures c.retries ==> AtomicControl.AtomicRetries(t.worlds, t.steps, RUN)
    ensures c.loads ==> SafeLoads(SETUP, t.worlds, t.steps, RUN)
    ensures c.surfaces ==> SafeSurfaces(SETUP, t.worlds, t.steps, RUN)
  {
    forall k | 0 <= k < |t.steps|
      ensures c.retries ==> AtomicControl.AtomicRetry(t.worlds[k], t.steps[k], RUN)
      ensures c.loads ==> SafeLoad(SETUP, t.worlds[k], t.steps[k], RUN)
      ensures c.surfaces ==> SafeSurface(SETUP, t.worlds[k], t.steps[k], RUN)
    {
      assert Fits(c, t.worlds[k], t.steps[k]);
    }
  }

  lemma {:induction false} Then(t: Story, a: Scene, s: Step, b: Scene, c: Claims) returns (next: Story)
    requires Reached(t, a, c) && Next(SETUP, WorldOf(a), s, WorldOf(b)) && Fits(c, WorldOf(a), s)
    ensures Reached(next, b, c)
    ensures next.worlds == t.worlds + [WorldOf(b)] && next.steps == t.steps + [s]
  {
    next := Story(t.worlds + [WorldOf(b)], t.steps + [s]);
    forall k | 0 <= k < |next.steps|
      ensures Next(SETUP, next.worlds[k], next.steps[k], next.worlds[k + 1])
      ensures Fits(c, next.worlds[k], next.steps[k])
    {
      if k < |t.steps| {
        assert Next(SETUP, t.worlds[k], t.steps[k], t.worlds[k + 1]) && Fits(c, t.worlds[k], t.steps[k]);
      } else {
        assert next.worlds[k] == WorldOf(a) && next.steps[k] == s && next.worlds[k + 1] == WorldOf(b);
      }
    }
  }

  function AtStart(t0: int): Scene {
    Scene(Opened(t0), Ids(Rows(Opened(t0), 0)), Idle, {}, {})
  }

  /** The run is started. */
  lemma {:induction false} Opening(t0: int, c: Claims) returns (t: Story)
    ensures Reached(t, AtStart(t0), c) && |t.worlds| == 2
  {
    var nothing, es := Scene([], {}, Idle, {}, {}), Opened(t0);
    t := Story([WorldOf(nothing)], []);
    RowsAppend([], es);
    RowsIds(es, 0);
    assert [] + es == es && Rows([], 0) == [];
    assert {} + Ids(Rows(es, 0)) == Ids(Rows(es, 0));
    assert Controls(WorldOf(nothing), WorldOf(AtStart(t0)), RUN, Rows(es, 0));
    t := Then(t, nothing, StartRun(RUN, 7, "", DEALT, Rows(es, 0)), AtStart(t0), c);
  }

  /** A load of a log in which the item is open leads nobody to redo it. */
  lemma {:induction false} OpenIsSafe(sc: Scene, seen: seq<Event>)
    requires CoreOf(Rows(sc.log, 0), RUN).items == ASSIGNED
    ensures SafeLoad(SETUP, WorldOf(sc), Begin(AGENT, seen), RUN)
  {
  }

  lemma {:induction false} ThenBegin(t: Story, sc: Scene, seen: seq<Event>, c: Claims) returns (next: Story)
    requires Reached(t, sc, c) && sc.phase == Idle && IsLoad(Rows(sc.log, 0), seen)
    requires c.loads ==> SafeLoad(SETUP, WorldOf(sc), Begin(AGENT, seen), RUN)
    ensures Reached(next, sc.(phase := Ticking(seen, {}, None)), c) && t.worlds <= next.worlds
  {
    next := Then(t, sc, Begin(AGENT, seen), sc.(phase := Ticking(seen, {}, None)), c);
  }

  function Loaded(t0: int): Scene {
    AtStart(t0).(phase := Ticking(Rows(Opened(t0), 0), {}, None))
  }

  /** The run is started, and the worker loads it. */
  lemma {:induction false} Loading(t0: int, c: Claims) returns (t: Story)
    ensures Reached(t, Loaded(t0), c)
    ensures forall id :: id in Loaded(t0).used <==> 0 < id <= 2
  {
    OpenedState(t0);
    RowsIds(Opened(t0), 0);
    RowsInOrder(Opened(t0));
    var seen := Rows(Opened(t0), 0);
    OpenIsSafe(AtStart(t0), seen);
    t := Opening(t0, c);
    t := ThenBegin(t, AtStart(t0), seen, c);
  }

  lemma {:induction false} ThenRead(t: Story, sc: Scene, c: Claims) returns (next: Story)
    requires Reached(t, sc, c)
    ensures Reached(next, sc.(loaded := sc.loaded + {Rows(sc.log, 0)}), c)
  {
    next := Then(t, sc, Read, sc.(loaded := sc.loaded + {Rows(sc.log, 0)}), c);
  }

  /** What the worker builds from what it has seen; the events carry the identifiers after `after`. */
  function BatchFrom(seen: seq<Event>, at: int, after: nat): seq<Event> {
    Rows(At(Work(CoreOf(seen, RUN)), at), after)
  }

  function Built(sc: Scene, seen: seq<Event>, at: int, after: nat): Scene {
    var batch := BatchFrom(seen, at, after);
    sc.(used := sc.used + Ids(batch), phase := Ticking(seen, {RUN}, Some(Offer(RUN, WORK, batch))))
  }

  /** A worker that sees the run ready builds its batch. */
  lemma {:induction false} ThenBuild(t: Story, sc: Scene, seen: seq<Event>, at: int, after: nat, c: Claims)
      returns (next: Story)
    requires Reached(t, sc, c) && sc.phase == Ticking(seen, {}, None)
    requires Ready(CoreOf(seen, RUN)) && forall id :: id in sc.used ==> id <= after
    ensures Reached(next, Built(sc, seen, at, after), c) && t.worlds <= next.worlds
  {
    ReadyBuilds(CoreOf(seen, RUN));
    RowsIds(At(Work(CoreOf(seen, RUN)), at), after);
    var batch := BatchFrom(seen, at, after);
    assert Builds(SETUP, WorldOf(sc), sc.phase, AGENT, RUN, WORK, batch);
    next := Then(t, sc, Build(AGENT, RUN, WORK, batch), Built(sc, seen, at, after), c);
  }

  /** The batch is accepted right after the last revision. */
  lemma {:induction false} ThenAttempt(t: Story, sc: Scene, batch: seq<Entry>, c: Claims) returns (next: Story)
    requires Reached(t, sc, c) && sc.phase.Ticking? && sc.phase.offer == Some(Offer(RUN, WORK, Rows(batch, |sc.log|)))
    ensures Reached(next, sc.(log := sc.log + batch), c) && t.worlds <= next.worlds
  {
    RowsAppend(sc.log, batch);
    next := Then(t, sc, Attempt(AGENT, |sc.log|, Healthy), sc.(log := sc.log + batch), c);
  }

  function Ended(sc: Scene): Scene {
    sc.(phase := Idle, adrift := sc.adrift + Outstanding(AGENT, sc.phase))
  }

  lemma {:induction false} ThenEnd(t: Story, sc: Scene, c: Claims) returns (next: Story)
    requires Reached(t, sc, c)
    ensures Reached(next, Ended(sc), c)
  {
    next := Then(t, sc, EndTick(AGENT), Ended(sc), c);
  }

  /** A batch that was given up is accepted right after the last revision. */
  lemma {:induction false} ThenSurface(t: Story, sc: Scene, lost: Proposal, batch: seq<Entry>, c: Claims)
      returns (next: Story)
    requires Reached(t, sc, c) && !c.surfaces
    requires lost in sc.adrift && lost.offer.run == RUN && lost.offer.batch == Rows(batch, |sc.log|)
    ensures Reached(next, sc.(log := sc.log + batch), c)
  {
    RowsAppend(sc.log, batch);
    next := Then(t, sc, Surface(lost, |sc.log|), sc.(log := sc.log + batch), c);
  }

  function Extended(sc: Scene, more: seq<Entry>): Scene {
    sc.(log := sc.log + more, used := sc.used + Ids(Rows(more, |sc.log|)))
  }

  /** A control operation appends its batch right after the last revision. */
  lemma {:induction false} ControlLands(sc: Scene, more: seq<Entry>)
    requires forall id :: id in sc.used ==> !(|sc.log| < id <= |sc.log| + |more|)
    ensures Controls(WorldOf(sc), WorldOf(Extended(sc, more)), RUN, Rows(more, |sc.log|))
  {
    RowsAppend(sc.log, more);
    RowsIds(more, |sc.log|);
  }

  /** The run is paused by an operation that has read the log as it is. */
  lemma {:induction false} ThenPause(t: Story, sc: Scene, at: int, c: Claims) returns (next: Story)
    requires Reached(t, sc, c) && Rows(sc.log, 0) in sc.loaded && Bare(sc.log) == Starting() && 3 !in sc.used
    ensures Reached(next, Extended(sc, At([PAUSE], at)), c)
  {
    var more := At([PAUSE], at);
    assert |Bare(sc.log)| == |sc.log| == 2;
    ControlLands(sc, more);
    BareConcat(sc.log, more);
    StreamViews(sc.log, sc.log + more);
    RowsStream(sc.log);
    next := Then(t, sc, ChangeStatus(RUN, Rows(sc.log, 0), Paused, "manual pause", Rows(more, 2)),
                 Extended(sc, more), c);
  }

  lemma {:induction false} PausedView(decided: seq<Entry>)
    requires Bare(decided) == Starting() + [PAUSE]
    ensures |decided| == 3 && O.FromStream(Stream(Rows(decided, 0), RUN)) == O.StreamView(Paused, ASSIGNED)
  {
    assert |Bare(decided)| == |decided| == 3 && Bare(decided)[..2] == Starting();
    assert Bare(decided[..2]) == Starting();
    StreamViews(decided[..2], decided);
  }

  lemma {:induction false} RetryIsNext(sc: Scene, decided: seq<Entry>, at: int)
    requires Rows(decided, 0) in sc.loaded && Bare(decided) == Starting() + [PAUSE]
    requires forall id :: id in sc.used ==> !(|sc.log| < id <= |sc.log| + 2)
    ensures Next(SETUP, WorldOf(sc), RetryRun(RUN, Rows(decided, 0), [ITEM], Same, Rows(At(Retry(), at), |sc.log|)),
                 WorldOf(Extended(sc, At(Retry(), at))))
  {
    ControlLands(sc, At(Retry(), at));
    PausedView(decided);
    assert Orchestrator.Enumerates([ITEM], ASSIGNED);
  }

  /** The run is retried by an operation that has read the paused run; atomic if nothing came in between. */
  lemma {:induction false} ThenRetry(t: Story, sc: Scene, decided: seq<Entry>, at: int, c: Claims) returns (next: Story)
    requires Reached(t, sc, c) && (c.retries ==> decided == sc.log)
    requires Rows(decided, 0) in sc.loaded && Bare(decided) == Starting() + [PAUSE]
    requires forall id :: id in sc.used ==> !(|sc.log| < id <= |sc.log| + 2)
    ensures Reached(next, Extended(sc, At(Retry(), at)), c)
  {
    var more := At(Retry(), at);
    RetryIsNext(sc, decided, at);
    next := Then(t, sc, RetryRun(RUN, Rows(decided, 0), [ITEM], Same, Rows(more, |sc.log|)), Extended(sc, more), c);
  }
}
