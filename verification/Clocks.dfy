/** What happens where the clocks of two processes disagree: a load sorts by time, not by revision. */
module Clocks {
  import opened Events
  import opened Log
  import opened EventStore
  import opened WorkerReplay
  import opened LoadOrder
  import opened Harness
  import opened Tick
  import opened Protocol
  import ProtocolSoundness
  import Agreement
  import Rebuild
  import opened Scenes
  import O = OrchestratorReplay

  const NONE := Claims(false, false, false)

  /** A batch that follows the start in its stream, and comes before it in time. */
  function Backward(ps: seq<Payload>, t0: int, at: int): seq<Entry> {
    Opened(t0) + At(ps, at)
  }

  /** How a load shows it. */
  function Turned(ps: seq<Payload>, t0: int, at: int): seq<Event> {
    Rows(At(ps, at), 2) + Rows(Opened(t0), 0)
  }

  lemma {:induction false} TurnedIsLoad(ps: seq<Payload>, t0: int, at: int)
    requires at < t0
    ensures IsLoad(Rows(Backward(ps, t0, at), 0), Turned(ps, t0, at))
  {
    OpenedState(t0);
    RowsJoin(Opened(t0), At(ps, at));
    InOrderConcat(Rows(At(ps, at), 2), Rows(Opened(t0), 0));
  }

  /** Whatever comes before it, the start leaves the run running and its item assigned, as any start does. */
  lemma {:induction false} TurnedState(ps: seq<Payload>, t0: int, at: int)
    requires Proper(ps, RUN) && ApplyAll(BLANK.core, ps).items.Keys <= {ITEM}
    ensures Ready(CoreOf(Turned(ps, t0, at), RUN))
    ensures CoreOf(Turned(ps, t0, at), RUN).effort == ApplyAll(BLANK.core, ps).effort
  {
    var all, c := Turned(ps, t0, at), ApplyAll(BLANK.core, ps);
    var p, q := RunStarted(7, ""), WorkItemAssigned(RUN, ITEM, AGENT);
    StartEffect();
    Tick.PayloadsConcat(Rows(At(ps, at), 2), Rows(Opened(t0), 0));
    CoreOfEvents(all, RUN);
    ApplyAllConcat(BLANK.core, ps, Starting());
    assert Starting() == [p, q] && Front(Starting()) == [p] && Front([p]) == [];
    assert ApplyAll(c, [p]) == Apply(c, p) && ApplyAll(c, Starting()) == Apply(Apply(c, p), q);
    assert c.items[ITEM := Item(Assigned, Some(AGENT))] == ASSIGNED;
  }

  /** A pause or any later batch that comes before the start in time leaves the start the latest status event. */
  lemma {:induction false} StartIsLatest(ps: seq<Payload>, t0: int, at: int)
    requires at < t0
    ensures RunsLast(Rows(Backward(ps, t0, at), 0), RUN)
  {
    var log := Rows(Backward(ps, t0, at), 0);
    OpenedState(t0);
    assert log[0].payload == Starting()[0] && log[1].payload == Starting()[1];
    assert Starting()[1].WorkItemAssigned?;
    forall x | x in log && On(StatusTopic(RUN), x) ensures NotAfter(x, log[0]) {
      var k :| 0 <= k < |log| && log[k] == x && k != 1;
    }
    assert IsLatest(log, StatusTopic(RUN), log[0]);
  }

  /**
   * A pause that no load shows. A run is started, and then paused by a process whose clock is behind: the
   * orchestrator has it paused, every load shows it running, and the next tick executes its item.
   */
  lemma {:induction false} PauseGoesUnseen(t0: int, at: int) returns (worlds: seq<World>, steps: seq<Step>, paused: nat)
    requires at < t0
    ensures Trace(SETUP, worlds, steps) && paused < |worlds|
    ensures Payloads(worlds[paused].log) == Starting() + [PAUSE]
    ensures O.FromStream(Stream(worlds[paused].log, RUN)).status == Paused
    ensures forall all :: IsLoad(worlds[paused].log, all) ==> CoreOf(all, RUN).status == Running
    ensures Completions(Payloads(worlds[paused].log), RUN, ITEM) == 0
    ensures Completions(Payloads(Last(worlds).log), RUN, ITEM) == 1
  {
    var t, sc := UntilPaused(t0, at);
    worlds, steps, paused := t.worlds, t.steps, |t.worlds| - 1;
    var log := Rows(sc.log, 0);
    BareConcat(Opened(t0), At([PAUSE], at));
    PausedView(sc.log);
    StartIsLatest([PAUSE], t0, at);
    ProtocolSoundness.TraceIsSound(SETUP, worlds, steps, paused);
    forall all | IsLoad(log, all) ensures CoreOf(all, RUN).status == Running {
      LoadShowsRunning(log, all, RUN);
    }
    ControlCompletesNothing();
    CompletionsConcat(Starting(), [PAUSE], RUN, ITEM);
    t := ThenItemDone(t, sc, t0, at);
    worlds, steps := t.worlds, t.steps;
  }

  lemma {:induction false} UntilPaused(t0: int, at: int) returns (t: Story, sc: Scene)
    ensures Reached(t, sc, NONE) && sc.log == Backward([PAUSE], t0, at) && sc.phase == Idle
    ensures forall id :: id in sc.used ==> id <= 3
  {
    OpenedState(t0);
    RowsIds(Opened(t0), 0);
    RowsIds(At([PAUSE], at), 2);
    sc := AtStart(t0);
    t := Opening(t0, NONE);
    t := ThenRead(t, sc, NONE);
    sc := sc.(loaded := sc.loaded + {Rows(sc.log, 0)});
    t := ThenPause(t, sc, at, NONE);
    sc := Extended(sc, At([PAUSE], at));
  }

  /** The worker loads the paused run, and executes its item. */
  lemma {:induction false} ThenItemDone(t: Story, sc: Scene, t0: int, at: int) returns (next: Story)
    requires at < t0 && Reached(t, sc, NONE) && sc.log == Backward([PAUSE], t0, at) && sc.phase == Idle
    requires forall id :: id in sc.used ==> id <= 3
    ensures Trace(SETUP, next.worlds, next.steps) && t.worlds <= next.worlds
    ensures Completions(Payloads(Last(next.worlds).log), RUN, ITEM) == 1
  {
    var seen := Turned([PAUSE], t0, at);
    TurnedIsLoad([PAUSE], t0, at);
    PauseEffect(BLANK.core);
    TurnedState([PAUSE], t0, at);
    next := ThenBegin(t, sc, seen, NONE);
    var s := sc.(phase := Ticking(seen, {}, None));
    next := ThenBuild(next, s, seen, t0 + 1, 3, NONE);
    s := Built(s, seen, t0 + 1, 3);
    OpenedState(t0);
    var more := At(Work(CoreOf(seen, RUN)), t0 + 1);
    next := ThenAttempt(next, s, more, NONE);
    BareConcat(sc.log, more);
    BareConcat(Opened(t0), At([PAUSE], at));
    ReadyCompletes(CoreOf(seen, RUN));
    ControlCompletesNothing();
    CompletionsConcat(Starting(), [PAUSE], RUN, ITEM);
    CompletionsConcat(Starting() + [PAUSE], Work(CoreOf(seen, RUN)), RUN, ITEM);
  }

  lemma {:induction false} WorkIs()
    ensures Work(STARTED)
         == [WorkItemStarted(RUN, ITEM, AGENT), WorkItemCompleted(RUN, ITEM, 5, 1.0),
             ProgressChunkEmitted(RUN, ITEM, 2, 0.5), RunCompleted(RUN, 1)]
  {
    ReadyBuilds(STARTED);
    WorkLength(STARTED);
    assert Front(WORK) == [] && JobPayloads(AGENT, RUN, []) == [];
    assert JobPayloads(AGENT, RUN, WORK) == ExecutionPayloads(AGENT, RUN, ITEM, WORK[0].outcome);
    assert Work(STARTED) == JobPayloads(AGENT, RUN, WORK) + Closing(STARTED, RUN, WORK);
  }

  lemma {:induction false} WorkFromNothing()
    ensures ApplyAll(BLANK.core, Work(STARTED)).effort == 7
    ensures ApplyAll(BLANK.core, Work(STARTED)).items.Keys == {ITEM}
  {
    var ps := Work(STARTED);
    WorkIs();
    assert ps == [ps[0]] + [ps[1]] + [ps[2]] + [ps[3]];
    assert Front(ps) == [ps[0], ps[1], ps[2]] && Front(Front(ps)) == [ps[0], ps[1]];
    assert Front([ps[0], ps[1]]) == [ps[0]] && Front([ps[0]]) == [];
  }

  /** Whatever comes before its start, a rebuilt run holds nothing of it. */
  lemma {:induction false} RowStartsOver(ps: seq<Payload>, t0: int, at: int)
    ensures var row := Rebuild.RunRowOf(Turned(ps, t0, at), RUN); row.Some? && row.value.effort == 0
  {
    var all := Turned(ps, t0, at);
    OpenedState(t0);
    assert Last(all) == Rows(Opened(t0), 0)[1] && Last(Front(all)) == Rows(Opened(t0), 0)[0];
    assert Last(all).payload == Starting()[1] && Last(Front(all)).payload == Starting()[0];
    assert RunOf(Last(all)) == Some(RUN) && RunOf(Last(Front(all))) == Some(RUN);
  }

  /**
   * Work that no rebuild holds. A run is started, and a worker whose clock is behind completes its item:
   * on the same load, the worker's replay holds its effort and the rebuilt run holds none of it;
   * and the worker may take the item again.
   */
  lemma {:induction false} WorkGoesUncounted(t0: int, at: int)
      returns (worlds: seq<World>, steps: seq<Step>, all: seq<Event>)
    requires at < t0
    ensures Trace(SETUP, worlds, steps) && IsLoad(Last(worlds).log, all)
    ensures Payloads(Last(worlds).log) == Starting() + Work(STARTED)
    ensures Completions(Payloads(Last(worlds).log), RUN, ITEM) == 1
    ensures CoreOf(all, RUN).effort == Agreement.SumEffort(all, RUN) == 7
    ensures Rebuild.RunRowOf(all, RUN).Some? && Rebuild.RunRowOf(all, RUN).value.effort == 0
    ensures Workable(CoreOf(all, RUN)) && Eligible(CoreOf(all, RUN).items, AGENT, true, ITEM)
  {
    all := Turned(Work(STARTED), t0, at);
    OpenedState(t0);
    ReadyBuilds(STARTED);
    TurnedIsLoad(Work(STARTED), t0, at);
    WorkFromNothing();
    TurnedState(Work(STARTED), t0, at);
    Agreement.WorkerTotals(all, RUN);
    RowStartsOver(Work(STARTED), t0, at);
    var seen := Rows(Opened(t0), 0);
    var t := Loading(t0, NONE);
    t := ThenBuild(t, Loaded(t0), seen, at, 2, NONE);
    t := ThenAttempt(t, Built(Loaded(t0), seen, at, 2), At(Work(STARTED), at), NONE);
    worlds, steps := t.worlds, t.steps;
    BareConcat(Opened(t0), At(Work(STARTED), at));
    ReadyCompletes(STARTED);
    ControlCompletesNothing();
    CompletionsConcat(Starting(), Work(STARTED), RUN, ITEM);
  }
}
