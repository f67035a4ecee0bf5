/** The worker's replay of the whole log into one in-memory state per run. */
module WorkerReplay {
  import opened Events
  import opened Log

  /** What a run's events determine, apart from the bookkeeping of the last event seen. */
  datatype Core = Core(workspaceId: Uuid, status: RunStatus, cost: real, effort: int, items: Items)

  datatype RunView = RunView(core: Core, latest: int, updatedAt: int)

  function Apply(c: Core, p: Payload): Core {
    match p
    case RunStarted(workspaceId, _) => c.(workspaceId := workspaceId, status := Running)
    case RunStatusChanged(_, status, _) => c.(status := status)
    case WorkItemAssigned(_, item, agent) => c.(items := c.items[item := Item(Assigned, Some(agent))])
    case WorkItemStarted(_, item, agent) => c.(items := c.items[item := Item(InProgress, Some(agent))])
    case WorkItemCompleted(_, item, effort, cost) =>
      c.(items := c.items[item := Item(Done, AgentOf(c.items, item))],
         cost := c.cost + cost, effort := c.effort + effort)
    case WorkItemFailed(_, item, _) =>
      c.(items := c.items[item := Item(Failed, AgentOf(c.items, item))], status := Blocked)
    case ProgressChunkEmitted(_, _, effort, cost) => c.(cost := c.cost + cost, effort := c.effort + effort)
    case RunCompleted(_, _) => c.(status := Completed)
    case BlockerEncountered(_, _, _) => c.(status := Blocked)
    case _ => c
  }

  function Max(a: int, b: int): int { if a < b then b else a }

  function Step(v: RunView, e: Event): RunView {
    RunView(Apply(v.core, e.payload), Max(v.latest, e.revision), e.occurredAt)
  }

  const BLANK := RunView(Core(NIL, Pending, 0.0, 0, map[]), 0, 0)

  /** What the replay of `log` holds for one run. */
  function View(log: seq<Event>, run: Uuid): RunView {
    if log == [] then BLANK
    else if RunOf(Last(log)) == Some(run) then Step(View(Front(log), run), Last(log))
    else View(Front(log), run)
  }

  function CoreOf(log: seq<Event>, run: Uuid): Core {
    View(log, run).core
  }

  predicate Mentions(log: seq<Event>, run: Uuid) {
    exists k :: 0 <= k < |log| && RunOf(log[k]) == Some(run)
  }

  function ApplyAll(c: Core, ps: seq<Payload>): Core {
    if ps == [] then c else Apply(ApplyAll(c, Front(ps)), Last(ps))
  }

  /** One run as the worker keeps it in memory. */
  class RunState {
    var workspaceId: Uuid
    var status: RunStatus
    var totalCost: real
    var effortPoints: int
    var latestRevision: int
    var updatedAt: int
    var items: Items

    constructor (at: int)
      ensures Current() == BLANK.(updatedAt := at)
    {
      workspaceId, status, totalCost, effortPoints := NIL, Pending, 0.0, 0;
      latestRevision, updatedAt, items := 0, at, map[];
    }

    ghost function Memory(): Core
      reads this
    {
      Core(workspaceId, status, totalCost, effortPoints, items)
    }

    ghost function Current(): RunView
      reads this
    {
      RunView(Memory(), latestRevision, updatedAt)
    }

    method Absorb(e: Event)
      modifies this
      ensures Current() == Step(old(Current()), e)
    {
      latestRevision := Max(latestRevision, e.revision);
      updatedAt := e.occurredAt;
      match e.payload {
        case RunStarted(workspace, _) =>
          workspaceId := workspace;
          status := Running;
        case WorkItemAssigned(_, item, agent) =>
          items := items[item := Item(Assigned, Some(agent))];
        case WorkItemStarted(_, item, agent) =>
          items := items[item := Item(InProgress, Some(agent))];
        case WorkItemCompleted(_, item, effort, cost) =>
          items := items[item := Item(Done, AgentOf(items, item))];
          totalCost := totalCost + cost;
          effortPoints := effortPoints + effort;
        case WorkItemFailed(_, item, _) =>
          items := items[item := Item(Failed, AgentOf(items, item))];
          status := Blocked;
        case ProgressChunkEmitted(_, _, effort, cost) =>
          totalCost := totalCost + cost;
          effortPoints := effortPoints + effort;
        case RunStatusChanged(_, changed, _) =>
          status := changed;
        case RunCompleted(_, _) =>
          status := Completed;
        case BlockerEncountered(_, _, _) =>
          status := Blocked;
        case _ =>
      }
    }
  }

  ghost predicate Separate(states: map<Uuid, RunState>) {
    forall a, b :: a in states && b in states && a != b ==> states[a] != states[b]
  }

  /** `run_states_from_events`: one pass over the log, one state per run it mentions. */
  method RunStatesFromEvents(events: seq<Event>) returns (states: map<Uuid, RunState>)
    ensures (forall run :: run in states ==> fresh(states[run])) && Separate(states)
    ensures forall run: Uuid :: run in states <==> Mentions(events, run)
    ensures forall run :: run in states ==> states[run].Current() == View(events, run)
  {
    states := map[];
    for k := 0 to |events|
      invariant (forall run :: run in states ==> fresh(states[run])) && Separate(states)
      invariant forall run: Uuid :: run in states <==> Mentions(events[..k], run)
      invariant forall run :: run in states ==> states[run].Current() == View(events[..k], run)
    {
      var e := events[k];
      MentionsNext(events, k);
      assert Front(events[..k + 1]) == events[..k];
      match RunOf(e) {
        case None =>
        case Some(run) =>
          if run !in states {
            var state := new RunState(e.occurredAt);
            states := states[run := state];
            UnmentionedIsBlank(events[..k], run);
          }
          states[run].Absorb(e);
      }
    }
    assert events[..|events|] == events;
  }

  lemma {:induction false} MentionsNext(events: seq<Event>, k: nat)
    requires k < |events|
    ensures forall run: Uuid ::
              Mentions(events[..k + 1], run) <==> Mentions(events[..k], run) || RunOf(events[k]) == Some(run)
  {
    forall run: Uuid | Mentions(events[..k], run) || RunOf(events[k]) == Some(run)
      ensures Mentions(events[..k + 1], run)
    {
      if Mentions(events[..k], run) {
        var j :| 0 <= j < k && RunOf(events[..k][j]) == Some(run);
        assert RunOf(events[..k + 1][j]) == Some(run);
      } else {
        assert RunOf(events[..k + 1][k]) == Some(run);
      }
    }
    forall run: Uuid | Mentions(events[..k + 1], run) && RunOf(events[k]) != Some(run)
      ensures Mentions(events[..k], run)
    {
      var j :| 0 <= j < k + 1 && RunOf(events[..k + 1][j]) == Some(run);
      assert RunOf(events[..k][j]) == Some(run);
    }
  }

  lemma {:induction false} UnmentionedIsBlank(log: seq<Event>, run: Uuid)
    requires !Mentions(log, run)
    ensures View(log, run) == BLANK
  {
    if log != [] {
      assert RunOf(log[|log| - 1]) != Some(run);
      forall k | 0 <= k < |Front(log)| ensures RunOf(Front(log)[k]) != Some(run) {
        assert RunOf(log[k]) != Some(run);
      }
      UnmentionedIsBlank(Front(log), run);
    }
  }

  lemma {:induction false} ApplyAllConcat(c: Core, a: seq<Payload>, b: seq<Payload>)
    ensures ApplyAll(c, a + b) == ApplyAll(ApplyAll(c, a), b)
  {
    if b == [] {
      assert a + b == a;
    } else {
      assert Front(a + b) == a + Front(b);
      ApplyAllConcat(c, a, Front(b));
    }
  }

  /** Events about one run, or about no run at all. */
  ghost predicate AllAbout(events: seq<Event>, run: Uuid) {
    forall k :: 0 <= k < |events| ==> RunOf(events[k]) in {Some(run), None}
  }

  /** Appending a batch about one run applies its payloads to that run and leaves every other run alone. */
  lemma {:induction false} ReplayBatch(log: seq<Event>, batch: seq<Event>, home: Uuid, run: Uuid)
    requires AllAbout(batch, home)
    ensures CoreOf(log + batch, run)
         == if run == home then ApplyAll(CoreOf(log, run), Payloads(batch)) else CoreOf(log, run)
  {
    if batch == [] {
      assert log + batch == log;
    } else {
      ReplayBatch(log, Front(batch), home, run);
      assert Front(log + batch) == log + Front(batch);
      assert Front(Payloads(batch)) == Payloads(Front(batch));
    }
  }
}
