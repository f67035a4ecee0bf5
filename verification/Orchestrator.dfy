/** The control operations: start, pause, resume, cancel and retry. */
module Orchestrator {
  import opened Events
  import opened Log
  import opened EventStore
  import OrchestratorReplay
  import opened Planner
  import Dispatcher

  /** How a control operation ends; only `Unchanged` and `Applied` are not errors. */
  datatype Reply = NotFound | Unchanged | Applied | Errored

  /**
   * What happens around a control operation: whether its two reads fail, what others write after the
   * first read and after the second, and what the connection does to its append.
   */
  datatype Circumstances = Circumstances(
    firstReadFails: bool, first: seq<Write>, secondReadFails: bool, second: seq<Write>, link: Link)

  predicate Unfinished(items: Items, item: Uuid) {
    item in items && items[item].status != Done
  }

  /** An order in which the unfinished items of a hash map may come up. */
  ghost predicate Enumerates(order: seq<Uuid>, items: Items) {
    && (forall i, j :: 0 <= i < j < |order| ==> order[i] != order[j])
    && (forall item :: item in order <==> Unfinished(items, item))
  }

  /** The former agent, or a new one if there was none. */
  function RetryAgent(items: Items, item: Uuid, newAgent: Uuid -> Uuid): Uuid {
    if AgentOf(items, item).Some? then AgentOf(items, item).value else newAgent(item)
  }

  function Assignments(run: Uuid, items: Items, order: seq<Uuid>, newAgent: Uuid -> Uuid): (ps: seq<Payload>)
    ensures |ps| == |order|
  {
    seq(|order|, k requires 0 <= k < |order| => WorkItemAssigned(run, order[k], RetryAgent(items, order[k], newAgent)))
  }

  function RetryPayloads(run: Uuid, items: Items, order: seq<Uuid>, newAgent: Uuid -> Uuid): seq<Payload> {
    [RunStatusChanged(run, Running, "manual retry")] + Assignments(run, items, order, newAgent)
  }

  function StartPayloads(run: Uuid, workspace: Uuid, objective: string, dealt: seq<WorkItem>): seq<Payload>
    requires forall k :: 0 <= k < |dealt| ==> dealt[k].agent.Some?
  {
    [RunStarted(workspace, objective)]
    + seq(|dealt|, k requires 0 <= k < |dealt| => WorkItemAssigned(run, dealt[k].id, dealt[k].agent.value))
  }

  /** The idle agents made for a run, at least one. */
  function DefaultAgents(requested: Option<U16>, newAgent: nat -> Uuid): (agents: seq<Uuid>)
    ensures |agents| == ResolveAgentCount(requested) && 1 <= |agents| <= MAX_AGENTS
    ensures forall k :: 0 <= k < |agents| ==> agents[k] == newAgent(k)
  {
    seq(ResolveAgentCount(requested), k requires 0 <= k => newAgent(k))
  }

  /** The items a start deals out: the objective decomposed, then assigned to freshly made agents. */
  function Dealt(run: Uuid, objective: string, target: Option<U16>, agentCount: Option<U16>, fallback: Uuid,
                 newId: nat -> Uuid, newAgent: nat -> Uuid): (dealt: seq<WorkItem>)
    ensures forall k :: 0 <= k < |dealt| ==> dealt[k].agent.Some? && dealt[k].runId == run && dealt[k].id == newId(k)
  {
    var items := Decompose(run, objective, ResolveTargetItemCount(target), newId);
    Dispatcher.AssignItems(items, DefaultAgents(agentCount, newAgent), fallback)
  }

  /** A batch of a control operation: consecutive revisions and identifiers, all in one stream. */
  ghost predicate ControlBatch(events: seq<Event>, run: Uuid, revision: int, id: Uuid) {
    forall k :: 0 <= k < |events| ==>
      events[k].resourceId == run && events[k].revision == revision + k && events[k].id == id + k
  }

  lemma {:induction false} ControlIdsDiffer(events: seq<Event>, run: Uuid, revision: int, id: Uuid)
    requires ControlBatch(events, run, revision, id)
    ensures UniqueIds(events)
  {
  }

  class Orchestrator {
    const store: PostgresEventStore

    constructor (store: PostgresEventStore)
      ensures this.store == store
    {
      this.store := store;
    }

    method ReadNextRevision(resource: Uuid) returns (revision: int)
      requires store.Valid()
      ensures revision == NextRevision(Stream(store.log, resource))
    {
      var events := store.Load(resource);
      revision := if events == [] then 1 else Last(events).revision + 1;
    }

    /**
     * `start_run` on a fresh run identifier; `newId` and `newAgent` supply the identifiers of the items
     * and of the agents.
     */
    method StartRun(run: Uuid, workspace: Uuid, objective: string, target: Option<U16>, agentCount: Option<U16>,
                    fallback: Uuid, newId: nat -> Uuid, newAgent: nat -> Uuid, readFails: bool, between: seq<Write>,
                    link: Link, firstId: Uuid, at: int)
        returns (reply: Reply, events: seq<Event>)
      requires store.Valid()
      modifies store
      ensures store.Valid()
      ensures Launched(old(store.log), store.log, run, workspace, objective,
                       Dealt(run, objective, target, agentCount, fallback, newId, newAgent),
                       readFails, between, link, firstId, at, reply, events)
    {
      events := [];
      if readFails {
        return Errored, events;
      }
      var revision := ReadNextRevision(run);
      var dealt := Dealt(run, objective, target, agentCount, fallback, newId, newAgent);
      events := Announce(run, workspace, objective, dealt, revision, firstId, at);
      LetOthersWrite(store, between);
      assert |Payloads(events)| == |events|;
      var ok := store.Append(run, events, link);
      reply := if ok then Applied else Errored;
    }

    /**
     * `pause_run`, `resume_run` and `cancel_run`. The stream is read twice, with other writers at
     * work in between; only the second read is protected by the revision check.
     */
    method ChangeStatus(run: Uuid, status: RunStatus, reason: string, c: Circumstances, id: Uuid, at: int)
        returns (reply: Reply, events: seq<Event>)
      requires store.Valid()
      modifies store
      ensures store.Valid()
      ensures StatusChanged(old(store.log), store.log, run, status, reason, c, id, at, reply, events)
    {
      events := [];
      if c.firstReadFails {
        return Errored, events;
      }
      var stream := store.Load(run);
      if stream == [] {
        return NotFound, events;
      }
      var current := new OrchestratorReplay.RunReplayState.FromEvents(stream);
      if current.status == status {
        return Unchanged, events;
      }
      LetOthersWrite(store, c.first);
      if c.secondReadFails {
        return Errored, events;
      }
      var revision := ReadNextRevision(run);
      LetOthersWrite(store, c.second);
      events := [Event(id, at, run, run, revision, RunStatusChanged(run, status, reason))];
      var ok := store.Append(run, events, c.link);
      reply := if ok then Applied else Errored;
    }

    /** `pause_run`. */
    method PauseRun(run: Uuid, c: Circumstances, id: Uuid, at: int) returns (reply: Reply, events: seq<Event>)
      requires store.Valid()
      modifies store
      ensures store.Valid()
      ensures StatusChanged(old(store.log), store.log, run, Paused, "manual pause", c, id, at, reply, events)
    {
      reply, events := ChangeStatus(run, Paused, "manual pause", c, id, at);
    }

    /** `resume_run`. */
    method ResumeRun(run: Uuid, c: Circumstances, id: Uuid, at: int) returns (reply: Reply, events: seq<Event>)
      requires store.Valid()
      modifies store
      ensures store.Valid()
      ensures StatusChanged(old(store.log), store.log, run, Running, "manual resume", c, id, at, reply, events)
    {
      reply, events := ChangeStatus(run, Running, "manual resume", c, id, at);
    }

    /** `cancel_run`. */
    method CancelRun(run: Uuid, c: Circumstances, id: Uuid, at: int) returns (reply: Reply, events: seq<Event>)
      requires store.Valid()
      modifies store
      ensures store.Valid()
      ensures StatusChanged(old(store.log), store.log, run, Cancelled, "manual cancel", c, id, at, reply, events)
    {
      reply, events := ChangeStatus(run, Cancelled, "manual cancel", c, id, at);
    }

    /** `retry_run`: decide on one read of the stream, number from a second, append under the revision check. */
    method RetryRun(run: Uuid, newAgent: Uuid -> Uuid, c: Circumstances, firstId: Uuid, at: int)
        returns (reply: Reply, order: seq<Uuid>, events: seq<Event>)
      requires store.Valid()
      modifies store
      ensures store.Valid()
      ensures Retried(old(store.log), store.log, run, newAgent, c, firstId, at, reply, order, events)
    {
      order, events := [], [];
      if c.firstReadFails {
        return Errored, order, events;
      }
      var stream := store.Load(run);
      if stream == [] {
        return NotFound, order, events;
      }
      var view := new OrchestratorReplay.RunReplayState.FromEvents(stream);
      if view.status == Running || view.status == Completed {
        return Unchanged, order, events;
      }
      LetOthersWrite(store, c.first);
      if c.secondReadFails {
        return Errored, order, events;
      }
      var revision := ReadNextRevision(run);
      order, events := Reassign(view.workItems, run, newAgent, revision, firstId, at);
      if order == [] {
        return Unchanged, order, events;
      }
      LetOthersWrite(store, c.second);
      var ok := store.Append(run, events, c.link);
      reply := if ok then Applied else Errored;
    }
  }

  /** What a start makes of the log, and what it replies. */
  ghost predicate Launched(before: seq<Event>, after: seq<Event>, run: Uuid, workspace: Uuid, objective: string,
                           dealt: seq<WorkItem>, readFails: bool, between: seq<Write>, link: Link, firstId: Uuid,
                           at: int, reply: Reply, events: seq<Event>)
    requires forall k :: 0 <= k < |dealt| ==> dealt[k].agent.Some?
  {
    if readFails then reply == Errored && after == before
    else
      var now := AfterWrites(before, between);
      && Payloads(events) == StartPayloads(run, workspace, objective, dealt)
      && ControlBatch(events, run, NextRevision(Stream(before, run)), firstId) && Timed(events, at)
      && after == Submitted(now, run, events, link)
      && reply == if link.Healthy? && Accepts(now, run, events) then Applied else Errored
  }

  /** What a status change makes of the log, and what it replies. */
  ghost predicate StatusChanged(before: seq<Event>, after: seq<Event>, run: Uuid, status: RunStatus, reason: string,
                                c: Circumstances, id: Uuid, at: int, reply: Reply, events: seq<Event>) {
    var read := AfterWrites(before, c.first);
    var now := AfterWrites(read, c.second);
    var stream := Stream(before, run);
    if c.firstReadFails then reply == Errored && after == before
    else if stream == [] then reply == NotFound && after == before
    else if OrchestratorReplay.FromStream(stream).status == status then reply == Unchanged && after == before
    else if c.secondReadFails then reply == Errored && after == read
    else
      && Payloads(events) == [RunStatusChanged(run, status, reason)]
      && ControlBatch(events, run, NextRevision(Stream(read, run)), id) && Timed(events, at)
      && after == Submitted(now, run, events, c.link)
      && reply == if c.link.Healthy? && Accepts(now, run, events) then Applied else Errored
  }

  /** What a retry makes of the log, and what it replies. */
  ghost predicate Retried(before: seq<Event>, after: seq<Event>, run: Uuid, newAgent: Uuid -> Uuid, c: Circumstances,
                          firstId: Uuid, at: int, reply: Reply, order: seq<Uuid>, events: seq<Event>) {
    var read := AfterWrites(before, c.first);
    var now := AfterWrites(read, c.second);
    var stream := Stream(before, run);
    var view := OrchestratorReplay.FromStream(stream);
    if c.firstReadFails then reply == Errored && after == before
    else if stream == [] then reply == NotFound && after == before
    else if view.status == Running || view.status == Completed then reply == Unchanged && after == before
    else if c.secondReadFails then reply == Errored && after == read
    else
      && Enumerates(order, view.items)
      && if order == [] then reply == Unchanged && after == read
         else
           && Payloads(events) == RetryPayloads(run, view.items, order, newAgent)
           && ControlBatch(events, run, NextRevision(Stream(read, run)), firstId) && Timed(events, at)
           && after == Submitted(now, run, events, c.link)
           && reply == if c.link.Healthy? && Accepts(now, run, events) then Applied else Errored
  }

  /** The loop of `start_run` over the assigned items. */
  method Announce(run: Uuid, workspace: Uuid, objective: string, dealt: seq<WorkItem>, from: int, firstId: Uuid,
                  at: int)
      returns (events: seq<Event>)
    requires forall k :: 0 <= k < |dealt| ==> dealt[k].agent.Some?
    ensures Payloads(events) == StartPayloads(run, workspace, objective, dealt)
    ensures ControlBatch(events, run, from, firstId) && Timed(events, at)
    ensures |events| == |dealt| + 1 && events[0].payload == RunStarted(workspace, objective)
    ensures forall k :: 0 <= k < |dealt| ==>
              events[k + 1].payload == WorkItemAssigned(run, dealt[k].id, dealt[k].agent.value)
  {
    events := [Event(firstId, at, run, run, from, RunStarted(workspace, objective))];
    var revision := from + 1;
    for k := 0 to |dealt|
      invariant |events| == k + 1 && revision == from + |events|
      invariant ControlBatch(events, run, from, firstId) && Timed(events, at)
      invariant events[0].payload == RunStarted(workspace, objective)
      invariant forall j :: 0 <= j < k ==>
              events[j + 1].payload == WorkItemAssigned(run, dealt[j].id, dealt[j].agent.value)
    {
      events := events + [Event(firstId + |events|, at, run, run, revision,
                                WorkItemAssigned(run, dealt[k].id, dealt[k].agent.value))];
      revision := revision + 1;
    }
  }

  /** The loop of `retry_run` over its hash map of items, in whatever order that comes. */
  method Reassign(items: Items, run: Uuid, newAgent: Uuid -> Uuid, revision: int, firstId: Uuid, at: int)
      returns (order: seq<Uuid>, events: seq<Event>)
    ensures Enumerates(order, items)
    ensures Payloads(events) == RetryPayloads(run, items, order, newAgent)
    ensures ControlBatch(events, run, revision, firstId) && Timed(events, at)
    ensures |events| == |order| + 1 && events[0].payload == RunStatusChanged(run, Running, "manual retry")
    ensures forall k :: 0 <= k < |order| ==>
              var p := events[k + 1].payload;
              && p.WorkItemAssigned? && p.runId == run && p.itemId == order[k]
              && (AgentOf(items, order[k]).Some? ==> Some(p.agentId) == AgentOf(items, order[k]))
              && (AgentOf(items, order[k]).None? ==> p.agentId == newAgent(order[k]))
  {
    order := [];
    events := [Event(firstId, at, run, run, revision, RunStatusChanged(run, Running, "manual retry"))];
    var left := items.Keys;
    while left != {}
      invariant left <= items.Keys
      invariant forall i, j :: 0 <= i < j < |order| ==> order[i] != order[j]
      invariant forall item :: item in order <==> Unfinished(items, item) && item !in left
      invariant |events| == |order| + 1
      invariant ControlBatch(events, run, revision, firstId) && Timed(events, at)
      invariant events[0].payload == RunStatusChanged(run, Running, "manual retry")
      invariant forall k :: 0 <= k < |order| ==>
                  events[k + 1].payload == WorkItemAssigned(run, order[k], RetryAgent(items, order[k], newAgent))
      decreases left
    {
      var item :| item in left;
      left := left - {item};
      if items[item].status != Done {
        events := events + [Event(firstId + |events|, at, run, run, revision + |events|,
                                  WorkItemAssigned(run, item, RetryAgent(items, item, newAgent)))];
        order := order + [item];
      }
    }
  }
}
