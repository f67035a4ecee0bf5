/** What an execution produces, and the events a worker writes for it. */
module Harness {
  import opened Events

  /** The executor's answer: an error, or a result that may itself report failure. */
  datatype Outcome =
    | Crashed(reason: string)
    | Executed(success: bool, effort: int, cost: real, error: Option<string>)

  predicate Succeeds(o: Outcome) {
    o.Executed? && o.success
  }

  /** Half of an effort, rounded down, but at least 1. */
  predicate Halved(effort: int, half: int) {
    if effort < 2 then half == 1 else 2 * half <= effort < 2 * half + 2
  }

  function ChunkEffort(effort: int): (chunk: int)
    ensures Halved(effort, chunk)
  {
    if effort / 2 < 1 then 1 else effort / 2
  }

  /** A worker writes its own identifier into the started event, whoever the item was assigned to. */
  function ItemStarted(worker: Uuid, run: Uuid, item: Uuid, revision: int, agent: Uuid, id: Uuid, at: int): Event {
    Event(id, at, agent, run, revision, WorkItemStarted(run, item, worker))
  }

  function ItemCompleted(run: Uuid, item: Uuid, revision: int, effort: int, cost: real, agent: Uuid, id: Uuid,
                         at: int): Event {
    Event(id, at, agent, run, revision, WorkItemCompleted(run, item, effort, cost))
  }

  function ProgressChunk(run: Uuid, item: Uuid, revision: int, effort: int, cost: real, agent: Uuid, id: Uuid,
                         at: int): Event {
    Event(id, at, agent, run, revision, ProgressChunkEmitted(run, item, effort, cost))
  }

  function ItemFailed(worker: Uuid, run: Uuid, item: Uuid, revision: int, reason: string, id: Uuid, at: int): Event {
    Event(id, at, worker, run, revision, WorkItemFailed(run, item, reason))
  }

  function Complete(worker: Uuid, run: Uuid, revision: int, completedItems: nat, id: Uuid, at: int): Event {
    Event(id, at, worker, run, revision, RunCompleted(run, completedItems))
  }

  /** The payloads of one execution, in order. */
  function ExecutionPayloads(worker: Uuid, run: Uuid, item: Uuid, o: Outcome): seq<Payload> {
    match o
    case Crashed(reason) => [WorkItemFailed(run, item, reason)]
    case Executed(true, effort, cost, _) =>
      [WorkItemStarted(run, item, worker), WorkItemCompleted(run, item, effort, cost),
       ProgressChunkEmitted(run, item, ChunkEffort(effort), cost / 2.0)]
    case Executed(false, _, _, error) =>
      [WorkItemStarted(run, item, worker),
       WorkItemFailed(run, item, if error.Some? then error.value else "executor failed")]
  }

  /** Events numbered from `revision`, identified from `id`, all in the stream of `run`. */
  ghost predicate Sequenced(events: seq<Event>, run: Uuid, revision: int, id: Uuid) {
    forall k :: 0 <= k < |events| ==>
      && events[k].resourceId == run
      && events[k].revision == revision + k
      && events[k].id == id + k
      && RunOf(events[k]) == Some(run)
  }

  /**
   * What is reported of an execution: a start by the worker; then, of a success, a completion with its effort
   * and cost and a chunk of half of each; and of a failure, its reason.
   */
  ghost predicate Reported(out: seq<Event>, worker: Uuid, run: Uuid, item: Uuid, agent: Uuid, result: Outcome)
    requires result.Executed?
  {
    && |out| == (if result.success then 3 else 2)
    && out[0].payload == WorkItemStarted(run, item, worker) && out[0].actorId == agent
    && var p := out[1].payload;
       if result.success then
         var chunk := out[2].payload;
         && p == WorkItemCompleted(run, item, result.effort, result.cost)
         && chunk.ProgressChunkEmitted? && chunk.runId == run && chunk.itemId == item
         && Halved(result.effort, chunk.effort) && 2.0 * chunk.cost == result.cost
         && out[1].actorId == out[2].actorId == agent
       else
         && p.WorkItemFailed? && p.runId == run && p.itemId == item
         && (result.error.Some? ==> p.reason == result.error.value)
         && (result.error.None? ==> p.reason == "executor failed")
         && out[1].actorId == worker
  }

  /** `events_for_execution`, for an execution that did not crash. */
  method EventsForExecution(worker: Uuid, run: Uuid, item: Uuid, from: int, agent: Uuid, result: Outcome,
                            firstId: Uuid, at: int)
      returns (out: seq<Event>)
    requires result.Executed?
    ensures Payloads(out) == ExecutionPayloads(worker, run, item, result)
    ensures Sequenced(out, run, from, firstId) && Timed(out, at)
    ensures out != [] && out[0].actorId == agent && Reported(out, worker, run, item, agent, result)
  {
    var revision, id := from, firstId;
    out := [ItemStarted(worker, run, item, revision, agent, id, at)];
    revision, id := revision + 1, id + 1;
    if result.success {
      out := out + [ItemCompleted(run, item, revision, result.effort, result.cost, agent, id, at)];
      revision, id := revision + 1, id + 1;
      out := out + [ProgressChunk(run, item, revision, ChunkEffort(result.effort), result.cost / 2.0, agent, id, at)];
    } else {
      var reason := if result.error.Some? then result.error.value else "executor failed";
      out := out + [ItemFailed(worker, run, item, revision, reason, id, at)];
    }
  }
}
