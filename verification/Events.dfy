/** The event vocabulary: envelopes, payloads and the status names they carry. */
module Events {

  datatype Option<+T> = None | Some(value: T)

  /** A UUID. Only equality matters, so identifiers are numbers; `NIL` is the nil UUID. */
  type Uuid = nat
  const NIL: Uuid := 0

  /** The status strings written on a run; `Other` stands for any further string. */
  datatype RunStatus =
    | Pending
    | Running
    | Paused
    | Cancelled
    | Blocked
    | Completed
    | Other(text: string)

  /** The status strings of a work item: "", "unassigned", "assigned", "running", "completed", "failed", "blocked". */
  datatype ItemStatus = Unset | Unassigned | Assigned | InProgress | Done | Failed | Stuck

  datatype Payload =
    | WorkspaceCreated(name: string)
    | AgentProfileCreated(name: string, role: string, costCap: real)
    | RunStarted(workspaceId: Uuid, objective: string)
    | RunStatusChanged(runId: Uuid, status: RunStatus, reason: string)
    | WorkItemAssigned(runId: Uuid, itemId: Uuid, agentId: Uuid)
    | WorkItemStarted(runId: Uuid, itemId: Uuid, agentId: Uuid)
    | WorkItemCompleted(runId: Uuid, itemId: Uuid, effort: int, cost: real)
    | WorkItemFailed(runId: Uuid, itemId: Uuid, reason: string)
    | ProgressChunkEmitted(runId: Uuid, itemId: Uuid, effort: int, cost: real)
    | BlockerEncountered(runId: Uuid, itemId: Uuid, reason: string)
    | RunCompleted(runId: Uuid, completedItems: nat)

  datatype Event = Event(
    id: Uuid, occurredAt: int, actorId: Uuid, resourceId: Uuid, revision: int, payload: Payload)

  /** The run an event is about, if any: a `RunStarted` names it by its stream, the others in the payload. */
  function RunOf(e: Event): Option<Uuid> {
    match e.payload
    case RunStarted(_, _) => Some(e.resourceId)
    case WorkspaceCreated(_) => None
    case AgentProfileCreated(_, _, _) => None
    case _ => Some(e.payload.runId)
  }

  predicate NamesItem(p: Payload) {
    p.WorkItemAssigned? || p.WorkItemStarted? || p.WorkItemCompleted? || p.WorkItemFailed?
    || p.BlockerEncountered?
  }

  function Payloads(events: seq<Event>): (ps: seq<Payload>)
    ensures |ps| == |events|
    ensures forall k :: 0 <= k < |events| ==> ps[k] == events[k].payload
  {
    seq(|events|, k requires 0 <= k < |events| => events[k].payload)
  }

  /** One clock reading for all of them. */
  ghost predicate Timed(events: seq<Event>, at: int) {
    forall k :: 0 <= k < |events| ==> events[k].occurredAt == at
  }

  /** A work item as the replays keep it: status and, if one is known, agent. */
  datatype Item = Item(status: ItemStatus, agent: Option<Uuid>)
  type Items = map<Uuid, Item>

  function AgentOf(items: Items, item: Uuid): Option<Uuid> {
    if item in items then items[item].agent else None
  }
}
