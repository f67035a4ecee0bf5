/** The orchestrator's replay of one stream, used to decide control operations. */
module OrchestratorReplay {
  import opened Events
  import opened Log

  datatype StreamView = StreamView(status: RunStatus, items: Items)

  function Apply(v: StreamView, p: Payload): StreamView {
    match p
    case RunStarted(_, _) => v.(status := Running)
    case RunStatusChanged(_, status, _) => v.(status := status)
    case WorkItemAssigned(_, item, agent) => v.(items := v.items[item := Item(Assigned, Some(agent))])
    case WorkItemStarted(_, item, agent) => v.(items := v.items[item := Item(InProgress, Some(agent))])
    case WorkItemCompleted(_, item, _, _) => v.(items := v.items[item := Item(Done, AgentOf(v.items, item))])
    case WorkItemFailed(_, item, _) => v.(items := v.items[item := Item(Failed, AgentOf(v.items, item))])
    case BlockerEncountered(_, item, _) =>
      v.(items := v.items[item := Item(Stuck, AgentOf(v.items, item))], status := Blocked)
    case RunCompleted(_, _) => v.(status := Completed)
    case _ => v
  }

  function FromStream(stream: seq<Event>): StreamView {
    if stream == [] then StreamView(Pending, map[])
    else Apply(FromStream(Front(stream)), Last(stream).payload)
  }

  function ApplyAll(v: StreamView, ps: seq<Payload>): StreamView {
    if ps == [] then v else Apply(ApplyAll(v, Front(ps)), Last(ps))
  }

  /** Further events of a stream apply their payloads to what the stream gave before. */
  lemma {:induction false} FromLongerStream(stream: seq<Event>, events: seq<Event>)
    ensures FromStream(stream + events) == ApplyAll(FromStream(stream), Payloads(events))
  {
    if events == [] {
      assert stream + events == stream;
    } else {
      FromLongerStream(stream, Front(events));
      assert Front(stream + events) == stream + Front(events);
      assert Front(Payloads(events)) == Payloads(Front(events));
    }
  }

  class RunReplayState {
    var status: RunStatus
    var workItems: Items

    ghost function View(): StreamView
      reads this
    {
      StreamView(status, workItems)
    }

    constructor FromEvents(events: seq<Event>)
      ensures View() == FromStream(events)
    {
      status, workItems := Pending, map[];
      new;
      for k := 0 to |events|
        invariant View() == FromStream(events[..k])
      {
        assert Front(events[..k + 1]) == events[..k];
        match events[k].payload {
          case RunStarted(_, _) =>
            status := Running;
          case RunStatusChanged(_, changed, _) =>
            status := changed;
          case WorkItemAssigned(_, item, agent) =>
            workItems := workItems[item := Item(Assigned, Some(agent))];
          case WorkItemStarted(_, item, agent) =>
            workItems := workItems[item := Item(InProgress, Some(agent))];
          case WorkItemCompleted(_, item, _, _) =>
            workItems := workItems[item := Item(Done, AgentOf(workItems, item))];
          case WorkItemFailed(_, item, _) =>
            workItems := workItems[item := Item(Failed, AgentOf(workItems, item))];
          case BlockerEncountered(_, item, _) =>
            workItems := workItems[item := Item(Stuck, AgentOf(workItems, item))];
            status := Blocked;
          case RunCompleted(_, _) =>
            status := Completed;
          case _ =>
        }
      }
      assert events[..|events|] == events;
    }
  }
}
