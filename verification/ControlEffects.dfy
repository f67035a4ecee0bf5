/** What the batches of the control operations do to a run, in every replay. */
module ControlEffects {
  import opened Events
  import opened Log
  import O = OrchestratorReplay
  import opened WorkerReplay
  import opened Planner
  import opened Dispatcher
  import opened Orchestrator

  // ---- Retry -----------------------------------------------------------------------------------

  /** The items after the assignments of a retry decided on `decided`. */
  function Reassigned(items: Items, decided: Items, order: seq<Uuid>, newAgent: Uuid -> Uuid): Items {
    if order == [] then items
    else Reassigned(items, decided, Front(order), newAgent)
         [Last(order) := Item(Assigned, Some(RetryAgent(decided, Last(order), newAgent)))]
  }

  lemma {:induction false} ReassignedItem(items: Items, decided: Items, order: seq<Uuid>, newAgent: Uuid -> Uuid,
                                          item: Uuid)
    ensures var after := Reassigned(items, decided, order, newAgent);
            if item in order then
              item in after && after[item] == Item(Assigned, Some(RetryAgent(decided, item, newAgent)))
            else (item in after <==> item in items) && (item in items ==> after[item] == items[item])
  {
    if order != [] {
      ReassignedItem(items, decided, Front(order), newAgent, item);
      assert order == Front(order) + [Last(order)];
    }
  }

  lemma {:induction false} AssignmentsOnWorker(c: Core, run: Uuid, decided: Items, order: seq<Uuid>,
                                               newAgent: Uuid -> Uuid)
    ensures ApplyAll(c, Assignments(run, decided, order, newAgent))
            == c.(items := Reassigned(c.items, decided, order, newAgent))
  {
    if order != [] {
      AssignmentsOnWorker(c, run, decided, Front(order), newAgent);
      assert Front(Assignments(run, decided, order, newAgent)) == Assignments(run, decided, Front(order), newAgent);
    }
  }

  lemma {:induction false} RetryOnWorker(c: Core, run: Uuid, decided: Items, order: seq<Uuid>, newAgent: Uuid -> Uuid)
    ensures ApplyAll(c, RetryPayloads(run, decided, order, newAgent))
         == c.(status := Running, items := Reassigned(c.items, decided, order, newAgent))
  {
    var head := RunStatusChanged(run, Running, "manual retry");
    ApplyAllConcat(c, [head], Assignments(run, decided, order, newAgent));
    assert Front([head]) == [];
    assert ApplyAll(c, [head]) == Apply(c, head);
    AssignmentsOnWorker(Apply(c, head), run, decided, order, newAgent);
  }

  lemma {:induction false} AssignmentsOnStream(v: O.StreamView, run: Uuid, decided: Items, order: seq<Uuid>,
                                               newAgent: Uuid -> Uuid)
    ensures O.ApplyAll(v, Assignments(run, decided, order, newAgent))
            == v.(items := Reassigned(v.items, decided, order, newAgent))
  {
    if order != [] {
      AssignmentsOnStream(v, run, decided, Front(order), newAgent);
      assert Front(Assignments(run, decided, order, newAgent)) == Assignments(run, decided, Front(order), newAgent);
    }
  }

  lemma {:induction false} RetryOnStream(stream: seq<Event>, events: seq<Event>, run: Uuid, decided: Items,
                                         order: seq<Uuid>, newAgent: Uuid -> Uuid)
    requires Payloads(events) == RetryPayloads(run, decided, order, newAgent)
    ensures O.FromStream(stream + events)
         == O.StreamView(Running, Reassigned(O.FromStream(stream).items, decided, order, newAgent))
  {
    assert |Payloads(events)| == |events| > 0;
    var first := stream + [events[0]];
    assert Front(first) == stream;
    assert first + events[1..] == stream + events;
    assert Payloads(events[1..]) == Assignments(run, decided, order, newAgent);
    O.FromLongerStream(first, events[1..]);
    AssignmentsOnStream(O.FromStream(first), run, decided, order, newAgent);
  }

  /**
   * A retry that landed on the stream it was decided on: the run is running again, no item is gained
   * or lost, the completed ones are untouched, and every other one is assigned, to its former agent
   * whenever it had one. This holds for every order in which the items come up.
   */
  lemma {:induction false} RetryRestores(stream: seq<Event>, events: seq<Event>, run: Uuid, order: seq<Uuid>,
                                         newAgent: Uuid -> Uuid)
    requires Enumerates(order, O.FromStream(stream).items)
    requires Payloads(events) == RetryPayloads(run, O.FromStream(stream).items, order, newAgent)
    ensures var before, after := O.FromStream(stream), O.FromStream(stream + events);
            && after.status == Running
            && after.items.Keys == before.items.Keys
            && forall item :: item in before.items ==>
                 && (before.items[item].status == Done ==> after.items[item] == before.items[item])
                 && (before.items[item].status != Done ==> after.items[item].status == Assigned)
                 && (before.items[item].status != Done && before.items[item].agent.Some? ==>
                       after.items[item].agent == before.items[item].agent)
                 && (before.items[item].status != Done && before.items[item].agent.None? ==>
                       after.items[item].agent == Some(newAgent(item)))
  {
    var before := O.FromStream(stream);
    RetryOnStream(stream, events, run, before.items, order, newAgent);
    forall item ensures var after := Reassigned(before.items, before.items, order, newAgent);
      if Unfinished(before.items, item) then
        item in after && after[item] == Item(Assigned, Some(RetryAgent(before.items, item, newAgent)))
      else (item in after <==> item in before.items) && (item in before.items ==> after[item] == before.items[item])
    {
      ReassignedItem(before.items, before.items, order, newAgent, item);
    }
  }

  /**
   * A retry decided on an older state of the run undoes a completion exactly when some item that was
   * unfinished then has been completed since. The revision check does not look at this.
   */
  lemma {:induction false} StaleRetryUndoes(c: Core, run: Uuid, decided: Items, order: seq<Uuid>,
                                            newAgent: Uuid -> Uuid)
    requires Enumerates(order, decided)
    ensures var after := ApplyAll(c, RetryPayloads(run, decided, order, newAgent));
            (exists item :: item in c.items && c.items[item].status == Done
                            && !(item in after.items && after.items[item].status == Done))
            <==> (exists item :: Unfinished(decided, item) && item in c.items && c.items[item].status == Done)
  {
    var after := ApplyAll(c, RetryPayloads(run, decided, order, newAgent));
    RetryOnWorker(c, run, decided, order, newAgent);
    forall item | item in c.items && c.items[item].status == Done
      ensures Unfinished(decided, item) <==> !(item in after.items && after.items[item].status == Done)
    {
      ReassignedItem(c.items, decided, order, newAgent, item);
    }
  }

  // ---- Start -----------------------------------------------------------------------------------

  predicate DistinctItems(dealt: seq<WorkItem>) {
    forall i, j :: 0 <= i < j < |dealt| ==> dealt[i].id != dealt[j].id
  }

  /** A supply of identifiers that never repeats. */
  ghost predicate Injective(supply: nat -> Uuid) {
    forall i: nat, j: nat :: i < j ==> supply(i) != supply(j)
  }

  lemma {:induction false} DealtApart(dealt: seq<WorkItem>, newId: nat -> Uuid)
    requires Injective(newId) && forall k :: 0 <= k < |dealt| ==> dealt[k].id == newId(k)
    ensures DistinctItems(dealt)
  {
    forall i, j | 0 <= i < j < |dealt| ensures dealt[i].id != dealt[j].id {
      assert dealt[i].id == newId(i) && dealt[j].id == newId(j);
    }
  }

  lemma {:induction false} DealtEvenly(items: seq<WorkItem>, agentCount: Option<U16>, fallback: Uuid,
                                       newAgent: nat -> Uuid, a: nat, b: nat)
    requires Injective(newAgent) && a < ResolveAgentCount(agentCount) && b < ResolveAgentCount(agentCount)
    ensures var dealt := AssignItems(items, DefaultAgents(agentCount, newAgent), fallback);
            Load(dealt, newAgent(a)) <= Load(dealt, newAgent(b)) + 1
  {
    var agents := DefaultAgents(agentCount, newAgent);
    assert agents[a] == newAgent(a) && agents[b] == newAgent(b);
    if a <= b {
      DispatchIsBalanced(items, agents, fallback, a, b);
    } else {
      DispatchIsBalanced(items, agents, fallback, b, a);
    }
  }

  /**
   * What a start deals out: different items that carry all the words of the objective in order, no more of
   * them than the target and no fewer than it takes, the first ones to the agents in order, and with the loads
   * of any two agents at most one apart.
   */
  lemma {:induction false} StartedRunIsBalanced(run: Uuid, objective: string, target: Option<U16>,
                                                agentCount: Option<U16>, fallback: Uuid, newId: nat -> Uuid,
                                                newAgent: nat -> Uuid, a: nat, b: nat)
    requires Injective(newId) && Injective(newAgent)
    requires a < ResolveAgentCount(agentCount) && b < ResolveAgentCount(agentCount)
    ensures var dealt := Dealt(run, objective, target, agentCount, fallback, newId, newAgent);
            && 1 <= |dealt| <= ResolveTargetItemCount(target)
            && DistinctItems(dealt) && (forall k :: 0 <= k < |dealt| ==> dealt[k].agent.Some? && dealt[k].runId == run)
            && Flatten(WordsOf(dealt)) == Words(objective)
            && (if Words(objective) == [] then |dealt| == if ResolveTargetItemCount(target) < 4 then
                    ResolveTargetItemCount(target) else 4
                else Split(|Words(objective)|, ResolveTargetItemCount(target), WordsOf(dealt)))
            && (a < |dealt| ==> dealt[a].id == newId(a) && dealt[a].agent == Some(newAgent(a)))
            && Load(dealt, newAgent(a)) <= Load(dealt, newAgent(b)) + 1
  {
    var items := Decompose(run, objective, ResolveTargetItemCount(target), newId);
    var dealt := AssignItems(items, DefaultAgents(agentCount, newAgent), fallback);
    DecomposeLosesNothing(run, objective, ResolveTargetItemCount(target), newId);
    DealtApart(dealt, newId);
    if a < |items| {
      DealtInTurn(items, DefaultAgents(agentCount, newAgent), fallback, a);
    }
    DealtEvenly(items, agentCount, fallback, newAgent, a, b);
    assert WordsOf(dealt) == WordsOf(items);
  }

  function StartedItems(dealt: seq<WorkItem>): Items {
    if dealt == [] then map[] else StartedItems(Front(dealt))[Last(dealt).id := Item(Assigned, Last(dealt).agent)]
  }

  lemma {:induction false} StartOnWorker(run: Uuid, workspace: Uuid, objective: string, dealt: seq<WorkItem>)
    requires forall k :: 0 <= k < |dealt| ==> dealt[k].agent.Some?
    ensures ApplyAll(BLANK.core, StartPayloads(run, workspace, objective, dealt))
         == Core(workspace, Running, 0.0, 0, StartedItems(dealt))
  {
    var ps := StartPayloads(run, workspace, objective, dealt);
    if dealt == [] {
      assert Front(ps) == [];
      assert ApplyAll(BLANK.core, ps) == Apply(BLANK.core, ps[0]);
    } else {
      StartOnWorker(run, workspace, objective, Front(dealt));
      assert Front(ps) == StartPayloads(run, workspace, objective, Front(dealt));
    }
  }

  lemma {:induction false} StartedItem(dealt: seq<WorkItem>, item: Uuid)
    ensures item in StartedItems(dealt) <==> exists k :: 0 <= k < |dealt| && dealt[k].id == item
    ensures item in StartedItems(dealt) ==> StartedItems(dealt)[item].status == Assigned
    ensures (forall k :: 0 <= k < |dealt| ==> dealt[k].agent.Some?) && item in StartedItems(dealt) ==>
              StartedItems(dealt)[item].agent.Some?
  {
    if dealt != [] {
      StartedItem(Front(dealt), item);
      if Last(dealt).id == item {
        assert dealt[|dealt| - 1].id == item;
      } else if item in StartedItems(Front(dealt)) {
        var k :| 0 <= k < |Front(dealt)| && Front(dealt)[k].id == item;
        assert dealt[k].id == item;
      } else {
        assert forall k :: 0 <= k < |Front(dealt)| ==> Front(dealt)[k].id != item;
        assert forall k :: 0 <= k < |dealt| - 1 ==> dealt[k] == Front(dealt)[k];
      }
    }
  }

  lemma {:induction false} StartedAgent(dealt: seq<WorkItem>, k: nat)
    requires DistinctItems(dealt) && k < |dealt|
    ensures dealt[k].id in StartedItems(dealt) && StartedItems(dealt)[dealt[k].id] == Item(Assigned, dealt[k].agent)
  {
    if k < |dealt| - 1 {
      assert dealt[k] == Front(dealt)[k];
      StartedAgent(Front(dealt), k);
    }
  }

  lemma {:induction false} StartedCount(dealt: seq<WorkItem>)
    requires DistinctItems(dealt)
    ensures |StartedItems(dealt)| == |dealt|
  {
    if dealt != [] {
      StartedCount(Front(dealt));
      var front, last := StartedItems(Front(dealt)), Last(dealt).id;
      StartedItem(Front(dealt), last);
      assert last !in front;
      assert StartedItems(dealt).Keys == front.Keys + {last};
      assert |StartedItems(dealt)| == |StartedItems(dealt).Keys| && |front| == |front.Keys|;
    }
  }

  /** A start on a fresh run is always accepted, as revisions 1 to n+1 of its stream. */
  lemma {:induction false} StartIsWellFormed(log: seq<Event>, run: Uuid, workspace: Uuid, objective: string,
                                             dealt: seq<WorkItem>,
                                             events: seq<Event>, firstId: Uuid)
    requires WellKept(log) && Stream(log, run) == []
    requires forall k :: 0 <= k < |dealt| ==> dealt[k].agent.Some?
    requires Payloads(events) == StartPayloads(run, workspace, objective, dealt)
    requires ControlBatch(events, run, NextRevision(Stream(log, run)), firstId)
    requires Ids(events) !! Ids(log)
    ensures Accepts(log, run, events) && WellKept(Appended(log, run, events))
    ensures Stream(Appended(log, run, events), run) == Stamp(events, run) && |events| == |dealt| + 1
    ensures forall k :: 0 <= k < |events| ==> events[k].revision == k + 1
  {
    ControlIdsDiffer(events, run, 1, firstId);
    UnmovedStreamAccepts(log, log, run, events);
    AppendKeepsLog(log, run, events);
    AppendExtendsStream(log, run, events, run);
    assert |Payloads(events)| == |events|;
  }

  /** It replays to a running run with exactly the dealt items, each assigned to the agent it was dealt to. */
  lemma {:induction false} StartReplays(log: seq<Event>, run: Uuid, workspace: Uuid, objective: string,
                                        dealt: seq<WorkItem>,
                                        events: seq<Event>)
    requires !Mentions(log, run) && Accepts(log, run, events)
    requires forall k :: 0 <= k < |dealt| ==> dealt[k].agent.Some?
    requires DistinctItems(dealt)
    requires Payloads(events) == StartPayloads(run, workspace, objective, dealt)
    ensures var c := CoreOf(Appended(log, run, events), run);
            && c == Core(workspace, Running, 0.0, 0, StartedItems(dealt))
            && |c.items| == |dealt|
            && forall k :: 0 <= k < |dealt| ==>
                dealt[k].id in c.items && c.items[dealt[k].id] == Item(Assigned, dealt[k].agent)
  {
    var rows := Stamp(events, run);
    assert |Payloads(events)| == |events| && Payloads(rows) == Payloads(events);
    forall k | 0 <= k < |rows| ensures RunOf(rows[k]) == Some(run) {
      assert rows[k].payload == Payloads(events)[k];
    }
    ReplayBatch(log, rows, run, run);
    UnmentionedIsBlank(log, run);
    StartOnWorker(run, workspace, objective, dealt);
    StartedCount(dealt);
    forall k | 0 <= k < |dealt|
      ensures dealt[k].id in StartedItems(dealt) && StartedItems(dealt)[dealt[k].id] == Item(Assigned, dealt[k].agent)
    {
      StartedAgent(dealt, k);
    }
  }
}
