/**
 * What a load of the whole log shows. `load_all` sorts by time, and a batch that was rebased keeps the
 * times it was built with, so a load may show an item or a run in an older state than the commit
 * order does. What it shows is settled, exactly, by the latest event on the matter.
 */
module LoadOrder {
  import opened Events
  import opened Log
  import opened EventStore
  import opened WorkerReplay
  import opened Rebuild
  import opened Agreement

  /** What the code keeps of any log, whatever the interleaving. */
  ghost predicate Kept(log: seq<Event>) {
    WellKept(log) && Housed(log) && Unblocked(log)
  }

  predicate Finished(items: Items, item: Uuid) {
    item in items && items[item].status == Done
  }

  lemma {:induction false} LoadedHoused(log: seq<Event>, all: seq<Event>)
    requires Housed(log) && IsLoad(log, all)
    ensures Housed(all)
    ensures Unblocked(log) ==> Unblocked(all)
  {
    forall k | 0 <= k < |all|
      ensures RunOf(all[k]).Some? ==> all[k].resourceId == RunOf(all[k]).value
      ensures Unblocked(log) ==> !all[k].payload.BlockerEncountered?
    {
      assert all[k] in multiset(log);
      var j :| 0 <= j < |log| && log[j] == all[k];
    }
  }

  lemma {:induction false} LoadedMembers(log: seq<Event>, all: seq<Event>)
    requires IsLoad(log, all)
    ensures forall e :: e in all <==> e in log
  {
    forall e ensures e in all <==> e in log {
      assert e in all <==> e in multiset(all);
      assert e in log <==> e in multiset(log);
    }
  }

  // ---- Streams whose times follow their revisions --------------------------------------------------

  /** A run's replays depend on its stream alone. */
  lemma {:induction false} ReplayIsLocal(log: seq<Event>, run: Uuid)
    requires Housed(log)
    ensures View(log, run) == View(Stream(log, run), run)
    ensures RunRowOf(log, run) == RunRowOf(Stream(log, run), run)
  {
    if log != [] {
      ReplayIsLocal(Front(log), run);
      if Last(log).resourceId == run {
        assert Front(Stream(log, run)) == Stream(Front(log), run);
      } else {
        assert Stream(log, run) == Stream(Front(log), run);
      }
    }
  }

  /** Loading in time order changes no replay of a run whose timestamps follow its revisions. */
  lemma {:induction false} LoadOrderIsHarmless(log: seq<Event>, all: seq<Event>, run: Uuid)
    requires WellKept(log) && Housed(log) && IsLoad(log, all)
    requires TimesNeverDecrease(Stream(log, run))
    ensures Stream(all, run) == Stream(log, run)
    ensures View(all, run) == View(log, run) && RunRowOf(all, run) == RunRowOf(log, run)
  {
    LoadedHoused(log, all);
    TimeOrderIsRevisionOrder(log, all, run);
    ReplayIsLocal(log, run);
    ReplayIsLocal(all, run);
  }

  // ---- The last word on an item or on a run's status ---------------------------------------------

  /** A matter on which the last event decides what the worker's replay shows. */
  datatype Topic = ItemTopic(run: Uuid, item: Uuid) | StatusTopic(run: Uuid)

  predicate On(t: Topic, e: Event) {
    match t
    case ItemTopic(run, item) => Names(e.payload, item) && e.payload.runId == run
    case StatusTopic(run) => RunOf(e) == Some(run) && SetsWorkerStatus(e.payload)
  }

  function LastOn(log: seq<Event>, t: Topic): (last: Option<Event>)
    ensures last.Some? ==> On(t, last.value)
  {
    if log == [] then None else if On(t, Last(log)) then Some(Last(log)) else LastOn(Front(log), t)
  }

  /** The latest event on a topic, by time and then by revision. */
  ghost predicate IsLatest(log: seq<Event>, t: Topic, e: Event) {
    e in log && On(t, e) && forall x :: x in log && On(t, x) ==> NotAfter(x, e)
  }

  function StatusSetBy(p: Payload): RunStatus
    requires SetsWorkerStatus(p)
  {
    match p
    case RunStarted(_, _) => Running
    case RunStatusChanged(_, status, _) => status
    case RunCompleted(_, _) => Completed
    case _ => Blocked
  }

  lemma {:induction false} LastOnIsOn(log: seq<Event>, t: Topic)
    ensures LastOn(log, t).Some? ==> LastOn(log, t).value in log
    ensures LastOn(log, t).None? ==> forall x :: x in log ==> !On(t, x)
  {
    if log != [] {
      assert log == Front(log) + [Last(log)];
      LastOnIsOn(Front(log), t);
    }
  }

  lemma {:induction false} LastWordOnItem(log: seq<Event>, run: Uuid, item: Uuid)
    requires Unblocked(log)
    ensures var last := LastOn(log, ItemTopic(run, item));
            StatusOf(CoreOf(log, run).items, item)
            == if last.Some? then Some(ItemStep(None, last.value.payload).status) else None
  {
    if log != [] {
      assert Last(log) == log[|log| - 1];
      LastOnIsOn(log, ItemTopic(run, item));
      LastWordOnItem(Front(log), run, item);
    }
  }

  lemma {:induction false} LastWordOnStatus(log: seq<Event>, run: Uuid)
    ensures var last := LastOn(log, StatusTopic(run));
            CoreOf(log, run).status
            == if last.Some? then StatusSetBy(last.value.payload) else Pending
  {
    if log != [] {
      LastWordOnStatus(Front(log), run);
    }
  }

  /** In load order, whatever comes earlier is not after the last event on a topic. */
  lemma {:induction false} LastIsLatestOn(all: seq<Event>, t: Topic)
    requires InLoadOrder(all) && LastOn(all, t).Some?
    ensures IsLatest(all, t, LastOn(all, t).value)
  {
    assert all == Front(all) + [Last(all)];
    if On(t, Last(all)) {
      forall x | x in all && On(t, x) ensures NotAfter(x, Last(all)) {
        LastIsLatest(all, x);
      }
    } else {
      LastIsLatestOn(Front(all), t);
    }
  }

  lemma {:induction false} RevisionNamesEvent(log: seq<Event>, x: Event, y: Event)
    requires WellKept(log) && x in log && y in log && x.resourceId == y.resourceId && x.revision == y.revision
    ensures x == y
  {
    var s := Stream(log, x.resourceId);
    var i :| 0 <= i < |log| && log[i] == x;
    var j :| 0 <= j < |log| && log[j] == y;
    StreamHasAll(log, x.resourceId, i);
    StreamHasAll(log, x.resourceId, j);
    var k :| 0 <= k < |s| && s[k] == x;
    var l :| 0 <= l < |s| && s[l] == y;
    assert s[k].revision == k + 1 && s[l].revision == l + 1;
  }

  /** A load shows, on every topic, exactly the latest event of the log. */
  lemma {:induction false} LoadShowsLatest(log: seq<Event>, all: seq<Event>, t: Topic, e: Event)
    requires WellKept(log) && Housed(log) && IsLoad(log, all)
    ensures LastOn(all, t) == Some(e) <==> IsLatest(log, t, e)
  {
    LoadedMembers(log, all);
    LastOnIsOn(all, t);
    if LastOn(all, t).Some? {
      LastIsLatestOn(all, t);
      var last := LastOn(all, t).value;
      if IsLatest(log, t, e) {
        OneHome(log, t, e);
        OneHome(log, t, last);
        assert NotAfter(e, last) && NotAfter(last, e);
        RevisionNamesEvent(log, e, last);
      }
    }
  }

  lemma {:induction false} OneHome(log: seq<Event>, t: Topic, e: Event)
    requires Housed(log) && e in log && On(t, e)
    ensures e.resourceId == t.run
  {
    var k :| 0 <= k < |log| && log[k] == e;
    assert RunOf(log[k]) == Some(t.run);
  }

  /** The item's latest event is its completion. */
  ghost predicate CompletedLast(log: seq<Event>, run: Uuid, item: Uuid) {
    exists e :: IsLatest(log, ItemTopic(run, item), e) && e.payload.WorkItemCompleted?
  }

  /** A load shows an item as completed exactly when its latest event is its completion. */
  lemma {:induction false} LoadShowsFinished(log: seq<Event>, all: seq<Event>, run: Uuid, item: Uuid)
    requires Kept(log) && IsLoad(log, all)
    ensures Finished(CoreOf(all, run).items, item) <==> CompletedLast(log, run, item)
  {
    var t := ItemTopic(run, item);
    LoadedHoused(log, all);
    LastWordOnItem(all, run, item);
    LastOnIsOn(all, t);
    assert StatusOf(CoreOf(all, run).items, item) == Some(Done) <==> Finished(CoreOf(all, run).items, item);
    if LastOn(all, t).Some? {
      LoadShowsLatest(log, all, t, LastOn(all, t).value);
    }
    if CompletedLast(log, run, item) {
      var e :| IsLatest(log, t, e) && e.payload.WorkItemCompleted?;
      LoadShowsLatest(log, all, t, e);
    }
  }

  /** The item's latest event sets this status. */
  ghost predicate ShownAs(log: seq<Event>, run: Uuid, item: Uuid, status: ItemStatus) {
    exists e :: IsLatest(log, ItemTopic(run, item), e) && ItemStep(None, e.payload).status == status
  }

  /** A load shows an item in a status exactly when its latest event sets that status. */
  lemma {:induction false} LoadShowsItem(log: seq<Event>, all: seq<Event>, run: Uuid, item: Uuid, status: ItemStatus)
    requires Kept(log) && IsLoad(log, all)
    ensures StatusOf(CoreOf(all, run).items, item) == Some(status) <==> ShownAs(log, run, item, status)
  {
    var t := ItemTopic(run, item);
    LoadedHoused(log, all);
    LastWordOnItem(all, run, item);
    if LastOn(all, t).Some? {
      LoadShowsLatest(log, all, t, LastOn(all, t).value);
    }
    if ShownAs(log, run, item, status) {
      var e :| IsLatest(log, t, e) && ItemStep(None, e.payload).status == status;
      LoadShowsLatest(log, all, t, e);
    }
  }

  /** The run's latest status event sets it running, and there is one. */
  ghost predicate RunsLast(log: seq<Event>, run: Uuid) {
    exists e :: IsLatest(log, StatusTopic(run), e) && StatusSetBy(e.payload) == Running
  }

  /** A load shows a run as running exactly when its latest status event says so. */
  lemma {:induction false} LoadShowsRunning(log: seq<Event>, all: seq<Event>, run: Uuid)
    requires Kept(log) && IsLoad(log, all)
    ensures CoreOf(all, run).status == Running <==> RunsLast(log, run)
  {
    var t := StatusTopic(run);
    LastWordOnStatus(all, run);
    LastOnIsOn(all, t);
    if LastOn(all, t).Some? {
      LoadShowsLatest(log, all, t, LastOn(all, t).value);
    }
    if RunsLast(log, run) {
      var e :| IsLatest(log, t, e) && StatusSetBy(e.payload) == Running;
      LoadShowsLatest(log, all, t, e);
    }
  }

  // ---- Items and agents in any order ---------------------------------------------------------------

  lemma {:induction false} LoadKeepsKeys(log: seq<Event>, all: seq<Event>, run: Uuid)
    requires Housed(log) && Unblocked(log) && IsLoad(log, all)
    ensures CoreOf(all, run).items.Keys == CoreOf(log, run).items.Keys
  {
    LoadedHoused(log, all);
    LoadedMembers(log, all);
    forall i ensures i in CoreOf(all, run).items <==> i in CoreOf(log, run).items {
      LastWordOnItem(all, run, i);
      LastWordOnItem(log, run, i);
      LastOnIsOn(all, ItemTopic(run, i));
      LastOnIsOn(log, ItemTopic(run, i));
      assert i in CoreOf(all, run).items <==> StatusOf(CoreOf(all, run).items, i).Some?;
      assert i in CoreOf(log, run).items <==> StatusOf(CoreOf(log, run).items, i).Some?;
    }
  }

  /** An item whose last word is an assignment is assigned to the agent it names. */
  lemma {:induction false} LastAssignment(log: seq<Event>, run: Uuid, item: Uuid)
    requires Unblocked(log)
    ensures var last := LastOn(log, ItemTopic(run, item));
            last.Some? && last.value.payload.WorkItemAssigned? ==>
              AgentOf(CoreOf(log, run).items, item) == Some(last.value.payload.agentId)
  {
    if log != [] {
      assert Last(log) == log[|log| - 1];
      LastAssignment(Front(log), run, item);
    }
  }

  predicate Starts(e: Event, run: Uuid) {
    RunOf(e) == Some(run) && e.payload.RunStarted?
  }

  lemma {:induction false} WorkspaceIsStarted(log: seq<Event>, run: Uuid)
    ensures (forall e :: e in log ==> !Starts(e, run)) ==> CoreOf(log, run).workspaceId == NIL
    ensures (exists e :: e in log && Starts(e, run)) ==>
              exists e :: e in log && Starts(e, run) && CoreOf(log, run).workspaceId == e.payload.workspaceId
  {
    if log != [] {
      assert log == Front(log) + [Last(log)];
      assert Last(log) in log && forall e :: e in Front(log) ==> e in log;
      WorkspaceIsStarted(Front(log), run);
    }
  }

  lemma {:induction false} OneStart(log: seq<Event>, run: Uuid, x: Event, y: Event)
    requires NeverRestarts(log, run) && x in log && y in log && Starts(x, run) && Starts(y, run)
    ensures x == y
  {
    assert log == Front(log) + [Last(log)];
    if Starts(Last(log), run) {
      forall e | e in Front(log) ensures RunOf(e) != Some(run) {
        var k :| 0 <= k < |Front(log)| && Front(log)[k] == e;
      }
    } else {
      OneStart(Front(log), run, x, y);
    }
  }

  /** Whatever the order, a load shows a run in the workspace it was started in. */
  lemma {:induction false} LoadKeepsWorkspace(log: seq<Event>, all: seq<Event>, run: Uuid)
    requires NeverRestarts(log, run) && IsLoad(log, all)
    ensures CoreOf(all, run).workspaceId == CoreOf(log, run).workspaceId
  {
    LoadedMembers(log, all);
    WorkspaceIsStarted(log, run);
    WorkspaceIsStarted(all, run);
    if x :| x in all && Starts(x, run) && CoreOf(all, run).workspaceId == x.payload.workspaceId {
      var y :| y in log && Starts(y, run) && CoreOf(log, run).workspaceId == y.payload.workspaceId;
      OneStart(log, run, x, y);
    }
  }

  predicate GivesAgent(e: Event, run: Uuid, item: Uuid) {
    On(ItemTopic(run, item), e) && (e.payload.WorkItemAssigned? || e.payload.WorkItemStarted?)
  }

  /** Whoever was ever given the item is the agent it has now. */
  ghost predicate AgentFixed(log: seq<Event>, run: Uuid, item: Uuid) {
    forall e :: e in log && GivesAgent(e, run, item) ==>
      AgentOf(CoreOf(log, run).items, item) == Some(e.payload.agentId)
  }

  lemma {:induction false} AgentWasGiven(log: seq<Event>, run: Uuid, item: Uuid)
    ensures var agent := AgentOf(CoreOf(log, run).items, item);
            agent.Some? ==> exists e :: e in log && GivesAgent(e, run, item) && e.payload.agentId == agent.value
    ensures (exists e :: e in log && GivesAgent(e, run, item)) ==> AgentOf(CoreOf(log, run).items, item).Some?
  {
    if log != [] {
      assert log == Front(log) + [Last(log)];
      AgentWasGiven(Front(log), run, item);
    }
  }

  lemma {:induction false} LoadKeepsAgent(log: seq<Event>, all: seq<Event>, run: Uuid, item: Uuid)
    requires IsLoad(log, all) && AgentFixed(log, run, item)
    ensures AgentOf(CoreOf(all, run).items, item) == AgentOf(CoreOf(log, run).items, item)
  {
    LoadedMembers(log, all);
    AgentWasGiven(log, run, item);
    AgentWasGiven(all, run, item);
  }
}
