/** One worker tick on one run: what it executes, what it remembers and what it writes. */
module Tick {
  import opened Events
  import opened Log
  import opened WorkerReplay
  import opened Harness

  datatype Job = Job(item: Uuid, outcome: Outcome)

  predicate AllDone(items: Items) {
    items != map[] && forall i :: i in items ==> items[i].status == Done
  }

  /** The runs a tick works on. */
  predicate Workable(c: Core) {
    c.workspaceId != NIL && c.status == Running && c.items != map[]
  }

  predicate Eligible(items: Items, worker: Uuid, affine: bool, item: Uuid) {
    item in items && items[item].status == Assigned && (affine ==> items[item].agent == Some(worker))
  }

  function SetStatus(items: Items, item: Uuid, status: ItemStatus): Items {
    if item in items then items[item := items[item].(status := status)] else items
  }

  /** The in-memory update after one execution. */
  function Note(c: Core, j: Job): Core {
    if Succeeds(j.outcome) then
      c.(items := SetStatus(c.items, j.item, Done), cost := c.cost + j.outcome.cost,
          effort := c.effort + j.outcome.effort,
         status := if c.status == Blocked then Blocked else Running)
    else
      c.(items := SetStatus(c.items, j.item, Failed), status := Blocked)
  }

  function NoteAll(c: Core, work: seq<Job>): Core {
    if work == [] then c else Note(NoteAll(c, Front(work)), Last(work))
  }

  /** The in-memory state once a fully completed run has been closed. */
  function Close(c: Core): Core {
    if AllDone(c.items) then c.(status := Completed) else c
  }

  /** Jobs a tick may take one after the other, each eligible in memory when it is picked. */
  predicate Legal(c: Core, worker: Uuid, affine: bool, work: seq<Job>) {
    work == []
    || (Legal(c, worker, affine, Front(work)) &&
        Eligible(NoteAll(c, Front(work)).items, worker, affine, Last(work).item))
  }

  /** Jobs a tick may take from a run, and had to take. */
  ghost predicate Taken(c: Core, agent: Uuid, affine: bool, maxItems: nat, work: seq<Job>) {
    && Legal(c, agent, affine, work) && |work| <= maxItems
    && (|work| < maxItems ==> forall i :: !Eligible(NoteAll(c, work).items, agent, affine, i))
  }

  function JobPayloads(worker: Uuid, run: Uuid, work: seq<Job>): seq<Payload> {
    if work == [] then []
    else JobPayloads(worker, run, Front(work)) + ExecutionPayloads(worker, run, Last(work).item, Last(work).outcome)
  }

  /** The whole batch: the jobs, and the completion event if memory says every item is done. */
  function BatchPayloads(c: Core, worker: Uuid, run: Uuid, work: seq<Job>): seq<Payload> {
    JobPayloads(worker, run, work) + Closing(c, run, work)
  }

  function Closing(c: Core, run: Uuid, work: seq<Job>): seq<Payload> {
    if AllDone(NoteAll(c, work).items) then [RunCompleted(run, |c.items|)] else []
  }

  /** Whether some execution came back with a result; a crash leaves the bookkeeping of the run alone. */
  predicate Heard(work: seq<Job>) {
    work != [] && (Last(work).outcome.Executed? || Heard(Front(work)))
  }

  /** The last revision in memory after some jobs numbered from `revision`: that of the last one with a result. */
  function RevisionAfter(latest: int, revision: int, worker: Uuid, run: Uuid, work: seq<Job>): int {
    if work == [] then latest
    else if Last(work).outcome.Executed? then revision + |JobPayloads(worker, run, work)| - 1
    else RevisionAfter(latest, revision, worker, run, Front(work))
  }

  lemma {:induction false} NoteAllKeys(c: Core, work: seq<Job>)
    ensures NoteAll(c, work).items.Keys == c.items.Keys
    ensures NoteAll(c, work).workspaceId == c.workspaceId
    ensures c.status != Completed ==> NoteAll(c, work).status != Completed
  {
    if work != [] {
      NoteAllKeys(c, Front(work));
    }
  }

  lemma {:induction false} SequencedConcat(a: seq<Event>, b: seq<Event>, run: Uuid, revision: int, id: Uuid)
    requires Sequenced(a, run, revision, id) && Sequenced(b, run, revision + |a|, id + |a|)
    ensures Sequenced(a + b, run, revision, id)
  {
  }

  lemma {:induction false} PayloadsConcat(a: seq<Event>, b: seq<Event>)
    ensures Payloads(a + b) == Payloads(a) + Payloads(b)
  {
  }

  /** What one execution does: the state in memory, and the events, numbered from `revision`. */
  ghost predicate OneJob(was: RunView, now: RunView, worker: Uuid, run: Uuid, job: Job, events: seq<Event>,
                         revision: int, id: Uuid, at: int) {
    && now.core == Note(was.core, job)
    && now.latest == (if job.outcome.Executed? then revision + |events| - 1 else was.latest)
    && now.updatedAt == (if job.outcome.Executed? then at else was.updatedAt)
    && Payloads(events) == ExecutionPayloads(worker, run, job.item, job.outcome)
    && Sequenced(events, run, revision, id) && Timed(events, at)
  }

  /** What a sequence of executions does. */
  ghost predicate AllJobs(was: RunView, now: RunView, worker: Uuid, affine: bool, run: Uuid, work: seq<Job>,
                          events: seq<Event>,
                          revision: int, id: Uuid, at: int) {
    && Legal(was.core, worker, affine, work)
    && now.core == NoteAll(was.core, work)
    && now.latest == RevisionAfter(was.latest, revision, worker, run, work)
    && now.updatedAt == (if Heard(work) then at else was.updatedAt)
    && Payloads(events) == JobPayloads(worker, run, work)
    && Sequenced(events, run, revision, id) && Timed(events, at)
  }

  lemma {:induction false} OneMoreJob(was: RunView, now: RunView, next: RunView, worker: Uuid, affine: bool, run: Uuid,
                                      work: seq<Job>,
                                      job: Job, events: seq<Event>, more: seq<Event>, revision: int, id: Uuid, at: int)
    requires AllJobs(was, now, worker, affine, run, work, events, revision, id, at)
    requires Eligible(now.core.items, worker, affine, job.item)
    requires OneJob(now, next, worker, run, job, more, revision + |events|, id + |events|, at)
    ensures AllJobs(was, next, worker, affine, run, work + [job], events + more, revision, id, at)
  {
    assert Front(work + [job]) == work && Last(work + [job]) == job;
    SequencedConcat(events, more, run, revision, id);
    PayloadsConcat(events, more);
    assert |Payloads(events + more)| == |events| + |more|;
  }

  lemma {:induction false} SetStatusTwice(items: Items, item: Uuid, status: ItemStatus)
    ensures SetStatus(SetStatus(items, item, InProgress), item, status) == SetStatus(items, item, status)
  {
  }

  /** It does not matter that the item was shown as running meanwhile. */
  lemma {:induction false} NoteStarted(c: Core, j: Job)
    ensures Note(c.(items := SetStatus(c.items, j.item, InProgress)), j) == Note(c, j)
  {
    SetStatusTwice(c.items, j.item, Done);
    SetStatusTwice(c.items, j.item, Failed);
  }

  /** A crash is reported by the worker, with its reason; a result, for the item's agent or else the worker. */
  ghost predicate ReportedFor(events: seq<Event>, worker: Uuid, run: Uuid, item: Uuid, agent: Option<Uuid>,
                              outcome: Outcome) {
    if outcome.Crashed? then
      |events| == 1 && events[0].payload == WorkItemFailed(run, item, outcome.reason) && events[0].actorId == worker
    else
      Reported(events, worker, run, item, if agent.Some? then agent.value else worker, outcome)
  }

  /** One turn of the inner loop: run the executor on an eligible item and remember the result. */
  method ExecuteItem(state: RunState, run: Uuid, item: Uuid, worker: Uuid, executor: Uuid -> Outcome,
                     revision: int, firstId: Uuid, at: int)
      returns (events: seq<Event>)
    requires item in state.items
    modifies state
    ensures OneJob(old(state.Current()), state.Current(), worker, run, Job(item, executor(item)), events,
                   revision, firstId, at)
    ensures ReportedFor(events, worker, run, item, old(state.items)[item].agent, executor(item))
  {
    var agent := if state.items[item].agent.Some? then state.items[item].agent.value else worker;
    ghost var was := state.Memory();
    state.items := SetStatus(state.items, item, InProgress);
    var outcome := executor(item);
    NoteStarted(was, Job(item, outcome));
    if outcome.Crashed? {
      events := [ItemFailed(worker, run, item, revision, outcome.reason, firstId, at)];
      state.items := SetStatus(state.items, item, Failed);
      state.status := Blocked;
      return;
    }
    events := EventsForExecution(worker, run, item, revision, agent, outcome, firstId, at);
    Remember(state, item, outcome, Last(events).revision, at);
  }

  /** What a result changes in memory, whether it is a success or not. */
  method Remember(state: RunState, item: Uuid, outcome: Outcome, lastRevision: int, at: int)
    requires outcome.Executed?
    modifies state
    ensures state.Memory() == Note(old(state.Memory()), Job(item, outcome))
    ensures state.latestRevision == lastRevision && state.updatedAt == at
  {
    if outcome.success {
      state.items := SetStatus(state.items, item, Done);
      state.totalCost := state.totalCost + outcome.cost;
      state.effortPoints := state.effortPoints + outcome.effort;
    } else {
      state.items := SetStatus(state.items, item, Failed);
      state.status := Blocked;
    }
    state.latestRevision := lastRevision;
    state.updatedAt := at;
    state.status := if state.status == Blocked then Blocked else Running;
  }

  /** Some eligible item, in whatever order the hash map yields them. */
  method Pick(items: Items, worker: Uuid, affine: bool) returns (item: Option<Uuid>)
    ensures item.Some? ==> Eligible(items, worker, affine, item.value)
    ensures item.None? ==> forall i :: !Eligible(items, worker, affine, i)
  {
    var candidates := set i | i in items && Eligible(items, worker, affine, i);
    if candidates == {} {
      assert forall i :: Eligible(items, worker, affine, i) ==> i in candidates;
      return None;
    }
    var i :| i in candidates;
    item := Some(i);
  }

  /** The inner loop of a tick: any order of picking, at most `maxItems` jobs, none left over if fewer. */
  method ExecuteItems(state: RunState, run: Uuid, worker: Uuid, affine: bool, maxItems: nat, executor: Uuid -> Outcome,
                      revision: int, firstId: Uuid, at: int)
      returns (events: seq<Event>, ghost work: seq<Job>)
    modifies state
    ensures AllJobs(old(state.Current()), state.Current(), worker, affine, run, work, events, revision, firstId, at)
    ensures |work| <= maxItems
    ensures |work| < maxItems ==> forall i :: !Eligible(state.items, worker, affine, i)
    ensures forall k :: 0 <= k < |work| ==> work[k].outcome == executor(work[k].item)
  {
    events, work := [], [];
    ghost var before := state.Current();
    var processed := 0;
    while processed < maxItems
      invariant processed == |work| <= maxItems
      invariant AllJobs(before, state.Current(), worker, affine, run, work, events, revision, firstId, at)
      invariant forall k :: 0 <= k < |work| ==> work[k].outcome == executor(work[k].item)
    {
      var picked := Pick(state.items, worker, affine);
      if picked == None {
        return;
      }
      var item := picked.value;
      ghost var now := state.Current();
      var more := ExecuteItem(state, run, item, worker, executor, revision + |events|, firstId + |events|, at);
      ghost var job := Job(item, executor(item));
      OneMoreJob(before, now, state.Current(), worker, affine, run, work, job, events, more, revision, firstId, at);
      events, work := events + more, work + [job];
      processed := processed + 1;
    }
  }

  /** The end of the tick for one run: if every item is done, the run is closed with one more event. */
  method CloseIfDone(state: RunState, run: Uuid, worker: Uuid, revision: int, firstId: Uuid, at: int)
      returns (closing: seq<Event>)
    modifies state
    ensures var closes := AllDone(old(state.items)) && old(state.status) != Completed;
            && Payloads(closing) == (if closes then [RunCompleted(run, |old(state.items)|)] else [])
            && state.latestRevision == (if closes then revision else old(state.latestRevision))
            && state.updatedAt == (if closes then at else old(state.updatedAt))
    ensures state.Memory() == Close(old(state.Memory()))
    ensures Sequenced(closing, run, revision, firstId) && Timed(closing, at)
    ensures closing != [] ==> closing[0].actorId == worker
  {
    closing := [];
    if AllDone(state.items) && state.status != Completed {
      closing := [Complete(worker, run, revision, |state.items|, firstId, at)];
      state.status := Completed;
      state.latestRevision := revision;
      state.updatedAt := at;
    }
  }

  /** The last revision and the time of the last update in memory after a tick. */
  function BooksAfter(v: RunView, worker: Uuid, run: Uuid, work: seq<Job>, at: int): (int, int) {
    if AllDone(NoteAll(v.core, work).items) then (v.latest + |JobPayloads(worker, run, work)| + 1, at)
    else (RevisionAfter(v.latest, v.latest + 1, worker, run, work), if Heard(work) then at else v.updatedAt)
  }

  /**
   * What a tick leaves on its run's books: if the run was closed, or the last job came back with a result, they
   * say what the last event of the batch says; and if no job came back, nothing has changed.
   */
  lemma {:induction false} BooksAreOfLastEvent(v: RunView, worker: Uuid, run: Uuid, work: seq<Job>, at: int)
    ensures var books := BooksAfter(v, worker, run, work, at);
            var closed := AllDone(NoteAll(v.core, work).items);
            && (closed || (work != [] && Last(work).outcome.Executed?) ==>
                  books == (v.latest + |BatchPayloads(v.core, worker, run, work)|, at))
            && (!closed && (forall k :: 0 <= k < |work| ==> work[k].outcome.Crashed?) ==>
                  books == (v.latest, v.updatedAt))
            && (!closed && (exists k :: 0 <= k < |work| && work[k].outcome.Executed?) ==> books.1 == at)
  {
    BooksOfJobs(v.latest, v.latest + 1, worker, run, work);
  }

  lemma {:induction false} BooksOfJobs(latest: int, revision: int, worker: Uuid, run: Uuid, work: seq<Job>)
    ensures Heard(work) <==> exists k :: 0 <= k < |work| && work[k].outcome.Executed?
    ensures !Heard(work) ==> RevisionAfter(latest, revision, worker, run, work) == latest
  {
    if work != [] {
      BooksOfJobs(latest, revision, worker, run, Front(work));
      assert Last(work) == work[|work| - 1];
      if k :| 0 <= k < |Front(work)| && Front(work)[k].outcome.Executed? {
        assert work[k].outcome.Executed?;
      }
    }
  }

  /** The body of the tick for one run. */
  method AdvanceRun(state: RunState, run: Uuid, worker: Uuid, affine: bool, maxItems: nat, executor: Uuid -> Outcome,
                    firstId: Uuid, at: int)
      returns (events: seq<Event>, ghost work: seq<Job>)
    modifies state
    ensures !Workable(old(state.Memory())) ==> events == [] && work == [] && state.Current() == old(state.Current())
    ensures Workable(old(state.Memory())) ==>
              && Taken(old(state.Memory()), worker, affine, maxItems, work)
              && Payloads(events) == BatchPayloads(old(state.Memory()), worker, run, work)
              && state.Memory() == Close(NoteAll(old(state.Memory()), work))
              && (state.latestRevision, state.updatedAt) == BooksAfter(old(state.Current()), worker, run, work, at)
    ensures forall k :: 0 <= k < |work| ==> work[k].outcome == executor(work[k].item)
    ensures Sequenced(events, run, old(state.latestRevision) + 1, firstId) && Timed(events, at)
  {
    ghost var before, was := state.Memory(), state.Current();
    if state.workspaceId == NIL || state.status != Running || state.items == map[] {
      return [], [];
    }
    var revision := state.latestRevision + 1;
    events, work := ExecuteItems(state, run, worker, affine, maxItems, executor, revision, firstId, at);
    NoteAllKeys(before, work);
    assert |before.items| == |before.items.Keys| == |state.items|;
    assert |events| == |Payloads(events)| == |JobPayloads(worker, run, work)|;
    ghost var executed := state.Current();
    var closing := CloseIfDone(state, run, worker, revision + |events|, firstId + |events|, at);
    WholeBatch(before, worker, run, work, events, closing, revision, firstId, at);
    BooksClosed(was, executed, worker, run, work, at, |events|);
    events := events + closing;
  }

  lemma {:induction false} BooksClosed(was: RunView, executed: RunView, worker: Uuid, run: Uuid, work: seq<Job>,
                                       at: int, count: nat)
    requires executed.latest == RevisionAfter(was.latest, was.latest + 1, worker, run, work)
    requires executed.updatedAt == if Heard(work) then at else was.updatedAt
    requires count == |JobPayloads(worker, run, work)|
    ensures BooksAfter(was, worker, run, work, at)
         == if AllDone(NoteAll(was.core, work).items) then (was.latest + 1 + count, at)
            else (executed.latest, executed.updatedAt)
  {
  }

  lemma {:induction false} WholeBatch(c: Core, worker: Uuid, run: Uuid, work: seq<Job>, events: seq<Event>,
                                      closing: seq<Event>, revision: int, id: Uuid, at: int)
    requires Payloads(events) == JobPayloads(worker, run, work) && Payloads(closing) == Closing(c, run, work)
    requires Sequenced(events, run, revision, id) && Sequenced(closing, run, revision + |events|, id + |events|)
    requires Timed(events, at) && Timed(closing, at)
    ensures Payloads(events + closing) == BatchPayloads(c, worker, run, work)
    ensures Sequenced(events + closing, run, revision, id) && Timed(events + closing, at)
  {
    SequencedConcat(events, closing, run, revision, id);
    PayloadsConcat(events, closing);
  }
}
