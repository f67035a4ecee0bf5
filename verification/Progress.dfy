/** A run left to one worker: it finishes, and in exactly how many ticks. */
module Progress {
  import opened Events
  import opened Log
  import opened EventStore
  import opened WorkerReplay
  import opened Harness
  import opened Tick
  import opened TickReplay
  import opened Planner
  import opened ControlEffects
  import opened LoadOrder
  import opened Protocol
  import Orchestrator
  import Agreement
  import opened Commits

  /** One tick as it passed: what the worker loaded, the jobs it did, its batch and its clock. */
  datatype Pass = Pass(seen: seq<Event>, work: seq<Job>, batch: seq<Event>, at: int)

  /**
   * What a worker's tick makes of one run, from the log it loaded to some later log: its batch, and
   * nothing else, has been added to the run's stream. Other streams may have grown in any way.
   */
  ghost predicate TickTo(log: seq<Event>, next: seq<Event>, p: Pass, v: Uuid, affine: bool, maxItems: nat, run: Uuid) {
    var c := CoreOf(p.seen, run);
    && IsLoad(log, p.seen)
    && if !Workable(c) then p.work == [] && Stream(next, run) == Stream(log, run)
       else
         && Taken(c, v, affine, maxItems, p.work)
         && Payloads(p.batch) == BatchPayloads(c, v, run, p.work) && Timed(p.batch, p.at)
         && Stream(next, run) == Stream(log, run) + p.batch
  }

  predicate AllSucceed(work: seq<Job>) {
    forall k :: 0 <= k < |work| ==> Succeeds(work[k].outcome)
  }

  function Waiting(items: Items): set<Uuid> {
    set i | i in items && items[i].status == Assigned
  }

  /** Every item is either done or waiting for this worker. */
  ghost predicate OnTrack(items: Items, v: Uuid, affine: bool) {
    forall i :: i in items ==> items[i].status == Done || Eligible(items, v, affine, i)
  }

  function Smaller(a: nat, b: nat): nat { if a < b then a else b }

  lemma {:induction false} NoteShrinks(c: Core, v: Uuid, affine: bool, work: seq<Job>)
    requires Legal(c, v, affine, work) && AllSucceed(work) && c.status == Running
    ensures |Waiting(NoteAll(c, work).items)| == |Waiting(c.items)| - |work|
    ensures NoteAll(c, work).status == Running
    ensures OnTrack(c.items, v, affine) ==> OnTrack(NoteAll(c, work).items, v, affine)
  {
    if work != [] {
      var front, j := NoteAll(c, Front(work)), Last(work);
      assert forall k :: 0 <= k < |work| - 1 ==> Front(work)[k] == work[k];
      NoteShrinks(c, v, affine, Front(work));
      assert Succeeds(j.outcome);
      var after := NoteAll(c, work);
      assert after.items == front.items[j.item := front.items[j.item].(status := Done)];
      assert Waiting(after.items) == Waiting(front.items) - {j.item};
      assert j.item in Waiting(front.items);
    }
  }

  /** A tick takes as many items as it may, and closes the run exactly when none is left. */
  lemma {:induction false} TickTakes(c: Core, v: Uuid, affine: bool, maxItems: nat, work: seq<Job>)
    requires Legal(c, v, affine, work) && AllSucceed(work) && |work| <= maxItems
    requires c.status == Running && c.items != map[] && OnTrack(c.items, v, affine)
    requires |work| < maxItems ==> forall i :: !Eligible(NoteAll(c, work).items, v, affine, i)
    ensures |work| == Smaller(maxItems, |Waiting(c.items)|)
    ensures AllDone(NoteAll(c, work).items) <==> |work| == |Waiting(c.items)|
  {
    var after := NoteAll(c, work).items;
    NoteShrinks(c, v, affine, work);
    NoteAllKeys(c, work);
    var some :| some in c.items;
    assert some in after.Keys;
    if |work| < maxItems {
      forall i ensures i !in Waiting(after) {
        assert !Eligible(after, v, affine, i);
      }
      assert Waiting(after) == {};
    }
    if |Waiting(after)| == 0 {
      assert Waiting(after) == {};
      forall i | i in after ensures after[i].status == Done {
        assert i !in Waiting(after);
      }
    } else {
      var i :| i in Waiting(after);
      assert after[i].status == Assigned;
    }
  }

  lemma {:induction false} SuccessPayloads(v: Uuid, run: Uuid, work: seq<Job>)
    requires AllSucceed(work)
    ensures |JobPayloads(v, run, work)| == 3 * |work|
  {
    if work != [] {
      assert forall k :: 0 <= k < |work| - 1 ==> Front(work)[k] == work[k];
      SuccessPayloads(v, run, Front(work));
      assert Succeeds(Last(work).outcome);
    }
  }

  lemma {:induction false} SuccessKeepsStatus(c: Core, v: Uuid, work: seq<Job>)
    requires AllSucceed(work)
    ensures ReplayedAll(c, v, work).status == c.status
    ensures ReplayedAll(c, v, work).workspaceId == c.workspaceId
  {
    if work != [] {
      assert forall k :: 0 <= k < |work| - 1 ==> Front(work)[k] == work[k];
      SuccessKeepsStatus(c, v, Front(work));
      assert Succeeds(Last(work).outcome);
    }
  }

  lemma {:induction false} AllComplete(work: seq<Job>, item: Uuid)
    requires AllSucceed(work)
    ensures Completes(work, item) <==> Touches(work, item)
  {
    if work != [] {
      assert forall k :: 0 <= k < |work| - 1 ==> Front(work)[k] == work[k];
      AllComplete(Front(work), item);
      assert Succeeds(Last(work).outcome);
    }
  }

  ghost predicate NotLater(s: seq<Event>, at: int) {
    forall k :: 0 <= k < |s| ==> s[k].occurredAt <= at
  }

  /** The run after some ticks: still running with `left` items waiting, or closed. */
  ghost predicate Underway(log: seq<Event>, v: Uuid, affine: bool, run: Uuid, n: nat, left: nat) {
    var c := CoreOf(log, run);
    && Kept(log) && TimesNeverDecrease(Stream(log, run))
    && c.workspaceId != NIL && c.items != map[] && |c.items| == n && OnTrack(c.items, v, affine)
    && |Waiting(c.items)| == left
    && |Stream(log, run)| == (if left > 0 then 1 + n + 3 * (n - left) else 4 * n + 2)
    && Closings(Payloads(Stream(log, run))) == (if left > 0 then 0 else 1)
    && c.status == (if left > 0 then Running else Completed)
  }

  lemma {:induction false} TickItems(c: Core, v: Uuid, affine: bool, run: Uuid, work: seq<Job>)
    requires Workable(c) && Legal(c, v, affine, work) && AllSucceed(work) && OnTrack(c.items, v, affine)
    ensures var next := ApplyAll(c, BatchPayloads(c, v, run, work));
            && next.items.Keys == c.items.Keys && OnTrack(next.items, v, affine)
            && |Waiting(next.items)| == |Waiting(c.items)| - |work|
            && next.workspaceId == c.workspaceId
            && next.status == if AllDone(NoteAll(c, work).items) then Completed else Running
  {
    var next, memory := ApplyAll(c, BatchPayloads(c, v, run, work)), NoteAll(c, work).items;
    BatchReplay(c, c, v, run, work);
    SuccessKeepsStatus(c, v, work);
    NoteShrinks(c, v, affine, work);
    NoteAllKeys(c, work);
    forall i
      ensures i in next.items <==> i in c.items
      ensures i in c.items ==> i in memory && next.items[i].status == memory[i].status
      ensures i in next.items ==> next.items[i].status == Done || Eligible(next.items, v, affine, i)
    {
      LegalJobs(c, v, affine, work, i);
      ReplayedItem(c, v, work, i);
      AllComplete(work, i);
      if i in c.items {
        Remembered(c, work, i);
      }
    }
    assert next.items.Keys == c.items.Keys;
    assert Waiting(next.items) == Waiting(memory);
  }

  /** What is added to a run's stream, wherever it stands in the log, is what its replay moves by. */
  lemma {:induction false} StreamMovesCore(log: seq<Event>, next: seq<Event>, run: Uuid, batch: seq<Event>)
    requires Agreement.Housed(log) && Agreement.Housed(next) && Stream(next, run) == Stream(log, run) + batch
    ensures CoreOf(next, run) == ApplyAll(CoreOf(log, run), Payloads(batch))
  {
    ReplayIsLocal(log, run);
    ReplayIsLocal(next, run);
    StreamIsSubset(next, run);
    forall k | 0 <= k < |batch| ensures RunOf(batch[k]) in {Some(run), None} {
      var e := Stream(next, run)[|Stream(log, run)| + k];
      assert e == batch[k] && e in next && e.resourceId == run;
      var j :| 0 <= j < |next| && next[j] == e;
    }
    ReplayBatch(Stream(log, run), batch, run, run);
  }

  /** What a tick does to the run's stream. */
  lemma {:induction false} TickWrites(stream: seq<Event>, c: Core, v: Uuid, run: Uuid, work: seq<Job>,
                                      batch: seq<Event>)
    requires AllSucceed(work) && Payloads(batch) == BatchPayloads(c, v, run, work)
    ensures var closed := if AllDone(NoteAll(c, work).items) then 1 else 0;
            && |stream + batch| == |stream| + 3 * |work| + closed
            && Closings(Payloads(stream + batch)) == Closings(Payloads(stream)) + closed
  {
    SuccessPayloads(v, run, work);
    assert |batch| == |Payloads(batch)|;
    PayloadsConcat(stream, batch);
    ClosingsConcat(Payloads(stream), Payloads(batch));
    BatchCloses(c, v, run, work);
  }

  lemma {:induction false} SameKeys(was: Items, now: Items)
    requires now.Keys == was.Keys
    ensures |now| == |was| && (was != map[] ==> now != map[])
  {
    assert |now.Keys| == |now| && |was.Keys| == |was|;
    if was != map[] {
      var i :| i in was;
      assert i in now.Keys;
    }
  }

  lemma {:induction false} TickInTime(stream: seq<Event>, batch: seq<Event>, at: int)
    requires TimesNeverDecrease(stream) && NotLater(stream, at) && Timed(batch, at)
    ensures TimesNeverDecrease(stream + batch) && NotLater(stream + batch, at)
  {
  }

  /** What a tick does to the replay of a run on which every item is done or waiting for the worker. */
  lemma {:induction false} TickLeaves(c: Core, v: Uuid, affine: bool, maxItems: nat, run: Uuid, work: seq<Job>)
    requires Workable(c) && Taken(c, v, affine, maxItems, work) && AllSucceed(work) && OnTrack(c.items, v, affine)
    ensures |work| == Smaller(maxItems, |Waiting(c.items)|)
    ensures AllDone(NoteAll(c, work).items) <==> |work| == |Waiting(c.items)|
    ensures var next := ApplyAll(c, BatchPayloads(c, v, run, work));
            && next.workspaceId == c.workspaceId && next.items != map[] && |next.items| == |c.items|
            && OnTrack(next.items, v, affine) && |Waiting(next.items)| == |Waiting(c.items)| - |work|
            && next.status == if |work| == |Waiting(c.items)| then Completed else Running
  {
    TickTakes(c, v, affine, maxItems, work);
    TickItems(c, v, affine, run, work);
    SameKeys(c.items, ApplyAll(c, BatchPayloads(c, v, run, work)).items);
  }

  lemma {:induction false} TickAdvances(log: seq<Event>, next: seq<Event>, p: Pass, v: Uuid, affine: bool,
                                        maxItems: nat,
                                        run: Uuid, n: nat, left: nat)
    requires Underway(log, v, affine, run, n, left) && maxItems > 0 && Kept(next)
    requires TickTo(log, next, p, v, affine, maxItems, run) && AllSucceed(p.work) && NotLater(Stream(log, run), p.at)
    ensures Underway(next, v, affine, run, n, left - Smaller(maxItems, left))
    ensures NotLater(Stream(next, run), p.at)
    ensures left == 0 ==> Stream(next, run) == Stream(log, run)
  {
    var c := CoreOf(log, run);
    LoadOrderIsHarmless(log, p.seen, run);
    if left > 0 {
      TickLeaves(c, v, affine, maxItems, run, p.work);
      TickWrites(Stream(log, run), c, v, run, p.work, p.batch);
      TickInTime(Stream(log, run), p.batch, p.at);
      StreamMovesCore(log, next, run, p.batch);
    } else {
      ReplayIsLocal(log, run);
      ReplayIsLocal(next, run);
    }
  }

  lemma {:induction false} AllWaiting(dealt: seq<WorkItem>, v: Uuid, affine: bool)
    requires forall k :: 0 <= k < |dealt| ==> dealt[k].agent.Some? && (affine ==> dealt[k].agent == Some(v))
    requires DistinctItems(dealt)
    ensures OnTrack(StartedItems(dealt), v, affine) && |Waiting(StartedItems(dealt))| == |StartedItems(dealt)|
  {
    var items := StartedItems(dealt);
    forall i ensures i in items ==> Eligible(items, v, affine, i) {
      StartedItem(dealt, i);
      if i in items {
        var k :| 0 <= k < |dealt| && dealt[k].id == i;
        StartedAgent(dealt, k);
      }
    }
    assert Waiting(items) == items.Keys;
    assert |items.Keys| == |items|;
  }

  /** A freshly started run is where the ticks begin. */
  lemma {:induction false} StartedIsUnderway(log: seq<Event>, run: Uuid, workspace: Uuid, objective: string,
                                             dealt: seq<WorkItem>, events: seq<Event>, firstId: Uuid, at: int, v: Uuid,
                                             affine: bool)
    requires Kept(log) && Stream(log, run) == []
    requires forall k :: 0 <= k < |dealt| ==> dealt[k].agent.Some? && (affine ==> dealt[k].agent == Some(v))
    requires DistinctItems(dealt) && dealt != [] && workspace != NIL
    requires Payloads(events) == Orchestrator.StartPayloads(run, workspace, objective, dealt)
    requires Orchestrator.ControlBatch(events, run, NextRevision(Stream(log, run)), firstId) && Timed(events, at)
    requires Ids(events) !! Ids(log)
    ensures Underway(Appended(log, run, events), v, affine, run, |dealt|, |dealt|)
    ensures NotLater(Stream(Appended(log, run, events), run), at)
  {
    UnmentionedInEmptyStream(log, run);
    StartIsWellFormed(log, run, workspace, objective, dealt, events, firstId);
    StartReplays(log, run, workspace, objective, dealt, events);
    StartProper(run, workspace, objective, dealt);
    AppendedKept(log, run, events);
    AllWaiting(dealt, v, affine);
    StartedStream(run, workspace, objective, dealt, events, at);
    assert dealt[0].id in StartedItems(dealt);
  }

  lemma {:induction false} StartedStream(run: Uuid, workspace: Uuid, objective: string, dealt: seq<WorkItem>,
                                         events: seq<Event>, at: int)
    requires forall k :: 0 <= k < |dealt| ==> dealt[k].agent.Some?
    requires Payloads(events) == Orchestrator.StartPayloads(run, workspace, objective, dealt) && Timed(events, at)
    ensures TimesNeverDecrease(Stamp(events, run)) && NotLater(Stamp(events, run), at)
    ensures Closings(Payloads(Stamp(events, run))) == 0
  {
    RebasedPayloads(events, 0, run);
    NoClosings(Payloads(events));
  }

  /**
   * Successive ticks of one worker in which every execution succeeds and its clock does not go back.
   * Between two loads the run's stream gets the tick's batch; the rest of the log is anybody's.
   */
  ghost predicate Ticks(logs: seq<seq<Event>>, passes: seq<Pass>, v: Uuid, affine: bool, maxItems: nat, run: Uuid) {
    && |logs| == |passes| + 1
    && (forall k :: 0 <= k < |logs| ==> Kept(logs[k]))
    && (forall k :: 0 <= k < |passes| ==>
          TickTo(logs[k], logs[k + 1], passes[k], v, affine, maxItems, run) && AllSucceed(passes[k].work))
    && forall j, k :: 0 <= j < k < |passes| ==> passes[j].at <= passes[k].at
  }

  /** Where the ticks begin: n items waiting, and nothing in the stream stamped after the first tick. */
  ghost predicate Begun(logs: seq<seq<Event>>, passes: seq<Pass>, v: Uuid, affine: bool, run: Uuid, n: nat) {
    && logs != [] && n > 0 && Underway(logs[0], v, affine, run, n, n)
    && (passes != [] ==> NotLater(Stream(logs[0], run), passes[0].at))
  }

  function LeftAfter(n: nat, m: nat, k: nat): nat {
    if k == 0 then n else LeftAfter(n, m, k - 1) - Smaller(m, LeftAfter(n, m, k - 1))
  }

  lemma {:induction false} LeftIs(n: nat, m: nat, k: nat)
    ensures LeftAfter(n, m, k) == if k * m >= n then 0 else n - k * m
  {
    if k > 0 {
      LeftIs(n, m, k - 1);
      assert k * m == (k - 1) * m + m;
    }
  }

  lemma {:induction false} TickAt(logs: seq<seq<Event>>, passes: seq<Pass>, v: Uuid, affine: bool, maxItems: nat,
                                  run: Uuid, k: nat)
    requires Ticks(logs, passes, v, affine, maxItems, run) && k < |passes|
    ensures TickTo(logs[k], logs[k + 1], passes[k], v, affine, maxItems, run) && AllSucceed(passes[k].work)
    ensures Kept(logs[k + 1])
    ensures k + 1 < |passes| ==> passes[k].at <= passes[k + 1].at
  {
  }

  /** One of the ticks, from the log it loaded to the log the next one loads. */
  lemma {:induction false} TickOf(logs: seq<seq<Event>>, passes: seq<Pass>, v: Uuid, affine: bool, maxItems: nat,
                                  run: Uuid, n: nat, k: nat, left: nat)
    requires Ticks(logs, passes, v, affine, maxItems, run) && maxItems > 0 && k < |passes|
    requires Underway(logs[k], v, affine, run, n, left) && NotLater(Stream(logs[k], run), passes[k].at)
    ensures Underway(logs[k + 1], v, affine, run, n, left - Smaller(maxItems, left))
    ensures k + 1 < |passes| ==> NotLater(Stream(logs[k + 1], run), passes[k + 1].at)
    ensures left == 0 ==> Stream(logs[k + 1], run) == Stream(logs[k], run)
  {
    TickAt(logs, passes, v, affine, maxItems, run, k);
    TickAdvances(logs[k], logs[k + 1], passes[k], v, affine, maxItems, run, n, left);
  }

  lemma {:induction false} TicksAdvance(logs: seq<seq<Event>>, passes: seq<Pass>, v: Uuid, affine: bool, maxItems: nat,
                                        run: Uuid, n: nat, k: nat)
    requires Ticks(logs, passes, v, affine, maxItems, run) && maxItems > 0
    requires Begun(logs, passes, v, affine, run, n) && k < |logs|
    ensures Underway(logs[k], v, affine, run, n, LeftAfter(n, maxItems, k))
    ensures k < |passes| ==> NotLater(Stream(logs[k], run), passes[k].at)
  {
    if k > 0 {
      var j := k - 1;
      TicksAdvance(logs, passes, v, affine, maxItems, run, n, j);
      TickOf(logs, passes, v, affine, maxItems, run, n, j, LeftAfter(n, maxItems, j));
    }
  }

  function CeilDiv(n: nat, m: nat): nat
    requires m > 0
  {
    (n + m - 1) / m
  }

  lemma {:induction false} CeilDivIsLeast(n: nat, m: nat, k: nat)
    requires m > 0
    ensures k * m >= n <==> k >= CeilDiv(n, m)
  {
    var q := CeilDiv(n, m);
    if k >= q {
      Monotone(m, q, k);
    } else {
      Monotone(m, k + 1, q);
    }
  }

  /**
   * From a started run of n items, one worker taking at most m per tick finishes it in exactly
   * ceil(n/m) ticks, whatever else is written to other runs meanwhile: before that it is running with
   * the rest waiting, from then on it is completed, with one closing event and stream revision 4n+2,
   * and further ticks write nothing to it.
   */
  lemma {:induction false} FinishesOnTime(logs: seq<seq<Event>>, passes: seq<Pass>, v: Uuid, affine: bool,
                                          maxItems: nat,
                                          run: Uuid, n: nat, k: nat)
    requires Ticks(logs, passes, v, affine, maxItems, run) && maxItems > 0
    requires Begun(logs, passes, v, affine, run, n) && k < |logs|
    ensures k < CeilDiv(n, maxItems) ==>
              && CoreOf(logs[k], run).status == Running && |Waiting(CoreOf(logs[k], run).items)| == n - k * maxItems > 0
              && Closings(Payloads(Stream(logs[k], run))) == 0
    ensures k >= CeilDiv(n, maxItems) ==>
              && CoreOf(logs[k], run).status == Completed && AllDone(CoreOf(logs[k], run).items)
              && Closings(Payloads(Stream(logs[k], run))) == 1
              && |Stream(logs[k], run)| == 4 * n + 2 && Latest(logs[k], run) == 4 * n + 2
              && (k + 1 < |logs| ==> Stream(logs[k + 1], run) == Stream(logs[k], run))
    ensures TimesNeverDecrease(Stream(logs[k], run))
  {
    TicksAdvance(logs, passes, v, affine, maxItems, run, n, k);
    CeilDivIsLeast(n, maxItems, k);
    LeftIs(n, maxItems, k);
    LatestIsLength(logs[k], run);
    var items := CoreOf(logs[k], run).items;
    if k >= CeilDiv(n, maxItems) {
      assert Waiting(items) == {};
      forall i | i in items ensures items[i].status == Done {
        assert i !in Waiting(items);
      }
      if k + 1 < |logs| {
        TickOf(logs, passes, v, affine, maxItems, run, n, k, LeftAfter(n, maxItems, k));
      }
    }
  }
}
