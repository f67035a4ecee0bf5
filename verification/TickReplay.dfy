/** What a batch does to a replay, whatever state the replay is in, and how that compares with memory. */
module TickReplay {
  import opened Events
  import opened Log
  import opened WorkerReplay
  import opened Harness
  import opened Tick

  /** The effect of one job's events on a replayed run. */
  function Replayed(c: Core, worker: Uuid, j: Job): Core {
    match j.outcome
    case Crashed(_) =>
      c.(items := c.items[j.item := Item(Failed, AgentOf(c.items, j.item))], status := Blocked)
    case Executed(true, effort, cost, _) =>
      c.(items := c.items[j.item := Item(Done, Some(worker))],
         cost := c.cost + cost + cost / 2.0, effort := c.effort + effort + ChunkEffort(effort))
    case Executed(false, _, _, _) =>
      c.(items := c.items[j.item := Item(Failed, Some(worker))], status := Blocked)
  }

  function ReplayedAll(c: Core, worker: Uuid, work: seq<Job>): Core {
    if work == [] then c else Replayed(ReplayedAll(c, worker, Front(work)), worker, Last(work))
  }

  lemma {:induction false} ApplyPair(c: Core, p: Payload, q: Payload)
    ensures ApplyAll(c, [p, q]) == Apply(Apply(c, p), q)
  {
    assert Front([p, q]) == [p] && Front([p]) == [];
    assert ApplyAll(c, [p]) == Apply(c, p);
  }

  lemma {:induction false} JobReplay(c: Core, worker: Uuid, run: Uuid, j: Job)
    ensures ApplyAll(c, ExecutionPayloads(worker, run, j.item, j.outcome)) == Replayed(c, worker, j)
  {
    var ps := ExecutionPayloads(worker, run, j.item, j.outcome);
    if j.outcome.Crashed? {
      assert Front(ps) == [];
    } else if j.outcome.success {
      assert Front(ps) == [ps[0], ps[1]];
      ApplyPair(c, ps[0], ps[1]);
      assert c.items[j.item := Item(InProgress, Some(worker))][j.item := Item(Done, Some(worker))]
          == c.items[j.item := Item(Done, Some(worker))];
    } else {
      ApplyPair(c, ps[0], ps[1]);
      assert c.items[j.item := Item(InProgress, Some(worker))][j.item := Item(Failed, Some(worker))]
          == c.items[j.item := Item(Failed, Some(worker))];
    }
  }

  lemma {:induction false} JobsReplay(c: Core, worker: Uuid, run: Uuid, work: seq<Job>)
    ensures ApplyAll(c, JobPayloads(worker, run, work)) == ReplayedAll(c, worker, work)
  {
    if work != [] {
      JobsReplay(c, worker, run, Front(work));
      ApplyAllConcat(c, JobPayloads(worker, run, Front(work)),
                     ExecutionPayloads(worker, run, Last(work).item, Last(work).outcome));
      JobReplay(ReplayedAll(c, worker, Front(work)), worker, run, Last(work));
    }
  }

  /** A batch built from `seen`, replayed on any state `c`. */
  lemma {:induction false} BatchReplay(seen: Core, c: Core, worker: Uuid, run: Uuid, work: seq<Job>)
    ensures ApplyAll(c, BatchPayloads(seen, worker, run, work))
         == if AllDone(NoteAll(seen, work).items) then ReplayedAll(c, worker, work).(status := Completed)
            else ReplayedAll(c, worker, work)
  {
    JobsReplay(c, worker, run, work);
    ApplyAllConcat(c, JobPayloads(worker, run, work), Closing(seen, run, work));
    ClosingReplay(seen, ReplayedAll(c, worker, work), run, work);
  }

  lemma {:induction false} ClosingReplay(seen: Core, c: Core, run: Uuid, work: seq<Job>)
    ensures ApplyAll(c, Closing(seen, run, work))
            == if AllDone(NoteAll(seen, work).items) then c.(status := Completed) else c
  {
    var tail := Closing(seen, run, work);
    if tail != [] {
      assert Front(tail) == [];
      assert ApplyAll(c, tail) == Apply(c, tail[0]);
    }
  }

  // ---- Which items a batch touches ------------------------------------------------------------

  predicate Touches(work: seq<Job>, item: Uuid) {
    work != [] && (Last(work).item == item || Touches(Front(work), item))
  }

  /** Whether some job on the item succeeded. */
  predicate Completes(work: seq<Job>, item: Uuid) {
    work != [] && ((Last(work).item == item && Succeeds(Last(work).outcome)) || Completes(Front(work), item))
  }

  predicate Once(work: seq<Job>) {
    work == [] || (Once(Front(work)) && !Touches(Front(work), Last(work).item))
  }

  lemma {:induction false} CompletesTouches(work: seq<Job>, item: Uuid)
    ensures Completes(work, item) ==> Touches(work, item)
  {
    if work != [] {
      CompletesTouches(Front(work), item);
    }
  }

  lemma {:induction false} Remembered(c: Core, work: seq<Job>, item: Uuid)
    requires item in c.items && Once(work)
    ensures item in NoteAll(c, work).items
    ensures NoteAll(c, work).items[item].agent == c.items[item].agent
    ensures NoteAll(c, work).items[item].status ==
              if Completes(work, item) then Done else if Touches(work, item) then Failed else c.items[item].status
  {
    if work != [] {
      Remembered(c, Front(work), item);
      CompletesTouches(Front(work), item);
    }
  }

  /** Legal jobs touch different items, each assigned (and the worker's own, with affinity) in the snapshot. */
  lemma {:induction false} LegalJobs(c: Core, worker: Uuid, affine: bool, work: seq<Job>, item: Uuid)
    requires Legal(c, worker, affine, work)
    ensures Once(work)
    ensures Touches(work, item) ==> Eligible(c.items, worker, affine, item)
  {
    if work != [] {
      var last := Last(work).item;
      LegalJobs(c, worker, affine, Front(work), item);
      LegalJobs(c, worker, affine, Front(work), last);
      NoteAllKeys(c, Front(work));
      Remembered(c, Front(work), last);
    }
  }

  /** The replayed items after a batch, item by item. */
  lemma {:induction false} ReplayedItem(c: Core, worker: Uuid, work: seq<Job>, item: Uuid)
    requires Once(work)
    ensures !Touches(work, item) ==>
              (item in ReplayedAll(c, worker, work).items <==> item in c.items)
              && (item in c.items ==> ReplayedAll(c, worker, work).items[item] == c.items[item])
    ensures Touches(work, item) ==>
              && item in ReplayedAll(c, worker, work).items
              && ReplayedAll(c, worker, work).items[item].status == (if Completes(work, item) then Done else Failed)
              && ReplayedAll(c, worker, work).items[item].agent in {Some(worker), AgentOf(c.items, item)}
  {
    if work != [] {
      ReplayedItem(c, worker, Front(work), item);
      CompletesTouches(Front(work), item);
    }
  }

  // ---- Memory against replay ------------------------------------------------------------------

  function ChunkEfforts(work: seq<Job>): int {
    if work == [] then 0
    else ChunkEfforts(Front(work)) + if Succeeds(Last(work).outcome) then ChunkEffort(Last(work).outcome.effort) else 0
  }

  function ChunkCosts(work: seq<Job>): real {
    if work == [] then 0.0
    else ChunkCosts(Front(work)) + if Succeeds(Last(work).outcome) then Last(work).outcome.cost / 2.0 else 0.0
  }

  /** The effort of each job's progress chunk: half of the job's own, and nothing for a job that failed. */
  ghost predicate ChunksOf(work: seq<Job>, chunks: seq<int>) {
    && |chunks| == |work|
    && forall k :: 0 <= k < |work| ==>
         if Succeeds(work[k].outcome) then Halved(work[k].outcome.effort, chunks[k]) else chunks[k] == 0
  }

  lemma {:induction false} ChunksAddUp(work: seq<Job>, chunks: seq<int>)
    requires ChunksOf(work, chunks)
    ensures ChunkEfforts(work) == Sum(chunks)
  {
    if work != [] {
      assert Last(chunks) == chunks[|work| - 1] && Last(work) == work[|work| - 1];
      ChunksAddUp(Front(work), Front(chunks));
    }
  }

  lemma {:induction false} SomeChunks(work: seq<Job>) returns (chunks: seq<int>)
    ensures ChunksOf(work, chunks)
  {
    chunks := [];
    if work != [] {
      var front := SomeChunks(Front(work));
      chunks := front + [if Succeeds(Last(work).outcome) then ChunkEffort(Last(work).outcome.effort) else 0];
    }
  }

  /** The progress chunks cost half of what the jobs added to the remembered cost. */
  lemma {:induction false} ChunksCostHalf(c: Core, work: seq<Job>)
    ensures NoteAll(c, work).cost - c.cost == 2.0 * ChunkCosts(work)
  {
    if work != [] {
      ChunksCostHalf(c, Front(work));
    }
  }

  function Statuses(items: Items): map<Uuid, ItemStatus> {
    map i | i in items :: items[i].status
  }

  /** A replayed state that differs from the remembered one only by the progress chunks. */
  ghost predicate Ahead(r: Core, m: Core, affine: bool, efforts: int, costs: real) {
    && r.status == m.status && r.workspaceId == m.workspaceId && m.status in {Running, Blocked}
    && Statuses(r.items) == Statuses(m.items)
    && r.effort == m.effort + efforts && r.cost == m.cost + costs
    && (affine ==> r.items == m.items)
  }

  lemma {:induction false} SameStatuses(a: Items, b: Items, a': Items, b': Items, item: Uuid)
    requires Statuses(a) == Statuses(b) && item in a' && item in b' && a'[item].status == b'[item].status
    requires a' == a[item := a'[item]] && b' == b[item := b'[item]]
    ensures Statuses(a') == Statuses(b')
  {
    assert Statuses(a') == Statuses(a)[item := a'[item].status];
    assert Statuses(b') == Statuses(b)[item := b'[item].status];
  }

  lemma {:induction false} JobSimulates(r: Core, m: Core, worker: Uuid, affine: bool, j: Job, efforts: int, costs: real)
    requires Ahead(r, m, affine, efforts, costs) && Eligible(m.items, worker, affine, j.item)
    ensures Ahead(Replayed(r, worker, j), Note(m, j), affine,
                  efforts + (if Succeeds(j.outcome) then ChunkEffort(j.outcome.effort) else 0),
                  costs + (if Succeeds(j.outcome) then j.outcome.cost / 2.0 else 0.0))
  {
    SameStatuses(r.items, m.items, Replayed(r, worker, j).items, Note(m, j).items, j.item);
  }

  lemma {:induction false} JobsSimulate(c: Core, worker: Uuid, affine: bool, work: seq<Job>)
    requires Legal(c, worker, affine, work) && c.status == Running
    ensures Ahead(ReplayedAll(c, worker, work), NoteAll(c, work), affine, ChunkEfforts(work), ChunkCosts(work))
  {
    if work != [] {
      JobsSimulate(c, worker, affine, Front(work));
      JobSimulates(ReplayedAll(c, worker, Front(work)), NoteAll(c, Front(work)), worker, affine, Last(work),
                   ChunkEfforts(Front(work)), ChunkCosts(Front(work)));
    }
  }

  /**
   * With nothing appended in between, replaying the batch lands on the state the tick kept in
   * memory: the same run status and item statuses (and, with affinity, the same agents), with the
   * replayed totals ahead by exactly the progress chunks of the batch.
   */
  lemma {:induction false} TickSimulatesReplay(c: Core, worker: Uuid, affine: bool, run: Uuid, work: seq<Job>)
    requires Workable(c) && Legal(c, worker, affine, work)
    ensures var r, m := ApplyAll(c, BatchPayloads(c, worker, run, work)), Close(NoteAll(c, work));
            && r.status == m.status && r.workspaceId == m.workspaceId
            && Statuses(r.items) == Statuses(m.items)
            && r.effort == m.effort + ChunkEfforts(work) && r.cost == m.cost + ChunkCosts(work)
            && (exists chunks :: ChunksOf(work, chunks) && r.effort == m.effort + Sum(chunks))
            && r.cost == m.cost + (m.cost - c.cost) / 2.0
            && (affine ==> r.items == m.items)
  {
    BatchReplay(c, c, worker, run, work);
    JobsSimulate(c, worker, affine, work);
    ChunksCostHalf(c, work);
    var chunks := SomeChunks(work);
    ChunksAddUp(work, chunks);
  }

  /** One undisturbed tick on one run, which the worker's load shows as `c`, from one log to the next. */
  ghost predicate TickAppends(c: Core, log: seq<Event>, next: seq<Event>, v: Uuid, affine: bool, maxItems: nat,
                              run: Uuid,
                              work: seq<Job>, batch: seq<Event>) {
    if !Workable(c) then next == log && work == []
    else
      && Taken(c, v, affine, maxItems, work)
      && Payloads(batch) == BatchPayloads(c, v, run, work)
      && Accepts(log, run, batch) && next == Appended(log, run, batch)
  }
}
