/** What every reachable log of the protocol has in common, and what its replays therefore agree on. */
module ReachableLogs {
  import opened Events
  import opened Log
  import opened EventStore
  import opened WorkerReplay
  import opened Rebuild
  import opened Agreement
  import opened LoadOrder
  import opened Harness
  import opened Tick
  import opened RetryAppend
  import opened Protocol
  import opened Commits
  import opened ProtocolSoundness
  import History
  import RowContents
  import TickReplay
  import Planner
  import Orchestrator
  import opened Projections
  import O = OrchestratorReplay

  /** Chunks carry effort, no run starts twice, and no item belongs to two runs. */
  ghost predicate Orderly(log: seq<Event>) {
    ChunksPositive(log) && OneRunPerItem(log) && forall r: Uuid :: NeverRestarts(log, r)
  }

  ghost predicate NamedBy(log: seq<Event>, run: Uuid, item: Uuid) {
    exists k :: 0 <= k < |log| && Names(log[k].payload, item) && log[k].payload.runId == run
  }

  /** Whatever was read is in the log. */
  ghost predicate ReadFrom(log: seq<Event>, seen: seq<Event>) {
    forall e :: e in seen ==> e in log
  }

  /** Snapshots hold events of the log, and reads are earlier states of it. */
  ghost predicate Tidy(cfg: Config, w: World) {
    && Sound(cfg, w) && Orderly(w.log)
    && (forall v :: v in cfg.workers && w.phases[v].Ticking? ==> ReadFrom(w.log, w.phases[v].seen))
    && (forall p :: p in w.adrift ==> ReadFrom(w.log, p.seen))
    && forall d :: d in w.loaded ==> Kept(d) && d <= w.log
  }

  lemma {:induction false} HeldIsNamed(log: seq<Event>, run: Uuid, item: Uuid)
    requires item in CoreOf(log, run).items
    ensures NamedBy(log, run, item)
  {
    RowContents.HeldWasNamed(log, run, item);
  }

  lemma {:induction false} NamedLater(log: seq<Event>, next: seq<Event>, run: Uuid, item: Uuid)
    requires NamedBy(log, run, item) && ReadFrom(next, log)
    ensures NamedBy(next, run, item)
  {
    var k :| 0 <= k < |log| && Names(log[k].payload, item) && log[k].payload.runId == run;
    assert log[k] in next;
    var j :| 0 <= j < |next| && next[j] == log[k];
  }

  lemma {:induction false} PrefixIsRead(log: seq<Event>, next: seq<Event>)
    requires log <= next
    ensures ReadFrom(next, log)
  {
    forall e | e in log ensures e in next {
      var k :| 0 <= k < |log| && log[k] == e;
      assert next[k] == e;
    }
  }

  // ---- One append -------------------------------------------------------------------------------------

  /** A batch may name items of its own run, or items nobody has named. */
  ghost predicate OwnItems(log: seq<Event>, run: Uuid, ps: seq<Payload>) {
    forall k :: 0 <= k < |ps| && NamesItem(ps[k]) ==> NamedBy(log, run, ps[k].itemId) || Unnamed(log, ps[k].itemId)
  }

  lemma {:induction false} OwnersStay(log: seq<Event>, run: Uuid, rows: seq<Event>)
    requires OneRunPerItem(log) && Proper(Payloads(rows), run) && OwnItems(log, run, Payloads(rows))
    ensures OneRunPerItem(log + rows)
  {
    var next := log + rows;
    forall k | |log| <= k < |next| && NamesItem(next[k].payload) ensures next[k].payload.runId == run {
      assert About(Payloads(rows)[k - |log|], run);
    }
    forall j, k | 0 <= j < |next| && 0 <= k < |next| && NamesItem(next[j].payload) &&
        Names(next[k].payload, next[j].payload.itemId)
      ensures next[j].payload.runId == next[k].payload.runId
    {
      if j < |log| <= k {
        OwnerOfNew(log, run, rows, j, k - |log|);
      } else if k < |log| <= j {
        OwnerOfNew(log, run, rows, k, j - |log|);
      }
    }
  }

  lemma {:induction false} OwnerOfNew(log: seq<Event>, run: Uuid, rows: seq<Event>, j: nat, k: nat)
    requires OneRunPerItem(log) && OwnItems(log, run, Payloads(rows))
    requires j < |log| && k < |rows| && NamesItem(rows[k].payload) && Names(log[j].payload, rows[k].payload.itemId)
    ensures log[j].payload.runId == run
  {
    var item := Payloads(rows)[k].itemId;
    assert NamedBy(log, run, item) || Unnamed(log, item);
    var i :| 0 <= i < |log| && Names(log[i].payload, item) && log[i].payload.runId == run;
  }

  lemma {:induction false} AppendOrderly(log: seq<Event>, run: Uuid, batch: seq<Event>)
    requires Orderly(log) && Proper(Payloads(batch), run) && OwnItems(log, run, Payloads(batch))
    requires forall k :: 0 <= k < |batch| ==> !batch[k].payload.RunStarted?
    requires forall k :: 0 <= k < |batch| && batch[k].payload.ProgressChunkEmitted? ==> batch[k].payload.effort >= 1
    ensures Orderly(Appended(log, run, batch))
  {
    if Accepts(log, run, batch) {
      var rows := Stamp(batch, run);
      RebasedPayloads(batch, 0, run);
      OwnersStay(log, run, rows);
      forall r ensures NeverRestarts(log + rows, r) {
        RestartsNot(log, rows, r);
      }
    }
  }

  // ---- The batches of workers and control operations --------------------------------------------------

  lemma {:induction false} JobsNameTouched(v: Uuid, run: Uuid, work: seq<Job>, k: nat)
    requires k < |JobPayloads(v, run, work)|
    ensures var p := JobPayloads(v, run, work)[k];
            && (NamesItem(p) ==> TickReplay.Touches(work, p.itemId))
            && (p.ProgressChunkEmitted? ==> p.effort >= 1)
  {
    if work != [] && k < |JobPayloads(v, run, Front(work))| {
      JobsNameTouched(v, run, Front(work), k);
    }
  }

  lemma {:induction false} BatchIsOwn(log: seq<Event>, seen: seq<Event>, v: Uuid, affine: bool, run: Uuid,
                                      work: seq<Job>, k: nat)
    requires ReadFrom(log, seen) && Legal(CoreOf(seen, run), v, affine, work)
    requires k < |BatchPayloads(CoreOf(seen, run), v, run, work)|
    ensures var p := BatchPayloads(CoreOf(seen, run), v, run, work)[k];
            && (NamesItem(p) ==> NamedBy(log, run, p.itemId))
            && (p.ProgressChunkEmitted? ==> p.effort >= 1)
            && !p.RunStarted?
  {
    var p := BatchPayloads(CoreOf(seen, run), v, run, work)[k];
    JobsProper(v, run, work);
    if k < |JobPayloads(v, run, work)| {
      JobsNameTouched(v, run, work, k);
      if NamesItem(p) {
        TickReplay.LegalJobs(CoreOf(seen, run), v, affine, work, p.itemId);
        HeldIsNamed(seen, run, p.itemId);
        NamedLater(seen, log, run, p.itemId);
      }
    }
  }

  lemma {:induction false} LandOrderly(cfg: Config, log: seq<Event>, p: Proposal, latest: int)
    requires Orderly(log) && Shaped(cfg, p) && ReadFrom(log, p.seen)
    ensures Orderly(Landed(log, p, latest))
  {
    var o := p.offer;
    var rebased := Rebased(o.batch, latest);
    RebasedPayloads(o.batch, latest, o.run);
    BatchProper(CoreOf(p.seen, o.run), p.worker, o.run, o.work);
    forall k | 0 <= k < |rebased|
      ensures var q := rebased[k].payload;
              && (NamesItem(q) ==> NamedBy(log, o.run, q.itemId))
              && (q.ProgressChunkEmitted? ==> q.effort >= 1)
              && !q.RunStarted?
    {
      assert rebased[k].payload == Payloads(o.batch)[k];
      BatchIsOwn(log, p.seen, p.worker, p.worker in cfg.affine, o.run, o.work, k);
    }
    AppendOrderly(log, o.run, rebased);
  }

  lemma {:induction false} StartIsFirst(log: seq<Event>, run: Uuid, rows: seq<Event>, r: Uuid)
    requires NeverRestarts(log, r) && !Mentions(log, run)
    requires rows != [] && AllAbout(rows, run) && forall k :: 0 < k < |rows| ==> !rows[k].payload.RunStarted?
    ensures NeverRestarts(log + rows, r)
  {
    if r == run {
      var first := log + [rows[0]];
      assert Front(first) == log && Last(first) == rows[0];
      RestartsNot(first, rows[1..], run);
      assert first + rows[1..] == log + rows;
    } else {
      RestartsNot(log, rows, r);
    }
  }

  lemma {:induction false} StartOrderly(log: seq<Event>, run: Uuid, workspace: Uuid, objective: string,
                                        dealt: seq<Planner.WorkItem>, batch: seq<Event>)
    requires Kept(log) && Orderly(log) && Stream(log, run) == []
    requires forall k :: 0 <= k < |dealt| ==> dealt[k].agent.Some? && Unnamed(log, dealt[k].id)
    requires Payloads(batch) == Orchestrator.StartPayloads(run, workspace, objective, dealt)
    ensures Orderly(Appended(log, run, batch))
  {
    if Accepts(log, run, batch) {
      var rows := Stamp(batch, run);
      RebasedPayloads(batch, 0, run);
      StartRows(log, run, workspace, objective, dealt, rows);
      OwnersStay(log, run, rows);
      UnmentionedInEmptyStream(log, run);
      forall r ensures NeverRestarts(log + rows, r) {
        StartIsFirst(log, run, rows, r);
      }
    }
  }

  lemma {:induction false} StartRows(log: seq<Event>, run: Uuid, workspace: Uuid, objective: string,
                                     dealt: seq<Planner.WorkItem>, rows: seq<Event>)
    requires forall k :: 0 <= k < |dealt| ==> dealt[k].agent.Some? && Unnamed(log, dealt[k].id)
    requires Payloads(rows) == Orchestrator.StartPayloads(run, workspace, objective, dealt)
    requires forall k :: 0 <= k < |rows| ==> rows[k].resourceId == run
    ensures rows != [] && Proper(Payloads(rows), run) && OwnItems(log, run, Payloads(rows)) && AllAbout(rows, run)
    ensures forall k :: 0 < k < |rows| ==> !rows[k].payload.RunStarted?
    ensures forall k :: 0 <= k < |rows| ==> !rows[k].payload.ProgressChunkEmitted?
  {
    assert |rows| == |Payloads(rows)|;
    forall k | 0 < k < |rows|
      ensures rows[k].payload == WorkItemAssigned(run, dealt[k - 1].id, dealt[k - 1].agent.value)
    {
      assert rows[k].payload == Payloads(rows)[k];
    }
    assert rows[0].payload == Payloads(rows)[0];
  }

  lemma {:induction false} RetryOrderly(a: World, run: Uuid, decided: seq<Event>, order: seq<Uuid>,
                                        newAgent: Uuid -> Uuid, batch: seq<Event>)
    requires Orderly(a.log) && Kept(decided) && decided <= a.log
    requires Orchestrator.Enumerates(order, O.FromStream(Stream(decided, run)).items)
    requires Payloads(batch)
            == Orchestrator.RetryPayloads(run, O.FromStream(Stream(decided, run)).items, order, newAgent)
    ensures Orderly(Appended(a.log, run, batch))
  {
    var items := O.FromStream(Stream(decided, run)).items;
    PrefixIsRead(decided, a.log);
    ItemsAgree(decided, run);
    RetryProper(run, items, order, newAgent);
    forall k | 0 <= k < |batch| && NamesItem(Payloads(batch)[k])
        ensures NamedBy(a.log, run, Payloads(batch)[k].itemId) {
      var item := Payloads(batch)[k].itemId;
      assert item == order[k - 1] && item in order && Orchestrator.Unfinished(items, item);
      HeldIsNamed(decided, run, item);
      NamedLater(decided, a.log, run, item);
    }
    assert forall k :: 0 <= k < |batch| ==> batch[k].payload == Payloads(batch)[k];
    AppendOrderly(a.log, run, batch);
  }

  lemma {:induction false} PlainOrderly(log: seq<Event>, run: Uuid, batch: seq<Event>)
    requires Orderly(log)
    requires forall k :: 0 <= k < |batch| ==>
               var p := batch[k].payload; IsCreation(p) || (p.RunStatusChanged? && p.runId == run)
    ensures Orderly(Appended(log, run, batch))
  {
    assert forall k :: 0 <= k < |batch| ==> Payloads(batch)[k] == batch[k].payload;
    AppendOrderly(log, run, batch);
  }

  // ---- Traces -------------------------------------------------------------------------------------------

  lemma {:induction false} StepOrderly(cfg: Config, a: World, s: Step, b: World)
    requires Tidy(cfg, a) && Next(cfg, a, s, b)
    ensures Orderly(b.log)
  {
    match s
    case Attempt(v, latest, link) =>
      LandOrderly(cfg, a.log, Proposal(v, a.phases[v].seen, a.phases[v].offer.value), latest);
    case Surface(p, latest) =>
      LandOrderly(cfg, a.log, p, latest);
    case StartRun(run, workspace, objective, dealt, batch) =>
      StartOrderly(a.log, run, workspace, objective, dealt, batch);
    case ChangeStatus(run, decided, status, reason, batch) =>
      assert |batch| == 1 && batch[0].payload == Payloads(batch)[0];
      PlainOrderly(a.log, run, batch);
    case RetryRun(run, decided, order, newAgent, batch) =>
      RetryOrderly(a, run, decided, order, newAgent, batch);
    case CreateOther(aggregate, batch) =>
      PlainOrderly(a.log, aggregate, batch);
    case _ =>
  }

  lemma {:induction false} StepTidy(cfg: Config, a: World, s: Step, b: World)
    requires Tidy(cfg, a) && Next(cfg, a, s, b)
    ensures Tidy(cfg, b)
  {
    StepSound(cfg, a, s, b);
    StepOrderly(cfg, a, s, b);
    StepExtends(cfg, a, s, b);
    PrefixIsRead(a.log, b.log);
    if s.Begin? {
      LoadedMembers(a.log, s.seen);
    }
  }

  lemma {:induction false} TraceIsTidy(cfg: Config, worlds: seq<World>, steps: seq<Step>, k: nat)
    requires Trace(cfg, worlds, steps) && k < |worlds|
    ensures Tidy(cfg, worlds[k])
  {
    if k > 0 {
      TraceIsTidy(cfg, worlds, steps, k - 1);
      assert Next(cfg, worlds[k - 1], steps[k - 1], worlds[k]);
      StepTidy(cfg, worlds[k - 1], steps[k - 1], worlds[k]);
    } else {
      TraceIsSound(cfg, worlds, steps, 0);
    }
  }

  // ---- Items at rest, in any load ---------------------------------------------------------------------

  ghost predicate Answers(x: Event, e: Event) {
    && (x.payload.WorkItemCompleted? || x.payload.WorkItemFailed?)
    && e.payload.WorkItemStarted? && x.payload.runId == e.payload.runId && x.payload.itemId == e.payload.itemId
    && NotAfter(e, x)
  }

  /** Every start is answered by a completion or a failure that is not before it. */
  ghost predicate Answered(log: seq<Event>) {
    forall e :: e in log && e.payload.WorkItemStarted? ==> exists x :: x in log && Answers(x, e)
  }

  ghost predicate OffersInTime(w: World) {
    && Answered(w.log)
    && (forall v :: v in w.phases && w.phases[v].Ticking? && w.phases[v].offer.Some? ==>
          TimesNeverDecrease(w.phases[v].offer.value.batch))
    && forall p :: p in w.adrift ==> TimesNeverDecrease(p.offer.batch)
  }

  /** The clock of a worker does not go back while it stamps one batch. */
  ghost predicate BatchesInTime(steps: seq<Step>) {
    forall k :: 0 <= k < |steps| && steps[k].Build? ==> TimesNeverDecrease(steps[k].batch)
  }

  lemma {:induction false} StartIsAnswered(v: Uuid, run: Uuid, j: Job, k: nat)
    requires k < |ExecutionPayloads(v, run, j.item, j.outcome)|
    requires ExecutionPayloads(v, run, j.item, j.outcome)[k].WorkItemStarted?
    ensures k == 0 && |ExecutionPayloads(v, run, j.item, j.outcome)| > 1
    ensures var ps := ExecutionPayloads(v, run, j.item, j.outcome);
            var p, q := ps[0], ps[1];
            (q.WorkItemCompleted? || q.WorkItemFailed?) && q.runId == p.runId && q.itemId == p.itemId
  {
  }

  lemma {:induction false} StartIsFollowed(v: Uuid, run: Uuid, work: seq<Job>, k: nat)
    requires k < |JobPayloads(v, run, work)| && JobPayloads(v, run, work)[k].WorkItemStarted?
    ensures k + 1 < |JobPayloads(v, run, work)|
    ensures var p, q := JobPayloads(v, run, work)[k], JobPayloads(v, run, work)[k + 1];
            (q.WorkItemCompleted? || q.WorkItemFailed?) && q.runId == p.runId && q.itemId == p.itemId
  {
    if work != [] {
      var front := JobPayloads(v, run, Front(work));
      if k < |front| {
        StartIsFollowed(v, run, Front(work), k);
      } else {
        StartIsAnswered(v, run, Last(work), k - |front|);
      }
    }
  }

  lemma {:induction false} AnsweredTogether(log: seq<Event>, rows: seq<Event>)
    requires Answered(log)
    requires forall k :: 0 <= k < |rows| && rows[k].payload.WorkItemStarted? ==>
               k + 1 < |rows| && Answers(rows[k + 1], rows[k])
    ensures Answered(log + rows)
  {
    forall e | e in log + rows && e.payload.WorkItemStarted? ensures exists x :: x in log + rows && Answers(x, e) {
      if e in log {
        var x :| x in log && Answers(x, e);
        assert x in log + rows;
      } else {
        var k :| 0 <= k < |rows| && rows[k] == e;
        assert rows[k + 1] in log + rows;
      }
    }
  }

  lemma {:induction false} LandAnswered(cfg: Config, log: seq<Event>, p: Proposal, latest: int)
    requires Answered(log) && Shaped(cfg, p) && TimesNeverDecrease(p.offer.batch)
    ensures Answered(Landed(log, p, latest))
  {
    var o := p.offer;
    var rows := Stamp(Rebased(o.batch, latest), o.run);
    var jobs := JobPayloads(p.worker, o.run, o.work);
    assert |Payloads(o.batch)| == |o.batch|;
    forall k | 0 <= k < |rows| && rows[k].payload.WorkItemStarted?
      ensures k + 1 < |rows| && Answers(rows[k + 1], rows[k])
    {
      assert rows[k].payload == Payloads(o.batch)[k];
      assert k < |jobs| && jobs[k] == rows[k].payload;
      StartIsFollowed(p.worker, o.run, o.work, k);
      assert rows[k + 1].payload == Payloads(o.batch)[k + 1] == jobs[k + 1];
    }
    if Lands(log, p, latest) {
      AnsweredTogether(log, rows);
    }
  }

  lemma {:induction false} StartlessAnswered(log: seq<Event>, run: Uuid, batch: seq<Event>)
    requires Answered(log) && forall k :: 0 <= k < |batch| ==> !Payloads(batch)[k].WorkItemStarted?
    ensures Answered(Appended(log, run, batch))
  {
    if Accepts(log, run, batch) {
      forall k | 0 <= k < |batch| ensures !Stamp(batch, run)[k].payload.WorkItemStarted? {
        assert batch[k].payload == Payloads(batch)[k];
      }
      AnsweredTogether(log, Stamp(batch, run));
    }
  }

  lemma {:induction false} ControlAnswered(cfg: Config, a: World, s: Step, b: World)
    requires Answered(a.log) && Next(cfg, a, s, b)
    requires s.StartRun? || s.ChangeStatus? || s.RetryRun? || s.CreateOther?
    ensures Answered(b.log)
  {
    StartlessAnswered(a.log, if s.CreateOther? then s.aggregate else s.run, s.batch);
  }

  lemma {:induction false} StepAnswered(cfg: Config, a: World, s: Step, b: World)
    requires Sound(cfg, a) && OffersInTime(a) && Next(cfg, a, s, b)
    requires s.Build? ==> TimesNeverDecrease(s.batch)
    ensures OffersInTime(b)
  {
    match s
    case Attempt(v, latest, link) =>
      LandAnswered(cfg, a.log, Proposal(v, a.phases[v].seen, a.phases[v].offer.value), latest);
    case Surface(p, latest) =>
      LandAnswered(cfg, a.log, p, latest);
    case StartRun(_, _, _, _, _) =>
      ControlAnswered(cfg, a, s, b);
    case ChangeStatus(_, _, _, _, _) =>
      ControlAnswered(cfg, a, s, b);
    case RetryRun(_, _, _, _, _) =>
      ControlAnswered(cfg, a, s, b);
    case CreateOther(_, _) =>
      ControlAnswered(cfg, a, s, b);
    case _ =>
  }

  lemma {:induction false} TraceAnswered(cfg: Config, worlds: seq<World>, steps: seq<Step>, k: nat)
    requires Trace(cfg, worlds, steps) && BatchesInTime(steps) && k < |worlds|
    ensures OffersInTime(worlds[k])
  {
    if k > 0 {
      TraceAnswered(cfg, worlds, steps, k - 1);
      TraceIsSound(cfg, worlds, steps, k - 1);
      assert Next(cfg, worlds[k - 1], steps[k - 1], worlds[k]);
      assert steps[k - 1].Build? ==> TimesNeverDecrease(steps[k - 1].batch);
      StepAnswered(cfg, worlds[k - 1], steps[k - 1], worlds[k]);
    }
  }

  /**
   * A load of a reachable log shows an item "running" exactly when the item's latest event is a start;
   * which it never is, for any workers and any retries, if no clock goes back within one batch.
   */
  lemma {:induction false} LoadShowsRunningItemExactly(cfg: Config, worlds: seq<World>, steps: seq<Step>, k: nat,
                                                       all: seq<Event>, run: Uuid, item: Uuid)
    requires Trace(cfg, worlds, steps) && k < |worlds| && IsLoad(worlds[k].log, all)
    ensures StatusOf(CoreOf(all, run).items, item) == Some(InProgress)
       <==> exists e :: IsLatest(worlds[k].log, ItemTopic(run, item), e) && e.payload.WorkItemStarted?
    ensures BatchesInTime(steps) ==> StatusOf(CoreOf(all, run).items, item) != Some(InProgress)
  {
    var log, t := worlds[k].log, ItemTopic(run, item);
    TraceIsSound(cfg, worlds, steps, k);
    LoadShowsItem(log, all, run, item, InProgress);
    if e :| IsLatest(log, t, e) && e.payload.WorkItemStarted? {
      assert ItemStep(None, e.payload).status == InProgress;
      if BatchesInTime(steps) {
        TraceAnswered(cfg, worlds, steps, k);
        StartIsNotLatest(log, run, item, e);
      }
    }
  }

  lemma {:induction false} StartIsNotLatest(log: seq<Event>, run: Uuid, item: Uuid, e: Event)
    requires Kept(log) && Answered(log) && e.payload.WorkItemStarted?
    ensures !IsLatest(log, ItemTopic(run, item), e)
  {
    var t := ItemTopic(run, item);
    if IsLatest(log, t, e) {
      var x :| x in log && Answers(x, e);
      assert On(t, x);
      OneHome(log, t, e);
      OneHome(log, t, x);
      RevisionNamesEvent(log, e, x);
    }
  }

  // ---- The cross-check ----------------------------------------------------------------------------------

  /**
   * The cross-check of the replays of one load, which PLAN.md asks for. In every reachable log, for any
   * workers, any interleaving and any timestamps, whatever order the load gives, the worker's replay
   * and the rebuilt rows give a run the same items with the same statuses.
   */
  lemma {:induction false} LoadedItemsAgree(cfg: Config, worlds: seq<World>, steps: seq<Step>, k: nat, all: seq<Event>,
                                            run: Uuid, item: Uuid)
    requires Trace(cfg, worlds, steps) && k < |worlds| && IsLoad(worlds[k].log, all)
    ensures var row := ItemRowOf(all, item);
            StatusOf(CoreOf(all, run).items, item)
            == if row.Some? && row.value.runId == run then Some(row.value.status) else None
    ensures CoreOf(all, run).items.Keys == O.FromStream(Stream(worlds[k].log, run)).items.Keys
  {
    var log := worlds[k].log;
    TraceIsTidy(cfg, worlds, steps, k);
    LoadedHoused(log, all);
    LoadedOwners(log, all);
    ItemsAgree(all, run);
    RebuiltItemsAgree(all, run, item);
    LoadKeepsKeys(log, all, run);
    ItemsAgree(log, run);
  }

  lemma {:induction false} LoadedOwners(log: seq<Event>, all: seq<Event>)
    requires OneRunPerItem(log) && IsLoad(log, all)
    ensures OneRunPerItem(all)
  {
    LoadedMembers(log, all);
    forall j, k | 0 <= j < |all| && 0 <= k < |all| && NamesItem(all[j].payload) &&
        Names(all[k].payload, all[j].payload.itemId)
      ensures all[j].payload.runId == all[k].payload.runId
    {
      assert all[j] in log && all[k] in log;
      var i :| 0 <= i < |log| && log[i] == all[j];
      var l :| 0 <= l < |log| && log[l] == all[k];
      assert Names(log[l].payload, log[i].payload.itemId);
    }
  }

  /**
   * The worker's load against the orchestrator's read of the stream, in every reachable log: they show
   * an item in the same status exactly when the item's latest event, by time, sets the status that its
   * last event in revision order set.
   */
  lemma {:induction false} LoadAgreesWithStreamExactly(cfg: Config, worlds: seq<World>, steps: seq<Step>, k: nat,
                                                       all: seq<Event>, run: Uuid, item: Uuid)
    requires Trace(cfg, worlds, steps) && k < |worlds| && IsLoad(worlds[k].log, all)
    requires item in O.FromStream(Stream(worlds[k].log, run)).items
    ensures StatusOf(CoreOf(all, run).items, item) == StatusOf(O.FromStream(Stream(worlds[k].log, run)).items, item)
       <==> ShownAs(worlds[k].log, run, item, O.FromStream(Stream(worlds[k].log, run)).items[item].status)
  {
    var log := worlds[k].log;
    TraceIsTidy(cfg, worlds, steps, k);
    ItemsAgree(log, run);
    LoadKeepsKeys(log, all, run);
    assert item in CoreOf(all, run).items.Keys;
    LoadShowsItem(log, all, run, item, O.FromStream(Stream(log, run)).items[item].status);
  }

  /** Where the timestamps of a run follow its revisions, all three replays hold the same items. */
  lemma {:induction false} ItemReplaysAgree(cfg: Config, worlds: seq<World>, steps: seq<Step>, k: nat, all: seq<Event>,
                                            run: Uuid, item: Uuid)
    requires Trace(cfg, worlds, steps) && k < |worlds| && IsLoad(worlds[k].log, all)
    requires TimesNeverDecrease(Stream(worlds[k].log, run))
    ensures O.FromStream(Stream(worlds[k].log, run)).items == CoreOf(all, run).items
    ensures var row := ItemRowOf(all, item);
            StatusOf(CoreOf(all, run).items, item)
            == if row.Some? && row.value.runId == run then Some(row.value.status) else None
  {
    TraceIsTidy(cfg, worlds, steps, k);
    LoadOrderIsHarmless(worlds[k].log, all, run);
    ItemsAgree(worlds[k].log, run);
    LoadedItemsAgree(cfg, worlds, steps, k, all, run, item);
  }

  /**
   * Conservation over every reachable log, in whatever order it is loaded: the worker's replay and the
   * last point of the history hold the sum of effort and cost over the run's completions and progress
   * chunks, and so does the rebuilt row unless the load puts some of the work before the run's start.
   */
  lemma {:induction false} AccountsAgree(cfg: Config, worlds: seq<World>, steps: seq<Step>, k: nat, all: seq<Event>,
                                         run: Uuid)
    requires Trace(cfg, worlds, steps) && k < |worlds| && IsLoad(worlds[k].log, all)
    ensures var log := worlds[k].log;
            var points := History.PointsOf(Stream(log, run));
            && CoreOf(all, run).effort == SumEffort(log, run) && CoreOf(all, run).cost == SumCost(log, run)
            && (RunRowOf(all, run).Some? <==> Mentions(log, run))
            && (RunRowOf(all, run).Some? ==>
                  && RunRowOf(all, run).value.effort == SumEffort(log, run) - EffortBeforeStart(all, run)
                  && RunRowOf(all, run).value.cost == SumCost(log, run) - CostBeforeStart(all, run))
            && (NeverRestarts(all, run) ==> EffortBeforeStart(all, run) == 0 && CostBeforeStart(all, run) == 0.0)
            && (points != [] ==> Last(points).effort == SumEffort(log, run) && Last(points).cost == SumCost(log, run))
            && (points == [] ==> SumEffort(log, run) == 0 && SumCost(log, run) == 0.0)
            && CompletedEffort(log, run) <= SumEffort(log, run)
  {
    var log := worlds[k].log;
    TraceIsTidy(cfg, worlds, steps, k);
    TotalsConserved(log, run);
    TotalsIgnoreOrder(log, all, run);
    WorkerTotals(all, run);
    RebuiltTotals(all, run);
    if NeverRestarts(all, run) {
      NothingBeforeStart(all, run);
    }
    RowIffMentioned(all, run);
    if Mentions(log, run) {
      MentionsIgnoresOrder(log, all, run);
    }
    if Mentions(all, run) {
      MentionsIgnoresOrder(all, log, run);
    }
    CompletedAtMostTotal(log, run);
  }
}
