/** Rebuilt run status against the worker's, over histories of undisturbed ticks and control operations. */
module StatusHistory {
  import opened Events
  import opened Log
  import opened WorkerReplay
  import Rebuild
  import opened Agreement
  import opened LoadOrder
  import opened Harness
  import opened Tick
  import opened TickReplay
  import opened Protocol
  import EventStore
  import History
  import Planner
  import Orchestrator
  import Commits
  import O = OrchestratorReplay

  /** `WorkedSince` after further payloads of the run. */
  function WorkedAfter(before: bool, ps: seq<Payload>): bool {
    if ps == [] then before
    else if SetsWorkerStatus(Last(ps)) then false
    else History.CarriesWork(Last(ps)) || WorkedAfter(before, Front(ps))
  }

  lemma {:induction false} WorkedConcat(before: bool, a: seq<Payload>, b: seq<Payload>)
    ensures WorkedAfter(before, a + b) == WorkedAfter(WorkedAfter(before, a), b)
  {
    if b == [] {
      assert a + b == a;
    } else {
      assert Front(a + b) == a + Front(b);
      WorkedConcat(before, a, Front(b));
    }
  }

  lemma {:induction false} WorkedBatch(log: seq<Event>, rows: seq<Event>, home: Uuid, run: Uuid)
    requires AllAbout(rows, home)
    ensures WorkedSince(log + rows, run)
         == if run == home then WorkedAfter(WorkedSince(log, run), Payloads(rows)) else WorkedSince(log, run)
  {
    if rows == [] {
      assert log + rows == log;
    } else {
      WorkedBatch(log, Front(rows), home, run);
      assert Front(log + rows) == log + Front(rows);
      assert Front(Payloads(rows)) == Payloads(Front(rows));
    }
  }

  predicate HasFailure(work: seq<Job>) {
    work != [] && (!Succeeds(Last(work).outcome) || HasFailure(Front(work)))
  }

  /** Whether some job succeeds after another has failed. */
  predicate RecoversAfterFailure(work: seq<Job>) {
    work != [] && HasFailure(work) && Succeeds(Last(work).outcome)
  }

  lemma {:induction false} JobWorked(before: bool, v: Uuid, run: Uuid, j: Job)
    ensures WorkedAfter(before, ExecutionPayloads(v, run, j.item, j.outcome)) == Succeeds(j.outcome)
  {
    var ps := ExecutionPayloads(v, run, j.item, j.outcome);
    assert SetsWorkerStatus(Last(ps)) || History.CarriesWork(Last(ps));
  }

  lemma {:induction false} JobsWorked(before: bool, v: Uuid, run: Uuid, work: seq<Job>)
    ensures WorkedAfter(before, JobPayloads(v, run, work))
            == if work == [] then before else Succeeds(Last(work).outcome)
  {
    if work != [] {
      WorkedConcat(before, JobPayloads(v, run, Front(work)),
                   ExecutionPayloads(v, run, Last(work).item, Last(work).outcome));
      JobWorked(WorkedAfter(before, JobPayloads(v, run, Front(work))), v, run, Last(work));
    }
  }

  lemma {:induction false} JobsStatus(c: Core, v: Uuid, work: seq<Job>)
    requires c.status == Running
    ensures ReplayedAll(c, v, work).status == if HasFailure(work) then Blocked else Running
  {
    if work != [] {
      JobsStatus(c, v, Front(work));
    }
  }

  /** A failed job leaves its item failed in memory, so the batch cannot close the run. */
  lemma {:induction false} SomeFailed(c: Core, v: Uuid, affine: bool, work: seq<Job>)
    requires Legal(c, v, affine, work) && HasFailure(work)
    ensures exists f :: f in NoteAll(c, work).items && NoteAll(c, work).items[f].status == Failed
  {
    if Succeeds(Last(work).outcome) {
      SomeFailed(c, v, affine, Front(work));
      var f :| f in NoteAll(c, Front(work)).items && NoteAll(c, Front(work)).items[f].status == Failed;
      assert NoteAll(c, work).items[f].status == Failed;
    } else {
      assert NoteAll(c, work).items[Last(work).item].status == Failed;
    }
  }

  lemma {:induction false} OpensConcat(log: seq<Event>, rows: seq<Event>, run: Uuid)
    requires OpensWithStatus(log, run) && (Mentions(log, run) || OpensWithStatus(rows, run))
    ensures OpensWithStatus(log + rows, run)
    ensures Mentions(log + rows, run) <==> Mentions(log, run) || Mentions(rows, run)
  {
    if rows == [] {
      assert log + rows == log;
    } else {
      OpensConcat(log, Front(rows), run);
      assert Front(log + rows) == log + Front(rows);
      MentionsNext(log + rows, |log + rows| - 1);
      MentionsNext(rows, |rows| - 1);
      assert (log + rows)[..|log + rows| - 1] == Front(log + rows) && (log + rows)[..|log + rows|] == log + rows;
      assert rows[..|rows| - 1] == Front(rows) && rows[..|rows|] == rows;
    }
  }

  /** Rows that open with a status event of the run, or do not mention it. */
  ghost predicate Opening(rows: seq<Event>, run: Uuid) {
    || (rows != [] && RunOf(rows[0]) == Some(run) && SetsWorkerStatus(rows[0].payload))
    || forall k :: 0 <= k < |rows| ==> RunOf(rows[k]) != Some(run)
  }

  lemma {:induction false} OpensRows(rows: seq<Event>, run: Uuid)
    requires Opening(rows, run)
    ensures OpensWithStatus(rows, run)
  {
    if |rows| == 1 {
      assert Front(rows) == [] && Last(rows) == rows[0];
      assert OpensWithStatus([], run);
      assert RunOf(Last(rows)) == Some(run) ==> SetsWorkerStatus(Last(rows).payload);
    } else if |rows| > 1 {
      assert Front(rows)[0] == rows[0] && Last(rows) == rows[|rows| - 1];
      OpensRows(Front(rows), run);
      assert RunOf(rows[0]) == Some(run) ==> Mentions(Front(rows), run);
    }
  }

  /** The rebuilt row of the run exists and shows the status of the worker's replay. */
  ghost predicate Agreed(log: seq<Event>, run: Uuid) {
    Rebuild.RunRowOf(log, run).Some? && Rebuild.RunRowOf(log, run).value.status == CoreOf(log, run).status
  }

  /**
   * One undisturbed tick, of any size, on a run whose two statuses agree: they still agree afterwards
   * exactly when no job of the batch succeeds as the last one after another has failed.
   */
  lemma {:induction false} TickKeepsStatusExactly(log: seq<Event>, next: seq<Event>, v: Uuid, affine: bool,
                                                  maxItems: nat, run: Uuid,
                                                  work: seq<Job>, batch: seq<Event>)
    requires OpensWithStatus(log, run) && Mentions(log, run) && Agreed(log, run)
    requires TickAppends(CoreOf(log, run), log, next, v, affine, maxItems, run, work, batch)
    ensures OpensWithStatus(next, run) && Mentions(next, run)
    ensures Agreed(next, run) <==> !RecoversAfterFailure(work)
  {
    var c := CoreOf(log, run);
    if Workable(c) {
      var rows := Stamp(batch, run);
      Commits.BatchProper(c, v, run, work);
      StampedAbout(batch, run);
      RebasedPayloads(batch, 0, run);
      OpensConcat(log, rows, run);
      WorkedBatch(log, rows, run, run);
      WorkedConcat(WorkedSince(log, run), JobPayloads(v, run, work), Closing(c, run, work));
      JobsWorked(WorkedSince(log, run), v, run, work);
      AppendedCore(log, run, batch, run);
      BatchReplay(c, c, v, run, work);
      JobsStatus(c, v, work);
      RebuiltStatus(next, run);
      if HasFailure(work) {
        SomeFailed(c, v, affine, work);
        assert !AllDone(NoteAll(c, work).items);
      }
    }
  }

  // ---- Whole histories ------------------------------------------------------------------------------

  datatype Move =
    | Control(stream: Uuid, batch: seq<Event>)
    | OneTick(worker: Uuid, affine: bool, run: Uuid, seen: seq<Event>, work: seq<Job>, batch: seq<Event>)

  /** An undisturbed control operation: it decides on the log it appends to. */
  ghost predicate Controlled(log: seq<Event>, stream: Uuid, batch: seq<Event>) {
    var ps := Payloads(batch);
    || (Stream(log, stream) == [] && exists workspace: Uuid, objective: string, dealt: seq<Planner.WorkItem> ::
          && (forall k :: 0 <= k < |dealt| ==> dealt[k].agent.Some?)
          && ps == Orchestrator.StartPayloads(stream, workspace, objective, dealt))
    || (Stream(log, stream) != [] &&
        exists status: RunStatus, reason: string :: ps == [RunStatusChanged(stream, status, reason)])
    || (Stream(log, stream) != [] && exists order: seq<Uuid>, newAgent: Uuid -> Uuid ::
          ps == Orchestrator.RetryPayloads(stream, O.FromStream(Stream(log, stream)).items, order, newAgent))
    || (forall k :: 0 <= k < |ps| ==> IsCreation(ps[k]))
  }

  ghost predicate Moves(log: seq<Event>, m: Move, next: seq<Event>) {
    match m
    case Control(stream, batch) => Controlled(log, stream, batch) && next == Appended(log, stream, batch)
    case OneTick(v, affine, run, seen, work, batch) =>
      && EventStore.IsLoad(log, seen) && EventStore.TimesNeverDecrease(Stream(log, run))
      && TickAppends(CoreOf(seen, run), log, next, v, affine, 1, run, work, batch)
  }

  /** A batch that sets a status first and only assigns after that, or one that is about no run. */
  ghost predicate ControlShape(stream: Uuid, ps: seq<Payload>) {
    && Proper(ps, stream)
    && ((forall k :: 0 <= k < |ps| ==> IsCreation(ps[k]))
        || (ps != [] && (ps[0].RunStarted? || ps[0].RunStatusChanged?)
            && forall k :: 0 < k < |ps| ==> ps[k].WorkItemAssigned?))
  }

  lemma {:induction false} ControlsAreShaped(log: seq<Event>, stream: Uuid, batch: seq<Event>)
    requires Controlled(log, stream, batch)
    ensures ControlShape(stream, Payloads(batch))
  {
  }

  lemma {:induction false} ShapedWorked(before: bool, ps: seq<Payload>)
    requires ps != [] && SetsWorkerStatus(ps[0]) && forall k :: 0 < k < |ps| ==> ps[k].WorkItemAssigned?
    ensures !WorkedAfter(before, ps)
  {
    if |ps| > 1 {
      ShapedWorked(before, Front(ps));
    }
  }

  lemma {:induction false} UnworkedPayloads(before: bool, ps: seq<Payload>)
    requires forall k :: 0 <= k < |ps| ==> IsCreation(ps[k])
    ensures WorkedAfter(before, ps) == before
  {
    if ps != [] {
      UnworkedPayloads(before, Front(ps));
    }
  }

  ghost predicate InStep(log: seq<Event>, run: Uuid) {
    OpensWithStatus(log, run) && (Mentions(log, run) ==> Agreed(log, run))
  }

  /** Events about other runs, or about none, do not touch the run's statuses. */
  lemma {:induction false} StrangersKeepStep(log: seq<Event>, rows: seq<Event>, run: Uuid)
    requires InStep(log, run) && forall k :: 0 <= k < |rows| ==> RunOf(rows[k]) != Some(run)
    ensures InStep(log + rows, run)
  {
    if rows == [] {
      assert log + rows == log;
    } else {
      assert Last(rows) == rows[|rows| - 1];
      StrangersKeepStep(log, Front(rows), run);
      assert Front(log + rows) == log + Front(rows) && Last(log + rows) == Last(rows);
      MentionsNext(log + rows, |log + rows| - 1);
      assert (log + rows)[..|log + rows| - 1] == Front(log + rows) && (log + rows)[..|log + rows|] == log + rows;
    }
  }

  /** A control batch on the run itself sets the status first, in both replays. */
  lemma {:induction false} ControlKeepsStep(log: seq<Event>, stream: Uuid, batch: seq<Event>, run: Uuid)
    requires ControlShape(stream, Payloads(batch)) && InStep(log, run)
    ensures InStep(Appended(log, stream, batch), run)
  {
    var rows, ps := Stamp(batch, stream), Payloads(batch);
    if Accepts(log, stream, batch) {
      StampedAbout(batch, stream);
      RebasedPayloads(batch, 0, stream);
      if run != stream || forall k :: 0 <= k < |ps| ==> IsCreation(ps[k]) {
        forall k | 0 <= k < |rows| ensures RunOf(rows[k]) != Some(run) {
          assert rows[k].payload == ps[k];
        }
        StrangersKeepStep(log, rows, run);
      } else {
        assert rows[0].payload == ps[0] && About(ps[0], run);
        OpensRows(rows, run);
        OpensConcat(log, rows, run);
        WorkedBatch(log, rows, stream, run);
        ShapedWorked(WorkedSince(log, run), ps);
        RebuiltStatus(log + rows, run);
      }
    }
  }

  lemma {:induction false} TickKeepsStep(log: seq<Event>, next: seq<Event>, v: Uuid, affine: bool, home: Uuid,
                                         work: seq<Job>, batch: seq<Event>, run: Uuid)
    requires Kept(log) && InStep(log, run) && InStep(log, home)
    requires TickAppends(CoreOf(log, home), log, next, v, affine, 1, home, work, batch)
    ensures InStep(next, run) && Kept(next)
  {
    var c := CoreOf(log, home);
    if Workable(c) {
      Commits.BatchProper(c, v, home, work);
      AppendedKept(log, home, batch);
      if run == home {
        if !Mentions(log, run) {
          UnmentionedIsBlank(log, run);
          assert false;
        }
        TickKeepsStatusExactly(log, next, v, affine, 1, run, work, batch);
        assert work != [] ==> Front(work) == [] && !HasFailure(Front(work));
        assert !RecoversAfterFailure(work);
      } else {
        StampedAbout(batch, home);
        StrangersKeepStep(log, Stamp(batch, home), run);
      }
    }
  }

  ghost predicate Chronicle(logs: seq<seq<Event>>, moves: seq<Move>) {
    && |logs| == |moves| + 1 && logs[0] == []
    && forall k :: 0 <= k < |moves| ==> Moves(logs[k], moves[k], logs[k + 1])
  }

  /** A load of a log in which the run's times follow its revisions shows both statuses as they are. */
  lemma {:induction false} LoadedStatuses(log: seq<Event>, all: seq<Event>, run: Uuid)
    requires Kept(log) && EventStore.IsLoad(log, all) && EventStore.TimesNeverDecrease(Stream(log, run))
    ensures Agreed(all, run) <==> Agreed(log, run)
  {
    LoadOrderIsHarmless(log, all, run);
  }

  /**
   * Over every history of one-item ticks and undisturbed control operations, the rebuilt projection
   * and the worker's replay show the same status of every run, at every log on the way, although the
   * two write the status on different events.
   */
  lemma {:induction false} StatusesAgreeThroughout(logs: seq<seq<Event>>, moves: seq<Move>, k: nat, run: Uuid)
    requires Chronicle(logs, moves) && k < |logs|
    ensures Kept(logs[k]) && OpensWithStatus(logs[k], run)
    ensures Mentions(logs[k], run) ==>
              Rebuild.RunRowOf(logs[k], run).Some? &&
                  Rebuild.RunRowOf(logs[k], run).value.status == CoreOf(logs[k], run).status
    decreases k
  {
    if k > 0 {
      var log, m, next := logs[k - 1], moves[k - 1], logs[k];
      assert Moves(log, m, next);
      StatusesAgreeThroughout(logs, moves, k - 1, run);
      match m
      case Control(stream, batch) =>
        ControlsAreShaped(log, stream, batch);
        AppendedKept(log, stream, batch);
        ControlKeepsStep(log, stream, batch, run);
      case OneTick(v, affine, home, seen, work, batch) =>
        LoadOrderIsHarmless(log, seen, home);
        StatusesAgreeThroughout(logs, moves, k - 1, home);
        TickKeepsStep(log, next, v, affine, home, work, batch, run);
    }
  }
}
