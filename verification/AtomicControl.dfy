/**
 * The conditions that safety leaves open, in terms of what the processes could check: a retry decided on
 * the stream it is appended to undoes nothing, and where no batch is older than what its stream already
 * holds no load leads a worker to redo anything. For each run it is enough that its own stream is so.
 */
module AtomicControl {
  import opened Events
  import opened Log
  import opened EventStore
  import opened WorkerReplay
  import opened LoadOrder
  import opened Protocol
  import opened Commits
  import opened ReachableLogs
  import Tick
  import Custody
  import opened ProtocolSafety

  // ---- Retries decided on the stream they append to ----------------------------------------------------

  ghost predicate AtomicRetry(a: World, s: Step, run: Uuid) {
    s.RetryRun? && s.run == run && Accepts(a.log, run, s.batch) ==> Stream(s.decided, run) == Stream(a.log, run)
  }

  ghost predicate AtomicRetries(worlds: seq<World>, steps: seq<Step>, run: Uuid)
    requires |worlds| == |steps| + 1
  {
    forall k :: 0 <= k < |steps| ==> AtomicRetry(worlds[k], steps[k], run)
  }

  lemma {:induction false} AtomicRetriesAreSafe(cfg: Config, worlds: seq<World>, steps: seq<Step>, run: Uuid)
    requires Trace(cfg, worlds, steps) && AtomicRetries(worlds, steps, run)
    ensures SafeRetries(worlds, steps, run)
  {
    forall k | 0 <= k < |steps| ensures SafeRetry(worlds[k], steps[k], run) {
      TraceIsTidy(cfg, worlds, steps, k);
      assert AtomicRetry(worlds[k], steps[k], run);
      ItemsAgree(worlds[k].log, run);
    }
  }

  // ---- Batches that are not older than their stream ------------------------------------------------------

  /** What is appended to the run's stream is not older than what the stream already holds. */
  ghost predicate TimelyAppend(a: World, b: World, run: Uuid) {
    forall j, k :: 0 <= j < k < |b.log| && |a.log| <= k && b.log[j].resourceId == b.log[k].resourceId == run ==>
      b.log[j].occurredAt <= b.log[k].occurredAt
  }

  ghost predicate TimelyAppends(worlds: seq<World>, steps: seq<Step>, run: Uuid)
    requires |worlds| == |steps| + 1
  {
    forall k :: 0 <= k < |steps| ==> TimelyAppend(worlds[k], worlds[k + 1], run)
  }

  ghost predicate TimesFollow(log: seq<Event>, run: Uuid) {
    forall j, k :: 0 <= j < k < |log| && log[j].resourceId == log[k].resourceId == run ==>
        log[j].occurredAt <= log[k].occurredAt
  }

  lemma {:induction false} FollowingStream(log: seq<Event>, run: Uuid)
    requires TimesFollow(log, run)
    ensures TimesNeverDecrease(Stream(log, run))
  {
    if log != [] {
      FollowingStream(Front(log), run);
      var front := Stream(Front(log), run);
      if Last(log).resourceId == run {
        forall k | 0 <= k < |front| ensures front[k].occurredAt <= Last(log).occurredAt {
          StreamIsSubset(Front(log), run);
          var j :| 0 <= j < |Front(log)| && Front(log)[j] == front[k];
          assert log[j] == front[k] && log[|log| - 1] == Last(log);
        }
      }
    }
  }

  lemma {:induction false} TimelyTrace(cfg: Config, worlds: seq<World>, steps: seq<Step>, k: nat, run: Uuid)
    requires Trace(cfg, worlds, steps) && k < |worlds| && TimelyAppends(worlds, steps, run)
    ensures TimesFollow(worlds[k].log, run)
  {
    if k > 0 {
      var a, b := worlds[k - 1], worlds[k];
      TimelyTrace(cfg, worlds, steps, k - 1, run);
      assert Next(cfg, a, steps[k - 1], b) && TimelyAppend(a, b, run);
      StepExtends(cfg, a, steps[k - 1], b);
      forall i, j | 0 <= i < j < |b.log| && b.log[i].resourceId == b.log[j].resourceId == run
        ensures b.log[i].occurredAt <= b.log[j].occurredAt
      {
        if j < |a.log| {
          assert a.log[i] == b.log[i] && a.log[j] == b.log[j];
        }
      }
    }
  }

  /** Where a run's times follow its revisions, no load leads anyone to redo a completed item. */
  lemma {:induction false} TimelyStreamTemptsNobody(cfg: Config, a: World, seen: seq<Event>, v: Uuid, run: Uuid,
                                                    i: Uuid)
    requires Tidy(cfg, a) && IsLoad(a.log, seen) && TimesNeverDecrease(Stream(a.log, run))
    ensures !Redoable(cfg, a.log, v, run, i)
  {
    if Redoable(cfg, a.log, v, run, i) {
      LoadOrderIsHarmless(a.log, seen, run);
      TemptsExactly(cfg, a.log, seen, v, run, i);
      assert false;
    }
  }

  /** A store that accepted no batch older than its stream would make every load of the run safe. */
  lemma {:induction false} TimelyLoadsAreSafe(cfg: Config, worlds: seq<World>, steps: seq<Step>, run: Uuid)
    requires Trace(cfg, worlds, steps) && TimelyAppends(worlds, steps, run)
    ensures SafeLoads(cfg, worlds, steps, run)
  {
    forall k | 0 <= k < |steps| ensures SafeLoad(cfg, worlds[k], steps[k], run) {
      var a, s := worlds[k], steps[k];
      TraceIsTidy(cfg, worlds, steps, k);
      TimelyTrace(cfg, worlds, steps, k, run);
      FollowingStream(a.log, run);
      assert Next(cfg, a, s, worlds[k + 1]);
      if s.Begin? {
        forall i ensures !Redoable(cfg, a.log, s.worker, run, i) {
          TimelyStreamTemptsNobody(cfg, a, s.seen, s.worker, run, i);
        }
      }
    }
  }

  /**
   * With atomic retries of the run, and loads and late commits of it that are safe: its items complete at
   * most once, and once it is closed it has all items done, then and ever after. With affinity everywhere
   * its items never change hands, whatever the conditions.
   */
  lemma {:induction false} AtomicControlIsSafe(cfg: Config, worlds: seq<World>, steps: seq<Step>, j: nat, run: Uuid,
                                               item: Uuid)
    requires Exclusive(cfg) && Trace(cfg, worlds, steps) && j < |worlds|
    ensures AtomicRetries(worlds, steps, run) && SafeLoads(cfg, worlds, steps, run)
            && SafeSurfaces(cfg, worlds, steps, run) ==>
              && Completions(Payloads(Last(worlds).log), run, item) <= 1
              && (Completions(Payloads(Last(worlds).log), run, item) == 1
                  <==> Finished(CoreOf(Last(worlds).log, run).items, item))
              && forall k :: 0 <= k < |worlds[j].log| && Closes(worlds[j].log[k].payload, run) ==>
                   && Tick.AllDone(CoreOf(worlds[j].log[..k + 1], run).items)
                   && Tick.AllDone(CoreOf(Last(worlds).log, run).items)
    ensures Strict(cfg) && item in CoreOf(worlds[j].log, run).items ==>
              AgentOf(CoreOf(Last(worlds).log, run).items, item) == AgentOf(CoreOf(worlds[j].log, run).items, item)
  {
    Custody.TraceIsKin(cfg, worlds, steps, j, |steps|, run);
    if AtomicRetries(worlds, steps, run) && SafeLoads(cfg, worlds, steps, run) &&
        SafeSurfaces(cfg, worlds, steps, run)
    {
      AtomicRetriesAreSafe(cfg, worlds, steps, run);
      CompletedAtMostOnce(cfg, worlds, steps, run, item);
      forall k | 0 <= k < |worlds[j].log| && Closes(worlds[j].log[k].payload, run)
        ensures Tick.AllDone(CoreOf(worlds[j].log[..k + 1], run).items)
        ensures Tick.AllDone(CoreOf(Last(worlds).log, run).items)
      {
        CompletionIsFinal(cfg, worlds, steps, j, |steps|, k, run);
      }
    }
  }

  /**
   * With atomic retries of the run, safe late commits, and a store that accepts no batch of it older than
   * its stream, nothing is left open, and every load shows what the log holds.
   */
  lemma {:induction false} TimelyControlIsSafe(cfg: Config, worlds: seq<World>, steps: seq<Step>, all: seq<Event>,
                                               run: Uuid, item: Uuid)
    requires Exclusive(cfg) && Trace(cfg, worlds, steps) && IsLoad(Last(worlds).log, all)
    requires AtomicRetries(worlds, steps, run) && TimelyAppends(worlds, steps, run)
    requires SafeSurfaces(cfg, worlds, steps, run)
    ensures Completions(Payloads(Last(worlds).log), run, item) <= 1
    ensures Completions(Payloads(Last(worlds).log), run, item) == 1 <==> Finished(CoreOf(all, run).items, item)
  {
    AtomicRetriesAreSafe(cfg, worlds, steps, run);
    TimelyLoadsAreSafe(cfg, worlds, steps, run);
    CompletedAtMostOnce(cfg, worlds, steps, run, item);
    TimelyTrace(cfg, worlds, steps, |steps|, run);
    TraceIsTidy(cfg, worlds, steps, |steps|);
    FollowingStream(Last(worlds).log, run);
    LoadOrderIsHarmless(Last(worlds).log, all, run);
  }
}
