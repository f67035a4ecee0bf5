/**
 * A failed item deadlocks its run. The workers see the run blocked and leave it alone; the orchestrator
 * sees it running, so it has nothing to retry or to resume.
 */
module Deadlock {
  import opened Events
  import opened Log
  import opened EventStore
  import opened RetryAppend
  import opened Orchestrator
  import opened Protocol
  import opened Commits
  import opened ProtocolSoundness
  import Agreement
  import LoadOrder
  import opened Halting
  import O = OrchestratorReplay

  /** Running for the orchestrator, not running in any load. */
  ghost predicate Deadlocked(log: seq<Event>, run: Uuid) {
    O.FromStream(Stream(log, run)).status == Running && !LoadOrder.RunsLast(log, run)
  }

  /** Some order in which the log may be loaded. */
  lemma {:induction false} SomeLoad(log: seq<Event>) returns (all: seq<Event>)
    ensures IsLoad(log, all)
  {
    if log == [] {
      all := [];
    } else {
      var rest := SomeLoad(Front(log));
      var at := InsertionPoint(rest, Last(log));
      all := rest[..at] + [Last(log)] + rest[at..];
      InsertKeepsOrder(rest, at, Last(log));
      InsertMultiset(rest, at, Last(log));
      FrontMultiset(log);
    }
  }

  lemma {:induction false} InsertMultiset(events: seq<Event>, at: nat, e: Event)
    requires at <= |events|
    ensures multiset(events[..at] + [e] + events[at..]) == multiset(events) + multiset{e}
  {
    assert events == events[..at] + events[at..];
  }

  lemma {:induction false} InsertionPoint(events: seq<Event>, e: Event) returns (at: nat)
    requires InLoadOrder(events)
    ensures at <= |events| && (at > 0 ==> NotAfter(events[at - 1], e))
    ensures forall j :: at <= j < |events| ==> NotAfter(e, events[j])
  {
    at := |events|;
    while at > 0 && !NotAfter(events[at - 1], e)
      invariant at <= |events|
      invariant forall j :: at <= j < |events| ==> NotAfter(e, events[j])
    {
      at := at - 1;
    }
  }

  /**
   * A run that the orchestrator has running is deadlocked exactly when a failed item is its last status
   * event, where its times follow its revisions.
   */
  lemma {:induction false} FailureDeadlocks(log: seq<Event>, run: Uuid)
    requires LoadOrder.Kept(log) && TimesNeverDecrease(Stream(log, run))
    requires O.FromStream(Stream(log, run)).status == Running
    ensures Deadlocked(log, run) <==> Agreement.FailedSince(log, run)
  {
    var all := SomeLoad(log);
    LoadOrder.LoadOrderIsHarmless(log, all, run);
    LoadOrder.LoadShowsRunning(log, all, run);
    Agreement.OrchestratorStatusAgrees(log, run);
  }

  /**
   * Whoever asks for a retry of a deadlocked run and then for its resumption is told that nothing changes, or
   * that a read failed, and nothing is written; whatever the weather and whatever others would have written.
   */
  method RetryThenResume(o: Orchestrator, run: Uuid, newAgent: Uuid -> Uuid, c: Circumstances, d: Circumstances,
                         firstId: Uuid, at: int)
      returns (retried: Reply, resumed: Reply)
    requires o.store.Valid() && Deadlocked(o.store.log, run)
    modifies o.store
    ensures o.store.log == old(o.store.log)
    ensures retried == if c.firstReadFails then Errored else Unchanged
    ensures resumed == if d.firstReadFails then Errored else Unchanged
  {
    assert Stream(o.store.log, run) != [];
    var reply, _, _ := o.RetryRun(run, newAgent, c, firstId, at);
    var answer, _ := o.ResumeRun(run, d, firstId, at);
    retried, resumed := reply, answer;
  }

  /** Of the control operations that change the run, only those that set it to another status than running. */
  ghost predicate LeavesRun(a: World, s: Step, b: World, run: Uuid) {
    (s.ChangeStatus? || s.RetryRun?) && s.run == run && b.log != a.log ==>
      && Stream(s.decided, run) == Stream(a.log, run)
      && (s.ChangeStatus? ==> s.status == Running)
  }

  lemma {:induction false} DeadlockStep(cfg: Config, a: World, s: Step, b: World, run: Uuid)
    requires Sound(cfg, a) && Next(cfg, a, s, b) && Deadlocked(a.log, run) && Arms(a, cfg.workers, run) == 0
    requires LeavesRun(a, s, b, run)
    ensures Stream(b.log, run) == Stream(a.log, run)
    ensures Deadlocked(b.log, run) && Arms(b, cfg.workers, run) == 0
  {
    StepDisarms(cfg, a, s, b, cfg.workers, run);
    DeadlockedStream(cfg, a, s, b, run);
    StepStaysHalted(cfg, a, s, b, run);
  }

  lemma {:induction false} AppendedElsewhere(log: seq<Event>, home: Uuid, batch: seq<Event>, run: Uuid)
    requires Accepts(log, home, batch) ==> home != run
    ensures Stream(Appended(log, home, batch), run) == Stream(log, run)
  {
    if Accepts(log, home, batch) {
      AppendExtendsStream(log, home, batch, run);
      assert Stream(log, run) + [] == Stream(log, run);
    }
  }

  lemma {:induction false} LandedElsewhere(cfg: Config, log: seq<Event>, p: Proposal, latest: int, run: Uuid)
    requires Shaped(cfg, p)
    ensures Landed(log, p, latest) == log || p.offer.run != run ==>
              Stream(Landed(log, p, latest), run) == Stream(log, run)
  {
    LandedIds(cfg, log, p, latest);
    if p.offer.run != run {
      AppendedElsewhere(log, p.offer.run, Rebased(p.offer.batch, latest), run);
    }
  }

  lemma {:induction false} DeadlockedStream(cfg: Config, a: World, s: Step, b: World, run: Uuid)
    requires Sound(cfg, a) && Next(cfg, a, s, b) && Deadlocked(a.log, run) && LeavesRun(a, s, b, run)
    requires !CommitsTo(a, s, b, cfg.workers, run)
    ensures Stream(b.log, run) == Stream(a.log, run)
    ensures Restarts(s, run) ==> b.log == a.log
  {
    assert Stream(a.log, run) != [];
    match s
    case Attempt(v, latest, link) =>
      assert OfferShaped(cfg, v, a.phases[v]);
      LandedElsewhere(cfg, a.log, Proposal(v, a.phases[v].seen, a.phases[v].offer.value), latest, run);
    case Surface(p, latest) =>
      LandedElsewhere(cfg, a.log, p, latest, run);
    case StartRun(r, workspace, objective, dealt, batch) =>
      AppendedElsewhere(a.log, r, batch, run);
    case ChangeStatus(r, decided, status, reason, batch) =>
      AppendedElsewhere(a.log, r, batch, run);
    case RetryRun(r, decided, order, newAgent, batch) =>
      AppendedElsewhere(a.log, r, batch, run);
    case CreateOther(aggregate, batch) =>
      AppendedElsewhere(a.log, aggregate, batch, run);
    case _ =>
  }

  /**
   * A deadlocked run to which no batch may still be committed stays as it is, whatever the workers, the other
   * runs, and any number of retries and resumes do: only a change to another status than running, or an
   * operation decided on an older read, ever adds to its stream again.
   */
  lemma {:induction false} DeadlockHolds(cfg: Config, worlds: seq<World>, steps: seq<Step>, from: nat, until: nat,
                                         run: Uuid)
    requires Trace(cfg, worlds, steps) && from <= until <= |steps|
    requires Deadlocked(worlds[from].log, run) && Arms(worlds[from], cfg.workers, run) == 0
    requires forall k :: from <= k < until ==> LeavesRun(worlds[k], steps[k], worlds[k + 1], run)
    ensures Stream(worlds[until].log, run) == Stream(worlds[from].log, run)
    ensures Deadlocked(worlds[until].log, run)
    decreases until - from
  {
    if from < until {
      StepAt(cfg, worlds, steps, from);
      DeadlockStep(cfg, worlds[from], steps[from], worlds[from + 1], run);
      DeadlockHolds(cfg, worlds, steps, from + 1, until, run);
    }
  }
}
