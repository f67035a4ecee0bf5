/** Pausing or cancelling a run: when it takes hold, and how much can still be written to the run. */
module Halting {
  import opened Events
  import opened Log
  import opened WorkerReplay
  import opened LoadOrder
  import opened Tick
  import opened RetryAppend
  import opened Protocol
  import opened Commits
  import opened ProtocolSoundness
  import EventStore
  import Agreement
  import opened ProtocolSafety

  // ---- When a run is halted ----------------------------------------------------------------------------

  predicate SetsRunning(e: Event, run: Uuid) {
    On(StatusTopic(run), e) && StatusSetBy(e.payload) == Running
  }

  /** A halted run stays halted, in every load, until an event that sets it running is appended. */
  lemma {:induction false} HaltStays(log: seq<Event>, next: seq<Event>, run: Uuid)
    requires log <= next && !RunsLast(log, run)
    requires forall k :: |log| <= k < |next| ==> !SetsRunning(next[k], run)
    ensures !RunsLast(next, run)
  {
    if RunsLast(next, run) {
      var e :| IsLatest(next, StatusTopic(run), e) && StatusSetBy(e.payload) == Running;
      var k :| 0 <= k < |next| && next[k] == e;
      LatestEarlier(log, next, StatusTopic(run), k);
    }
  }

  lemma {:induction false} LatestEarlier(log: seq<Event>, next: seq<Event>, t: Topic, k: nat)
    requires log <= next && k < |log| && IsLatest(next, t, next[k])
    ensures IsLatest(log, t, next[k])
  {
    assert log[k] == next[k];
    forall x | x in log && On(t, x) ensures EventStore.NotAfter(x, next[k]) {
      var j :| 0 <= j < |log| && log[j] == x;
      assert next[j] == x;
    }
  }

  lemma {:induction false} LatestIsUnique(log: seq<Event>, t: Topic, x: Event, y: Event)
    requires WellKept(log) && Agreement.Housed(log) && IsLatest(log, t, x) && IsLatest(log, t, y)
    ensures x == y
  {
    OneHome(log, t, x);
    OneHome(log, t, y);
    RevisionNamesEvent(log, x, y);
  }

  /**
   * A pause or a cancellation takes hold exactly when its time is not before that of the event that
   * last set the run running; committed with an older time, it is in the log but no load shows it.
   */
  lemma {:induction false} HaltTakesHoldExactly(log: seq<Event>, run: Uuid, e: Event, status: RunStatus, reason: string,
                                                running: Event)
    requires Kept(log) && Accepts(log, run, [e]) && e.resourceId == run
    requires e.payload == RunStatusChanged(run, status, reason) && status != Running
    requires IsLatest(log, StatusTopic(run), running) && StatusSetBy(running.payload) == Running
    ensures !RunsLast(Appended(log, run, [e]), run) <==> running.occurredAt <= e.occurredAt
  {
    var next, t := Appended(log, run, [e]), StatusTopic(run);
    assert Stamp([e], run) == [e] && next == log + [e];
    OneHome(log, t, running);
    LatestBounds(log, run, running);
    assert [e][0].revision == Latest(log, run) + 1;
    AppendedKept(log, run, [e]);
    if running.occurredAt <= e.occurredAt {
      assert IsLatest(next, t, e);
      if RunsLast(next, run) {
        var x :| IsLatest(next, t, x) && StatusSetBy(x.payload) == Running;
        LatestIsUnique(next, t, x, e);
      }
    } else {
      assert IsLatest(next, t, running);
    }
  }

  lemma {:induction false} LatestBounds(log: seq<Event>, run: Uuid, e: Event)
    requires e in log && e.resourceId == run
    ensures e.revision <= Latest(log, run)
  {
    assert log == Front(log) + [Last(log)];
    if e in Front(log) {
      LatestBounds(Front(log), run, e);
    }
  }

  // ---- What is still written to a halted run ---------------------------------------------------------

  /** The step by which a batch on the run, of one of the workers, enters the log. */
  ghost predicate CommitsTo(a: World, s: Step, b: World, vs: set<Uuid>, run: Uuid) {
    && b.log != a.log
    && match s
       case Attempt(v, _, _) =>
         && v in vs && v in a.phases && a.phases[v].Ticking? && a.phases[v].offer.Some?
         && a.phases[v].offer.value.run == run
       case Surface(p, _) => p.worker in vs && p.offer.run == run
       case _ => false
  }

  /** How many batches the workers commit to the run from step `from` up to step `until`. */
  ghost function Commitments(worlds: seq<World>, steps: seq<Step>, from: nat, until: nat, vs: set<Uuid>, run: Uuid): nat
    requires |worlds| == |steps| + 1 && from <= until <= |steps|
    decreases until - from
  {
    if from == until then 0
    else (if CommitsTo(worlds[from], steps[from], worlds[from + 1], vs, run) then 1 else 0)
         + Commitments(worlds, steps, from + 1, until, vs, run)
  }

  /** Whether a worker still holds a batch on the run, or a snapshot in which it may build one. */
  ghost predicate Armed(phase: Phase, log: seq<Event>, run: Uuid) {
    && phase.Ticking?
    && ((phase.offer.Some? && phase.offer.value.run == run && Absent(log, phase.offer.value.batch))
        || (run !in phase.done && Workable(CoreOf(phase.seen, run))))
  }

  ghost function ArmedWorkers(w: World, vs: set<Uuid>, run: Uuid): set<Uuid> {
    set v | v in vs && v in w.phases && Armed(w.phases[v], w.log, run)
  }

  /** The batches on the run that were given up and are not in the log. */
  ghost function Loose(w: World, vs: set<Uuid>, run: Uuid): set<Proposal> {
    set p | p in w.adrift && p.worker in vs && p.offer.run == run && Absent(w.log, p.offer.batch)
  }

  /** How many batches the workers may still commit to the run. */
  ghost function Arms(w: World, vs: set<Uuid>, run: Uuid): nat {
    |ArmedWorkers(w, vs, run)| + |Loose(w, vs, run)|
  }

  /** A step that, if it is accepted, sets the run running. */
  predicate Restarts(s: Step, run: Uuid) {
    match s
    case StartRun(r, _, _, _, _) => r == run
    case ChangeStatus(r, _, status, _, _) => r == run && status == Running
    case RetryRun(r, _, _, _, _) => r == run
    case _ => false
  }

  lemma {:induction false} BatchSetsNoRunning(c: Core, v: Uuid, run: Uuid, work: seq<Job>)
    ensures forall k :: 0 <= k < |BatchPayloads(c, v, run, work)| ==>
              var p := BatchPayloads(c, v, run, work)[k]; Agreement.SetsWorkerStatus(p) ==> StatusSetBy(p) != Running
  {
    JobsProper(v, run, work);
  }

  lemma {:induction false} RowsSetNoRunning(log: seq<Event>, home: Uuid, batch: seq<Event>, run: Uuid, k: nat)
    requires forall j :: 0 <= j < |batch| ==>
               var p := Payloads(batch)[j];
               Agreement.SetsWorkerStatus(p) && StatusSetBy(p) == Running && !p.RunStarted? ==> p.runId != run
    requires home != run || forall j :: 0 <= j < |batch| ==> !batch[j].payload.RunStarted?
    requires |log| <= k < |Appended(log, home, batch)|
    ensures !SetsRunning(Appended(log, home, batch)[k], run)
  {
    assert Appended(log, home, batch)[k].payload == Payloads(batch)[k - |log|];
  }

  lemma {:induction false} StartlessBatch(c: Core, v: Uuid, run: Uuid, work: seq<Job>, batch: seq<Event>)
    requires Payloads(batch) == BatchPayloads(c, v, run, work)
    ensures forall j :: 0 <= j < |batch| ==> !batch[j].payload.RunStarted?
  {
    JobsProper(v, run, work);
    forall j | 0 <= j < |batch| ensures !batch[j].payload.RunStarted? {
      assert batch[j].payload == BatchPayloads(c, v, run, work)[j];
    }
  }

  lemma {:induction false} LandSetsNoRunning(cfg: Config, log: seq<Event>, p: Proposal, latest: int, run: Uuid, k: nat)
    requires Shaped(cfg, p) && |log| <= k < |Landed(log, p, latest)|
    ensures !SetsRunning(Landed(log, p, latest)[k], run)
  {
    var o, seen := p.offer, CoreOf(p.seen, p.offer.run);
    RebasedPayloads(o.batch, latest, o.run);
    BatchSetsNoRunning(seen, p.worker, o.run, o.work);
    StartlessBatch(seen, p.worker, o.run, o.work, Rebased(o.batch, latest));
    RowsSetNoRunning(log, o.run, Rebased(o.batch, latest), run, k);
  }

  /** Only a start, a resume or a retry ever appends an event that sets a run running. */
  lemma {:induction false} OnlyRestartsSetRunning(cfg: Config, a: World, s: Step, b: World, run: Uuid, k: nat)
    requires Sound(cfg, a) && Next(cfg, a, s, b) && |a.log| <= k < |b.log| && !Restarts(s, run)
    ensures !SetsRunning(b.log[k], run)
  {
    match s
    case Attempt(v, latest, link) =>
      assert OfferShaped(cfg, v, a.phases[v]);
      LandSetsNoRunning(cfg, a.log, Proposal(v, a.phases[v].seen, a.phases[v].offer.value), latest, run, k);
    case Surface(p, latest) =>
      LandSetsNoRunning(cfg, a.log, p, latest, run, k);
    case StartRun(r, workspace, objective, dealt, batch) =>
      RowsSetNoRunning(a.log, r, batch, run, k);
    case ChangeStatus(r, decided, status, reason, batch) =>
      assert |Payloads(batch)| == |batch| == 1 && batch[0].payload == Payloads(batch)[0];
      RowsSetNoRunning(a.log, r, batch, run, k);
    case RetryRun(r, decided, order, newAgent, batch) =>
      RowsSetNoRunning(a.log, r, batch, run, k);
    case CreateOther(aggregate, batch) =>
      RowsSetNoRunning(a.log, aggregate, batch, run, k);
    case _ =>
  }

  /** A step that is no accepted restart leaves a halted run halted. */
  lemma {:induction false} StepStaysHalted(cfg: Config, a: World, s: Step, b: World, run: Uuid)
    requires Sound(cfg, a) && Next(cfg, a, s, b) && !RunsLast(a.log, run)
    requires Restarts(s, run) ==> b.log == a.log
    ensures !RunsLast(b.log, run)
  {
    StepExtends(cfg, a, s, b);
    forall k | |a.log| <= k < |b.log| ensures !SetsRunning(b.log[k], run) {
      OnlyRestartsSetRunning(cfg, a, s, b, run, k);
    }
    HaltStays(a.log, b.log, run);
  }

  /** A batch that enters the log uses up itself, arms nobody, and has at most 3m+1 events. */
  lemma {:induction false} LandDisarms(cfg: Config, log: seq<Event>, p: Proposal, latest: int)
    requires Shaped(cfg, p)
    ensures forall batch :: Absent(Landed(log, p, latest), batch) ==> Absent(log, batch)
    ensures Landed(log, p, latest) != log ==>
              Absent(log, p.offer.batch) && !Absent(Landed(log, p, latest), p.offer.batch)
    ensures |Landed(log, p, latest)| <= |log| + 3 * cfg.maxItems + 1
  {
    var o := p.offer;
    LandedIds(cfg, log, p, latest);
    JobsProper(p.worker, o.run, o.work);
    assert |o.batch| == |Payloads(o.batch)|;
  }

  lemma {:induction false} Fewer(was: World, now: World, vs: set<Uuid>, run: Uuid, p: Proposal)
    requires ArmedWorkers(now, vs, run) <= ArmedWorkers(was, vs, run)
    requires Loose(now, vs, run) <= Loose(was, vs, run) + {p}
    ensures Loose(now, vs, run) <= Loose(was, vs, run) ==> Arms(now, vs, run) <= Arms(was, vs, run)
    ensures p in Loose(was, vs, run) && p !in Loose(now, vs, run) ==> Arms(now, vs, run) < Arms(was, vs, run)
    ensures p.worker in ArmedWorkers(was, vs, run) && p.worker !in ArmedWorkers(now, vs, run) ==>
              && Arms(now, vs, run) <= Arms(was, vs, run)
              && (Loose(now, vs, run) <= Loose(was, vs, run) ==> Arms(now, vs, run) < Arms(was, vs, run))
  {
    var u, x, y := p.worker, ArmedWorkers(was, vs, run), ArmedWorkers(now, vs, run);
    var d, e := Loose(was, vs, run), Loose(now, vs, run);
    Subset(y, x);
    Subset(e, d + {p});
    if e <= d {
      Subset(e, d);
      if p in d && p !in e {
        Subset(e, d - {p});
      }
    }
    if u in x && u !in y {
      Subset(y, x - {u});
    }
  }

  lemma {:induction false} Subset<T>(a: set<T>, b: set<T>)
    requires a <= b
    ensures |a| <= |b|
  {
    assert a + (b - a) == b;
  }

  /** While the run is halted, the workers' arms never grow, and a commit uses one up. */
  lemma {:induction false} StepDisarms(cfg: Config, a: World, s: Step, b: World, vs: set<Uuid>, run: Uuid)
    requires Sound(cfg, a) && Next(cfg, a, s, b) && !RunsLast(a.log, run)
    ensures Arms(b, vs, run) + (if CommitsTo(a, s, b, vs, run) then 1 else 0) <= Arms(a, vs, run)
    ensures CommitsTo(a, s, b, vs, run) ==> |b.log| <= |a.log| + 3 * cfg.maxItems + 1
  {
    match s
    case Begin(u, seen) =>
      LoadShowsRunning(a.log, seen, run);
      Fewer(a, b, vs, run, Proposal(u, seen, Offer(run, [], [])));
    case Build(u, r, work, batch) =>
      Fewer(a, b, vs, run, Proposal(u, a.phases[u].seen, Offer(r, work, batch)));
    case Attempt(u, latest, link) =>
      var p := Proposal(u, a.phases[u].seen, a.phases[u].offer.value);
      assert OfferShaped(cfg, u, a.phases[u]);
      LandDisarms(cfg, a.log, p, latest);
      Fewer(a, b, vs, run, p);
    case Surface(p, latest) =>
      LandDisarms(cfg, a.log, p, latest);
      Fewer(a, b, vs, run, p);
    case Settle(u) =>
      GiveUpDisarms(cfg, a, s, b, vs, run);
    case EndTick(u) =>
      GiveUpDisarms(cfg, a, s, b, vs, run);
    case Read =>
      Fewer(a, b, vs, run, Proposal(0, [], Offer(run, [], [])));
    case _ =>
      ControlDisarms(cfg, a, s, b, vs, run);
  }

  /** A batch that is given up is out of the worker's hands, and may still take effect. */
  lemma {:induction false} GiveUpDisarms(cfg: Config, a: World, s: Step, b: World, vs: set<Uuid>, run: Uuid)
    requires Sound(cfg, a) && Next(cfg, a, s, b) && (s.Settle? || s.EndTick?)
    ensures Arms(b, vs, run) <= Arms(a, vs, run)
  {
    var u, phase := s.worker, a.phases[s.worker];
    assert OfferShaped(cfg, u, phase);
    if phase.Ticking? && phase.offer.Some? {
      Fewer(a, b, vs, run, Proposal(u, phase.seen, phase.offer.value));
    } else {
      Fewer(a, b, vs, run, Proposal(u, [], Offer(run, [], [])));
    }
  }

  lemma {:induction false} ControlDisarms(cfg: Config, a: World, s: Step, b: World, vs: set<Uuid>, run: Uuid)
    requires Next(cfg, a, s, b) && (s.StartRun? || s.ChangeStatus? || s.RetryRun? || s.CreateOther?)
    ensures Arms(b, vs, run) <= Arms(a, vs, run)
  {
    AppendedIds(a.log, if s.CreateOther? then s.aggregate else s.run, s.batch);
    Fewer(a, b, vs, run, Proposal(0, [], Offer(run, [], [])));
  }

  lemma {:induction false} StepAt(cfg: Config, worlds: seq<World>, steps: seq<Step>, k: nat)
    requires Trace(cfg, worlds, steps) && k < |steps|
    ensures Sound(cfg, worlds[k]) && Next(cfg, worlds[k], steps[k], worlds[k + 1])
    ensures worlds[k].log <= worlds[k + 1].log
  {
    TraceIsSound(cfg, worlds, steps, k);
    StepExtends(cfg, worlds[k], steps[k], worlds[k + 1]);
  }

  /** No event that sets the run running is appended from one log to a later one. */
  ghost predicate Unrestarted(log: seq<Event>, next: seq<Event>, run: Uuid) {
    log <= next && forall k :: |log| <= k < |next| ==> !SetsRunning(next[k], run)
  }

  /** The first step of a stretch without restarts leaves the rest of it without restarts, on a halted run. */
  lemma {:induction false} StretchStep(cfg: Config, worlds: seq<World>, steps: seq<Step>, from: nat, until: nat,
                                       run: Uuid)
    requires Trace(cfg, worlds, steps) && from < until <= |steps|
    requires !RunsLast(worlds[from].log, run) && Unrestarted(worlds[from].log, worlds[until].log, run)
    ensures !RunsLast(worlds[from + 1].log, run) && Unrestarted(worlds[from + 1].log, worlds[until].log, run)
  {
    StepAt(cfg, worlds, steps, from);
    TraceExtends(cfg, worlds, steps, from + 1, until);
    HaltStays(worlds[from].log, worlds[from + 1].log, run);
  }

  lemma {:induction false} Drain(cfg: Config, worlds: seq<World>, steps: seq<Step>, from: nat, until: nat,
                                 vs: set<Uuid>, run: Uuid)
    requires Trace(cfg, worlds, steps) && from <= until <= |steps|
    requires !RunsLast(worlds[from].log, run)
    requires Unrestarted(worlds[from].log, worlds[until].log, run)
    ensures Commitments(worlds, steps, from, until, vs, run) + Arms(worlds[until], vs, run)
            <= Arms(worlds[from], vs, run)
    decreases until - from
  {
    if from < until {
      StepAt(cfg, worlds, steps, from);
      StepDisarms(cfg, worlds[from], steps[from], worlds[from + 1], vs, run);
      StretchStep(cfg, worlds, steps, from, until, run);
      Drain(cfg, worlds, steps, from + 1, until, vs, run);
    }
  }

  /**
   * Once a run is halted, and until an event that sets it running is appended to it, the workers commit at
   * most as many batches to it as they have arms: one for each worker that still holds a batch on the run or
   * a snapshot that shows it running, and one for each batch on it that was given up. Each has at most 3m+1
   * events, and no load shows the run running.
   */
  lemma {:induction false} HaltedRunDrains(cfg: Config, worlds: seq<World>, steps: seq<Step>, from: nat, until: nat,
                                           vs: set<Uuid>, run: Uuid)
    requires Trace(cfg, worlds, steps) && from <= until <= |steps|
    requires !RunsLast(worlds[from].log, run)
    requires forall k :: |worlds[from].log| <= k < |worlds[until].log| ==> !SetsRunning(worlds[until].log[k], run)
    ensures Commitments(worlds, steps, from, until, vs, run) <= Arms(worlds[from], vs, run)
    ensures Arms(worlds[from], vs, run) <= |vs| + |Loose(worlds[from], vs, run)|
    ensures forall k :: from <= k < until && CommitsTo(worlds[k], steps[k], worlds[k + 1], vs, run) ==>
              |worlds[k + 1].log| <= |worlds[k].log| + 3 * cfg.maxItems + 1
    ensures forall all :: EventStore.IsLoad(worlds[until].log, all) ==> CoreOf(all, run).status != Running
  {
    TraceExtends(cfg, worlds, steps, from, until);
    Drain(cfg, worlds, steps, from, until, vs, run);
    Subset(ArmedWorkers(worlds[from], vs, run), vs);
    TraceIsSound(cfg, worlds, steps, until);
    HaltStays(worlds[from].log, worlds[until].log, run);
    forall all | EventStore.IsLoad(worlds[until].log, all) ensures CoreOf(all, run).status != Running {
      LoadShowsRunning(worlds[until].log, all, run);
    }
    forall k | from <= k < until && CommitsTo(worlds[k], steps[k], worlds[k + 1], vs, run)
      ensures |worlds[k + 1].log| <= |worlds[k].log| + 3 * cfg.maxItems + 1
    {
      StepAt(cfg, worlds, steps, k);
      TraceExtends(cfg, worlds, steps, from, k);
      TraceExtends(cfg, worlds, steps, k, until);
      HaltStays(worlds[from].log, worlds[k].log, run);
      StepDisarms(cfg, worlds[k], steps[k], worlds[k + 1], vs, run);
    }
  }
}
