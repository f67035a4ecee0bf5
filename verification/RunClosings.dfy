/**
 * How often a run is closed. Every worker that loads a run with all its items done, before it sees the run
 * closed, closes it once more; so a run shared by several workers may be closed several times.
 */
module RunClosings {
  import opened Events
  import opened Log
  import opened WorkerReplay
  import opened LoadOrder
  import opened Tick
  import opened RetryAppend
  import opened Protocol
  import opened Commits
  import opened ProtocolSoundness
  import opened Halting
  import EventStore
  import Redoing

  function ClosingsOf(log: seq<Event>, run: Uuid): nat {
    Closings(Payloads(Stream(log, run)))
  }

  lemma {:induction false} AppendClosings(log: seq<Event>, home: Uuid, batch: seq<Event>, run: Uuid)
    ensures ClosingsOf(Appended(log, home, batch), run)
         == ClosingsOf(log, run) + if Accepts(log, home, batch) && home == run then Closings(Payloads(batch)) else 0
  {
    if Accepts(log, home, batch) {
      AppendExtendsStream(log, home, batch, run);
      if home == run {
        Tick.PayloadsConcat(Stream(log, run), Stamp(batch, run));
        ClosingsConcat(Payloads(Stream(log, run)), Payloads(Stamp(batch, run)));
        RebasedPayloads(batch, 0, run);
      } else {
        assert Stream(log, run) + [] == Stream(log, run);
      }
    }
  }

  lemma {:induction false} LandClosings(cfg: Config, log: seq<Event>, p: Proposal, latest: int, run: Uuid)
    requires Shaped(cfg, p)
    ensures ClosingsOf(Landed(log, p, latest), run) == ClosingsOf(log, run)
              + if Lands(log, p, latest) && p.offer.run == run
                   && AllDone(NoteAll(CoreOf(p.seen, p.offer.run), p.offer.work).items) then 1 else 0
    ensures Lands(log, p, latest) ==> Landed(log, p, latest) != log
  {
    var o := p.offer;
    RebasedPayloads(o.batch, latest, o.run);
    BatchCloses(CoreOf(p.seen, o.run), p.worker, o.run, o.work);
    AppendClosings(log, o.run, Rebased(o.batch, latest), run);
    LandedIds(cfg, log, p, latest);
  }

  /** Only a commit of a worker closes a run, and no more than once. */
  lemma {:induction false} StepClosings(cfg: Config, a: World, s: Step, b: World, run: Uuid)
    requires Sound(cfg, a) && Next(cfg, a, s, b)
    ensures ClosingsOf(a.log, run) <= ClosingsOf(b.log, run)
    ensures ClosingsOf(b.log, run) <= ClosingsOf(a.log, run) + if CommitsTo(a, s, b, cfg.workers, run) then 1 else 0
  {
    match s
    case Attempt(u, latest, link) =>
      assert OfferShaped(cfg, u, a.phases[u]);
      LandClosings(cfg, a.log, Proposal(u, a.phases[u].seen, a.phases[u].offer.value), latest, run);
    case Surface(p, latest) =>
      LandClosings(cfg, a.log, p, latest, run);
    case StartRun(r, workspace, objective, dealt, batch) =>
      NoClosings(Payloads(batch));
      AppendClosings(a.log, r, batch, run);
    case ChangeStatus(r, decided, status, reason, batch) =>
      NoClosings(Payloads(batch));
      AppendClosings(a.log, r, batch, run);
    case RetryRun(r, decided, order, newAgent, batch) =>
      NoClosings(Payloads(batch));
      AppendClosings(a.log, r, batch, run);
    case CreateOther(aggregate, batch) =>
      assert forall k :: 0 <= k < |batch| ==> Payloads(batch)[k] == batch[k].payload;
      NoClosings(Payloads(batch));
      AppendClosings(a.log, aggregate, batch, run);
    case _ =>
  }

  lemma {:induction false} TraceClosings(cfg: Config, worlds: seq<World>, steps: seq<Step>, from: nat, until: nat,
                                         run: Uuid)
    requires Trace(cfg, worlds, steps) && from <= until <= |steps|
    ensures ClosingsOf(worlds[from].log, run) <= ClosingsOf(worlds[until].log, run)
    ensures ClosingsOf(worlds[until].log, run)
         <= ClosingsOf(worlds[from].log, run) + Commitments(worlds, steps, from, until, cfg.workers, run)
    decreases until - from
  {
    if from < until {
      StepAt(cfg, worlds, steps, from);
      StepClosings(cfg, worlds[from], steps[from], worlds[from + 1], run);
      TraceClosings(cfg, worlds, steps, from + 1, until, run);
    }
  }

  /** The worker whose commit closes a run has no further arms on it from that tick. */
  lemma {:induction false} CloserDisarms(cfg: Config, a: World, s: Step, b: World, run: Uuid)
    requires Sound(cfg, a) && Next(cfg, a, s, b) && s.Attempt? && b.log != a.log
    requires a.phases[s.worker].offer.value.run == run
    ensures s.worker in cfg.workers && s.worker !in ArmedWorkers(b, cfg.workers, run)
  {
    var p := Proposal(s.worker, a.phases[s.worker].seen, a.phases[s.worker].offer.value);
    assert OfferShaped(cfg, s.worker, a.phases[s.worker]);
    LandedIds(cfg, a.log, p, s.latest);
  }

  lemma {:induction false} FirstClosing(cfg: Config, a: World, s: Step, b: World, run: Uuid)
    requires Sound(cfg, a) && Next(cfg, a, s, b) && ClosingsOf(a.log, run) == 0 < ClosingsOf(b.log, run)
    ensures ClosingsOf(b.log, run) == 1
    ensures s.Attempt? ==> Arms(b, cfg.workers, run) + 1 <= |cfg.workers| + |Loose(b, cfg.workers, run)|
  {
    StepClosings(cfg, a, s, b, run);
    if s.Attempt? {
      CloserDisarms(cfg, a, s, b, run);
      Subset(ArmedWorkers(b, cfg.workers, run), cfg.workers - {s.worker});
    }
  }

  /**
   * From its first closing on, as long as that takes hold and the run is not set running again, a run gets
   * at most one more closing for each other worker, and one for each batch that was given up: it is closed
   * exactly once where no other worker holds a batch on it or a snapshot that shows it running.
   */
  lemma {:induction false} ClosedPerWorker(cfg: Config, worlds: seq<World>, steps: seq<Step>, first: nat, until: nat,
                                           run: Uuid)
    requires Trace(cfg, worlds, steps) && first < until <= |steps|
    requires ClosingsOf(worlds[first].log, run) == 0 < ClosingsOf(worlds[first + 1].log, run)
    requires !RunsLast(worlds[first + 1].log, run)
    requires Unrestarted(worlds[first + 1].log, worlds[until].log, run)
    ensures 1 <= ClosingsOf(worlds[until].log, run) <= 1 + Arms(worlds[first + 1], cfg.workers, run)
    ensures Arms(worlds[first + 1], cfg.workers, run) == 0 ==> ClosingsOf(worlds[until].log, run) == 1
    ensures steps[first].Attempt? ==>
              ClosingsOf(worlds[until].log, run) <= |cfg.workers| + |Loose(worlds[first + 1], cfg.workers, run)|
  {
    StepAt(cfg, worlds, steps, first);
    FirstClosing(cfg, worlds[first], steps[first], worlds[first + 1], run);
    TraceClosings(cfg, worlds, steps, first + 1, until, run);
    Drain(cfg, worlds, steps, first + 1, until, cfg.workers, run);
  }

  /**
   * And it may get them all: a worker that holds a snapshot of the run in which all items are done, and has
   * not come to the run yet, goes on to close it, whatever has been done to the run since.
   */
  lemma {:induction false} ClosesOnceMore(cfg: Config, worlds: seq<World>, steps: seq<Step>, v: Uuid, run: Uuid)
      returns (worlds': seq<World>, steps': seq<Step>)
    requires Trace(cfg, worlds, steps) && v in Last(worlds).phases
    requires var phase := Last(worlds).phases[v];
             && phase.Ticking? && phase.offer.None? && run !in phase.done
             && Workable(CoreOf(phase.seen, run)) && AllDone(CoreOf(phase.seen, run).items)
    ensures Trace(cfg, worlds', steps') && worlds <= worlds' && steps <= steps'
    ensures ClosingsOf(Last(worlds').log, run) == ClosingsOf(Last(worlds).log, run) + 1
  {
    var a, seen := Last(worlds), Last(worlds).phases[v].seen;
    var c := CoreOf(seen, run);
    Redoing.TraceUses(cfg, worlds, steps, |steps|);
    TraceIsSound(cfg, worlds, steps, |steps|);
    assert NoteAll(c, []) == c && Legal(c, v, v in cfg.affine, []);
    var batch := Redoing.FreshBatch(a, BatchPayloads(c, v, run, []), run);
    assert |Payloads(batch)| == |batch|;
    var b, d, latest := Redoing.CommitNow(cfg, a, v, run, [], batch);
    LandClosings(cfg, a.log, Proposal(v, seen, Offer(run, [], batch)), latest, run);
    worlds', steps' := Redoing.TwoMoreSteps(cfg, worlds, steps, Build(v, run, [], batch), b,
                                            Attempt(v, latest, EventStore.Healthy), d);
  }
}
