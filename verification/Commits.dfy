/** What the steps of the protocol append, whatever they are decided on. */
module Commits {
  import opened Events
  import opened Log
  import opened WorkerReplay
  import opened Agreement
  import opened LoadOrder
  import opened Tick
  import opened RetryAppend
  import opened Orchestrator
  import Planner
  import opened Protocol
  import O = OrchestratorReplay

  lemma {:induction false} StepExtends(cfg: Config, a: World, s: Step, b: World)
    requires Next(cfg, a, s, b)
    ensures a.log <= b.log
  {
  }

  lemma {:induction false} BatchProper(seen: Core, v: Uuid, run: Uuid, work: seq<Job>)
    ensures Proper(BatchPayloads(seen, v, run, work), run)
  {
    JobsProper(v, run, work);
  }

  lemma {:induction false} RetryProper(run: Uuid, decided: Items, order: seq<Uuid>, newAgent: Uuid -> Uuid)
    ensures Proper(RetryPayloads(run, decided, order, newAgent), run)
  {
  }

  lemma {:induction false} StartProper(run: Uuid, workspace: Uuid, objective: string, dealt: seq<Planner.WorkItem>)
    requires forall k :: 0 <= k < |dealt| ==> dealt[k].agent.Some?
    ensures Proper(StartPayloads(run, workspace, objective, dealt), run)
  {
  }

  lemma {:induction false} NoEffect(c: Core, ps: seq<Payload>)
    requires forall k :: 0 <= k < |ps| ==> IsCreation(ps[k])
    ensures ApplyAll(c, ps) == c
  {
    if ps != [] {
      NoEffect(c, Front(ps));
    }
  }

  lemma {:induction false} StatusEffect(c: Core, run: Uuid, status: RunStatus, reason: string)
    ensures ApplyAll(c, [RunStatusChanged(run, status, reason)]) == c.(status := status)
  {
    var p := RunStatusChanged(run, status, reason);
    assert Front([p]) == [];
    assert ApplyAll(c, [p]) == Apply(c, p);
  }

  /** Nothing is known of a run whose stream is empty. */
  lemma {:induction false} EmptyStreamIsBlank(log: seq<Event>, run: Uuid)
    requires Kept(log) && Stream(log, run) == []
    ensures CoreOf(log, run) == BLANK.core
  {
    UnmentionedInEmptyStream(log, run);
    UnmentionedIsBlank(log, run);
  }

  /** Without blockers the two replays of one order of the events hold the same items. */
  lemma {:induction false} ItemsAgree(log: seq<Event>, run: Uuid)
    requires Housed(log) && Unblocked(log)
    ensures O.FromStream(Stream(log, run)).items == CoreOf(log, run).items
  {
    var worker, stream := CoreOf(log, run).items, O.FromStream(Stream(log, run)).items;
    forall i ensures ItemOf(worker, i) == ItemOf(stream, i) {
      WorkerItemsAgree(log, run, i);
      NeverEndsBlocked(log, run, i);
    }
    forall i ensures (i in worker <==> i in stream) && (i in worker ==> worker[i] == stream[i]) {
      assert ItemOf(worker, i) == ItemOf(stream, i);
    }
  }

  lemma {:induction false} NeverEndsBlocked(log: seq<Event>, run: Uuid, item: Uuid)
    requires Unblocked(log)
    ensures !EndsBlocked(log, run, item)
  {
    if log != [] {
      NeverEndsBlocked(Front(log), run, item);
      assert Last(log) == log[|log| - 1];
    }
  }

  /** A batch is the one its load allows its worker. */
  ghost predicate Shaped(cfg: Config, p: Proposal) {
    var seen := CoreOf(p.seen, p.offer.run);
    && p.worker in cfg.workers && p.offer.batch != [] && |p.offer.work| <= cfg.maxItems
    && Legal(seen, p.worker, p.worker in cfg.affine, p.offer.work)
    && Payloads(p.offer.batch) == BatchPayloads(seen, p.worker, p.offer.run, p.offer.work)
  }

  /** The log after a proposal was appended on some revision, accepted or not. */
  function Landed(log: seq<Event>, p: Proposal, latest: int): seq<Event> {
    Appended(log, p.offer.run, Rebased(p.offer.batch, latest))
  }

  predicate Lands(log: seq<Event>, p: Proposal, latest: int) {
    Accepts(log, p.offer.run, Rebased(p.offer.batch, latest))
  }

  lemma {:induction false} LandedCore(cfg: Config, log: seq<Event>, p: Proposal, latest: int, r: Uuid)
    requires Shaped(cfg, p)
    ensures Proper(Payloads(Rebased(p.offer.batch, latest)), p.offer.run)
    ensures var ps := BatchPayloads(CoreOf(p.seen, p.offer.run), p.worker, p.offer.run, p.offer.work);
            CoreOf(Landed(log, p, latest), r)
            == if Lands(log, p, latest) && r == p.offer.run then ApplyAll(CoreOf(log, r), ps) else CoreOf(log, r)
  {
    RebasedPayloads(p.offer.batch, latest, p.offer.run);
    BatchProper(CoreOf(p.seen, p.offer.run), p.worker, p.offer.run, p.offer.work);
    AppendedCore(log, p.offer.run, Rebased(p.offer.batch, latest), r);
  }

  /** A proposal that lands was not in the log before, and is in it afterwards. */
  lemma {:induction false} LandedIds(cfg: Config, log: seq<Event>, p: Proposal, latest: int)
    requires Shaped(cfg, p)
    ensures log <= Landed(log, p, latest) && Ids(log) <= Ids(Landed(log, p, latest))
    ensures Lands(log, p, latest) ==> Absent(log, p.offer.batch) && !Absent(Landed(log, p, latest), p.offer.batch)
    ensures !Lands(log, p, latest) ==> Landed(log, p, latest) == log
  {
    RebasedIds(p.offer.batch, latest, p.offer.run);
    AppendedIds(log, p.offer.run, Rebased(p.offer.batch, latest));
    assert p.offer.batch[0].id in Ids(p.offer.batch);
  }
}
