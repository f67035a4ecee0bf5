/**
 * The methods are moves of the protocol: whatever happens around them, what a pass of a worker does to the
 * log, and what a start, a retry or a status change does to it, is a sequence of protocol steps with those of
 * others in between; and where the others move by protocol steps too, the whole is a trace.
 */
module Refinement {
  import opened Events
  import opened Log
  import opened EventStore
  import opened RetryAppend
  import opened Orchestrator
  import opened Protocol
  import ProjectionStore
  import Harness
  import Planner
  import ControlEffects
  import opened WorkerLoop

  datatype Move = Own(step: Step) | Others

  /** Worlds and the moves between them. */
  datatype Play = Play(worlds: seq<World>, moves: seq<Move>)

  /** The others only add, and leave the workers of `mine` as they are. */
  ghost predicate Environment(mine: set<Uuid>, a: World, b: World) {
    && a.log <= b.log && a.used <= b.used && a.loaded <= b.loaded && a.adrift <= b.adrift
    && forall v :: v in mine && v in a.phases ==> v in b.phases && b.phases[v] == a.phases[v]
  }

  /**
   * What the others do at each point of a play, to bring the log to where it is met next. They do not use
   * the identifiers from `bound` on, which are left for the events of the play.
   */
  type Company = (nat, World, seq<Event>) -> World

  ghost predicate Fair(mine: set<Uuid>, others: Company, bound: Uuid) {
    forall k: nat, w: World, log: seq<Event> :: w.log <= log ==>
      && others(k, w, log).log == log && Environment(mine, w, others(k, w, log))
      && forall id :: id in others(k, w, log).used ==> id in w.used || id < bound
  }

  ghost predicate Moved(cfg: Config, mine: set<Uuid>, a: World, m: Move, b: World) {
    match m
    case Own(step) => Next(cfg, a, step, b)
    case Others => Environment(mine, a, b)
  }

  /** A play that leads from one world to another. */
  ghost predicate Leads(cfg: Config, mine: set<Uuid>, p: Play, from: World, until: World) {
    && |p.worlds| == |p.moves| + 1
    && p.worlds[0] == from && Last(p.worlds) == until
    && forall k :: 0 <= k < |p.moves| ==> Moved(cfg, mine, p.worlds[k], p.moves[k], p.worlds[k + 1])
  }

  lemma {:induction false} Then(cfg: Config, mine: set<Uuid>, p: Play, from: World, a: World, m: Move, b: World)
      returns (next: Play)
    requires Leads(cfg, mine, p, from, a) && Moved(cfg, mine, a, m, b)
    ensures Leads(cfg, mine, next, from, b) && next.moves == p.moves + [m]
  {
    next := Play(p.worlds + [b], p.moves + [m]);
    forall k | 0 <= k < |next.moves| ensures Moved(cfg, mine, next.worlds[k], next.moves[k], next.worlds[k + 1]) {
      if k < |p.moves| {
        assert Moved(cfg, mine, p.worlds[k], p.moves[k], p.worlds[k + 1]);
      }
    }
  }

  lemma {:induction false} Nothing(cfg: Config, mine: set<Uuid>, w: World) returns (p: Play)
    ensures Leads(cfg, mine, p, w, w) && p.moves == []
  {
    p := Play([w], []);
  }

  // ---- Plays among protocol steps are traces -----------------------------------------------------------

  /** A stretch of protocol steps. */
  ghost predicate Path(cfg: Config, ws: seq<World>, ss: seq<Step>, a: World, b: World) {
    && |ws| == |ss| + 1 && ws[0] == a && Last(ws) == b
    && forall k :: 0 <= k < |ss| ==> Next(cfg, ws[k], ss[k], ws[k + 1])
  }

  ghost predicate Bridged(cfg: Config, a: World, b: World) {
    exists ws: seq<World>, ss: seq<Step> :: Path(cfg, ws, ss, a, b)
  }

  lemma {:induction false} Further(cfg: Config, worlds: seq<World>, steps: seq<Step>, ws: seq<World>, ss: seq<Step>,
                                   a: World, b: World)
      returns (more: seq<World>, next: seq<Step>)
    requires Trace(cfg, worlds, steps) && Last(worlds) == a && Path(cfg, ws, ss, a, b)
    ensures Trace(cfg, more, next) && worlds <= more && steps <= next && Last(more) == b
  {
    more, next := worlds + ws[1..], steps + ss;
    forall k | 0 <= k < |next| ensures Next(cfg, more[k], next[k], more[k + 1]) {
      if k < |steps| {
        assert Next(cfg, worlds[k], steps[k], worlds[k + 1]);
      } else {
        assert Next(cfg, ws[k - |steps|], ss[k - |steps|], ws[k - |steps| + 1]);
      }
    }
  }

  /**
   * If whatever the others do in a play is done by protocol steps, then every trace that ends where the play
   * begins goes on through all of its worlds, to where it ends.
   */
  lemma {:induction false} PlaysAreTraces(cfg: Config, mine: set<Uuid>, worlds: seq<World>, steps: seq<Step>, p: Play,
                                          from: World, until: World)
      returns (worlds': seq<World>, steps': seq<Step>)
    requires Trace(cfg, worlds, steps) && Last(worlds) == from && Leads(cfg, mine, p, from, until)
    requires forall k :: 0 <= k < |p.moves| && p.moves[k].Others? ==> Bridged(cfg, p.worlds[k], p.worlds[k + 1])
    ensures Trace(cfg, worlds', steps') && worlds <= worlds' && steps <= steps' && Last(worlds') == until
    ensures forall w :: w in p.worlds ==> w in worlds'
    decreases |p.moves|
  {
    if p.moves == [] {
      worlds', steps' := worlds, steps;
    } else {
      var n := |p.moves| - 1;
      var front := Play(p.worlds[..n + 1], p.moves[..n]);
      var a := p.worlds[n];
      assert Moved(cfg, mine, a, p.moves[n], until);
      assert forall k :: 0 <= k < n ==> Moved(cfg, mine, p.worlds[k], p.moves[k], p.worlds[k + 1]);
      var ws, ss := PlaysAreTraces(cfg, mine, worlds, steps, front, from, a);
      if p.moves[n].Own? {
        worlds', steps' := Further(cfg, ws, ss, [a, until], [p.moves[n].step], a, until);
      } else {
        var more, next :| Path(cfg, more, next, a, until);
        worlds', steps' := Further(cfg, ws, ss, more, next, a, until);
      }
      forall w | w in p.worlds ensures w in worlds' {
        assert w in front.worlds || w == until;
      }
    }
  }

  // ---- The worker ----------------------------------------------------------------------------------------

  predicate IsOf(s: Step, v: Uuid) {
    (s.Begin? || s.Build? || s.Attempt? || s.Settle? || s.EndTick?) && s.worker == v
  }

  /** The moves of the play that are not the others' are steps of this worker. */
  ghost predicate ByWorker(p: Play, v: Uuid) {
    forall k :: 0 <= k < |p.moves| && p.moves[k].Own? ==> IsOf(p.moves[k].step, v)
  }

  /** A play of one worker that has come to a world with this log, where the worker is in this phase. */
  ghost predicate Came(cfg: Config, v: Uuid, p: Play, from: World, w: World, log: seq<Event>, phase: Phase,
                       bound: Uuid) {
    && Leads(cfg, {v}, p, from, w) && ByWorker(p, v)
    && w.log == log && v in w.phases && w.phases[v] == phase && forall id :: id in w.used ==> id < bound
  }

  lemma {:induction false} OthersMove(cfg: Config, v: Uuid, others: Company, p: Play, from: World, a: World,
                                      until: seq<Event>, phase: Phase, low: Uuid, bound: Uuid)
      returns (next: Play, b: World)
    requires Came(cfg, v, p, from, a, a.log, phase, bound) && a.log <= until && Fair({v}, others, low) && low <= bound
    ensures Came(cfg, v, next, from, b, until, phase, bound)
  {
    b := others(|p.moves|, a, until);
    next := Then(cfg, {v}, p, from, a, Others, b);
  }

  lemma {:induction false} OwnMove(cfg: Config, v: Uuid, p: Play, from: World, a: World, s: Step, b: World,
                                   phase: Phase, bound: Uuid)
      returns (next: Play)
    requires Leads(cfg, {v}, p, from, a) && ByWorker(p, v) && Next(cfg, a, s, b) && IsOf(s, v)
    requires v in b.phases && b.phases[v] == phase && forall id :: id in b.used ==> id < bound
    ensures Came(cfg, v, next, from, b, b.log, phase, bound)
  {
    next := Then(cfg, {v}, p, from, a, Own(s), b);
  }

  /** A trail of attempts is a sequence of `Attempt` steps with the others' moves before and after each. */
  lemma {:induction false} TrailPlays(cfg: Config, v: Uuid, others: Company, p: Play, from: World, a: World,
                                      phase: Phase, tries: seq<Try>, until: seq<Event>, low: Uuid, bound: Uuid)
      returns (next: Play, b: World)
    requires Fair({v}, others, low) && low <= bound && Came(cfg, v, p, from, a, a.log, phase, bound)
    requires phase.Ticking? && phase.offer.Some?
    requires Trail(tries, a.log, until, phase.offer.value.run, phase.offer.value.batch)
    ensures Came(cfg, v, next, from, b, until, phase, bound)
    decreases |tries|
  {
    if tries == [] {
      next, b := OthersMove(cfg, v, others, p, from, a, until, phase, low, bound);
    } else {
      var t, o := Last(tries), phase.offer.value;
      next, b := TrailPlays(cfg, v, others, p, from, a, phase, Front(tries), t.log, low, bound);
      var left := b.(log := AfterTry(t, o.run, o.batch));
      next := OwnMove(cfg, v, next, from, b, Attempt(v, t.latest, t.link), left, phase, bound);
      next, b := OthersMove(cfg, v, others, next, from, left, until, phase, low, bound);
    }
  }

  /** One deed of a pass is a `Build` step, the trail of its appends, and a `Settle` step. */
  lemma {:induction false} DeedPlays(cfg: Config, v: Uuid, others: Company, p: Play, from: World, a: World,
                                     phase: Phase, d: Deed, low: Uuid)
      returns (next: Play, b: World)
    requires Fair({v}, others, low) && low <= d.firstId && Came(cfg, v, p, from, a, d.met, phase, d.firstId)
    requires phase.Ticking? && phase.offer.None? && d.run !in phase.done
    requires Proceeds(d, phase.seen, v, v in cfg.affine, cfg.maxItems)
    ensures Came(cfg, v, next, from, b, d.until, phase.(done := phase.done + {d.run}), d.firstId + |d.batch|)
  {
    var offered := Ticking(phase.seen, phase.done + {d.run}, Some(Offer(d.run, d.work, d.batch)));
    var built := a.(phases := a.phases[v := offered], used := a.used + Ids(d.batch));
    var bound := d.firstId + |d.batch|;
    next := OwnMove(cfg, v, p, from, a, Build(v, d.run, d.work, d.batch), built, offered, bound);
    next, b := TrailPlays(cfg, v, others, next, from, built, offered, d.tries, d.until, low, bound);
    var settled := offered.(offer := None);
    var c := b.(phases := b.phases[v := settled], adrift := b.adrift + Outstanding(v, offered));
    next := OwnMove(cfg, v, next, from, b, Settle(v), c, settled, bound);
    b := c;
  }

  function RunsOf(deeds: seq<Deed>): set<Uuid> {
    if deeds == [] then {} else RunsOf(Front(deeds)) + {Last(deeds).run}
  }

  lemma {:induction false} RunIsOf(deeds: seq<Deed>, run: Uuid) returns (k: nat)
    requires run in RunsOf(deeds)
    ensures k < |deeds| && deeds[k].run == run
  {
    k := |deeds| - 1;
    if deeds[k].run != run {
      k := RunIsOf(Front(deeds), run);
    }
  }

  /** The identifiers from here on are not those of the deeds. */
  function Above(deeds: seq<Deed>, low: Uuid): Uuid {
    if deeds == [] then low else Last(deeds).firstId + |Last(deeds).batch|
  }

  lemma {:induction false} LastDeed(deeds: seq<Deed>, from: seq<Event>, until: seq<Event>, seen: seq<Event>, v: Uuid,
                                    affine: bool, maxItems: nat, low: Uuid)
    requires deeds != [] && Performed(deeds, from, until, seen, v, affine, maxItems, low)
    ensures var d, front := Last(deeds), Front(deeds);
            && Performed(front, from, d.met, seen, v, affine, maxItems, low)
            && Proceeds(d, seen, v, affine, maxItems) && d.until == until
            && low <= d.firstId && Above(front, low) <= d.firstId
            && d.run !in RunsOf(front)
  {
    if Last(deeds).run in RunsOf(Front(deeds)) {
      var k := RunIsOf(Front(deeds), Last(deeds).run);
    }
  }

  lemma {:induction false} DeedsPlay(cfg: Config, v: Uuid, others: Company, p: Play, from: World, a: World,
                                     phase: Phase, deeds: seq<Deed>, until: seq<Event>, low: Uuid)
      returns (next: Play, b: World)
    requires Fair({v}, others, low) && Came(cfg, v, p, from, a, a.log, phase, low)
    requires phase.Ticking? && phase.offer.None? && phase.done == {}
    requires Performed(deeds, a.log, until, phase.seen, v, v in cfg.affine, cfg.maxItems, low)
    ensures Came(cfg, v, next, from, b, until, phase.(done := RunsOf(deeds)), Above(deeds, low))
    decreases |deeds|
  {
    if deeds == [] {
      next, b := p, a;
    } else {
      var d, front := Last(deeds), Front(deeds);
      LastDeed(deeds, a.log, until, phase.seen, v, v in cfg.affine, cfg.maxItems, low);
      next, b := DeedsPlay(cfg, v, others, p, from, a, phase, front, d.met, low);
      next, b := DeedPlays(cfg, v, others, next, from, b, phase.(done := RunsOf(front)), d, low);
    }
  }

  /**
   * A whole pass of a worker, in any weather, is a play of its own steps: it begins, builds a batch for one
   * run after the other, attempts to append it, settles it, and ends the tick; and in between the others
   * do as they please.
   */
  lemma {:induction false} PassPlays(cfg: Config, v: Uuid, others: Company, w: World, deeds: seq<Deed>,
                                     seen: seq<Event>, until: seq<Event>, low: Uuid)
      returns (p: Play, last: World)
    requires Fair({v}, others, low) && v in w.phases && w.phases[v].Idle? && forall id :: id in w.used ==> id < low
    requires IsLoad(w.log, seen)
    requires Performed(deeds, w.log, until, seen, v, v in cfg.affine, cfg.maxItems, low)
    ensures Leads(cfg, {v}, p, w, last) && ByWorker(p, v)
    ensures last.log == until && v in last.phases && last.phases[v].Idle?
  {
    var phase := Ticking(seen, {}, None);
    var begun := w.(phases := w.phases[v := phase]);
    p := Nothing(cfg, {v}, w);
    p := OwnMove(cfg, v, p, w, w, Begin(v, seen), begun, phase, low);
    p, last := DeedsPlay(cfg, v, others, p, w, begun, phase, deeds, until, low);
    var ended := last.(phases := last.phases[v := Idle], adrift := last.adrift + Outstanding(v, last.phases[v]));
    p := OwnMove(cfg, v, p, w, last, EndTick(v), ended, Idle, Above(deeds, low));
    last := ended;
  }

  /** What `RunOnce` does, in any weather and whatever the others do meanwhile, is such a play. */
  method RunOncePlays(w: Worker, store: PostgresEventStore, projections: ProjectionStore.PostgresProjectionStore,
                      executor: Uuid -> Harness.Outcome, weather: Uuid -> nat -> Weather, fails: nat -> bool,
                      firstId: Uuid, at: int, ghost cfg: Config, ghost world: World, ghost others: Company)
      returns (ghost p: Play, ghost last: World)
    requires store.Valid() && w.firstBackoffMs <= U64_MAX
    requires forall id :: id in Ids(store.log) || id in world.used ==> id < firstId
    requires forall run :: Apart(weather(run), firstId)
    requires world.log == store.log && w.agentId in world.phases && world.phases[w.agentId].Idle?
    requires Fair({w.agentId}, others, firstId)
    requires (w.affine <==> w.agentId in cfg.affine) && w.maxItems == cfg.maxItems
    modifies store, projections
    ensures Leads(cfg, {w.agentId}, p, world, last) && ByWorker(p, w.agentId)
    ensures last.log == store.log && w.agentId in last.phases && last.phases[w.agentId].Idle?
  {
    var deeds, _, seen := w.RunOnce(store, projections, executor, weather, fails, firstId, at);
    p, last := PassPlays(cfg, w.agentId, others, world, deeds, seen, store.log, firstId);
  }

  // ---- Control operations --------------------------------------------------------------------------------

  lemma {:induction false} WritesExtend(log: seq<Event>, writes: seq<Write>)
    ensures log <= AfterWrites(log, writes)
  {
    if writes != [] {
      WritesExtend(log, Front(writes));
    }
  }

  /** The world in which the operation appends: it has read the log, and the others have moved on. */
  ghost function Later(others: Company, w: World, now: seq<Event>): World {
    others(1, w.(loaded := w.loaded + {w.log}), now)
  }

  /** A play of one read, the moves of others, and perhaps one step that appends. */
  ghost predicate ReadAndPerhaps(p: Play, step: Step) {
    p.moves == [Own(Read), Others] || p.moves == [Own(Read), Others, Own(step)]
  }

  /** The operation reads the log, and others move until it appends. */
  lemma {:induction false} ReadThenOthers(cfg: Config, others: Company, w: World, now: seq<Event>, bound: Uuid)
      returns (p: Play)
    requires w.log <= now && Fair({}, others, bound)
    ensures Leads(cfg, {}, p, w, Later(others, w, now)) && p.moves == [Own(Read), Others]
    ensures Later(others, w, now).log == now && w.log in Later(others, w, now).loaded
  {
    var read := w.(loaded := w.loaded + {w.log});
    p := Nothing(cfg, {}, w);
    p := Then(cfg, {}, p, w, w, Own(Read), read);
    p := Then(cfg, {}, p, w, read, Others, Later(others, w, now));
  }

  lemma {:induction false} ReadAndStep(cfg: Config, others: Company, w: World, now: seq<Event>, bound: Uuid, step: Step,
                                       last: World)
      returns (p: Play)
    requires w.log <= now && Fair({}, others, bound) && Next(cfg, Later(others, w, now), step, last)
    ensures Leads(cfg, {}, p, w, last) && ReadAndPerhaps(p, step)
  {
    p := ReadThenOthers(cfg, others, w, now, bound);
    p := Then(cfg, {}, p, w, Later(others, w, now), Own(step), last);
    assert p.moves == [Own(Read), Others, Own(step)];
  }

  /** Its events are new to the world in which the operation appends them. */
  lemma {:induction false} StillNew(others: Company, w: World, now: seq<Event>, run: Uuid, events: seq<Event>,
                                    revision: int, firstId: Uuid)
      returns (last: World)
    requires w.log <= now && Fair({}, others, firstId) && forall id :: id in w.used ==> id < firstId
    requires ControlBatch(events, run, revision, firstId)
    ensures Controls(Later(others, w, now), last, run, events) && last.log == Appended(now, run, events)
  {
    var before := Later(others, w, now);
    ControlIdsDiffer(events, run, revision, firstId);
    assert forall id :: id in before.used ==> id < firstId;
    last := before.(log := Appended(now, run, events), used := before.used + Ids(events));
  }

  /** A retry is a read, the moves of others, and at most one `RetryRun` step. */
  lemma {:induction false} RetryPlays(cfg: Config, others: Company, w: World, after: seq<Event>, run: Uuid,
                                      newAgent: Uuid -> Uuid, c: Circumstances, firstId: Uuid, at: int, reply: Reply,
                                      order: seq<Uuid>, events: seq<Event>)
      returns (p: Play, last: World)
    requires Retried(w.log, after, run, newAgent, c, firstId, at, reply, order, events)
    requires Fair({}, others, firstId) && forall id :: id in w.used ==> id < firstId
    ensures Leads(cfg, {}, p, w, last) && last.log == after
    ensures ReadAndPerhaps(p, RetryRun(run, w.log, order, newAgent, events))
  {
    var read := AfterWrites(w.log, c.first);
    var now := AfterWrites(read, c.second);
    WritesExtend(w.log, c.first);
    WritesExtend(read, c.second);
    if after == now || after == read || after == w.log {
      last := Later(others, w, after);
      p := ReadThenOthers(cfg, others, w, after, firstId);
    } else {
      last := StillNew(others, w, now, run, events, NextRevision(Stream(read, run)), firstId);
      var _ := ReadThenOthers(cfg, others, w, now, firstId);
      p := ReadAndStep(cfg, others, w, now, firstId, RetryRun(run, w.log, order, newAgent, events), last);
    }
  }

  /** A pause, resume or cancellation is a read, the moves of others, and at most one `ChangeStatus` step. */
  lemma {:induction false} StatusPlays(cfg: Config, others: Company, w: World, after: seq<Event>, run: Uuid,
                                       status: RunStatus, reason: string, c: Circumstances, id: Uuid, at: int,
                                       reply: Reply, events: seq<Event>)
      returns (p: Play, last: World)
    requires StatusChanged(w.log, after, run, status, reason, c, id, at, reply, events)
    requires Fair({}, others, id) && forall i :: i in w.used ==> i < id
    ensures Leads(cfg, {}, p, w, last) && last.log == after
    ensures ReadAndPerhaps(p, ChangeStatus(run, w.log, status, reason, events))
  {
    var read := AfterWrites(w.log, c.first);
    var now := AfterWrites(read, c.second);
    WritesExtend(w.log, c.first);
    WritesExtend(read, c.second);
    if after == now || after == read || after == w.log {
      last := Later(others, w, after);
      p := ReadThenOthers(cfg, others, w, after, id);
    } else {
      last := StillNew(others, w, now, run, events, NextRevision(Stream(read, run)), id);
      var _ := ReadThenOthers(cfg, others, w, now, id);
      p := ReadAndStep(cfg, others, w, now, id, ChangeStatus(run, w.log, status, reason, events), last);
    }
  }

  /**
   * A start of a run that is new to the log, with items that are still new to it when the start is appended,
   * is a read, the moves of others, and at most one `StartRun` step.
   */
  lemma {:induction false} StartPlays(cfg: Config, others: Company, w: World, after: seq<Event>, run: Uuid,
                                      workspace: Uuid, objective: string, dealt: seq<Planner.WorkItem>,
                                      readFails: bool, between: seq<Write>, link: Link, firstId: Uuid, at: int,
                                      reply: Reply, events: seq<Event>)
      returns (p: Play, last: World)
    requires forall k :: 0 <= k < |dealt| ==> dealt[k].agent.Some?
    requires Launched(w.log, after, run, workspace, objective, dealt, readFails, between, link, firstId, at, reply,
                      events)
    requires ControlEffects.DistinctItems(dealt) && WellKept(w.log) && Stream(w.log, run) == []
    requires var now := AfterWrites(w.log, between);
             WellKept(now) && forall k :: 0 <= k < |dealt| ==> Unnamed(now, dealt[k].id)
    requires Fair({}, others, firstId) && forall id :: id in w.used ==> id < firstId
    ensures Leads(cfg, {}, p, w, last) && last.log == after
    ensures ReadAndPerhaps(p, StartRun(run, workspace, objective, dealt, events))
  {
    var now := AfterWrites(w.log, between);
    WritesExtend(w.log, between);
    if after == now || after == w.log {
      last := Later(others, w, after);
      p := ReadThenOthers(cfg, others, w, after, firstId);
    } else {
      assert |Payloads(events)| == |events|;
      AppendLandsOnWhatWasRead(w.log, now, run, events);
      last := StillNew(others, w, now, run, events, 1, firstId);
      var _ := ReadThenOthers(cfg, others, w, now, firstId);
      p := ReadAndStep(cfg, others, w, now, firstId, StartRun(run, workspace, objective, dealt, events), last);
    }
  }
}
