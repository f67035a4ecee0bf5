/** The worker process: one pass of its main loop over all runs. */
module WorkerLoop {
  import opened Events
  import opened Log
  import opened EventStore
  import opened WorkerReplay
  import ProjectionStore
  import opened Tick
  import opened RetryAppend
  import opened LoadOrder
  import opened Progress
  import Harness
  import Protocol
  import Commits
  import Projections

  /** All these writes use identifiers below the supply of fresh ones. */
  ghost predicate Below(writes: seq<Write>, firstId: Uuid) {
    forall k :: 0 <= k < |writes| ==> forall id :: id in Ids(writes[k].events) ==> id < firstId
  }

  lemma {:induction false} SequencedIds(events: seq<Event>, run: Uuid, revision: int, id: Uuid)
    requires Harness.Sequenced(events, run, revision, id)
    ensures UniqueIds(events)
    ensures forall i :: i in Ids(events) ==> id <= i < id + |events|
  {
  }

  lemma {:induction false} BelowIds(writes: seq<Write>, firstId: Uuid)
    requires Below(writes, firstId)
    ensures forall id :: id in WriteIds(writes) ==> id < firstId
  {
    if writes != [] {
      BelowIds(Front(writes), firstId);
      assert Last(writes) == writes[|writes| - 1];
    }
  }

  /** What others do while a batch is appended uses only identifiers below the supply of fresh ones. */
  ghost predicate Apart(weather: nat -> Weather, firstId: Uuid) {
    forall k: nat :: Below(weather(k).before, firstId) && Below(weather(k).between, firstId)
  }

  lemma {:induction false} KnownIds(log: seq<Event>, was: seq<Event>, events: seq<Event>, weather: nat -> Weather,
                                    firstId: Uuid)
    requires Known(log, was, events, weather) && Apart(weather, firstId)
    requires forall id :: id in Ids(was) ==> id < firstId
    requires forall id :: id in Ids(events) ==> id < firstId + |events|
    ensures forall id :: id in Ids(log) ==> id < firstId + |events|
  {
    forall id | id in Ids(log) ensures id < firstId + |events| {
      if id !in Ids(was) && id !in Ids(events) {
        var k: nat :| id in WeatherIds(weather(k));
        BelowIds(weather(k).before, firstId);
        BelowIds(weather(k).between, firstId);
      }
    }
  }

  class Worker {
    const agentId: Uuid
    const affine: bool
    const maxItems: nat
    const maxAttempts: nat
    const firstBackoffMs: nat

    constructor (agentId: Uuid, affine: bool, maxItems: nat, maxAttempts: nat, firstBackoffMs: nat)
      requires firstBackoffMs <= U64_MAX
      ensures this.agentId == agentId && this.affine == affine && this.maxItems == maxItems
      ensures this.maxAttempts == maxAttempts && this.firstBackoffMs == firstBackoffMs
    {
      this.agentId, this.affine, this.maxItems := agentId, affine, maxItems;
      this.maxAttempts, this.firstBackoffMs := maxAttempts, firstBackoffMs;
    }

    /**
     * The body of the loop for one run: advance it in memory, append the batch with retries in any
     * weather, and only then write the projection rows, as far as the database lets it.
     */
    method WorkOnRun(store: PostgresEventStore, projections: ProjectionStore.PostgresProjectionStore,
                     state: RunState, run: Uuid,
                     executor: Uuid -> Harness.Outcome, weather: nat -> Weather, fails: nat -> bool, firstId: Uuid,
                     at: int)
        returns (did: bool, events: seq<Event>, ghost work: seq<Job>, ghost tries: seq<Try>, ghost upTo: nat)
      requires store.Valid() && firstBackoffMs <= U64_MAX
      requires forall id :: id in Ids(store.log) ==> id < firstId
      requires Apart(weather, firstId)
      modifies store, projections, state
      ensures store.Valid() && old(store.log) <= store.log
      ensures forall id :: id in Ids(store.log) ==> id < firstId + |events|
      ensures !Workable(old(state.Memory())) ==> events == [] && work == []
      ensures Workable(old(state.Memory())) ==>
                && Taken(old(state.Memory()), agentId, affine, maxItems, work)
                && Payloads(events) == BatchPayloads(old(state.Memory()), agentId, run, work)
                && state.Memory() == Close(NoteAll(old(state.Memory()), work))
                && (state.latestRevision, state.updatedAt) == BooksAfter(old(state.Current()), agentId, run, work, at)
      ensures UniqueIds(events) && Timed(events, at)
      ensures forall k :: 0 <= k < |events| ==> firstId <= events[k].id < firstId + |events|
      ensures events == [] ==> !did && store.log == old(store.log)
      ensures Absent(store.log, events) || Whole(store.log, run, events)
      ensures did ==> Whole(store.log, run, events)
      ensures Trail(tries, old(store.log), store.log, run, events)
      ensures !did ==> projections.runs == old(projections.runs) && projections.items == old(projections.items)
      ensures did ==>
                && upTo <= |events|
                && projections.items
                    == Projections.RowsAfter(old(projections.items), state.items, run, Payloads(events[..upTo]))
                && (projections.runs == old(projections.runs)
                    || (upTo == |events| &&
                        projections.runs == old(projections.runs)[run := Projections.RunRowFor(state)]))
      ensures did && (forall k: nat :: !fails(k)) ==>
                upTo == |events| && projections.runs == old(projections.runs)[run := Projections.RunRowFor(state)]
      ensures weather(0) == CALM && events != [] ==>
                var rebased := Rebased(events, Latest(old(store.log), run));
                did && Accepts(old(store.log), run, rebased) && store.log == Appended(old(store.log), run, rebased)
    {
      ghost var was := state.Memory();
      ghost var revision := state.latestRevision + 1;
      tries, upTo := [], 0;
      events, work := AdvanceRun(state, run, agentId, affine, maxItems, executor, firstId, at);
      SequencedIds(events, run, revision, firstId);
      if events == [] {
        did := false;
        return;
      }
      ghost var before := store.log;
      did, tries := AppendBatch(store, run, events, weather);
      KnownIds(store.log, before, events, weather, firstId);
      if did {
        NoteAllKeys(was, work);
        var _, written := Projections.UpdateRunProjections(state, projections, run, events, fails);
        upTo := written;
      }
    }

    method AppendBatch(store: PostgresEventStore, run: Uuid, events: seq<Event>, weather: nat -> Weather)
        returns (ok: bool, ghost tries: seq<Try>)
      requires store.Valid() && firstBackoffMs <= U64_MAX && events != [] && UniqueIds(events)
      requires Absent(store.log, events)
      requires forall k: nat :: Strangers(weather(k).before, events) && Strangers(weather(k).between, events)
      modifies store
      ensures store.Valid() && old(store.log) <= store.log
      ensures Absent(store.log, events) || Whole(store.log, run, events)
      ensures ok ==> Whole(store.log, run, events)
      ensures Trail(tries, old(store.log), store.log, run, events)
      ensures Known(store.log, old(store.log), events, weather)
      ensures weather(0) == CALM ==>
                var rebased := Rebased(events, Latest(old(store.log), run));
                ok && Accepts(old(store.log), run, rebased) && store.log == Appended(old(store.log), run, rebased)
    {
      AcceptsRebased(store.log, run, events);
      var done, _, _, trail := AppendEventsWithRetry(store, run, events, maxAttempts, firstBackoffMs, weather);
      ok, tries := done, trail;
    }

    /** Read the log in time order and replay it. */
    method LoadStates(store: PostgresEventStore) returns (states: map<Uuid, RunState>, ghost seen: seq<Event>)
      ensures IsLoad(store.log, seen)
      ensures Separate(states) && forall r :: r in states ==> fresh(states[r])
      ensures forall r :: r in states ==> states[r].Memory() == CoreOf(seen, r)
      ensures forall r :: r !in states ==> !Workable(CoreOf(seen, r))
    {
      var all := store.LoadAll();
      states := RunStatesFromEvents(all);
      forall r | r !in states ensures !Workable(CoreOf(all, r)) {
        UnmentionedIsBlank(all, r);
      }
      seen := all;
    }

    /** The work on the next run of a pass. */
    method Turn(store: PostgresEventStore, projections: ProjectionStore.PostgresProjectionStore, state: RunState,
                run: Uuid, executor: Uuid -> Harness.Outcome, weather: nat -> Weather, fails: nat -> bool,
                firstId: Uuid, at: int, ghost tour: Tour, ghost deeds: seq<Deed>, ghost passes: map<Uuid, Pass>,
                ghost left: set<Uuid>)
        returns (nextId: Uuid, ghost more: seq<Deed>, ghost next: map<Uuid, Pass>)
      requires store.Valid() && firstBackoffMs <= U64_MAX && Apart(weather, firstId)
      requires forall id :: id in Ids(store.log) ==> id < firstId
      requires state.Memory() == CoreOf(tour.seen, run) && run in left && at == tour.at
      requires agentId == tour.agent && affine == tour.affine && maxItems == tour.maxItems
      requires tour.calm ==> weather(0) == CALM
      requires OnTour(tour, store.log, deeds, passes, firstId, left)
      modifies store, projections, state
      ensures store.Valid() && old(store.log) <= store.log && firstId <= nextId
      ensures forall id :: id in Ids(store.log) ==> id < nextId
      ensures OnTour(tour, store.log, more, next, nextId, left - {run})
    {
      ghost var met := store.log;
      var did, events, work, tries, _ :=
        WorkOnRun(store, projections, state, run, executor, weather, fails, firstId, at);
      more, next := OneRun(tour, deeds, passes, left, Deed(run, work, events, met, tries, store.log, firstId));
      nextId := firstId + |events|;
    }

    /**
     * One pass of the loop: read the log in time order, replay it, and work on every run in whatever order
     * the hash map yields them, with other processes and failures around every append. What it does is one
     * deed after the other. If nothing disturbs its appends, the pass is one tick for every run: its batch,
     * and nothing else, has been added to the run's stream.
     */
    method RunOnce(store: PostgresEventStore, projections: ProjectionStore.PostgresProjectionStore,
                   executor: Uuid -> Harness.Outcome, weather: Uuid -> nat -> Weather,
                   fails: nat -> bool, firstId: Uuid, at: int)
        returns (ghost deeds: seq<Deed>, ghost passes: map<Uuid, Pass>, ghost seen: seq<Event>)
      requires store.Valid() && firstBackoffMs <= U64_MAX
      requires forall id :: id in Ids(store.log) ==> id < firstId
      requires forall run :: Apart(weather(run), firstId)
      modifies store, projections
      ensures store.Valid() && old(store.log) <= store.log
      ensures IsLoad(old(store.log), seen)
      ensures Performed(deeds, old(store.log), store.log, seen, agentId, affine, maxItems, firstId)
      ensures forall r: Uuid ::
                Workable(CoreOf(seen, r)) ==> Worked(deeds, r) || Idles(CoreOf(seen, r), agentId, affine, maxItems, r)
      ensures Kept(old(store.log)) && (forall run :: weather(run)(0) == CALM) ==>
                && Kept(store.log)
                && (forall r: Uuid :: r in passes <==> Workable(CoreOf(seen, r)))
                && forall r: Uuid ::
                     TickTo(old(store.log), store.log, PassOf(passes, seen, at, r), agentId, affine, maxItems, r)
    {
      ghost var before := store.log;
      ghost var calm := Kept(before) && forall run :: weather(run)(0) == CALM;
      var states, loaded := LoadStates(store);
      seen, passes, deeds := loaded, map[], [];
      var left := states.Keys;
      var nextId: Uuid := firstId;
      ghost var tour := Tour(before, seen, agentId, affine, maxItems, at, firstId, calm);
      PassBegins(before, seen, agentId, affine, maxItems, at, left);
      while left != {}
        invariant left <= states.Keys && Separate(states)
        invariant forall r :: r in states ==> fresh(states[r])
        invariant store.Valid() && before <= store.log && firstId <= nextId
        invariant forall id :: id in Ids(store.log) ==> id < nextId
        invariant forall r :: r in left ==> states[r].Memory() == CoreOf(seen, r)
        invariant OnTour(tour, store.log, deeds, passes, nextId, left)
        decreases left
      {
        var run :| run in left;
        FurtherApart(weather(run), firstId, nextId);
        nextId, deeds, passes := Turn(store, projections, states[run], run, executor, weather(run), fails, nextId, at,
                                      tour, deeds, passes, left);
        left := left - {run};
      }
      if calm {
        PassEnds(before, store.log, seen, agentId, affine, maxItems, passes, at);
      }
    }
  }

  lemma {:induction false} FurtherApart(weather: nat -> Weather, firstId: Uuid, nextId: Uuid)
    requires Apart(weather, firstId) && firstId <= nextId
    ensures Apart(weather, nextId)
  {
    forall k: nat ensures Below(weather(k).before, nextId) && Below(weather(k).between, nextId) {
      assert Below(weather(k).before, firstId) && Below(weather(k).between, firstId);
    }
  }

  // ---- A pass as a sequence of deeds ---------------------------------------------------------------------

  /** What a worker did for one run: its jobs, its batch, and how it was appended to the log that it met. */
  datatype Deed = Deed(run: Uuid, work: seq<Job>, batch: seq<Event>, met: seq<Event>, tries: seq<Try>,
                       until: seq<Event>, firstId: Uuid)

  ghost predicate Proceeds(d: Deed, seen: seq<Event>, agent: Uuid, affine: bool, maxItems: nat) {
    && d.batch != [] && Workable(CoreOf(seen, d.run)) && Taken(CoreOf(seen, d.run), agent, affine, maxItems, d.work)
    && Payloads(d.batch) == BatchPayloads(CoreOf(seen, d.run), agent, d.run, d.work)
    && UniqueIds(d.batch)
    && (forall k :: 0 <= k < |d.batch| ==> d.firstId <= d.batch[k].id < d.firstId + |d.batch|)
    && Trail(d.tries, d.met, d.until, d.run, d.batch)
  }

  /** Deeds for different runs, one after the other, that lead from one log to another. */
  ghost predicate Performed(deeds: seq<Deed>, from: seq<Event>, until: seq<Event>, seen: seq<Event>, agent: Uuid,
                       affine: bool, maxItems: nat, low: Uuid) {
    if deeds == [] then until == from
    else
      var d, front := Last(deeds), Front(deeds);
      && Proceeds(d, seen, agent, affine, maxItems) && d.until == until && low <= d.firstId
      && (forall k :: 0 <= k < |front| ==> front[k].run != d.run && front[k].firstId + |front[k].batch| <= d.firstId)
      && Performed(front, from, d.met, seen, agent, affine, maxItems, low)
  }

  ghost predicate Worked(deeds: seq<Deed>, run: Uuid) {
    exists k :: 0 <= k < |deeds| && deeds[k].run == run
  }

  /** A run that leaves the worker nothing to do and nothing to close. */
  ghost predicate Idles(c: Core, agent: Uuid, affine: bool, maxItems: nat, run: Uuid) {
    Taken(c, agent, affine, maxItems, []) && BatchPayloads(c, agent, run, []) == []
  }

  ghost predicate PerformedBy(deeds: seq<Deed>, from: seq<Event>, until: seq<Event>, seen: seq<Event>, agent: Uuid,
                         affine: bool, maxItems: nat, low: Uuid, high: Uuid, left: set<Uuid>) {
    && Performed(deeds, from, until, seen, agent, affine, maxItems, low)
    && (forall k :: 0 <= k < |deeds| ==> deeds[k].run !in left && deeds[k].firstId + |deeds[k].batch| <= high)
    && forall r: Uuid :: r !in left && Workable(CoreOf(seen, r)) ==>
         Worked(deeds, r) || Idles(CoreOf(seen, r), agent, affine, maxItems, r)
  }

  /** What does not change while a pass is under way; `calm` if nothing disturbs it. */
  datatype Tour = Tour(before: seq<Event>, seen: seq<Event>, agent: Uuid, affine: bool, maxItems: nat, at: int,
                       firstId: Uuid, calm: bool)

  ghost predicate OnTour(t: Tour, log: seq<Event>, deeds: seq<Deed>, passes: map<Uuid, Pass>, nextId: Uuid,
                           left: set<Uuid>) {
    && t.firstId <= nextId && IsLoad(t.before, t.seen)
    && PerformedBy(deeds, t.before, log, t.seen, t.agent, t.affine, t.maxItems, t.firstId, nextId, left)
    && (t.calm ==>
          Kept(log) && Passing(t.before, log, t.seen, t.agent, t.affine, t.maxItems, passes, t.at, left))
  }

  /** The work on one run, as a deed and as a tick. */
  lemma {:induction false} OneRun(t: Tour, deeds: seq<Deed>, passes: map<Uuid, Pass>, left: set<Uuid>, d: Deed)
      returns (more: seq<Deed>, next: map<Uuid, Pass>)
    requires OnTour(t, d.met, deeds, passes, d.firstId, left) && d.run in left
    requires forall id :: id in Ids(d.met) ==> id < d.firstId
    requires if d.batch == [] then d.until == d.met else Proceeds(d, t.seen, t.agent, t.affine, t.maxItems)
    requires !Workable(CoreOf(t.seen, d.run)) ==> d.batch == []
    requires Workable(CoreOf(t.seen, d.run)) ==>
               Taken(CoreOf(t.seen, d.run), t.agent, t.affine, t.maxItems, d.work)
               && Payloads(d.batch) == BatchPayloads(CoreOf(t.seen, d.run), t.agent, d.run, d.work)
    requires Timed(d.batch, t.at)
    requires t.calm && d.batch != [] ==>
               var rebased := Rebased(d.batch, Latest(d.met, d.run));
               Accepts(d.met, d.run, rebased) && d.until == Appended(d.met, d.run, rebased)
    ensures OnTour(t, d.until, more, next, d.firstId + |d.batch|, left - {d.run})
  {
    more, next := deeds, passes;
    if d.batch == [] {
      NoDeed(deeds, t.before, d.met, t.seen, t.agent, t.affine, t.maxItems, t.firstId, d.firstId, left, d.run, d.work);
    } else {
      OneDeed(deeds, t.before, d.met, d.until, t.seen, t.agent, t.affine, t.maxItems, t.firstId, d.firstId, left, d);
      more := deeds + [d];
    }
    if t.calm {
      next := PassOne(t.before, d.met, d.until, t.seen, t.agent, t.affine, t.maxItems, passes, t.at, left, d.run,
                      d.batch, d.work, d.firstId);
    }
  }

  lemma {:induction false} StillWorked(deeds: seq<Deed>, d: Deed)
    ensures forall r :: Worked(deeds, r) || r == d.run ==> Worked(deeds + [d], r)
  {
    forall r | Worked(deeds, r) || r == d.run ensures Worked(deeds + [d], r) {
      if k :| 0 <= k < |deeds| && deeds[k].run == r {
        assert (deeds + [d])[k].run == r;
      } else {
        assert (deeds + [d])[|deeds|].run == r;
      }
    }
  }

  /** A run on which there was nothing to write leaves no deed. */
  lemma {:induction false} NoDeed(deeds: seq<Deed>, from: seq<Event>, now: seq<Event>, seen: seq<Event>, agent: Uuid,
                                  affine: bool, maxItems: nat, low: Uuid, high: Uuid, left: set<Uuid>, run: Uuid,
                                  work: seq<Job>)
    requires PerformedBy(deeds, from, now, seen, agent, affine, maxItems, low, high, left) && run in left
    requires Workable(CoreOf(seen, run)) ==>
               Taken(CoreOf(seen, run), agent, affine, maxItems, work)
               && BatchPayloads(CoreOf(seen, run), agent, run, work) == []
    ensures PerformedBy(deeds, from, now, seen, agent, affine, maxItems, low, high, left - {run})
  {
    assert Workable(CoreOf(seen, run)) ==> work == [];
  }

  lemma {:induction false} OneDeed(deeds: seq<Deed>, from: seq<Event>, now: seq<Event>, next: seq<Event>,
                                   seen: seq<Event>, agent: Uuid, affine: bool, maxItems: nat, low: Uuid, high: Uuid,
                                   left: set<Uuid>, d: Deed)
    requires PerformedBy(deeds, from, now, seen, agent, affine, maxItems, low, high, left) && d.run in left
    requires d.met == now && d.until == next && d.firstId == high && low <= high
    requires Proceeds(d, seen, agent, affine, maxItems)
    ensures PerformedBy(deeds + [d], from, next, seen, agent, affine, maxItems, low, high + |d.batch|, left - {d.run})
  {
    var more := deeds + [d];
    assert Front(more) == deeds && Last(more) == d;
    StillWorked(deeds, d);
    forall r | r !in left - {d.run} && Workable(CoreOf(seen, r))
      ensures Worked(more, r) || Idles(CoreOf(seen, r), agent, affine, maxItems, r)
    {
      assert r == d.run || r !in left;
    }
  }

  /** What a pass did for a run, if anything. */
  ghost function PassOf(passes: map<Uuid, Pass>, seen: seq<Event>, at: int, r: Uuid): Pass {
    if r in passes then passes[r] else Pass(seen, [], [], at)
  }

  /** What a pass has made of one run so far; the runs of `left` have not been reached. */
  ghost predicate PassedOn(before: seq<Event>, after: seq<Event>, seen: seq<Event>, agent: Uuid, affine: bool,
                           maxItems: nat,
                           passes: map<Uuid, Pass>, at: int, left: set<Uuid>, r: Uuid) {
    && (r in passes <==> Workable(CoreOf(seen, r)) && r !in left)
    && (r in passes ==> passes[r].seen == seen && passes[r].at == at)
    && if r in left then Stream(after, r) == Stream(before, r)
       else TickTo(before, after, PassOf(passes, seen, at, r), agent, affine, maxItems, r)
  }

  ghost predicate Passing(before: seq<Event>, after: seq<Event>, seen: seq<Event>, agent: Uuid, affine: bool,
                          maxItems: nat,
                          passes: map<Uuid, Pass>, at: int, left: set<Uuid>) {
    forall r :: PassedOn(before, after, seen, agent, affine, maxItems, passes, at, left, r)
  }

  lemma {:induction false} PassBegins(before: seq<Event>, seen: seq<Event>, agent: Uuid, affine: bool, maxItems: nat,
                                      at: int,
                                      left: set<Uuid>)
    requires IsLoad(before, seen) && forall r :: r !in left ==> !Workable(CoreOf(seen, r))
    ensures Passing(before, before, seen, agent, affine, maxItems, map[], at, left)
  {
  }

  lemma {:induction false} PassEnds(before: seq<Event>, after: seq<Event>, seen: seq<Event>, agent: Uuid, affine: bool,
                                    maxItems: nat, passes: map<Uuid, Pass>, at: int)
    requires Passing(before, after, seen, agent, affine, maxItems, passes, at, {})
    ensures forall r :: r in passes <==> Workable(CoreOf(seen, r))
    ensures forall r :: TickTo(before, after, PassOf(passes, seen, at, r), agent, affine, maxItems, r)
  {
    forall r
      ensures r in passes <==> Workable(CoreOf(seen, r))
      ensures TickTo(before, after, PassOf(passes, seen, at, r), agent, affine, maxItems, r)
    {
      assert PassedOn(before, after, seen, agent, affine, maxItems, passes, at, {}, r);
    }
  }

  lemma {:induction false} PassOne(before: seq<Event>, now: seq<Event>, next: seq<Event>, seen: seq<Event>, agent: Uuid,
                                   affine: bool, maxItems: nat, passes: map<Uuid, Pass>, at: int, left: set<Uuid>,
                                   run: Uuid,
                                   events: seq<Event>, work: seq<Job>, firstId: Uuid)
      returns (more: map<Uuid, Pass>)
    requires IsLoad(before, seen) && Kept(now) && run in left
    requires forall id :: id in Ids(now) ==> id < firstId
    requires Passing(before, now, seen, agent, affine, maxItems, passes, at, left)
    requires !Workable(CoreOf(seen, run)) ==> events == []
    requires Workable(CoreOf(seen, run)) ==>
               Taken(CoreOf(seen, run), agent, affine, maxItems, work)
               && Payloads(events) == BatchPayloads(CoreOf(seen, run), agent, run, work)
    requires Timed(events, at) && forall k :: 0 <= k < |events| ==> firstId <= events[k].id < firstId + |events|
    requires if events == [] then next == now
             else
               var rebased := Rebased(events, Latest(now, run));
               Accepts(now, run, rebased) && next == Appended(now, run, rebased)
    ensures Kept(next)
    ensures forall id :: id in Ids(next) ==> id < firstId + |events|
    ensures Passing(before, next, seen, agent, affine, maxItems, more, at, left - {run})
  {
    var rows := BatchLands(now, next, CoreOf(seen, run), agent, run, events, work, firstId);
    more := if Workable(CoreOf(seen, run)) then passes[run := Pass(seen, work, rows, at)] else passes;
    assert PassedOn(before, now, seen, agent, affine, maxItems, passes, at, left, run);
    forall r ensures PassedOn(before, next, seen, agent, affine, maxItems, more, at, left - {run}, r) {
      assert PassedOn(before, now, seen, agent, affine, maxItems, passes, at, left, r);
    }
  }

  /** A fresh batch lands at the end of its run's stream, and on no other. */
  lemma {:induction false} BatchLands(now: seq<Event>, next: seq<Event>, c: Core, agent: Uuid, run: Uuid,
                                      events: seq<Event>,
                                      work: seq<Job>, firstId: Uuid)
      returns (rows: seq<Event>)
    requires Kept(now) && forall id :: id in Ids(now) ==> id < firstId
    requires events != [] ==> Payloads(events) == BatchPayloads(c, agent, run, work)
    requires forall k :: 0 <= k < |events| ==> firstId <= events[k].id < firstId + |events|
    requires if events == [] then next == now
             else
               var rebased := Rebased(events, Latest(now, run));
               Accepts(now, run, rebased) && next == Appended(now, run, rebased)
    ensures Kept(next) && forall id :: id in Ids(next) ==> id < firstId + |events|
    ensures forall r :: Stream(next, r) == Stream(now, r) + if r == run then rows else []
    ensures Payloads(rows) == Payloads(events) && forall at :: Timed(events, at) ==> Timed(rows, at)
  {
    var rebased := Rebased(events, Latest(now, run));
    rows := Stamp(rebased, run);
    Protocol.RebasedPayloads(events, Latest(now, run), run);
    Protocol.RebasedPayloads(rebased, 0, run);
    if events != [] {
      Commits.BatchProper(c, agent, run, work);
      Protocol.AppendedKept(now, run, rebased);
      AppendedIds(now, run, rebased);
      RebasedIds(events, Latest(now, run), run);
      forall r ensures Stream(next, r) == Stream(now, r) + if r == run then rows else [] {
        AppendExtendsStream(now, run, rebased, r);
      }
    } else {
      assert rows == [];
    }
  }
}
