/**
 * A batch whose append was reported as failed, and takes effect only later, completes an item twice,
 * with every clock right and no retry at all.
 */
module LateCommit {
  import opened Events
  import opened Log
  import opened Protocol
  import AtomicControl
  import opened Scenes

  function First(t0: int): seq<Entry> { At(Work(STARTED), t0 + 1) }
  function Second(t0: int): seq<Entry> { At(Work(STARTED), t0 + 2) }

  const CLAIMS := Claims(true, true, false)

  function Lost(t0: int): Proposal {
    Proposal(AGENT, Rows(Opened(t0), 0), Offer(RUN, WORK, Rows(First(t0), 2)))
  }

  lemma {:induction false} TwoCompletions(t0: int)
    ensures Completions(Bare(Opened(t0) + First(t0) + Second(t0)), RUN, ITEM) == 2
  {
    ReadyCompletes(STARTED);
    ControlCompletesNothing();
    BareConcat(Opened(t0), First(t0));
    BareConcat(Opened(t0) + First(t0), Second(t0));
    CompletionsConcat(Starting(), Work(STARTED), RUN, ITEM);
    CompletionsConcat(Starting() + Work(STARTED), Work(STARTED), RUN, ITEM);
  }

  /** The worker builds a batch and gives it up. */
  lemma {:induction false} UntilLost(t0: int) returns (t: Story, sc: Scene)
    ensures Reached(t, sc, CLAIMS) && sc.log == Opened(t0) && sc.phase == Idle && Lost(t0) in sc.adrift
    ensures forall id :: id in sc.used ==> id <= 6
  {
    OpenedState(t0);
    ReadyBuilds(STARTED);
    WorkLength(STARTED);
    RowsIds(First(t0), 2);
    var seen := Rows(Opened(t0), 0);
    t := Loading(t0, CLAIMS);
    t := ThenBuild(t, Loaded(t0), seen, t0 + 1, 2, CLAIMS);
    t := ThenEnd(t, Built(Loaded(t0), seen, t0 + 1, 2), CLAIMS);
    sc := Ended(Built(Loaded(t0), seen, t0 + 1, 2));
  }

  /** It builds another one in its next tick. */
  lemma {:induction false} UntilBuiltAgain(t0: int) returns (t: Story, sc: Scene)
    ensures Reached(t, sc, CLAIMS) && sc.log == Opened(t0) && Lost(t0) in sc.adrift
    ensures sc.phase == Ticking(Rows(Opened(t0), 0), {RUN}, Some(Offer(RUN, WORK, Rows(Second(t0), 6))))
  {
    OpenedState(t0);
    RowsInOrder(Opened(t0));
    var seen := Rows(Opened(t0), 0);
    t, sc := UntilLost(t0);
    OpenIsSafe(sc, seen);
    t := ThenBegin(t, sc, seen, CLAIMS);
    sc := sc.(phase := Ticking(seen, {}, None));
    t := ThenBuild(t, sc, seen, t0 + 2, 6, CLAIMS);
    sc := Built(sc, seen, t0 + 2, 6);
  }

  /**
   * A run, starting at any time, in which an item is completed twice, with one affinity worker, no
   * control operation but the start, and every batch younger than its stream: the append of a batch is
   * reported as failed and its tick given up; the next tick loads the run and builds a batch for the
   * same item; only now the first append takes effect; and the second batch is rebased and accepted.
   */
  lemma {:induction false} LateCommitCompletesTwice(t0: int) returns (worlds: seq<World>, steps: seq<Step>)
    ensures Strict(SETUP) && Trace(SETUP, worlds, steps)
    ensures Completions(Payloads(Last(worlds).log), RUN, ITEM) == 2
    ensures AtomicControl.AtomicRetries(worlds, steps, RUN) && SafeLoads(SETUP, worlds, steps, RUN)
    ensures !SafeSurfaces(SETUP, worlds, steps, RUN)
  {
    OpenedState(t0);
    ReadyBuilds(STARTED);
    WorkLength(STARTED);
    TwoCompletions(t0);
    var t, sc := UntilBuiltAgain(t0);
    t := ThenSurface(t, sc, Lost(t0), First(t0), CLAIMS);
    sc := sc.(log := sc.log + First(t0));
    t := ThenAttempt(t, sc, Second(t0), CLAIMS);
    sc := sc.(log := sc.log + Second(t0));
    Claimed(t, sc, CLAIMS);
    worlds, steps := t.worlds, t.steps;
    if SafeSurfaces(SETUP, worlds, steps, RUN) {
      AtomicControl.AtomicControlIsSafe(SETUP, worlds, steps, 0, RUN, ITEM);
    }
  }
}
