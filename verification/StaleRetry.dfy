/**
 * A retry decided on an old read completes an item twice, with every clock right and nothing failing:
 * the revision check looks only at the retry's second read.
 */
module StaleRetry {
  import opened Events
  import opened Log
  import opened WorkerReplay
  import opened Protocol
  import ProtocolSafety
  import opened Scenes

  function L2(t0: int): seq<Entry> { Opened(t0) + At([PAUSE], t0 + 1) }
  function L3(t0: int): seq<Entry> { L2(t0) + At(Work(STARTED), t0 + 2) }
  function L4(t0: int): seq<Entry> { L3(t0) + At(Retry(), t0 + 3) }
  function Redone(t0: int): Core { CoreOf(Rows(L4(t0), 0), RUN) }
  function L5(t0: int): seq<Entry> { L4(t0) + At(Work(Redone(t0)), t0 + 4) }

  const CLAIMS := Claims(false, true, true)

  lemma {:induction false} Lengths(t0: int)
    ensures |L2(t0)| == 3 && |L3(t0)| == 7 && |L4(t0)| == 9
  {
    OpenedState(t0);
    ReadyBuilds(STARTED);
    WorkLength(STARTED);
  }

  /** After the retry the item is assigned again, although its completion is in the log. */
  lemma {:induction false} RetriedState(t0: int)
    ensures Bare(L4(t0)) == Starting() + [PAUSE] + Work(STARTED) + Retry()
    ensures Proper(Bare(L4(t0)), RUN) && Ready(Redone(t0))
  {
    var c := STARTED.(status := Paused);
    StartEffect();
    PauseEffect(STARTED);
    ReadyBuilds(STARTED);
    WorkEffect(c);
    RetryEffect(ApplyAll(c, Work(STARTED)));
    ApplyAllConcat(BLANK.core, Starting(), [PAUSE]);
    ApplyAllConcat(BLANK.core, Starting() + [PAUSE], Work(STARTED));
    ApplyAllConcat(BLANK.core, Starting() + [PAUSE] + Work(STARTED), Retry());
    BareConcat(Opened(t0), At([PAUSE], t0 + 1));
    BareConcat(L2(t0), At(Work(STARTED), t0 + 2));
    BareConcat(L3(t0), At(Retry(), t0 + 3));
    CoreOfEvents(Rows(L4(t0), 0), RUN);
  }

  lemma {:induction false} TwoCompletions(t0: int)
    ensures Completions(Bare(L5(t0)), RUN, ITEM) == 2
  {
    RetriedState(t0);
    ReadyCompletes(STARTED);
    ReadyCompletes(Redone(t0));
    ControlCompletesNothing();
    BareConcat(L4(t0), At(Work(Redone(t0)), t0 + 4));
    CompletionsConcat(Starting(), [PAUSE], RUN, ITEM);
    CompletionsConcat(Starting() + [PAUSE], Work(STARTED), RUN, ITEM);
    CompletionsConcat(Starting() + [PAUSE] + Work(STARTED), Retry(), RUN, ITEM);
    CompletionsConcat(Bare(L4(t0)), Work(Redone(t0)), RUN, ITEM);
  }

  /** The worker loads the started run; the run is paused; a retry reads it and decides. */
  lemma {:induction false} UntilDecision(t0: int) returns (t: Story, sc: Scene)
    ensures Reached(t, sc, CLAIMS)
    ensures sc.log == L2(t0) && sc.phase == Ticking(Rows(Opened(t0), 0), {}, None) && sc.adrift == {}
    ensures Rows(L2(t0), 0) in sc.loaded && forall id :: id in sc.used ==> 0 < id <= 3
  {
    OpenedState(t0);
    RowsIds(At([PAUSE], t0 + 1), 2);
    sc := Loaded(t0);
    t := Loading(t0, CLAIMS);
    t := ThenRead(t, sc, CLAIMS);
    sc := sc.(loaded := sc.loaded + {Rows(sc.log, 0)});
    t := ThenPause(t, sc, t0 + 1, CLAIMS);
    sc := Extended(sc, At([PAUSE], t0 + 1));
    t := ThenRead(t, sc, CLAIMS);
    sc := sc.(loaded := sc.loaded + {Rows(sc.log, 0)});
  }

  /** The worker commits the completion it built from its older snapshot; then the retry appends. */
  lemma {:induction false} UntilRetried(t0: int) returns (t: Story, sc: Scene)
    ensures Reached(t, sc, CLAIMS)
    ensures sc.log == L4(t0) && forall id :: id in sc.used ==> 0 < id <= 9
  {
    Lengths(t0);
    OpenedState(t0);
    BareConcat(Opened(t0), At([PAUSE], t0 + 1));
    var seen := Rows(Opened(t0), 0);
    t, sc := UntilDecision(t0);
    t := ThenBuild(t, sc, seen, t0 + 2, 3, CLAIMS);
    sc := Built(sc, seen, t0 + 2, 3);
    RowsIds(At(Work(STARTED), t0 + 2), 3);
    t := ThenAttempt(t, sc, At(Work(STARTED), t0 + 2), CLAIMS);
    sc := sc.(log := L3(t0));
    t := ThenRetry(t, sc, L2(t0), t0 + 3, CLAIMS);
    sc := Extended(sc, At(Retry(), t0 + 3));
    RowsIds(At(Retry(), t0 + 3), 7);
  }

  /** The next tick loads the run. */
  lemma {:induction false} UntilLoadedAgain(t0: int) returns (t: Story, sc: Scene)
    ensures Reached(t, sc, CLAIMS) && sc.log == L4(t0) && sc.phase == Ticking(Rows(L4(t0), 0), {}, None)
    ensures forall id :: id in sc.used ==> 0 < id <= 9
  {
    RetriedState(t0);
    RowsInOrder(L4(t0));
    var seen := Rows(L4(t0), 0);
    t, sc := UntilRetried(t0);
    t := ThenEnd(t, sc, CLAIMS);
    sc := Ended(sc);
    OpenIsSafe(sc, seen);
    t := ThenBegin(t, sc, seen, CLAIMS);
    sc := sc.(phase := Ticking(seen, {}, None));
  }

  /**
   * A run, starting at any time, in which an item is completed twice, with one affinity worker, nothing
   * failing and every load safe: the worker loads; the run is paused; an operator's retry reads the
   * paused run and decides; the worker commits the completion from its older snapshot; the retry takes
   * its revision only now, so its append is accepted and reassigns the completed item; the next tick
   * completes it again.
   */
  lemma {:induction false} StaleRetryCompletesTwice(t0: int) returns (worlds: seq<World>, steps: seq<Step>)
    ensures Strict(SETUP) && Trace(SETUP, worlds, steps)
    ensures Completions(Payloads(Last(worlds).log), RUN, ITEM) == 2
    ensures SafeLoads(SETUP, worlds, steps, RUN) && SafeSurfaces(SETUP, worlds, steps, RUN)
    ensures !SafeRetries(worlds, steps, RUN)
  {
    Lengths(t0);
    RetriedState(t0);
    TwoCompletions(t0);
    var t, sc := UntilLoadedAgain(t0);
    t := ThenBuild(t, sc, Rows(L4(t0), 0), t0 + 4, 9, CLAIMS);
    sc := Built(sc, Rows(L4(t0), 0), t0 + 4, 9);
    t := ThenAttempt(t, sc, At(Work(Redone(t0)), t0 + 4), CLAIMS);
    sc := sc.(log := L5(t0));
    Claimed(t, sc, CLAIMS);
    worlds, steps := t.worlds, t.steps;
    if SafeRetries(worlds, steps, RUN) {
      ProtocolSafety.CompletedAtMostOnce(SETUP, worlds, steps, RUN, ITEM);
    }
  }
}
