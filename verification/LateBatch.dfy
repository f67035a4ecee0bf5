/**
 * A batch committed with an old time completes an item twice, although every control operation is
 * atomic: a load sorts by time, so it shows the retry after the completion that was committed later.
 */
module LateBatch {
  import opened Events
  import opened Log
  import opened WorkerReplay
  import opened Protocol
  import EventStore
  import Tick
  import AtomicControl
  import opened Scenes

  function L2(t0: int): seq<Entry> { Opened(t0) + At([PAUSE], t0 + 2) }
  function L3(t0: int): seq<Entry> { L2(t0) + At(Retry(), t0 + 3) }
  function L4(t0: int): seq<Entry> { L3(t0) + At(Work(STARTED), t0 + 1) }

  const CLAIMS := Claims(true, false, true)

  /** What a load of the log shows after the late batch: its events come before the pause. */
  function Shown(t0: int): seq<Event> {
    Rows(Opened(t0), 0) + Rows(At(Work(STARTED), t0 + 1), 5) + Rows(At([PAUSE], t0 + 2), 2)
    + Rows(At(Retry(), t0 + 3), 3)
  }

  function Redone(t0: int): Core { CoreOf(Shown(t0), RUN) }
  function L5(t0: int): seq<Entry> { L4(t0) + At(Work(Redone(t0)), t0 + 4) }

  lemma {:induction false} Lengths(t0: int)
    ensures |L2(t0)| == 3 && |L3(t0)| == 5 && |L4(t0)| == 9
  {
    OpenedState(t0);
    ReadyBuilds(STARTED);
    WorkLength(STARTED);
  }

  lemma {:induction false} ShownPayloads(t0: int)
    ensures Payloads(Shown(t0)) == Starting() + Work(STARTED) + [PAUSE] + Retry()
    ensures forall k :: 0 <= k < |Shown(t0)| ==> Shown(t0)[k].resourceId == RUN
  {
    var a, b := Rows(Opened(t0), 0), Rows(At(Work(STARTED), t0 + 1), 5);
    var c, d := Rows(At([PAUSE], t0 + 2), 2), Rows(At(Retry(), t0 + 3), 3);
    Tick.PayloadsConcat(a, b);
    Tick.PayloadsConcat(a + b, c);
    Tick.PayloadsConcat(a + b + c, d);
  }

  lemma {:induction false} ShownReplay()
    ensures Proper(Starting() + Work(STARTED) + [PAUSE] + Retry(), RUN)
    ensures Ready(ApplyAll(BLANK.core, Starting() + Work(STARTED) + [PAUSE] + Retry()))
  {
    var c := ApplyAll(STARTED, Work(STARTED));
    StartEffect();
    ReadyBuilds(STARTED);
    WorkEffect(STARTED);
    PauseEffect(c);
    RetryEffect(c.(status := Paused));
    ApplyAllConcat(BLANK.core, Starting(), Work(STARTED));
    ApplyAllConcat(BLANK.core, Starting() + Work(STARTED), [PAUSE]);
    ApplyAllConcat(BLANK.core, Starting() + Work(STARTED) + [PAUSE], Retry());
  }

  /** The load shows the item assigned again, after its completion. */
  lemma {:induction false} ShownState(t0: int)
    ensures Ready(Redone(t0))
  {
    ShownReplay();
    ShownPayloads(t0);
    CoreOfEvents(Shown(t0), RUN);
  }

  lemma {:induction false} ShownIsLoad(t0: int)
    ensures EventStore.IsLoad(Rows(L4(t0), 0), Shown(t0))
  {
    LogInParts(t0);
    ShownInOrder(t0);
  }

  lemma {:induction false} LogInParts(t0: int)
    ensures Rows(L4(t0), 0)
         == Rows(Opened(t0), 0) + Rows(At([PAUSE], t0 + 2), 2) + Rows(At(Retry(), t0 + 3), 3)
            + Rows(At(Work(STARTED), t0 + 1), 5)
  {
    Lengths(t0);
    OpenedState(t0);
    RowsJoin(Opened(t0), At([PAUSE], t0 + 2));
    RowsJoin(L2(t0), At(Retry(), t0 + 3));
    RowsJoin(L3(t0), At(Work(STARTED), t0 + 1));
  }

  lemma {:induction false} ShownInOrder(t0: int)
    ensures EventStore.InLoadOrder(Shown(t0))
  {
    Lengths(t0);
    var a, b := Rows(Opened(t0), 0), Rows(At(Work(STARTED), t0 + 1), 5);
    var c, d := Rows(At([PAUSE], t0 + 2), 2), Rows(At(Retry(), t0 + 3), 3);
    InOrderConcat(a, b);
    InOrderConcat(a + b, c);
    InOrderConcat(a + b + c, d);
  }

  lemma {:induction false} TwoCompletions(t0: int)
    ensures Completions(Bare(L5(t0)), RUN, ITEM) == 2
  {
    ShownState(t0);
    ReadyCompletes(STARTED);
    ReadyCompletes(Redone(t0));
    ControlCompletesNothing();
    BareConcat(Opened(t0), At([PAUSE], t0 + 2));
    BareConcat(L2(t0), At(Retry(), t0 + 3));
    BareConcat(L3(t0), At(Work(STARTED), t0 + 1));
    BareConcat(L4(t0), At(Work(Redone(t0)), t0 + 4));
    CompletionsConcat(Starting(), [PAUSE], RUN, ITEM);
    CompletionsConcat(Starting() + [PAUSE], Retry(), RUN, ITEM);
    CompletionsConcat(Starting() + [PAUSE] + Retry(), Work(STARTED), RUN, ITEM);
    CompletionsConcat(Bare(L4(t0)), Work(Redone(t0)), RUN, ITEM);
  }

  function Offered(t0: int): Phase {
    Ticking(Rows(Opened(t0), 0), {RUN}, Some(Offer(RUN, WORK, Rows(At(Work(STARTED), t0 + 1), 5))))
  }

  /** The worker loads the started run and builds its batch, but does not append it yet. */
  lemma {:induction false} UntilBuilt(t0: int) returns (t: Story, sc: Scene)
    ensures Reached(t, sc, CLAIMS) && sc.log == Opened(t0) && sc.phase == Offered(t0)
    ensures forall id :: id in sc.used <==> 0 < id <= 2 || 5 < id <= 9
  {
    Lengths(t0);
    OpenedState(t0);
    RowsIds(At(Work(STARTED), t0 + 1), 5);
    var seen := Rows(Opened(t0), 0);
    t := Loading(t0, CLAIMS);
    t := ThenBuild(t, Loaded(t0), seen, t0 + 1, 5, CLAIMS);
    sc := Built(Loaded(t0), seen, t0 + 1, 5);
  }

  /** Before it does, the run is paused and retried. */
  lemma {:induction false} UntilRetried(t0: int) returns (t: Story, sc: Scene)
    ensures Reached(t, sc, CLAIMS) && sc.log == L3(t0) && sc.phase == Offered(t0)
    ensures forall id :: id in sc.used ==> 0 < id <= 9
  {
    Lengths(t0);
    OpenedState(t0);
    BareConcat(Opened(t0), At([PAUSE], t0 + 2));
    RowsIds(At([PAUSE], t0 + 2), 2);
    RowsIds(At(Retry(), t0 + 3), 3);
    t, sc := UntilBuilt(t0);
    t := ThenRead(t, sc, CLAIMS);
    sc := sc.(loaded := sc.loaded + {Rows(sc.log, 0)});
    t := ThenPause(t, sc, t0 + 2, CLAIMS);
    sc := Extended(sc, At([PAUSE], t0 + 2));
    t := ThenRead(t, sc, CLAIMS);
    sc := sc.(loaded := sc.loaded + {Rows(sc.log, 0)});
    t := ThenRetry(t, sc, L2(t0), t0 + 3, CLAIMS);
    sc := Extended(sc, At(Retry(), t0 + 3));
  }

  /**
   * A run, starting at any time, in which an item is completed twice, with one affinity worker and
   * atomic control operations: the worker builds its batch; the run is paused a moment later and
   * retried another moment later, by a retry decided on the stream it is appended to; the batch is
   * rebased and accepted, with its old time. The run is completed, but the next load shows the item
   * assigned, and the tick completes it again.
   */
  lemma {:induction false} LateBatchCompletesTwice(t0: int) returns (worlds: seq<World>, steps: seq<Step>)
    ensures Strict(SETUP) && Trace(SETUP, worlds, steps)
    ensures Completions(Payloads(Last(worlds).log), RUN, ITEM) == 2
    ensures AtomicControl.AtomicRetries(worlds, steps, RUN) && SafeSurfaces(SETUP, worlds, steps, RUN)
    ensures !SafeLoads(SETUP, worlds, steps, RUN)
  {
    Lengths(t0);
    ShownState(t0);
    ShownIsLoad(t0);
    TwoCompletions(t0);
    var t, sc := UntilRetried(t0);
    t := ThenAttempt(t, sc, At(Work(STARTED), t0 + 1), CLAIMS);
    sc := sc.(log := L4(t0));
    t := ThenEnd(t, sc, CLAIMS);
    sc := Ended(sc);
    t := ThenBegin(t, sc, Shown(t0), CLAIMS);
    sc := sc.(phase := Ticking(Shown(t0), {}, None));
    t := ThenBuild(t, sc, Shown(t0), t0 + 4, 9, CLAIMS);
    sc := Built(sc, Shown(t0), t0 + 4, 9);
    t := ThenAttempt(t, sc, At(Work(Redone(t0)), t0 + 4), CLAIMS);
    sc := sc.(log := L5(t0));
    Claimed(t, sc, CLAIMS);
    worlds, steps := t.worlds, t.steps;
    if SafeLoads(SETUP, worlds, steps, RUN) {
      AtomicControl.AtomicControlIsSafe(SETUP, worlds, steps, 0, RUN, ITEM);
    }
  }
}
