/** Appending a worker's batch: rebase on the current revision, retry, back off. */
module RetryAppend {
  import opened Events
  import opened Log
  import opened EventStore

  /** `with_rebased_revisions`: identifiers, timestamps and payloads stay, only revisions move. */
  function Rebased(events: seq<Event>, latest: int): (rebased: seq<Event>)
    ensures |rebased| == |events|
    ensures forall k :: 0 <= k < |events| ==> rebased[k] == events[k].(revision := latest + k + 1)
  {
    seq(|events|, k requires 0 <= k < |events| => events[k].(revision := latest + k + 1))
  }

  /** What happens around one attempt: writes before its read and before its append, and the two connections. */
  datatype Weather = Weather(before: seq<Write>, readFails: bool, between: seq<Write>, link: Link)

  ghost predicate Strangers(writes: seq<Write>, base: seq<Event>) {
    forall k :: 0 <= k < |writes| ==> Ids(writes[k].events) !! Ids(base)
  }

  ghost predicate WholeAt(log: seq<Event>, run: Uuid, base: seq<Event>, at: nat, latest: int) {
    at + |base| <= |log| && log[at..at + |base|] == Stamp(Rebased(base, latest), run)
  }

  /** The batch stands in the log whole, contiguous, in order and with consecutive revisions. */
  ghost predicate Whole(log: seq<Event>, run: Uuid, base: seq<Event>) {
    exists at: nat, latest: int :: WholeAt(log, run, base, at, latest)
  }

  ghost predicate Absent(log: seq<Event>, base: seq<Event>) {
    Ids(base) !! Ids(log)
  }

  lemma {:induction false} WholeStays(log: seq<Event>, more: seq<Event>, run: Uuid, base: seq<Event>)
    requires Whole(log, run, base) && log <= more
    ensures Whole(more, run, base)
  {
    var at: nat, latest: int :| WholeAt(log, run, base, at, latest);
    assert more[at..at + |base|] == log[at..at + |base|];
    assert WholeAt(more, run, base, at, latest);
  }

  lemma {:induction false} RebasedIds(base: seq<Event>, latest: int, run: Uuid)
    ensures Ids(Rebased(base, latest)) == Ids(base) == Ids(Stamp(base, run))
    ensures UniqueIds(base) ==> UniqueIds(Rebased(base, latest))
  {
    var r, s := Rebased(base, latest), Stamp(base, run);
    forall k | 0 <= k < |base| ensures r[k].id == base[k].id == s[k].id {}
    forall id | id in Ids(base) ensures id in Ids(r) && id in Ids(s) {
      var k :| 0 <= k < |base| && base[k].id == id;
      assert r[k].id == id && s[k].id == id;
    }
  }

  lemma {:induction false} IdsConcat(a: seq<Event>, b: seq<Event>)
    ensures Ids(a + b) == Ids(a) + Ids(b)
  {
    forall id | id in Ids(a) + Ids(b) ensures id in Ids(a + b) {
      if id in Ids(a) {
        var k :| 0 <= k < |a| && a[k].id == id;
        assert (a + b)[k].id == id;
      } else {
        var k :| 0 <= k < |b| && b[k].id == id;
        assert (a + b)[|a| + k].id == id;
      }
    }
    forall id | id in Ids(a + b) ensures id in Ids(a) + Ids(b) {
      var k :| 0 <= k < |a + b| && (a + b)[k].id == id;
      if k < |a| { assert a[k].id == id; } else { assert b[k - |a|].id == id; }
    }
  }

  lemma {:induction false} AppendedIds(log: seq<Event>, id: Uuid, events: seq<Event>)
    ensures log <= Appended(log, id, events)
    ensures Ids(Appended(log, id, events)) == if Accepts(log, id, events) then Ids(log) + Ids(events) else Ids(log)
  {
    IdsConcat(log, Stamp(events, id));
    RebasedIds(events, 0, id);
  }

  /** Where an attempt leaves the batch, given where it stood before. */
  lemma {:induction false} AttemptOutcome(log: seq<Event>, run: Uuid, base: seq<Event>, latest: int)
    requires base != [] && (Absent(log, base) || Whole(log, run, base))
    ensures var after := Appended(log, run, Rebased(base, latest));
            && (Absent(after, base) || Whole(after, run, base))
            && (Accepts(log, run, Rebased(base, latest)) ==> Whole(after, run, base))
            && (Whole(log, run, base) ==> !Accepts(log, run, Rebased(base, latest)))
  {
    RebasedIds(base, latest, run);
    if Whole(log, run, base) {
      var at: nat, from: int :| WholeAt(log, run, base, at, from);
      assert log[at] == log[at..at + |base|][0];
      assert base[0].id in Ids(log) && base[0].id in Ids(base);
    } else if Accepts(log, run, Rebased(base, latest)) {
      var after := Appended(log, run, Rebased(base, latest));
      assert after[|log|..|log| + |base|] == Stamp(Rebased(base, latest), run);
      assert WholeAt(after, run, base, |log|, latest);
    }
  }

  lemma {:induction false} OthersLeaveBatch(log: seq<Event>, writes: seq<Write>, run: Uuid, base: seq<Event>)
    requires Strangers(writes, base)
    ensures Absent(log, base) ==> Absent(AfterWrites(log, writes), base)
    ensures Whole(log, run, base) ==> Whole(AfterWrites(log, writes), run, base)
  {
    if writes != [] {
      OthersLeaveBatch(log, Front(writes), run, base);
      var before := AfterWrites(log, Front(writes));
      AppendedIds(before, Last(writes).aggregate, Last(writes).events);
      assert Last(writes) == writes[|writes| - 1];
      if Whole(before, run, base) {
        WholeStays(before, AfterWrites(log, writes), run, base);
      }
    }
  }

  /** The identifiers others may bring into the log. */
  function WriteIds(writes: seq<Write>): set<Uuid> {
    if writes == [] then {} else WriteIds(Front(writes)) + Ids(Last(writes).events)
  }

  function WeatherIds(now: Weather): set<Uuid> {
    WriteIds(now.before) + WriteIds(now.between)
  }

  lemma {:induction false} WrittenIds(log: seq<Event>, writes: seq<Write>)
    ensures Ids(AfterWrites(log, writes)) <= Ids(log) + WriteIds(writes)
  {
    if writes != [] {
      WrittenIds(log, Front(writes));
      AppendedIds(AfterWrites(log, Front(writes)), Last(writes).aggregate, Last(writes).events);
    }
  }

  // ---- Backoff ---------------------------------------------------------------------------------

  const U64_MAX := 0xFFFF_FFFF_FFFF_FFFF
  const MAX_DELAY_MS := 5000

  function Min(a: int, b: int): int { if a < b then a else b }
  function SaturatingDouble(x: nat): nat { Min(2 * x, U64_MAX) }
  function Pow2(n: nat): nat { if n == 0 then 1 else 2 * Pow2(n - 1) }

  function Attempts(maxAttempts: nat): nat { if maxAttempts == 0 then 1 else maxAttempts }

  /** The k-th sleep, counting from zero, with no saturation anywhere. */
  function Delay(first: nat, k: nat): nat { Min(first * Pow2(k), MAX_DELAY_MS) }

  /** Doubling, saturating and capping commute with capping once at the end. */
  lemma {:induction false} NextDelay(first: nat, k: nat, backoff: nat)
    requires backoff == if k == 0 then first else Delay(first, k)
    ensures Min(backoff, MAX_DELAY_MS) == Delay(first, k)
    ensures Min(SaturatingDouble(backoff), MAX_DELAY_MS) == Delay(first, k + 1)
  {
    assert first * Pow2(k + 1) == 2 * (first * Pow2(k)) by {
      assert Pow2(k + 1) == 2 * Pow2(k);
    }
  }

  /** The loop's own sleeps so far, and the backoff it holds for the next one. */
  ghost predicate Slept(sleeps: seq<nat>, first: nat, backoff: nat) {
    && (forall k :: 0 <= k < |sleeps| ==> sleeps[k] == Delay(first, k))
    && backoff == if |sleeps| == 0 then first else Delay(first, |sleeps|)
  }

  lemma {:induction false} SleepsOnce(sleeps: seq<nat>, first: nat, backoff: nat)
    requires Slept(sleeps, first, backoff)
    ensures Slept(sleeps + [Min(backoff, MAX_DELAY_MS)], first, Min(SaturatingDouble(backoff), MAX_DELAY_MS))
  {
    NextDelay(first, |sleeps|, backoff);
  }

  /** The first sleep is what was asked for, each next one twice the one before, and none longer than 5 seconds. */
  predicate Doubling(sleeps: seq<nat>, first: nat) {
    && (sleeps != [] ==> sleeps[0] == if first <= 5000 then first else 5000)
    && forall k :: 0 < k < |sleeps| ==>
         sleeps[k] == if 2 * sleeps[k - 1] <= 5000 then 2 * sleeps[k - 1] else 5000
  }

  lemma {:induction false} SleepsDouble(sleeps: seq<nat>, first: nat, backoff: nat)
    requires Slept(sleeps, first, backoff)
    ensures Doubling(sleeps, first)
  {
    assert Pow2(0) == 1;
    forall k | 0 < k < |sleeps| ensures sleeps[k] == if 2 * sleeps[k - 1] <= 5000 then 2 * sleeps[k - 1] else 5000 {
      NextDelay(first, k - 1, if k == 1 then first else Delay(first, k - 1));
      assert first * Pow2(k) == 2 * (first * Pow2(k - 1)) by {
        assert Pow2(k) == 2 * Pow2(k - 1);
      }
    }
  }

  lemma {:induction false} SleepsBounded(sleeps: seq<nat>)
    requires forall k :: 0 <= k < |sleeps| ==> sleeps[k] <= MAX_DELAY_MS
    ensures Sum(sleeps) <= MAX_DELAY_MS * |sleeps|
  {
    if sleeps != [] {
      SleepsBounded(Front(sleeps));
    }
  }

  const CALM := Weather([], false, [], Healthy)

  /** One append as it was made: the log it met, the revision it was based on, and the connection. */
  datatype Try = Try(log: seq<Event>, latest: int, link: Link)

  function AfterTry(t: Try, run: Uuid, base: seq<Event>): seq<Event> {
    Submitted(t.log, run, Rebased(base, t.latest), t.link)
  }

  /** All that leads from one log to a later one: these appends of the batch, and other writers around them. */
  predicate Trail(tries: seq<Try>, from: seq<Event>, until: seq<Event>, run: Uuid, base: seq<Event>) {
    if tries == [] then from <= until
    else Trail(Front(tries), from, Last(tries).log, run, base) && AfterTry(Last(tries), run, base) <= until
  }

  lemma {:induction false} TrailStays(tries: seq<Try>, from: seq<Event>, until: seq<Event>, more: seq<Event>, run: Uuid,
                                      base: seq<Event>)
    requires Trail(tries, from, until, run, base) && until <= more
    ensures Trail(tries, from, more, run, base)
  {
  }

  lemma {:induction false} TrailConcat(a: seq<Try>, b: seq<Try>, from: seq<Event>, mid: seq<Event>,
                                       until: seq<Event>, run: Uuid,
                                       base: seq<Event>)
    requires Trail(a, from, mid, run, base) && Trail(b, mid, until, run, base)
    ensures Trail(a + b, from, until, run, base)
  {
    if b == [] {
      assert a + b == a;
      TrailStays(a, from, mid, until, run, base);
    } else {
      assert Front(a + b) == a + Front(b);
      TrailConcat(a, Front(b), from, mid, Last(b).log, run, base);
    }
  }

  /** Others write once more, then the batch is offered, rebased on the revision that was read. */
  method Submit(store: PostgresEventStore, run: Uuid, base: seq<Event>, latest: int, between: seq<Write>, link: Link)
      returns (ok: bool)
    requires store.Valid() && base != [] && Strangers(between, base)
    requires Absent(store.log, base) || Whole(store.log, run, base)
    modifies store
    ensures store.Valid() && old(store.log) <= store.log
    ensures Absent(store.log, base) || Whole(store.log, run, base)
    ensures ok ==> Whole(store.log, run, base)
    ensures store.log == AfterTry(Try(AfterWrites(old(store.log), between), latest, link), run, base)
    ensures old(store.log) <= AfterWrites(old(store.log), between)
    ensures ok <==> link.Healthy? && Accepts(AfterWrites(old(store.log), between), run, Rebased(base, latest))
  {
    OthersLeaveBatch(store.log, between, run, base);
    LetOthersWrite(store, between);
    AttemptOutcome(store.log, run, base, latest);
    AppendedIds(store.log, run, Rebased(base, latest));
    ok := store.Append(run, Rebased(base, latest), link);
  }

  /** A fresh batch rebased on the current revision is accepted. */
  lemma {:induction false} AcceptsRebased(log: seq<Event>, run: Uuid, events: seq<Event>)
    requires UniqueIds(events) && Absent(log, events)
    ensures Accepts(log, run, Rebased(events, Latest(log, run)))
  {
    RebasedIds(events, Latest(log, run), run);
  }

  method ReadLatest(store: PostgresEventStore, run: Uuid) returns (latest: int)
    requires store.Valid()
    ensures latest == Latest(store.log, run)
  {
    var stream := store.Load(run);
    LatestIsLength(store.log, run);
    latest := if stream == [] then 0 else Last(stream).revision;
  }

  lemma {:induction false} CalmTry(log: seq<Event>, run: Uuid, base: seq<Event>)
    requires UniqueIds(base) && Absent(log, base)
    ensures AfterWrites(AfterWrites(log, CALM.before), CALM.between) == log
    ensures Accepts(log, run, Rebased(base, Latest(log, run)))
    ensures AfterTry(Try(log, Latest(log, run), Healthy), run, base)
         == log + Stamp(Rebased(base, Latest(log, run)), run)
  {
    AcceptsRebased(log, run, base);
  }

  /** One attempt after others have written, as a trail. */
  lemma {:induction false} OneTry(from: seq<Event>, found: seq<Event>, between: seq<Write>, latest: int, link: Link,
                                  run: Uuid, base: seq<Event>)
    requires from <= found <= AfterWrites(found, between)
    ensures var t := Try(AfterWrites(found, between), latest, link);
            && Trail([t], from, AfterTry(t, run, base), run, base)
            && Ids(AfterTry(t, run, base)) <= Ids(found) + WriteIds(between) + Ids(base)
  {
    var t := Try(AfterWrites(found, between), latest, link);
    assert Front([t]) == [];
    WrittenIds(found, between);
    RebasedIds(base, latest, run);
    AppendedIds(t.log, run, Rebased(base, latest));
  }

  /** One turn of the retry loop: read the current revision, rebase, append. */
  method TryOnce(store: PostgresEventStore, run: Uuid, base: seq<Event>, now: Weather)
      returns (ok: bool, ghost tries: seq<Try>)
    requires store.Valid() && base != [] && UniqueIds(base)
    requires Absent(store.log, base) || Whole(store.log, run, base)
    requires Strangers(now.before, base) && Strangers(now.between, base)
    modifies store
    ensures store.Valid() && old(store.log) <= store.log
    ensures Absent(store.log, base) || Whole(store.log, run, base)
    ensures ok ==> Whole(store.log, run, base)
    ensures Trail(tries, old(store.log), store.log, run, base)
    ensures Ids(store.log) <= Ids(old(store.log)) + Ids(base) + WeatherIds(now)
    ensures now == CALM && Absent(old(store.log), base) ==>
              ok && store.log == old(store.log) + Stamp(Rebased(base, Latest(old(store.log), run)), run)
  {
    ghost var from := store.log;
    OthersLeaveBatch(from, now.before, run, base);
    WrittenIds(from, now.before);
    LetOthersWrite(store, now.before);
    ghost var found := store.log;
    tries := [];
    if now.readFails {
      return false, tries;
    }
    var latest := ReadLatest(store, run);
    if now == CALM && Absent(from, base) {
      CalmTry(from, run, base);
    }
    ok := Submit(store, run, base, latest, now.between, now.link);
    OneTry(from, found, now.between, latest, now.link, run, base);
    tries := [Try(AfterWrites(found, now.between), latest, now.link)];
  }

  /** Every identifier in the log was there before, is of the batch, or was brought by others. */
  ghost predicate Known(log: seq<Event>, was: seq<Event>, base: seq<Event>, weather: nat -> Weather) {
    forall id :: id in Ids(log) ==> id in Ids(was) || id in Ids(base) || exists k: nat :: id in WeatherIds(weather(k))
  }

  /**
   * `append_events_with_retry`, in any weather: other processes write around every attempt, reads
   * fail, and commits are reported as failures.
   */
  method AppendEventsWithRetry(store: PostgresEventStore, run: Uuid, base: seq<Event>, maxAttempts: nat,
                               firstBackoffMs: nat,
                               weather: nat -> Weather)
      returns (ok: bool, attempts: nat, sleeps: seq<nat>, ghost tries: seq<Try>)
    requires store.Valid() && base != [] && UniqueIds(base) && Absent(store.log, base)
    requires firstBackoffMs <= U64_MAX
    requires forall k: nat :: Strangers(weather(k).before, base) && Strangers(weather(k).between, base)
    modifies store
    ensures store.Valid() && old(store.log) <= store.log
    ensures Absent(store.log, base) || Whole(store.log, run, base)
    ensures ok ==> Whole(store.log, run, base)
    ensures Trail(tries, old(store.log), store.log, run, base)
    ensures 1 <= attempts <= Attempts(maxAttempts) && (!ok ==> attempts == Attempts(maxAttempts))
    ensures attempts == 1 || attempts <= maxAttempts
    ensures !ok ==> maxAttempts <= attempts
    ensures |sleeps| == attempts - 1
    ensures forall k :: 0 <= k < |sleeps| ==> sleeps[k] == Delay(firstBackoffMs, k)
    ensures Doubling(sleeps, firstBackoffMs)
    ensures Sum(sleeps) <= MAX_DELAY_MS * (Attempts(maxAttempts) - 1)
    ensures Known(store.log, old(store.log), base, weather)
    ensures weather(0) == CALM ==>
              && ok && attempts == 1
              && store.log == old(store.log) + Stamp(Rebased(base, Latest(old(store.log), run)), run)
  {
    attempts, sleeps := 1, [];
    var backoff: nat := firstBackoffMs;
    ok, tries := TryOnce(store, run, base, weather(0));
    while !ok && attempts < maxAttempts
      invariant store.Valid() && old(store.log) <= store.log
      invariant Absent(store.log, base) || Whole(store.log, run, base)
      invariant ok ==> Whole(store.log, run, base)
      invariant Trail(tries, old(store.log), store.log, run, base)
      invariant Known(store.log, old(store.log), base, weather)
      invariant 1 <= attempts <= Attempts(maxAttempts)
      invariant |sleeps| == attempts - 1
      invariant Slept(sleeps, firstBackoffMs, backoff)
      invariant weather(0) == CALM ==>
                  && ok && attempts == 1
                  && store.log == old(store.log) + Stamp(Rebased(base, Latest(old(store.log), run)), run)
      decreases maxAttempts - attempts
    {
      SleepsOnce(sleeps, firstBackoffMs, backoff);
      sleeps := sleeps + [Min(backoff, MAX_DELAY_MS)];
      backoff := Min(SaturatingDouble(backoff), MAX_DELAY_MS);
      ghost var more, reached := [], store.log;
      ok, more := TryOnce(store, run, base, weather(attempts));
      TrailConcat(tries, more, old(store.log), reached, store.log, run, base);
      tries := tries + more;
      attempts := attempts + 1;
    }
    SleepsBounded(sleeps);
    SleepsDouble(sleeps, firstBackoffMs, backoff);
  }

  /** A whole batch in a log with unique identifiers: each of its events stands in exactly one place. */
  lemma {:induction false} WholeMeansOnce(log: seq<Event>, run: Uuid, base: seq<Event>, k: nat)
    requires UniqueIds(log) && Whole(log, run, base) && k < |base|
    ensures exists j :: 0 <= j < |log| && log[j].id == base[k].id
    ensures forall i, j ::
              0 <= i < |log| && 0 <= j < |log| && log[i].id == base[k].id && log[j].id == base[k].id ==> i == j
  {
    var at: nat, latest: int :| WholeAt(log, run, base, at, latest);
    assert log[at + k] == log[at..at + |base|][k];
    assert log[at + k].id == base[k].id;
  }
}
