/** The append-only event log as a value: streams, revisions and the append rule. */
module Log {
  import opened Events

  function Last<T>(s: seq<T>): T
    requires s != []
  {
    s[|s| - 1]
  }

  function Front<T>(s: seq<T>): seq<T>
    requires s != []
  {
    s[..|s| - 1]
  }

  function Sum(xs: seq<int>): int {
    if xs == [] then 0 else Sum(Front(xs)) + Last(xs)
  }

  /** The rows of one stream, in commit order. */
  function Stream(log: seq<Event>, id: Uuid): seq<Event> {
    if log == [] then []
    else Stream(Front(log), id) + if Last(log).resourceId == id then [Last(log)] else []
  }

  /** `COALESCE(MAX(revision), 0)` over the rows of one stream. */
  function Latest(log: seq<Event>, id: Uuid): int {
    if log == [] then 0
    else
      var before := Latest(Front(log), id);
      if Last(log).resourceId == id && Last(log).revision > before then Last(log).revision else before
  }

  function Ids(events: seq<Event>): set<Uuid> {
    set k | 0 <= k < |events| :: events[k].id
  }

  /** The primary key of the table. */
  predicate UniqueIds(events: seq<Event>) {
    forall i, j :: 0 <= i < j < |events| ==> events[i].id != events[j].id
  }

  /** Every stream is numbered 1, 2, 3, ... in commit order. */
  ghost predicate Numbered(log: seq<Event>) {
    forall id: Uuid, k :: 0 <= k < |Stream(log, id)| ==> Stream(log, id)[k].revision == k + 1
  }

  ghost predicate WellKept(log: seq<Event>) {
    Numbered(log) && UniqueIds(log)
  }

  /** The rows an append writes: the stream is the aggregate named in the call. */
  function Stamp(events: seq<Event>, id: Uuid): (rows: seq<Event>)
    ensures |rows| == |events|
    ensures forall k :: 0 <= k < |rows| ==> rows[k] == events[k].(resourceId := id)
  {
    seq(|events|, k requires 0 <= k < |events| => events[k].(resourceId := id))
  }

  /** When the transaction of an append goes through: consecutive revisions and unused identifiers. */
  predicate Accepts(log: seq<Event>, id: Uuid, events: seq<Event>) {
    && (forall k :: 0 <= k < |events| ==> events[k].revision == Latest(log, id) + 1 + k)
    && UniqueIds(events)
    && Ids(events) !! Ids(log)
  }

  /** The log after an append, committed or rolled back. */
  function Appended(log: seq<Event>, id: Uuid, events: seq<Event>): seq<Event> {
    if Accepts(log, id, events) then log + Stamp(events, id) else log
  }

  lemma {:induction false} StreamConcat(a: seq<Event>, b: seq<Event>, id: Uuid)
    ensures Stream(a + b, id) == Stream(a, id) + Stream(b, id)
  {
    if b == [] {
      assert a + b == a;
    } else {
      assert Front(a + b) == a + Front(b);
      StreamConcat(a, Front(b), id);
    }
  }

  lemma {:induction false} StreamOfStamped(events: seq<Event>, home: Uuid, id: Uuid)
    ensures Stream(Stamp(events, home), id) == if id == home then Stamp(events, home) else []
  {
    if events != [] {
      var rows := Stamp(events, home);
      assert Front(rows) == Stamp(Front(events), home);
      StreamOfStamped(Front(events), home, id);
    }
  }

  lemma {:induction false} StreamIsSubset(log: seq<Event>, id: Uuid)
    ensures forall k :: 0 <= k < |Stream(log, id)| ==> Stream(log, id)[k] in log && Stream(log, id)[k].resourceId == id
  {
    if log != [] {
      StreamIsSubset(Front(log), id);
    }
  }

  lemma {:induction false} StreamHasAll(log: seq<Event>, id: Uuid, k: nat)
    requires k < |log| && log[k].resourceId == id
    ensures log[k] in Stream(log, id)
  {
    if k < |log| - 1 {
      StreamHasAll(Front(log), id, k);
    }
  }

  /** In a well numbered log the maximum revision of a stream is its length, and the last row carries it. */
  lemma {:induction false} LatestIsLength(log: seq<Event>, id: Uuid)
    requires forall k :: 0 <= k < |Stream(log, id)| ==> Stream(log, id)[k].revision == k + 1
    ensures Latest(log, id) == |Stream(log, id)|
  {
    if log != [] {
      var front := Stream(Front(log), id);
      assert forall k :: 0 <= k < |front| ==> front[k] == Stream(log, id)[k];
      LatestIsLength(Front(log), id);
      if Last(log).resourceId == id {
        assert Stream(log, id)[|front|] == Last(log);
      }
    }
  }

  /** A committed append extends exactly its own stream, by exactly the given events. */
  lemma {:induction false} AppendExtendsStream(log: seq<Event>, id: Uuid, events: seq<Event>, other: Uuid)
    requires Accepts(log, id, events)
    ensures Stream(Appended(log, id, events), other)
         == Stream(log, other) + if other == id then Stamp(events, id) else []
  {
    StreamConcat(log, Stamp(events, id), other);
    StreamOfStamped(events, id, other);
  }

  /** Appends of any kind keep every stream numbered 1..n and identifiers unique. */
  lemma {:induction false} AppendKeepsLog(log: seq<Event>, id: Uuid, events: seq<Event>)
    requires WellKept(log)
    ensures WellKept(Appended(log, id, events))
  {
    if Accepts(log, id, events) {
      var after := Appended(log, id, events);
      LatestIsLength(log, id);
      forall other: Uuid, k | 0 <= k < |Stream(after, other)|
        ensures Stream(after, other)[k].revision == k + 1
      {
        AppendExtendsStream(log, id, events, other);
      }
      forall i, j | 0 <= i < j < |after| ensures after[i].id != after[j].id {
        if i < |log| <= j {
          assert log[i].id in Ids(log);
          assert events[j - |log|].id in Ids(events);
        }
      }
    }
  }

  /** `next_revision`: one more than the last revision the stream showed when it was read. */
  function NextRevision(stream: seq<Event>): int {
    if stream == [] then 1 else Last(stream).revision + 1
  }

  /**
   * Optimistic locking. A non-empty batch numbered from a `next_revision` taken on an earlier
   * state of the log is accepted only if its stream has not moved since that read.
   */
  lemma {:induction false} AppendLandsOnWhatWasRead(earlier: seq<Event>, log: seq<Event>, id: Uuid, events: seq<Event>)
    requires WellKept(earlier) && WellKept(log) && earlier <= log
    requires events != [] && events[0].revision == NextRevision(Stream(earlier, id))
    requires Accepts(log, id, events)
    ensures Stream(log, id) == Stream(earlier, id)
  {
    LatestIsLength(log, id);
    LatestIsLength(earlier, id);
    assert log == earlier + log[|earlier|..];
    StreamConcat(earlier, log[|earlier|..], id);
  }

  /** Conversely, if the stream has not moved, consecutive numbering and fresh identifiers suffice. */
  lemma {:induction false} UnmovedStreamAccepts(earlier: seq<Event>, log: seq<Event>, id: Uuid, events: seq<Event>)
    requires WellKept(earlier) && WellKept(log)
    requires Stream(log, id) == Stream(earlier, id)
    requires forall k :: 0 <= k < |events| ==> events[k].revision == NextRevision(Stream(earlier, id)) + k
    requires UniqueIds(events) && Ids(events) !! Ids(log)
    ensures Accepts(log, id, events)
  {
    LatestIsLength(log, id);
  }
}
