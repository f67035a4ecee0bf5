/** The event store: one table, one transaction per append, and its two ways of reading. */
module EventStore {
  import opened Events
  import opened Log

  /** What the connection does to an append: works, fails before the commit, or loses the commit's reply. */
  datatype Link = Healthy | Down | AckLost

  /** The log after an append over a connection that may fail before it. */
  function Submitted(log: seq<Event>, run: Uuid, events: seq<Event>, link: Link): seq<Event> {
    if link.Down? then log else Appended(log, run, events)
  }

  /** `ORDER BY occurred_at ASC, revision ASC`; ties may come in any order. */
  predicate NotAfter(a: Event, b: Event) {
    a.occurredAt < b.occurredAt || (a.occurredAt == b.occurredAt && a.revision <= b.revision)
  }

  predicate InLoadOrder(events: seq<Event>) {
    forall i, j :: 0 <= i < j < |events| ==> NotAfter(events[i], events[j])
  }

  /** What `load_all` may return for a log: the same rows, in load order. */
  predicate IsLoad(log: seq<Event>, all: seq<Event>) {
    multiset(all) == multiset(log) && InLoadOrder(all)
  }

  class PostgresEventStore {
    var log: seq<Event>

    ghost predicate Valid() reads this {
      WellKept(log)
    }

    constructor ()
      ensures Valid() && log == []
    {
      log := [];
    }

    method Append(aggregate: Uuid, events: seq<Event>, link: Link) returns (ok: bool)
      requires Valid()
      modifies this
      ensures Valid()
      ensures ok <==> events == [] || (link.Healthy? && Accepts(old(log), aggregate, events))
      ensures log == Submitted(old(log), aggregate, events, link)
    {
      if events == [] {
        assert log == Appended(log, aggregate, events);
        return true;
      }
      if link.Down? {
        return false;
      }
      var expected := LatestRevision(aggregate);
      var rows: seq<Event> := [];
      for k := 0 to |events|
        invariant expected == Latest(log, aggregate) + k
        invariant log == old(log)
        invariant rows == Stamp(events[..k], aggregate)
        invariant Accepts(log, aggregate, events[..k])
      {
        expected := expected + 1;
        var event := events[k];
        if event.revision != expected || event.id in Ids(log) || event.id in Ids(rows) {
          RejectsAt(aggregate, events, k);
          return false;
        }
        rows := rows + [event.(resourceId := aggregate)];
        assert events[..k + 1] == events[..k] + [event];
        assert forall j :: 0 <= j < k ==> rows[j].id == events[j].id;
      }
      assert events[..|events|] == events;
      AppendKeepsLog(log, aggregate, events);
      log := log + rows;
      return link.Healthy?;
    }

    lemma {:induction false} RejectsAt(aggregate: Uuid, events: seq<Event>, k: nat)
      requires k < |events|
      requires events[k].revision != Latest(log, aggregate) + k + 1
            || events[k].id in Ids(log)
            || events[k].id in Ids(Stamp(events[..k], aggregate))
      ensures !Accepts(log, aggregate, events)
    {
      if events[k].id in Ids(log) {
        assert events[k].id in Ids(events);
      } else if events[k].id in Ids(Stamp(events[..k], aggregate)) {
        var j :| 0 <= j < k && Stamp(events[..k], aggregate)[j].id == events[k].id;
        assert events[j].id == events[k].id;
      }
    }

    method LatestRevision(aggregate: Uuid) returns (latest: int)
      ensures latest == Latest(log, aggregate)
    {
      latest := 0;
      for k := 0 to |log|
        invariant latest == Latest(log[..k], aggregate)
      {
        assert Front(log[..k + 1]) == log[..k];
        if log[k].resourceId == aggregate && log[k].revision > latest {
          latest := log[k].revision;
        }
      }
      assert log[..|log|] == log;
    }

    /** Commit order is revision order, so the `ORDER BY revision` of the query costs nothing here. */
    method Load(aggregate: Uuid) returns (events: seq<Event>)
      requires Valid()
      ensures events == Stream(log, aggregate)
      ensures forall k :: 0 <= k < |events| ==> events[k].revision == k + 1
    {
      events := [];
      for k := 0 to |log|
        invariant events == Stream(log[..k], aggregate)
      {
        assert Front(log[..k + 1]) == log[..k];
        if log[k].resourceId == aggregate {
          events := events + [log[k]];
        }
      }
      assert log[..|log|] == log;
    }

    method LoadAll() returns (events: seq<Event>)
      ensures IsLoad(log, events)
    {
      events := [];
      for k := 0 to |log|
        invariant multiset(events) == multiset(log[..k])
        invariant InLoadOrder(events)
      {
        assert log[..k + 1] == log[..k] + [log[k]];
        events := Insert(events, log[k]);
      }
      assert log[..|log|] == log;
    }
  }

  /** A write by some other process. */
  datatype Write = Write(aggregate: Uuid, events: seq<Event>)

  function AfterWrites(log: seq<Event>, writes: seq<Write>): seq<Event> {
    if writes == [] then log
    else Appended(AfterWrites(log, Front(writes)), Last(writes).aggregate, Last(writes).events)
  }

  method LetOthersWrite(store: PostgresEventStore, writes: seq<Write>)
    requires store.Valid()
    modifies store
    ensures store.Valid()
    ensures store.log == AfterWrites(old(store.log), writes)
    ensures old(store.log) <= store.log
  {
    for k := 0 to |writes|
      invariant store.Valid()
      invariant store.log == AfterWrites(old(store.log), writes[..k])
      invariant old(store.log) <= store.log
    {
      assert Front(writes[..k + 1]) == writes[..k];
      var _ := store.Append(writes[k].aggregate, writes[k].events, Healthy);
    }
    assert writes[..|writes|] == writes;
  }

  method Insert(events: seq<Event>, e: Event) returns (more: seq<Event>)
    requires InLoadOrder(events)
    ensures multiset(more) == multiset(events) + multiset{e}
    ensures InLoadOrder(more)
  {
    var at := |events|;
    while at > 0 && !NotAfter(events[at - 1], e)
      invariant 0 <= at <= |events|
      invariant forall j :: at <= j < |events| ==> NotAfter(e, events[j])
    {
      at := at - 1;
    }
    assert events == events[..at] + events[at..];
    more := events[..at] + [e] + events[at..];
    InsertKeepsOrder(events, at, e);
  }

  lemma {:induction false} InsertKeepsOrder(events: seq<Event>, at: nat, e: Event)
    requires InLoadOrder(events) && at <= |events|
    requires at > 0 ==> NotAfter(events[at - 1], e)
    requires forall j :: at <= j < |events| ==> NotAfter(e, events[j])
    ensures InLoadOrder(events[..at] + [e] + events[at..])
  {
    var more := events[..at] + [e] + events[at..];
    forall i, j | 0 <= i < j < |more| ensures NotAfter(more[i], more[j]) {
      var x := if i < at then events[i] else if i == at then e else events[i - 1];
      var y := if j < at then events[j] else if j == at then e else events[j - 1];
      assert more[i] == x && more[j] == y;
      if j == at && i < at - 1 {
        assert NotAfter(events[i], events[at - 1]);
      }
    }
  }

  lemma {:induction false} StreamMultiset(s: seq<Event>, id: Uuid, e: Event)
    ensures multiset(Stream(s, id))[e] == if e.resourceId == id then multiset(s)[e] else 0
  {
    if s != [] {
      StreamMultiset(Front(s), id, e);
      assert s == Front(s) + [Last(s)];
    }
  }

  lemma {:induction false} StreamKeepsOrder(s: seq<Event>, id: Uuid)
    requires InLoadOrder(s)
    ensures InLoadOrder(Stream(s, id))
  {
    if s != [] {
      StreamKeepsOrder(Front(s), id);
      StreamIsSubset(Front(s), id);
    }
  }

  lemma {:induction false} LastIsLatest(s: seq<Event>, e: Event)
    requires InLoadOrder(s) && e in s
    ensures e == Last(s) || NotAfter(e, Last(s))
  {
    var i :| 0 <= i < |s| && s[i] == e;
  }

  lemma {:induction false} FrontMultiset(s: seq<Event>)
    requires s != []
    ensures s == Front(s) + [Last(s)]
    ensures multiset(Front(s)) == multiset(s) - multiset{Last(s)}
  {
    assert s == Front(s) + [Last(s)];
  }

  /** No two different events of the sequence tie in load order. */
  ghost predicate NoTies(s: multiset<Event>) {
    forall x, y :: x in s && y in s && NotAfter(x, y) && NotAfter(y, x) ==> x == y
  }

  lemma {:induction false} SortedIsUnique(a: seq<Event>, b: seq<Event>)
    requires InLoadOrder(a) && InLoadOrder(b)
    requires multiset(a) == multiset(b)
    requires NoTies(multiset(a))
    ensures a == b
    decreases |a|
  {
    assert |multiset(a)| == |a| && |multiset(b)| == |b|;
    if a != [] {
      var x, y := Last(a), Last(b);
      assert x in multiset(b) && y in multiset(a);
      LastIsLatest(a, y);
      LastIsLatest(b, x);
      assert x == y;
      FrontMultiset(a);
      FrontMultiset(b);
      assert multiset(Front(a)) == multiset(Front(b));
      SortedIsUnique(Front(a), Front(b));
    }
  }

  predicate TimesNeverDecrease(s: seq<Event>) {
    forall j, k :: 0 <= j < k < |s| ==> s[j].occurredAt <= s[k].occurredAt
  }

  lemma {:induction false} StreamHasNoTies(log: seq<Event>, id: Uuid)
    requires WellKept(log)
    ensures NoTies(multiset(Stream(log, id)))
  {
    var s := Stream(log, id);
    forall x, y | x in multiset(s) && y in multiset(s) && NotAfter(x, y) && NotAfter(y, x) ensures x == y {
      var i :| 0 <= i < |s| && s[i] == x;
      var j :| 0 <= j < |s| && s[j] == y;
      assert s[i].revision == i + 1 && s[j].revision == j + 1;
    }
  }

  lemma {:induction false} SameStreamMultiset(log: seq<Event>, all: seq<Event>, id: Uuid)
    requires multiset(all) == multiset(log)
    ensures multiset(Stream(log, id)) == multiset(Stream(all, id))
  {
    forall e: Event ensures multiset(Stream(log, id))[e] == multiset(Stream(all, id))[e] {
      StreamMultiset(log, id, e);
      StreamMultiset(all, id, e);
    }
  }

  /**
   * Reading everything in time order shows a stream in its revision order exactly when the
   * timestamps never decrease along that stream. Rebased batches keep the timestamps they were
   * built with, so the right-hand side is a real condition, not a formality.
   */
  lemma {:induction false} TimeOrderIsRevisionOrder(log: seq<Event>, all: seq<Event>, id: Uuid)
    requires WellKept(log)
    requires IsLoad(log, all)
    ensures Stream(all, id) == Stream(log, id) <==> TimesNeverDecrease(Stream(log, id))
  {
    StreamKeepsOrder(all, id);
    if TimesNeverDecrease(Stream(log, id)) {
      SameStreamMultiset(log, all, id);
      StreamHasNoTies(log, id);
      assert InLoadOrder(Stream(log, id));
      SortedIsUnique(Stream(log, id), Stream(all, id));
    }
  }
}
