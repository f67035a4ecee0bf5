/** The cost and effort history of a run, read off its stream. */
module History {
  import opened Events
  import opened Log

  predicate CarriesWork(p: Payload) {
    p.WorkItemCompleted? || p.ProgressChunkEmitted?
  }

  function EffortOf(p: Payload): int { if CarriesWork(p) then p.effort else 0 }
  function CostOf(p: Payload): real { if CarriesWork(p) then p.cost else 0.0 }

  function TotalEffort(rows: seq<Event>): int {
    if rows == [] then 0 else TotalEffort(Front(rows)) + EffortOf(Last(rows).payload)
  }

  function TotalCost(rows: seq<Event>): real {
    if rows == [] then 0.0 else TotalCost(Front(rows)) + CostOf(Last(rows).payload)
  }

  datatype Point = Point(revision: int, occurredAt: int, cost: real, effort: int)

  /** The points that belong in the history: one per row that moves a total, with the totals up to it. */
  function PointsOf(rows: seq<Event>): seq<Point> {
    if rows == [] then []
    else
      var e := Last(rows);
      PointsOf(Front(rows))
      + if EffortOf(e.payload) == 0 && CostOf(e.payload) == 0.0 then []
        else [Point(e.revision, e.occurredAt, TotalCost(rows), TotalEffort(rows))]
  }

  method BuildCostEffortHistory(rows: seq<Event>) returns (points: seq<Point>)
    ensures points == PointsOf(rows) && |points| == |MovePositions(rows)|
    ensures forall k :: 0 <= k < |points| ==>
              MovePositions(rows)[k] < |rows| && points[k] == PointAt(rows, MovePositions(rows)[k])
  {
    var totalCost, totalEffort := 0.0, 0;
    points := [];
    for k := 0 to |rows|
      invariant totalCost == TotalCost(rows[..k]) && totalEffort == TotalEffort(rows[..k])
      invariant points == PointsOf(rows[..k])
    {
      var e := rows[k];
      assert Front(rows[..k + 1]) == rows[..k];
      var deltaEffort, deltaCost := EffortOf(e.payload), CostOf(e.payload);
      if deltaEffort != 0 || deltaCost != 0.0 {
        totalEffort := totalEffort + deltaEffort;
        totalCost := totalCost + deltaCost;
        points := points + [Point(e.revision, e.occurredAt, totalCost, totalEffort)];
      }
    }
    assert rows[..|rows|] == rows;
    AsManyPoints(rows);
    MovePositionsAre(rows);
    forall k | 0 <= k < |points| ensures points[k] == PointAt(rows, MovePositions(rows)[k]) {
      OnePointPerMove(rows, k);
    }
  }

  /** A row with some effort or cost of its own. */
  predicate Moves(e: Event) {
    CarriesWork(e.payload) && (e.payload.effort != 0 || e.payload.cost != 0.0)
  }

  /** What the history says of the row at one position. */
  function PointAt(rows: seq<Event>, k: nat): Point
    requires k < |rows|
  {
    Point(rows[k].revision, rows[k].occurredAt, TotalCost(rows[..k + 1]), TotalEffort(rows[..k + 1]))
  }

  /** The positions of the rows that move a total. */
  function MovePositions(rows: seq<Event>): seq<nat> {
    if rows == [] then []
    else if Moves(Last(rows)) then MovePositions(Front(rows)) + [|rows| - 1] else MovePositions(Front(rows))
  }

  /** Those positions are in order, and there are no others. */
  lemma {:induction false} MovePositionsAre(rows: seq<Event>)
    ensures forall k :: 0 <= k < |MovePositions(rows)| ==>
              MovePositions(rows)[k] < |rows| && Moves(rows[MovePositions(rows)[k]])
    ensures forall j, k :: 0 <= j < k < |MovePositions(rows)| ==> MovePositions(rows)[j] < MovePositions(rows)[k]
  {
    if rows != [] {
      MovePositionsAre(Front(rows));
    }
  }

  lemma {:induction false} EveryMoveHasPosition(rows: seq<Event>, j: nat)
    requires j < |rows| && Moves(rows[j])
    ensures j in MovePositions(rows)
  {
    if j < |rows| - 1 {
      EveryMoveHasPosition(Front(rows), j);
    }
  }

  /**
   * The history has one point for each row that moves a total, in order and no other: it carries the row's
   * revision and time, and the totals of the rows up to and including it.
   */
  lemma {:induction false} OnePointPerMove(rows: seq<Event>, k: nat)
    requires k < |PointsOf(rows)|
    ensures |PointsOf(rows)| == |MovePositions(rows)|
    ensures MovePositions(rows)[k] < |rows| && PointsOf(rows)[k] == PointAt(rows, MovePositions(rows)[k])
  {
    var front := PointsOf(Front(rows));
    AsManyPoints(Front(rows));
    if k < |front| {
      OnePointPerMove(Front(rows), k);
      assert rows[..MovePositions(rows)[k] + 1] == Front(rows)[..MovePositions(rows)[k] + 1];
    } else {
      assert rows[..|rows|] == rows;
    }
  }

  lemma {:induction false} AsManyPoints(rows: seq<Event>)
    ensures |PointsOf(rows)| == |MovePositions(rows)|
  {
    if rows != [] {
      AsManyPoints(Front(rows));
    }
  }

  /** Further rows leave the history so far as it is. */
  lemma {:induction false} HistoryGrows(rows: seq<Event>, more: seq<Event>)
    ensures PointsOf(rows) <= PointsOf(rows + more)
  {
    if more == [] {
      assert rows + more == rows;
    } else {
      HistoryGrows(rows, Front(more));
      assert Front(rows + more) == rows + Front(more);
    }
  }

  /** The last point holds the totals of the whole stream; there is none exactly when nothing moved them. */
  lemma {:induction false} LastPointHoldsTotals(rows: seq<Event>)
    ensures PointsOf(rows) != [] ==>
              Last(PointsOf(rows)).effort == TotalEffort(rows) && Last(PointsOf(rows)).cost == TotalCost(rows)
    ensures PointsOf(rows) == [] ==> TotalEffort(rows) == 0 && TotalCost(rows) == 0.0
  {
    if rows != [] {
      LastPointHoldsTotals(Front(rows));
    }
  }
}
