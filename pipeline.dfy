/** How a route captured in the browser reaches the server's CSV rows: the body that
    `finishDrawing` posts to the ledger, and the session that `saveToServer` posts to
    the registry and `export_data` renders. */
module Pipeline {
  import opened Wrappers
  import opened Geometry
  import opened Payload
  import opened Capture
  import opened Ledger

  /** The ledger row of one browser segment holds the route id, the segment number,
      the segment's endpoints, its mode's option value and its duration. Columns 3 to 6
      are `Start_Y`, `Start_X`, `End_Y`, `End_X`. */
  lemma SegmentLedgerRow(timestamp: string, routeId: nat, segmentId: int, s: Segment, u: UserData)
    ensures LedgerHeader[3..7] == ["Start_Y", "Start_X", "End_Y", "End_X"]
    ensures var row := LedgerRow(timestamp, routeId, segmentId, SegmentBody(s), ProfileBody(u));
      && row[1] == Int(routeId) && row[2] == Int(segmentId)
      && row[3..7] == [Int(s.start.y), Int(s.start.x), Int(s.end.y), Int(s.end.x)]
      && row[7] == Text(ModeValue(s.transportMode))
      && row[9] == Int(s.durationSeconds)
  {
  }

  /** A finished route's ledger request carries every key `save_csv` reads, so every
      segment is written; row `i` has `Segment_ID` `i + 1` and a positive duration (the
      0 default never applies), and ends (`End_Y`, `End_X`) where row `i + 1` starts
      (`Start_Y`, `Start_X`). */
  lemma FinishedRouteLedgerRows(timestamp: string, routeId: nat, segments: seq<Segment>, u: UserData)
    requires Chained(segments) && Timed(segments)
    ensures var req := CsvRequestFor(routeId, segments, u);
      && req.routeId == Some(routeId)
      && req.segments == Some(SegmentBodies(segments))
      && req.userData == Some(ProfileBody(u))
    ensures forall i :: 0 <= i < |segments| ==>
      var row := LedgerRow(timestamp, routeId, i + 1, SegmentBody(segments[i]), ProfileBody(u));
      && row[2] == Int(i + 1)
      && row[9] == Int(segments[i].durationSeconds) && segments[i].durationSeconds > 0
    ensures forall i :: 0 <= i < |segments| - 1 ==>
      LedgerRow(timestamp, routeId, i + 1, SegmentBody(segments[i]), ProfileBody(u))[5..7]
      == LedgerRow(timestamp, routeId, i + 2, SegmentBody(segments[i + 1]), ProfileBody(u))[3..5]
  {
  }

  /** Line `x` carries a `Route_ID` no greater than line `y`'s. */
  predicate RouteIdNotAfter(x: seq<Cell>, y: seq<Cell>)
  {
    |x| > 0 && |y| > 0 && x[0].Int? && y[0].Int? && x[0].n <= y[0].n
  }

  /** Every export line of routes whose ids are at least `m` carries a `Route_ID` of at
      least `m` in its first column. */
  lemma {:induction false} ExportRouteIdsAtLeast(vs: seq<VectorPayload>, m: int)
    requires forall k :: 0 <= k < |vs| ==> vs[k].id >= m
    ensures forall a :: 0 <= a < |ExportLines(vs)| ==>
              |ExportLines(vs)[a]| > 0 && ExportLines(vs)[a][0].Int? && ExportLines(vs)[a][0].n >= m
  {
    if vs != [] {
      ExportRouteIdsAtLeast(vs[1..], m);
    }
  }

  /** When the routes come in increasing id order, the export lists its lines in
      non-decreasing `Route_ID` order. */
  lemma {:induction false} ExportRouteIdsAscending(vs: seq<VectorPayload>)
    requires forall k, l :: 0 <= k < l < |vs| ==> vs[k].id < vs[l].id
    ensures forall a, b :: 0 <= a <= b < |ExportLines(vs)| ==> RouteIdNotAfter(ExportLines(vs)[a], ExportLines(vs)[b])
  {
    if vs != [] {
      var head: seq<seq<Cell>>, rest: seq<seq<Cell>> := RouteLines(vs[0]), ExportLines(vs[1..]);
      var all := head + rest;
      ExportRouteIdsAscending(vs[1..]);
      ExportRouteIdsAtLeast(vs[1..], vs[0].id + 1);
      assert ExportLines(vs) == all;
      forall a, b | 0 <= a <= b < |all|
        ensures RouteIdNotAfter(all[a], all[b])
      {
        if b < |head| {
          assert all[a] == head[a] && all[b] == head[b];
        } else if a < |head| {
          assert all[a] == head[a] && all[b] == rest[b - |head|];
        } else {
          assert all[a] == rest[a - |head|] && all[b] == rest[b - |head|];
        }
      }
    }
  }

  /** The session the capture page saves holds its finished routes in increasing id
      order, so its export lists lines in non-decreasing `Route_ID` order, one line per
      segment of every finished route. */
  lemma SavedSessionExportInRouteOrder(c: RouteCapture)
    requires c.Valid()
    ensures var vs := VectorsOf(c.SessionBody());
      && |ExportLines(vs)| == SegmentTotal(vs)
      && forall a, b :: 0 <= a <= b < |ExportLines(vs)| ==> RouteIdNotAfter(ExportLines(vs)[a], ExportLines(vs)[b])
  {
    var vs := VectorsOf(c.SessionBody());
    assert forall k :: 0 <= k < |vs| ==> vs[k].id == c.vectorOrder[k];
    ExportLinesCount(vs);
    ExportRouteIdsAscending(vs);
  }
}

/** The walk-through of one short route: two clicks open one pending segment, the
    segment is confirmed as 30 seconds of walking, the route is finished as route 1 and
    its ledger request is written as a single row. */
module Scenario {
  import opened Wrappers
  import opened Geometry
  import opened Payload
  import opened Capture
  import opened Ledger

  /** The browser half: clicks at (0, 0) and (3, 4), a premature finish that is
      refused, a confirmation of 0 minutes and 30 seconds of walking, and the finish. */
  method CaptureOneSegment() returns (outcome: FinishOutcome, request: Option<CsvRequest>)
    ensures outcome == Finished(1)
    ensures request == Some(CsvRequestFor(1, [Segment(Point(0, 0), Point(3, 4), Walking, 30)], BlankUser))
  {
    var c := new RouteCapture();
    c.StartDrawing();
    c.AddPoint(Point(0, 0));
    assert c.pendingSegment == None;
    c.AddPoint(Point(3, 4));
    assert c.pendingSegment == Some(PendingSegment(Point(0, 0), Point(3, 4)));
    var early, _ := c.FinishDrawing();
    assert early == EmptyRoute;
    assert c.vectorCounter == 0 && c.userData == BlankUser && c.currentSegments == [];
    var confirmed := c.ConfirmSegment(Walking, Some(0), Some(30));
    assert confirmed == Confirmed;
    assert c.currentSegments == [Segment(Point(0, 0), Point(3, 4), Walking, 30)];
    outcome, request := c.FinishDrawing();
  }

  /** The server half: the ledger gains one row, for segment 1 of route 1, with squared
      distance 25 (a distance of 5.00), 30 seconds and 0.5 minutes. */
  method OneSegmentRoute(timestamp: string) returns (rows: seq<seq<Cell>>)
    ensures |rows| == 1 && |rows[0]| == |LedgerHeader|
    ensures rows[0][1] == Int(1) && rows[0][2] == Int(1)
    ensures rows[0][8] == Distance(25) && rows[0][9] == Int(30) && rows[0][10] == Minutes(0.5)
  {
    var _, request := CaptureOneSegment();
    var written := SaveCsv(timestamp, request.value);
    rows := written.value;
    var body := SegmentBody(Segment(Point(0, 0), Point(3, 4), Walking, 30));
    assert request.value.segments.value[0] == body;
    assert rows[0] == LedgerRow(timestamp, 1, 1, body, ProfileBody(BlankUser));
    assert SquaredDistance(Point(0, 0), Point(3, 4)) == 25;
  }
}
