/** The server's CSV rows: `save_csv` appends one ledger row per segment of a finished
    route, and `export_data` renders a saved session as a header line plus one line per
    segment. Both build the same per-segment fields; the ledger row also starts with the
    request's timestamp. */
module Ledger {
  import opened Wrappers
  import opened Geometry
  import opened Payload

  /** One field of a CSV row. */
  datatype Cell =
    | Text(s: string)
    | Int(n: int)
      /** The pixel distance: the square root of `squared`, printed with two decimals. */
    | Distance(squared: int)
      /** A duration in minutes, printed rounded to two decimals. */
    | Minutes(value: real)

  /** The ledger file's header row, written when the file is created. */
  const LedgerHeader: seq<string> :=
    ["Timestamp", "Route_ID", "Segment_ID", "Start_Y", "Start_X", "End_Y", "End_X",
     "Transport_Mode", "Distance_Pixels", "Duration_Seconds", "Duration_Minutes",
     "User_Type", "Grade_Level", "Department"]

  /** The first line of a session export. */
  const ExportHeader: seq<string> :=
    ["Route_ID", "Segment_ID", "Start_Y", "Start_X", "End_Y", "End_X",
     "Transport_Mode", "Distance_Pixels", "Duration_Seconds", "Duration_Minutes",
     "User_Type", "Grade_Level", "Department"]

  /** A whole CSV document: its header line and its data lines. */
  datatype Table = Table(header: seq<string>, rows: seq<seq<Cell>>)

  /** A request key that the handler indexes with `[...]` and did not find. */
  datatype Error = MissingKey(key: string)

  /** `segment.get('durationSeconds', 0)`. */
  function DurationOf(s: SegmentPayload): int
  {
    GetOr(s.durationSeconds, 0)
  }

  /** The value that the column called `name` holds for segment `segmentId` of route
      `routeId`, whatever position the column has; this is what the header promises a
      reader of the file. The export has no timestamp column, so `timestamp` does not
      matter there. */
  function Column(name: string, timestamp: string, routeId: int, segmentId: int,
                  s: SegmentPayload, u: Profile): Cell
  {
    if name == "Timestamp" then Text(timestamp)
    else if name == "Route_ID" then Int(routeId)
    else if name == "Segment_ID" then Int(segmentId)
    else if name == "Start_Y" then Int(s.start.y)
    else if name == "Start_X" then Int(s.start.x)
    else if name == "End_Y" then Int(s.end.y)
    else if name == "End_X" then Int(s.end.x)
    else if name == "Transport_Mode" then Text(s.transportMode)
    else if name == "Distance_Pixels" then Distance(SquaredDistance(s.start, s.end))
    else if name == "Duration_Seconds" then Int(DurationOf(s))
    else if name == "Duration_Minutes" then Minutes(DurationOf(s) as real / 60.0)
    else if name == "User_Type" then Text(GetOr(u.userType, ""))
    else if name == "Grade_Level" then Text(GetOr(u.gradeLevel, ""))
    else if name == "Department" then Text(GetOr(u.department, ""))
    else Text("")
  }

  /** The row `save_csv` writes for one segment: one field per header column, each
      under the column that names it. */
  function LedgerRow(timestamp: string, routeId: int, segmentId: int, s: SegmentPayload, u: Profile)
    : (row: seq<Cell>)
    ensures |row| == |LedgerHeader|
    ensures forall c :: 0 <= c < |row| ==> row[c] == Column(LedgerHeader[c], timestamp, routeId, segmentId, s, u)
  {
    var duration := DurationOf(s);
    [Text(timestamp), Int(routeId), Int(segmentId),
     Int(s.start.y), Int(s.start.x), Int(s.end.y), Int(s.end.x),
     Text(s.transportMode), Distance(SquaredDistance(s.start, s.end)),
     Int(duration), Minutes(duration as real / 60.0),
     Text(GetOr(u.userType, "")), Text(GetOr(u.gradeLevel, "")), Text(GetOr(u.department, ""))]
  }

  /** The line `export_data` writes for one segment: one field per export column, each
      under the column that names it. */
  function ExportLine(routeId: int, segmentId: int, s: SegmentPayload, u: Profile): (line: seq<Cell>)
    ensures |line| == |ExportHeader|
    ensures forall c :: 0 <= c < |line| ==> line[c] == Column(ExportHeader[c], "", routeId, segmentId, s, u)
  {
    var duration := DurationOf(s);
    [Int(routeId), Int(segmentId),
     Int(s.start.y), Int(s.start.x), Int(s.end.y), Int(s.end.x),
     Text(s.transportMode), Distance(SquaredDistance(s.start, s.end)),
     Int(duration), Minutes(duration as real / 60.0),
     Text(GetOr(u.userType, "")), Text(GetOr(u.gradeLevel, "")), Text(GetOr(u.department, ""))]
  }

  /** An export line is the ledger row for the same segment without its timestamp,
      and the export header is the ledger header without `Timestamp`. */
  lemma ExportLineIsLedgerRowTail(timestamp: string, routeId: int, segmentId: int, s: SegmentPayload, u: Profile)
    ensures ExportHeader == LedgerHeader[1..]
    ensures ExportLine(routeId, segmentId, s, u) == LedgerRow(timestamp, routeId, segmentId, s, u)[1..]
  {
  }

  /** The `save_csv` handler: the request keys `routeId`, `segments` and `userData` are
      read in that order and the first missing one fails the request; otherwise one row
      per segment, in segment order, numbered from 1, all with the same timestamp. */
  method SaveCsv(timestamp: string, req: CsvRequest) returns (r: Result<seq<seq<Cell>>, Error>)
    ensures req.routeId.None? ==> r == Failure(MissingKey("routeId"))
    ensures req.routeId.Some? && req.segments.None? ==> r == Failure(MissingKey("segments"))
    ensures req.routeId.Some? && req.segments.Some? && req.userData.None? ==> r == Failure(MissingKey("userData"))
    ensures req.routeId.Some? && req.segments.Some? && req.userData.Some? ==>
              && r.Success?
              && |r.value| == |req.segments.value|
              && forall i :: 0 <= i < |r.value| ==>
                   r.value[i] == LedgerRow(timestamp, req.routeId.value, i + 1, req.segments.value[i], req.userData.value)
  {
    if req.routeId.None? {
      return Failure(MissingKey("routeId"));
    }
    if req.segments.None? {
      return Failure(MissingKey("segments"));
    }
    if req.userData.None? {
      return Failure(MissingKey("userData"));
    }
    var routeId, segments, userData := req.routeId.value, req.segments.value, req.userData.value;
    var rows: seq<seq<Cell>> := [];
    for idx := 0 to |segments|
      invariant |rows| == idx
      invariant forall i :: 0 <= i < idx ==> rows[i] == LedgerRow(timestamp, routeId, i + 1, segments[i], userData)
    {
      rows := rows + [LedgerRow(timestamp, routeId, idx + 1, segments[idx], userData)];
    }
    return Success(rows);
  }

  /** The export lines of one saved route, numbered from 1 within the route: every line
      carries the route's id under `Route_ID` and its position under `Segment_ID`. */
  function RouteLines(v: VectorPayload): (lines: seq<seq<Cell>>)
    ensures |lines| == |v.segments|
    ensures forall j :: 0 <= j < |lines| ==>
              && |lines[j]| == |ExportHeader|
              && ExportHeader[0] == "Route_ID" && lines[j][0] == Int(v.id)
              && ExportHeader[1] == "Segment_ID" && lines[j][1] == Int(j + 1)
    ensures forall j :: 0 <= j < |lines| ==>
              lines[j] == ExportLine(v.id, j + 1, v.segments[j], GetOr(v.userData, NoProfile))
  {
    seq(|v.segments|, j requires 0 <= j < |v.segments| =>
      ExportLine(v.id, j + 1, v.segments[j], GetOr(v.userData, NoProfile)))
  }

  /** The export lines of a session's routes: each route's lines, route after route. */
  function ExportLines(vs: seq<VectorPayload>): seq<seq<Cell>>
  {
    if vs == [] then [] else RouteLines(vs[0]) + ExportLines(vs[1..])
  }

  /** The number of segments over all the routes. */
  function SegmentTotal(vs: seq<VectorPayload>): nat
  {
    if vs == [] then 0 else |vs[0].segments| + SegmentTotal(vs[1..])
  }

  /** The export has exactly one line per segment of every route. */
  lemma {:induction false} ExportLinesCount(vs: seq<VectorPayload>)
    ensures |ExportLines(vs)| == SegmentTotal(vs)
  {
    if vs != [] {
      ExportLinesCount(vs[1..]);
    }
  }

  /** Exporting two lists of routes one after the other gives the lines of each, in turn. */
  lemma {:induction false} ExportLinesAppend(a: seq<VectorPayload>, b: seq<VectorPayload>)
    ensures ExportLines(a + b) == ExportLines(a) + ExportLines(b)
    ensures SegmentTotal(a + b) == SegmentTotal(a) + SegmentTotal(b)
  {
    if a == [] {
      assert a + b == b;
    } else {
      assert (a + b)[1..] == a[1..] + b;
      ExportLinesAppend(a[1..], b);
    }
  }

  /** Segment `j` of route `k` is exported at the line that follows every segment of
      the routes before it, with `Route_ID` the route's id and `Segment_ID` `j + 1`. */
  lemma {:induction false} ExportLineAt(vs: seq<VectorPayload>, k: nat, j: nat)
    requires k < |vs| && j < |vs[k].segments|
    ensures SegmentTotal(vs[..k]) + j < |ExportLines(vs)|
    ensures ExportLines(vs)[SegmentTotal(vs[..k]) + j]
            == ExportLine(vs[k].id, j + 1, vs[k].segments[j], GetOr(vs[k].userData, NoProfile))
  {
    ExportLinesCount(vs[1..]);
    if k == 0 {
      assert vs[..0] == [];
    } else {
      ExportLineAt(vs[1..], k - 1, j);
      assert vs[1..][..k - 1] == vs[..k][1..];
      assert vs[1..][k - 1] == vs[k];
    }
  }
}
