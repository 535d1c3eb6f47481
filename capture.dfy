/** The browser-side route capture: the user clicks points on the map, each new point
    opens a pending segment that must be annotated with a transport mode and a duration
    before the next point, and a finished route is kept under a fresh numeric id. */
module Capture {
  import opened Wrappers
  import opened Geometry
  import opened Payload

  /** The options of the transport selector. */
  datatype Mode = Walking | Biking | Driving | Transit | Other

  /** The `value` of the selector option for `m`, as sent to the server. */
  function ModeValue(m: Mode): string
  {
    match m
    case Walking => "walking"
    case Biking => "biking"
    case Driving => "driving"
    case Transit => "transit"
    case Other => "other"
  }

  /** The segment awaiting annotation; its transport mode is still `null`. */
  datatype PendingSegment = PendingSegment(start: Point, end: Point)

  /** A confirmed segment. */
  datatype Segment = Segment(start: Point, end: Point, transportMode: Mode, durationSeconds: int)

  /** The profile entered in the user-information form. */
  datatype UserData = UserData(userType: string, gradeLevel: string, department: string)

  const BlankUser := UserData("", "", "")

  /** A finished route as kept in `vectors`; its map layers are not modelled. */
  datatype Route = Route(segments: seq<Segment>, userData: UserData)

  /** What the confirm-segment button did. */
  datatype ConfirmOutcome = NoPendingSegment | InvalidDuration | Confirmed

  /** What `finishDrawing` did. */
  datatype FinishOutcome = EmptyRoute | PendingUnresolved | Finished(routeId: nat)

  /** `parseInt(value) || 0`: a value that does not parse (`None`, JavaScript's `NaN`) counts as 0. */
  function ParsedOrZero(v: Option<int>): int
  {
    GetOr(v, 0)
  }

  /** The duration entered for the pending segment, `minutes * 60 + seconds`. */
  function TotalSeconds(minutes: Option<int>, seconds: Option<int>): int
  {
    ParsedOrZero(minutes) * 60 + ParsedOrZero(seconds)
  }

  /** Committed segment `i` runs from point `i` to point `i + 1`. */
  predicate Contiguous(points: seq<Point>, segments: seq<Segment>)
  {
    && (segments == [] || |segments| < |points|)
    && forall i :: 0 <= i < |segments| ==> segments[i].start == points[i] && segments[i].end == points[i + 1]
  }

  /** Each segment starts where the previous one ended. */
  predicate Chained(segments: seq<Segment>)
  {
    forall i :: 0 <= i < |segments| - 1 ==> segments[i].end == segments[i + 1].start
  }

  /** Every segment carries a positive duration, as the confirm handler demands. */
  predicate Timed(segments: seq<Segment>)
  {
    forall i :: 0 <= i < |segments| ==> segments[i].durationSeconds > 0
  }

  /** Strictly increasing. */
  predicate Increasing(s: seq<nat>)
  {
    forall i, j :: 0 <= i < j < |s| ==> s[i] < s[j]
  }

  /** `s` with every occurrence of `x` removed, the rest in their order. */
  function Without(s: seq<nat>, x: nat): (r: seq<nat>)
    ensures forall y :: y in r <==> y in s && y != x
  {
    if s == [] then []
    else if s[0] == x then Without(s[1..], x)
    else [s[0]] + Without(s[1..], x)
  }

  /** Removing an element keeps a strictly increasing sequence strictly increasing. */
  lemma {:induction false} WithoutIncreasing(s: seq<nat>, x: nat)
    requires Increasing(s)
    ensures Increasing(Without(s, x))
  {
    if s != [] {
      WithoutIncreasing(s[1..], x);
      if s[0] != x {
        var rest := Without(s[1..], x);
        forall y | y in rest
          ensures s[0] < y
        {
          var j :| 0 <= j < |s[1..]| && s[1..][j] == y;
          assert s[j + 1] == y;
        }
        var r := [s[0]] + rest;
        forall i, j | 0 <= i < j < |r|
          ensures r[i] < r[j]
        {
          assert r[j] == rest[j - 1];
          if i > 0 {
            assert r[i] == rest[i - 1];
          } else {
            assert r[j] in rest;
          }
        }
      }
    }
  }

  /** A segment as serialised for the server (`saveRouteToCSV`, `saveToServer`). */
  function SegmentBody(s: Segment): SegmentPayload
  {
    SegmentPayload(s.start, s.end, ModeValue(s.transportMode), Some(s.durationSeconds))
  }

  /** The `userData` object as serialised for the server. */
  function ProfileBody(u: UserData): Profile
  {
    Profile(Some(u.userType), Some(u.gradeLevel), Some(u.department))
  }

  /** The serialised segments, in order. A chained route stays chained: each serialised
      segment starts where the one before it ends. */
  function SegmentBodies(segments: seq<Segment>): (r: seq<SegmentPayload>)
    ensures |r| == |segments|
    ensures forall i :: 0 <= i < |r| ==> r[i] == SegmentBody(segments[i])
    ensures Chained(segments) ==> forall i :: 0 <= i < |r| - 1 ==> r[i].end == r[i + 1].start
  {
    seq(|segments|, i requires 0 <= i < |segments| => SegmentBody(segments[i]))
  }

  /** The body that `saveRouteToCSV` posts to `/api/save-csv`. */
  function CsvRequestFor(routeId: nat, segments: seq<Segment>, u: UserData): CsvRequest
  {
    CsvRequest(Some(routeId), Some(SegmentBodies(segments)), Some(ProfileBody(u)))
  }

  /** The state of the capture page: the profile, the route being drawn and the
      finished routes. `vectors` is a JavaScript `Map`, which iterates in insertion
      order; `vectorOrder` is that order. */
  class RouteCapture {
    var userData: UserData
    var isDrawing: bool
    var currentPoints: seq<Point>
    var currentSegments: seq<Segment>
    var pendingSegment: Option<PendingSegment>
    var vectors: map<nat, Route>
    var vectorOrder: seq<nat>
    var vectorCounter: nat

    /** The invariants every handler keeps. */
    ghost predicate Valid()
      reads this
    {
      // nothing is in progress outside drawing mode
      && (!isDrawing ==> currentPoints == [] && currentSegments == [] && pendingSegment.None?)
      // the committed segments chain the clicked points
      && Contiguous(currentPoints, currentSegments)
      && Timed(currentSegments)
      // at most one pending segment, always the last two points
      && (pendingSegment.None? ==> currentPoints == [] || |currentPoints| == |currentSegments| + 1)
      && (pendingSegment.Some? ==>
            && |currentPoints| == |currentSegments| + 2
            && pendingSegment.value
               == PendingSegment(currentPoints[|currentPoints| - 2], currentPoints[|currentPoints| - 1]))
      // finished routes: ids issued by the counter, kept in increasing insertion order
      && Increasing(vectorOrder)
      && (forall id :: id in vectors <==> id in vectorOrder)
      && (forall id :: id in vectorOrder ==> 1 <= id <= vectorCounter)
      && (forall id :: id in vectors ==>
            vectors[id].segments != [] && Chained(vectors[id].segments) && Timed(vectors[id].segments))
    }

    /** The page as loaded: blank profile, not drawing, no routes, counter at 0. */
    constructor ()
      ensures Valid()
      ensures userData == BlankUser && !isDrawing
      ensures currentPoints == [] && currentSegments == [] && pendingSegment == None
      ensures vectors == map[] && vectorOrder == [] && vectorCounter == 0
    {
      userData := BlankUser;
      isDrawing := false;
      currentPoints := [];
      currentSegments := [];
      pendingSegment := None;
      vectors := map[];
      vectorOrder := [];
      vectorCounter := 0;
    }

    /** Submitting the user-information form replaces the live profile; routes already
        finished keep the copy they took. */
    method SubmitUserInfo(u: UserData)
      requires Valid()
      modifies this`userData
      ensures Valid() && userData == u
    {
      userData := u;
    }

    /** `startDrawing`: enter drawing mode with an empty route. */
    method StartDrawing()
      requires Valid()
      modifies this`isDrawing, this`currentPoints, this`currentSegments, this`pendingSegment
      ensures Valid()
      ensures isDrawing && currentPoints == [] && currentSegments == [] && pendingSegment == None
    {
      isDrawing := true;
      currentPoints := [];
      currentSegments := [];
      pendingSegment := None;
    }

    /** The map click handler: ignored outside drawing mode and while a segment is
        pending; otherwise the point is appended, and every point after the first opens
        a pending segment from the previous last point to it. */
    method AddPoint(p: Point)
      requires Valid()
      modifies this`currentPoints, this`pendingSegment
      ensures Valid()
      ensures !isDrawing || old(pendingSegment).Some? ==>
                currentPoints == old(currentPoints) && pendingSegment == old(pendingSegment)
      ensures isDrawing && old(pendingSegment).None? ==>
                && currentPoints == old(currentPoints) + [p]
                && pendingSegment == (if old(currentPoints) == [] then None
                                      else Some(PendingSegment(old(currentPoints)[|old(currentPoints)| - 1], p)))
    {
      if !isDrawing {
        return;
      }
      if pendingSegment.Some? {
        return;
      }
      if |currentPoints| >= 1 {
        pendingSegment := Some(PendingSegment(currentPoints[|currentPoints| - 1], p));
      }
      ghost var before := currentPoints;
      currentPoints := currentPoints + [p];
      assert forall k :: 0 <= k < |before| ==> currentPoints[k] == before[k];
    }

    /** The confirm-segment handler: with a pending segment and a positive total
        duration, the segment is committed with the chosen mode and that duration and
        the pending slot is emptied; otherwise nothing changes. */
    method ConfirmSegment(mode: Mode, minutes: Option<int>, seconds: Option<int>) returns (outcome: ConfirmOutcome)
      requires Valid()
      modifies this`currentSegments, this`pendingSegment
      ensures Valid()
      ensures outcome == if old(pendingSegment).None? then NoPendingSegment
                         else if TotalSeconds(minutes, seconds) <= 0 then InvalidDuration
                         else Confirmed
      ensures outcome != Confirmed ==>
                currentSegments == old(currentSegments) && pendingSegment == old(pendingSegment)
      ensures outcome == Confirmed ==>
                && currentSegments == old(currentSegments)
                     + [Segment(old(pendingSegment).value.start, old(pendingSegment).value.end,
                                mode, TotalSeconds(minutes, seconds))]
                && pendingSegment == None
    {
      if pendingSegment.None? {
        return NoPendingSegment;
      }
      var totalSeconds := ParsedOrZero(minutes) * 60 + ParsedOrZero(seconds);
      if totalSeconds <= 0 {
        return InvalidDuration;
      }
      var pending := pendingSegment.value;
      currentSegments := currentSegments + [Segment(pending.start, pending.end, mode, totalSeconds)];
      pendingSegment := None;
      outcome := Confirmed;
    }

    /** `cancelDrawing`: leave drawing mode and drop the route in progress; finished
        routes and the counter are untouched (the frame says so). */
    method CancelDrawing()
      requires Valid()
      modifies this`isDrawing, this`currentPoints, this`currentSegments, this`pendingSegment
      ensures Valid()
      ensures !isDrawing && currentPoints == [] && currentSegments == [] && pendingSegment == None
    {
      isDrawing := false;
      currentPoints := [];
      currentSegments := [];
      pendingSegment := None;
    }

    /** `finishDrawing`: refused without a committed segment and while a segment is
        pending; otherwise the counter is incremented, the committed segments and a copy
        of the profile are stored under the new id, the route is posted to the ledger
        (`request`) and the drawing state is reset as by `cancelDrawing`. */
    method FinishDrawing() returns (outcome: FinishOutcome, request: Option<CsvRequest>)
      requires Valid()
      modifies this`vectorCounter, this`vectors, this`vectorOrder
      modifies this`isDrawing, this`currentPoints, this`currentSegments, this`pendingSegment
      ensures Valid()
      ensures outcome == if old(currentSegments) == [] then EmptyRoute
                         else if old(pendingSegment).Some? then PendingUnresolved
                         else Finished(old(vectorCounter) + 1)
      ensures !outcome.Finished? ==>
                && request == None
                && vectorCounter == old(vectorCounter) && vectors == old(vectors) && vectorOrder == old(vectorOrder)
                && isDrawing == old(isDrawing) && currentPoints == old(currentPoints)
                && currentSegments == old(currentSegments) && pendingSegment == old(pendingSegment)
      ensures outcome.Finished? ==>
                && vectorCounter == outcome.routeId
                && (forall id :: id in old(vectors) ==> id < outcome.routeId)
                && vectors == old(vectors)[outcome.routeId := Route(old(currentSegments), userData)]
                && vectorOrder == old(vectorOrder) + [outcome.routeId]
                && request == Some(CsvRequestFor(outcome.routeId, old(currentSegments), userData))
                && !isDrawing && currentPoints == [] && currentSegments == [] && pendingSegment == None
    {
      if currentSegments == [] {
        return EmptyRoute, None;
      }
      if pendingSegment.Some? {
        return PendingUnresolved, None;
      }
      ghost var before := vectorOrder;
      assert forall i :: 0 <= i < |before| ==> before[i] in vectorOrder;
      assert forall i :: 0 <= i < |before| ==> before[i] <= vectorCounter;
      vectorCounter := vectorCounter + 1;
      var finalSegments := currentSegments;
      vectors := vectors[vectorCounter := Route(finalSegments, userData)];
      vectorOrder := vectorOrder + [vectorCounter];
      request := Some(CsvRequestFor(vectorCounter, finalSegments, userData));
      outcome := Finished(vectorCounter);
      CancelDrawing();
    }

    /** `clearAllVectors`, with the answer to its confirmation dialog: when confirmed,
        every finished route is dropped; the counter is untouched (the frame says so). */
    method ClearAllVectors(confirmed: bool)
      requires Valid()
      modifies this`vectors, this`vectorOrder
      ensures Valid()
      ensures confirmed ==> vectors == map[] && vectorOrder == []
      ensures !confirmed ==> vectors == old(vectors) && vectorOrder == old(vectorOrder)
    {
      if confirmed {
        vectors := map[];
        vectorOrder := [];
      }
    }

    /** `deleteVector`: drop the route with this id, if there is one; the other routes
        keep their order and the counter is untouched (the frame says so). */
    method DeleteVector(id: nat)
      requires Valid()
      modifies this`vectors, this`vectorOrder
      ensures Valid()
      ensures vectors == old(vectors) - {id}
      ensures vectorOrder == Without(old(vectorOrder), id)
    {
      if id in vectors {
        vectors := vectors - {id};
        WithoutIncreasing(vectorOrder, id);
        vectorOrder := Without(vectorOrder, id);
      } else {
        WithoutAbsent(vectorOrder, id);
      }
    }

    /** The draw button: cancels while drawing and starts a route otherwise. */
    method ToggleDrawing()
      requires Valid()
      modifies this`isDrawing, this`currentPoints, this`currentSegments, this`pendingSegment
      ensures Valid()
      ensures isDrawing == !old(isDrawing)
      ensures currentPoints == [] && currentSegments == [] && pendingSegment == None
    {
      if isDrawing {
        CancelDrawing();
      } else {
        StartDrawing();
      }
    }

    /** The map double-click handler: calls the finish handler once the route has two
        points, with that handler's outcome, refusals and new state. */
    method DoubleClick() returns (outcome: Option<FinishOutcome>, request: Option<CsvRequest>)
      requires Valid()
      modifies this`vectorCounter, this`vectors, this`vectorOrder
      modifies this`isDrawing, this`currentPoints, this`currentSegments, this`pendingSegment
      ensures Valid()
      ensures outcome.Some? <==> old(isDrawing) && |old(currentPoints)| >= 2
      ensures outcome.None? ==>
                && request == None
                && vectorCounter == old(vectorCounter) && vectors == old(vectors) && vectorOrder == old(vectorOrder)
                && isDrawing == old(isDrawing) && currentPoints == old(currentPoints)
                && currentSegments == old(currentSegments) && pendingSegment == old(pendingSegment)
      ensures outcome.Some? ==>
                outcome.value == if old(currentSegments) == [] then EmptyRoute
                                 else if old(pendingSegment).Some? then PendingUnresolved
                                 else Finished(old(vectorCounter) + 1)
      ensures outcome.Some? && !outcome.value.Finished? ==>
                && request == None
                && vectorCounter == old(vectorCounter) && vectors == old(vectors) && vectorOrder == old(vectorOrder)
                && isDrawing == old(isDrawing) && currentPoints == old(currentPoints)
                && currentSegments == old(currentSegments) && pendingSegment == old(pendingSegment)
      ensures outcome.Some? && outcome.value.Finished? ==>
                && vectorCounter == outcome.value.routeId
                && (forall id :: id in old(vectors) ==> id < outcome.value.routeId)
                && vectors == old(vectors)[outcome.value.routeId := Route(old(currentSegments), userData)]
                && vectorOrder == old(vectorOrder) + [outcome.value.routeId]
                && request == Some(CsvRequestFor(outcome.value.routeId, old(currentSegments), userData))
                && !isDrawing && currentPoints == [] && currentSegments == [] && pendingSegment == None
    {
      if isDrawing && |currentPoints| >= 2 {
        var o;
        o, request := FinishDrawing();
        outcome := Some(o);
      } else {
        outcome, request := None, None;
      }
    }

    /** The body that `saveToServer` posts to `/api/save`: the live profile and every
        finished route in the map's iteration order. */
    function SessionBody(): (d: SessionData)
      reads this
      requires Valid()
      ensures d.userData == Some(ProfileBody(userData))
      ensures d.vectors.Some? && |d.vectors.value| == |vectorOrder| == |vectors|
      ensures forall i :: 0 <= i < |d.vectors.value| ==>
                var id := vectorOrder[i];
                d.vectors.value[i]
                == VectorPayload(id, SegmentBodies(vectors[id].segments), Some(ProfileBody(vectors[id].userData)))
    {
      KeysCount(vectorOrder, vectors);
      var order, routes := vectorOrder, vectors;
      SessionData(
        Some(ProfileBody(userData)),
        Some(seq(|order|, i requires 0 <= i < |order| && order[i] in routes =>
               VectorPayload(order[i], SegmentBodies(routes[order[i]].segments),
                             Some(ProfileBody(routes[order[i]].userData))))))
    }
  }

  /** Removing an element that is absent changes nothing. */
  lemma {:induction false} WithoutAbsent(s: seq<nat>, x: nat)
    requires x !in s
    ensures Without(s, x) == s
  {
    if s != [] {
      WithoutAbsent(s[1..], x);
    }
  }

  /** A map whose keys are listed, without repetition, by a sequence has as many
      entries as the sequence has elements. */
  lemma {:induction false} KeysCount(order: seq<nat>, m: map<nat, Route>)
    requires Increasing(order)
    requires forall id :: id in m <==> id in order
    ensures |m| == |order|
  {
    if order == [] {
      assert m.Keys == {};
    } else {
      var last := order[|order| - 1];
      var rest := order[..|order| - 1];
      assert last !in rest;
      assert forall id :: id in m - {last} <==> id in rest;
      KeysCount(rest, m - {last});
    }
  }
}
