/** The JSON bodies that the browser sends to the server. A key the server may find
    missing is an `Option`; the server reads the others with `[...]` and this model
    takes them as always present. */
module Payload {
  import opened Wrappers
  import opened Geometry

  /** One segment as serialised by the browser:
      `{start: {y, x}, end: {y, x}, transportMode, durationSeconds}`. */
  datatype SegmentPayload = SegmentPayload(
    start: Point,
    end: Point,
    transportMode: string,
    durationSeconds: Option<int>)

  /** The `userData` object; the server reads each key with `.get(key, '')`. */
  datatype Profile = Profile(
    userType: Option<string>,
    gradeLevel: Option<string>,
    department: Option<string>)

  /** The profile used when `userData` itself is absent (`vector.get('userData', {})`). */
  const NoProfile := Profile(None, None, None)

  /** One finished route in a saved session: `{id, segments, userData}`. */
  datatype VectorPayload = VectorPayload(
    id: int,
    segments: seq<SegmentPayload>,
    userData: Option<Profile>)

  /** The body of `/api/save`: `{userData, vectors}`; stored verbatim by the registry. */
  datatype SessionData = SessionData(
    userData: Option<Profile>,
    vectors: Option<seq<VectorPayload>>)

  /** The body of `/api/save-csv`: `{routeId, segments, userData}`. */
  datatype CsvRequest = CsvRequest(
    routeId: Option<int>,
    segments: Option<seq<SegmentPayload>>,
    userData: Option<Profile>)

  /** The finished routes of a session, `data.get('vectors', [])`. */
  function VectorsOf(d: SessionData): seq<VectorPayload>
  {
    GetOr(d.vectors, [])
  }
}
