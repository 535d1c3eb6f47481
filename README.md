# Campus route mapper: route capture and CSV records

This project models the two parts of the campus route mapper in `app.py` that hold
real logic, and proves properties of them.

1. **The route-capture state machine.** This is the browser script of the page. The user
   starts drawing and clicks points on the campus image. Every point after the first opens
   a *pending segment* from the previous point. The user must confirm that segment with a
   transport mode and a positive duration before placing another point. Finishing stores
   the committed segments, with a copy of the user's profile, under a new route id taken
   from a counter that only grows. Cancelling drops the route in progress. Single routes,
   or all routes, can be deleted.
2. **The server's records.** `save_csv` turns a finished route into one ledger row per
   segment, under the 14-column ledger header. The in-memory session registry stores
   posted sessions (`save_data`), returns them (`load_data`), summarises them
   (`list_sessions`) and exports one as a header line plus one line per segment
   (`export_data`).

Modules, one per component:

| module | file | models |
|---|---|---|
| `Wrappers` | wrappers.dfy | `Option` / `Result`, and `dict.get(key, default)` |
| `Geometry` | geometry.dfy | points `[lat, lng]` = `(y, x)`, and the squared pixel distance |
| `Payload` | payload.dfy | the JSON bodies that the browser posts to the server |
| `Capture` | capture.dfy | the browser state as class `RouteCapture` and its event handlers |
| `Ledger` | ledger.dfy | the header constants, one row for each segment, the `save_csv` handler, and export lines |
| `Registry` | registry.dfy | `vectors_storage` as class `SessionRegistry` with save, load, list and export |
| `Pipeline`, `Scenario` | pipeline.dfy | lemmas that link a captured route to its ledger rows and its export; a one-segment walk-through |
| `CsvText` | csvtext.dfy | the text of a CSV line: the export's unquoted join and `csv.writer`'s quoting |

Modelling choices:
- The JavaScript `Map` of finished routes iterates in insertion order, and so does the
  Python dict of sessions. Each is modelled as a `map` plus a `seq` of its keys in
  insertion order.
- `parseInt(v) || 0` takes an `Option<int>`. `None` stands for `NaN`, and both `None` and
  0 give 0.
- The clock is an input. `datetime.now()` supplies the ledger timestamp, the session id
  and the session timestamp, so all three are passed in as parameters.
- Distance needs a square root, so a row holds the squared integer distance
  (`Distance(squared)`). Minutes are held as the real value `seconds / 60`; the rounding
  and printing are not modelled.
- A row is a sequence of `Cell`s. `Ledger.Column(name, …)` says what the column with that
  header name holds. The row builders are proved to place each value under the header
  name that describes it.

## Model

| member | source | states |
|---|---|---|
| `Geometry.SquaredDistance` | app.py:809-813 | the squared distance is never negative and is zero exactly when the two points coincide |
| `Geometry.SquaredDistanceSymmetric` | app.py:1238-1240 | the distance from a to b equals the distance from b to a |
| `Capture.SegmentBodies` | app.py:979-984 | one serialised segment per segment, in order; when the route is chained, each serialised segment starts where the previous one ends |
| `Capture.WithoutIncreasing` | app.py:1080-1088 | removing one route id keeps the iteration order of the remaining ids strictly increasing |
| `Capture.RouteCapture.constructor` | app.py:703-716 | the page starts with a blank profile, not drawing, no routes and counter 0 |
| `Capture.RouteCapture.SubmitUserInfo` | app.py:770-778 | the form replaces only the live profile; stored routes keep their own copy |
| `Capture.RouteCapture.StartDrawing` | app.py:908-915 | drawing mode with no points, no segments and no pending segment; finished routes and the counter are untouched |
| `Capture.RouteCapture.AddPoint` | app.py:1150-1179 | ignored when not drawing or while a segment is pending; otherwise the point is appended, and every point after the first opens a pending segment from the previous last point to it; contiguity and the one-pending invariant are kept |
| `Capture.RouteCapture.ConfirmSegment` | app.py:733-757 | no pending segment: nothing happens; total `minutes*60+seconds <= 0`: rejected, nothing changes; otherwise exactly one segment is appended with the chosen mode and that total, and the pending slot is emptied |
| `Capture.RouteCapture.FinishDrawing` | app.py:998-1050 | refused with no committed segment (checked first) or while a segment is pending, and then nothing changes; otherwise the counter rises by exactly 1, the new id is larger than every stored id, the route is stored under it with a copy of the segments and the profile, it is appended to the iteration order, the ledger request for it is produced and the drawing state is reset |
| `Capture.RouteCapture.CancelDrawing` | app.py:1052-1067 | only the in-progress state is cleared; routes and the counter are untouched |
| `Capture.RouteCapture.ClearAllVectors` | app.py:1069-1078 | when confirmed, all routes are removed; otherwise nothing changes; the counter is never touched |
| `Capture.RouteCapture.DeleteVector` | app.py:1080-1088 | removes only that id, keeps the others in order, never changes the counter |
| `Capture.RouteCapture.ToggleDrawing` | app.py:1137-1143 | the draw button cancels while drawing and starts otherwise |
| `Capture.RouteCapture.DoubleClick` | app.py:1181-1186 | calls finishDrawing exactly when drawing with at least two points, and otherwise changes nothing; when called, the outcome is finishDrawing's (no segment is refused first, then a pending segment), a refusal changes nothing, and a finish raises the counter by 1, stores and appends the route under the new id, produces its ledger request and resets the drawing state |
| `Capture.RouteCapture.SessionBody` | app.py:1090-1104 | the saved session lists every finished route once, in the map's iteration order, with its id, serialised segments and stored profile |
| `Ledger.LedgerRow` | app.py:1228-1246 | a ledger row has the 14 fields of the header at app.py:19, each under the column that names it |
| `Ledger.ExportLine` | app.py:1338-1355 | an export line has the 13 fields of the export header, each under the column that names it |
| `Ledger.ExportLineIsLedgerRowTail` | app.py:1334 | the export header is the ledger header without `Timestamp`, and an export line is the ledger row without its timestamp |
| `Ledger.SaveCsv` | app.py:1216-1258 | a missing `routeId`, `segments` or `userData` fails with the first such key; otherwise exactly one row per segment, in segment order, with `Segment_ID = index+1`, the request's route id, one shared timestamp and a missing `durationSeconds` read as 0 |
| `Ledger.RouteLines` | app.py:1337-1355 | one export line per segment of a route, with an absent `userData` read as empty; every line has the 13 export columns, the route's id under `Route_ID`, and `Segment_ID` values running 1..n in segment order |
| `Ledger.ExportLinesCount` | app.py:1336-1355 | the export has exactly as many lines as there are segments in all the routes |
| `Ledger.ExportLinesAppend` | app.py:1336-1355 | exporting two lists of routes gives the lines of the first followed by those of the second |
| `Ledger.ExportLineAt` | app.py:1336-1355 | segment j of route k sits right after all the segments of the routes before k, with that route's id and `Segment_ID` j+1 |
| `Registry.SessionRegistry.constructor` | app.py:10 | the registry starts empty |
| `Registry.SessionRegistry.Save` | app.py:1261-1275 | the payload is stored under the id; an existing id is overwritten and only that entry changes; a new id is appended to the insertion order |
| `Registry.SessionRegistry.Load` | app.py:1284-1294 | a stored id returns exactly the stored payload; an unknown id returns not found |
| `Registry.SessionRegistry.ListSessions` | app.py:1303-1313 | one summary per stored id, in insertion order, with `route_count` = the number of routes in the payload (0 when `vectors` is absent) |
| `Registry.SessionRegistry.ExportData` | app.py:1324-1359 | an unknown id returns not found; otherwise the export header and the lines of every route, route after route |
| `Pipeline.SegmentLedgerRow` | app.py:1228-1246 | a browser segment's ledger row holds its route id, segment number, endpoints, mode value and duration |
| `Pipeline.FinishedRouteLedgerRows` | app.py:998-1046 | a finished route's ledger request contains every key `save_csv` needs; row i has `Segment_ID` i+1 and a positive duration, and ends where row i+1 starts |
| `Pipeline.ExportRouteIdsAtLeast` | app.py:1336-1355 | if every route's id is at least m, then every export line's `Route_ID` (its first column) is at least m |
| `Pipeline.ExportRouteIdsAscending` | app.py:1336-1355 | routes listed in increasing id order export lines in non-decreasing `Route_ID` order |
| `Pipeline.SavedSessionExportInRouteOrder` | app.py:1090-1104 | the session the page saves exports one line per segment, in non-decreasing route-id order |
| `Scenario.CaptureOneSegment` | app.py:1150-1179 | clicks at (0,0) and (3,4) followed by a premature finish, a 30-second walking confirmation and a second finish give route 1 |
| `Scenario.OneSegmentRoute` | app.py:1228-1246 | that route yields one ledger row: route 1, segment 1, squared distance 25, 30 s, 0.5 min |
| `CsvText.ExportLineTextMisaligned` | app.py:1355 | as written, an export line with a comma in a field and no quotes reads back as more fields than it had |
| `CsvText.ExportLineWithCommaInDepartment` | app.py:1355 | the department "Engineering, Business" makes a 13-field export line read back as more than 13 fields |
| `CsvText.CsvLineRoundTrip` | app.py:1226-1246 | a line written with `csv.writer`-style quoting reads back as exactly the fields that were written |

## Findings

| source | as written | input that shows it | evidently intended | confidence | as-written member | corrected member |
|---|---|---|---|---|---|---|
| app.py:1355 | `export_data` builds each line with an f-string that joins its fields with commas and does no quoting | a route whose `userData.department` is `Engineering, Business`; the department field is free text, and its placeholder at app.py:587 itself contains a comma | one CSV field per header column, quoted like the ledger's `csv.writer` rows | high (not executed) | `CsvText.ExportLineTextMisaligned` | `CsvText.CsvLineRoundTrip` |

`CsvText.CsvLine` quotes a field the way Python's `csv.writer` does by default: a field
that contains a comma, a quote or a line break is put in quotes, and each quote inside it
is doubled. `CsvText.Fields` is the reader's split of a line. The round trip is proved for
every list of at least one field. Two edge cases of Python's `csv` module are not
matched. `csv.writer` writes a record of one empty field as `""`, while `CsvLine([""])` is
the empty line. `csv.reader` reads an empty line as no fields, while `Fields("")` is one
empty field. Neither case arises for the 13- and 14-field rows. The cell-level export in `Registry.ExportData` stands for
the export as intended: one field per column.

## Left out

- Markup, styling, map rendering and every other UI concern. This covers map layers,
  polylines, markers, the mouse-move preview line, `redrawCurrentSegments`, `updateUI`,
  `updateStats`, `addVectorToSidebar`, `updateUserInfoDisplay`, `editUserInfo`,
  `alert`, and resetting the form inputs. The stored route therefore has no `layers` field.
- The `confirm()` dialog in `clearAllVectors` is not modelled; its answer is the boolean
  input `confirmed`.
- The network. The `fetch` calls in `saveRouteToCSV` and `saveToServer` are not
  modelled, and neither are their response handling, Flask routing, `jsonify` or HTTP
  status codes. `FinishDrawing` returns the body it would post. `SessionBody` is the body
  `saveToServer` would post.
- File I/O. `initialize_csv` and the file append in `save_csv` are not modelled; `SaveCsv`
  returns the rows it would write.
- Ledger.SaveCsv: the request's JSON keys inside a segment (`start`, `end`, `y`, `x`,
  `transportMode`) are assumed present. Python would raise, and answer 400, partway
  through the loop, after some rows were already written. The model does not cover that
  case.
- Registry.SessionRegistry.ExportData: the `id` and `segments` keys of each route are
  assumed present, as above. The stored payload is also assumed to have the browser's
  shape. A stored `null` or list, or `vectors` or a route's `userData` set to `null`,
  makes Python raise at app.py:1336 or app.py:1351. The model's payload types cannot
  express those bodies.
- Registry.SessionRegistry.ListSessions: every stored payload is assumed to be an object,
  as the browser posts it. `save_data` (app.py:1267) stores any JSON body. One stored
  payload that is not an object, or one whose `vectors` is `null`, makes `len` or `.get`
  raise at app.py:1310. `list_sessions` then answers 400 for every session, not only
  that one. The model does not cover this.
- Ledger.SaveCsv: a request whose `userData` is `null` (present but not an object)
  raises at app.py:1242 in Python. The model's `CsvRequest` reads a present key as an
  object, so that body cannot be expressed.
- Floating point. The square roots at app.py:812 and app.py:1240, `round(…/60, 2)`,
  `:.2f` and Python's printing of numbers are not modelled. Coordinates are integers,
  although Leaflet gives fractional pixel positions.
- The clock. `datetime.now()` and the session-id format `session_%Y%m%d_%H%M%S` are
  inputs. Two saves within the same second get the same id, so the second overwrites the
  first; `Save` states that overwrite.
- Concurrency. `vectors_storage` is a process-wide dict with no lock, and the model is
  single-threaded.
- Only the rendering of fields into text is modelled for the export line
  (`CsvText.Join` takes fields that are already rendered). How numbers become
  digits is not modelled, and neither is the newline join of the lines.
