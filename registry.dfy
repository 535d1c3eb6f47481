/** The server's in-memory session registry `vectors_storage`: `save_data` stores a
    posted payload under a session id, `load_data` returns it, `list_sessions` summarises
    every stored session and `export_data` renders one as CSV. A Python dict iterates in
    insertion order, and overwriting a key keeps its place; `order` is that order. */
module Registry {
  import opened Wrappers
  import opened Payload
  import opened Ledger

  /** A stored session: the time it was saved and the payload as posted. */
  datatype Session = Session(timestamp: string, data: SessionData)

  /** One entry of `list_sessions`. */
  datatype Summary = Summary(sessionId: string, timestamp: string, routeCount: nat)

  /** The answer to a lookup of an id that was never stored. */
  datatype RegistryError = SessionNotFound

  /** No element occurs twice. */
  predicate Distinct(s: seq<string>)
  {
    forall i, j :: 0 <= i < j < |s| ==> s[i] != s[j]
  }

  class SessionRegistry {
    var sessions: map<string, Session>
    var order: seq<string>

    ghost predicate Valid()
      reads this
    {
      && (forall id :: id in sessions <==> id in order)
      && Distinct(order)
    }

    /** The registry at process start: empty. */
    constructor ()
      ensures Valid() && sessions == map[] && order == []
    {
      sessions := map[];
      order := [];
    }

    /** `save_data`: store `data` under `sessionId`, stamped with `timestamp` (both come
        from the clock, so they are inputs here). A second save under the same id
        replaces that entry only, keeping its place in the order. */
    method Save(sessionId: string, timestamp: string, data: SessionData)
      requires Valid()
      modifies this
      ensures Valid()
      ensures sessions == old(sessions)[sessionId := Session(timestamp, data)]
      ensures order == if sessionId in old(sessions) then old(order) else old(order) + [sessionId]
    {
      if sessionId !in sessions {
        order := order + [sessionId];
      }
      sessions := sessions[sessionId := Session(timestamp, data)];
    }

    /** `load_data`: the stored payload, or nothing for an unknown id. */
    method Load(sessionId: string) returns (r: Option<SessionData>)
      requires Valid()
      ensures r.Some? <==> sessionId in sessions
      ensures r.Some? ==> r.value == sessions[sessionId].data
    {
      if sessionId in sessions {
        r := Some(sessions[sessionId].data);
      } else {
        r := None;
      }
    }

    /** The summary `list_sessions` gives of a stored session: its id, its timestamp and
        the number of routes in its payload (`len(data.get('vectors', []))`). */
    function SummaryOf(sessionId: string): Summary
      reads this
      requires sessionId in sessions
    {
      Summary(sessionId, sessions[sessionId].timestamp, |VectorsOf(sessions[sessionId].data)|)
    }

    /** `list_sessions`: one summary per stored session, in insertion order. */
    method ListSessions() returns (summaries: seq<Summary>)
      requires Valid()
      ensures |summaries| == |order| == |sessions|
      ensures forall i :: 0 <= i < |summaries| ==> order[i] in sessions && summaries[i] == SummaryOf(order[i])
      ensures forall id :: id in sessions <==> exists i :: 0 <= i < |summaries| && summaries[i].sessionId == id
    {
      summaries := [];
      for i := 0 to |order|
        invariant |summaries| == i
        invariant forall k :: 0 <= k < i ==> order[k] in sessions && summaries[k] == SummaryOf(order[k])
      {
        summaries := summaries + [SummaryOf(order[i])];
      }
      CountDistinctKeys(order, sessions);
      forall id | id in sessions
        ensures exists i :: 0 <= i < |summaries| && summaries[i].sessionId == id
      {
        var i :| 0 <= i < |order| && order[i] == id;
        assert summaries[i].sessionId == id;
      }
    }

    /** `export_data`: for a stored session, the export header and one line per
        segment of every route of its payload, route after route; for an unknown id,
        not found. */
    method ExportData(sessionId: string) returns (r: Result<Table, RegistryError>)
      requires Valid()
      ensures sessionId !in sessions ==> r == Failure(SessionNotFound)
      ensures sessionId in sessions ==>
                r == Success(Table(ExportHeader, ExportLines(VectorsOf(sessions[sessionId].data))))
    {
      if sessionId !in sessions {
        return Failure(SessionNotFound);
      }
      var vs := VectorsOf(sessions[sessionId].data);
      var lines: seq<seq<Cell>> := [];
      for k := 0 to |vs|
        invariant lines == ExportLines(vs[..k])
      {
        var v := vs[k];
        var profile := GetOr(v.userData, NoProfile);
        ghost var done := lines;
        for j := 0 to |v.segments|
          invariant lines == done + RouteLines(v)[..j]
        {
          lines := lines + [ExportLine(v.id, j + 1, v.segments[j], profile)];
          assert RouteLines(v)[..j + 1] == RouteLines(v)[..j] + [RouteLines(v)[j]];
        }
        assert RouteLines(v)[..|v.segments|] == RouteLines(v);
        ExportLinesAppend(vs[..k], [v]);
        assert vs[..k + 1] == vs[..k] + [v];
        assert ExportLines([v]) == RouteLines(v) + ExportLines([]);
      }
      assert vs[..|vs|] == vs;
      return Success(Table(ExportHeader, lines));
    }
  }

  /** A map whose keys are listed without repetition by a sequence has as many entries
      as the sequence has elements. */
  lemma {:induction false} CountDistinctKeys(order: seq<string>, m: map<string, Session>)
    requires Distinct(order)
    requires forall id :: id in m <==> id in order
    ensures |m| == |order|
  {
    if order == [] {
      assert m.Keys == {};
    } else {
      var last := order[|order| - 1];
      var rest := order[..|order| - 1];
      assert last !in rest;
      assert forall id :: id in m - {last} <==> id in rest;
      CountDistinctKeys(rest, m - {last});
    }
  }
}
