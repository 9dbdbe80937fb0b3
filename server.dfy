// The server's document store: one in-memory document `{ reports: [...] }`
// behind the `/api/reports` endpoints. Each request is one atomic method;
// file reads and writes, routing and the clock are outside the model.

module ServerStore {
  import opened Reports

  /** The persisted document. */
  datatype DbData = DbData(reports: seq<Report>)

  /** A response body. */
  datatype Body = ReportList(items: seq<Report>) | OneReport(report: Report) | NoContent | NotFound(error: string) | Ack(ok: bool)

  datatype Response = Response(status: int, body: Body)

  /** `i` is the position of the first report carrying `id`. */
  predicate IsFirstWithId(s: seq<Report>, i: int, id: string)
  {
    0 <= i < |s| && s[i].id == id && forall j :: 0 <= j < i ==> s[j].id != id
  }

  /** `s.find(r => r.id === id)`, as a position. */
  function FirstWithId(s: seq<Report>, id: string): (r: Option<nat>)
    ensures r.None? <==> forall i :: 0 <= i < |s| ==> s[i].id != id
    ensures r.Some? ==> IsFirstWithId(s, r.value, id)
  {
    if s == [] then None
    else if s[0].id == id then Some(0)
    else
      match FirstWithId(s[1..], id)
      case None => None
      case Some(k) => Some(k + 1)
  }

  /** The list after a successful PUT followup: only the first report with
      `id` has its flag flipped. */
  function FlipFirst(s: seq<Report>, id: string): (r: seq<Report>)
    ensures |r| == |s|
    ensures forall i :: 0 <= i < |s| ==> r[i] == if IsFirstWithId(s, i, id) then Flip(s[i]) else s[i]
  {
    match FirstWithId(s, id)
    case None => s
    case Some(k) => s[k := Flip(s[k])]
  }

  /** Flipping the first match twice restores the list. */
  lemma FlipFirstInvolution(s: seq<Report>, id: string)
    ensures FlipFirst(FlipFirst(s, id), id) == s
  {
    var t := FlipFirst(s, id);
    assert forall i :: 0 <= i < |s| ==> t[i].id == s[i].id;
    assert forall i :: 0 <= i < |s| ==> (IsFirstWithId(t, i, id) <==> IsFirstWithId(s, i, id));
  }

  /** `if (!report.id) report.id = Date.now().toString()`: a present id is
      kept, a missing one replaced by `generated`; no other field changes. */
  function AssignId(report: Report, generated: string): (r: Report)
    ensures r.id == (if report.id != "" then report.id else generated)
    ensures r.(id := report.id) == report
  {
    if report.id == "" then report.(id := generated) else report
  }

  class ReportDb {
    /** `db.data`; None while no document has been read or initialised. */
    var data: Option<DbData>

    /** `db.read()` at start-up; `loaded` is what the file held. */
    constructor (loaded: Option<DbData>)
      ensures data == loaded
    {
      data := loaded;
    }

    /** `db.data.reports` */
    function Stored(): seq<Report>
      reads this
      requires data.Some?
    {
      data.value.reports
    }

    /** `initDB`: keep an existing document, create `{ reports: [] }` only
        when there is none. */
    method InitDB()
      modifies this
      ensures data == if old(data).None? then Some(DbData([])) else old(data)
    {
      if data.None? {
        data := Some(DbData([]));
      }
    }

    /** GET: the stored list, unchanged. */
    method Get() returns (res: Response)
      requires data.Some?
      ensures res == Response(200, ReportList(Stored()))
    {
      res := Response(200, ReportList(data.value.reports));
    }

    /** POST: give the report an id when it has none, put it first, answer
        201 with the stored report. `now` is the clock reading. */
    method Post(report: Report, now: string) returns (res: Response)
      requires data.Some?
      modifies this
      ensures data.Some? && Stored() == [AssignId(report, now)] + old(Stored())
      ensures res == Response(201, OneReport(Stored()[0]))
    {
      var stored := AssignId(report, now);
      data := Some(DbData([stored] + data.value.reports));
      res := Response(201, OneReport(stored));
    }

    /** DELETE: drop every report with `id`; always 204. */
    method Delete(id: string) returns (res: Response)
      requires data.Some?
      modifies this
      ensures data.Some? && Stored() == RemoveId(old(Stored()), id)
      ensures res == Response(204, NoContent)
    {
      data := Some(DbData(RemoveId(data.value.reports, id)));
      res := Response(204, NoContent);
    }

    /** The linear search behind `find`: the first position holding `id`. */
    method Find(id: string) returns (found: Option<nat>)
      requires data.Some?
      ensures found == FirstWithId(Stored(), id)
    {
      var s := data.value.reports;
      var i := 0;
      while i < |s|
        invariant 0 <= i <= |s|
        invariant forall j :: 0 <= j < i ==> s[j].id != id
      {
        if s[i].id == id {
          return Some(i);
        }
        i := i + 1;
      }
      return None;
    }

    /** PUT followup: flip the flag of the first report with `id` and answer
        with it, or answer 404 and change nothing. */
    method PutFollowup(id: string) returns (res: Response)
      requires data.Some?
      modifies this
      ensures data.Some?
      ensures old(FirstWithId(Stored(), id)).None? ==>
        Stored() == old(Stored()) && res == Response(404, NotFound("Not found"))
      ensures old(FirstWithId(Stored(), id)).Some? ==>
        && Stored() == FlipFirst(old(Stored()), id)
        && res == Response(200, OneReport(Stored()[old(FirstWithId(Stored(), id)).value]))
    {
      var found := Find(id);
      match found {
        case None =>
          res := Response(404, NotFound("Not found"));
        case Some(k) =>
          var item := Flip(data.value.reports[k]);
          data := Some(DbData(data.value.reports[k := item]));
          res := Response(200, OneReport(item));
      }
    }

    /** POST reset: empty the list and acknowledge. */
    method Reset() returns (res: Response)
      requires data.Some?
      modifies this
      ensures data.Some? && Stored() == []
      ensures res == Response(200, Ack(true))
    {
      data := Some(DbData([]));
      res := Response(200, Ack(true));
    }
  }
}
